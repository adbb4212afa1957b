/** `latest.json`: how the backup points to its newest snapshot, and how a restore reads it back. */
module StatePointer {
  import opened Wrappers
  import opened Text

  datatype Json =
    | JNull
    | JBool(b: bool)
    | JInt(i: int)
    | JReal(r: real)
    | JString(s: string)
    | JArray(items: seq<Json>)
    | JObject(fields: map<string, Json>)

  datatype Metadata = Metadata(filename: string, sha256: string, sizeBytes: nat, createdAt: int)

  datatype PointerError = NotJson | UnsupportedSchema | InvalidFields | UnsafeFilename | InvalidTimestamp

  /** The library calls on text: `stamp` is the UTC `strftime` of the file name, `iso` the printed `created_at`
      and `parseIso` its reading, with the time zone applied. */
  datatype Clock = Clock(stamp: int -> string, iso: int -> string, parseIso: string -> Option<int>)
  {
    /** What Python's `datetime` promises: reading what was printed, and a stamp of digits, `T` and `Z`. */
    ghost predicate Faithful() {
      && (forall t :: parseIso(iso(t)) == Some(t))
      && (forall t :: forall c :: c in stamp(t) ==> '0' <= c <= '9' || c == 'T' || c == 'Z')
      && (forall t, u :: stamp(t) == stamp(u) ==> t == u)
    }
  }

  const SUFFIX := ".sqlite3"

  predicate IsHexDigit(c: char) {
    '0' <= c <= '9' || 'a' <= c <= 'f'
  }

  function LowerChar(c: char): char {
    if 'A' <= c <= 'Z' then c - 'A' + 'a' else c
  }

  function Lower(s: string): (r: string)
    ensures |r| == |s|
  {
    seq(|s|, i requires 0 <= i < |s| => LowerChar(s[i]))
  }

  predicate IsSha256(s: string) {
    |s| == 64 && forall c :: c in s ==> IsHexDigit(c)
  }

  function BodyFilename(clock: Clock, createdAt: int, sha256: string): string {
    "backups/" + clock.stamp(createdAt) + "-" + sha256 + SUFFIX
  }

  function WritePointer(clock: Clock, createdAt: int, sha256: string, size: nat): Json {
    JObject(map[
      "schema_version" := JInt(1),
      "filename" := JString(BodyFilename(clock, createdAt, sha256)),
      "sha256" := JString(sha256),
      "size_bytes" := JInt(size),
      "created_at" := JString(clock.iso(createdAt))])
  }

  // ---------- POSIX paths ----------

  /** A path drops its empty and `.` components. */
  function Components(parts: seq<string>): seq<string> {
    if parts == [] then []
    else if parts[0] == "" || parts[0] == "." then Components(parts[1..])
    else [parts[0]] + Components(parts[1..])
  }

  /** The extension of the last component; a leading or a trailing dot starts none. */
  function SuffixOf(name: string): string {
    var i := LastDot(name);
    if 0 < i < |name| - 1 then name[i..] else ""
  }

  function ParsePath(filename: string): (bool, seq<string>) {
    (filename != "" && filename[0] == '/', Components(Split(filename, '/')))
  }

  predicate SafeParts(parts: seq<string>) {
    parts != [] && parts[0] == "backups" && ".." !in parts && SuffixOf(parts[|parts| - 1]) == SUFFIX
  }

  // ---------- reading ----------

  function Get(o: Json, key: string): Json
    requires o.JObject?
  {
    if key in o.fields then o.fields[key] else JNull
  }

  /** `== 1` also holds of `true` and of `1.0`. */
  predicate IsOne(v: Json) {
    v == JInt(1) || v == JBool(true) || v == JReal(1.0)
  }

  function ReadPointer(clock: Clock, payload: Option<Json>): Result<Metadata, PointerError> {
    if payload.None? then Err(NotJson)
    else if !payload.value.JObject? || !IsOne(Get(payload.value, "schema_version")) then Err(UnsupportedSchema)
    else
      var filename, sha256, size, createdAt := Get(payload.value, "filename"), Get(payload.value, "sha256"),
        Get(payload.value, "size_bytes"), Get(payload.value, "created_at");
      if !filename.JString? || !sha256.JString? || !IsSha256(Lower(sha256.s)) || !size.JInt? || size.i < 0 ||
        !createdAt.JString?
      then Err(InvalidFields)
      else
        var (absolute, parts) := ParsePath(Replace(filename.s, '\\', '/'));
        if absolute || !SafeParts(parts) then Err(UnsafeFilename)
        else match clock.parseIso(createdAt.s)
          case None => Err(InvalidTimestamp)
          case Some(t) => Ok(Metadata(Join(parts, "/"), Lower(sha256.s), size.i, t))
  }

  // ---------- what reading guarantees ----------

  lemma {:induction false} ComponentsOfPlain(parts: seq<string>)
    requires "" !in parts && "." !in parts
    ensures Components(parts) == parts
  {
    if parts != [] {
      ComponentsOfPlain(parts[1..]);
    }
  }

  lemma {:induction false} ComponentsAreParts(parts: seq<string>)
    ensures forall p :: p in Components(parts) ==> p in parts && p != "" && p != "."
  {
    if parts != [] {
      ComponentsAreParts(parts[1..]);
    }
  }

  lemma SuffixOfBody(stem: string)
    requires stem != ""
    ensures SuffixOf(stem + SUFFIX) == SUFFIX
  {
    var name := stem + SUFFIX;
    assert name[|stem|] == '.' && name[|stem|..] == SUFFIX;
    assert forall k :: |stem| < k < |name| ==> name[k] == SUFFIX[k - |stem|] && SUFFIX[k - |stem|] != '.';
  }

  lemma LowerOfHex(s: string)
    requires forall c :: c in s ==> IsHexDigit(c)
    ensures Lower(s) == s
  {
    assert forall i :: 0 <= i < |s| ==> s[i] in s;
  }

  lemma ComponentsBelowBackups(name: string)
    requires |name| > 2 && '/' !in name
    ensures ParsePath("backups/" + name) == (false, ["backups", name])
  {
    assert "backups/" + name == "backups" + ['/'] + name;
    SplitPlain("backups", '/');
    SplitPlain(name, '/');
    SplitConcat("backups", name, '/');
    ComponentsOfPlain(["backups", name]);
    hide Split, Components;
  }

  lemma JoinBelowBackups(name: string)
    ensures Join(["backups", name], "/") == "backups/" + name
  {
    assert ["backups", name][1..] == [name];
    assert Join([name], "/") == name;
  }

  lemma SafeBelowBackups(name: string)
    requires |name| > 2 && SuffixOf(name) == SUFFIX
    ensures SafeParts(["backups", name])
  {
    hide SuffixOf;
    assert ".." != name && ".." != "backups";
  }

  lemma PlainNameIsSafe(stem: string)
    requires stem != "" && '/' !in stem && '\\' !in stem
    ensures var f := "backups/" + (stem + SUFFIX);
      && Replace(f, '\\', '/') == f
      && ParsePath(f) == (false, ["backups", stem + SUFFIX])
      && SafeParts(["backups", stem + SUFFIX])
      && Join(["backups", stem + SUFFIX], "/") == f
  {
    hide Replace, ParsePath, SafeParts, Join, SuffixOf;
    var name := stem + SUFFIX;
    assert '\\' !in "backups/" + name;
    ReplaceAbsent("backups/" + name, '\\', '/');
    SuffixOfBody(stem);
    ComponentsBelowBackups(name);
    SafeBelowBackups(name);
    JoinBelowBackups(name);
  }

  /** The file name it writes is a safe path that needs no rewriting. */
  lemma WrittenNameIsSafe(clock: Clock, createdAt: int, sha256: string)
    requires clock.Faithful() && IsSha256(sha256)
    ensures var f := BodyFilename(clock, createdAt, sha256); var (absolute, parts) := ParsePath(Replace(f, '\\', '/'));
      !absolute && SafeParts(parts) && Join(parts, "/") == f
  {
    var stem := clock.stamp(createdAt) + "-" + sha256;
    assert '/' !in stem && '\\' !in stem;
    PlainNameIsSafe(stem);
    hide ParsePath, Replace, SafeParts, Join;
    assert BodyFilename(clock, createdAt, sha256) == "backups/" + (stem + SUFFIX);
  }

  /** Every pointer the backup writes is accepted, with the fields it was written with. */
  lemma WrittenPointerIsRead(clock: Clock, createdAt: int, sha256: string, size: nat)
    requires clock.Faithful() && IsSha256(sha256)
    ensures ReadPointer(clock, Some(WritePointer(clock, createdAt, sha256, size))) ==
            Ok(Metadata(BodyFilename(clock, createdAt, sha256), sha256, size, createdAt))
  {
    WrittenNameIsSafe(clock, createdAt, sha256);
    LowerOfHex(sha256);
    assert clock.parseIso(clock.iso(createdAt)) == Some(createdAt);
    WrittenFields(clock, createdAt, sha256, size);
    hide ParsePath, Replace, SafeParts, Join, Lower, BodyFilename, Clock.Faithful, Get, WritePointer;
  }

  lemma WrittenFields(clock: Clock, createdAt: int, sha256: string, size: nat)
    ensures var p := WritePointer(clock, createdAt, sha256, size);
      && p.JObject? && Get(p, "schema_version") == JInt(1)
      && Get(p, "filename") == JString(BodyFilename(clock, createdAt, sha256))
      && Get(p, "sha256") == JString(sha256) && Get(p, "size_bytes") == JInt(size)
      && Get(p, "created_at") == JString(clock.iso(createdAt))
  {
    hide BodyFilename;
  }

  lemma SuffixIsAtTheEnd(name: string)
    requires SuffixOf(name) == SUFFIX
    ensures name != "backups" && |name| > |SUFFIX| && name[|name| - |SUFFIX|..] == SUFFIX
  {
    assert '.' in name;
    assert '.' !in "backups";
  }

  /** Whatever the remote holds, an accepted pointer names a `.sqlite3` file strictly below `backups/` by a
      normal relative path, a lower-case digest and a size. */
  lemma AcceptedPointerIsSafe(clock: Clock, payload: Option<Json>)
    requires ReadPointer(clock, payload).Ok?
    ensures var m := ReadPointer(clock, payload).value; IsSha256(m.sha256)
    ensures var m := ReadPointer(clock, payload).value;
      var parts := Split(m.filename, '/'); var name := parts[|parts| - 1];
      && |parts| >= 2 && parts[0] == "backups"
      && (forall p :: p in parts ==> p != "" && p != "." && p != "..")
      && |name| > |SUFFIX| && name[|name| - |SUFFIX|..] == SUFFIX
  {
    var filename := Replace(Get(payload.value, "filename").s, '\\', '/');
    var parts := ParsePath(filename).1;
    SuffixIsAtTheEnd(parts[|parts| - 1]);
    PartsHoldNoSeparator(filename, '/');
    ComponentsAreParts(Split(filename, '/'));
    SplitOfJoin(parts, '/');
    hide Replace, SuffixOf, Get, Split, Components, Join, Lower;
  }

  /** A relative path below `backups` that never goes up and ends in the suffix, with backslashes read as slashes. */
  predicate SafeFilename(filename: string) {
    var (absolute, parts) := ParsePath(Replace(filename, '\\', '/'));
    !absolute && parts != [] && parts[0] == "backups" && ".." !in parts && SuffixOf(parts[|parts| - 1]) == SUFFIX
  }

  /** A pointer is accepted exactly if every field is as it should be. */
  lemma AcceptedPointerIff(clock: Clock, payload: Option<Json>)
    ensures ReadPointer(clock, payload).Ok? <==>
      && payload.Some? && payload.value.JObject?
      && (Get(payload.value, "schema_version") == JInt(1) || Get(payload.value, "schema_version") == JBool(true) ||
          Get(payload.value, "schema_version") == JReal(1.0))
      && Get(payload.value, "filename").JString? && SafeFilename(Get(payload.value, "filename").s)
      && Get(payload.value, "sha256").JString? && IsSha256(Lower(Get(payload.value, "sha256").s))
      && Get(payload.value, "size_bytes").JInt? && Get(payload.value, "size_bytes").i >= 0
      && Get(payload.value, "created_at").JString? && clock.parseIso(Get(payload.value, "created_at").s).Some?
  {
    hide Get, Replace, SuffixOf, ParsePath, Lower;
  }

  /** Two backups never share a file name unless they have the same content digest and creation time. */
  lemma BodyFilenameInjective(clock: Clock, t: int, u: int, sha1: string, sha2: string)
    requires clock.Faithful() && IsSha256(sha1) && IsSha256(sha2)
    requires BodyFilename(clock, t, sha1) == BodyFilename(clock, u, sha2)
    ensures t == u && sha1 == sha2
  {
    var f, g := BodyFilename(clock, t, sha1), BodyFilename(clock, u, sha2);
    assert |clock.stamp(t)| == |clock.stamp(u)|;
    assert clock.stamp(t) == f[8..8 + |clock.stamp(t)|] == clock.stamp(u);
    assert sha1 == f[9 + |clock.stamp(t)|..][..64] == sha2;
  }
}
