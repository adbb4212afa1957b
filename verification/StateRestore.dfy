/** Restoring the database of a fresh machine from the remote copy, step by step, with every remote call free to
    fail: either a verified snapshot is installed or the local database is what it was. */
module StateRestore {
  import opened Wrappers
  import opened StatePointer
  import opened StateSyncSteps
  import opened StateSyncTheorems
  import Text

  /** A file as its readers see it: as JSON, as the bytes of a snapshot, and to SQLite's integrity check. */
  datatype File = File(json: Option<Json>, content: Database, sound: bool)

  datatype Download = Got(file: File) | NotFound | Unavailable | OsFailure | OtherFailure

  datatype RestoreStatus = RestoreDisabled | SkippedLocal | NoBackup | RemoteUnavailable | RestoreFailed | Restored

  datatype RestoreResult = RestoreResult(status: RestoreStatus, metadata: Option<Metadata>)

  datatype Settings = Settings(syncEnabled: bool, restoreOnStartup: bool, driveConfigured: bool, fileBacked: bool)

  /** How the outside world answers during one restore: the two downloads, a database created meanwhile by someone
      else, and whether the final rename fails. */
  datatype Environment = Environment(pointer: Download, body: string -> Download, appears: Option<File>,
                                     renameFails: bool)

  predicate Matches(hex: Digest -> string, file: File, metadata: Metadata) {
    |file.content| == metadata.sizeBytes && hex(Digest(file.content)) == metadata.sha256 && file.sound
  }

  /** The fields of the restore service and the three files it touches. */
  class StateRestoreService {
    const settings: Settings
    const clock: Clock
    const hex: Digest -> string
    var database: Option<File>
    var pointerFile: Option<File>
    var temporaryDb: Option<File>

    constructor (settings: Settings, clock: Clock, hex: Digest -> string, database: Option<File>)
      ensures this.settings == settings && this.clock == clock && this.hex == hex && this.database == database
    {
      this.settings, this.clock, this.hex := settings, clock, hex;
      this.database, pointerFile, temporaryDb := database, None, None;
    }

    /** The working files never outlive a restore that reached the network. */
    method RestoreIfMissing(env: Environment) returns (r: RestoreResult)
      modifies this
      ensures (r, database) == Outcome(settings, clock, hex, env, old(database))
      ensures Reached(settings, old(database)) ==>
        pointerFile == None && (old(temporaryDb) == None ==> temporaryDb == None)
      ensures !Reached(settings, old(database)) ==> pointerFile == old(pointerFile) && temporaryDb == old(temporaryDb)
    {
      if !settings.syncEnabled || !settings.restoreOnStartup || !settings.driveConfigured {
        return RestoreResult(RestoreDisabled, None);
      }
      if !settings.fileBacked {
        return RestoreResult(RestoreFailed, None);
      }
      if database.Some? {
        return RestoreResult(SkippedLocal, None);
      }
      match env.pointer {
        case Got(file) => pointerFile := Some(file);
        case NotFound =>
          pointerFile := None;
          return RestoreResult(NoBackup, None);
        case _ =>
          pointerFile := None;
          return RestoreResult(RemoteUnavailable, None);
      }
      r := InstallBody(env, pointerFile.value);
      pointerFile, temporaryDb := None, None;
    }

    /** The guarded part, between reading `latest.json` and the rename. */
    method InstallBody(env: Environment, pointer: File) returns (r: RestoreResult)
      requires database == None
      modifies this`database, this`temporaryDb
      ensures (r, database) == Install(clock, hex, env, pointer)
    {
      var read := ReadPointer(clock, pointer.json);
      if read.Err? {
        return RestoreResult(RestoreFailed, None);
      }
      var metadata := read.value;
      match env.body(metadata.filename) {
        case Got(file) => temporaryDb := Some(file);
        case NotFound => return RestoreResult(RestoreFailed, None);
        case OsFailure => return RestoreResult(RestoreFailed, None);
        case _ => return RestoreResult(RemoteUnavailable, None);
      }
      if |temporaryDb.value.content| != metadata.sizeBytes {
        return RestoreResult(RestoreFailed, None);
      }
      if hex(Digest(temporaryDb.value.content)) != metadata.sha256 {
        return RestoreResult(RestoreFailed, None);
      }
      if !temporaryDb.value.sound {
        return RestoreResult(RestoreFailed, None);
      }
      database := env.appears;
      if database.Some? {
        return RestoreResult(SkippedLocal, Some(metadata));
      }
      if env.renameFails {
        return RestoreResult(RestoreFailed, None);
      }
      database, temporaryDb := temporaryDb, None;
      r := RestoreResult(Restored, Some(metadata));
    }
  }

  // ---------- the specification ----------

  predicate Reached(settings: Settings, database: Option<File>) {
    settings.syncEnabled && settings.restoreOnStartup && settings.driveConfigured && settings.fileBacked &&
      database == None
  }

  ghost function Outcome(settings: Settings, clock: Clock, hex: Digest -> string, env: Environment,
                         database: Option<File>)
    : (RestoreResult, Option<File>)
  {
    if !Reached(settings, database) then
      (RestoreResult(
         if !settings.syncEnabled || !settings.restoreOnStartup || !settings.driveConfigured then RestoreDisabled
         else if !settings.fileBacked then RestoreFailed else SkippedLocal, None), database)
    else match env.pointer
      case Got(pointer) => Install(clock, hex, env, pointer)
      case NotFound => (RestoreResult(NoBackup, None), None)
      case _ => (RestoreResult(RemoteUnavailable, None), None)
  }

  /** Someone else's database is noticed only by a restore that got as far as a matching body. */
  ghost function Install(clock: Clock, hex: Digest -> string, env: Environment, pointer: File)
    : (RestoreResult, Option<File>)
  {
    match ReadPointer(clock, pointer.json)
    case Err(_) => (RestoreResult(RestoreFailed, None), None)
    case Ok(metadata) =>
      match env.body(metadata.filename)
      case Got(file) =>
        if !Matches(hex, file, metadata) then (RestoreResult(RestoreFailed, None), None)
        else if env.appears.Some? then (RestoreResult(SkippedLocal, Some(metadata)), env.appears)
        else if env.renameFails then (RestoreResult(RestoreFailed, None), None)
        else (RestoreResult(Restored, Some(metadata)), Some(file))
      case NotFound => (RestoreResult(RestoreFailed, None), None)
      case OsFailure => (RestoreResult(RestoreFailed, None), None)
      case _ => (RestoreResult(RemoteUnavailable, None), None)
  }

  // ---------- the remote as files ----------

  /** The text names of the remote files hold what the remote of the backup protocol holds. */
  ghost predicate Mirrors(clock: Clock, hex: Digest -> string, files: map<string, File>, remote: Remote) {
    && (remote.latest.Some? ==>
          var p := remote.latest.value;
          "latest.json" in files &&
          files["latest.json"].json == Some(WritePointer(clock, p.body.createdAt, hex(p.body.sha256), p.size)))
    && (remote.latest.None? ==> "latest.json" !in files)
    && (forall name :: name in remote.bodies ==>
          var f := BodyFilename(clock, name.createdAt, hex(name.sha256));
          f in files && files[f].content == remote.bodies[name] && files[f].sound)
  }

  /** A digest prints as 64 lower-case hexadecimal digits. */
  ghost predicate PrintsDigests(hex: Digest -> string) {
    forall d :: IsSha256(hex(d))
  }

  /** No two stored bodies of different content have the same creation time and the same printed digest. */
  ghost predicate NoCollision(hex: Digest -> string, remote: Remote) {
    forall n, m :: n in remote.bodies && m in remote.bodies ==>
      (n.createdAt == m.createdAt && hex(n.sha256) == hex(m.sha256) ==> n == m)
  }

  /** Every answer that is not a failure is the truth about the files. */
  ghost predicate Honest(env: Environment, files: map<string, File>) {
    && (env.pointer.Got? ==> "latest.json" in files && env.pointer.file == files["latest.json"])
    && (env.pointer.NotFound? ==> "latest.json" !in files)
    && (forall name :: env.body(name).Got? ==> name in files && env.body(name).file == files[name])
    && (forall name :: env.body(name).NotFound? ==> name !in files)
  }

  function Document(json: Json): File {
    File(Some(json), [], false)
  }

  function BodyFile(clock: Clock, hex: Digest -> string, createdAt: int, content: Database): string {
    BodyFilename(clock, createdAt, hex(Digest(content)))
  }

  /** The three uploads of a backup, file by file. */
  function Uploaded(clock: Clock, hex: Digest -> string, files: map<string, File>, s: State): map<string, File> {
    if s.holder.Free? then files
    else match s.holder.stage
      case Snapped(_, c, content) =>
        if s.svc.lastHash == Some(Digest(content)) then files
        else files[BodyFile(clock, hex, c, content) := File(None, content, true)]
      case BodyStored(_, c, content) =>
        files[BodyFile(clock, hex, c, content) + ".metadata.json" :=
          Document(WritePointer(clock, c, hex(Digest(content)), |content|))]
      case MetadataStored(_, c, content) =>
        files["latest.json" := Document(WritePointer(clock, c, hex(Digest(content)), |content|))]
      case _ => files
  }

  function FilesStep(clock: Clock, hex: Digest -> string, files: map<string, File>, s: State, e: Event)
    : map<string, File>
  {
    if e.Work? || ((e.Fault? || e.Cancelled?) && e.tookEffect) then Uploaded(clock, hex, files, s) else files
  }

  function FilesAfter(clock: Clock, hex: Digest -> string, files: map<string, File>, s: State, es: seq<Event>)
    : map<string, File>
    requires ValidRun(s, es)
    decreases |es|
  {
    if es == [] then files
    else FilesAfter(clock, hex, FilesStep(clock, hex, files, s, es[0]), Apply(s, es[0]), es[1..])
  }

  lemma NamesDiffer(clock: Clock, hex: Digest -> string, n: BodyName, m: BodyName)
    requires clock.Faithful() && PrintsDigests(hex)
    ensures BodyFilename(clock, n.createdAt, hex(n.sha256)) != "latest.json"
    ensures BodyFilename(clock, n.createdAt, hex(n.sha256)) !=
            BodyFilename(clock, m.createdAt, hex(m.sha256)) + ".metadata.json"
    ensures BodyFilename(clock, m.createdAt, hex(m.sha256)) + ".metadata.json" != "latest.json"
    ensures BodyFilename(clock, n.createdAt, hex(n.sha256)) == BodyFilename(clock, m.createdAt, hex(m.sha256)) ==>
      n.createdAt == m.createdAt && hex(n.sha256) == hex(m.sha256)
  {
    var f, g := BodyFilename(clock, n.createdAt, hex(n.sha256)), BodyFilename(clock, m.createdAt, hex(m.sha256));
    assert f[0] == g[0] == 'b' && f[|f| - 1] == '3';
    assert (g + ".metadata.json")[|g| + 13] == 'n';
    if f == g {
      BodyFilenameInjective(clock, n.createdAt, m.createdAt, hex(n.sha256), hex(m.sha256));
    }
  }

  /** Uploading a body under its text name adds exactly that body, and overwrites another one exactly if their
      names collide. */
  lemma BodyUploadMirrored(clock: Clock, hex: Digest -> string, files: map<string, File>, s: State, c: int,
                           content: Database)
    requires clock.Faithful() && PrintsDigests(hex) && Mirrors(clock, hex, files, s.remote) && PublicationInv(s.remote)
    ensures Mirrors(clock, hex, files[BodyFile(clock, hex, c, content) := File(None, content, true)],
                    BodyUploaded(s, c, content).remote)
            <==> NoCollision(hex, BodyUploaded(s, c, content).remote)
  {
    var f, t := BodyFile(clock, hex, c, content), BodyUploaded(s, c, content).remote;
    UploadKeepsPublication(s, c, content);
    hide BodyFilename;
    if Mirrors(clock, hex, files[f := File(None, content, true)], t) {
      MirroredHasNoCollision(clock, hex, files[f := File(None, content, true)], t);
    }
    if NoCollision(hex, t) {
      NamesDiffer(clock, hex, BodyName(c, Digest(content)), BodyName(c, Digest(content)));
      forall name | name in s.remote.bodies
        ensures BodyFilename(clock, name.createdAt, hex(name.sha256)) == f ==> name == BodyName(c, Digest(content))
      {
        NamesDiffer(clock, hex, name, BodyName(c, Digest(content)));
        assert name in t.bodies;
      }
    }
  }

  lemma MirroredHasNoCollision(clock: Clock, hex: Digest -> string, files: map<string, File>, remote: Remote)
    requires Mirrors(clock, hex, files, remote) && PublicationInv(remote)
    ensures NoCollision(hex, remote)
  {
    forall n, m | n in remote.bodies && m in remote.bodies && n.createdAt == m.createdAt &&
      hex(n.sha256) == hex(m.sha256)
      ensures n == m
    {
      assert files[BodyFilename(clock, n.createdAt, hex(n.sha256))].content == remote.bodies[n] == remote.bodies[m];
    }
  }

  lemma MetadataUploadMirrored(clock: Clock, hex: Digest -> string, files: map<string, File>, s: State, c: int,
                               content: Database, doc: File)
    requires clock.Faithful() && PrintsDigests(hex) && Mirrors(clock, hex, files, s.remote)
    ensures Mirrors(clock, hex, files[BodyFile(clock, hex, c, content) + ".metadata.json" := doc],
                    MetadataUploaded(s, c, content).remote)
  {
    forall name | name in s.remote.bodies
      ensures BodyFilename(clock, name.createdAt, hex(name.sha256)) !=
              BodyFile(clock, hex, c, content) + ".metadata.json"
    {
      NamesDiffer(clock, hex, name, BodyName(c, Digest(content)));
    }
    NamesDiffer(clock, hex, BodyName(c, Digest(content)), BodyName(c, Digest(content)));
  }

  lemma PointerUploadMirrored(clock: Clock, hex: Digest -> string, files: map<string, File>, s: State, c: int,
                              content: Database, doc: File)
    requires clock.Faithful() && PrintsDigests(hex) && Mirrors(clock, hex, files, s.remote)
    requires doc.json == Some(WritePointer(clock, c, hex(Digest(content)), |content|))
    ensures Mirrors(clock, hex, files["latest.json" := doc], PointerUploaded(s, c, content).remote)
  {
    forall name | name in s.remote.bodies
      ensures BodyFilename(clock, name.createdAt, hex(name.sha256)) != "latest.json"
    {
      NamesDiffer(clock, hex, name, name);
    }
  }

  /** A step keeps every stored body, so collisions only come. */
  lemma StepKeepsBodies(s: State, e: Event)
    requires Enabled(s, e)
    ensures s.remote.bodies.Keys <= Apply(s, e).remote.bodies.Keys
  {
  }

  lemma {:induction false} RunKeepsBodies(s: State, es: seq<Event>)
    requires ValidRun(s, es)
    ensures s.remote.bodies.Keys <= Run(s, es).remote.bodies.Keys
    decreases |es|
  {
    if es != [] {
      StepKeepsBodies(s, es[0]);
      RunKeepsBodies(Apply(s, es[0]), es[1..]);
    }
  }

  lemma UploadMirrored(clock: Clock, hex: Digest -> string, files: map<string, File>, s: State, e: Event)
    requires clock.Faithful() && PrintsDigests(hex) && Inv(s) && Enabled(s, e)
    requires e.Work? || ((e.Fault? || e.Cancelled?) && e.tookEffect)
    requires Mirrors(clock, hex, files, s.remote) && NoCollision(hex, Apply(s, e).remote)
    ensures Mirrors(clock, hex, Uploaded(clock, hex, files, s), Apply(s, e).remote)
  {
    var doc := (c: int, content: Database) => Document(WritePointer(clock, c, hex(Digest(content)), |content|));
    InvPublishes(s);
    hide Inv, Mirrors, NoCollision, WritePointer, PublicationInv, BodyFilename;
    match s.holder.stage
    case Snapped(_, c, content) =>
      if s.svc.lastHash != Some(Digest(content)) {
        BodyUploadMirrored(clock, hex, files, s, c, content);
      }
    case BodyStored(_, c, content) => MetadataUploadMirrored(clock, hex, files, s, c, content, doc(c, content));
    case MetadataStored(_, c, content) => PointerUploadMirrored(clock, hex, files, s, c, content, doc(c, content));
    case _ =>
  }

  lemma StepMirrored(clock: Clock, hex: Digest -> string, files: map<string, File>, s: State, e: Event)
    requires clock.Faithful() && PrintsDigests(hex) && Inv(s) && Enabled(s, e)
    requires Mirrors(clock, hex, files, s.remote) && NoCollision(hex, Apply(s, e).remote)
    ensures Mirrors(clock, hex, FilesStep(clock, hex, files, s, e), Apply(s, e).remote)
  {
    hide Inv, Mirrors, NoCollision;
    if e.Work? || ((e.Fault? || e.Cancelled?) && e.tookEffect) {
      UploadMirrored(clock, hex, files, s, e);
    } else {
      assert Apply(s, e).remote == s.remote;
    }
  }

  /** Whatever the protocol does, stopped anywhere, the files of the remote are what it believes they are, exactly
      as long as no two stored bodies collide. */
  lemma {:induction false} RunMirrored(clock: Clock, hex: Digest -> string, files: map<string, File>, s: State,
                                       es: seq<Event>)
    requires clock.Faithful() && PrintsDigests(hex) && Inv(s) && ValidRun(s, es) && Mirrors(clock, hex, files, s.remote)
    ensures Mirrors(clock, hex, FilesAfter(clock, hex, files, s, es), Run(s, es).remote) <==>
      NoCollision(hex, Run(s, es).remote)
    decreases |es|
  {
    hide Inv, Apply, Mirrors, FilesStep;
    RunKeepsInv(s, es);
    if Mirrors(clock, hex, FilesAfter(clock, hex, files, s, es), Run(s, es).remote) {
      InvPublishes(Run(s, es));
      MirroredHasNoCollision(clock, hex, FilesAfter(clock, hex, files, s, es), Run(s, es).remote);
    }
    if es != [] && NoCollision(hex, Run(s, es).remote) {
      var t := Apply(s, es[0]);
      RunKeepsBodies(t, es[1..]);
      StepKeepsInv(s, es[0]);
      assert NoCollision(hex, t.remote) by {
        assert forall n :: n in t.remote.bodies ==> n in t.remote.bodies.Keys && n in Run(s, es).remote.bodies.Keys;
      }
      StepMirrored(clock, hex, files, s, es[0]);
      RunMirrored(clock, hex, FilesStep(clock, hex, files, s, es[0]), t, es[1..]);
    }
  }

  lemma InvPublishes(s: State)
    requires Inv(s)
    ensures PublicationInv(s.remote)
  {
  }

  // ---------- what a restore guarantees ----------

  /** RESTORED means exactly that an accepted pointer named a body whose size, digest and integrity all matched, with
      nobody else's database in the way, and that body is now the database. In every other case the database is the
      one that was there before or the one somebody else created meanwhile. */
  lemma RestoredIffVerified(settings: Settings, clock: Clock, hex: Digest -> string, env: Environment,
                            database: Option<File>)
    ensures var (r, after) := Outcome(settings, clock, hex, env, database);
      && (r.status == Restored <==>
            Reached(settings, database) && env.appears == None && !env.renameFails &&
            env.pointer.Got? && ReadPointer(clock, env.pointer.file.json).Ok? &&
            var m := ReadPointer(clock, env.pointer.file.json).value;
            env.body(m.filename).Got? && Matches(hex, env.body(m.filename).file, m))
      && (r.status == Restored ==> r.metadata.Some? && after == Some(env.body(r.metadata.value.filename).file))
      && (r.status != Restored ==> after == database || (database == None && after == env.appears))
      && (database.Some? ==> after == database)
  {
  }

  /** An accepted pointer whose body arrived whole. */
  ghost predicate Arrives(clock: Clock, hex: Digest -> string, env: Environment) {
    && env.pointer.Got? && ReadPointer(clock, env.pointer.file.json).Ok?
    && var m := ReadPointer(clock, env.pointer.file.json).value;
      env.body(m.filename).Got? && Matches(hex, env.body(m.filename).file, m)
  }

  /** What each of the other results says: a local database, or one that appeared meanwhile, is skipped; nothing was
      ever published; the remote did not answer, or not for the body; everything else is a failure. */
  lemma StatusesIff(settings: Settings, clock: Clock, hex: Digest -> string, env: Environment, database: Option<File>)
    ensures var status := Outcome(settings, clock, hex, env, database).0.status;
      var enabled := settings.syncEnabled && settings.restoreOnStartup && settings.driveConfigured;
      && (status == RestoreDisabled <==> !enabled)
      && (status == SkippedLocal <==>
            enabled && settings.fileBacked &&
            (database.Some? || (Arrives(clock, hex, env) && env.appears.Some?)))
      && (status == NoBackup <==> Reached(settings, database) && env.pointer.NotFound?)
      && (status == RemoteUnavailable <==> Reached(settings, database) && Unanswered(clock, env))
  {
  }

  /** One of the two downloads failed for reasons of the remote; an error of the file system is a failure when it hits
      the body, and counts as no answer when it hits the pointer. */
  ghost predicate Unanswered(clock: Clock, env: Environment) {
    if !env.pointer.Got? then !env.pointer.NotFound?
    else
      && ReadPointer(clock, env.pointer.file.json).Ok?
      && var body := env.body(ReadPointer(clock, env.pointer.file.json).value.filename);
        body.Unavailable? || body.OtherFailure?
  }

  /** Stop the backup protocol anywhere and restore on an empty machine over a working network: exactly the
      published snapshot is installed, and there is nothing to restore only when nothing was ever published. */
  lemma StoppedBackupRestores(settings: Settings, clock: Clock, hex: Digest -> string, files: map<string, File>,
                              env: Environment, s: State, es: seq<Event>)
    requires clock.Faithful() && PrintsDigests(hex) && Inv(s) && ValidRun(s, es) && Mirrors(clock, hex, files, s.remote)
    requires NoCollision(hex, Run(s, es).remote) && Honest(env, FilesAfter(clock, hex, files, s, es))
    requires Reached(settings, None) && env.appears == None && !env.renameFails
    requires env.pointer.Got? || env.pointer.NotFound?
    requires forall name :: env.body(name).Got? || env.body(name).NotFound?
    ensures var (r, after) := Outcome(settings, clock, hex, env, None);
      if Run(s, es).remote.latest.Some? then
        r.status == Restored && after.Some? && after.value.content == LatestContent(Run(s, es))
      else r.status == NoBackup && after == None
  {
    StoppedUploadIsRestorable(s, es);
    RunMirrored(clock, hex, files, s, es);
    hide ReadPointer, WritePointer, Run, ValidRun, FilesAfter, BodyFilename, NoCollision;
    var t := Run(s, es);
    if t.remote.latest.Some? {
      var p := t.remote.latest.value;
      assert IsSha256(hex(p.body.sha256));
      WrittenPointerIsRead(clock, p.body.createdAt, hex(p.body.sha256), p.size);
    }
  }

  /** `main` refuses to start after these. */
  predicate Starts(r: RestoreResult) {
    r.status != RemoteUnavailable && r.status != RestoreFailed
  }

  /** However the network fails, an application that starts on an empty machine while a backup exists starts from
      the published snapshot, or from a database somebody else put there: never from nothing. */
  lemma NeverStartsWithoutTheBackup(settings: Settings, clock: Clock, hex: Digest -> string, files: map<string, File>,
                                    env: Environment, s: State, es: seq<Event>)
    requires clock.Faithful() && PrintsDigests(hex) && Inv(s) && ValidRun(s, es) && Mirrors(clock, hex, files, s.remote)
    requires NoCollision(hex, Run(s, es).remote) && Honest(env, FilesAfter(clock, hex, files, s, es))
    requires Reached(settings, None) && Run(s, es).remote.latest.Some?
    requires Starts(Outcome(settings, clock, hex, env, None).0)
    ensures var after := Outcome(settings, clock, hex, env, None).1;
      after.Some? && (after == env.appears || after.value.content == LatestContent(Run(s, es)))
  {
    StoppedUploadIsRestorable(s, es);
    RunMirrored(clock, hex, files, s, es);
    hide ReadPointer, WritePointer, Run, ValidRun, FilesAfter, BodyFilename, NoCollision;
    var p := Run(s, es).remote.latest.value;
    assert IsSha256(hex(p.body.sha256));
    WrittenPointerIsRead(clock, p.body.createdAt, hex(p.body.sha256), p.size);
  }

  // ---------- the assumptions can be met ----------

  function NumberText(n: int): string {
    if n < 0 then "Z" + Text.Digits(-n) else Text.Digits(n)
  }

  function NumberOf(s: string): Option<int> {
    if s != "" && s[0] == 'Z' && Text.AllDigits(s[1..]) then Option<int>.Some(-(Text.Value(s[1..]) as int))
    else if Text.AllDigits(s) then Some(Text.Value(s))
    else None
  }

  /** A clock that writes seconds in decimal. */
  function DecimalClock(): Clock {
    Clock(n => NumberText(n), n => NumberText(n), s => NumberOf(s))
  }

  lemma NumberTextIsRead(n: int)
    ensures NumberOf(NumberText(n)) == Some(n)
    ensures forall c :: c in NumberText(n) ==> '0' <= c <= '9' || c == 'Z'
  {
    if n < 0 {
      Text.DigitsHaveTheirValue(-n);
      assert NumberText(n)[1..] == Text.Digits(-n);
    } else {
      Text.DigitsHaveTheirValue(n);
      assert Text.Digits(n)[0] in Text.Digits(n);
    }
  }

  lemma DecimalClockIsFaithful()
    ensures DecimalClock().Faithful()
  {
    hide NumberText, NumberOf;
    forall n ensures NumberOf(NumberText(n)) == Some(n) {
      NumberTextIsRead(n);
    }
    forall n, c | c in NumberText(n) ensures '0' <= c <= '9' || c == 'Z' {
      NumberTextIsRead(n);
    }
    forall t, u | NumberText(t) == NumberText(u) ensures t == u {
      NumberTextIsRead(t);
      NumberTextIsRead(u);
    }
  }

  /** A working network: it answers with what is there. */
  function Network(files: map<string, File>): Environment {
    Environment(if "latest.json" in files then Got(files["latest.json"]) else NotFound,
                name => if name in files then Got(files[name]) else NotFound, None, false)
  }

  lemma Works(s: State, es: seq<Event>, t: State, e: Event, next: State) returns (fs: seq<Event>)
    requires ValidRun(s, es) && Run(s, es) == t && Enabled(t, e) && Apply(t, e) == next
    ensures ValidRun(s, fs) && Run(s, fs) == next
  {
    RunSnoc(s, es, e);
    fs := es + [e];
  }

  /** The first backup of a database, up to its published pointer. */
  lemma FirstBackup(s: State) returns (es: seq<Event>)
    requires s.svc.Enabled() && s.holder.Free? && s.svc.lastHash == None
    ensures ValidRun(s, es) && Run(s, es).remote.latest.Some?
    ensures Run(s, es).remote.bodies == s.remote.bodies[BodyName(0, Digest(s.log)) := s.log]
  {
    hide ValidRun, Run;
    es := [];
    assert ValidRun(s, []) && Run(s, []) == s by {
      NoStep(s);
    }
    var t := Apply(s, WaiterChecks);
    es := Works(s, es, s, WaiterChecks, t);
    es := Works(s, es, t, WaiterLocks, Apply(t, WaiterLocks));
    t := Apply(t, WaiterLocks);
    es := Works(s, es, t, Work(0), Worked(t, 0));
    t := Worked(t, 0);
    es := Works(s, es, t, Work(0), Worked(t, 0));
    t := Worked(t, 0);
    es := Works(s, es, t, Work(0), Worked(t, 0));
    t := Worked(t, 0);
    es := Works(s, es, t, Work(0), Worked(t, 0));
    t := Worked(t, 0);
    es := Works(s, es, t, Work(0), Worked(t, 0));
    t := Worked(t, 0);
    es := Works(s, es, t, Work(0), Worked(t, 0));
  }

  lemma NoStep(s: State)
    ensures ValidRun(s, []) && Run(s, []) == s
  {
  }

  /** There are a clock, printed digests, a run and answers of the network that the theorems speak about, and that
      run has published a snapshot. */
  lemma AssumptionsAreMet(log: Database) returns (clock: Clock, hex: Digest -> string, s: State, es: seq<Event>)
    ensures clock.Faithful() && PrintsDigests(hex) && Inv(s) && ValidRun(s, es) && Mirrors(clock, hex, map[], s.remote)
    ensures NoCollision(hex, Run(s, es).remote) && Run(s, es).remote.latest.Some? && s.log == log
    ensures var files := FilesAfter(clock, hex, map[], s, es); Honest(Network(files), files)
  {
    DecimalClockIsFaithful();
    clock := DecimalClock();
    var zeros := seq(64, _ => '0');
    assert IsSha256(zeros);
    hex := _ => zeros;
    s := Start(true, false, None, log, Remote(map[], map[], None));
    StartKeepsInv(true, false, false, log, Remote(map[], map[], None));
    es := FirstBackup(s);
  }
}
