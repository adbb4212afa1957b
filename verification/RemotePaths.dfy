/** Where the outputs of a Generation go on the remote drive, and how their date is read back from the path. */
module RemotePaths {
  import opened Wrappers
  import opened Text

  datatype Date = Date(year: nat, month: nat, day: nat)
  {
    /** The dates Python can represent. */
    predicate Valid() {
      1 <= year <= 9999 && 1 <= month <= 12 && 1 <= day <= DaysInMonth(year, month)
    }
  }

  datatype Time = Time(hour: nat, minute: nat, second: nat)

  predicate IsLeap(year: nat) {
    year % 4 == 0 && (year % 100 != 0 || year % 400 == 0)
  }

  function DaysInMonth(year: nat, month: nat): nat {
    if month == 2 then (if IsLeap(year) then 29 else 28)
    else if month == 4 || month == 6 || month == 9 || month == 11 then 30
    else 31
  }

  /** `date.isoformat()`. */
  function IsoDate(d: Date): string {
    Pad(d.year, 4) + "-" + Pad(d.month, 2) + "-" + Pad(d.day, 2)
  }

  /** `f"{d:%Y%m%d}"`: `%Y` does not pad the year. */
  function CompactDate(d: Date): string {
    Digits(d.year) + Pad(d.month, 2) + Pad(d.day, 2)
  }

  /** `date.fromisoformat` on the extended format. */
  function FromIso(s: string): Option<Date> {
    if |s| == 10 && s[4] == '-' && s[7] == '-' && AllDigits(s[..4]) && AllDigits(s[5..7]) && AllDigits(s[8..]) then
      var d := Date(Value(s[..4]), Value(s[5..7]), Value(s[8..]));
      if d.Valid() then Some(d) else None
    else None
  }

  // ---------- building ----------

  /** What the folder name is chosen by; an upscale ignores the flag its snapshot inherited. */
  datatype Kind =
    | Standard(finalUpscale: bool)
    | Upscale(factor: Option<real>, source: Option<(int, int)>, target: Option<(int, int)>)

  predicate Close(a: real, b: real) {
    -0.000000001 <= a - b <= 0.000000001
  }

  predicate IsFourX(kind: Kind) {
    match kind
    case Standard(finalUpscale) => finalUpscale
    case Upscale(Some(factor), _, _) => Close(factor, 4.0)
    case Upscale(None, Some((w, h)), Some((tw, th))) =>
      w > 0 && h > 0 && Close(tw as real / w as real, 4.0) && Close(th as real / h as real, 4.0)
    case _ => false
  }

  function Folder(completed: Date, kind: Kind): string {
    CompactDate(completed) + (if IsFourX(kind) then "_x4" else "_x1")
  }

  function Stem(created: Date, time: Time, idPrefix: string): string {
    CompactDate(created) + "_" + Pad(time.hour, 2) + Pad(time.minute, 2) + Pad(time.second, 2) + "_" + idPrefix
  }

  datatype Paths = Paths(localDate: string, imagePath: string, metadataPath: string, manifestPath: string)

  /** Both instants are already local; `idPrefix` is the first eight hexadecimal digits of the Generation's ID. */
  function BuildRemotePaths(idPrefix: string, kind: Kind, created: Date, time: Time, completed: Date): Paths {
    var base := Folder(completed, kind) + "/" + Stem(created, time, idPrefix);
    Paths(IsoDate(completed), base + ".png", base + ".json", IsoDate(completed) + "/manifests/manifest.jsonl")
  }

  /** One image keeps the plain path; several are numbered before the extension. */
  function BuildRemoteImagePath(imagePath: string, displayOrder: nat, imageCount: nat): string
    requires displayOrder < imageCount
  {
    if imageCount == 1 then imagePath
    else
      var dot := LastDot(imagePath);
      if dot < 0 then imagePath
      else imagePath[..dot] + "_" + Pad(displayOrder + 1, 6) + imagePath[dot..]
  }

  // ---------- reading back ----------

  predicate IsCurrentFolder(prefix: string) {
    |prefix| == 11 && AllDigits(prefix[..8]) && prefix[8] == '_' && prefix[9] == 'x' &&
      (prefix[10] == '1' || prefix[10] == '4')
  }

  function RemotePathLocalDate(path: string): Option<string> {
    var prefix := Split(Replace(path, '\\', '/'), '/')[0];
    var text := if IsCurrentFolder(prefix) then prefix[..4] + "-" + prefix[4..6] + "-" + prefix[6..8] else prefix;
    match FromIso(text)
    case None => None
    case Some(d) => Some(IsoDate(d))
  }

  /** The date of a record, or nothing when its image and its metadata disagree. */
  function ManifestLocalDate(imagePath: string, metadataPath: string): Option<string> {
    var image, metadata := RemotePathLocalDate(imagePath), RemotePathLocalDate(metadataPath);
    if image.None? || image != metadata then None else image
  }

  // ---------- the round trip ----------

  lemma FieldLengths(d: Date)
    requires d.Valid()
    ensures |Pad(d.year, 4)| == 4 && |Pad(d.month, 2)| == 2 && |Pad(d.day, 2)| == 2
    ensures AllDigits(Digits(d.year)) && 1 <= |Digits(d.year)| <= 4
    ensures |Digits(d.year)| == 4 <==> d.year >= 1000
  {
    assert Power(10, 0) == 1 && Power(10, 1) == 10 && Power(10, 2) == 100 && Power(10, 3) == 1000 &&
      Power(10, 4) == 10000;
    PadLength(d.year, 4);
    PadLength(d.month, 2);
    PadLength(d.day, 2);
    DigitsHaveTheirValue(d.year);
    DigitsLength(d.year, 4);
    if d.year < 1000 {
      DigitsLength(d.year, 3);
    } else {
      FourDigits(d.year);
    }
  }

  lemma FourDigits(n: nat)
    requires 1000 <= n <= 9999
    ensures |Digits(n)| == 4
  {
    assert Digits(n) == Digits(n / 10) + [Digit(n % 10)];
    assert Digits(n / 10) == Digits(n / 10 / 10) + [Digit(n / 10 % 10)];
    assert Digits(n / 10 / 10) == Digits(n / 10 / 10 / 10) + [Digit(n / 10 / 10 % 10)];
  }

  lemma IsoRoundTrip(d: Date)
    requires d.Valid()
    ensures FromIso(IsoDate(d)) == Some(d)
  {
    FieldLengths(d);
    PadHasItsValue(d.year, 4);
    PadHasItsValue(d.month, 2);
    PadHasItsValue(d.day, 2);
    var s := IsoDate(d);
    assert s[..4] == Pad(d.year, 4) && s[5..7] == Pad(d.month, 2) && s[8..] == Pad(d.day, 2);
  }

  /** The same on the text: a year of one to four digits, two two-digit fields and a class. */
  lemma FolderText(year: string, month: string, day: string, tail: string)
    requires AllDigits(year) && AllDigits(month) && AllDigits(day) && 1 <= |year| <= 4 && |month| == |day| == 2
    requires tail == "_x1" || tail == "_x4"
    ensures var f := year + month + day + tail;
      && '/' !in f && '\\' !in f && '.' !in f
      && (IsCurrentFolder(f) <==> |year| == 4)
      && (|year| == 4 ==> f[..4] + "-" + f[4..6] + "-" + f[6..8] == year + "-" + month + "-" + day)
      && (|year| < 4 ==> FromIso(f) == None)
  {
    var f := year + month + day + tail;
    assert |f| == |year| + 7;
    assert forall c :: c in f ==> IsDigit(c) || c in tail;
    if |year| == 4 {
      assert f[..8] == year + month + day && f[8..] == tail;
      assert f[4..6] == month && f[6..8] == day && f[..4] == year;
    } else if |year| == 3 {
      assert f[4] == month[1] && month[1] in month;
    }
  }

  lemma FolderShape(d: Date, kind: Kind)
    requires d.Valid()
    ensures var f := Folder(d, kind);
      && '/' !in f && '\\' !in f && '.' !in f
      && (IsCurrentFolder(f) <==> d.year >= 1000)
      && (d.year >= 1000 ==> |f| == 11 && f[..4] + "-" + f[4..6] + "-" + f[6..8] == IsoDate(d))
      && (d.year < 1000 ==> FromIso(f) == None)
  {
    FieldLengths(d);
    PadHasItsValue(d.month, 2);
    PadHasItsValue(d.day, 2);
    assert d.year >= 1000 ==> Pad(d.year, 4) == Digits(d.year);
    hide Digits, Pad, FromIso, IsFourX;
    var tail := if IsFourX(kind) then "_x4" else "_x1";
    FolderText(Digits(d.year), Pad(d.month, 2), Pad(d.day, 2), tail);
    assert Folder(d, kind) == Digits(d.year) + Pad(d.month, 2) + Pad(d.day, 2) + tail;
  }

  lemma FirstComponent(folder: string, rest: string)
    requires '/' !in folder && '\\' !in folder
    ensures Split(Replace(folder + "/" + rest, '\\', '/'), '/')[0] == folder
  {
    var r := Replace(rest, '\\', '/');
    assert forall i :: 0 <= i < |folder| ==> folder[i] in folder;
    assert Replace(folder + "/" + rest, '\\', '/') == folder + ['/'] + r;
    SplitPlain(folder, '/');
    SplitConcat(folder, r, '/');
  }

  /** Any path below the folder gives the folder's date, exactly when the year has four digits. */
  lemma DateBelowFolder(d: Date, kind: Kind, rest: string)
    requires d.Valid()
    ensures RemotePathLocalDate(Folder(d, kind) + "/" + rest) == if d.year >= 1000 then Some(IsoDate(d)) else None
  {
    FolderShape(d, kind);
    FirstComponent(Folder(d, kind), rest);
    IsoRoundTrip(d);
    hide Folder, IsoDate, FromIso, IsCurrentFolder, Split, Replace;
  }

  lemma StemHasNoDot(created: Date, time: Time, idPrefix: string)
    requires '.' !in idPrefix
    ensures '.' !in Stem(created, time, idPrefix)
  {
    DigitsHaveTheirValue(created.year);
    PadHasItsValue(created.month, 2);
    PadHasItsValue(created.day, 2);
    PadHasItsValue(time.hour, 2);
    PadHasItsValue(time.minute, 2);
    PadHasItsValue(time.second, 2);
    hide Digits, Pad;
  }

  lemma ExtensionStart(base: string, extension: string)
    requires '.' !in base && '.' !in extension
    ensures LastDot(base + "." + extension) == |base|
  {
    var s := base + "." + extension;
    assert s[|base|] == '.';
    assert forall k :: |base| < k < |s| ==> s[k] == extension[k - |base| - 1] && s[k] in extension;
    assert forall k :: 0 <= k < |base| ==> s[k] == base[k] && s[k] in base;
  }

  function Numbering(order: nat, count: nat): string {
    if count == 1 then ".png" else "_" + Pad(order + 1, 6) + ".png"
  }

  lemma NumberedPath(base: string, order: nat, count: nat)
    requires '.' !in base && order < count
    ensures BuildRemoteImagePath(base + ".png", order, count) == base + Numbering(order, count)
  {
    assert base + ".png" == base + "." + "png";
    ExtensionStart(base, "png");
    assert (base + ".png")[|base|..] == ".png" && (base + ".png")[..|base|] == base;
    hide Pad, LastDot;
  }

  /** The date enqueued for the manifest is read back from every image path of the Generation and from its metadata
      path, for every kind, display order and image count; exactly when the completion year has four digits, because
      the folder name does not pad the year. */
  lemma PathRoundTrip(idPrefix: string, kind: Kind, created: Date, time: Time, completed: Date, order: nat, count: nat)
    requires completed.Valid() && '.' !in idPrefix && order < count
    ensures var p := BuildRemotePaths(idPrefix, kind, created, time, completed);
      ManifestLocalDate(BuildRemoteImagePath(p.imagePath, order, count), p.metadataPath) ==
      if completed.year >= 1000 then Some(p.localDate) else None
  {
    FolderShape(completed, kind);
    StemHasNoDot(created, time, idPrefix);
    var p := BuildRemotePaths(idPrefix, kind, created, time, completed);
    var folder, stem := Folder(completed, kind), Stem(created, time, idPrefix);
    hide Folder, Stem, Pad, IsoDate, RemotePathLocalDate, BuildRemoteImagePath, Numbering;
    assert '.' !in folder + "/" + stem;
    NumberedPath(folder + "/" + stem, order, count);
    BelowFolder(folder, stem, Numbering(order, count));
    BelowFolder(folder, stem, ".json");
    DateBelowFolder(completed, kind, stem + Numbering(order, count));
    DateBelowFolder(completed, kind, stem + ".json");
  }

  /** A record has a date exactly when its image and its metadata have the same one. */
  lemma DatesMustAgree(imagePath: string, metadataPath: string, date: string)
    ensures ManifestLocalDate(imagePath, metadataPath) == Some(date) <==>
            RemotePathLocalDate(imagePath) == Some(date) && RemotePathLocalDate(metadataPath) == Some(date)
  {
    hide RemotePathLocalDate;
  }

  lemma BelowFolder(folder: string, stem: string, suffix: string)
    ensures folder + "/" + stem + suffix == folder + "/" + (stem + suffix)
  {
  }

  /** An upscale counts as fourfold by its factor or, without one, by both sides; anything else by its final flag. */
  predicate Fourfold(kind: Kind) {
    match kind
    case Standard(finalUpscale) => finalUpscale
    case Upscale(Some(factor), _, _) => -0.000000001 <= factor - 4.0 <= 0.000000001
    case Upscale(None, Some((w, h)), Some((tw, th))) => FourTimes(w, tw) && FourTimes(h, th)
    case _ => false
  }

  predicate WithinTolerance(difference: real, scale: real) {
    difference <= 0.000000001 * scale && -difference <= 0.000000001 * scale
  }

  predicate FourTimes(side: int, target: int) {
    side > 0 && WithinTolerance((target - 4 * side) as real, side as real)
  }

  lemma ScalingKeepsOrder(x: real, y: real, scale: real)
    requires scale > 0.0
    ensures x <= y <==> x * scale <= y * scale
  {
    if x <= y {
      assert (y - x) * scale >= 0.0;
    } else {
      assert (x - y) * scale > 0.0;
    }
  }

  lemma OffsetWithin(offset: real, scale: real, difference: real, tolerance: real)
    requires scale > 0.0 && offset * scale == difference
    ensures offset <= tolerance && -offset <= tolerance <==>
            difference <= tolerance * scale && -difference <= tolerance * scale
  {
    ScalingKeepsOrder(offset, tolerance, scale);
    ScalingKeepsOrder(-offset, tolerance, scale);
    assert -offset * scale == -difference;
  }

  lemma RatioTimesSide(t: real, s: real)
    requires s > 0.0
    ensures (t / s - 4.0) * s == t - 4.0 * s
  {
    assert t / s * s == t;
  }

  lemma RatioIsFour(side: int, target: int)
    requires side > 0
    ensures Close(target as real / side as real, 4.0) <==> FourTimes(side, target)
  {
    var (t, s) := (target as real, side as real);
    RatioTimesSide(t, s);
    assert (target - 4 * side) as real == t - 4.0 * s;
    OffsetWithin(t / s - 4.0, s, t - 4.0 * s, 0.000000001);
  }

  /** The folder is the date of completion with the class of the output. */
  lemma FolderShowsTheClass(completed: Date, kind: Kind)
    ensures Folder(completed, kind) == CompactDate(completed) + if Fourfold(kind) then "_x4" else "_x1"
  {
    match kind {
      case Upscale(None, Some((w, h)), Some((tw, th))) =>
        if w > 0 && h > 0 {
          RatioIsFour(w, tw);
          RatioIsFour(h, th);
        }
      case _ =>
    }
  }

  lemma TwoDigits(n: nat)
    requires n < 100
    ensures Pad(n, 2) == [Digit(n / 10), Digit(n % 10)]
  {
    if n < 10 {
      assert Digits(n) == [Digit(n)] && Pad(n, 2) == seq(1, _ => '0') + [Digit(n)];
    } else {
      assert Digits(n / 10) == [Digit(n / 10)] && Digits(n) == Digits(n / 10) + [Digit(n % 10)];
      assert Pad(n, 2) == seq(0, _ => '0') + Digits(n);
    }
  }

  lemma Digits2026()
    ensures Digits(2026) == ['2', '0', '2', '6'] && Pad(2026, 4) == Digits(2026)
  {
    assert Digits(2) == [Digit(2)];
    assert Digits(20) == Digits(2) + [Digit(0)];
    assert Digits(202) == Digits(20) + [Digit(2)];
    assert Digits(2026) == Digits(202) + [Digit(6)];
    assert Pad(2026, 4) == seq(0, _ => '0') + Digits(2026);
  }

  lemma DateWrittenOut(day: Date)
    requires day == Date(2026, 8, 8)
    ensures CompactDate(day) == "20260808" && IsoDate(day) == "2026-08-08"
  {
    Digits2026();
    TwoDigits(day.day);
    hide Pad, Digits;
  }

  lemma TimeWrittenOut(time: Time)
    requires time == Time(0, 30, 0)
    ensures Pad(time.hour, 2) + Pad(time.minute, 2) + Pad(time.second, 2) == "003000"
  {
    TwoDigits(time.hour);
    TwoDigits(time.minute);
    hide Pad;
  }

  /** The paths of a Generation that is created and completed on 8 August 2026, half past midnight, written out. */
  lemma PathsWrittenOut(idPrefix: string, day: Date, time: Time)
    requires day == Date(2026, 8, 8) && time == Time(0, 30, 0)
    ensures var p := BuildRemotePaths(idPrefix, Standard(false), day, time, day);
            var base := "20260808" + "_x1" + "/" + ("20260808" + "_" + "003000" + "_" + idPrefix);
      && p.localDate == "2026-08-08" && p.manifestPath == "2026-08-08" + "/manifests/manifest.jsonl"
      && p.imagePath == base + ".png" && p.metadataPath == base + ".json"
  {
    DateWrittenOut(day);
    TimeWrittenOut(time);
    hide Pad, Digits, CompactDate, IsoDate;
    var (hour, minute, second) := (Pad(time.hour, 2), Pad(time.minute, 2), Pad(time.second, 2));
    var text := CompactDate(day);
    assert text + "_" + hour + minute + second + "_" + idPrefix ==
           text + "_" + (hour + minute + second) + "_" + idPrefix;
  }

  lemma NumberedImagePath(imagePath: string, i: nat, count: nat)
    requires i < count != 1 && LastDot(imagePath) >= 0
    ensures var dot := LastDot(imagePath);
      BuildRemoteImagePath(imagePath, i, count) == (imagePath[..dot] + "_") + Pad(i + 1, 6) + imagePath[dot..]
  {
    hide LastDot, Pad;
  }

  /** Different images of one Generation never share a path. */
  lemma ImagePathsAreDistinct(imagePath: string, i: nat, j: nat, count: nat)
    requires i < count && j < count && LastDot(imagePath) >= 0
    ensures BuildRemoteImagePath(imagePath, i, count) == BuildRemoteImagePath(imagePath, j, count) ==> i == j
  {
    hide BuildRemoteImagePath, Pad, LastDot, Value;
    PadHasItsValue(i + 1, 6);
    PadHasItsValue(j + 1, 6);
    if count > 1 && BuildRemoteImagePath(imagePath, i, count) == BuildRemoteImagePath(imagePath, j, count) {
      NumberedImagePath(imagePath, i, count);
      NumberedImagePath(imagePath, j, count);
      var dot := LastDot(imagePath);
      SameMiddle(imagePath[..dot] + "_", Pad(i + 1, 6), Pad(j + 1, 6), imagePath[dot..]);
    }
  }

  lemma MetadataPathIsNoImagePath(idPrefix: string, kind: Kind, created: Date, time: Time, completed: Date, order: nat,
                                  count: nat)
    requires order < count
    ensures var p := BuildRemotePaths(idPrefix, kind, created, time, completed);
      LastDot(p.imagePath) >= 0 && BuildRemoteImagePath(p.imagePath, order, count) != p.metadataPath
  {
    var p := BuildRemotePaths(idPrefix, kind, created, time, completed);
    assert p.imagePath[|p.imagePath| - 4] == '.' && p.imagePath[|p.imagePath| - 1] == 'g';
    assert p.metadataPath[|p.metadataPath| - 1] == 'n';
    hide LastDot, Folder, Stem, Pad;
  }

  lemma CompactFields(d: Date)
    requires d.Valid() && d.year >= 1000
    ensures var c := CompactDate(d);
      && |c| == 8 && c[..4] == Digits(d.year) && c[4..6] == Pad(d.month, 2) && c[6..] == Pad(d.day, 2)
  {
    FieldLengths(d);
    hide Digits, Pad;
  }

  lemma SameCompactDate(c: Date, d: Date)
    requires c.Valid() && d.Valid() && c.year >= 1000 && d.year >= 1000 && CompactDate(c) == CompactDate(d)
    ensures c == d
  {
    CompactFields(c);
    CompactFields(d);
    DigitsHaveTheirValue(c.year);
    DigitsHaveTheirValue(d.year);
    PadHasItsValue(c.month, 2);
    PadHasItsValue(d.month, 2);
    PadHasItsValue(c.day, 2);
    PadHasItsValue(d.day, 2);
  }

  predicate ValidTime(t: Time) {
    t.hour < 24 && t.minute < 60 && t.second < 60
  }

  lemma PathText(folder: string, created: string, h: string, m: string, sec: string, id: string)
    requires |folder| == 11 && |created| == |id| == 8 && |h| == |m| == |sec| == 2
    ensures var p := folder + "/" + (created + "_" + h + m + sec + "_" + id) + ".png";
      && |p| == 40 && p[..11] == folder && p[12..20] == created
      && p[21..23] == h && p[23..25] == m && p[25..27] == sec && p[28..36] == id
  {
  }

  lemma PathFields(idPrefix: string, kind: Kind, created: Date, t: Time, completed: Date)
    requires |idPrefix| == 8 && created.Valid() && completed.Valid() && ValidTime(t)
    requires created.year >= 1000 && completed.year >= 1000
    ensures var p := BuildRemotePaths(idPrefix, kind, created, t, completed).imagePath;
      && |p| == 40 && p[..11] == Folder(completed, kind) && p[12..20] == CompactDate(created)
      && p[21..23] == Pad(t.hour, 2) && p[23..25] == Pad(t.minute, 2) && p[25..27] == Pad(t.second, 2)
      && p[28..36] == idPrefix
  {
    CompactFields(completed);
    CompactFields(created);
    assert Power(10, 1) == 10 && Power(10, 2) == 100;
    PadLength(t.hour, 2);
    PadLength(t.minute, 2);
    PadLength(t.second, 2);
    assert |Folder(completed, kind)| == 11;
    hide CompactDate, Pad, Folder;
    PathText(Folder(completed, kind), CompactDate(created), Pad(t.hour, 2), Pad(t.minute, 2), Pad(t.second, 2),
             idPrefix);
  }

  lemma SameFolder(c: Date, d: Date, kind1: Kind, kind2: Kind)
    requires c.Valid() && d.Valid() && c.year >= 1000 && d.year >= 1000 && Folder(c, kind1) == Folder(d, kind2)
    ensures c == d && IsFourX(kind1) == IsFourX(kind2)
  {
    CompactFields(c);
    CompactFields(d);
    assert Folder(c, kind1)[..8] == CompactDate(c) && Folder(d, kind2)[..8] == CompactDate(d);
    assert Folder(c, kind1)[10] == (if IsFourX(kind1) then '4' else '1');
    assert Folder(d, kind2)[10] == (if IsFourX(kind2) then '4' else '1');
    SameCompactDate(c, d);
  }

  /** Two Generations share their paths exactly when they complete on the same date in the same class, were created in
      the same second and their IDs agree in the first eight digits. */
  lemma PathsCollideIff(id1: string, id2: string, kind1: Kind, kind2: Kind, c1: Date, c2: Date, t1: Time, t2: Time,
                        d1: Date, d2: Date)
    requires |id1| == |id2| == 8 && c1.Valid() && c2.Valid() && d1.Valid() && d2.Valid() && ValidTime(t1) &&
      ValidTime(t2)
    requires c1.year >= 1000 && c2.year >= 1000 && d1.year >= 1000 && d2.year >= 1000
    ensures BuildRemotePaths(id1, kind1, c1, t1, d1).imagePath ==
            BuildRemotePaths(id2, kind2, c2, t2, d2).imagePath <==>
      id1 == id2 && IsFourX(kind1) == IsFourX(kind2) && c1 == c2 && t1 == t2 && d1 == d2
  {
    var p, q := BuildRemotePaths(id1, kind1, c1, t1, d1).imagePath, BuildRemotePaths(id2, kind2, c2, t2, d2).imagePath;
    if p == q {
      PathFields(id1, kind1, c1, t1, d1);
      PathFields(id2, kind2, c2, t2, d2);
      hide BuildRemotePaths, CompactDate, IsFourX, Folder;
      SameCompactDate(c1, c2);
      SameFolder(d1, d2, kind1, kind2);
      PadHasItsValue(t1.hour, 2);
      PadHasItsValue(t2.hour, 2);
      PadHasItsValue(t1.minute, 2);
      PadHasItsValue(t2.minute, 2);
      PadHasItsValue(t1.second, 2);
      PadHasItsValue(t2.second, 2);
      hide Pad;
    }
  }

  // ---------- the raw folder ----------

  /** `path.split("/", 1)[0]`, which the readiness check of the Pod takes for the manifest's date. */
  function FirstFolder(path: string): string {
    Split(path, '/')[0]
  }

  /** The raw folder is a date exactly when the path has the old layout; the current one is never taken for its date. */
  lemma RawFolderIsADateIff(path: string)
    requires '\\' !in path && RemotePathLocalDate(path).Some?
    ensures FromIso(FirstFolder(path)).Some? <==> !IsCurrentFolder(FirstFolder(path))
    ensures FromIso(FirstFolder(path)).Some? ==>
      RemotePathLocalDate(path) == Some(IsoDate(FromIso(FirstFolder(path)).value))
  {
    ReplaceAbsent(path, '\\', '/');
    hide Split, Replace;
  }

  lemma FolderOfImagePath(idPrefix: string, kind: Kind, created: Date, time: Time, completed: Date, order: nat,
                          count: nat)
    requires completed.Valid() && '.' !in idPrefix && order < count
    ensures var paths := BuildRemotePaths(idPrefix, kind, created, time, completed);
      var path := BuildRemoteImagePath(paths.imagePath, order, count);
      FirstFolder(path) == Folder(completed, kind) && FromIso(FirstFolder(path)) == None
  {
    FolderShape(completed, kind);
    StemHasNoDot(created, time, idPrefix);
    var folder, stem := Folder(completed, kind), Stem(created, time, idPrefix);
    assert |folder| == 11 ==> FromIso(folder) == None;
    hide Folder, Stem, Pad, IsoDate, BuildRemoteImagePath, Numbering, FromIso;
    assert '.' !in folder + "/" + stem;
    NumberedPath(folder + "/" + stem, order, count);
    BelowFolder(folder, stem, Numbering(order, count));
    var rest := stem + Numbering(order, count);
    assert folder + "/" + rest == folder + ['/'] + rest;
    SplitPlain(folder, '/');
    SplitConcat(folder, rest, '/');
  }
}
