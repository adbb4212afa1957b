/** The output size of an upscale, and the snapshot that checks it a second time. */
module UpscaleSizing {
  import opened Wrappers
  import opened Text

  datatype Method = ImageUpscale | LatentUpscale

  datatype Mode = Factor | Dimensions

  datatype Settings = Settings(
    upscaler: Method, mode: Mode, scaleFactor: Option<real>, targetWidth: Option<int>, targetHeight: Option<int>,
    upscalerName: Option<string>, denoise: Option<real>, workflowId: string, workflowVersion: string)

  datatype Limits = Limits(maxWidth: int, maxHeight: int, maxPixels: int, maxFactor: real)

  datatype Size = Size(width: int, height: int)

  datatype SizeError = BadSource | FactorTooLarge | NotAligned | DimensionsTooLarge | SmallerThanSource | LimitExceeded

  /** A non-blank relative path without empty or dot components. */
  predicate SafeModelName(name: string) {
    && Strip(name) != ""
    && !(|name| >= 3 && name[1] == ':' && (name[2] == '\\' || name[2] == '/'))
    && forall part :: part in Split(Replace(name, '\\', '/'), '/') ==> part != "" && part != "." && part != ".."
  }

  /** The field checks and the combination check of the settings. */
  predicate ValidSettings(s: Settings) {
    && (s.scaleFactor.Some? ==> s.scaleFactor.value > 1.0)
    && (s.targetWidth.Some? ==> s.targetWidth.value > 0) && (s.targetHeight.Some? ==> s.targetHeight.value > 0)
    && (s.denoise.Some? ==> 0.0 <= s.denoise.value <= 1.0)
    && s.workflowVersion != ""
    && (s.mode == Factor ==> s.scaleFactor.Some?)
    && (s.mode == Dimensions ==> s.targetWidth.Some? && s.targetHeight.Some? && s.scaleFactor.None?)
    && (if s.upscaler == ImageUpscale
        then s.upscalerName.Some? && SafeModelName(s.upscalerName.value) && s.denoise.None?
        else s.upscalerName.None? && s.denoise.Some?)
  }

  function Ceil(x: real): int {
    -((-x).Floor)
  }

  function AlignedUp(x: real): int {
    Ceil(x / 64.0) * 64
  }

  function Scaled(side: int, factor: real): real {
    side as real * factor
  }

  function Ratio(target: int, source: int): real
    requires source > 0
  {
    target as real / source as real
  }

  function Pixels(width: int, height: int): int {
    width * height
  }

  function ResolveOutputSize(s: Settings, sourceWidth: int, sourceHeight: int, limits: Limits): Result<Size, SizeError>
    requires ValidSettings(s)
  {
    if sourceWidth <= 0 || sourceHeight <= 0 then Err(BadSource)
    else if s.mode == Factor && s.scaleFactor.value > limits.maxFactor then Err(FactorTooLarge)
    else if s.mode == Dimensions && (s.targetWidth.value % 64 != 0 || s.targetHeight.value % 64 != 0)
    then Err(NotAligned)
    else if s.mode == Dimensions &&
      (Ratio(s.targetWidth.value, sourceWidth) > limits.maxFactor ||
       Ratio(s.targetHeight.value, sourceHeight) > limits.maxFactor)
    then Err(DimensionsTooLarge)
    else
      var width := if s.mode == Factor then AlignedUp(Scaled(sourceWidth, s.scaleFactor.value))
        else s.targetWidth.value;
      var height := if s.mode == Factor then AlignedUp(Scaled(sourceHeight, s.scaleFactor.value))
        else s.targetHeight.value;
      if width < sourceWidth || height < sourceHeight then Err(SmallerThanSource)
      else if width > limits.maxWidth || height > limits.maxHeight || Pixels(width, height) > limits.maxPixels
      then Err(LimitExceeded)
      else Ok(Size(width, height))
  }

  // ---------- what the size is ----------

  /** The least multiple of 64 that is not below x. */
  ghost predicate LeastAligned(n: int, x: real) {
    n % 64 == 0 && n as real >= x && forall m: int :: m % 64 == 0 && m as real >= x ==> n <= m
  }

  lemma AlignedUpIsLeast(x: real)
    ensures LeastAligned(AlignedUp(x), x) && AlignedUp(x) as real - x < 64.0
  {
    var k := Ceil(x / 64.0);
    assert k as real - 1.0 < x / 64.0 <= k as real;
    assert (k * 64) as real == k as real * 64.0;
    forall m: int | m % 64 == 0 && m as real >= x ensures AlignedUp(x) <= m {
      var q := m / 64;
      assert m == q * 64 && m as real == q as real * 64.0;
      assert q as real >= x / 64.0;
      assert q as real > k as real - 1.0;
    }
  }

  /** Every size is aligned, no smaller than the source and within every limit; by factor, each side is the least
      multiple of 64 not below source times factor, so it overshoots by less than 64. */
  lemma ResolvedSize(s: Settings, sourceWidth: int, sourceHeight: int, limits: Limits)
    requires ValidSettings(s) && ResolveOutputSize(s, sourceWidth, sourceHeight, limits).Ok?
    ensures var size := ResolveOutputSize(s, sourceWidth, sourceHeight, limits).value;
      && size.width % 64 == 0 && size.height % 64 == 0
      && size.width >= sourceWidth > 0 && size.height >= sourceHeight > 0
      && size.width <= limits.maxWidth && size.height <= limits.maxHeight &&
           Pixels(size.width, size.height) <= limits.maxPixels
      && (s.mode == Factor ==>
            LeastAligned(size.width, Scaled(sourceWidth, s.scaleFactor.value)) &&
            LeastAligned(size.height, Scaled(sourceHeight, s.scaleFactor.value)) &&
            size.width as real - Scaled(sourceWidth, s.scaleFactor.value) < 64.0 &&
            size.height as real - Scaled(sourceHeight, s.scaleFactor.value) < 64.0)
      && (s.mode == Dimensions ==> size == Size(s.targetWidth.value, s.targetHeight.value))
  {
    hide AlignedUp, LeastAligned, Scaled, Ratio, Pixels, SafeModelName;
    if s.mode == Factor {
      CoversSource(sourceWidth, s.scaleFactor.value);
      CoversSource(sourceHeight, s.scaleFactor.value);
    }
  }

  /** A side enlarged by a factor. */
  lemma CoversSource(side: int, factor: real)
    requires factor > 1.0
    ensures var n := AlignedUp(Scaled(side, factor));
      n % 64 == 0 && LeastAligned(n, Scaled(side, factor)) && n as real - Scaled(side, factor) < 64.0 &&
        (side > 0 ==> n >= side)
  {
    AlignedUpIsLeast(Scaled(side, factor));
    if side > 0 {
      Enlarges(side, factor);
    }
    hide AlignedUp, Scaled;
  }

  lemma Enlarges(side: int, factor: real)
    requires side > 0 && factor > 1.0
    ensures Scaled(side, factor) > side as real
  {
    var x := side as real;
    assert x * (factor - 1.0) > 0.0;
    assert x * factor == x * (factor - 1.0) + x;
  }

  /** A factor never gives an output smaller than its source: that refusal is only for chosen dimensions. */
  lemma FactorNeverShrinks(s: Settings, sourceWidth: int, sourceHeight: int, limits: Limits)
    requires ValidSettings(s) && s.mode == Factor
    ensures ResolveOutputSize(s, sourceWidth, sourceHeight, limits) != Err(SmallerThanSource)
  {
    hide AlignedUp, LeastAligned, Scaled, Ratio, Pixels, SafeModelName;
    CoversSource(sourceWidth, s.scaleFactor.value);
    CoversSource(sourceHeight, s.scaleFactor.value);
  }

  lemma StartsWithSlash(s: string)
    ensures s != "" && s[0] == '/' ==> "" in Split(s, '/')
  {
    if s != "" && s[0] == '/' {
      assert Split(s, '/')[0] == "";
    }
  }

  /** A safe model name is a relative path on either kind of system and never goes up. */
  lemma SafeNamesAreRelative(name: string)
    requires SafeModelName(name)
    ensures name != "" && name[0] != '/' && name[0] != '\\'
    ensures |name| >= 3 && name[1] == ':' ==> name[2] != '/' && name[2] != '\\'
    ensures ".." !in Split(Replace(name, '\\', '/'), '/')
  {
    assert Strip("") == "";
    StartsWithSlash(Replace(name, '\\', '/'));
  }

  // ---------- when there is one ----------

  /** The size that is asked for: the least aligned one for the factor, or the chosen dimensions, which must be
      aligned. */
  ghost predicate AsksFor(s: Settings, sourceWidth: int, sourceHeight: int, size: Size)
    requires ValidSettings(s)
  {
    if s.mode == Factor then
      LeastAligned(size.width, Scaled(sourceWidth, s.scaleFactor.value)) &&
      LeastAligned(size.height, Scaled(sourceHeight, s.scaleFactor.value))
    else size == Size(s.targetWidth.value, s.targetHeight.value) && size.width % 64 == 0 && size.height % 64 == 0
  }

  /** The enlargement stays within the configured factor. */
  predicate WithinFactor(s: Settings, sourceWidth: int, sourceHeight: int, maxFactor: real)
    requires ValidSettings(s)
  {
    if s.mode == Factor then s.scaleFactor.value <= maxFactor
    else
      s.targetWidth.value as real <= Scaled(sourceWidth, maxFactor) &&
      s.targetHeight.value as real <= Scaled(sourceHeight, maxFactor)
  }

  predicate Fits(size: Size, sourceWidth: int, sourceHeight: int, limits: Limits) {
    && sourceWidth <= size.width <= limits.maxWidth && sourceHeight <= size.height <= limits.maxHeight
    && Pixels(size.width, size.height) <= limits.maxPixels
  }

  lemma RatioIsBounded(target: int, source: int, factor: real)
    requires source > 0
    ensures Ratio(target, source) > factor <==> target as real > Scaled(source, factor)
  {
    var (t, x) := (target as real, source as real);
    assert t == Ratio(target, source) * x;
    if Ratio(target, source) > factor {
      assert (Ratio(target, source) - factor) * x > 0.0;
    } else {
      assert (factor - Ratio(target, source)) * x >= 0.0;
    }
  }

  lemma LeastAlignedIsUnique(x: real, n: int)
    ensures LeastAligned(n, x) <==> n == AlignedUp(x)
  {
    AlignedUpIsLeast(x);
  }

  /** A size comes out exactly if it is the one that is asked for, no smaller than the source and within every limit,
      the factor included. */
  lemma ResolvesIff(s: Settings, sourceWidth: int, sourceHeight: int, limits: Limits, size: Size)
    requires ValidSettings(s)
    ensures ResolveOutputSize(s, sourceWidth, sourceHeight, limits) == Ok(size) <==>
      && sourceWidth > 0 && sourceHeight > 0
      && AsksFor(s, sourceWidth, sourceHeight, size) && WithinFactor(s, sourceWidth, sourceHeight, limits.maxFactor)
      && Fits(size, sourceWidth, sourceHeight, limits)
  {
    if sourceWidth > 0 && sourceHeight > 0 {
      if s.mode == Factor {
        LeastAlignedIsUnique(Scaled(sourceWidth, s.scaleFactor.value), size.width);
        LeastAlignedIsUnique(Scaled(sourceHeight, s.scaleFactor.value), size.height);
      } else {
        RatioIsBounded(s.targetWidth.value, sourceWidth, limits.maxFactor);
        RatioIsBounded(s.targetHeight.value, sourceHeight, limits.maxFactor);
      }
    }
    hide AlignedUp, LeastAligned, Scaled, Ratio, Pixels, SafeModelName;
  }

  // ---------- the snapshot ----------

  datatype SourceKind = GenerationArtifact | MetadataImport

  datatype Snapshot = Snapshot(
    schemaVersion: int, sourceKind: SourceKind, upscaler: Method, mode: Mode, requestedFactor: Option<real>,
    targetWidth: int, targetHeight: int, upscalerName: Option<string>, denoise: Option<real>,
    generationId: Option<nat>, artifactId: Option<nat>, importId: Option<nat>, sha256: string,
    sourceWidth: int, sourceHeight: int, workflowId: string, workflowVersion: string)

  const CURRENT_SCHEMA := 2

  predicate IsSha256(s: string) {
    |s| == 64 && forall c :: c in s ==> '0' <= c <= '9' || 'a' <= c <= 'f' || 'A' <= c <= 'F'
  }

  predicate ValidSnapshot(n: Snapshot) {
    && n.schemaVersion >= 1 && (n.requestedFactor.Some? ==> n.requestedFactor.value > 1.0)
    && n.targetWidth > 0 && n.targetHeight > 0 && n.sourceWidth > 0 && n.sourceHeight > 0
    && (n.denoise.Some? ==> 0.0 <= n.denoise.value <= 1.0)
    && IsSha256(n.sha256) && n.workflowId != "" && n.workflowVersion != ""
    && (n.schemaVersion == 1 || n.schemaVersion == CURRENT_SCHEMA)
    && (n.mode == Factor <==> n.requestedFactor.Some?)
    && (n.upscaler == ImageUpscale ==> n.upscalerName.Some? && SafeModelName(n.upscalerName.value) && n.denoise.None?)
    && (n.upscaler == LatentUpscale ==> n.upscalerName.None? && n.denoise.Some?)
    && n.targetWidth % 64 == 0 && n.targetHeight % 64 == 0
    && n.targetWidth >= n.sourceWidth && n.targetHeight >= n.sourceHeight
    && (if n.sourceKind == GenerationArtifact then n.generationId.Some? && n.artifactId.Some? && n.importId.None?
        else n.generationId.None? && n.artifactId.None? && n.importId.Some?)
  }

  /** Where the source image comes from. */
  datatype Identity = Identity(
    generationId: Option<nat>, artifactId: Option<nat>, importId: Option<nat>, sha256: string, width: int, height: int)
  {
    predicate Valid() {
      IsSha256(sha256) &&
      ((generationId.Some? && artifactId.Some? && importId.None?) ||
       (generationId.None? && artifactId.None? && importId.Some?))
    }
  }

  /** The kind defaults to the import when there is one. */
  function FromSettings(s: Settings, source: Identity, size: Size): Snapshot {
    Snapshot(CURRENT_SCHEMA, if source.importId.Some? then MetadataImport else GenerationArtifact,
             s.upscaler, s.mode, s.scaleFactor, size.width, size.height, s.upscalerName, s.denoise,
             source.generationId, source.artifactId, source.importId, source.sha256,
             source.width, source.height, s.workflowId, s.workflowVersion)
  }

  function ToSettings(n: Snapshot): Settings {
    Settings(n.upscaler, n.mode, n.requestedFactor, Some(n.targetWidth), Some(n.targetHeight), n.upscalerName,
             n.denoise, n.workflowId, n.workflowVersion)
  }

  /** The workflow the enqueue service puts in before it takes the snapshot. */
  function Effective(s: Settings): Settings {
    s.(workflowId := if s.upscaler == ImageUpscale then "sdxl_image_upscale" else "sdxl_latent_upscale",
       workflowVersion := "1.0")
  }

  /** What the sizing accepts, the snapshot's own checks accept: for valid settings the second validator can only refuse
      the identity of the source. */
  lemma SnapshotAcceptsResolvedSize(s: Settings, source: Identity, limits: Limits)
    requires ValidSettings(s) && ResolveOutputSize(s, source.width, source.height, limits).Ok?
    ensures ValidSnapshot(FromSettings(Effective(s), source,
                                       ResolveOutputSize(s, source.width, source.height, limits).value)) <==>
            source.Valid()
  {
    ResolvedSize(s, source.width, source.height, limits);
  }

  /** The settings read back from a stored snapshot are valid and resolve to the size that was stored. */
  lemma SnapshotResolvesToItself(s: Settings, source: Identity, limits: Limits)
    requires ValidSettings(s) && ResolveOutputSize(s, source.width, source.height, limits).Ok?
    ensures var size := ResolveOutputSize(s, source.width, source.height, limits).value;
            var back := ToSettings(FromSettings(Effective(s), source, size));
      ValidSettings(back) && ResolveOutputSize(back, source.width, source.height, limits) == Ok(size)
  {
    hide AlignedUp, LeastAligned, Scaled, Ratio, Pixels, SafeModelName;
    ResolvedSize(s, source.width, source.height, limits);
  }
}
