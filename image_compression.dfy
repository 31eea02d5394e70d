// Image compression arithmetic (src/lib/image-compression.ts): the
// aspect-preserving resize, the option defaults, the rule that decides
// whether a file is worth compressing and the byte-size estimate taken from
// a base64 data URL.
//
// Sizes are exact integers and ratios exact rationals; `Math.round` of a
// non-negative value rounds half up, which for a quotient p / q is
// (2p + q) div 2q. The canvas drawing itself is not part of this model.

module ImageCompression {
  import opened Common

  const MaxImageDimension := 1024
  const CompressionQuality: real := 0.8
  const ThumbnailSize := 300
  const ThumbnailQuality: real := 0.6
  /** The size above which a file is compressed: 2 MB. */
  const CompressThreshold := 2 * 1024 * 1024

  datatype ImageFormat = Webp | Jpeg | Png

  datatype Dimensions = Dimensions(width: nat, height: nat)

  /** `CompressionOptions`: every field may be absent. */
  datatype CompressionOptions = CompressionOptions(
    maxWidth: Option<nat>, maxHeight: Option<nat>, quality: Option<real>,
    format: Option<ImageFormat>, generateThumbnail: Option<bool>)

  /** The options once the defaults are filled in. */
  datatype Settings = Settings(maxWidth: nat, maxHeight: nat, quality: real, format: ImageFormat, generateThumbnail: bool)

  function FormatName(format: ImageFormat): string {
    match format
    case Webp => "webp"
    case Jpeg => "jpeg"
    case Png => "png"
  }

  /** The MIME type the compressed image is written as. */
  function MimeType(format: ImageFormat): string {
    "image/" + FormatName(format)
  }

  /** The destructuring defaults of `compressImage`: each absent option takes its default, a given one is kept. */
  function ResolveOptions(options: CompressionOptions): (s: Settings)
    ensures s.maxWidth == (if options.maxWidth.Some? then options.maxWidth.value else MaxImageDimension)
    ensures s.maxHeight == (if options.maxHeight.Some? then options.maxHeight.value else MaxImageDimension)
    ensures s.quality == (if options.quality.Some? then options.quality.value else CompressionQuality)
    ensures s.format == (if options.format.Some? then options.format.value else Webp)
    ensures s.generateThumbnail == (options.generateThumbnail.None? || options.generateThumbnail.value)
  {
    Settings(
      options.maxWidth.GetOr(MaxImageDimension), options.maxHeight.GetOr(MaxImageDimension),
      options.quality.GetOr(CompressionQuality), options.format.GetOr(Webp),
      options.generateThumbnail.GetOr(true))
  }

  /** No options at all: 1024 by 1024, quality 0.8, WebP, with a thumbnail. */
  lemma DefaultSettings()
    ensures ResolveOptions(CompressionOptions(None, None, None, None, None))
      == Settings(1024, 1024, 0.8, Webp, true)
    ensures MimeType(Webp) == "image/webp"
  {
  }

  // ---------------------------------------------------------------------
  // Rounding

  /** `Math.round(p / q)` for p >= 0 and q > 0. */
  function RoundDiv(p: nat, q: nat): nat
    requires q > 0
  {
    (2 * p + q) / (2 * q)
  }

  /** The rounded quotient is within half a unit of the exact one. */
  lemma RoundDivClose(p: nat, q: nat)
    requires q > 0
    ensures -(q as int) <= 2 * p - 2 * (RoundDiv(p, q) * q) < q
  {
    var d := RoundDiv(p, q);
    var m := (2 * p + q) % (2 * q);
    assert 2 * p + q == 2 * q * d + m;
  }

  /** A quotient that is at most an integer rounds to at most that integer. */
  lemma RoundDivAtMost(p: nat, q: nat, bound: nat)
    requires q > 0 && p <= bound * q
    ensures RoundDiv(p, q) <= bound
  {
    RoundDivClose(p, q);
    var d := RoundDiv(p, q);
    assert d * (2 * q) == 2 * (d * q);
    assert bound * (2 * q) == 2 * (bound * q);
    MulLess(d, bound, 2 * q);
  }

  /** An exact quotient rounds to itself. */
  lemma RoundDivExact(k: nat, q: nat)
    requires q > 0
    ensures RoundDiv(k * q, q) == k
  {
    assert 2 * (k * q) + q == k * (2 * q) + q;
    DivUnique(2 * (k * q) + q, 2 * q, k, q);
  }

  // ---------------------------------------------------------------------
  // Dimensions

  /**
   * `calculateDimensions` as written: within both bounds nothing changes;
   * otherwise the longer side (the height on a tie) takes its own bound and
   * the other side follows the aspect ratio, within half a pixel. With h == 0 the source's
   * ratio is infinite and the height rounds to 0, which is what the exact
   * quotient gives too.
   */
  function CalculateDimensions(w: nat, h: nat, maxW: nat, maxH: nat): (r: Dimensions)
    ensures w <= maxW && h <= maxH ==> r == Dimensions(w, h)
    ensures (w > maxW || h > maxH) && w > h ==> r.width == maxW
    ensures (w > maxW || h > maxH) && w <= h ==> r.height == maxH
    ensures (w > maxW || h > maxH) && w > h ==> -(w as int) <= 2 * (maxW * h) - 2 * (r.height * w) < w
    ensures (w > maxW || h > maxH) && w <= h ==> -(h as int) <= 2 * (maxH * w) - 2 * (r.width * h) < h
  {
    if w <= maxW && h <= maxH then Dimensions(w, h)
    else if w > h then
      RoundDivClose(maxW * h, w);
      Dimensions(maxW, RoundDiv(maxW * h, w))
    else
      RoundDivClose(maxH * w, h);
      Dimensions(RoundDiv(maxH * w, h), maxH)
  }

  /** With square bounds the result of the written rule fits inside them. */
  lemma SquareBoundsFit(w: nat, h: nat, m: nat)
    ensures CalculateDimensions(w, h, m, m).width <= m
    ensures CalculateDimensions(w, h, m, m).height <= m
  {
    if w > m || h > m {
      if w > h {
        RoundDivAtMost(m * h, w, m);
      } else {
        RoundDivAtMost(m * w, h, m);
      }
    }
  }

  /**
   * With bounds that are not square the written rule can overshoot: a
   * 2000 x 1000 image bounded by 1000 x 100 comes out 1000 x 500, five times
   * the allowed height.
   */
  lemma NonSquareBoundsOverflow()
    ensures CalculateDimensions(2000, 1000, 1000, 100) == Dimensions(1000, 500)
    ensures CalculateDimensions(2000, 1000, 1000, 100).height > 100
  {
    RoundDivExact(500, 2000);
  }

  /**
   * The intended rule: scale by the tighter of the two bounds, so the side
   * that limits takes its bound and the other follows the aspect ratio.
   */
  function FitDimensions(w: nat, h: nat, maxW: nat, maxH: nat): (r: Dimensions)
    ensures r.width <= maxW && r.height <= maxH
    ensures w <= maxW && h <= maxH ==> r == Dimensions(w, h)
  {
    if w <= maxW && h <= maxH then Dimensions(w, h)
    else if w > 0 && maxW * h <= maxH * w then
      RoundDivAtMost(maxW * h, w, maxH);
      Dimensions(maxW, RoundDiv(maxW * h, w))
    else
      RoundDivAtMost(maxH * w, h, maxW);
      Dimensions(RoundDiv(maxH * w, h), maxH)
  }

  /** The intended rule keeps the aspect ratio up to rounding: w : h and width : height differ by under half a pixel on the longer side. */
  lemma FitKeepsAspect(w: nat, h: nat, maxW: nat, maxH: nat)
    ensures var r := FitDimensions(w, h, maxW, maxH);
      -Max(w, h) <= 2 * (r.height * w - r.width * h) <= Max(w, h)
  {
    var r := FitDimensions(w, h, maxW, maxH);
    if !(w <= maxW && h <= maxH) {
      if w > 0 && maxW * h <= maxH * w {
        AspectByWidth(w, h, maxW, r);
      } else {
        ScaledHeightPositive(w, h, maxW, maxH);
        AspectByHeight(w, h, maxH, r);
      }
    }
  }

  /** When the image must shrink and the width does not bind, the image has some height. */
  lemma ScaledHeightPositive(w: nat, h: nat, maxW: nat, maxH: nat)
    requires !(w <= maxW && h <= maxH) && !(w > 0 && maxW * h <= maxH * w)
    ensures h > 0
  {
    assert h == 0 ==> maxW * h == 0;
  }

  /** Scaling to the full width rounds the height to within half a pixel. */
  lemma AspectByWidth(w: nat, h: nat, maxW: nat, r: Dimensions)
    requires w > 0 && r == Dimensions(maxW, RoundDiv(maxW * h, w))
    ensures -Max(w, h) <= 2 * (r.height * w - r.width * h) <= Max(w, h)
  {
    RoundDivClose(maxW * h, w);
  }

  /** Scaling to the full height rounds the width to within half a pixel. */
  lemma AspectByHeight(w: nat, h: nat, maxH: nat, r: Dimensions)
    requires h > 0 && r == Dimensions(RoundDiv(maxH * w, h), maxH)
    ensures -Max(w, h) <= 2 * (r.height * w - r.width * h) <= Max(w, h)
  {
    RoundDivClose(maxH * w, h);
  }

  /** On square bounds the intended rule and the written one agree. */
  lemma FitAgreesOnSquareBounds(w: nat, h: nat, m: nat)
    ensures FitDimensions(w, h, m, m) == CalculateDimensions(w, h, m, m)
  {
    if (w > m || h > m) && m > 0 {
      if w > h {
        assert m * h <= m * w;
      } else if w == h {
        RoundDivExact(m, w);
      } else {
        assert m * h > m * w;
      }
    }
  }

  /** The thumbnail of a compressed image: the written rule on 300 x 300 bounds, so it fits them. */
  function ThumbnailDimensions(d: Dimensions): (r: Dimensions)
    ensures r.width <= ThumbnailSize && r.height <= ThumbnailSize
    ensures d.width <= ThumbnailSize && d.height <= ThumbnailSize ==> r == d
  {
    SquareBoundsFit(d.width, d.height, ThumbnailSize);
    CalculateDimensions(d.width, d.height, ThumbnailSize, ThumbnailSize)
  }

  /**
   * The compressed image and its optional thumbnail, as sized by
   * `compressImage` with the written rule: the result fits square bounds,
   * and bounds that are not square can be overshot.
   */
  function PlanSizes(naturalWidth: nat, naturalHeight: nat, options: CompressionOptions): (r: (Dimensions, Option<Dimensions>))
    ensures var s := ResolveOptions(options);
      && (naturalWidth <= s.maxWidth && naturalHeight <= s.maxHeight ==> r.0 == Dimensions(naturalWidth, naturalHeight))
      && (s.maxWidth == s.maxHeight ==> r.0.width <= s.maxWidth && r.0.height <= s.maxHeight)
      && (r.1.Some? <==> s.generateThumbnail)
      && (r.1.Some? ==> r.1.value.width <= ThumbnailSize && r.1.value.height <= ThumbnailSize)
  {
    var s := ResolveOptions(options);
    SquareBoundsFit(naturalWidth, naturalHeight, s.maxWidth);
    var d := CalculateDimensions(naturalWidth, naturalHeight, s.maxWidth, s.maxHeight);
    (d, if s.generateThumbnail then Some(ThumbnailDimensions(d)) else None)
  }

  /** `compressImage` with a 1000 x 100 bound turns a 2000 x 1000 image into 1000 x 500. */
  lemma PlanSizesOverflow()
    ensures var options := CompressionOptions(Some(1000), Some(100), None, None, None);
      PlanSizes(2000, 1000, options).0 == Dimensions(1000, 500)
  {
    NonSquareBoundsOverflow();
  }

  /**
   * `compressImage` with the intended rule: the compressed size fits the
   * resolved bounds whatever their shape, and on square bounds it is what
   * the written rule gives.
   */
  function FittedPlanSizes(naturalWidth: nat, naturalHeight: nat, options: CompressionOptions): (r: (Dimensions, Option<Dimensions>))
    ensures var s := ResolveOptions(options);
      && r.0.width <= s.maxWidth && r.0.height <= s.maxHeight
      && (naturalWidth <= s.maxWidth && naturalHeight <= s.maxHeight ==> r.0 == Dimensions(naturalWidth, naturalHeight))
      && (s.maxWidth == s.maxHeight ==> r == PlanSizes(naturalWidth, naturalHeight, options))
      && (r.1.Some? <==> s.generateThumbnail)
      && (r.1.Some? ==> r.1.value.width <= ThumbnailSize && r.1.value.height <= ThumbnailSize)
  {
    var s := ResolveOptions(options);
    FitAgreesOnSquareBounds(naturalWidth, naturalHeight, s.maxWidth);
    var d := FitDimensions(naturalWidth, naturalHeight, s.maxWidth, s.maxHeight);
    (d, if s.generateThumbnail then Some(ThumbnailDimensions(d)) else None)
  }

  // ---------------------------------------------------------------------
  // Sizes

  /** `shouldCompressImage`. */
  predicate ShouldCompress(size: nat) {
    size > CompressThreshold
  }

  /** Exactly 2 MB is left alone; one byte more is compressed. */
  lemma CompressThresholdEdge()
    ensures !ShouldCompress(2097152) && ShouldCompress(2097153)
    ensures forall size: nat :: ShouldCompress(size) ==> ShouldCompress(size + 1)
  {
  }

  /** `Math.round(len * 3 / 4)`: the bytes a base64 text of that length decodes to. */
  function EstimatedSize(base64Length: nat): (n: nat)
    ensures -2 <= 3 * base64Length - 4 * n < 2
  {
    RoundDivClose(3 * base64Length, 4);
    RoundDiv(3 * base64Length, 4)
  }

  /** Four base64 characters are three bytes. */
  lemma EstimatedSizeOfBlocks(blocks: nat)
    ensures EstimatedSize(4 * blocks) == 3 * blocks
  {
    assert 3 * (4 * blocks) == (3 * blocks) * 4;
    RoundDivExact(3 * blocks, 4);
  }

  /** `getFileSizeFromDataUrl`: the estimate for the text between the first comma and the next, or 0 without a comma. */
  function FileSizeFromDataUrl(dataUrl: string): (n: nat)
    ensures ',' !in dataUrl ==> n == 0
  {
    var parts := Split(dataUrl, ',');
    if ',' !in dataUrl then
      SplitWithoutSeparator(dataUrl, ',');
      0
    else if |parts| > 1 then EstimatedSize(|parts[1]|) else 0
  }

  /** A data URL with one comma: the size is the estimate for everything after it. */
  lemma FileSizeAfterComma(header: string, payload: string)
    requires ',' !in header && ',' !in payload
    ensures FileSizeFromDataUrl(header + "," + payload) == EstimatedSize(|payload|)
  {
    SplitCons(header, ',', payload);
    SplitWithoutSeparator(payload, ',');
    assert ',' in header + "," + payload by { assert (header + "," + payload)[|header|] == ','; }
  }
}
