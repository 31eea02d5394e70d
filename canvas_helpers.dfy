// Export geometry (src/lib/canvas-helpers.ts): the canvas size chosen for a
// preset, where the card image is drawn under each fit mode, and the size
// and corner of the QR code stamped on the export.
//
// Lengths are exact reals; the drawing calls themselves are not modelled.

module CanvasHelpers {
  import opened Common
  import opened ExportPresets

  const DefaultCanvasSide := 1080
  const QrMargin := 20
  const QrLabelHeight := 20
  const QrLabelGap := 8

  datatype FitMode = Cover | Contain | Fill

  datatype Corner = TopLeft | TopRight | BottomLeft | BottomRight

  /** The export options the geometry reads (`ExportOptions`). */
  datatype QrOptions = QrOptions(fitMode: FitMode, includeQR: bool, qrSize: real, qrPosition: Option<Corner>, qrLabel: Option<string>)

  /** `DEFAULT_EXPORT_OPTIONS`, restricted to the fields above. */
  const DefaultQrOptions := QrOptions(Cover, false, 15.0, Some(TopRight), Some("Scan for details"))

  datatype Size = Size(width: nat, height: nat)

  /** `preset?.width || 1080` and the same for the height: a missing preset or a zero side gives 1080. */
  function CanvasSize(preset: Option<ExportPreset>): (s: Size)
    ensures preset.None? ==> s == Size(DefaultCanvasSide, DefaultCanvasSide)
    ensures preset.Some? && preset.value.width > 0 ==> s.width == preset.value.width
    ensures preset.Some? && preset.value.height > 0 ==> s.height == preset.value.height
    ensures s.width > 0 && s.height > 0
  {
    match preset
    case None => Size(DefaultCanvasSide, DefaultCanvasSide)
    case Some(p) =>
      Size(if p.width > 0 then p.width else DefaultCanvasSide,
           if p.height > 0 then p.height else DefaultCanvasSide)
  }

  /** Every preset of the table gives its own canvas. */
  lemma PresetCanvas(i: nat)
    requires i < |Presets|
    ensures CanvasSize(Some(Presets[i])) == Size(Presets[i].width, Presets[i].height)
  {
    PresetTable();
  }

  // ---------------------------------------------------------------------
  // Fitting the image

  /** `ImageFitParams`: the source rectangle drawn and where it lands. */
  datatype FitParams = FitParams(sx: real, sy: real, sw: real, sh: real, dx: real, dy: real, dw: real, dh: real)

  /** The whole target is drawn on. */
  predicate FillsTarget(f: FitParams, tw: real, th: real) {
    f.dx == 0.0 && f.dy == 0.0 && f.dw == tw && f.dh == th
  }

  /** The whole image is read. */
  predicate ReadsWholeImage(f: FitParams, iw: real, ih: real) {
    f.sx == 0.0 && f.sy == 0.0 && f.sw == iw && f.sh == ih
  }

  /** The source crop lies inside the image, centred, with the target's proportions, and is as large as it can be: one side is the image's. */
  predicate CentredCrop(f: FitParams, iw: real, ih: real, tw: real, th: real) {
    && 0.0 <= f.sx && f.sx + f.sw + f.sx == iw
    && 0.0 <= f.sy && f.sy + f.sh + f.sy == ih
    && f.sw * th == f.sh * tw
    && (f.sw == iw || f.sh == ih)
  }

  /** The destination lies inside the target, centred, with the image's proportions and one side flush. */
  predicate CentredBox(f: FitParams, iw: real, ih: real, tw: real, th: real) {
    && 0.0 <= f.dx && f.dx + f.dw + f.dx == tw
    && 0.0 <= f.dy && f.dy + f.dh + f.dy == th
    && f.dw * ih == f.dh * iw
    && (f.dw == tw || f.dh == th)
  }

  /**
   * `calculateImageFit`: `cover` crops the image to the target's proportions
   * and fills the target; `contain` draws the whole image letterboxed in the
   * middle; `fill` stretches the whole image over the whole target. The
   * ratios are compared as iw / ih > tw / th, written here without division.
   */
  function ImageFit(iw: real, ih: real, tw: real, th: real, mode: FitMode): (f: FitParams)
    requires iw > 0.0 && ih > 0.0 && tw > 0.0 && th > 0.0
    ensures mode == Cover ==> FillsTarget(f, tw, th) && CentredCrop(f, iw, ih, tw, th)
    ensures mode == Contain ==> ReadsWholeImage(f, iw, ih) && CentredBox(f, iw, ih, tw, th)
    ensures mode == Fill ==> ReadsWholeImage(f, iw, ih) && FillsTarget(f, tw, th)
  {
    var wider := iw * th > tw * ih;
    match mode
    case Cover =>
      if wider then
        var sw := ih * (tw / th);
        assert sw <= iw by { ScaleBelow(ih, tw, th, iw); }
        assert sw * th == ih * tw by { Unscale(ih, tw, th); }
        FitParams((iw - sw) / 2.0, 0.0, sw, ih, 0.0, 0.0, tw, th)
      else
        var sh := iw / (tw / th);
        assert sh <= ih by { UnscaleBelow(iw, tw, th, ih); }
        assert iw * th == sh * tw by { Rescale(iw, tw, th); }
        FitParams(0.0, (ih - sh) / 2.0, iw, sh, 0.0, 0.0, tw, th)
    case Contain =>
      if wider then
        var dh := tw / (iw / ih);
        assert dh <= th by { UnscaleBelow(tw, iw, ih, th); }
        assert tw * ih == dh * iw by { Rescale(tw, iw, ih); }
        FitParams(0.0, 0.0, iw, ih, 0.0, (th - dh) / 2.0, tw, dh)
      else
        var dw := th * (iw / ih);
        assert dw <= tw by { ScaleBelow(th, iw, ih, tw); }
        assert dw * ih == th * iw by { Unscale(th, iw, ih); }
        FitParams(0.0, 0.0, iw, ih, (tw - dw) / 2.0, 0.0, dw, th)
    case Fill =>
      FitParams(0.0, 0.0, iw, ih, 0.0, 0.0, tw, th)
  }

  /** x * (a / b) * b == x * a. */
  lemma Unscale(x: real, a: real, b: real)
    requires b > 0.0
    ensures x * (a / b) * b == x * a
  {
    assert (a / b) * b == a;
  }

  /** x / (a / b) * a == x * b. */
  lemma Rescale(x: real, a: real, b: real)
    requires a > 0.0 && b > 0.0
    ensures x * b == x / (a / b) * a
  {
    var q := x / (a / b);
    assert q * (a / b) == x;
    assert q * a == q * (a / b) * b;
  }

  /** When x * a <= y * b, scaling x by a / b stays within y. */
  lemma ScaleBelow(x: real, a: real, b: real, y: real)
    requires b > 0.0 && a > 0.0 && x > 0.0 && y > 0.0
    requires x * a <= y * b
    ensures x * (a / b) <= y
  {
    Unscale(x, a, b);
  }

  /** When x * b <= y * a, dividing x by a / b stays within y. */
  lemma UnscaleBelow(x: real, a: real, b: real, y: real)
    requires a > 0.0 && b > 0.0 && x > 0.0 && y > 0.0
    requires x * b <= y * a
    ensures x / (a / b) <= y
  {
    Rescale(x, a, b);
  }

  /** With matching proportions every mode draws the whole image over the whole target. */
  lemma SameProportionsStretch(iw: real, ih: real, tw: real, th: real, mode: FitMode)
    requires iw > 0.0 && ih > 0.0 && tw > 0.0 && th > 0.0
    requires iw * th == tw * ih
    ensures ImageFit(iw, ih, tw, th, mode) == ImageFit(iw, ih, tw, th, Fill)
  {
  }

  // ---------------------------------------------------------------------
  // The QR code

  /** The QR side and the height of the QR plus its label. */
  datatype QrBox = QrBox(qrSize: int, totalHeight: int)

  /** A label is drawn when it is a non-empty string. */
  predicate HasLabel(caption: Option<string>) {
    caption.Some? && caption.value != ""
  }

  /** `drawQRWithLabel`'s sizes: the side is the floor of that share of the width; a label adds its height and a gap. */
  function QrLayout(width: nat, sizePercent: real, caption: Option<string>): (b: QrBox)
    ensures b.qrSize as real <= width as real * (sizePercent / 100.0) < b.qrSize as real + 1.0
    ensures b.totalHeight == b.qrSize + (if HasLabel(caption) then QrLabelHeight + QrLabelGap else 0)
  {
    var qrSize := (width as real * (sizePercent / 100.0)).Floor;
    var labelHeight := if HasLabel(caption) then QrLabelHeight else 0;
    QrBox(qrSize, qrSize + labelHeight + (if labelHeight != 0 then QrLabelGap else 0))
  }

  datatype Point = Point(x: int, y: int)

  /** `calculateQRPosition`: 20 px from the chosen corner; anything but the four corners is bottom right. */
  function QrPosition(canvasWidth: int, canvasHeight: int, qrSize: int, totalHeight: int, position: Option<Corner>): (p: Point)
    ensures position == Some(TopLeft) || position == Some(BottomLeft) ==> p.x == QrMargin
    ensures position == Some(TopLeft) || position == Some(TopRight) ==> p.y == QrMargin
    ensures position != Some(TopLeft) && position != Some(BottomLeft) ==> p.x + qrSize + QrMargin == canvasWidth
    ensures position != Some(TopLeft) && position != Some(TopRight) ==> p.y + totalHeight + QrMargin == canvasHeight
  {
    match position
    case Some(TopLeft) => Point(QrMargin, QrMargin)
    case Some(TopRight) => Point(canvasWidth - qrSize - QrMargin, QrMargin)
    case Some(BottomLeft) => Point(QrMargin, canvasHeight - totalHeight - QrMargin)
    case _ => Point(canvasWidth - qrSize - QrMargin, canvasHeight - totalHeight - QrMargin)
  }

  /** The top corners do not depend on the label; a missing corner is bottom right. */
  lemma QrPositionDefaults(w: int, h: int, q: int, t1: int, t2: int, c: Corner)
    ensures c == TopLeft || c == TopRight ==> QrPosition(w, h, q, t1, Some(c)) == QrPosition(w, h, q, t2, Some(c))
    ensures QrPosition(w, h, q, t1, None) == QrPosition(w, h, q, t1, Some(BottomRight))
  {
  }

  /** When the canvas has room for the box and both margins, the box lies inside it, 20 px clear of every edge. */
  lemma QrInsideCanvas(w: int, h: int, b: QrBox, c: Option<Corner>)
    requires b.qrSize >= 0 && b.totalHeight >= 0
    requires b.qrSize + 2 * QrMargin <= w && b.totalHeight + 2 * QrMargin <= h
    ensures var p := QrPosition(w, h, b.qrSize, b.totalHeight, c);
      QrMargin <= p.x && p.x + b.qrSize + QrMargin <= w && QrMargin <= p.y && p.y + b.totalHeight + QrMargin <= h
  {
  }

  /** The default options on the default canvas: a 162 px code with its label, 20 px from the top right corner. */
  lemma DefaultQrPlacement()
    ensures QrLayout(1080, DefaultQrOptions.qrSize, DefaultQrOptions.qrLabel) == QrBox(162, 190)
    ensures QrPosition(1080, 1080, 162, 190, DefaultQrOptions.qrPosition) == Point(898, 20)
  {
    assert 1080.0 * (15.0 / 100.0) == 162.0;
  }
}
