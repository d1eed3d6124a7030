/** Where the card compositor puts each sub-image on the 470 x 320 canvas.

    Every sub-image is drawn with `draw.Draw(card, card.Bounds(), src, sp, draw.Src)`:
    the source point `sp` is aligned with the canvas corner (0, 0), so a source
    pixel `p` lands at `p - sp` and the source image's own origin lands at `-sp`.
    All sub-images have their origin at (0, 0). Widths are in pixels; the ink
    widths of the rendered texts come from the font rasteriser and are inputs here. */
module Layout {
  import Symbology

  const CardWidth: int := 470
  /** The owner name is rendered on an opaque white canvas as wide as the card. */
  const OwnerCanvasWidth: int := CardWidth
  /** Blank columns left of the symbology label and right of the owner name. */
  const SideMargin: int := 50

  /** Go's `a / 2`, which truncates toward zero: the remainder is -1, 0 or 1
      and never has the opposite sign to the dividend. */
  function GoHalf(a: int): (q: int)
    ensures -1 <= a - 2 * q <= 1
    ensures a - 2 * q == 0 || (a - 2 * q < 0 <==> a < 0)
  {
    if a >= 0 then a / 2 else -((-a) / 2)
  }

  /** The contract of `GoHalf` leaves no choice: it is Go's quotient. */
  lemma GoHalfUnique(a: int, q: int)
    requires -1 <= a - 2 * q <= 1
    requires a - 2 * q == 0 || (a - 2 * q < 0 <==> a < 0)
    ensures q == GoHalf(a)
  {
  }

  /** Truncating and Euclidean halving agree on a non-negative or even
      dividend and differ by one on a negative odd one. */
  lemma GoHalfVersusEuclidean(a: int)
    ensures a >= 0 || a % 2 == 0 ==> GoHalf(a) == a / 2
    ensures a < 0 && a % 2 != 0 ==> GoHalf(a) == a / 2 + 1
  {
  }

  datatype Point = Point(x: int, y: int)

  /** Where `draw.Draw` puts source pixel `p` when the source point is `sp`. */
  function DrawnAt(sp: Point, p: Point): Point {
    Point(p.x - sp.x, p.y - sp.y)
  }

  /** Where a sub-image's origin lands for source point `sp`. */
  function OriginFor(sp: Point): Point {
    Point(-sp.x, -sp.y)
  }

  /** The source point itself is put on the canvas corner, the image's origin
      lands at `OriginFor(sp)`, and every other pixel keeps its offset from it. */
  lemma DrawTranslates(sp: Point, p: Point)
    ensures DrawnAt(sp, sp) == Point(0, 0)
    ensures DrawnAt(sp, Point(0, 0)) == OriginFor(sp)
    ensures DrawnAt(sp, p) == Point(OriginFor(sp).x + p.x, OriginFor(sp).y + p.y)
  {
  }

  /** The horizontal source coordinate used to centre an image `d` pixels wide. */
  function CentringSourceX(d: int): int {
    GoHalf(d - CardWidth)
  }

  // The source points exactly as the compositor writes them.
  function LogoSource(logoWidth: nat): Point { Point(CentringSourceX(logoWidth), -50) }
  function BarcodeSource(barcodeWidth: nat): Point { Point(CentringSourceX(barcodeWidth), -122) }
  function CodeTextSource(codeInk: int): Point { Point(CentringSourceX(codeInk), -222) }
  function LabelSource(): Point { Point(-SideMargin, -260) }
  function OwnerSource(ownerInk: int): Point { Point(-CardWidth + ownerInk + SideMargin, -260) }

  /** Where the five sub-images of a card are put. */
  datatype Placement = Placement(logo: Point, barcode: Point, codeText: Point, symbologyLabel: Point, owner: Point)

  /** Centring with a truncating half: an item `d` pixels wide gets left and
      right margins that add up with it to the card width and differ by at
      most one; the odd pixel goes right when the item is narrower than the
      card and left when it is wider. */
  lemma {:induction false} CentredMargins(d: int)
    ensures var left := OriginFor(Point(CentringSourceX(d), 0)).x;
      var right := CardWidth - left - d;
      -1 <= left - right <= 1 &&
      left - right == (if d <= CardWidth then -(d % 2) else d % 2)
  {
    var e := d - CardWidth;
    GoHalfVersusEuclidean(e);
    assert e % 2 == d % 2;
  }

  /** The compositor's placement, from the logo and barcode widths and the ink
      widths of the code text and the owner name. Top to bottom the logo is at
      y = 50, the barcode at 122, the code text at 222, and the label and the
      owner at 260. The logo, the barcode and the code text's ink are each
      centred to within one pixel, the odd pixel going right of an item
      narrower than the card and left of a wider one; the label starts 50 pixels from the left
      edge and the owner's ink ends 50 pixels from the right edge, whatever its
      width. The label's ink width is passed to the compositor but takes no
      part in the placement. */
  function Compose(logoWidth: nat, barcodeWidth: nat, codeInk: int, labelInk: int, ownerInk: int): (p: Placement)
    ensures p.logo.y == 50 && p.barcode.y == 122 && p.codeText.y == 222
    ensures p.symbologyLabel.y == 260 && p.owner.y == 260
    ensures -1 <= 2 * p.logo.x + logoWidth - CardWidth <= 1
    ensures -1 <= 2 * p.barcode.x + barcodeWidth - CardWidth <= 1
    ensures -1 <= 2 * p.codeText.x + codeInk - CardWidth <= 1
    ensures 2 * p.logo.x + logoWidth - CardWidth ==
      (if logoWidth <= CardWidth then -(logoWidth % 2) else logoWidth % 2)
    ensures 2 * p.barcode.x + barcodeWidth - CardWidth ==
      (if barcodeWidth <= CardWidth then -(barcodeWidth % 2) else barcodeWidth % 2)
    ensures 2 * p.codeText.x + codeInk - CardWidth ==
      (if codeInk <= CardWidth then -(codeInk % 2) else codeInk % 2)
    ensures p.symbologyLabel.x == SideMargin
    ensures p.owner.x + ownerInk == CardWidth - SideMargin
  {
    CentredMargins(logoWidth);
    CentredMargins(barcodeWidth);
    CentredMargins(codeInk);
    Placement(
      OriginFor(LogoSource(logoWidth)),
      OriginFor(BarcodeSource(barcodeWidth)),
      OriginFor(CodeTextSource(codeInk)),
      OriginFor(LabelSource()),
      OriginFor(OwnerSource(ownerInk)))
  }

  /** The code text's canvas starts on the row just below the scaled barcode
      (122 + 100 = 222). */
  lemma BarcodeMeetsCodeText(logoWidth: nat, nativeWidth: nat, codeInk: int, labelInk: int, ownerInk: int)
    ensures var size := Symbology.ScaleTarget(nativeWidth);
      var p := Compose(logoWidth, size.width, codeInk, labelInk, ownerInk);
      p.barcode.y + size.height == p.codeText.y
  {
  }

  /** The owner canvas is opaque white, as wide as the card and drawn after
      the label on the same rows, so the label's ink survives exactly when it
      ends at or left of the owner canvas's first column or starts at or right
      of its last: when the two ink widths sum to at most 370, or the owner's
      ink is so wide (840 or more) that its whole canvas lies left of the label. */
  lemma LabelClearOfOwner(logoWidth: nat, barcodeWidth: nat, codeInk: int, labelInk: int, ownerInk: int)
    ensures var p := Compose(logoWidth, barcodeWidth, codeInk, labelInk, ownerInk);
      (p.symbologyLabel.x + labelInk <= p.owner.x || p.owner.x + OwnerCanvasWidth <= p.symbologyLabel.x)
      <==>
      (labelInk + ownerInk <= CardWidth - 2 * SideMargin || ownerInk >= OwnerCanvasWidth + CardWidth - 2 * SideMargin)
  {
  }
}
