/**
 * Placement arithmetic of the two compositing paths, on exact rationals:
 * - flat lay: the garment is 3/5 of the background's width, keeps its aspect
 *   ratio and is centred on both axes;
 * - full figure: the figure is a fraction of the background's height, keeps
 *   its aspect ratio, is centred horizontally and sits 50 px above the bottom.
 * Offsets use floor division by 2 (Python's `//`, which for a positive divisor
 * is Dafny's `/` also on negative numbers); nothing is clamped.
 */
module Geometry {

  /** A scale factor num/den, exact where the source writes a float literal. */
  datatype Ratio = Ratio(num: nat, den: nat)

  type Scale = r: Ratio | r.den > 0 witness Ratio(0, 1)

  /** 0.6: share of the background's width taken by a flat-lay garment. */
  const FlatLayShare: Scale := Ratio(3, 5)

  /** Gap in pixels between a full figure's feet and the background's bottom edge. */
  const BottomPadding: nat := 50

  /** Size and top-left corner of the pasted image, in background pixels. */
  datatype Placement = Placement(width: nat, height: nat, x: int, y: int)

  /** `int(n * s)` for a non-negative n: the floor of the exact product. */
  function Scaled(n: nat, s: Scale): (r: nat)
    ensures r * s.den <= n * s.num < (r + 1) * s.den
  {
    n * s.num / s.den
  }

  /** `int(t * (a / b))`: t scaled by the ratio a/b, rounded down. */
  function KeepAspect(t: nat, a: nat, b: nat): (r: nat)
    requires b > 0
    ensures r * b <= t * a < (r + 1) * b
  {
    t * a / b
  }

  /** Offset that centres an extent `inner` inside `outer`: `(outer - inner) // 2`. */
  function Centre(outer: int, inner: int): (x: int)
    ensures 2 * x <= outer - inner <= 2 * x + 1
  {
    (outer - inner) / 2
  }

  /** Flat-lay placement of a w x h garment on a bgW x bgH background. */
  function FlatLayPlacement(bgW: nat, bgH: nat, w: nat, h: nat): (p: Placement)
    requires w > 0
    ensures p.width * 5 <= bgW * 3 < (p.width + 1) * 5
    ensures p.height * w <= p.width * h < (p.height + 1) * w
    ensures 2 * p.x <= bgW - p.width <= 2 * p.x + 1
    ensures 2 * p.y <= bgH - p.height <= 2 * p.y + 1
  {
    var tw := Scaled(bgW, FlatLayShare);
    var th := KeepAspect(tw, h, w);
    Placement(tw, th, Centre(bgW, tw), Centre(bgH, th))
  }

  /** Full-figure placement of an avW x avH figure on a bgW x bgH background. */
  function FigurePlacement(bgW: nat, bgH: nat, avW: nat, avH: nat, scale: Scale): (p: Placement)
    requires avH > 0
    ensures p.height * scale.den <= bgH * scale.num < (p.height + 1) * scale.den
    ensures p.width * avH <= p.height * avW < (p.width + 1) * avH
    ensures 2 * p.x <= bgW - p.width <= 2 * p.x + 1
    ensures p.y + p.height + BottomPadding == bgH
  {
    var th := Scaled(bgH, scale);
    var tw := KeepAspect(th, avW, avH);
    Placement(tw, th, Centre(bgW, tw), bgH - th - BottomPadding)
  }

  /** Left and right margins of a centred extent differ by at most one pixel. */
  lemma CentredMargins(outer: int, inner: int)
    ensures var left := Centre(outer, inner);
            var right := outer - inner - left;
            0 <= right - left <= 1
  {
  }

  /** A flat-lay garment is never wider than its background. */
  lemma FlatLayWithinWidth(bgW: nat, bgH: nat, w: nat, h: nat)
    requires w > 0
    ensures FlatLayPlacement(bgW, bgH, w, h).width <= bgW
  {
  }

  /** With a scale of at most 1 the figure is never taller than the background. */
  lemma FigureWithinHeight(bgW: nat, bgH: nat, avW: nat, avH: nat, scale: Scale)
    requires avH > 0 && scale.num <= scale.den
    ensures FigurePlacement(bgW, bgH, avW, avH, scale).height <= bgH
  {
    var h := FigurePlacement(bgW, bgH, avW, avH, scale).height;
    assert h * scale.den <= bgH * scale.num <= bgH * scale.den;
    CancelFactor(h, bgH, scale.den);
  }

  lemma CancelFactor(a: int, b: int, c: int)
    requires c > 0 && a * c <= b * c
    ensures a <= b
  {
    assert (a - b) * c <= 0;
  }

  /**
   * No clamping: the horizontal offset is negative exactly when the figure is
   * wider than the background, the vertical one exactly when the figure is
   * taller than the background less the padding.
   */
  lemma FigureOverflow(bgW: nat, bgH: nat, avW: nat, avH: nat, scale: Scale)
    requires avH > 0
    ensures var p := FigurePlacement(bgW, bgH, avW, avH, scale);
            (p.x < 0 <==> p.width > bgW) && (p.y < 0 <==> p.height > bgH - BottomPadding)
  {
  }

  /** 200 x 300 background, square 100 x 100 figure, scale 1/2. */
  lemma FigureExample()
    ensures FigurePlacement(200, 300, 100, 100, Ratio(1, 2)) == Placement(150, 150, 25, 100)
  {
  }

  /** 400 x 200 background, 2:1 garment. */
  lemma FlatLayExample()
    ensures FlatLayPlacement(400, 200, 200, 100) == Placement(240, 120, 80, 40)
  {
  }
}
