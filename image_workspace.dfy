/** The arithmetic of the editing canvas: the size the image is shown at,
    the factor between natural and displayed pixels, where a click drops a
    new square, and which squares a square snaps to. */
module ImageWorkspace {
  import opened Types
  import CropSquares

  const MAX_DISPLAY_WIDTH: real := 900.0
  const MAX_DISPLAY_HEIGHT: real := 600.0
  const MIN_CLICK_SIZE: real := 50.0

  /** `Math.min(900 / nw, 600 / nh, 1)`. A zero natural side makes its
      ratio `Infinity`, which never wins the minimum, so it is skipped. */
  function FitScale(nw: nat, nh: nat): (scale: real)
    ensures 0.0 < scale <= 1.0
    ensures nw as real * scale <= MAX_DISPLAY_WIDTH
    ensures nh as real * scale <= MAX_DISPLAY_HEIGHT
    ensures scale == 1.0 || nw as real * scale == MAX_DISPLAY_WIDTH || nh as real * scale == MAX_DISPLAY_HEIGHT
  {
    if nw == 0 && nh == 0 then 1.0
    else if nw == 0 then Min(MAX_DISPLAY_HEIGHT / nh as real, 1.0)
    else if nh == 0 then Min(MAX_DISPLAY_WIDTH / nw as real, 1.0)
    else Min3(MAX_DISPLAY_WIDTH / nw as real, MAX_DISPLAY_HEIGHT / nh as real, 1.0)
  }

  datatype DisplaySize = DisplaySize(width: int, height: int)

  /** The displayed size: each natural side times the fit scale, rounded. */
  function Display(nw: nat, nh: nat): (d: DisplaySize)
    ensures 0 <= d.width <= 900 && 0 <= d.height <= 600
    ensures d.width <= nw && d.height <= nh
    ensures nw as real <= MAX_DISPLAY_WIDTH && nh as real <= MAX_DISPLAY_HEIGHT ==> d == DisplaySize(nw, nh)
  {
    var scale := FitScale(nw, nh);
    var sw, sh := nw as real * scale, nh as real * scale;
    RoundScaled(nw, scale);
    RoundScaled(nh, scale);
    RoundBelow(sw, 900);
    RoundBelow(sh, 600);
    SmallImageFitsUnscaled(nw, nh);
    DisplaySize(Round(sw), Round(sh))
  }

  /** Rounding a value at most `n` cannot exceed the integer `n`. */
  lemma RoundBelow(v: real, n: int)
    requires 0.0 <= v <= n as real
    ensures 0 <= Round(v) <= n
  {
  }

  /** A side shrunk by a factor in (0, 1] rounds to at most the side. */
  lemma RoundScaled(n: nat, scale: real)
    requires 0.0 < scale <= 1.0
    ensures 0 <= Round(n as real * scale) <= n
    ensures scale == 1.0 ==> Round(n as real * scale) == n
  {
    assert n as real * scale <= n as real * 1.0;
    RoundBelow(n as real * scale, n);
  }

  /** An image within 900 x 600 is not shrunk. */
  lemma SmallImageFitsUnscaled(nw: nat, nh: nat)
    ensures nw as real <= MAX_DISPLAY_WIDTH && nh as real <= MAX_DISPLAY_HEIGHT ==> FitScale(nw, nh) == 1.0
  {
    if nw > 0 {
      RatioAtLeastOne(MAX_DISPLAY_WIDTH, nw as real);
    }
    if nh > 0 {
      RatioAtLeastOne(MAX_DISPLAY_HEIGHT, nh as real);
    }
  }

  /** The factor `naturalWidth / width` reported to the exporter. When the
      displayed width rounds to 0 the division gives no finite factor (and
      the canvas renders nothing); that case is `None`. */
  function ScaleFactor(nw: nat, nh: nat): (f: Option<real>)
    ensures Display(nw, nh).width == 0 <==> f == None
    ensures f.Some? ==> f.value >= 1.0 && f.value * Display(nw, nh).width as real == nw as real
  {
    var w := Display(nw, nh).width;
    if w == 0 then None
    else
      RatioAtLeastOne(nw as real, w as real);
      Some(nw as real / w as real)
  }

  /** An image already within 900 x 600 is shown at its natural size and
      the factor is exactly 1. */
  lemma SmallImageUnscaled(nw: nat, nh: nat)
    requires 1 <= nw && nw as real <= MAX_DISPLAY_WIDTH && nh as real <= MAX_DISPLAY_HEIGHT
    ensures ScaleFactor(nw, nh) == Some(1.0)
  {
    var d := Display(nw, nh);
    assert d.width == nw;
    assert nw as real / d.width as real == 1.0;
  }

  /** The square a click at `(clickX, clickY)` on a `w x h` canvas adds:
      a fifth of the shorter side but at least 50, centred on the click and
      pulled back inside the canvas. */
  function ClickPlacement(w: int, h: int, clickX: real, clickY: real): (p: Position)
    ensures p.size == Max(MIN_CLICK_SIZE, Min(w as real, h as real) * 0.2)
    ensures p.x >= 0.0 && p.y >= 0.0
    ensures p.size <= w as real ==> p.x + p.size <= w as real
    ensures p.size <= h as real ==> p.y + p.size <= h as real
    ensures p.size / 2.0 <= clickX <= w as real - p.size / 2.0 ==> p.x == clickX - p.size / 2.0
    ensures p.size / 2.0 <= clickY <= h as real - p.size / 2.0 ==> p.y == clickY - p.size / 2.0
  {
    var size := Max(MIN_CLICK_SIZE, Min(w as real, h as real) * 0.2);
    var x := Max(0.0, Min(w as real - size, clickX - size / 2.0));
    var y := Max(0.0, Min(h as real - size, clickY - size / 2.0));
    Position(x, y, size)
  }

  /** On a canvas at least 50 wide and high every click adds a square
      that lies wholly inside it. */
  lemma ClickPlacementInside(w: int, h: int, clickX: real, clickY: real)
    requires w >= 50 && h >= 50
    ensures var p := ClickPlacement(w, h, clickX, clickY);
      p.size >= MIN_CLICK_SIZE && p.x + p.size <= w as real && p.y + p.size <= h as real
  {
  }

  /** The squares `sq` snaps to: every square of the list but the ones
      sharing its id. */
  function SnapTargets(squares: seq<Square>, sq: Square): (r: seq<Square>)
    ensures forall t :: t in r <==> t in squares && t.id != sq.id
    ensures sq !in r
  {
    CropSquares.WithoutId(squares, sq.id)
  }

  /** With distinct ids, a square of the list has all the others as
      targets: exactly one fewer than the list. */
  lemma SnapTargetsOneFewer(squares: seq<Square>, sq: Square)
    requires CropSquares.DistinctIds(squares) && sq in squares
    ensures |SnapTargets(squares, sq)| == |squares| - 1
  {
    CropSquares.RemovedLength(squares, sq.id);
    CropSquares.OccurrencesOfDistinct(squares, sq.id);
    CropSquares.NoOccurrences(squares, sq.id);
    var i :| 0 <= i < |squares| && squares[i] == sq;
    assert squares[i].id == sq.id;
  }
}
