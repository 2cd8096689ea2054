/** Quality scoring of an image or of one crop: exposure counts over a
    luma histogram, contrast from two histogram quantiles, sharpness from
    the variance of a 4-neighbour Laplacian, then a level, a score and
    the list of reasons. Pixels are a row-major sequence of RGB triples
    of 8-bit channels; metrics are reals. */
module ImageAnalysis {
  import opened Types

  const EXPORT_SIZE: real := 1080.0

  /** Luma weights of ITU-R BT.709, Part 2, item 3.2. */
  const LUMA_R: real := 0.2126
  const LUMA_G: real := 0.7152
  const LUMA_B: real := 0.0722

  // ------------------------------------------------------------- pixels

  type Channel = v: int | 0 <= v <= 255

  datatype Pixel = Pixel(r: Channel, g: Channel, b: Channel)

  /** `clamp(value, min, max)`. */
  function Clamp(value: real, min: real, max: real): (r: real)
    ensures min <= max ==> min <= r <= max
    ensures min <= value <= max ==> r == value
  {
    Max(min, Min(max, value))
  }

  function Luma(p: Pixel): real
  {
    LUMA_R * p.r as real + LUMA_G * p.g as real + LUMA_B * p.b as real
  }

  /** The weights sum to one: luma stays within the channel range and a
      gray pixel has its own tone as luma. */
  lemma LumaRange(p: Pixel)
    ensures 0.0 <= Luma(p) <= 255.0
    ensures p.r == p.g == p.b ==> Luma(p) == p.r as real
  {
  }

  /** The histogram bin of a luma value: clamped to `[0, 255]`, then
      rounded to the nearest integer. */
  function Bin(l: real): (b: int)
    ensures 0 <= b <= 255
    ensures 0.0 <= l <= 255.0 ==> l - 0.5 < b as real <= l + 0.5
  {
    Round(Clamp(l, 0.0, 255.0))
  }

  /** The per-pixel tests counted by the analysis. */
  datatype Test = Overexposed | ClippedHighlight | Underexposed | InBin(bin: int)

  predicate Hits(t: Test, p: Pixel)
  {
    match t
    case Overexposed => Luma(p) >= 245.0
    case ClippedHighlight => p.r >= 250 || p.g >= 250 || p.b >= 250
    case Underexposed => Luma(p) <= 15.0
    case InBin(b) => Bin(Luma(p)) == b
  }

  /** How many pixels pass a test. */
  function Count(ps: seq<Pixel>, t: Test): (n: nat)
    ensures n <= |ps|
  {
    if ps == [] then 0 else Count(ps[..|ps| - 1], t) + (if Hits(t, ps[|ps| - 1]) then 1 else 0)
  }

  /** A test every pixel passes counts all of them. */
  lemma {:induction false} CountAll(ps: seq<Pixel>, t: Test)
    requires forall i :: 0 <= i < |ps| ==> Hits(t, ps[i])
    ensures Count(ps, t) == |ps|
  {
    if ps != [] {
      CountAll(ps[..|ps| - 1], t);
    }
  }

  /** A test no pixel passes counts none. */
  lemma {:induction false} CountNone(ps: seq<Pixel>, t: Test)
    requires forall i :: 0 <= i < |ps| ==> !Hits(t, ps[i])
    ensures Count(ps, t) == 0
  {
    if ps != [] {
      CountNone(ps[..|ps| - 1], t);
    }
  }

  /** The 256-bin luma histogram. */
  function Histogram(ps: seq<Pixel>): (h: seq<int>)
    ensures |h| == 256
    ensures forall b :: 0 <= b < 256 ==> 0 <= h[b] <= |ps|
  {
    seq(256, b requires 0 <= b < 256 => Count(ps, InBin(b)))
  }

  /** The grayscale plane: one luma value per pixel. */
  function Grayscale(ps: seq<Pixel>): (g: seq<real>)
    ensures |g| == |ps|
    ensures forall k :: 0 <= k < |ps| ==> g[k] == Luma(ps[k])
  {
    seq(|ps|, k requires 0 <= k < |ps| => Luma(ps[k]))
  }

  // ----------------------------------------------------------- quantile

  /** Sum of the first `n` bins. */
  function Prefix(h: seq<int>, n: int): int
    requires 0 <= n <= |h|
  {
    if n == 0 then 0 else Prefix(h, n - 1) + h[n - 1]
  }

  /** The cumulative count up to and including bin `i` reaches the target. */
  predicate Reaches(h: seq<int>, i: int, target: real)
    requires 0 <= i < |h|
  {
    Prefix(h, i + 1) as real >= target
  }

  /** The scan of `quantileFromHistogram` from bin `i` on: the first bin
      whose cumulative count reaches the target, else the last bin. */
  function QuantileFrom(h: seq<int>, target: real, i: int): (r: int)
    requires 0 <= i <= |h|
    ensures |h| >= 1 ==> 0 <= r < |h|
    ensures i < |h| ==> i <= r
    ensures |h| == 0 ==> r == -1
    decreases |h| - i
  {
    if i == |h| then |h| - 1
    else if Reaches(h, i, target) then i
    else QuantileFrom(h, target, i + 1)
  }

  function Quantile(h: seq<int>, target: real): int
  {
    QuantileFrom(h, target, 0)
  }

  /** Bins before `r` that do not reach the target do not change the
      answer, and a bin that does is the answer. */
  lemma {:induction false} QuantileFromFirst(h: seq<int>, target: real, i: int, r: int)
    requires 0 <= i <= r < |h|
    requires Reaches(h, r, target)
    requires forall j :: i <= j < r ==> !Reaches(h, j, target)
    ensures QuantileFrom(h, target, i) == r
    decreases r - i
  {
    if i < r {
      QuantileFromFirst(h, target, i + 1, r);
    }
  }

  lemma {:induction false} QuantileFromNone(h: seq<int>, target: real, i: int)
    requires 0 <= i <= |h|
    requires forall j :: i <= j < |h| ==> !Reaches(h, j, target)
    ensures QuantileFrom(h, target, i) == |h| - 1
    decreases |h| - i
  {
    if i < |h| {
      QuantileFromNone(h, target, i + 1);
    }
  }

  /** The quantile is the smallest bin whose cumulative count reaches the
      target; when no bin does, it is the last bin. */
  lemma QuantileIsFirstReaching(h: seq<int>, target: real, r: int)
    ensures 0 <= r < |h| && Reaches(h, r, target) && (forall j :: 0 <= j < r ==> !Reaches(h, j, target))
            ==> Quantile(h, target) == r
    ensures (forall j :: 0 <= j < |h| ==> !Reaches(h, j, target)) ==> Quantile(h, target) == |h| - 1
  {
    if 0 <= r < |h| && Reaches(h, r, target) && (forall j :: 0 <= j < r ==> !Reaches(h, j, target)) {
      QuantileFromFirst(h, target, 0, r);
    }
    if forall j :: 0 <= j < |h| ==> !Reaches(h, j, target) {
      QuantileFromNone(h, target, 0);
    }
  }

  /** A higher target never gives a lower bin. */
  lemma {:induction false} QuantileFromMonotone(h: seq<int>, t1: real, t2: real, i: int)
    requires 0 <= i <= |h| && t1 <= t2
    ensures QuantileFrom(h, t1, i) <= QuantileFrom(h, t2, i)
    decreases |h| - i
  {
    if i < |h| && !Reaches(h, i, t1) {
      QuantileFromMonotone(h, t1, t2, i + 1);
    }
  }

  /** `quantileFromHistogram(histogram, totalPixels, quantile)`. */
  method QuantileFromHistogram(histogram: array<int>, totalPixels: int, quantile: real) returns (r: int)
    ensures r == Quantile(histogram[..], totalPixels as real * quantile)
  {
    ghost var h := histogram[..];
    var target := totalPixels as real * quantile;
    var cumulative := 0;
    for i := 0 to histogram.Length
      invariant cumulative == Prefix(h, i)
      invariant Quantile(h, target) == QuantileFrom(h, target, i)
    {
      cumulative := cumulative + histogram[i];
      if cumulative as real >= target {
        return i;
      }
    }
    return histogram.Length - 1;
  }

  // ---------------------------------------------------------- sharpness

  /** Row-major indexing stays inside a `w x h` grid. */
  lemma IndexInGrid(w: int, h: int, x: int, y: int)
    requires 0 <= x < w && 0 <= y < h
    ensures 0 <= y * w + x < w * h
  {
    assert 0 <= (h - 1 - y) * w;
    assert (h - 1 - y) * w == h * w - w - y * w;
  }

  /** The value at column `x`, row `y`. */
  function At<T>(s: seq<T>, w: int, h: int, x: int, y: int): T
    requires |s| == w * h && 0 <= x < w && 0 <= y < h
  {
    IndexInGrid(w, h, x, y);
    s[y * w + x]
  }

  /** The 4-neighbour Laplacian at an interior point: up, left, right and
      down, less four times the centre. */
  function Lap(g: seq<real>, w: int, h: int, x: int, y: int): real
    requires |g| == w * h && 1 <= x < w - 1 && 1 <= y < h - 1
  {
    At(g, w, h, x, y - 1) + At(g, w, h, x - 1, y) + At(g, w, h, x + 1, y) + At(g, w, h, x, y + 1)
      - 4.0 * At(g, w, h, x, y)
  }

  /** The Laplacian read off the row-major indices the loop uses. */
  lemma LapIndices(g: seq<real>, w: int, h: int, x: int, y: int)
    requires |g| == w * h && 1 <= x < w - 1 && 1 <= y < h - 1
    ensures 0 <= (y - 1) * w + x && (y + 1) * w + x < |g|
    ensures 0 <= y * w + x - 1 && y * w + x + 1 < |g|
    ensures Lap(g, w, h, x, y) == g[(y - 1) * w + x] + g[y * w + x - 1] + g[y * w + x + 1] + g[(y + 1) * w + x] - 4.0 * g[y * w + x]
  {
    IndexInGrid(w, h, x, y - 1);
    IndexInGrid(w, h, x - 1, y);
    IndexInGrid(w, h, x + 1, y);
    IndexInGrid(w, h, x, y + 1);
  }

  /** Running sums of the Laplacian, of its square, and their count. */
  datatype Acc = Acc(sum: real, sumSq: real, count: int)

  function Sq(v: real): real
  {
    v * v
  }

  function Add(a: Acc, lap: real): Acc
  {
    Acc(a.sum + lap, a.sumSq + Sq(lap), a.count + 1)
  }

  function Join(a: Acc, b: Acc): Acc
  {
    Acc(a.sum + b.sum, a.sumSq + b.sumSq, a.count + b.count)
  }

  /** Sums over columns `1 .. xe - 1` of row `y`. */
  function RowAcc(g: seq<real>, w: int, h: int, y: int, xe: int): (a: Acc)
    requires |g| == w * h && 1 <= y < h - 1 && 1 <= xe <= w - 1
    ensures a.count == xe - 1
  {
    if xe == 1 then Acc(0.0, 0.0, 0)
    else Add(RowAcc(g, w, h, y, xe - 1), Lap(g, w, h, xe - 1, y))
  }

  /** Sums over the interior rows `1 .. ye - 1`. */
  function GridAcc(g: seq<real>, w: int, h: int, ye: int): (a: Acc)
    requires |g| == w * h && w >= 3 && 1 <= ye <= h - 1
    ensures a.count >= 0
  {
    if ye == 1 then Acc(0.0, 0.0, 0)
    else Join(GridAcc(g, w, h, ye - 1), RowAcc(g, w, h, ye - 1, w - 1))
  }

  /** The variance of the Laplacian over the interior, `0` for a grid
      without interior, and never negative. */
  function LaplacianVariance(g: seq<real>, w: int, h: int): (v: real)
    requires 0 <= w && 0 <= h && |g| == w * h
    ensures v >= 0.0
    ensures w < 3 || h < 3 ==> v == 0.0
  {
    if w < 3 || h < 3 then 0.0 else Variance(GridAcc(g, w, h, h - 1))
  }

  /** The variance of the accumulated values, `E[x^2] - E[x]^2` floored
      at zero, and `0` when nothing was accumulated. */
  function Variance(a: Acc): (v: real)
    ensures v >= 0.0
  {
    if a.count == 0 then 0.0
    else
      var mean := a.sum / a.count as real;
      Max(0.0, a.sumSq / a.count as real - mean * mean)
  }

  /** `computeLaplacianVariance(grayscale, width, height)`. */
  method ComputeLaplacianVariance(grayscale: array<real>, width: int, height: int) returns (v: real)
    requires 0 <= width && 0 <= height && grayscale.Length == width * height
    ensures v == LaplacianVariance(grayscale[..], width, height)
  {
    if width < 3 || height < 3 {
      return 0.0;
    }
    var sum, sumSquares, count := AccumulateGrid(grayscale, width, height);
    if count == 0 {
      return 0.0;
    }
    var mean := sum / count as real;
    v := Max(0.0, sumSquares / count as real - mean * mean);
  }

  /** The outer loop of `computeLaplacianVariance`: the running sums over
      every interior row. */
  method AccumulateGrid(grayscale: array<real>, width: int, height: int)
    returns (sum: real, sumSquares: real, count: int)
    requires grayscale.Length == width * height && width >= 3 && height >= 3
    ensures Acc(sum, sumSquares, count) == GridAcc(grayscale[..], width, height, height - 1)
  {
    sum, sumSquares, count := 0.0, 0.0, 0;
    for y := 1 to height - 1
      invariant Acc(sum, sumSquares, count) == GridAcc(grayscale[..], width, height, y)
    {
      sum, sumSquares, count := AccumulateRow(grayscale, width, height, y, sum, sumSquares, count);
    }
  }

  /** The inner loop of `computeLaplacianVariance`: adds the Laplacian of
      every interior pixel of row `y` to the running sums. */
  method AccumulateRow(grayscale: array<real>, width: int, height: int, y: int,
                       sum0: real, sumSquares0: real, count0: int)
    returns (sum: real, sumSquares: real, count: int)
    requires grayscale.Length == width * height && width >= 3 && 1 <= y < height - 1
    ensures Acc(sum, sumSquares, count)
            == Join(Acc(sum0, sumSquares0, count0), RowAcc(grayscale[..], width, height, y, width - 1))
  {
    ghost var g := grayscale[..];
    sum, sumSquares, count := sum0, sumSquares0, count0;
    var row := y * width;
    var rowUp := (y - 1) * width;
    var rowDown := (y + 1) * width;
    for x := 1 to width - 1
      invariant Acc(sum, sumSquares, count) == Join(Acc(sum0, sumSquares0, count0), RowAcc(g, width, height, y, x))
    {
      LapIndices(g, width, height, x, y);
      var lap := grayscale[rowUp + x] + grayscale[row + x - 1] + grayscale[row + x + 1]
                 + grayscale[rowDown + x] - 4.0 * grayscale[row + x];
      sum := sum + lap;
      sumSquares := sumSquares + lap * lap;
      assert lap * lap == Sq(lap);
      count := count + 1;
    }
  }

  /** A flat image has no edges: its Laplacian variance is 0. */
  lemma FlatLaplacian(g: seq<real>, w: int, h: int, c: real)
    requires 0 <= w && 0 <= h && |g| == w * h
    requires forall k :: 0 <= k < |g| ==> g[k] == c
    ensures LaplacianVariance(g, w, h) == 0.0
  {
    if w >= 3 && h >= 3 {
      FlatGrid(g, w, h, c, h - 1);
    }
  }

  lemma {:induction false} FlatGrid(g: seq<real>, w: int, h: int, c: real, ye: int)
    requires |g| == w * h && w >= 3 && 1 <= ye <= h - 1
    requires forall k :: 0 <= k < |g| ==> g[k] == c
    ensures GridAcc(g, w, h, ye).sum == 0.0 && GridAcc(g, w, h, ye).sumSq == 0.0
  {
    if ye > 1 {
      FlatGrid(g, w, h, c, ye - 1);
      FlatRow(g, w, h, c, ye - 1, w - 1);
    }
  }

  lemma {:induction false} FlatRow(g: seq<real>, w: int, h: int, c: real, y: int, xe: int)
    requires |g| == w * h && 1 <= y < h - 1 && 1 <= xe <= w - 1
    requires forall k :: 0 <= k < |g| ==> g[k] == c
    ensures RowAcc(g, w, h, y, xe).sum == 0.0 && RowAcc(g, w, h, y, xe).sumSq == 0.0
  {
    if xe > 1 {
      FlatRow(g, w, h, c, y, xe - 1);
      var x := xe - 1;
      IndexInGrid(w, h, x, y - 1);
      IndexInGrid(w, h, x - 1, y);
      IndexInGrid(w, h, x + 1, y);
      IndexInGrid(w, h, x, y + 1);
      IndexInGrid(w, h, x, y);
      assert Lap(g, w, h, x, y) == 0.0;
    }
  }

  /** The tone of a checkerboard cell on anti-diagonal `n`: `a`, then
      alternating with `b`. */
  function Tone(n: nat, a: real, b: real): (t: real)
    ensures t == a || t == b
  {
    if n == 0 then a else a + b - Tone(n - 1, a, b)
  }

  /** Tone `a` where `x + y` is even and `b` where it is odd. */
  predicate Checkerboard(g: seq<real>, w: int, h: int, a: real, b: real)
  {
    |g| == w * h &&
    forall x, y :: 0 <= x < w && 0 <= y < h ==> At(g, w, h, x, y) == Tone(x + y, a, b)
  }

  /** On a checkerboard every neighbour has the other tone, so the
      Laplacian is `4 (a + b) - 8 c` at a cell of tone `c`. */
  lemma CheckerboardLap(g: seq<real>, w: int, h: int, a: real, b: real, x: int, y: int)
    requires Checkerboard(g, w, h, a, b) && 1 <= x < w - 1 && 1 <= y < h - 1
    ensures Lap(g, w, h, x, y) == 4.0 * (a + b) - 8.0 * Tone(x + y, a, b)
  {
    assert At(g, w, h, x, y - 1) == Tone(x + y - 1, a, b);
    assert At(g, w, h, x - 1, y) == Tone(x + y - 1, a, b);
    assert At(g, w, h, x + 1, y) == Tone(x + y + 1, a, b);
    assert At(g, w, h, x, y + 1) == Tone(x + y + 1, a, b);
    assert Tone(x + y + 1, a, b) == a + b - Tone(x + y, a, b);
    assert Tone(x + y, a, b) == a + b - Tone(x + y - 1, a, b);
  }

  /** `n` copies of `k` added up. */
  function Times(n: nat, k: real): real
  {
    if n == 0 then 0.0 else Times(n - 1, k) + k
  }

  lemma {:induction false} TimesAdd(m: nat, n: nat, t: nat, k: real)
    requires t == m + n
    ensures Times(m, k) + Times(n, k) == Times(t, k)
  {
    if n > 0 {
      TimesAdd(m, n - 1, t - 1, k);
    }
  }

  lemma TwoMoreSquares(s0: real, l1: real, l2: real, d: real, n: nat, m: nat)
    requires s0 == Times(n, Sq(d)) && m == n + 2 && (l1 == d || l1 == -d) && (l2 == d || l2 == -d)
    ensures s0 + Sq(l1) + Sq(l2) == Times(m, Sq(d))
  {
    assert Sq(l1) == Sq(d) && Sq(l2) == Sq(d);
    assert Times(m, Sq(d)) == Times(n, Sq(d)) + Sq(d) + Sq(d);
  }

  lemma DividedTimes(n: nat, k: real)
    requires n > 0
    ensures Times(n, k) / n as real == k
  {
    TimesIsProduct(n, k);
  }

  lemma {:induction false} TimesIsProduct(n: nat, k: real)
    ensures Times(n, k) == n as real * k
  {
    if n > 0 {
      TimesIsProduct(n - 1, k);
    }
  }

  /** An even stretch of a checkerboard row cancels out, and every square
      is `16 (a - b)^2`. */
  lemma {:induction false} CheckerboardRow(g: seq<real>, w: int, h: int, a: real, b: real, y: int, xe: int)
    requires Checkerboard(g, w, h, a, b) && 1 <= y < h - 1 && 1 <= xe <= w - 1 && (xe - 1) % 2 == 0
    ensures RowAcc(g, w, h, y, xe).sum == 0.0
    ensures RowAcc(g, w, h, y, xe).sumSq == Times(xe - 1, Sq(4.0 * (a - b)))
  {
    if xe > 1 {
      assert xe >= 3;
      CheckerboardRow(g, w, h, a, b, y, xe - 2);
      var l1, l2 := CheckerboardPair(g, w, h, a, b, y, xe);
      var r0 := RowAcc(g, w, h, y, xe - 2);
      TwoMoreSquares(r0.sumSq, l1, l2, 4.0 * (a - b), xe - 3, xe - 1);
    }
  }

  /** The last two cells of a row stretch: the running sums grow by two
      opposite Laplacians of size `4 (a - b)`. */
  lemma CheckerboardPair(g: seq<real>, w: int, h: int, a: real, b: real, y: int, xe: int)
    returns (l1: real, l2: real)
    requires Checkerboard(g, w, h, a, b) && 1 <= y < h - 1 && 3 <= xe <= w - 1
    ensures RowAcc(g, w, h, y, xe) == Add(Add(RowAcc(g, w, h, y, xe - 2), l1), l2)
    ensures l1 + l2 == 0.0
    ensures l1 == 4.0 * (a - b) || l1 == -(4.0 * (a - b))
    ensures l2 == 4.0 * (a - b) || l2 == -(4.0 * (a - b))
  {
    CheckerboardLap(g, w, h, a, b, xe - 2, y);
    CheckerboardLap(g, w, h, a, b, xe - 1, y);
    l1, l2 := Lap(g, w, h, xe - 2, y), Lap(g, w, h, xe - 1, y);
    assert Tone(xe - 1 + y, a, b) == a + b - Tone(xe - 2 + y, a, b);
    NeighbourLaps(a, b, Tone(xe - 2 + y, a, b), l1, l2);
  }

  /** Two horizontally adjacent interior cells of a checkerboard have
      opposite Laplacians, each `4 (a - b)` up to sign. */
  lemma NeighbourLaps(a: real, b: real, t: real, l1: real, l2: real)
    requires t == a || t == b
    requires l1 == 4.0 * (a + b) - 8.0 * t && l2 == 4.0 * (a + b) - 8.0 * (a + b - t)
    ensures l1 + l2 == 0.0
    ensures l1 == 4.0 * (a - b) || l1 == -(4.0 * (a - b))
    ensures l2 == 4.0 * (a - b) || l2 == -(4.0 * (a - b))
  {
  }

  lemma {:induction false} CheckerboardGrid(g: seq<real>, w: int, h: int, a: real, b: real, ye: int)
    requires Checkerboard(g, w, h, a, b) && w >= 3 && w % 2 == 0 && 1 <= ye <= h - 1
    ensures GridAcc(g, w, h, ye).sum == 0.0
    ensures GridAcc(g, w, h, ye).count >= 0
    ensures GridAcc(g, w, h, ye).sumSq == Times(GridAcc(g, w, h, ye).count, Sq(4.0 * (a - b)))
  {
    if ye > 1 {
      assert GridAcc(g, w, h, ye) == Join(GridAcc(g, w, h, ye - 1), RowAcc(g, w, h, ye - 1, w - 1));
      CheckerboardGrid(g, w, h, a, b, ye - 1);
      CheckerboardRow(g, w, h, a, b, ye - 1, w - 1);
      TimesAdd(GridAcc(g, w, h, ye - 1).count, RowAcc(g, w, h, ye - 1, w - 1).count, GridAcc(g, w, h, ye).count,
               Sq(4.0 * (a - b)));
    }
  }

  /** A checkerboard of even width with an interior has Laplacian
      variance `16 (a - b)^2`: positive as soon as the tones differ. */
  lemma CheckerboardLaplacian(g: seq<real>, w: int, h: int, a: real, b: real)
    requires Checkerboard(g, w, h, a, b) && w >= 4 && w % 2 == 0 && h >= 3
    ensures LaplacianVariance(g, w, h) == 16.0 * Sq(a - b)
  {
    var k := Sq(4.0 * (a - b));
    CheckerboardGrid(g, w, h, a, b, h - 1);
    var acc := GridAcc(g, w, h, h - 1);
    assert acc.count > 0 by {
      GridCount(g, w, h, h - 1);
      PositiveProduct(h - 2, w - 2);
    }
    assert LaplacianVariance(g, w, h) == Variance(acc);
    VarianceOfEqualSquares(acc, k);
    assert k == 16.0 * Sq(a - b);
  }

  /** Values that cancel out and all square to `k` have variance `k`. */
  lemma VarianceOfEqualSquares(acc: Acc, k: real)
    requires acc.count > 0 && acc.sum == 0.0 && acc.sumSq == Times(acc.count, k) && k >= 0.0
    ensures Variance(acc) == k
  {
    DividedTimes(acc.count, k);
  }

  /** The interior has `(h - 2) (w - 2)` points. */
  lemma {:induction false} GridCount(g: seq<real>, w: int, h: int, ye: int)
    requires |g| == w * h && w >= 3 && 1 <= ye <= h - 1
    ensures GridAcc(g, w, h, ye).count == (ye - 1) * (w - 2)
  {
    if ye > 1 {
      GridCount(g, w, h, ye - 1);
      assert (ye - 1) * (w - 2) == (ye - 2) * (w - 2) + (w - 2);
    }
  }

  lemma PositiveProduct(m: int, n: int)
    requires m > 0 && n > 0
    ensures m * n > 0
  {
  }

  /** `Tone` is the test image's rule: `a` where `n` is even, `b` where
      it is odd. */
  lemma {:induction false} ToneParity(n: nat, a: real, b: real)
    ensures Tone(n, a, b) == if n % 2 == 0 then a else b
  {
    if n > 0 {
      ToneParity(n - 1, a, b);
    }
  }

  // ------------------------------------------------- uniform and patterned

  /** A gray pixel: all three channels equal. */
  function Gray(v: Channel): Pixel
  {
    Pixel(v, v, v)
  }

  /** Gray tone `a` where `x + y` is even and `b` where it is odd. */
  predicate PixelCheckerboard(ps: seq<Pixel>, w: int, h: int, a: Channel, b: Channel)
  {
    |ps| == w * h &&
    forall x, y :: 0 <= x < w && 0 <= y < h ==> At(ps, w, h, x, y) == Gray(if (x + y) % 2 == 0 then a else b)
  }

  /** The grayscale plane of a checkerboard of gray pixels is the
      checkerboard of their tones. */
  lemma GrayscaleCheckerboard(ps: seq<Pixel>, w: int, h: int, a: Channel, b: Channel)
    requires PixelCheckerboard(ps, w, h, a, b)
    ensures Checkerboard(Grayscale(ps), w, h, a as real, b as real)
  {
    var g := Grayscale(ps);
    forall x, y | 0 <= x < w && 0 <= y < h
      ensures At(g, w, h, x, y) == Tone(x + y, a as real, b as real)
    {
      IndexInGrid(w, h, x, y);
      ToneParity(x + y, a as real, b as real);
      LumaRange(At(ps, w, h, x, y));
    }
  }

  /** A checkerboard with two different tones is sharper than any flat
      image of the same size. */
  lemma CheckerboardSharperThanFlat(detailed: seq<Pixel>, flat: seq<Pixel>, w: int, h: int,
                                    a: Channel, b: Channel, c: Channel)
    requires PixelCheckerboard(detailed, w, h, a, b) && a != b && w >= 4 && w % 2 == 0 && h >= 3
    requires |flat| == w * h && forall k :: 0 <= k < |flat| ==> flat[k] == Gray(c)
    ensures LaplacianVariance(Grayscale(detailed), w, h) > LaplacianVariance(Grayscale(flat), w, h)
  {
    var gd, gf := Grayscale(detailed), Grayscale(flat);
    GrayscaleCheckerboard(detailed, w, h, a, b);
    CheckerboardLaplacian(gd, w, h, a as real, b as real);
    SquarePositive(a as real - b as real);
    FlatGrayscale(flat, c);
    FlatLaplacian(gf, w, h, c as real);
  }

  lemma SquarePositive(d: real)
    requires d != 0.0
    ensures Sq(d) > 0.0
  {
    calc {
      Sq(d);
    ==
      d * d;
    >
      0.0;
    }
  }

  /** An image of one gray tone has that tone everywhere in its grayscale plane. */
  lemma FlatGrayscale(ps: seq<Pixel>, c: Channel)
    requires forall k :: 0 <= k < |ps| ==> ps[k] == Gray(c)
    ensures forall k :: 0 <= k < |ps| ==> Grayscale(ps)[k] == c as real
  {
    LumaRange(Gray(c));
  }

  /** Counting one more pixel adds one exactly when it passes the test. */
  lemma CountStep(ps: seq<Pixel>, i: int, t: Test)
    requires 0 <= i < |ps|
    ensures Count(ps[..i + 1], t) == Count(ps[..i], t) + (if Hits(t, ps[i]) then 1 else 0)
  {
    assert ps[..i + 1][..i] == ps[..i];
  }

  /** A histogram with all `n` pixels in bin `v`. */
  predicate Spike(hist: seq<int>, v: int, n: int)
  {
    forall b :: 0 <= b < |hist| ==> hist[b] == if b == v then n else 0
  }

  lemma {:induction false} PrefixOfSpike(hist: seq<int>, v: int, n: int, j: int)
    requires Spike(hist, v, n) && 0 <= v && 0 <= j <= |hist|
    ensures Prefix(hist, j) == if j <= v then 0 else n
  {
    if j > 0 {
      PrefixOfSpike(hist, v, n, j - 1);
      assert hist[j - 1] == if j - 1 == v then n else 0;
    }
  }

  /** Every quantile strictly above 0 of a single-bin histogram is that bin. */
  lemma QuantileOfSpike(hist: seq<int>, v: int, n: int, target: real)
    requires Spike(hist, v, n) && 0 <= v < |hist| && 0.0 < target <= n as real
    ensures Quantile(hist, target) == v
  {
    forall j | 0 <= j <= v
      ensures Reaches(hist, j, target) <==> j == v
    {
      PrefixOfSpike(hist, v, n, j + 1);
    }
    QuantileIsFirstReaching(hist, target, v);
  }

  /** The histogram of an image of one gray tone is a spike at that tone. */
  lemma UniformHistogram(ps: seq<Pixel>, v: Channel)
    requires forall k :: 0 <= k < |ps| ==> ps[k] == Gray(v)
    ensures Spike(Histogram(ps), v, |ps|)
  {
    LumaRange(Gray(v));
    assert Bin(Luma(Gray(v))) == v;
    forall b | 0 <= b < 256
      ensures Histogram(ps)[b] == if b == v then |ps| else 0
    {
      if b == v {
        CountAll(ps, InBin(b));
      } else {
        CountNone(ps, InBin(b));
      }
    }
  }
}
