/** The crop-square store: an ordered list of squares and the counter
    that issues their ids. Every list operation is first written as a
    function on lists (the value handed to `setSquares`); the class
    `CropStore` applies them to its fields. */
module CropSquares {
  import opened Types

  /** `order` is exactly 1..N by position. */
  predicate Ordered(s: seq<Square>)
  {
    forall i :: 0 <= i < |s| ==> s[i].order == i + 1
  }

  predicate DistinctIds(s: seq<Square>)
  {
    forall i, j :: 0 <= i < j < |s| ==> s[i].id != s[j].id
  }

  /** Every id in the list was issued before the counter reached `n`. */
  predicate IdsBelow(s: seq<Square>, n: nat)
  {
    forall i :: 0 <= i < |s| ==> s[i].id < n
  }

  /** `map((sq, i) => ({ ...sq, order: i + 1 }))`: the same squares, with
      `order` reset to the position. */
  function Renumbered(s: seq<Square>): (r: seq<Square>)
    ensures |r| == |s| && Ordered(r)
    ensures forall i :: 0 <= i < |s| ==> r[i] == s[i].(order := i + 1)
  {
    seq(|s|, i requires 0 <= i < |s| => s[i].(order := i + 1))
  }

  // ---------------------------------------------------------------- add

  /** The list after `addSquare(x, y, size)` with `id` the counter's value. */
  function Appended(s: seq<Square>, id: Id, x: real, y: real, size: real): (r: seq<Square>)
    ensures |r| == |s| + 1 && r[..|s|] == s
    ensures r[|s|] == Square(id, x, y, size, |s| + 1)
  {
    s + [Square(id, x, y, size, |s| + 1)]
  }

  /** Adding keeps the store invariant exactly when the new id is the
      counter's current value: it is above every id issued so far. */
  lemma AppendedKeepsInvariant(s: seq<Square>, next: nat, x: real, y: real, size: real)
    requires Ordered(s) && DistinctIds(s) && IdsBelow(s, next)
    ensures var r := Appended(s, next, x, y, size);
      Ordered(r) && DistinctIds(r) && IdsBelow(r, next + 1)
    ensures forall i :: 0 <= i < |s| ==> s[i].id != next
  {
  }

  // ------------------------------------------------------------- update

  /** `{ ...sq, ...patch }`. */
  function Patched(sq: Square, p: Patch): (r: Square)
    ensures r.id == sq.id && r.order == sq.order
    ensures r.x == (if p.x.Some? then p.x.value else sq.x)
    ensures r.y == (if p.y.Some? then p.y.value else sq.y)
    ensures r.size == (if p.size.Some? then p.size.value else sq.size)
  {
    Square(sq.id,
           if p.x.Some? then p.x.value else sq.x,
           if p.y.Some? then p.y.value else sq.y,
           if p.size.Some? then p.size.value else sq.size,
           sq.order)
  }

  /** The list after `updateSquare(id, patch)`: only the square with that
      id changes, and only in the patched fields; an unknown id leaves
      the list as it was. */
  function Updated(s: seq<Square>, id: Id, p: Patch): (r: seq<Square>)
    ensures |r| == |s|
    ensures forall i :: 0 <= i < |s| ==> r[i].id == s[i].id && r[i].order == s[i].order
    ensures forall i :: 0 <= i < |s| && s[i].id != id ==> r[i] == s[i]
    ensures forall i :: 0 <= i < |s| && s[i].id == id ==> r[i] == Patched(s[i], p)
    ensures (forall i :: 0 <= i < |s| ==> s[i].id != id) ==> r == s
  {
    seq(|s|, i requires 0 <= i < |s| => if s[i].id == id then Patched(s[i], p) else s[i])
  }

  // ------------------------------------------------------------- remove

  /** `filter((sq) => sq.id !== id)`: the squares with another id, in
      their original order. */
  function WithoutId(s: seq<Square>, id: Id): (r: seq<Square>)
    ensures |r| <= |s|
    ensures forall sq :: sq in r <==> sq in s && sq.id != id
    ensures (forall i :: 0 <= i < |s| ==> s[i].id != id) ==> r == s
    ensures DistinctIds(s) ==> DistinctIds(r)
  {
    if s == [] then []
    else
      assert s == [s[0]] + s[1..];
      DistinctTail(s);
      var rest := WithoutId(s[1..], id);
      if s[0].id == id then rest
      else
        assert forall sq :: sq in rest ==> sq in s[1..];
        ConsKeepsDistinct(s, rest);
        [s[0]] + rest
  }

  lemma DistinctTail(s: seq<Square>)
    requires |s| > 0
    ensures DistinctIds(s) ==> DistinctIds(s[1..])
  {
    if DistinctIds(s) {
      forall i, j | 0 <= i < j < |s| - 1
        ensures s[1..][i].id != s[1..][j].id
      {
        assert s[1..][i] == s[i + 1] && s[1..][j] == s[j + 1];
      }
    }
  }

  /** Putting back the head of a list with distinct ids in front of some
      of its other squares keeps the ids distinct. */
  lemma ConsKeepsDistinct(s: seq<Square>, rest: seq<Square>)
    requires |s| > 0 && forall sq :: sq in rest ==> sq in s[1..]
    ensures DistinctIds(s) && DistinctIds(rest) ==> DistinctIds([s[0]] + rest)
  {
    if DistinctIds(s) && DistinctIds(rest) {
      var r := [s[0]] + rest;
      forall i, j | 0 <= i < j < |r|
        ensures r[i].id != r[j].id
      {
        assert r[j] == rest[j - 1];
        if i == 0 {
          assert rest[j - 1] in s[1..];
          var k :| 0 <= k < |s| - 1 && s[1..][k] == rest[j - 1];
          assert s[k + 1] == r[j];
        } else {
          assert r[i] == rest[i - 1];
        }
      }
    }
  }

  /** The list after `removeSquare(id)`. */
  function Removed(s: seq<Square>, id: Id): (r: seq<Square>)
    ensures Ordered(r)
    ensures forall i :: 0 <= i < |r| ==> r[i].id != id
    ensures |r| == |WithoutId(s, id)|
    ensures forall i :: 0 <= i < |r| ==> r[i] == WithoutId(s, id)[i].(order := i + 1)
  {
    Renumbered(WithoutId(s, id))
  }

  /** The positions from `i` on whose square has another id, ascending:
      the squares a filter on `id` must keep, in the order it must keep
      them. */
  function KeptFrom(s: seq<Square>, id: Id, i: nat): (ks: seq<nat>)
    requires i <= |s|
    ensures forall k :: 0 <= k < |ks| ==> i <= ks[k] < |s| && s[ks[k]].id != id
    ensures forall k, l :: 0 <= k < l < |ks| ==> ks[k] < ks[l]
    ensures forall j :: i <= j < |s| && s[j].id != id ==> j in ks
    decreases |s| - i
  {
    if i == |s| then []
    else if s[i].id != id then [i] + KeptFrom(s, id, i + 1)
    else KeptFrom(s, id, i + 1)
  }

  lemma {:induction false} WithoutIdFrom(s: seq<Square>, id: Id, i: nat)
    requires i <= |s|
    ensures |WithoutId(s[i..], id)| == |KeptFrom(s, id, i)|
    ensures forall k :: 0 <= k < |KeptFrom(s, id, i)| ==> WithoutId(s[i..], id)[k] == s[KeptFrom(s, id, i)[k]]
    decreases |s| - i
  {
    if i < |s| {
      WithoutIdFrom(s, id, i + 1);
      var t := s[i..];
      assert t[1..] == s[i + 1..] && t[0] == s[i];
      var rest, ks := WithoutId(s[i + 1..], id), KeptFrom(s, id, i + 1);
      if s[i].id != id {
        assert WithoutId(t, id) == [s[i]] + rest;
        assert KeptFrom(s, id, i) == [i] + ks;
        PrependCorresponds(s, rest, ks, i);
      } else {
        assert WithoutId(t, id) == rest;
        assert KeptFrom(s, id, i) == ks;
      }
    }
  }

  /** Putting square `i` in front of the survivors and position `i` in
      front of their positions keeps the two in step. */
  lemma PrependCorresponds(s: seq<Square>, rest: seq<Square>, ks: seq<nat>, i: nat)
    requires i < |s| && |rest| == |ks|
    requires forall k :: 0 <= k < |ks| ==> ks[k] < |s| && rest[k] == s[ks[k]]
    ensures forall k :: 0 <= k < |ks| + 1 ==> ([i] + ks)[k] < |s| && ([s[i]] + rest)[k] == s[([i] + ks)[k]]
  {
    forall k | 0 < k < |ks| + 1
      ensures ([i] + ks)[k] < |s| && ([s[i]] + rest)[k] == s[([i] + ks)[k]]
    {
      assert ([i] + ks)[k] == ks[k - 1];
      assert ([s[i]] + rest)[k] == rest[k - 1];
    }
  }

  /** The filter keeps the squares with another id in their original
      order: the k-th survivor is the square at the k-th kept position. */
  lemma WithoutIdKeepsOrder(s: seq<Square>, id: Id)
    ensures |WithoutId(s, id)| == |KeptFrom(s, id, 0)|
    ensures forall k :: 0 <= k < |WithoutId(s, id)| ==> WithoutId(s, id)[k] == s[KeptFrom(s, id, 0)[k]]
  {
    WithoutIdFrom(s, id, 0);
    assert s[0..] == s;
  }

  /** After a removal the k-th square is the k-th square with another id,
      in the original order, numbered k + 1. */
  lemma RemovedKeepsOrder(s: seq<Square>, id: Id)
    ensures |Removed(s, id)| == |KeptFrom(s, id, 0)|
    ensures forall k :: 0 <= k < |Removed(s, id)| ==> Removed(s, id)[k] == s[KeptFrom(s, id, 0)[k]].(order := k + 1)
  {
    WithoutIdKeepsOrder(s, id);
  }

  /** Count of the squares carrying `id`. */
  function Occurrences(s: seq<Square>, id: Id): nat
  {
    if s == [] then 0 else (if s[0].id == id then 1 else 0) + Occurrences(s[1..], id)
  }

  /** Removing takes out exactly the squares with that id. */
  lemma {:induction false} RemovedLength(s: seq<Square>, id: Id)
    ensures |Removed(s, id)| == |s| - Occurrences(s, id)
  {
    if s != [] {
      RemovedLength(s[1..], id);
    }
  }

  /** With distinct ids at most one square carries a given id. */
  lemma {:induction false} OccurrencesOfDistinct(s: seq<Square>, id: Id)
    requires DistinctIds(s)
    ensures Occurrences(s, id) <= 1
  {
    if s != [] {
      assert DistinctIds(s[1..]);
      OccurrencesOfDistinct(s[1..], id);
      if s[0].id == id {
        forall i | 0 <= i < |s[1..]| ensures s[1..][i].id != id {
          assert s[1..][i] == s[i + 1];
        }
        NoOccurrences(s[1..], id);
      }
    }
  }

  /** No occurrence means no square carries the id, and conversely. */
  lemma {:induction false} NoOccurrences(s: seq<Square>, id: Id)
    ensures Occurrences(s, id) == 0 <==> forall i :: 0 <= i < |s| ==> s[i].id != id
  {
    if s != [] {
      NoOccurrences(s[1..], id);
      if Occurrences(s, id) == 0 {
        forall i | 0 <= i < |s| ensures s[i].id != id {
          if i > 0 { assert s[i] == s[1..][i - 1]; }
        }
      }
    }
  }

  // --------------------------------------------------------------- move

  /** Where the element at position `k` after relocating `from` to `to`
      stood before. */
  function SourceIndex(k: nat, from: nat, to: nat): nat
  {
    if k == to then from
    else if from < to && from <= k < to then k + 1
    else if to < from && to < k <= from then k - 1
    else k
  }

  lemma SourceIndexInjective(n: nat, from: nat, to: nat)
    requires from < n && to < n
    ensures forall k :: 0 <= k < n ==> SourceIndex(k, from, to) < n
    ensures forall k1, k2 :: 0 <= k1 < k2 < n ==> SourceIndex(k1, from, to) != SourceIndex(k2, from, to)
  {
  }

  /** `splice(from, 1)` then `splice(to, 0, moved)` on a copy: the element
      at `from` ends at `to` and the ones between shift by one toward the
      gap. */
  function Relocated<T>(s: seq<T>, from: nat, to: nat): (r: seq<T>)
    requires from < |s| && to < |s|
    ensures |r| == |s|
    ensures r[to] == s[from]
    ensures forall k :: 0 <= k < |s| ==> r[k] == s[SourceIndex(k, from, to)]
  {
    var rest := s[..from] + s[from + 1..];
    rest[..to] + [s[from]] + rest[to..]
  }

  /** Relocating an element permutes the list. */
  lemma RelocatedPermutes<T>(s: seq<T>, from: nat, to: nat)
    requires from < |s| && to < |s|
    ensures multiset(Relocated(s, from, to)) == multiset(s)
  {
    var rest := s[..from] + s[from + 1..];
    calc {
      multiset(Relocated(s, from, to));
      multiset(rest[..to] + [s[from]] + rest[to..]);
      multiset(rest[..to]) + multiset{s[from]} + multiset(rest[to..]);
      { assert rest == rest[..to] + rest[to..]; }
      multiset(rest) + multiset{s[from]};
      multiset(s[..from]) + multiset(s[from + 1..]) + multiset{s[from]};
      { assert s == s[..from] + [s[from]] + s[from + 1..]; }
      multiset(s);
    }
  }

  /** The list after `moveSquare(from, to)`. */
  function Moved(s: seq<Square>, from: nat, to: nat): (r: seq<Square>)
    requires from < |s| && to < |s|
    ensures |r| == |s| && Ordered(r)
    ensures r[to] == s[from].(order := to + 1)
    ensures forall k :: 0 <= k < |s| ==> r[k] == s[SourceIndex(k, from, to)].(order := k + 1)
    ensures DistinctIds(s) ==> DistinctIds(r)
  {
    SourceIndexInjective(|s|, from, to);
    Renumbered(Relocated(s, from, to))
  }

  // -------------------------------------------------------------- clamp

  /** One square of `clampSquaresToBounds`: the size is cut to the bounds
      (never below 1), then the corner is pulled inside. */
  function ClampSquare(sq: Square, maxW: real, maxH: real): (r: Square)
    ensures r.id == sq.id && r.order == sq.order
    ensures r.size >= 1.0 && r.x >= 0.0 && r.y >= 0.0
    ensures r.size <= sq.size || r.size == 1.0
    ensures maxW >= 1.0 && maxH >= 1.0 ==>
      r.size <= maxW && r.size <= maxH && r.x + r.size <= maxW && r.y + r.size <= maxH
    ensures Inside(sq, maxW, maxH) ==> r == sq
  {
    var size := Max(1.0, Min3(sq.size, maxW, maxH));
    var x := Max(0.0, Min(maxW - size, sq.x));
    var y := Max(0.0, Min(maxH - size, sq.y));
    sq.(x := x, y := y, size := size)
  }

  /** The square lies in `[0, maxW] × [0, maxH]` and is at least 1 wide. */
  predicate Inside(sq: Square, maxW: real, maxH: real)
  {
    sq.size >= 1.0 && sq.x >= 0.0 && sq.y >= 0.0 && sq.x + sq.size <= maxW && sq.y + sq.size <= maxH
  }

  lemma ClampSquareIdempotent(sq: Square, maxW: real, maxH: real)
    ensures ClampSquare(ClampSquare(sq, maxW, maxH), maxW, maxH) == ClampSquare(sq, maxW, maxH)
  {
  }

  /** Clamping every square of a list. */
  function ClampAll(s: seq<Square>, maxW: real, maxH: real): (r: seq<Square>)
    ensures |r| == |s|
    ensures forall i :: 0 <= i < |s| ==> r[i] == ClampSquare(s[i], maxW, maxH)
  {
    seq(|s|, i requires 0 <= i < |s| => ClampSquare(s[i], maxW, maxH))
  }

  /** Clamping a list is idempotent, keeps every id and order, and with
      bounds of at least 1 puts every square inside them. */
  lemma {:induction false} ClampAllProperties(s: seq<Square>, maxW: real, maxH: real)
    ensures ClampAll(ClampAll(s, maxW, maxH), maxW, maxH) == ClampAll(s, maxW, maxH)
    ensures Ordered(s) ==> Ordered(ClampAll(s, maxW, maxH))
    ensures DistinctIds(s) ==> DistinctIds(ClampAll(s, maxW, maxH))
    ensures maxW >= 1.0 && maxH >= 1.0 ==>
      forall i :: 0 <= i < |s| ==> Inside(ClampAll(s, maxW, maxH)[i], maxW, maxH)
  {
    forall i | 0 <= i < |s| {
      ClampSquareIdempotent(s[i], maxW, maxH);
    }
  }

  /** The `setSquares` callback of `clampSquaresToBounds`: the squares are
      clamped one by one while a flag records whether any of them moved;
      the old list is kept when none did. */
  method ClampedList(prev: seq<Square>, maxW: real, maxH: real) returns (r: seq<Square>)
    ensures r == ClampAll(prev, maxW, maxH)
    ensures r == prev <==> forall i :: 0 <= i < |prev| ==> ClampSquare(prev[i], maxW, maxH) == prev[i]
  {
    var changed := false;
    var next: seq<Square> := [];
    for i := 0 to |prev|
      invariant |next| == i
      invariant forall k :: 0 <= k < i ==> next[k] == ClampSquare(prev[k], maxW, maxH)
      invariant changed <==> exists k :: 0 <= k < i && ClampSquare(prev[k], maxW, maxH) != prev[k]
    {
      var sq := prev[i];
      var size := Max(1.0, Min3(sq.size, maxW, maxH));
      var x := Max(0.0, Min(maxW - size, sq.x));
      var y := Max(0.0, Min(maxH - size, sq.y));
      assert sq.(x := x, y := y, size := size) == ClampSquare(sq, maxW, maxH);
      if x != sq.x || y != sq.y || size != sq.size {
        changed := true;
        next := next + [sq.(x := x, y := y, size := size)];
      } else {
        next := next + [sq];
      }
    }
    r := if changed then next else prev;
  }

  // ------------------------------------------------------------ rescale

  /** One square of `rescaleSquaresToBounds`: the size scales by the
      smaller axis factor, each coordinate by its own axis factor, and the
      result is clamped into the new bounds exactly as `ClampSquare` does. */
  function RescaleSquare(sq: Square, fromW: real, fromH: real, toW: real, toH: real): (r: Square)
    requires fromW > 0.0 && fromH > 0.0
    ensures r.id == sq.id && r.order == sq.order
    ensures r.size >= 1.0 && r.x >= 0.0 && r.y >= 0.0
    ensures toW >= 1.0 && toH >= 1.0 ==> Inside(r, toW, toH)
  {
    ClampSquare(Scaled(sq, fromW, fromH, toW, toH), toW, toH)
  }

  /** The square before clamping: `x·toW/fromW`, `y·toH/fromH`, and
      `size·min(toW/fromW, toH/fromH)`. */
  function Scaled(sq: Square, fromW: real, fromH: real, toW: real, toH: real): (r: Square)
    requires fromW > 0.0 && fromH > 0.0
    ensures r.id == sq.id && r.order == sq.order
    ensures r.x == sq.x * (toW / fromW) && r.y == sq.y * (toH / fromH)
    ensures toW / fromW <= toH / fromH ==> r.size == sq.size * (toW / fromW)
    ensures toH / fromH <= toW / fromW ==> r.size == sq.size * (toH / fromH)
  {
    ScaledBy(sq, toW / fromW, toH / fromH)
  }

  function ScaledBy(sq: Square, scaleX: real, scaleY: real): (r: Square)
    ensures r.id == sq.id && r.order == sq.order
    ensures r.x == sq.x * scaleX && r.y == sq.y * scaleY
    ensures scaleX <= scaleY ==> r.size == sq.size * scaleX
    ensures scaleY <= scaleX ==> r.size == sq.size * scaleY
  {
    sq.(x := sq.x * scaleX, y := sq.y * scaleY, size := sq.size * Min(scaleX, scaleY))
  }

  function RescaleAll(s: seq<Square>, fromW: real, fromH: real, toW: real, toH: real): (r: seq<Square>)
    requires fromW > 0.0 && fromH > 0.0
    ensures |r| == |s|
    ensures forall i :: 0 <= i < |s| ==> r[i] == RescaleSquare(s[i], fromW, fromH, toW, toH)
  {
    seq(|s|, i requires 0 <= i < |s| => RescaleSquare(s[i], fromW, fromH, toW, toH))
  }

  /** With any positive axis factors, a square inside the old bounds is
      still inside the new ones after scaling: each side is scaled by the
      smaller factor, so it never overhangs. If its scaled side is still at
      least 1, the clamp then leaves it as scaled. */
  lemma RescaleKeepsInside(sq: Square, fromW: real, fromH: real, toW: real, toH: real)
    requires fromW > 0.0 && fromH > 0.0 && toW > 0.0 && toH > 0.0
    requires Inside(sq, fromW, fromH)
    requires sq.size * Min(toW / fromW, toH / fromH) >= 1.0
    ensures Inside(Scaled(sq, fromW, fromH, toW, toH), toW, toH)
    ensures RescaleSquare(sq, fromW, fromH, toW, toH) == Scaled(sq, fromW, fromH, toW, toH)
  {
    var kx, ky := toW / fromW, toH / fromH;
    var r := Scaled(sq, fromW, fromH, toW, toH);
    var m := Min(kx, ky);
    assert r.size == sq.size * m;
    MulMonotone(m, kx, sq.size);
    MulMonotone(m, ky, sq.size);
    MulMonotone(sq.x + sq.size, fromW, kx);
    MulMonotone(sq.y + sq.size, fromH, ky);
    MulMonotone(0.0, sq.x, kx);
    MulMonotone(0.0, sq.y, ky);
    assert fromW * kx == toW && fromH * ky == toH;
    assert r.x + r.size <= (sq.x + sq.size) * kx;
    assert r.y + r.size <= (sq.y + sq.size) * ky;
  }

  lemma MulMonotone(a: real, b: real, k: real)
    requires a <= b && k > 0.0
    ensures a * k <= b * k
  {
  }

  lemma Inverse(v: real, k: real)
    requires k > 0.0
    ensures (1.0 / k) * (k * v) == v && v * k * (1.0 / k) == v
  {
    calc {
      (1.0 / k) * (k * v);
      ((1.0 / k) * k) * v;
      { assert (1.0 / k) * k == 1.0; }
      v;
    }
  }

  /** Rescaling by the same factor `k` on both axes multiplies every
      coordinate by `k`. */
  lemma ScaledUniform(sq: Square, fromW: real, fromH: real, toW: real, toH: real, k: real)
    requires fromW > 0.0 && fromH > 0.0 && k > 0.0
    requires toW == k * fromW && toH == k * fromH
    ensures Scaled(sq, fromW, fromH, toW, toH) == sq.(x := sq.x * k, y := sq.y * k, size := sq.size * k)
  {
    assert toW / fromW == k;
    assert toH / fromH == k;
  }

  /** Scaling by `k` keeps a square that fits `w × h` inside `k·w × k·h`. */
  lemma InsideScaled(sq: Square, w: real, h: real, k: real)
    requires k > 0.0 && Inside(sq, w, h) && sq.size * k >= 1.0
    ensures Inside(sq.(x := sq.x * k, y := sq.y * k, size := sq.size * k), k * w, k * h)
  {
    MulMonotone(sq.x + sq.size, w, k);
    MulMonotone(sq.y + sq.size, h, k);
    MulMonotone(0.0, sq.x, k);
    MulMonotone(0.0, sq.y, k);
  }

  /** Under a uniform scale `k` a square that fits and stays at least 1
      wide comes back unchanged from a rescale there and back. */
  lemma RescaleRoundTrip(sq: Square, w: real, h: real, k: real)
    requires w > 0.0 && h > 0.0 && k > 0.0
    requires Inside(sq, w, h) && sq.size * k >= 1.0
    ensures RescaleSquare(RescaleSquare(sq, w, h, k * w, k * h), k * w, k * h, w, h) == sq
  {
    ScaledUniform(sq, w, h, k * w, k * h, k);
    var s1 := sq.(x := sq.x * k, y := sq.y * k, size := sq.size * k);
    InsideScaled(sq, w, h, k);
    assert RescaleSquare(sq, w, h, k * w, k * h) == s1;
    ScaledBack(sq, w, h, k);
  }

  /** The way back: dividing the `k`-scaled square by `k`. */
  lemma ScaledBack(sq: Square, w: real, h: real, k: real)
    requires w > 0.0 && h > 0.0 && k > 0.0
    ensures Scaled(sq.(x := sq.x * k, y := sq.y * k, size := sq.size * k), k * w, k * h, w, h) == sq
  {
    Inverse(w, k);
    Inverse(h, k);
    ScaledUniform(sq.(x := sq.x * k, y := sq.y * k, size := sq.size * k), k * w, k * h, w, h, 1.0 / k);
    Inverse(sq.x, k);
    Inverse(sq.y, k);
    Inverse(sq.size, k);
  }

  /** The rescale does not round-trip when the two axes scale
      differently: the size follows the smaller factor each way. */
  lemma RescaleNonUniformShrinks()
    ensures var sq := Square(1, 0.0, 0.0, 50.0, 1);
      RescaleSquare(RescaleSquare(sq, 100.0, 100.0, 200.0, 100.0), 200.0, 100.0, 100.0, 100.0).size == 25.0
  {
  }

  /** The `setSquares` callback of `rescaleSquaresToBounds`. */
  method RescaledList(prev: seq<Square>, fromW: real, fromH: real, toW: real, toH: real) returns (r: seq<Square>)
    requires fromW > 0.0 && fromH > 0.0
    ensures r == RescaleAll(prev, fromW, fromH, toW, toH)
    ensures r == prev <==> forall i :: 0 <= i < |prev| ==> RescaleSquare(prev[i], fromW, fromH, toW, toH) == prev[i]
  {
    var scaleX := toW / fromW;
    var scaleY := toH / fromH;
    var changed := false;
    var next: seq<Square> := [];
    for i := 0 to |prev|
      invariant |next| == i
      invariant forall k :: 0 <= k < i ==> next[k] == RescaleSquare(prev[k], fromW, fromH, toW, toH)
      invariant changed <==> exists k :: 0 <= k < i && RescaleSquare(prev[k], fromW, fromH, toW, toH) != prev[k]
    {
      var sq := prev[i];
      // scaledX, scaledY and scaledSize (the size by the smaller factor)
      var scaled := ScaledBy(sq, scaleX, scaleY);
      var size := Max(1.0, Min3(scaled.size, toW, toH));
      var x := Max(0.0, Min(toW - size, scaled.x));
      var y := Max(0.0, Min(toH - size, scaled.y));
      assert sq.(x := x, y := y, size := size) == RescaleSquare(sq, fromW, fromH, toW, toH);
      if x != sq.x || y != sq.y || size != sq.size {
        changed := true;
        next := next + [sq.(x := x, y := y, size := size)];
      } else {
        next := next + [sq];
      }
    }
    r := if changed then next else prev;
  }

  // -------------------------------------------------------------- store

  /** The state of `useCropSquares` together with the module-level id
      counter it draws from. */
  class CropStore {
    var squares: seq<Square>
    var nextId: nat

    ghost predicate Valid()
      reads this
    {
      Ordered(squares) && DistinctIds(squares) && IdsBelow(squares, nextId)
    }

    constructor ()
      ensures Valid() && squares == [] && nextId == 1
    {
      squares := [];
      nextId := 1;
    }

    method AddSquare(x: real, y: real, size: real)
      requires Valid()
      modifies this
      ensures Valid()
      ensures squares == Appended(old(squares), old(nextId), x, y, size)
      ensures nextId == old(nextId) + 1
      ensures forall i :: 0 <= i < |old(squares)| ==> old(squares)[i].id != squares[|squares| - 1].id
    {
      AppendedKeepsInvariant(squares, nextId, x, y, size);
      squares := Appended(squares, nextId, x, y, size);
      nextId := nextId + 1;
    }

    method UpdateSquare(id: Id, patch: Patch)
      requires Valid()
      modifies this
      ensures Valid()
      ensures squares == Updated(old(squares), id, patch) && nextId == old(nextId)
    {
      squares := Updated(squares, id, patch);
    }

    method RemoveSquare(id: Id)
      requires Valid()
      modifies this
      ensures Valid()
      ensures squares == Removed(old(squares), id) && nextId == old(nextId)
    {
      var kept := WithoutId(squares, id);
      forall i | 0 <= i < |kept| ensures kept[i].id < nextId {
        assert kept[i] in squares;
      }
      squares := Removed(squares, id);
    }

    method MoveSquare(from: nat, to: nat)
      requires Valid()
      requires from < |squares| && to < |squares|
      modifies this
      ensures Valid()
      ensures squares == Moved(old(squares), from, to) && nextId == old(nextId)
    {
      SourceIndexInjective(|squares|, from, to);
      squares := Moved(squares, from, to);
    }

    method ClearAll()
      requires Valid()
      modifies this
      ensures Valid()
      ensures squares == [] && nextId == old(nextId)
    {
      squares := [];
    }

    method ClampSquaresToBounds(maxW: real, maxH: real)
      requires Valid()
      modifies this
      ensures Valid() && nextId == old(nextId)
      ensures squares == if maxW <= 0.0 || maxH <= 0.0 then old(squares) else ClampAll(old(squares), maxW, maxH)
    {
      if maxW <= 0.0 || maxH <= 0.0 {
        return;
      }
      ClampAllProperties(squares, maxW, maxH);
      squares := ClampedList(squares, maxW, maxH);
    }

    method RescaleSquaresToBounds(fromW: real, fromH: real, toW: real, toH: real)
      requires Valid()
      modifies this
      ensures Valid() && nextId == old(nextId)
      ensures squares == if fromW <= 0.0 || fromH <= 0.0 || toW <= 0.0 || toH <= 0.0 then old(squares)
                         else RescaleAll(old(squares), fromW, fromH, toW, toH)
    {
      if fromW <= 0.0 || fromH <= 0.0 || toW <= 0.0 || toH <= 0.0 {
        return;
      }
      squares := RescaledList(squares, fromW, fromH, toW, toH);
    }
  }
}
