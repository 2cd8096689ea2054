/** The export plan: the squares sorted by their export position, one
    PNG per square named by its 1-based place, each cut from the natural
    image at the square's rectangle times the scale factor, and the
    archive named after the image without its extension. */
module ZipExporter {
  import opened Types
  import CropSquares

  // ------------------------------------------------------ stable sorting

  predicate SortedByOrder(s: seq<Square>)
  {
    forall i, j :: 0 <= i < j < |s| ==> s[i].order <= s[j].order
  }

  /** Puts `x` into a sorted list after every square whose order is at
      most its own. */
  function Insert(t: seq<Square>, x: Square): (r: seq<Square>)
    ensures multiset(r) == multiset(t) + multiset{x}
    ensures |r| == |t| + 1
  {
    if t == [] || t[|t| - 1].order <= x.order then t + [x]
    else
      assert t == t[..|t| - 1] + [t[|t| - 1]];
      Insert(t[..|t| - 1], x) + [t[|t| - 1]]
  }

  /** `[...squares].sort((a, b) => a.order - b.order)`: a stable sort, as
      `Array.prototype.sort` is. */
  function SortByOrder(s: seq<Square>): (r: seq<Square>)
    ensures multiset(r) == multiset(s)
    ensures |r| == |s|
  {
    if s == [] then []
    else
      assert s == s[..|s| - 1] + [s[|s| - 1]];
      Insert(SortByOrder(s[..|s| - 1]), s[|s| - 1])
  }

  lemma {:induction false} InsertSorted(t: seq<Square>, x: Square)
    requires SortedByOrder(t)
    ensures SortedByOrder(Insert(t, x))
    ensures forall i :: 0 <= i < |Insert(t, x)| ==> Insert(t, x)[i] in t || Insert(t, x)[i] == x
  {
    if t != [] && t[|t| - 1].order > x.order {
      var init := t[..|t| - 1];
      InsertSorted(init, x);
      var r := Insert(t, x);
      assert r == Insert(init, x) + [t[|t| - 1]];
      forall i | 0 <= i < |r| - 1
        ensures r[i].order <= t[|t| - 1].order
      {
        assert r[i] == Insert(init, x)[i];
        if r[i] != x {
          assert r[i] in init;
          var k :| 0 <= k < |init| && init[k] == r[i];
          assert t[k] == r[i];
        }
      }
      forall i | 0 <= i < |r|
        ensures r[i] in t || r[i] == x
      {
        if i < |r| - 1 {
          assert r[i] == Insert(init, x)[i];
          if r[i] != x {
            assert r[i] in init;
          }
        }
      }
    }
  }

  /** The result is ordered by `order` and is a permutation of the input. */
  lemma {:induction false} SortByOrderSorted(s: seq<Square>)
    ensures SortedByOrder(SortByOrder(s))
    ensures multiset(SortByOrder(s)) == multiset(s)
  {
    if s != [] {
      SortByOrderSorted(s[..|s| - 1]);
      InsertSorted(SortByOrder(s[..|s| - 1]), s[|s| - 1]);
    }
  }

  /** The squares of `s` whose order is `k`, in their order in `s`. */
  function WithOrder(s: seq<Square>, k: int): seq<Square>
  {
    if s == [] then []
    else WithOrder(s[..|s| - 1], k) + (if s[|s| - 1].order == k then [s[|s| - 1]] else [])
  }

  /** `WithOrder` over a list with one square appended. */
  lemma WithOrderSnoc(s: seq<Square>, c: Square, k: int)
    ensures WithOrder(s + [c], k) == WithOrder(s, k) + (if c.order == k then [c] else [])
  {
    var r := s + [c];
    assert r[..|r| - 1] == s;
  }

  lemma {:induction false} InsertStable(t: seq<Square>, x: Square, k: int)
    ensures WithOrder(Insert(t, x), k) == WithOrder(t, k) + (if x.order == k then [x] else [])
  {
    if t == [] || t[|t| - 1].order <= x.order {
      WithOrderSnoc(t, x, k);
    } else {
      var init, last := t[..|t| - 1], t[|t| - 1];
      InsertStable(init, x, k);
      assert t == init + [last];
      WithOrderSnoc(Insert(init, x), last, k);
      WithOrderSnoc(init, last, k);
      SwapDisjoint(WithOrder(init, k), x, last, k);
    }
  }

  /** Two squares of different orders, at most one of them equal to `k`,
      can be taken in either order. */
  lemma SwapDisjoint(w: seq<Square>, x: Square, y: Square, k: int)
    requires x.order < y.order
    ensures w + (if x.order == k then [x] else []) + (if y.order == k then [y] else [])
         == w + (if y.order == k then [y] else []) + (if x.order == k then [x] else [])
  {
  }

  /** Stability: squares sharing an order keep their relative order. */
  lemma {:induction false} SortByOrderStable(s: seq<Square>, k: int)
    ensures WithOrder(SortByOrder(s), k) == WithOrder(s, k)
  {
    if s != [] {
      SortByOrderStable(s[..|s| - 1], k);
      InsertStable(SortByOrder(s[..|s| - 1]), s[|s| - 1], k);
    }
  }

  /** An already sorted list is left as it is. */
  lemma {:induction false} SortBySortedIdentity(s: seq<Square>)
    requires SortedByOrder(s)
    ensures SortByOrder(s) == s
  {
    if s != [] {
      var init, last := s[..|s| - 1], s[|s| - 1];
      SortedSplit(s);
      SortBySortedIdentity(init);
      assert SortByOrder(s) == Insert(init, last);
    }
  }

  /** A sorted non-empty list is a sorted list followed by a square whose
      order is at least that of the list's last square. */
  lemma SortedSplit(s: seq<Square>)
    requires SortedByOrder(s) && s != []
    ensures SortedByOrder(s[..|s| - 1])
    ensures s == s[..|s| - 1] + [s[|s| - 1]]
    ensures Insert(s[..|s| - 1], s[|s| - 1]) == s
  {
    var init, last := s[..|s| - 1], s[|s| - 1];
    forall i, j | 0 <= i < j < |init|
      ensures init[i].order <= init[j].order
    {
      assert init[i] == s[i] && init[j] == s[j];
    }
    if init != [] {
      assert init[|init| - 1] == s[|s| - 2];
    }
  }

  /** The store's list is numbered by position, so the export keeps it. */
  lemma StoreListExportsAsIs(s: seq<Square>)
    requires CropSquares.Ordered(s)
    ensures SortByOrder(s) == s
  {
    SortBySortedIdentity(s);
  }

  // --------------------------------------------------------- file names

  /** The decimal digit character for `d`. */
  function Digit(d: int): (c: char)
    requires 0 <= d < 10
    ensures '0' <= c <= '9'
  {
    (d + '0' as int) as char
  }

  /** `String(n)` for a natural number: its decimal digits. */
  function NatToString(n: nat): (s: string)
    ensures |s| >= 1
    ensures n >= 10 <==> |s| >= 2
    ensures forall i :: 0 <= i < |s| ==> '0' <= s[i] <= '9'
  {
    if n < 10 then [Digit(n)] else NatToString(n / 10) + [Digit(n % 10)]
  }

  /** Different numbers are written differently. */
  lemma {:induction false} NatToStringInjective(a: nat, b: nat)
    requires NatToString(a) == NatToString(b)
    ensures a == b
  {
    if a >= 10 {
      var sa, sb := NatToString(a), NatToString(b);
      assert b >= 10;
      var pa, pb := NatToString(a / 10), NatToString(b / 10);
      assert sa == pa + [Digit(a % 10)];
      assert sb == pb + [Digit(b % 10)];
      assert pa == sa[..|sa| - 1] && pb == sb[..|sb| - 1];
      NatToStringInjective(a / 10, b / 10);
      assert Digit(a % 10) == sa[|sa| - 1] == Digit(b % 10);
    }
  }

  /** `${n}.png`. */
  function FileName(n: nat): (r: string)
    ensures |r| >= 5 && r[|r| - 4..] == ".png"
    ensures forall i :: 0 <= i < |r| - 4 ==> '0' <= r[i] <= '9'
  {
    NatToString(n) + ".png"
  }

  /** Slide 1 is `1.png` and slide 12 is `12.png`. */
  lemma FileNameExamples()
    ensures FileName(1) == "1.png"
    ensures FileName(12) == "12.png"
  {
    assert NatToString(12) == NatToString(1) + [Digit(2)];
  }

  /** Different slides get different file names. */
  lemma FileNameInjective(a: nat, b: nat)
    requires FileName(a) == FileName(b)
    ensures a == b
  {
    var sa, sb := NatToString(a), NatToString(b);
    assert |sa| == |sb|;
    assert sa == FileName(a)[..|sa|];
    assert sb == FileName(b)[..|sb|];
    NatToStringInjective(a, b);
  }

  // ------------------------------------------------------------- plan

  /** One file of the archive: its name and the source rectangle, in
      natural pixels, that `cropRegion` cuts out. */
  datatype ExportFile = ExportFile(name: string, sourceX: real, sourceY: real, sourceSize: real)

  /** The file for the square in place `i` of the sorted list. */
  function SlideFile(i: nat, sq: Square, scaleFactor: real): ExportFile
  {
    ExportFile(FileName(i + 1), sq.x * scaleFactor, sq.y * scaleFactor, sq.size * scaleFactor)
  }

  /** The loop of `exportAsZip`: one file per square, in ascending order. */
  method ExportPlan(squares: seq<Square>, scaleFactor: real) returns (files: seq<ExportFile>)
    ensures |files| == |squares|
    ensures forall i :: 0 <= i < |files| ==> files[i] == SlideFile(i, SortByOrder(squares)[i], scaleFactor)
  {
    var sorted := SortByOrder(squares);
    files := [];
    for i := 0 to |sorted|
      invariant |files| == i
      invariant forall k :: 0 <= k < i ==> files[k] == SlideFile(k, sorted[k], scaleFactor)
    {
      var sq := sorted[i];
      files := files + [ExportFile(FileName(i + 1), sq.x * scaleFactor, sq.y * scaleFactor, sq.size * scaleFactor)];
    }
  }

  /** The plan's files have pairwise distinct names, so none overwrites
      another in the archive. */
  lemma PlanNamesDistinct(squares: seq<Square>, scaleFactor: real, i: nat, j: nat)
    requires i < j < |squares|
    ensures SlideFile(i, SortByOrder(squares)[i], scaleFactor).name
            != SlideFile(j, SortByOrder(squares)[j], scaleFactor).name
  {
    if FileName(i + 1) == FileName(j + 1) {
      FileNameInjective(i + 1, j + 1);
    }
  }

  /** For the store's list, file `k.png` is the square whose order is `k`,
      cut at its rectangle times the scale factor. */
  lemma PlanOfStoreList(squares: seq<Square>, scaleFactor: real, i: nat)
    requires CropSquares.Ordered(squares) && i < |squares|
    ensures SortByOrder(squares)[i] == squares[i]
    ensures SlideFile(i, SortByOrder(squares)[i], scaleFactor).name == FileName(squares[i].order)
    ensures SlideFile(i, SortByOrder(squares)[i], scaleFactor).sourceSize == squares[i].size * scaleFactor
  {
    StoreListExportsAsIs(squares);
    var sq := squares[i];
    assert sq.order == i + 1;
    assert SlideFile(i, sq, scaleFactor).name == FileName(sq.order);
  }

  // ------------------------------------------------------ archive name

  /** The position of the last `.`, if any. */
  function LastDot(s: string): (p: Option<nat>)
    ensures p.Some? ==> p.value < |s| && s[p.value] == '.' && forall q :: p.value < q < |s| ==> s[q] != '.'
    ensures p.None? ==> forall q :: 0 <= q < |s| ==> s[q] != '.'
  {
    if s == [] then None
    else if s[|s| - 1] == '.' then Some(|s| - 1)
    else LastDot(s[..|s| - 1])
  }

  /** Where `/\.[^.]+$/` matches: a dot followed by one or more
      characters, none of them a dot, up to the end. */
  predicate ExtensionAt(s: string, p: int)
  {
    0 <= p < |s| - 1 && s[p] == '.' && forall q :: p < q < |s| ==> s[q] != '.'
  }

  /** `originalFilename.replace(/\.[^.]+$/, '')`. */
  function BaseName(s: string): (r: string)
    ensures forall p :: ExtensionAt(s, p) ==> r == s[..p]
    ensures (forall p :: !ExtensionAt(s, p)) ==> r == s
  {
    LastDotIsExtension(s);
    var dot := LastDot(s);
    if dot.Some? && dot.value < |s| - 1 then
      assert ExtensionAt(s, dot.value);
      s[..dot.value]
    else s
  }

  /** The pattern can only match at the last dot. */
  lemma LastDotIsExtension(s: string)
    ensures forall p :: ExtensionAt(s, p) ==> LastDot(s) == Some(p)
  {
    forall p | ExtensionAt(s, p)
      ensures LastDot(s) == Some(p)
    {
      assert s[p] == '.';
    }
  }

  /** A name without a dot, or ending in one, is kept whole; otherwise
      the result is a strict prefix ending just before the last dot. */
  lemma BaseNameCases(s: string)
    ensures (forall q :: 0 <= q < |s| ==> s[q] != '.') ==> BaseName(s) == s
    ensures |s| > 0 && s[|s| - 1] == '.' ==> BaseName(s) == s
    ensures BaseName(s) != s ==> |BaseName(s)| < |s| && s[|BaseName(s)|] == '.'
  {
    if |s| > 0 && s[|s| - 1] == '.' {
      assert forall p :: !ExtensionAt(s, p);
    }
  }

  /** `${baseName}.zip`. */
  function ArchiveName(originalFilename: string): (r: string)
    ensures |r| >= 4 && r[|r| - 4..] == ".zip"
    ensures |r| - 4 <= |originalFilename| && r[..|r| - 4] == originalFilename[..|r| - 4]
  {
    BaseName(originalFilename) + ".zip"
  }

  /** Only the last extension is replaced: `a.b.c` gives `a.b.zip`; a
      name without extension, or ending in a dot, keeps all of it. */
  lemma ArchiveNameExamples()
    ensures ArchiveName("photo.jpg") == "photo.zip"
    ensures ArchiveName("a.b.c") == "a.b.zip"
    ensures ArchiveName("photo") == "photo.zip"
    ensures ArchiveName("photo.") == "photo..zip"
  {
    assert ExtensionAt("photo.jpg", 5);
    assert ExtensionAt("a.b.c", 3);
    assert forall p :: !ExtensionAt("photo", p);
    assert forall p :: !ExtensionAt("photo.", p);
  }
}
