/**
 * Cell offsets shared by the three revisions of `Positions`: a cell is an (x, y) pair of
 * `isize`, a `Positions<N>` value is a fixed-size array of them. This module holds the
 * arithmetic every revision uses the same way: translating all cells by one offset (the
 * `iter_mut().for_each` loop of each `Add` impl), the quarter-turn map used to build the
 * rotation tables, and the stable sort by height that `lowest_first` asks of `sort_by`.
 */
module Offsets {

  type Cell = (int, int)

  const ISIZE_MIN: int := -0x8000_0000_0000_0000
  const ISIZE_MAX: int := 0x7FFF_FFFF_FFFF_FFFF
  const USIZE_LIMIT: int := 0x1_0000_0000_0000_0000

  predicate InI8(n: int) { -128 <= n <= 127 }
  predicate InI16(n: int) { -0x8000 <= n <= 0x7FFF }
  predicate InIsize(n: int) { ISIZE_MIN <= n <= ISIZE_MAX }
  predicate InUsize(n: int) { 0 <= n < USIZE_LIMIT }

  /** `n as isize` for a `usize` n: two's-complement reinterpretation of the 64 bits. */
  function UsizeAsIsize(n: int): (r: int)
    requires InUsize(n)
    ensures InIsize(r)
    ensures (r - n) % USIZE_LIMIT == 0
    ensures n <= ISIZE_MAX ==> r == n
  {
    if n <= ISIZE_MAX then n else n - USIZE_LIMIT
  }

  /** Every cell moved by (dx, dy). */
  function Translate(cells: seq<Cell>, dx: int, dy: int): (r: seq<Cell>)
    ensures |r| == |cells|
    ensures forall k :: 0 <= k < |r| ==> r[k] == (cells[k].0 + dx, cells[k].1 + dy)
  {
    seq(|cells|, k requires 0 <= k < |cells| => (cells[k].0 + dx, cells[k].1 + dy))
  }

  /** The translated cells stay inside `isize`, so `+=` on them does not overflow. */
  ghost predicate TranslateFits(cells: seq<Cell>, dx: int, dy: int)
  {
    forall k :: 0 <= k < |cells| ==> InIsize(cells[k].0 + dx) && InIsize(cells[k].1 + dy)
  }

  /** Adding the offset (0, 0) leaves every cell where it is. */
  lemma TranslateZero(cells: seq<Cell>)
    ensures Translate(cells, 0, 0) == cells
  {
  }

  lemma TranslateCompose(cells: seq<Cell>, ax: int, ay: int, bx: int, bY: int)
    ensures Translate(Translate(cells, ax, ay), bx, bY) == Translate(cells, ax + bx, ay + bY)
  {
  }

  /**
   * The loop of every `Add` impl: `arr.0.iter_mut().for_each(|(x, y)| { *x += dx; *y += dy })`.
   * An `isize` overflow in `+=` panics, hence the precondition.
   */
  method TranslateInPlace(a: array<Cell>, dx: int, dy: int)
    requires TranslateFits(a[..], dx, dy)
    modifies a
    ensures a[..] == Translate(old(a[..]), dx, dy)
  {
    var i := 0;
    while i < a.Length
      invariant 0 <= i <= a.Length
      invariant forall k :: 0 <= k < i ==> a[k] == (old(a[k]).0 + dx, old(a[k]).1 + dy)
      invariant forall k :: i <= k < a.Length ==> a[k] == old(a[k])
    {
      a[i] := (a[i].0 + dx, a[i].1 + dy);
      i := i + 1;
    }
  }

  /** The quarter turn r(x, y) = (y, -x) of `center_of_mass_rotation`. */
  function Quarter(c: Cell): Cell { (c.1, -c.0) }

  /** r applied n times. */
  function QuarterPow(c: Cell, n: nat): Cell
  {
    if n == 0 then c else Quarter(QuarterPow(c, n - 1))
  }

  function MapQuarter(cells: seq<Cell>, n: nat): (r: seq<Cell>)
    ensures |r| == |cells|
    ensures forall k :: 0 <= k < |r| ==> r[k] == QuarterPow(cells[k], n)
  {
    seq(|cells|, k requires 0 <= k < |cells| => QuarterPow(cells[k], n))
  }

  lemma QuarterPowUnfold(c: Cell)
    ensures QuarterPow(c, 1) == Quarter(c)
    ensures QuarterPow(c, 2) == Quarter(Quarter(c))
    ensures QuarterPow(c, 3) == Quarter(Quarter(Quarter(c)))
    ensures QuarterPow(c, 4) == Quarter(Quarter(Quarter(Quarter(c))))
  {
  }

  lemma QuarterIterates(c: Cell)
    ensures Quarter(c) == (c.1, -c.0)
    ensures Quarter(Quarter(c)) == (-c.0, -c.1)
    ensures Quarter(Quarter(Quarter(c))) == (-c.1, c.0)
    ensures Quarter(Quarter(Quarter(Quarter(c)))) == c
  {
  }

  /** r^2 and r^3 are the two other maps that `center_of_mass_rotation` writes out. */
  lemma QuarterPowers(c: Cell)
    ensures QuarterPow(c, 1) == (c.1, -c.0)
    ensures QuarterPow(c, 2) == (-c.0, -c.1)
    ensures QuarterPow(c, 3) == (-c.1, c.0)
    ensures QuarterPow(c, 4) == c
  {
    // Unfolding the recursion and the arithmetic separately keeps each step small.
    hide QuarterPow, Quarter;
    QuarterPowUnfold(c);
    QuarterIterates(c);
  }

  /** r composed with itself: r^m after r^n is r^(m+n).  */
  lemma {:induction false} QuarterPowAdd(c: Cell, m: nat, n: nat)
    ensures QuarterPow(QuarterPow(c, n), m) == QuarterPow(c, m + n)
  {
    if m > 0 {
      QuarterPowAdd(c, m - 1, n);
    }
  }

  /** A full turn is the identity, so r^n depends only on n mod 4. */
  lemma {:induction false} QuarterPowMod4(c: Cell, n: nat)
    ensures QuarterPow(c, n) == QuarterPow(c, n % 4)
  {
    if n >= 4 {
      QuarterPowAdd(c, n - 4, 4);
      QuarterPowers(c);
      QuarterPowMod4(c, n - 4);
    }
  }

  // ---------------------------------------------------------------------------------------
  // Stable sort by height (the `sort_by(|(_, y1), (_, y2)| y1.cmp(y2))` of `lowest_first`)

  /** Nondecreasing y. */
  ghost predicate SortedByY(s: seq<Cell>)
  {
    forall k, l :: 0 <= k < l < |s| ==> s[k].1 <= s[l].1
  }

  /** The cells of height y, in their order in s. */
  function AtHeight(s: seq<Cell>, y: int): (r: seq<Cell>)
    ensures |r| <= |s|
    ensures forall k :: 0 <= k < |r| ==> r[k].1 == y
  {
    if s == [] then []
    else (if s[0].1 == y then [s[0]] else []) + AtHeight(s[1..], y)
  }

  /**
   * Stability: for every height, the cells of that height appear in the same relative
   * order in t as in s.
   */
  ghost predicate SameAtEveryHeight(s: seq<Cell>, t: seq<Cell>)
  {
    forall y :: AtHeight(s, y) == AtHeight(t, y)
  }

  lemma {:induction false} AtHeightConcat(s: seq<Cell>, t: seq<Cell>, y: int)
    ensures AtHeight(s + t, y) == AtHeight(s, y) + AtHeight(t, y)
  {
    if s == [] {
      assert s + t == t;
    } else {
      assert (s + t)[1..] == s[1..] + t;
      AtHeightConcat(s[1..], t, y);
    }
  }

  /** Swapping two neighbours of different heights keeps every height's order. */
  lemma SwapNeighboursKeepsHeights(s: seq<Cell>, j: nat)
    requires 0 < j < |s| && s[j - 1].1 != s[j].1
    ensures SameAtEveryHeight(s, s[j - 1 := s[j]][j := s[j - 1]])
    ensures multiset(s[j - 1 := s[j]][j := s[j - 1]]) == multiset(s)
  {
    var t := s[j - 1 := s[j]][j := s[j - 1]];
    assert s == s[..j - 1] + [s[j - 1]] + [s[j]] + s[j + 1..];
    assert t == s[..j - 1] + [s[j]] + [s[j - 1]] + s[j + 1..];
    forall y
      ensures AtHeight(s, y) == AtHeight(t, y)
    {
      AtHeightConcat(s[..j - 1] + [s[j - 1]] + [s[j]], s[j + 1..], y);
      AtHeightConcat(s[..j - 1] + [s[j - 1]], [s[j]], y);
      AtHeightConcat(s[..j - 1], [s[j - 1]], y);
      AtHeightConcat(s[..j - 1] + [s[j]] + [s[j - 1]], s[j + 1..], y);
      AtHeightConcat(s[..j - 1] + [s[j]], [s[j - 1]], y);
      AtHeightConcat(s[..j - 1], [s[j]], y);
    }
  }

  /** Nondecreasing y on the index range [lo, hi). */
  ghost predicate SortedRange(s: seq<Cell>, lo: int, hi: int)
    requires 0 <= lo && hi <= |s|
  {
    forall k, l :: lo <= k < l < hi ==> s[k].1 <= s[l].1
  }

  /**
   * The state of the inner loop of an insertion of s[i] into the sorted prefix: the cell being
   * sunk sits at j, both sides of it are sorted, and everything left of j is at most everything
   * right of it.
   */
  ghost predicate Sinking(s: seq<Cell>, j: int, i: int)
  {
    && 0 <= j <= i < |s|
    && SortedRange(s, 0, j)
    && SortedRange(s, j, i + 1)
    && (forall k, l :: 0 <= k < j && j < l <= i ==> s[k].1 <= s[l].1)
  }

  lemma SinkingStart(s: seq<Cell>, i: int)
    requires 0 <= i < |s| && SortedRange(s, 0, i)
    ensures Sinking(s, i, i)
  {
  }

  lemma SinkingStep(s: seq<Cell>, j: int, i: int)
    requires Sinking(s, j, i) && j > 0 && s[j - 1].1 > s[j].1
    ensures Sinking(s[j - 1 := s[j]][j := s[j - 1]], j - 1, i)
  {
  }

  lemma SinkingDone(s: seq<Cell>, j: int, i: int)
    requires Sinking(s, j, i) && (j == 0 || s[j - 1].1 <= s[j].1)
    ensures SortedRange(s, 0, i + 1)
  {
  }

  /** One pass of the insertion: s[i] moves left past every strictly higher cell. */
  method SinkLast(a: array<Cell>, i: int)
    requires 0 <= i < a.Length && SortedRange(a[..], 0, i)
    modifies a
    ensures SortedRange(a[..], 0, i + 1)
    ensures SameAtEveryHeight(old(a[..]), a[..])
    ensures multiset(a[..]) == multiset(old(a[..]))
  {
    SinkingStart(a[..], i);
    var j := i;
    while j > 0 && a[j - 1].1 > a[j].1
      invariant Sinking(a[..], j, i)
      invariant SameAtEveryHeight(old(a[..]), a[..])
      invariant multiset(a[..]) == multiset(old(a[..]))
    {
      SwapNeighboursKeepsHeights(a[..], j);
      SinkingStep(a[..], j, i);
      a[j - 1], a[j] := a[j], a[j - 1];
      j := j - 1;
    }
    SinkingDone(a[..], j, i);
  }

  /**
   * `slice::sort_by` with the height comparison: a stable sort, written as an insertion
   * sort by neighbour swaps (the standard library's algorithm is not part of this model;
   * only its contract is).
   */
  method SortByHeight(a: array<Cell>)
    modifies a
    ensures SortedByY(a[..])
    ensures SameAtEveryHeight(old(a[..]), a[..])
    ensures multiset(a[..]) == multiset(old(a[..]))
  {
    var i := 0;
    while i < a.Length
      invariant 0 <= i <= a.Length
      invariant SortedRange(a[..], 0, i)
      invariant SameAtEveryHeight(old(a[..]), a[..])
      invariant multiset(a[..]) == multiset(old(a[..]))
    {
      SinkLast(a, i);
      i := i + 1;
    }
  }
}
