/**
 * viewtris' `Positions`: the cells a piece occupies, moved by an (i8, i8), (i16, i16) or
 * (isize, isize) offset, read in order, and sorted lowest first.
 */
module ViewtrisPositions {

  import Offsets

  /** `Positions + (i8, i8)`: every cell moved in place; an `isize` overflow of `+=` panics. */
  method AddI8(p: array<Offsets.Cell>, dx: int, dy: int)
    requires Offsets.InI8(dx) && Offsets.InI8(dy)
    requires Offsets.TranslateFits(p[..], dx, dy)
    modifies p
    ensures p[..] == Offsets.Translate(old(p[..]), dx, dy)
  {
    Offsets.TranslateInPlace(p, dx, dy);
  }

  /** `Positions + (i16, i16)`. */
  method AddI16(p: array<Offsets.Cell>, dx: int, dy: int)
    requires Offsets.InI16(dx) && Offsets.InI16(dy)
    requires Offsets.TranslateFits(p[..], dx, dy)
    modifies p
    ensures p[..] == Offsets.Translate(old(p[..]), dx, dy)
  {
    Offsets.TranslateInPlace(p, dx, dy);
  }

  /** `Positions + (isize, isize)`. */
  method AddIsize(p: array<Offsets.Cell>, dx: int, dy: int)
    requires Offsets.InIsize(dx) && Offsets.InIsize(dy)
    requires Offsets.TranslateFits(p[..], dx, dy)
    modifies p
    ensures p[..] == Offsets.Translate(old(p[..]), dx, dy)
  {
    Offsets.TranslateInPlace(p, dx, dy);
  }

  /** `Positions::iter`: the cells in their stored order. */
  function Iter(p: seq<Offsets.Cell>): (r: seq<Offsets.Cell>)
    ensures |r| == |p|
    ensures forall k :: 0 <= k < |r| ==> r[k] == p[k]
  {
    p
  }

  /** `Positions::lowest_first`: a stable sort of the cells by nondecreasing y. */
  method LowestFirst(p: array<Offsets.Cell>)
    modifies p
    ensures Offsets.SortedByY(p[..])
    ensures Offsets.SameAtEveryHeight(old(p[..]), p[..])
    ensures multiset(p[..]) == multiset(old(p[..]))
  {
    Offsets.SortByHeight(p);
  }
}
