/**
 * The two `Mino` operations of bsr-tools that look a piece up in the tables: `position`, the
 * cells a piece occupies, and `kick`, the candidate offsets SRS+ tries for a spin.
 */
module BsrMino {

  import Offsets
  import opened Tables
  import opened BsrTetromino
  import opened BsrKickTable

  /** `ROTATION_TABLE.get(&(variant, direction)).unwrap()`: every state has an entry, so this never panics. */
  function StateOffsets(v: MinoVariant, d: Direction): (r: seq<Offset>)
    ensures (v, d) in RotationTable() && r == RotationTable()[(v, d)]
    ensures |r| == 4
  {
    RotationTableEntry(v, d);
    RotationTable()[(v, d)]
  }

  /** The `isize` additions of `position` do not overflow. */
  ghost predicate PositionFits(m: Mino)
  {
    && ValidMino(m)
    && Offsets.TranslateFits(StateOffsets(m.variant, m.direction),
                             Offsets.UsizeAsIsize(m.coord.0), Offsets.UsizeAsIsize(m.coord.1))
  }

  /**
   * `Mino::position`: the four table offsets of the piece's state, widened to `isize`, moved
   * in place by the piece's coordinate.
   */
  method Position(m: Mino) returns (cells: seq<Offsets.Cell>)
    requires PositionFits(m)
    ensures |cells| == 4
    ensures forall k :: 0 <= k < 4 ==> cells[k] == (StateOffsets(m.variant, m.direction)[k].0 + Offsets.UsizeAsIsize(m.coord.0),
                                                  StateOffsets(m.variant, m.direction)[k].1 + Offsets.UsizeAsIsize(m.coord.1))
    ensures m.coord.0 <= Offsets.ISIZE_MAX && m.coord.1 <= Offsets.ISIZE_MAX ==>
      forall k :: 0 <= k < 4 ==> cells[k] == (StateOffsets(m.variant, m.direction)[k].0 + m.coord.0,
                                            StateOffsets(m.variant, m.direction)[k].1 + m.coord.1)
  {
    hide RotationTable, StateOffsets;
    var offsets := StateOffsets(m.variant, m.direction);
    var a := new Offsets.Cell[4];
    a[0], a[1], a[2], a[3] := offsets[0], offsets[1], offsets[2], offsets[3];
    assert a[..] == offsets;
    AddUsize(a, m.coord.0, m.coord.1);
    cells := a[..];
  }

  /**
   * `Mino::kick`: the SRS+ list for the rotation the spin performs. There is one for every
   * quarter turn of a piece other than O and for the half turns of I and T; O never kicks.
   */
  function Kick(m: Mino, at: Spin): (r: Option<seq<Offset>>)
    ensures r.Some? <==> m.variant != O && (at != Flip || m.variant == I || m.variant == T)
    ensures m.variant == O ==> r.None?
    ensures r.Some? ==> RotationOf(m, at) in SrsPlus() && r.value == SrsPlus()[RotationOf(m, at)]
    ensures r.Some? ==> |r.value| == (if at != Flip then 4 else if m.variant == T then 5 else 1)
  {
    SpinKicks(m, at);
    Get(SrsPlus(), RotationOf(m, at))
  }

  /** A clockwise or counter-clockwise spin is a quarter turn, a flip a half turn. */
  lemma SpinKicks(m: Mino, at: Spin)
    ensures RotationOf(m, at) in SrsPlus() <==> m.variant != O && (at != Flip || m.variant == I || m.variant == T)
    ensures RotationOf(m, at) in SrsPlus() ==>
      |SrsPlus()[RotationOf(m, at)]| == (if at != Flip then 4 else if m.variant == T then 5 else 1)
  {
    hide SrsPlus;
    SrsPlusKeys(RotationOf(m, at));
  }
}
