/**
 * viewtris' rotation table: for each (variant, direction) the four cell offsets of that
 * state. It is bsr-tools' table with different I shapes. The types come from viewtris'
 * tetromino module, which is not part of this model. The bsr-tools definitions stand in for
 * them: viewtris' `Direction` is assumed to be numbered as in bsr-tools (Up 0, Right 1,
 * Down 2, Left 3). The rotation table's literal keys and which turned shape goes with which
 * direction rest on that assumption.
 */
module ViewtrisRotationTable {

  import Offsets
  import opened Tables
  import opened BsrTetromino

  type Offset = (int, int)

  type TetrominoState = (MinoVariant, Direction)

  /** The table values are negated, so none may be -128, where i8 negation overflows. */
  ghost predicate Negatable(cells: seq<Offset>)
  {
    forall k :: 0 <= k < |cells| ==> -127 <= cells[k].0 <= 127 && -127 <= cells[k].1 <= 127
  }

  /**
   * `center_of_mass_rotation`: the shape as given for direction 0 and, for directions 1, 2
   * and 3, the shape mapped by (y, -x), (-x, -y) and (-y, x) respectively, which are the
   * first three powers of the quarter turn.
   */
  function CenterOfMassRotation(piece: MinoVariant, up: seq<Offset>): (r: seq<(TetrominoState, seq<Offset>)>)
    requires |up| == 4 && Negatable(up)
    ensures |r| == 4
    ensures forall k :: 0 <= k < 4 ==> r[k].0 == (piece, DirectionFromI8(k))
    ensures forall k :: 0 <= k < 4 ==> r[k].1 == Offsets.MapQuarter(up, k)
  {
    var turned := seq(4, k requires 0 <= k < 4 => (up[k].1, -up[k].0));
    var flipped := seq(4, k requires 0 <= k < 4 => (-up[k].0, -up[k].1));
    var back := seq(4, k requires 0 <= k < 4 => (-up[k].1, up[k].0));
    assert turned == Offsets.MapQuarter(up, 1) && flipped == Offsets.MapQuarter(up, 2) by {
      forall k | 0 <= k < 4 ensures turned[k] == Offsets.QuarterPow(up[k], 1)
        && flipped[k] == Offsets.QuarterPow(up[k], 2) && back[k] == Offsets.QuarterPow(up[k], 3)
      {
        Offsets.QuarterPowers(up[k]);
      }
    }
    [((piece, DirectionFromI8(0)), up),
     ((piece, DirectionFromI8(1)), turned),
     ((piece, DirectionFromI8(2)), flipped),
     ((piece, DirectionFromI8(3)), back)]
  }

  /** `static_rotation`: the same shape at all four directions. */
  function StaticRotation(piece: MinoVariant, shape: seq<Offset>): (r: seq<(TetrominoState, seq<Offset>)>)
    ensures |r| == 4
    ensures forall k :: 0 <= k < 4 ==> r[k] == ((piece, DirectionFromI8(k)), shape)
  {
    [((piece, DirectionFromI8(0)), shape),
     ((piece, DirectionFromI8(1)), shape),
     ((piece, DirectionFromI8(2)), shape),
     ((piece, DirectionFromI8(3)), shape)]
  }

  /** The up shapes the table is built from; I's four entries are written out instead. */
  function UpShape(v: MinoVariant): (shape: seq<Offset>)
    ensures |shape| == 4 && Negatable(shape)
  {
    match v
    case T => [(-1, 0), (0, 0), (1, 0), (0, 1)]
    case L => [(1, 1), (-1, 0), (0, 0), (1, 0)]
    case J => [(-1, 1), (-1, 0), (0, 0), (1, 0)]
    case O => [(0, 0), (0, 1), (1, 0), (1, 1)]
    case S => [(0, 0), (-1, 0), (0, 1), (1, 1)]
    case Z => [(0, 0), (1, 0), (0, 1), (-1, 1)]
    case I => IShape(Up)
  }

  /** The I entries, written out by direction name. */
  function IEntries(): seq<(TetrominoState, seq<Offset>)>
  {
    [((I, Up), [(2, 0), (-1, 0), (0, 0), (1, 0)]),
     ((I, Left), [(0, 1), (0, 0), (0, -1), (0, -2)]),
     ((I, Down), [(2, -1), (-1, -1), (0, -1), (1, -1)]),
     ((I, Right), [(1, 1), (1, 0), (1, -1), (1, -2)])]
  }

  /** The flattened list `ROTATION_TABLE` is collected from. */
  function RotationEntries(): seq<(TetrominoState, seq<Offset>)>
  {
    CenterOfMassRotation(T, UpShape(T))
    + CenterOfMassRotation(L, UpShape(L))
    + CenterOfMassRotation(J, UpShape(J))
    + StaticRotation(O, UpShape(O))
    + CenterOfMassRotation(S, UpShape(S))
    + CenterOfMassRotation(Z, UpShape(Z))
    + IEntries()
  }

  function RotationTable(): map<TetrominoState, seq<Offset>>
  {
    Collect(RotationEntries())
  }

  /** The order of the variants' blocks in `ROTATION_TABLE`. */
  function Block(v: MinoVariant): int
  {
    match v case T => 0 case L => 1 case J => 2 case O => 3 case S => 4 case Z => 5 case I => 6
  }

  /** The position of a state's entry in the flattened list, numbering the blocks in order. */
  function RotationNumber(s: TetrominoState): int
  {
    var block := Block(s.0);
    var slot := if s.0 == I then (match s.1 case Up => 0 case Left => 1 case Down => 2 case Right => 3)
                else DirectionValue(s.1);
    4 * block + slot
  }

  lemma DirectionRoundTrip(d: Direction)
    ensures DirectionFromI8(DirectionValue(d)) == d
  {
    DirectionValueInjective(DirectionFromI8(DirectionValue(d)), d);
  }

  /** Each turned block holds the k-th power of the quarter turn at direction k. */
  lemma TurnedBlock(v: MinoVariant, d: Direction)
    requires v != O && v != I
    ensures NumberedFrom(CenterOfMassRotation(v, UpShape(v)), RotationNumber, 4 * Block(v))
    ensures ((v, d), Offsets.MapQuarter(UpShape(v), DirectionValue(d))) in CenterOfMassRotation(v, UpShape(v))
  {
    var b := CenterOfMassRotation(v, UpShape(v));
    DirectionRoundTrip(d);
    assert b[DirectionValue(d)] == ((v, d), Offsets.MapQuarter(UpShape(v), DirectionValue(d)));
  }

  lemma StaticBlock(d: Direction)
    ensures NumberedFrom(StaticRotation(O, UpShape(O)), RotationNumber, 4 * Block(O))
    ensures ((O, d), UpShape(O)) in StaticRotation(O, UpShape(O))
  {
    DirectionRoundTrip(d);
    assert StaticRotation(O, UpShape(O))[DirectionValue(d)] == ((O, d), UpShape(O));
  }

  /** The written I shape at each direction. */
  function IShape(d: Direction): seq<Offset>
  {
    match d
    case Up => [(2, 0), (-1, 0), (0, 0), (1, 0)]
    case Left => [(0, 1), (0, 0), (0, -1), (0, -2)]
    case Down => [(2, -1), (-1, -1), (0, -1), (1, -1)]
    case Right => [(1, 1), (1, 0), (1, -1), (1, -2)]
  }

  lemma IBlock(d: Direction)
    ensures NumberedFrom(IEntries(), RotationNumber, 4 * Block(I))
    ensures ((I, d), IShape(d)) in IEntries()
  {
    assert IEntries()[RotationNumber((I, d)) - 24] == ((I, d), IShape(d));
  }

  lemma {:induction false} RotationKeysDistinct()
    ensures Distinct(Keys(RotationEntries()))
  {
    hide CenterOfMassRotation, StaticRotation, UpShape, RotationNumber;
    TurnedBlock(T, Up);
    TurnedBlock(L, Up);
    TurnedBlock(J, Up);
    StaticBlock(Up);
    TurnedBlock(S, Up);
    TurnedBlock(Z, Up);
    var t, l, j, o := CenterOfMassRotation(T, UpShape(T)), CenterOfMassRotation(L, UpShape(L)),
      CenterOfMassRotation(J, UpShape(J)), StaticRotation(O, UpShape(O));
    var s, z := CenterOfMassRotation(S, UpShape(S)), CenterOfMassRotation(Z, UpShape(Z));
    NumberedConcat(t, l, RotationNumber, 0);
    NumberedConcat(t + l, j, RotationNumber, 0);
    NumberedConcat(t + l + j, o, RotationNumber, 0);
    NumberedConcat(t + l + j + o, s, RotationNumber, 0);
    NumberedConcat(t + l + j + o + s, z, RotationNumber, 0);
    IBlock(Up);
    NumberedConcat(t + l + j + o + s + z, IEntries(), RotationNumber, 0);
    NumberedDistinct(RotationEntries(), RotationNumber);
  }

  /** The table has one entry for each of the 7 x 4 states. */
  lemma RotationTableSize()
    ensures |RotationTable()| == 28
  {
    RotationKeysDistinct();
    CollectSize(RotationEntries());
  }

  /**
   * Every state has an entry, so the `unwrap` in `Mino::position` never panics; T, L, J, S
   * and Z hold the k-th quarter turn of their up shape at direction k, O the same shape at
   * every direction, and I the shapes as written.
   */
  lemma RotationTableShapes(v: MinoVariant, d: Direction)
    ensures (v, d) in RotationTable()
    ensures v != O && v != I ==> RotationTable()[(v, d)] == Offsets.MapQuarter(UpShape(v), DirectionValue(d))
    ensures v == O ==> RotationTable()[(v, d)] == UpShape(O)
    ensures v == I ==> RotationTable()[(v, d)] == IShape(d)
  {
    hide CenterOfMassRotation, StaticRotation, UpShape, IShape, IEntries, RotationNumber;
    RotationKeysDistinct();
    var e := RotationEntries();
    var entry := if v == O then ((v, d), UpShape(O))
                 else if v == I then ((v, d), IShape(d))
                 else ((v, d), Offsets.MapQuarter(UpShape(v), DirectionValue(d)));
    if v == O {
      StaticBlock(d);
    } else if v == I {
      IBlock(d);
    } else {
      TurnedBlock(v, d);
    }
    assert entry in e;
    CollectHas(e, entry.0, entry.1);
  }

  /** Every state's entry holds four offsets. */
  lemma RotationTableEntry(v: MinoVariant, d: Direction)
    ensures (v, d) in RotationTable() && |RotationTable()[(v, d)]| == 4
  {
    hide RotationTable, UpShape;
    RotationTableShapes(v, d);
  }
}
