/**
 * bsr-tools' cell-offset lists and tables: `Positions` (the cells a piece occupies) with its
 * translations and its sort by height, the rotation table from (variant, direction) to the
 * four cell offsets of that state, and the SRS+ kick table from a rotation to its list of
 * candidate offsets.
 */
module BsrKickTable {

  import Offsets
  import opened Tables
  import opened BsrTetromino

  /** An (i8, i8) offset written in the tables. */
  type Offset = (int, int)

  ghost predicate InI8Offsets(cells: seq<Offset>)
  {
    forall k :: 0 <= k < |cells| ==> Offsets.InI8(cells[k].0) && Offsets.InI8(cells[k].1)
  }

  // ---------------------------------------------------------------------------------------
  // Positions

  /**
   * `Positions + (i8, i8)`: every cell moved in place by the offset. An `isize` overflow of
   * `+=` panics, so the moved cells must fit.
   */
  method AddI8(p: array<Offsets.Cell>, dx: int, dy: int)
    requires Offsets.InI8(dx) && Offsets.InI8(dy)
    requires Offsets.TranslateFits(p[..], dx, dy)
    modifies p
    ensures p[..] == Offsets.Translate(old(p[..]), dx, dy)
  {
    Offsets.TranslateInPlace(p, dx, dy);
  }

  /**
   * `Positions + (usize, usize)`: as above, with each coordinate first cast `as isize`, which
   * reinterprets values from 2^63 upward as negative.
   */
  method AddUsize(p: array<Offsets.Cell>, dx: int, dy: int)
    requires Offsets.InUsize(dx) && Offsets.InUsize(dy)
    requires Offsets.TranslateFits(p[..], Offsets.UsizeAsIsize(dx), Offsets.UsizeAsIsize(dy))
    modifies p
    ensures p[..] == Offsets.Translate(old(p[..]), Offsets.UsizeAsIsize(dx), Offsets.UsizeAsIsize(dy))
  {
    Offsets.TranslateInPlace(p, Offsets.UsizeAsIsize(dx), Offsets.UsizeAsIsize(dy));
  }

  /** `Positions::iter`: the cells in their stored order. */
  function Iter(p: seq<Offsets.Cell>): (r: seq<Offsets.Cell>)
    ensures |r| == |p|
    ensures forall k :: 0 <= k < |r| ==> r[k] == p[k]
  {
    p
  }

  /** `Positions::lowest_first`: a stable sort of the cells by nondecreasing y. */
  method LowestFirst(p: array<Offsets.Cell>)
    modifies p
    ensures Offsets.SortedByY(p[..])
    ensures Offsets.SameAtEveryHeight(old(p[..]), p[..])
    ensures multiset(p[..]) == multiset(old(p[..]))
  {
    Offsets.SortByHeight(p);
  }

  // ---------------------------------------------------------------------------------------
  // Rotation table

  type TetrominoState = (MinoVariant, Direction)

  /** The table values are negated, so none may be -128, where i8 negation overflows. */
  ghost predicate Negatable(cells: seq<Offset>)
  {
    forall k :: 0 <= k < |cells| ==> -127 <= cells[k].0 <= 127 && -127 <= cells[k].1 <= 127
  }

  /**
   * `center_of_mass_rotation`: the shape as given for direction 0 and, for directions 1, 2
   * and 3, the shape mapped by (y, -x), (-x, -y) and (-y, x) respectively, which are the
   * first three powers of the quarter turn.
   */
  function CenterOfMassRotation(piece: MinoVariant, up: seq<Offset>): (r: seq<(TetrominoState, seq<Offset>)>)
    requires |up| == 4 && Negatable(up)
    ensures |r| == 4
    ensures forall k :: 0 <= k < 4 ==> r[k].0 == (piece, DirectionFromI8(k))
    ensures forall k :: 0 <= k < 4 ==> r[k].1 == Offsets.MapQuarter(up, k)
  {
    var turned := seq(4, k requires 0 <= k < 4 => (up[k].1, -up[k].0));
    var flipped := seq(4, k requires 0 <= k < 4 => (-up[k].0, -up[k].1));
    var back := seq(4, k requires 0 <= k < 4 => (-up[k].1, up[k].0));
    assert turned == Offsets.MapQuarter(up, 1) && flipped == Offsets.MapQuarter(up, 2) by {
      forall k | 0 <= k < 4 ensures turned[k] == Offsets.QuarterPow(up[k], 1)
        && flipped[k] == Offsets.QuarterPow(up[k], 2) && back[k] == Offsets.QuarterPow(up[k], 3)
      {
        Offsets.QuarterPowers(up[k]);
      }
    }
    [((piece, DirectionFromI8(0)), up),
     ((piece, DirectionFromI8(1)), turned),
     ((piece, DirectionFromI8(2)), flipped),
     ((piece, DirectionFromI8(3)), back)]
  }

  /** `static_rotation`: the same shape at all four directions. */
  function StaticRotation(piece: MinoVariant, shape: seq<Offset>): (r: seq<(TetrominoState, seq<Offset>)>)
    ensures |r| == 4
    ensures forall k :: 0 <= k < 4 ==> r[k] == ((piece, DirectionFromI8(k)), shape)
  {
    [((piece, DirectionFromI8(0)), shape),
     ((piece, DirectionFromI8(1)), shape),
     ((piece, DirectionFromI8(2)), shape),
     ((piece, DirectionFromI8(3)), shape)]
  }

  /** The up shapes the table is built from; I's four entries are written out instead. */
  function UpShape(v: MinoVariant): (shape: seq<Offset>)
    ensures |shape| == 4 && Negatable(shape)
  {
    match v
    case T => [(-1, 0), (0, 0), (1, 0), (0, 1)]
    case L => [(1, 1), (-1, 0), (0, 0), (1, 0)]
    case J => [(-1, 1), (-1, 0), (0, 0), (1, 0)]
    case O => [(0, 0), (0, 1), (1, 0), (1, 1)]
    case S => [(0, 0), (-1, 0), (0, 1), (1, 1)]
    case Z => [(0, 0), (1, 0), (0, 1), (-1, 1)]
    case I => IShape(Up)
  }

  /** The I entries, written out by direction name. */
  function IEntries(): seq<(TetrominoState, seq<Offset>)>
  {
    [((I, Up), [(-2, 0), (-1, 0), (0, 0), (1, 0)]),
     ((I, Left), [(0, 1), (0, 0), (0, -1), (0, -2)]),
     ((I, Down), [(-2, -1), (-1, -1), (0, -1), (1, -1)]),
     ((I, Right), [(-1, 1), (-1, 0), (-1, -1), (-1, -2)])]
  }

  /** The flattened list `ROTATION_TABLE` is collected from. */
  function RotationEntries(): seq<(TetrominoState, seq<Offset>)>
  {
    CenterOfMassRotation(T, UpShape(T))
    + CenterOfMassRotation(L, UpShape(L))
    + CenterOfMassRotation(J, UpShape(J))
    + StaticRotation(O, UpShape(O))
    + CenterOfMassRotation(S, UpShape(S))
    + CenterOfMassRotation(Z, UpShape(Z))
    + IEntries()
  }

  function RotationTable(): map<TetrominoState, seq<Offset>>
  {
    Collect(RotationEntries())
  }

  /** The order of the variants' blocks in `ROTATION_TABLE`. */
  function Block(v: MinoVariant): int
  {
    match v case T => 0 case L => 1 case J => 2 case O => 3 case S => 4 case Z => 5 case I => 6
  }

  /** The position of a state's entry in the flattened list, numbering the blocks in order. */
  function RotationNumber(s: TetrominoState): int
  {
    var block := Block(s.0);
    var slot := if s.0 == I then (match s.1 case Up => 0 case Left => 1 case Down => 2 case Right => 3)
                else DirectionValue(s.1);
    4 * block + slot
  }

  lemma DirectionRoundTrip(d: Direction)
    ensures DirectionFromI8(DirectionValue(d)) == d
  {
    DirectionValueInjective(DirectionFromI8(DirectionValue(d)), d);
  }

  /** Each turned block holds the k-th power of the quarter turn at direction k. */
  lemma TurnedBlock(v: MinoVariant, d: Direction)
    requires v != O && v != I
    ensures NumberedFrom(CenterOfMassRotation(v, UpShape(v)), RotationNumber, 4 * Block(v))
    ensures ((v, d), Offsets.MapQuarter(UpShape(v), DirectionValue(d))) in CenterOfMassRotation(v, UpShape(v))
  {
    var b := CenterOfMassRotation(v, UpShape(v));
    DirectionRoundTrip(d);
    assert b[DirectionValue(d)] == ((v, d), Offsets.MapQuarter(UpShape(v), DirectionValue(d)));
  }

  lemma StaticBlock(d: Direction)
    ensures NumberedFrom(StaticRotation(O, UpShape(O)), RotationNumber, 4 * Block(O))
    ensures ((O, d), UpShape(O)) in StaticRotation(O, UpShape(O))
  {
    DirectionRoundTrip(d);
    assert StaticRotation(O, UpShape(O))[DirectionValue(d)] == ((O, d), UpShape(O));
  }

  /** The written I shape at each direction. */
  function IShape(d: Direction): seq<Offset>
  {
    match d
    case Up => [(-2, 0), (-1, 0), (0, 0), (1, 0)]
    case Left => [(0, 1), (0, 0), (0, -1), (0, -2)]
    case Down => [(-2, -1), (-1, -1), (0, -1), (1, -1)]
    case Right => [(-1, 1), (-1, 0), (-1, -1), (-1, -2)]
  }

  lemma IBlock(d: Direction)
    ensures NumberedFrom(IEntries(), RotationNumber, 4 * Block(I))
    ensures ((I, d), IShape(d)) in IEntries()
  {
    assert IEntries()[RotationNumber((I, d)) - 24] == ((I, d), IShape(d));
  }

  lemma {:induction false} RotationKeysDistinct()
    ensures Distinct(Keys(RotationEntries()))
  {
    hide CenterOfMassRotation, StaticRotation, UpShape, RotationNumber;
    TurnedBlock(T, Up);
    TurnedBlock(L, Up);
    TurnedBlock(J, Up);
    StaticBlock(Up);
    TurnedBlock(S, Up);
    TurnedBlock(Z, Up);
    var t, l, j, o := CenterOfMassRotation(T, UpShape(T)), CenterOfMassRotation(L, UpShape(L)),
      CenterOfMassRotation(J, UpShape(J)), StaticRotation(O, UpShape(O));
    var s, z := CenterOfMassRotation(S, UpShape(S)), CenterOfMassRotation(Z, UpShape(Z));
    NumberedConcat(t, l, RotationNumber, 0);
    NumberedConcat(t + l, j, RotationNumber, 0);
    NumberedConcat(t + l + j, o, RotationNumber, 0);
    NumberedConcat(t + l + j + o, s, RotationNumber, 0);
    NumberedConcat(t + l + j + o + s, z, RotationNumber, 0);
    IBlock(Up);
    NumberedConcat(t + l + j + o + s + z, IEntries(), RotationNumber, 0);
    NumberedDistinct(RotationEntries(), RotationNumber);
  }

  /** The table has one entry for each of the 7 x 4 states. */
  lemma RotationTableSize()
    ensures |RotationTable()| == 28
  {
    RotationKeysDistinct();
    CollectSize(RotationEntries());
  }

  /**
   * Every state has an entry, so the `unwrap` in `Mino::position` never panics; T, L, J, S
   * and Z hold the k-th quarter turn of their up shape at direction k, O the same shape at
   * every direction, and I the shapes as written.
   */
  lemma RotationTableShapes(v: MinoVariant, d: Direction)
    ensures (v, d) in RotationTable()
    ensures v != O && v != I ==> RotationTable()[(v, d)] == Offsets.MapQuarter(UpShape(v), DirectionValue(d))
    ensures v == O ==> RotationTable()[(v, d)] == UpShape(O)
    ensures v == I ==> RotationTable()[(v, d)] == IShape(d)
  {
    hide CenterOfMassRotation, StaticRotation, UpShape, IShape, IEntries, RotationNumber;
    RotationKeysDistinct();
    var e := RotationEntries();
    var entry := if v == O then ((v, d), UpShape(O))
                 else if v == I then ((v, d), IShape(d))
                 else ((v, d), Offsets.MapQuarter(UpShape(v), DirectionValue(d)));
    if v == O {
      StaticBlock(d);
    } else if v == I {
      IBlock(d);
    } else {
      TurnedBlock(v, d);
    }
    assert entry in e;
    CollectHas(e, entry.0, entry.1);
  }

  /** Every state's entry holds four offsets. */
  lemma RotationTableEntry(v: MinoVariant, d: Direction)
    ensures (v, d) in RotationTable() && |RotationTable()[(v, d)]| == 4
  {
    hide RotationTable, UpShape;
    RotationTableShapes(v, d);
  }

  // ---------------------------------------------------------------------------------------
  // SRS+ kick table

  /** The kick macro's `from.into()` and `to.try_into().unwrap()`: both go through `From<i8>`. */
  function Turn(piece: MinoVariant, from: int, to: int): Rotation
    requires 0 <= from < 4 && 0 <= to < 4
  {
    Rotation(piece, DirectionFromI8(from), DirectionFromI8(to))
  }

  /** The standard SRS kicks, the same lists for every piece they are written for. */
  function StandardKicks(v: MinoVariant): seq<(Rotation, seq<Offset>)>
  {
    [(Turn(v, 0, 1), [(-1, 0), (-1, 1), (0, -2), (-1, -2)]),
     (Turn(v, 1, 0), [(1, 0), (1, -1), (0, 2), (1, 2)]),
     (Turn(v, 1, 2), [(1, 0), (1, -1), (0, 2), (1, 2)]),
     (Turn(v, 2, 1), [(-1, 0), (-1, 1), (0, 2), (-1, -2)]),
     (Turn(v, 2, 3), [(1, 0), (1, 1), (0, -2), (1, -2)]),
     (Turn(v, 3, 2), [(-1, 0), (-1, -1), (0, 2), (-1, 2)]),
     (Turn(v, 3, 0), [(-1, 0), (-1, -1), (0, 2), (-1, 2)]),
     (Turn(v, 0, 3), [(1, 0), (1, 1), (0, -2), (1, -2)])]
  }

  /** The I quarter-turn kicks, then the I half-turn kicks. */
  function IKicks(): seq<(Rotation, seq<Offset>)>
  {
    [(Turn(I, 0, 1), [(1, 0), (-2, 0), (1, -2), (-2, 1)]),
     (Turn(I, 1, 0), [(-1, 0), (2, 0), (-1, 2), (2, -1)]),
     (Turn(I, 1, 2), [(-1, 0), (2, 0), (-1, -2), (2, 1)]),
     (Turn(I, 2, 1), [(-2, 0), (1, 0), (-2, -1), (1, 2)]),
     (Turn(I, 2, 3), [(2, 0), (-1, 0), (2, -1), (-1, 2)]),
     (Turn(I, 3, 2), [(1, 0), (-2, 0), (1, -2), (-2, 1)]),
     (Turn(I, 3, 0), [(1, 0), (-2, 0), (1, 2), (-2, -1)]),
     (Turn(I, 0, 3), [(-1, 0), (2, 0), (-1, -2), (2, 1)]),
     (Turn(I, 0, 2), [(0, -1)]),
     (Turn(I, 1, 3), [(1, 0)]),
     (Turn(I, 2, 0), [(0, 1)]),
     (Turn(I, 3, 1), [(-1, 0)])]
  }

  /** The T half-turn kicks. */
  function THalfKicks(): seq<(Rotation, seq<Offset>)>
  {
    [(Turn(T, 0, 2), [(0, 1), (1, 1), (-1, 1), (1, 0), (-1, 0)]),
     (Turn(T, 2, 0), [(0, -1), (-1, -1), (1, -1), (-1, 0), (1, 0)]),
     (Turn(T, 1, 3), [(1, 0), (1, 2), (1, 1), (0, 2), (0, 1)]),
     (Turn(T, 3, 1), [(-1, 0), (-1, 2), (-1, 1), (0, 2), (0, 1)])]
  }

  /** The chained list `SRS_PLUS` is collected from. */
  function SrsPlusEntries(): seq<(Rotation, seq<Offset>)>
  {
    StandardKicks(J) + StandardKicks(L) + StandardKicks(T) + StandardKicks(S) + StandardKicks(Z)
    + IKicks() + THalfKicks()
  }

  function SrsPlus(): map<Rotation, seq<Offset>>
  {
    Collect(SrsPlusEntries())
  }

  predicate IsQuarterTurn(r: Rotation)
  {
    DirectionValue(r.to) == (DirectionValue(r.from) + 1) % 4
    || DirectionValue(r.to) == (DirectionValue(r.from) + 3) % 4
  }

  predicate IsHalfTurn(r: Rotation)
  {
    DirectionValue(r.to) == (DirectionValue(r.from) + 2) % 4
  }

  /** The rotations SRS+ has kicks for: every quarter turn of a piece other than O, and the half turns of I and T. */
  predicate HasKicks(r: Rotation)
  {
    r.piece != O && (IsQuarterTurn(r) || (IsHalfTurn(r) && (r.piece == I || r.piece == T)))
  }

  /** What each written list looks like: four candidates for a quarter turn, five for a T half turn, one for an I half turn. */
  predicate WrittenKicks(r: Rotation, kicks: seq<Offset>)
  {
    && HasKicks(r)
    && |kicks| == (if IsQuarterTurn(r) then 4 else if r.piece == T then 5 else 1)
  }

  function KickBlock(v: MinoVariant): int
  {
    match v case J => 0 case L => 1 case T => 2 case S => 3 case Z => 4 case I => 5 case O => 6
  }

  /** The place of a quarter turn inside a block of eight, in the written order; 8 for any other turn. */
  function QuarterSlot(from: Direction, to: Direction): int
  {
    match (from, to)
    case (Up, Right) => 0 case (Right, Up) => 1 case (Right, Down) => 2 case (Down, Right) => 3
    case (Down, Left) => 4 case (Left, Down) => 5 case (Left, Up) => 6 case (Up, Left) => 7
    case _ => 8
  }

  lemma QuarterSlotOfQuarterTurns(r: Rotation)
    ensures QuarterSlot(r.from, r.to) < 8 <==> IsQuarterTurn(r)
  {
  }

  /** The position of a rotation's entry in the chained list. */
  function KickNumber(r: Rotation): int
  {
    if QuarterSlot(r.from, r.to) < 8 then 8 * KickBlock(r.piece) + QuarterSlot(r.from, r.to)
    else if r.piece == I then 48 + DirectionValue(r.from)
    else if r.piece == T then 52 + (match r.from case Up => 0 case Down => 1 case Right => 2 case Left => 3)
    else -1
  }

  /** The `into()` conversions of the literals the table is written with. */
  lemma SmallDirections()
    ensures DirectionFromI8(0) == Up && DirectionFromI8(1) == Right
    ensures DirectionFromI8(2) == Down && DirectionFromI8(3) == Left
  {
  }

  lemma StandardNumbered(v: MinoVariant)
    ensures NumberedFrom(StandardKicks(v), KickNumber, 8 * KickBlock(v)) && |StandardKicks(v)| == 8
  {
    SmallDirections();
    hide DirectionFromI8;
  }

  lemma StandardWritten(v: MinoVariant)
    requires v != O && v != I
    ensures AllEntries(StandardKicks(v), WrittenKicks)
  {
    SmallDirections();
    hide DirectionFromI8;
  }

  lemma StandardHas(v: MinoVariant, r: Rotation)
    requires r.piece == v && IsQuarterTurn(r)
    ensures r in Keys(StandardKicks(v))
  {
    SmallDirections();
    hide DirectionFromI8;
    var k := QuarterSlot(r.from, r.to);
    assert StandardKicks(v)[k].0 == r;
  }

  lemma IKicksNumbered()
    ensures NumberedFrom(IKicks(), KickNumber, 8 * KickBlock(I)) && |IKicks()| == 12
  {
    SmallDirections();
    hide DirectionFromI8;
  }

  lemma IKicksWritten()
    ensures AllEntries(IKicks(), WrittenKicks)
  {
    SmallDirections();
    hide DirectionFromI8;
  }

  lemma IKicksHas(r: Rotation)
    requires r.piece == I && HasKicks(r)
    ensures r in Keys(IKicks())
  {
    SmallDirections();
    hide DirectionFromI8;
    QuarterSlotOfQuarterTurns(r);
    assert IKicks()[KickNumber(r) - 40].0 == r;
  }

  lemma THalfNumbered()
    ensures NumberedFrom(THalfKicks(), KickNumber, 52)
  {
    SmallDirections();
    hide DirectionFromI8;
  }

  lemma THalfWritten()
    ensures AllEntries(THalfKicks(), WrittenKicks)
  {
    SmallDirections();
    hide DirectionFromI8;
  }

  lemma THalfHas(r: Rotation)
    requires r.piece == T && IsHalfTurn(r)
    ensures r in Keys(THalfKicks())
  {
    SmallDirections();
    hide DirectionFromI8;
    QuarterSlotOfQuarterTurns(r);
    assert THalfKicks()[KickNumber(r) - 52].0 == r;
  }

  /** No two entries of the chained list share a rotation. */
  lemma SrsPlusKeysDistinct()
    ensures Distinct(Keys(SrsPlusEntries()))
  {
    hide StandardKicks, IKicks, THalfKicks, KickNumber;
    StandardNumbered(J);
    StandardNumbered(L);
    StandardNumbered(T);
    StandardNumbered(S);
    StandardNumbered(Z);
    IKicksNumbered();
    THalfNumbered();
    var jl := StandardKicks(J) + StandardKicks(L);
    NumberedConcat(StandardKicks(J), StandardKicks(L), KickNumber, 0);
    NumberedConcat(jl, StandardKicks(T), KickNumber, 0);
    NumberedConcat(jl + StandardKicks(T), StandardKicks(S), KickNumber, 0);
    NumberedConcat(jl + StandardKicks(T) + StandardKicks(S), StandardKicks(Z), KickNumber, 0);
    var std := jl + StandardKicks(T) + StandardKicks(S) + StandardKicks(Z);
    NumberedConcat(std, IKicks(), KickNumber, 0);
    NumberedConcat(std + IKicks(), THalfKicks(), KickNumber, 0);
    NumberedDistinct(SrsPlusEntries(), KickNumber);
  }

  /** `SRS_PLUS` holds 56 rotations: eight quarter turns for each of J, L, T, S, Z and I, and four half turns for each of I and T. */
  lemma SrsPlusSize()
    ensures |SrsPlus()| == 56
  {
    SrsPlusKeysDistinct();
    CollectSize(SrsPlusEntries());
  }

  /** Every written list is the one the table returns for its rotation. */
  lemma SrsPlusLookup(i: int)
    requires 0 <= i < |SrsPlusEntries()|
    ensures SrsPlusEntries()[i].0 in SrsPlus()
    ensures SrsPlus()[SrsPlusEntries()[i].0] == SrsPlusEntries()[i].1
  {
    SrsPlusKeysDistinct();
    CollectLookup(SrsPlusEntries(), i);
  }

  /** Every entry of the chained list is a rotation with kicks and a list of the written length. */
  lemma SrsPlusEntriesWritten()
    ensures AllEntries(SrsPlusEntries(), WrittenKicks)
  {
    hide StandardKicks, IKicks, THalfKicks, WrittenKicks;
    StandardWritten(J);
    StandardWritten(L);
    StandardWritten(T);
    StandardWritten(S);
    StandardWritten(Z);
    IKicksWritten();
    THalfWritten();
    var jl := StandardKicks(J) + StandardKicks(L);
    AllEntriesConcat(StandardKicks(J), StandardKicks(L), WrittenKicks);
    AllEntriesConcat(jl, StandardKicks(T), WrittenKicks);
    AllEntriesConcat(jl + StandardKicks(T), StandardKicks(S), WrittenKicks);
    AllEntriesConcat(jl + StandardKicks(T) + StandardKicks(S), StandardKicks(Z), WrittenKicks);
    var std := jl + StandardKicks(T) + StandardKicks(S) + StandardKicks(Z);
    AllEntriesConcat(std, IKicks(), WrittenKicks);
    AllEntriesConcat(std + IKicks(), THalfKicks(), WrittenKicks);
  }

  /** Every rotation with kicks has an entry. */
  lemma SrsPlusEntriesHave(r: Rotation)
    requires HasKicks(r)
    ensures r in Keys(SrsPlusEntries())
  {
    hide StandardKicks, IKicks, THalfKicks;
    var jl := StandardKicks(J) + StandardKicks(L);
    var std := jl + StandardKicks(T) + StandardKicks(S) + StandardKicks(Z);
    KeysConcat(StandardKicks(J), StandardKicks(L));
    KeysConcat(jl, StandardKicks(T));
    KeysConcat(jl + StandardKicks(T), StandardKicks(S));
    KeysConcat(jl + StandardKicks(T) + StandardKicks(S), StandardKicks(Z));
    KeysConcat(std, IKicks());
    KeysConcat(std + IKicks(), THalfKicks());
    if r.piece == I {
      IKicksHas(r);
    } else if r.piece == T && IsHalfTurn(r) {
      THalfHas(r);
    } else {
      StandardHas(r.piece, r);
    }
  }

  /**
   * The rotations with kicks are exactly the quarter turns of every piece but O and the half
   * turns of I and T; their lists hold four, five (T half turn) or one (I half turn) candidates.
   */
  lemma SrsPlusKeys(r: Rotation)
    ensures r in SrsPlus() <==> HasKicks(r)
    ensures r in SrsPlus() ==> WrittenKicks(r, SrsPlus()[r])
  {
    SrsPlusKeysDistinct();
    SrsPlusEntriesWritten();
    if r in SrsPlus() {
      CollectAll(SrsPlusEntries(), WrittenKicks, r);
    }
    if HasKicks(r) {
      SrsPlusEntriesHave(r);
    }
  }

  /** Where a piece's block of standard kicks sits in the chained list. */
  lemma StandardAt(v: MinoVariant, k: int)
    requires v != O && v != I && 0 <= k < 8
    ensures 8 * KickBlock(v) + k < |SrsPlusEntries()|
    ensures SrsPlusEntries()[8 * KickBlock(v) + k] == StandardKicks(v)[k]
  {
    hide StandardKicks, IKicks, THalfKicks;
    StandardNumbered(J);
    StandardNumbered(L);
    StandardNumbered(T);
    StandardNumbered(S);
    StandardNumbered(Z);
  }

  /** Each standard block is the J block with the piece renamed; the slot of a quarter turn holds that turn. */
  lemma StandardEntry(v: MinoVariant, from: Direction, to: Direction)
    requires QuarterSlot(from, to) < 8
    ensures StandardKicks(v)[QuarterSlot(from, to)].0 == Rotation(v, from, to)
    ensures StandardKicks(v)[QuarterSlot(from, to)].1 == StandardKicks(J)[QuarterSlot(from, to)].1
  {
    SmallDirections();
    hide DirectionFromI8;
  }

  /** The table's list for a standard-kick rotation, read off the written block. */
  lemma StandardLookup(v: MinoVariant, from: Direction, to: Direction)
    requires v != O && v != I && QuarterSlot(from, to) < 8
    ensures Rotation(v, from, to) in SrsPlus()
    ensures SrsPlus()[Rotation(v, from, to)] == StandardKicks(J)[QuarterSlot(from, to)].1
  {
    hide SrsPlus, SrsPlusEntries, StandardKicks;
    var k := QuarterSlot(from, to);
    StandardAt(v, k);
    SrsPlusLookup(8 * KickBlock(v) + k);
    StandardEntry(v, from, to);
  }

  /**
   * J, L, T, S and Z share their quarter-turn lists, and within them the turns out of Right
   * share one list, the turns out of Left share another, and Down to Left equals Up to Left.
   */
  lemma SrsPlusSharedLists(v: MinoVariant, w: MinoVariant, from: Direction, to: Direction)
    requires v != O && v != I && w != O && w != I && QuarterSlot(from, to) < 8
    ensures Rotation(v, from, to) in SrsPlus() && Rotation(w, from, to) in SrsPlus()
    ensures SrsPlus()[Rotation(v, from, to)] == SrsPlus()[Rotation(w, from, to)]
    ensures Rotation(v, Right, Up) in SrsPlus() && Rotation(v, Right, Down) in SrsPlus()
    ensures SrsPlus()[Rotation(v, Right, Up)] == SrsPlus()[Rotation(v, Right, Down)]
    ensures Rotation(v, Left, Down) in SrsPlus() && Rotation(v, Left, Up) in SrsPlus()
    ensures SrsPlus()[Rotation(v, Left, Down)] == SrsPlus()[Rotation(v, Left, Up)]
    ensures Rotation(v, Down, Left) in SrsPlus() && Rotation(v, Up, Left) in SrsPlus()
    ensures SrsPlus()[Rotation(v, Down, Left)] == SrsPlus()[Rotation(v, Up, Left)]
  {
    hide SrsPlus;
    StandardLookup(v, from, to);
    StandardLookup(w, from, to);
    StandardLookup(v, Right, Up);
    StandardLookup(v, Right, Down);
    StandardLookup(v, Left, Down);
    StandardLookup(v, Left, Up);
    StandardLookup(v, Down, Left);
    StandardLookup(v, Up, Left);
  }
}
