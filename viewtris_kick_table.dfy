/**
 * viewtris' SRS+ kick table: for each rotation the candidate offsets in the order they are
 * tried. The data are bsr-tools' table, built here with `flat_map`. The types come from
 * viewtris' tetromino module, which is not part of this model; the bsr-tools definitions
 * stand in for them, with `Direction` assumed to be numbered as in bsr-tools.
 */
module ViewtrisKickTable {

  import opened Tables
  import opened BsrTetromino

  type Offset = (int, int)

  /** The kick macro's `from.into()` and `to.try_into().unwrap()`: both go through `From<i8>`. */
  function Turn(piece: MinoVariant, from: int, to: int): Rotation
    requires 0 <= from < 4 && 0 <= to < 4
  {
    Rotation(piece, DirectionFromI8(from), DirectionFromI8(to))
  }

  /** The standard SRS kicks, the same lists for every piece they are written for. */
  function StandardKicks(v: MinoVariant): seq<(Rotation, seq<Offset>)>
  {
    [(Turn(v, 0, 1), [(-1, 0), (-1, 1), (0, -2), (-1, -2)]),
     (Turn(v, 1, 0), [(1, 0), (1, -1), (0, 2), (1, 2)]),
     (Turn(v, 1, 2), [(1, 0), (1, -1), (0, 2), (1, 2)]),
     (Turn(v, 2, 1), [(-1, 0), (-1, 1), (0, 2), (-1, -2)]),
     (Turn(v, 2, 3), [(1, 0), (1, 1), (0, -2), (1, -2)]),
     (Turn(v, 3, 2), [(-1, 0), (-1, -1), (0, 2), (-1, 2)]),
     (Turn(v, 3, 0), [(-1, 0), (-1, -1), (0, 2), (-1, 2)]),
     (Turn(v, 0, 3), [(1, 0), (1, 1), (0, -2), (1, -2)])]
  }

  /** The I quarter-turn kicks, then the I half-turn kicks. */
  function IKicks(): seq<(Rotation, seq<Offset>)>
  {
    [(Turn(I, 0, 1), [(1, 0), (-2, 0), (1, -2), (-2, 1)]),
     (Turn(I, 1, 0), [(-1, 0), (2, 0), (-1, 2), (2, -1)]),
     (Turn(I, 1, 2), [(-1, 0), (2, 0), (-1, -2), (2, 1)]),
     (Turn(I, 2, 1), [(-2, 0), (1, 0), (-2, -1), (1, 2)]),
     (Turn(I, 2, 3), [(2, 0), (-1, 0), (2, -1), (-1, 2)]),
     (Turn(I, 3, 2), [(1, 0), (-2, 0), (1, -2), (-2, 1)]),
     (Turn(I, 3, 0), [(1, 0), (-2, 0), (1, 2), (-2, -1)]),
     (Turn(I, 0, 3), [(-1, 0), (2, 0), (-1, -2), (2, 1)]),
     (Turn(I, 0, 2), [(0, -1)]),
     (Turn(I, 1, 3), [(1, 0)]),
     (Turn(I, 2, 0), [(0, 1)]),
     (Turn(I, 3, 1), [(-1, 0)])]
  }

  /** The T half-turn kicks. */
  function THalfKicks(): seq<(Rotation, seq<Offset>)>
  {
    [(Turn(T, 0, 2), [(0, 1), (1, 1), (-1, 1), (1, 0), (-1, 0)]),
     (Turn(T, 2, 0), [(0, -1), (-1, -1), (1, -1), (-1, 0), (1, 0)]),
     (Turn(T, 1, 3), [(1, 0), (1, 2), (1, 1), (0, 2), (0, 1)]),
     (Turn(T, 3, 1), [(-1, 0), (-1, 2), (-1, 1), (0, 2), (0, 1)])]
  }

  /** The chained list `SRS_PLUS` is collected from. */
  function SrsPlusEntries(): seq<(Rotation, seq<Offset>)>
  {
    StandardKicks(J) + StandardKicks(L) + StandardKicks(T) + StandardKicks(S) + StandardKicks(Z)
    + IKicks() + THalfKicks()
  }

  function SrsPlus(): map<Rotation, seq<Offset>>
  {
    Collect(SrsPlusEntries())
  }

  predicate IsQuarterTurn(r: Rotation)
  {
    DirectionValue(r.to) == (DirectionValue(r.from) + 1) % 4
    || DirectionValue(r.to) == (DirectionValue(r.from) + 3) % 4
  }

  predicate IsHalfTurn(r: Rotation)
  {
    DirectionValue(r.to) == (DirectionValue(r.from) + 2) % 4
  }

  /** The rotations SRS+ has kicks for: every quarter turn of a piece other than O, and the half turns of I and T. */
  predicate HasKicks(r: Rotation)
  {
    r.piece != O && (IsQuarterTurn(r) || (IsHalfTurn(r) && (r.piece == I || r.piece == T)))
  }

  /** What each written list looks like: four candidates for a quarter turn, five for a T half turn, one for an I half turn. */
  predicate WrittenKicks(r: Rotation, kicks: seq<Offset>)
  {
    && HasKicks(r)
    && |kicks| == (if IsQuarterTurn(r) then 4 else if r.piece == T then 5 else 1)
  }

  function KickBlock(v: MinoVariant): int
  {
    match v case J => 0 case L => 1 case T => 2 case S => 3 case Z => 4 case I => 5 case O => 6
  }

  /** The place of a quarter turn inside a block of eight, in the written order; 8 for any other turn. */
  function QuarterSlot(from: Direction, to: Direction): int
  {
    match (from, to)
    case (Up, Right) => 0 case (Right, Up) => 1 case (Right, Down) => 2 case (Down, Right) => 3
    case (Down, Left) => 4 case (Left, Down) => 5 case (Left, Up) => 6 case (Up, Left) => 7
    case _ => 8
  }

  lemma QuarterSlotOfQuarterTurns(r: Rotation)
    ensures QuarterSlot(r.from, r.to) < 8 <==> IsQuarterTurn(r)
  {
  }

  /** The position of a rotation's entry in the chained list. */
  function KickNumber(r: Rotation): int
  {
    if QuarterSlot(r.from, r.to) < 8 then 8 * KickBlock(r.piece) + QuarterSlot(r.from, r.to)
    else if r.piece == I then 48 + DirectionValue(r.from)
    else if r.piece == T then 52 + (match r.from case Up => 0 case Down => 1 case Right => 2 case Left => 3)
    else -1
  }

  /** The `into()` conversions of the literals the table is written with. */
  lemma SmallDirections()
    ensures DirectionFromI8(0) == Up && DirectionFromI8(1) == Right
    ensures DirectionFromI8(2) == Down && DirectionFromI8(3) == Left
  {
  }

  lemma StandardNumbered(v: MinoVariant)
    ensures NumberedFrom(StandardKicks(v), KickNumber, 8 * KickBlock(v)) && |StandardKicks(v)| == 8
  {
    SmallDirections();
    hide DirectionFromI8;
  }

  lemma StandardWritten(v: MinoVariant)
    requires v != O && v != I
    ensures AllEntries(StandardKicks(v), WrittenKicks)
  {
    SmallDirections();
    hide DirectionFromI8;
  }

  lemma StandardHas(v: MinoVariant, r: Rotation)
    requires r.piece == v && IsQuarterTurn(r)
    ensures r in Keys(StandardKicks(v))
  {
    SmallDirections();
    hide DirectionFromI8;
    var k := QuarterSlot(r.from, r.to);
    assert StandardKicks(v)[k].0 == r;
  }

  lemma IKicksNumbered()
    ensures NumberedFrom(IKicks(), KickNumber, 8 * KickBlock(I)) && |IKicks()| == 12
  {
    SmallDirections();
    hide DirectionFromI8;
  }

  lemma IKicksWritten()
    ensures AllEntries(IKicks(), WrittenKicks)
  {
    SmallDirections();
    hide DirectionFromI8;
  }

  lemma IKicksHas(r: Rotation)
    requires r.piece == I && HasKicks(r)
    ensures r in Keys(IKicks())
  {
    SmallDirections();
    hide DirectionFromI8;
    QuarterSlotOfQuarterTurns(r);
    assert IKicks()[KickNumber(r) - 40].0 == r;
  }

  lemma THalfNumbered()
    ensures NumberedFrom(THalfKicks(), KickNumber, 52)
  {
    SmallDirections();
    hide DirectionFromI8;
  }

  lemma THalfWritten()
    ensures AllEntries(THalfKicks(), WrittenKicks)
  {
    SmallDirections();
    hide DirectionFromI8;
  }

  lemma THalfHas(r: Rotation)
    requires r.piece == T && IsHalfTurn(r)
    ensures r in Keys(THalfKicks())
  {
    SmallDirections();
    hide DirectionFromI8;
    QuarterSlotOfQuarterTurns(r);
    assert THalfKicks()[KickNumber(r) - 52].0 == r;
  }

  /** No two entries of the chained list share a rotation. */
  lemma SrsPlusKeysDistinct()
    ensures Distinct(Keys(SrsPlusEntries()))
  {
    hide StandardKicks, IKicks, THalfKicks, KickNumber;
    StandardNumbered(J);
    StandardNumbered(L);
    StandardNumbered(T);
    StandardNumbered(S);
    StandardNumbered(Z);
    IKicksNumbered();
    THalfNumbered();
    var jl := StandardKicks(J) + StandardKicks(L);
    NumberedConcat(StandardKicks(J), StandardKicks(L), KickNumber, 0);
    NumberedConcat(jl, StandardKicks(T), KickNumber, 0);
    NumberedConcat(jl + StandardKicks(T), StandardKicks(S), KickNumber, 0);
    NumberedConcat(jl + StandardKicks(T) + StandardKicks(S), StandardKicks(Z), KickNumber, 0);
    var std := jl + StandardKicks(T) + StandardKicks(S) + StandardKicks(Z);
    NumberedConcat(std, IKicks(), KickNumber, 0);
    NumberedConcat(std + IKicks(), THalfKicks(), KickNumber, 0);
    NumberedDistinct(SrsPlusEntries(), KickNumber);
  }

  /** `SRS_PLUS` holds 56 rotations: eight quarter turns for each of J, L, T, S, Z and I, and four half turns for each of I and T. */
  lemma SrsPlusSize()
    ensures |SrsPlus()| == 56
  {
    SrsPlusKeysDistinct();
    CollectSize(SrsPlusEntries());
  }

  /** Every written list is the one the table returns for its rotation. */
  lemma SrsPlusLookup(i: int)
    requires 0 <= i < |SrsPlusEntries()|
    ensures SrsPlusEntries()[i].0 in SrsPlus()
    ensures SrsPlus()[SrsPlusEntries()[i].0] == SrsPlusEntries()[i].1
  {
    SrsPlusKeysDistinct();
    CollectLookup(SrsPlusEntries(), i);
  }

  /** Every entry of the chained list is a rotation with kicks and a list of the written length. */
  lemma SrsPlusEntriesWritten()
    ensures AllEntries(SrsPlusEntries(), WrittenKicks)
  {
    hide StandardKicks, IKicks, THalfKicks, WrittenKicks;
    StandardWritten(J);
    StandardWritten(L);
    StandardWritten(T);
    StandardWritten(S);
    StandardWritten(Z);
    IKicksWritten();
    THalfWritten();
    var jl := StandardKicks(J) + StandardKicks(L);
    AllEntriesConcat(StandardKicks(J), StandardKicks(L), WrittenKicks);
    AllEntriesConcat(jl, StandardKicks(T), WrittenKicks);
    AllEntriesConcat(jl + StandardKicks(T), StandardKicks(S), WrittenKicks);
    AllEntriesConcat(jl + StandardKicks(T) + StandardKicks(S), StandardKicks(Z), WrittenKicks);
    var std := jl + StandardKicks(T) + StandardKicks(S) + StandardKicks(Z);
    AllEntriesConcat(std, IKicks(), WrittenKicks);
    AllEntriesConcat(std + IKicks(), THalfKicks(), WrittenKicks);
  }

  /** Every rotation with kicks has an entry. */
  lemma SrsPlusEntriesHave(r: Rotation)
    requires HasKicks(r)
    ensures r in Keys(SrsPlusEntries())
  {
    hide StandardKicks, IKicks, THalfKicks;
    var jl := StandardKicks(J) + StandardKicks(L);
    var std := jl + StandardKicks(T) + StandardKicks(S) + StandardKicks(Z);
    KeysConcat(StandardKicks(J), StandardKicks(L));
    KeysConcat(jl, StandardKicks(T));
    KeysConcat(jl + StandardKicks(T), StandardKicks(S));
    KeysConcat(jl + StandardKicks(T) + StandardKicks(S), StandardKicks(Z));
    KeysConcat(std, IKicks());
    KeysConcat(std + IKicks(), THalfKicks());
    if r.piece == I {
      IKicksHas(r);
    } else if r.piece == T && IsHalfTurn(r) {
      THalfHas(r);
    } else {
      StandardHas(r.piece, r);
    }
  }

  /**
   * The rotations with kicks are exactly the quarter turns of every piece but O and the half
   * turns of I and T; their lists hold four, five (T half turn) or one (I half turn) candidates.
   */
  lemma SrsPlusKeys(r: Rotation)
    ensures r in SrsPlus() <==> HasKicks(r)
    ensures r in SrsPlus() ==> WrittenKicks(r, SrsPlus()[r])
  {
    SrsPlusKeysDistinct();
    SrsPlusEntriesWritten();
    if r in SrsPlus() {
      CollectAll(SrsPlusEntries(), WrittenKicks, r);
    }
    if HasKicks(r) {
      SrsPlusEntriesHave(r);
    }
  }

  /** Where a piece's block of standard kicks sits in the chained list. */
  lemma StandardAt(v: MinoVariant, k: int)
    requires v != O && v != I && 0 <= k < 8
    ensures 8 * KickBlock(v) + k < |SrsPlusEntries()|
    ensures SrsPlusEntries()[8 * KickBlock(v) + k] == StandardKicks(v)[k]
  {
    hide StandardKicks, IKicks, THalfKicks;
    StandardNumbered(J);
    StandardNumbered(L);
    StandardNumbered(T);
    StandardNumbered(S);
    StandardNumbered(Z);
  }

  /** Each standard block is the J block with the piece renamed; the slot of a quarter turn holds that turn. */
  lemma StandardEntry(v: MinoVariant, from: Direction, to: Direction)
    requires QuarterSlot(from, to) < 8
    ensures StandardKicks(v)[QuarterSlot(from, to)].0 == Rotation(v, from, to)
    ensures StandardKicks(v)[QuarterSlot(from, to)].1 == StandardKicks(J)[QuarterSlot(from, to)].1
  {
    SmallDirections();
    hide DirectionFromI8;
  }

  /** The table's list for a standard-kick rotation, read off the written block. */
  lemma StandardLookup(v: MinoVariant, from: Direction, to: Direction)
    requires v != O && v != I && QuarterSlot(from, to) < 8
    ensures Rotation(v, from, to) in SrsPlus()
    ensures SrsPlus()[Rotation(v, from, to)] == StandardKicks(J)[QuarterSlot(from, to)].1
  {
    hide SrsPlus, SrsPlusEntries, StandardKicks;
    var k := QuarterSlot(from, to);
    StandardAt(v, k);
    SrsPlusLookup(8 * KickBlock(v) + k);
    StandardEntry(v, from, to);
  }

  /**
   * J, L, T, S and Z share their quarter-turn lists, and within them the turns out of Right
   * share one list, the turns out of Left share another, and Down to Left equals Up to Left.
   */
  lemma SrsPlusSharedLists(v: MinoVariant, w: MinoVariant, from: Direction, to: Direction)
    requires v != O && v != I && w != O && w != I && QuarterSlot(from, to) < 8
    ensures Rotation(v, from, to) in SrsPlus() && Rotation(w, from, to) in SrsPlus()
    ensures SrsPlus()[Rotation(v, from, to)] == SrsPlus()[Rotation(w, from, to)]
    ensures Rotation(v, Right, Up) in SrsPlus() && Rotation(v, Right, Down) in SrsPlus()
    ensures SrsPlus()[Rotation(v, Right, Up)] == SrsPlus()[Rotation(v, Right, Down)]
    ensures Rotation(v, Left, Down) in SrsPlus() && Rotation(v, Left, Up) in SrsPlus()
    ensures SrsPlus()[Rotation(v, Left, Down)] == SrsPlus()[Rotation(v, Left, Up)]
    ensures Rotation(v, Down, Left) in SrsPlus() && Rotation(v, Up, Left) in SrsPlus()
    ensures SrsPlus()[Rotation(v, Down, Left)] == SrsPlus()[Rotation(v, Up, Left)]
  {
    hide SrsPlus;
    StandardLookup(v, from, to);
    StandardLookup(w, from, to);
    StandardLookup(v, Right, Up);
    StandardLookup(v, Right, Down);
    StandardLookup(v, Left, Down);
    StandardLookup(v, Left, Up);
    StandardLookup(v, Down, Left);
    StandardLookup(v, Up, Left);
  }
}
