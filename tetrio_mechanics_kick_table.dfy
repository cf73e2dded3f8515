/**
 * The partial SRS kick table of tetrio-replay's mechanics module: four rotations for each
 * of J, L, T, S and Z, one of them keyed by literals and three by rotation-state names, and
 * nothing for I or O.
 */
module TetrioMechanicsKickTable {

  import opened Tables
  import opened TetrioBoard

  type Offset = (int, int)

  /** The four entries written for one variant, in their written order. */
  function VariantKicks(v: TetrominoVariant): seq<(Rotation, seq<Offset>)>
  {
    [(Rotation(v, FromI8(0), FromI8(1)), [(-1, 0), (-1, 1), (0, -2), (-1, -2)]),
     (Rotation(v, Right, Up), [(1, 0), (1, -1), (0, 2), (1, 2)]),
     (Rotation(v, Right, Down), [(1, 0), (1, -1), (0, 2), (1, 2)]),
     (Rotation(v, Down, Right), [])]
  }

  /** The flattened list `SRS_KICK_TABLE` is collected from. */
  function SrsEntries(): seq<(Rotation, seq<Offset>)>
  {
    VariantKicks(J) + VariantKicks(L) + VariantKicks(T) + VariantKicks(S) + VariantKicks(Z)
  }

  function SrsKickTable(): map<Rotation, seq<Offset>>
  {
    Collect(SrsEntries())
  }

  /** The pieces the table is written for. */
  predicate Listed(v: TetrominoVariant)
  {
    v == J || v == L || v == T || v == S || v == Z
  }

  /** The four rotations written for each listed piece. */
  predicate ListedTurn(from: RotationState, to: RotationState)
  {
    (from, to) == (Up, Left) || (from, to) == (Right, Up) || (from, to) == (Right, Down) || (from, to) == (Down, Right)
  }

  function Block(v: TetrominoVariant): int
  {
    match v case J => 0 case L => 1 case T => 2 case S => 3 case Z => 4 case I => 5 case O => 6
  }

  function Slot(from: RotationState, to: RotationState): int
  {
    match (from, to)
    case (Up, Left) => 0 case (Right, Up) => 1 case (Right, Down) => 2 case (Down, Right) => 3
    case _ => 4
  }

  /** The position of a rotation's entry in the flattened list. */
  function KickNumber(r: Rotation): int
  {
    4 * Block(r.piece) + Slot(r.from, r.to)
  }

  /** The literal key `0>>1` is the rotation from Up to Left under this numbering. */
  lemma LiteralKey()
    ensures FromI8(0) == Up && FromI8(1) == Left
  {
  }

  /** An entry the table is written with: a listed turn of a listed piece. */
  predicate ListedEntry(r: Rotation, kicks: seq<Offset>)
  {
    Listed(r.piece) && ListedTurn(r.from, r.to)
  }

  lemma VariantBlock(v: TetrominoVariant, r: Rotation)
    requires Listed(v)
    ensures |VariantKicks(v)| == 4
    ensures NumberedFrom(VariantKicks(v), KickNumber, 4 * Block(v))
    ensures AllEntries(VariantKicks(v), ListedEntry)
    ensures r.piece == v && ListedTurn(r.from, r.to) ==> r in Keys(VariantKicks(v))
  {
    LiteralKey();
    hide FromI8;
    if r.piece == v && ListedTurn(r.from, r.to) {
      assert VariantKicks(v)[Slot(r.from, r.to)].0 == r;
    }
  }

  lemma SrsKeysDistinct()
    ensures Distinct(Keys(SrsEntries()))
  {
    hide VariantKicks, KickNumber;
    var r := Rotation(J, Up, Up);
    VariantBlock(J, r);
    VariantBlock(L, r);
    VariantBlock(T, r);
    VariantBlock(S, r);
    VariantBlock(Z, r);
    var jl := VariantKicks(J) + VariantKicks(L);
    NumberedConcat(VariantKicks(J), VariantKicks(L), KickNumber, 0);
    NumberedConcat(jl, VariantKicks(T), KickNumber, 0);
    NumberedConcat(jl + VariantKicks(T), VariantKicks(S), KickNumber, 0);
    NumberedConcat(jl + VariantKicks(T) + VariantKicks(S), VariantKicks(Z), KickNumber, 0);
    NumberedDistinct(SrsEntries(), KickNumber);
  }

  /** No entry is lost: the table holds 20 rotations. */
  lemma SrsKickTableSize()
    ensures |SrsKickTable()| == 20
  {
    SrsKeysDistinct();
    CollectSize(SrsEntries());
  }

  lemma SrsEntriesListed(r: Rotation)
    ensures AllEntries(SrsEntries(), ListedEntry)
    ensures Listed(r.piece) && ListedTurn(r.from, r.to) ==> r in Keys(SrsEntries())
  {
    hide VariantKicks, ListedEntry, ListedTurn;
    VariantBlock(J, r);
    VariantBlock(L, r);
    VariantBlock(T, r);
    VariantBlock(S, r);
    VariantBlock(Z, r);
    var jl := VariantKicks(J) + VariantKicks(L);
    AllEntriesConcat(VariantKicks(J), VariantKicks(L), ListedEntry);
    AllEntriesConcat(jl, VariantKicks(T), ListedEntry);
    AllEntriesConcat(jl + VariantKicks(T), VariantKicks(S), ListedEntry);
    AllEntriesConcat(jl + VariantKicks(T) + VariantKicks(S), VariantKicks(Z), ListedEntry);
    KeysConcat(VariantKicks(J), VariantKicks(L));
    KeysConcat(jl, VariantKicks(T));
    KeysConcat(jl + VariantKicks(T), VariantKicks(S));
    KeysConcat(jl + VariantKicks(T) + VariantKicks(S), VariantKicks(Z));
  }

  /** The keys are exactly the four written rotations of J, L, T, S and Z; I and O have none. */
  lemma SrsKickTableKeys(r: Rotation)
    ensures r in SrsKickTable() <==> Listed(r.piece) && ListedTurn(r.from, r.to)
    ensures r.piece == I || r.piece == O ==> r !in SrsKickTable()
  {
    hide SrsEntries, VariantKicks, ListedTurn;
    SrsKeysDistinct();
    SrsEntriesListed(r);
    if r in SrsKickTable() {
      CollectAll(SrsEntries(), ListedEntry, r);
    }
  }

  /** Where a piece's block sits in the flattened list. */
  lemma VariantAt(v: TetrominoVariant, k: int)
    requires Listed(v) && 0 <= k < 4
    ensures |VariantKicks(v)| == 4
    ensures 4 * Block(v) + k < |SrsEntries()|
    ensures SrsEntries()[4 * Block(v) + k] == VariantKicks(v)[k]
  {
    hide VariantKicks;
    var r := Rotation(J, Up, Up);
    VariantBlock(J, r);
    VariantBlock(L, r);
    VariantBlock(T, r);
    VariantBlock(S, r);
    VariantBlock(Z, r);
  }

  /**
   * Up to Left holds the standard first list; the turns out of Right share one list; Down
   * to Right has no candidates.
   */
  lemma SrsKickTableLists(v: TetrominoVariant)
    requires Listed(v)
    ensures Rotation(v, Up, Left) in SrsKickTable()
    ensures SrsKickTable()[Rotation(v, Up, Left)] == [(-1, 0), (-1, 1), (0, -2), (-1, -2)]
    ensures Rotation(v, Right, Up) in SrsKickTable() && Rotation(v, Right, Down) in SrsKickTable()
    ensures SrsKickTable()[Rotation(v, Right, Up)] == [(1, 0), (1, -1), (0, 2), (1, 2)]
    ensures SrsKickTable()[Rotation(v, Right, Up)] == SrsKickTable()[Rotation(v, Right, Down)]
    ensures Rotation(v, Down, Right) in SrsKickTable() && SrsKickTable()[Rotation(v, Down, Right)] == []
  {
    hide SrsKickTable, VariantKicks;
    VariantEntries(v);
    VariantLookup(v, 0);
    VariantLookup(v, 1);
    VariantLookup(v, 2);
    VariantLookup(v, 3);
  }

  /** Each written entry of a listed piece survives the collect. */
  lemma VariantLookup(v: TetrominoVariant, k: int)
    requires Listed(v) && 0 <= k < 4
    ensures |VariantKicks(v)| == 4
    ensures VariantKicks(v)[k].0 in SrsKickTable()
    ensures SrsKickTable()[VariantKicks(v)[k].0] == VariantKicks(v)[k].1
  {
    hide SrsEntries, VariantKicks, Collect;
    SrsKeysDistinct();
    VariantAt(v, k);
    CollectLookup(SrsEntries(), 4 * Block(v) + k);
  }

  /** The written entries of one variant, with the literal key converted. */
  lemma VariantEntries(v: TetrominoVariant)
    ensures VariantKicks(v)[0] == (Rotation(v, Up, Left), [(-1, 0), (-1, 1), (0, -2), (-1, -2)])
    ensures VariantKicks(v)[1] == (Rotation(v, Right, Up), [(1, 0), (1, -1), (0, 2), (1, 2)])
    ensures VariantKicks(v)[2] == (Rotation(v, Right, Down), [(1, 0), (1, -1), (0, 2), (1, 2)])
    ensures VariantKicks(v)[3] == (Rotation(v, Down, Right), [])
  {
    LiteralKey();
  }
}
