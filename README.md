# tetrio-tools core, modelled in Dafny

tetrio-tools is a set of Rust crates around TETR.IO replays. This project models the parts
of it that hold game logic:

- **Piece vocabulary and rotation arithmetic.** This is the bsr-tools `tetromino` module and
  tetrio-replay's `board` module: variants, cells, spins, and directions as numbers mod 4.
- **Rotation and kick tables.** Three revisions are modelled: bsr-tools, tetrio-replay (with
  both its SRS+ table and its `mechanics` SRS table) and viewtris. Each table is built by
  `collect()`-ing a literal list into a `HashMap`. The project proves that no entry is lost,
  how many keys each map has, which rotations have kicks, and what each lookup returns.
- **`Positions` arithmetic.** This covers the translation loops of every `Add` impl and the
  stable sort by height of `lowest_first`.
- **The replay random-number generator.** This is the Park–Miller step and the shuffle built
  on it, checked against the crate's own test fixture.
- **The tetrio-replay board storage.** This is a row-major grid with unchecked reads and
  writes.
- **viewtris's damage table.** A specific entry takes precedence over the first matching
  general entry.
- **The implemented part of tetrio-replay's reconstruction.** This is finding the first
  full-state event, the key latches of `handle_keys`, and the event loop of `stream`.
- **The viewtris-player replay state.** Actions are applied and rolled back on a board as the
  frame counter advances or rewinds, across several concurrent replays.

Modules follow the source files. `Tables` and `Offsets` hold what the table and `Positions`
modules of the three revisions share.

Modelling choices:

- Integers are unbounded, and the source's widths are stated where they matter. `usize as
  isize` is written out as a two's-complement reinterpretation. An `isize` overflow in `+=` is
  a precondition, because Rust panics on it in debug builds. `u64` and `u32` bounds appear as
  explicit constants.
- Code that mutates in place keeps its form:
  - `Positions` is an `array`;
  - the shuffle and `Rng` are a class over an array;
  - `BoardStorage`, `Replay`, `ReplayState`, `State`, `Board` and `Controller` are classes
    whose methods update their fields.
- Pure code is functions and lemmas.
- A Rust panic (`todo!`, `unimplemented!`, `unreachable!`, an `unwrap` on `None`) is one of
  two things:
  - a precondition, where the crate's callers never trigger it;
  - an explicit outcome carrying the message Rust prints, where the code path is reachable
    (`Reconstruct.Outcome.Panic`).

## Model

| member | source | states |
|---|---|---|
| Tables.Collect | bsr-tools/src/kick_table.rs:107-130 | `collect` into a map: its keys are exactly the keys listed |
| Tables.CollectLookup | bsr-tools/src/kick_table.rs:107-130 | collecting a list with pairwise distinct keys into a map keeps every entry: each key maps to the value written beside it |
| Tables.CollectSize | bsr-tools/src/kick_table.rs:107-130 | with distinct keys the collected map has exactly one key per entry |
| Tables.CollectHas | bsr-tools/src/kick_table.rs:132-176 | every listed (key, value) pair is found by `get` |
| Tables.CollectAll | bsr-tools/src/kick_table.rs:132-176 | a property of every listed entry holds of every key of the map and its value |
| Tables.Get | bsr-tools/src/tetromino.rs:128-143 | `HashMap::get` finds a value exactly when the key is present, and then it is the key's value |
| Offsets.UsizeAsIsize | bsr-tools/src/kick_table.rs:27-38 | `usize as isize` lands in `isize`, agrees with the input mod 2^64 and is the identity below 2^63 |
| Offsets.TranslateInPlace | bsr-tools/src/kick_table.rs:14-25 | the `iter_mut().for_each` loop moves every cell by the same offset and nothing else |
| Offsets.TranslateZero | viewtris/src/positions.rs:22-29 | adding the offset (0, 0) leaves every cell where it is |
| Offsets.TranslateCompose | bsr-tools/src/kick_table.rs:14-38 | translating twice is translating by the sum of the offsets |
| Offsets.QuarterPowers | bsr-tools/src/kick_table.rs:71-93 | the quarter turn (x, y) ↦ (y, -x) applied 2 and 3 times gives the two other maps written in `center_of_mass_rotation`, and applied 4 times gives the identity |
| Offsets.QuarterPowMod4 | bsr-tools/src/kick_table.rs:71-93 | the turned shape depends only on the number of quarter turns mod 4 |
| Offsets.SwapNeighboursKeepsHeights | bsr-tools/src/kick_table.rs:46-48 | exchanging two neighbouring cells of different heights keeps the cells and their order within every height |
| Offsets.SortByHeight | bsr-tools/src/kick_table.rs:46-48 | the `sort_by` on y sorts by nondecreasing height, permutes the cells and is stable |
| BsrTetromino.CellOf | bsr-tools/src/tetromino.rs:8-12 | a variant becomes a filled, non-empty cell of that variant |
| BsrTetromino.Display | bsr-tools/src/tetromino.rs:23-37 | every cell is shown as two characters |
| BsrTetromino.DisplayInjective | bsr-tools/src/tetromino.rs:23-37 | different cells are shown differently |
| BsrTetromino.ParseVariant | bsr-tools/src/tetromino.rs:160-165 | the case-insensitive `FromStr` accepts only a variant's own name in upper or lower case |
| BsrTetromino.ParseName | bsr-tools/src/tetromino.rs:160-165 | both spellings of every name parse back to that variant |
| BsrTetromino.CellFromTag | bsr-tools/src/tetromino.rs:40-51 | no tag gives an empty cell, "gb" gives garbage, and a piece name gives that piece (any other tag makes the `unwrap` panic, a precondition here) |
| BsrTetromino.IsEmpty | bsr-tools/src/tetromino.rs:53-57 | a cell is empty exactly when it is the cell an absent tag decodes to |
| BsrTetromino.EmptyIffNoTag | bsr-tools/src/tetromino.rs:40-57 | `is_empty` holds of a decoded tag exactly when there was no tag |
| BsrTetromino.DirectionValue | bsr-tools/src/tetromino.rs:81-86 | every direction's discriminant is in 0..4 |
| BsrTetromino.DirectionFromI8 | bsr-tools/src/tetromino.rs:88-92 | `From<i8>` gives the direction whose discriminant is n mod 4 |
| BsrTetromino.DirectionValueInjective | bsr-tools/src/tetromino.rs:81-92 | the discriminant determines the direction |
| BsrTetromino.Add | bsr-tools/src/tetromino.rs:94-100 | direction plus spin is the sum of the discriminants mod 4, and a spin always changes the direction |
| BsrTetromino.AddTable | bsr-tools/src/tetromino.rs:94-100 | all twelve sums: clockwise goes Up, Right, Down, Left |
| BsrTetromino.SpinsCancel | bsr-tools/src/tetromino.rs:94-100 | a clockwise and a counter-clockwise spin cancel in either order |
| BsrTetromino.FullTurns | bsr-tools/src/tetromino.rs:94-100 | two flips, or four clockwise spins, return to the start |
| BsrTetromino.MinoOf | bsr-tools/src/tetromino.rs:117-125 | a new piece of the given variant points up at (5, 22), a coordinate within `usize` |
| BsrTetromino.Rotate | bsr-tools/src/tetromino.rs:153-157 | `rotate` changes only the direction, by the spin |
| BsrTetromino.RotationOf | bsr-tools/src/tetromino.rs:145-151 | `rotation` goes from the piece's direction to the direction `rotate` gives |
| BsrKickTable.AddI8 | bsr-tools/src/kick_table.rs:14-25 | adding an (i8, i8) offset translates every cell by it |
| BsrKickTable.AddUsize | bsr-tools/src/kick_table.rs:27-38 | adding a (usize, usize) offset translates every cell by its `as isize` value |
| BsrKickTable.Iter | bsr-tools/src/kick_table.rs:41-43 | `iter` yields the cells in order |
| BsrKickTable.LowestFirst | bsr-tools/src/kick_table.rs:46-48 | the cells are sorted by height, stably, as a permutation |
| BsrKickTable.CenterOfMassRotation | bsr-tools/src/kick_table.rs:71-93 | the four entries are keyed by the four directions, and the k-th is the Up shape turned k quarter turns |
| BsrKickTable.StaticRotation | bsr-tools/src/kick_table.rs:95-105 | the four entries are keyed by the four directions and all hold the same shape |
| BsrKickTable.RotationKeysDistinct | bsr-tools/src/kick_table.rs:107-130 | the 28 keys of the rotation table's list are pairwise distinct |
| BsrKickTable.RotationTableSize | bsr-tools/src/kick_table.rs:107-130 | the rotation table has 28 keys, one per variant and direction |
| BsrKickTable.RotationTableShapes | bsr-tools/src/kick_table.rs:107-130 | every (variant, direction) is a key: L, J, T, Z, S map to their Up shape turned, O to its one shape, I to the four shapes written out |
| BsrKickTable.IBlock | bsr-tools/src/kick_table.rs:117-125 | the I piece's four entries are listed, one per direction |
| BsrKickTable.SrsPlusKeysDistinct | bsr-tools/src/kick_table.rs:132-176 | the 56 rotations listed in SRS+ are pairwise distinct |
| BsrKickTable.SrsPlusSize | bsr-tools/src/kick_table.rs:132-176 | SRS+ has 56 keys |
| BsrKickTable.SrsPlusLookup | bsr-tools/src/kick_table.rs:132-176 | every listed rotation maps to the kick list written beside it |
| BsrKickTable.SrsPlusKeys | bsr-tools/src/kick_table.rs:132-176 | a rotation has kicks exactly when it is a quarter turn of a piece other than O, or a half turn of I or T, and then its kicks are the ones written for it |
| BsrKickTable.StandardLookup | bsr-tools/src/kick_table.rs:139-148 | a quarter turn of L, J, T, Z or S looks up the list written once for all five |
| BsrKickTable.SrsPlusSharedLists | bsr-tools/src/kick_table.rs:139-148 | the five standard pieces share their lists, and the pairs of quarter turns written with the same list look up equal lists |
| BsrKickTable.IKicksWritten | bsr-tools/src/kick_table.rs:154-166 | the I piece's twelve entries carry the lists written for them |
| BsrKickTable.THalfWritten | bsr-tools/src/kick_table.rs:170-173 | the T piece's half-turn entries carry the lists written for them |
| BsrMino.StateOffsets | bsr-tools/src/tetromino.rs:128-135 | the rotation-table lookup of `position` always succeeds (its `unwrap` never panics) and gives four offsets |
| BsrMino.Position | bsr-tools/src/tetromino.rs:128-135 | `position` is the piece's four table offsets moved by its coordinate taken as `isize` |
| BsrMino.Kick | bsr-tools/src/tetromino.rs:137-143 | `kick` finds a list exactly when the piece is not O and the spin is a quarter turn or the piece is I or T; the list is the SRS+ entry for `rotation`, with 4 entries for a quarter turn, 5 for a T half turn and 1 for an I half turn |
| BsrMino.SpinKicks | bsr-tools/src/tetromino.rs:137-151 | the rotation a spin performs is an SRS+ key under the same condition, with the same list lengths |
| TetrioBoard.StateValue | tetrio-replay/src/board.rs:30-37 | every rotation state's discriminant is in 0..4 |
| TetrioBoard.StateValueInjective | tetrio-replay/src/board.rs:30-37 | the discriminant determines the rotation state |
| TetrioBoard.FromI8 | tetrio-replay/src/board.rs:39-43 | `From<i8>` gives the state whose discriminant is n mod 4 |
| TetrioBoard.FromI8RoundTrip | tetrio-replay/src/board.rs:39-43 | converting a state's discriminant back gives the state |
| TetrioBoard.Add | tetrio-replay/src/board.rs:45-51 | state plus direction is the sum of the discriminants mod 4, and always a different state |
| TetrioBoard.AddTable | tetrio-replay/src/board.rs:45-51 | all twelve sums: with this revision's numbering, clockwise goes Up, Left, Down, Right |
| TetrioBoard.TurnsCancel | tetrio-replay/src/board.rs:45-51 | a clockwise and a counter-clockwise turn cancel in either order |
| TetrioBoard.FullTurns | tetrio-replay/src/board.rs:45-51 | two flips, or four clockwise turns, return to the start |
| TetrioBoard.RotationOf | tetrio-replay/src/board.rs:59-67 | `rotation` goes from the piece's state to that state plus the direction |
| TetrioKickTable.AddI8 | tetrio-replay/src/board/kick_table.rs:11-22 | adding an (i8, i8) offset translates every cell by it |
| TetrioKickTable.AddUsize | tetrio-replay/src/board/kick_table.rs:24-35 | adding a (usize, usize) offset translates every cell by its `as isize` value |
| TetrioKickTable.Iter | tetrio-replay/src/board/kick_table.rs:37-41 | `iter` yields the cells in order |
| TetrioKickTable.StateOffsets | tetrio-replay/src/board/kick_table.rs:43-60 | the rotation-table lookup of `tetromino` always succeeds and gives four offsets |
| TetrioKickTable.Tetromino | tetrio-replay/src/board/kick_table.rs:43-60 | `Positions::tetromino` copies the four table offsets in order and moves them by the piece's position taken as `isize` |
| TetrioKickTable.CenterOfMassRotation | tetrio-replay/src/board/kick_table.rs:82-104 | the k-th of the four entries is the Up shape turned k quarter turns, keyed by state k |
| TetrioKickTable.StaticRotation | tetrio-replay/src/board/kick_table.rs:106-116 | the four entries all hold the same shape |
| TetrioKickTable.RotationKeysDistinct | tetrio-replay/src/board/kick_table.rs:118-144 | the 28 keys of the rotation table's list are pairwise distinct |
| TetrioKickTable.RotationTableSize | tetrio-replay/src/board/kick_table.rs:118-144 | the rotation table has 28 keys |
| TetrioKickTable.RotationTableShapes | tetrio-replay/src/board/kick_table.rs:118-144 | every (variant, state) is a key and maps to its turned, fixed or written-out shape |
| TetrioKickTable.SrsPlusKeysDistinct | tetrio-replay/src/board/kick_table.rs:146-190 | the 56 rotations listed in SRS+ are pairwise distinct |
| TetrioKickTable.SrsPlusSize | tetrio-replay/src/board/kick_table.rs:146-190 | SRS+ has 56 keys |
| TetrioKickTable.SrsPlusKeys | tetrio-replay/src/board/kick_table.rs:146-190 | a rotation has kicks exactly when it is a quarter turn of a piece other than O, or a half turn of I or T, and then its kicks are the ones written for it |
| TetrioKickTable.SrsPlusLookup | tetrio-replay/src/board/kick_table.rs:146-190 | every listed rotation of SRS+ maps to the kick list written beside it |
| TetrioKickTable.IKicksWritten | tetrio-replay/src/board/kick_table.rs:166-181 | the I piece's twelve entries carry the lists written for them |
| TetrioKickTable.THalfWritten | tetrio-replay/src/board/kick_table.rs:182-188 | the T piece's half-turn entries carry the lists written for them |
| TetrioKickTable.StandardLookup | tetrio-replay/src/board/kick_table.rs:153-162 | a quarter turn of L, J, T, Z or S looks up the list written once for all five |
| TetrioKickTable.SrsPlusSharedLists | tetrio-replay/src/board/kick_table.rs:153-162 | the five standard pieces share their lists, and the quarter turns written with the same list look up equal lists |
| TetrioMechanicsKickTable.LiteralKey | tetrio-replay/src/mechanics/kick_table.rs:27 | the literal states 0 and 1 of the first entry are Up and Left |
| TetrioMechanicsKickTable.VariantEntries | tetrio-replay/src/mechanics/kick_table.rs:25-43 | each of J, L, T, S, Z gets its four entries in the order and with the lists written |
| TetrioMechanicsKickTable.SrsKeysDistinct | tetrio-replay/src/mechanics/kick_table.rs:21-45 | the 20 listed rotations are pairwise distinct |
| TetrioMechanicsKickTable.SrsKickTableSize | tetrio-replay/src/mechanics/kick_table.rs:21-45 | the SRS table has 20 keys |
| TetrioMechanicsKickTable.SrsKickTableKeys | tetrio-replay/src/mechanics/kick_table.rs:21-45 | a rotation is a key exactly when its piece is J, L, T, S or Z and it is one of the four listed turns; I and O have no kicks |
| TetrioMechanicsKickTable.SrsKickTableLists | tetrio-replay/src/mechanics/kick_table.rs:25-43 | each key of a listed piece looks up the list written for it, including the empty list for Down to Right |
| ViewtrisPositions.AddI8 | viewtris/src/positions.rs:19-30 | adding an (i8, i8) offset translates every cell by it |
| ViewtrisPositions.AddI16 | viewtris/src/positions.rs:19-30 | adding an (i16, i16) offset translates every cell by it |
| ViewtrisPositions.AddIsize | viewtris/src/positions.rs:19-30 | adding an (isize, isize) offset translates every cell by it |
| ViewtrisPositions.Iter | viewtris/src/positions.rs:33-35 | `iter` yields the cells in order |
| ViewtrisPositions.LowestFirst | viewtris/src/positions.rs:38-40 | the cells are sorted by height, stably, as a permutation |
| ViewtrisRotationTable.CenterOfMassRotation | viewtris/src/rotation_table.rs:16-38 | the k-th of the four entries is the Up shape turned k quarter turns |
| ViewtrisRotationTable.StaticRotation | viewtris/src/rotation_table.rs:40-50 | the four entries all hold the same shape |
| ViewtrisRotationTable.RotationKeysDistinct | viewtris/src/rotation_table.rs:52-72 | the 28 keys of the rotation table's list are pairwise distinct |
| ViewtrisRotationTable.RotationTableSize | viewtris/src/rotation_table.rs:52-72 | the rotation table has 28 keys |
| ViewtrisRotationTable.RotationTableShapes | viewtris/src/rotation_table.rs:52-72 | every (variant, direction) is a key and maps to its turned, fixed or written-out shape |
| ViewtrisKickTable.SrsPlusKeysDistinct | viewtris/src/tables/kick_table.rs:20-63 | the 56 rotations listed in SRS+ are pairwise distinct |
| ViewtrisKickTable.SrsPlusSize | viewtris/src/tables/kick_table.rs:20-63 | SRS+ has 56 keys |
| ViewtrisKickTable.SrsPlusKeys | viewtris/src/tables/kick_table.rs:20-63 | a rotation has kicks exactly when it is a quarter turn of a piece other than O, or a half turn of I or T, and then its kicks are the ones written for it |
| ViewtrisKickTable.SrsPlusLookup | viewtris/src/tables/kick_table.rs:20-63 | every listed rotation of SRS+ maps to the kick list written beside it |
| ViewtrisKickTable.StandardLookup | viewtris/src/tables/kick_table.rs:23-37 | a quarter turn of L, J, T, Z or S looks up the list written once for all five |
| ViewtrisKickTable.SrsPlusSharedLists | viewtris/src/tables/kick_table.rs:23-37 | the five standard pieces share their lists, and the quarter turns written with the same list look up equal lists |
| ViewtrisKickTable.IKicksWritten | viewtris/src/tables/kick_table.rs:39-54 | the I piece's twelve entries carry the lists written for them |
| ViewtrisKickTable.THalfWritten | viewtris/src/tables/kick_table.rs:55-61 | the T piece's half-turn entries carry the lists written for them |
| ViewtrisDamageTable.Matches | viewtris/src/tables/damage_table.rs:23-29 | an attack with every field set matches its own key and no other |
| ViewtrisDamageTable.MatchesIff | viewtris/src/tables/damage_table.rs:22-30 | an attack matches a key exactly when every field it sets equals the key's field |
| ViewtrisDamageTable.WildcardMatches | viewtris/src/tables/damage_table.rs:22-30 | an attack that sets no field matches every key |
| ViewtrisDamageTable.FindMap | viewtris/src/tables/damage_table.rs:48-53 | a value found in the general list is one of its damage values |
| ViewtrisDamageTable.FindMapFirst | viewtris/src/tables/damage_table.rs:48-53 | `find_map` returns the damage of the first matching general entry |
| ViewtrisDamageTable.FindMapNone | viewtris/src/tables/damage_table.rs:48-53 | `find_map` finds nothing exactly when no general entry matches |
| ViewtrisDamageTable.Or | viewtris/src/tables/damage_table.rs:48-53 | `Option::or` keeps a present value and otherwise takes the alternative |
| ViewtrisDamageTable.Get | viewtris/src/tables/damage_table.rs:48-57 | a key with a specific entry gets that entry; without one, any damage found is that of a general entry matching the key |
| ViewtrisDamageTable.SpecificWins | viewtris/src/tables/damage_table.rs:48-57 | a key with a specific entry gets that entry, whatever the general list says |
| ViewtrisDamageTable.GeneralFirstMatch | viewtris/src/tables/damage_table.rs:48-57 | without a specific entry, `get` gives the damage of the first matching general entry |
| ViewtrisDamageTable.GetNone | viewtris/src/tables/damage_table.rs:48-57 | `get` gives nothing exactly when there is no specific entry and no general entry matches |
| ViewtrisDamageTable.Index | viewtris/src/tables/damage_table.rs:60-66 | indexing returns the value `get` finds (its `unwrap` panics otherwise, a precondition here) |
| BoardStorage.Update | tetrio-replay/src/board/storage.rs:57-63 | writing one cell keeps the grid's shape, sets that cell and leaves every other cell alone |
| BoardStorage.UpdateRestores | tetrio-replay/src/board/storage.rs:57-63 | writing back a cell's old value restores the grid |
| BoardStorage.UpdateTwice | tetrio-replay/src/board/storage.rs:57-63 | the second of two writes to one cell wins |
| BoardStorage.BoardStorage.FromRowsUnchecked | tetrio-replay/src/board/storage.rs:12-18 | the storage is the given rows, and the column count is the first row's length (0 for no rows) |
| BoardStorage.BoardStorage.Dimensions | tetrio-replay/src/board/storage.rs:22-27 | the dimensions are the row and column counts, as `isize` |
| BoardStorage.BoardStorage.Root | tetrio-replay/src/board/storage.rs:29-31 | the root is (0, 0) |
| BoardStorage.BoardStorage.GetUnchecked | tetrio-replay/src/board/storage.rs:37-43 | an unchecked read inside the grid returns a value of the addressed row, and writing that value back into the cell leaves the grid unchanged; by `WriteBackIsRead` no other value does |
| BoardStorage.WriteBackIsRead | tetrio-replay/src/board/storage.rs:37-43 | only the value already in a cell can be written back into it without changing the grid, so the write-back property pins down the read |
| BoardStorage.BoardStorage.SetUnchecked | tetrio-replay/src/board/storage.rs:61-63 | a write updates exactly that cell, keeps the column count and the `usize` bounds, and reading it back gives the value |
| BoardStorage.BoardStorage.ReplaceUnchecked | tetrio-replay/src/board/storage.rs:57-59 | a replace returns the previous value, updates exactly that cell and keeps the column count and the `usize` bounds |
| TetrioRng.Step | tetrio-replay/src/rng.rs:10-13 | the next state is below the modulus 2147483647 |
| TetrioRng.StepNoOverflow | tetrio-replay/src/rng.rs:10-13 | `16807 * state` never overflows `u64` |
| TetrioRng.StepNonZero | tetrio-replay/src/rng.rs:10-13 | a nonzero state never steps to zero |
| TetrioRng.IterateNonZero | tetrio-replay/src/rng.rs:10-13 | from a nonzero seed every later state is nonzero and below the modulus |
| TetrioRng.IterateZero | tetrio-replay/src/rng.rs:10-13 | a zero state stays zero at every step |
| TetrioRng.Fraction | tetrio-replay/src/rng.rs:15-17 | `next_float` lies in [0, 1) |
| TetrioRng.SwapIndex | tetrio-replay/src/rng.rs:23 | the swap partner of index i is at most i |
| TetrioRng.SwapIndexIsFloor | tetrio-replay/src/rng.rs:23 | the integer partner equals the floor of `next_float() * (i + 1)`, computed exactly |
| TetrioRng.SwapPermutes | tetrio-replay/src/rng.rs:27 | `slice.swap` permutes the slice |
| TetrioRng.ShufflesPermute | tetrio-replay/src/rng.rs:19-29 | the shuffle, as written and as intended, is a permutation |
| TetrioRng.AsWrittenIsIntendedPlusOneDraw | tetrio-replay/src/rng.rs:19-29 | the as-written shuffle arranges the slice like the intended one but draws once more, so the next shuffle starts from a different state |
| TetrioRng.DrawAtZeroIsIdle | tetrio-replay/src/rng.rs:19-29 | the extra draw at index 0 always swaps index 0 with itself |
| TetrioRng.BasedAsWritten | tetrio-replay/src/rng.rs:41-56 | with seed 1742887628 the first as-written shuffle gives the fixture's first array, but the second gives ['j','s','i','t','l','o','z'] instead of the fixture's second |
| TetrioRng.Based | tetrio-replay/src/rng.rs:41-56 | with the intended loop both shuffles give the fixture's two arrays |
| TetrioRng.Rng.Seeded | tetrio-replay/src/rng.rs:6-8 | the state is the seed mod 2147483647 |
| TetrioRng.Rng.Next | tetrio-replay/src/rng.rs:10-13 | `next` advances the state by one step and returns it; a nonzero state stays nonzero |
| TetrioRng.Rng.NextFloat | tetrio-replay/src/rng.rs:15-17 | `next_float` advances the state and returns (state - 1) / 2147483646, in [0, 1) |
| TetrioRng.Rng.NextIndex | tetrio-replay/src/rng.rs:23 | one draw gives a swap partner at most i |
| TetrioRng.Rng.ShuffleDownTo | tetrio-replay/src/rng.rs:19-29 | the loop from the last index down applies one swap per drawn partner and advances the state once per index |
| TetrioRng.Rng.ShuffleSlice | tetrio-replay/src/rng.rs:19-29 | `shuffle_slice` as written permutes the slice as `Shuffled` says and draws once per element |
| TetrioRng.Rng.ShuffleSliceIntended | tetrio-replay/src/rng.rs:19-29 | the corrected loop permutes the slice as `ShuffledIntended` says and draws once per element but the first |
| TetrioRng.Rng.ShuffleArray | tetrio-replay/src/rng.rs:31-34 | `shuffle_array` returns the shuffled copy, as written |
| TetrioRng.Rng.ShuffleArrayIntended | tetrio-replay/src/rng.rs:31-34 | `shuffle_array` over the corrected loop |
| TetrioRng.BasedOnObjects | tetrio-replay/src/rng.rs:41-56 | running the fixture on the `Rng` object with the corrected loop returns the two arrays the test expects |
| Reconstruct.DefaultShift | tetrio-replay/src/reconstruct.rs:46-53 | the default shift direction is none |
| Reconstruct.FirstFull | tetrio-replay/src/reconstruct.rs:127-137 | the index found is that of the first full-state event, and none is found exactly when there is no full-state event |
| Reconstruct.KeyStep | tetrio-replay/src/reconstruct.rs:75-118 | a key event is handled exactly for Hold, for a HardDrop key-up and for a HardDrop key-down with the latch set; the board is asked to hold only on a Hold key-down with the latch clear, and only then is anything appended |
| Reconstruct.HoldDown | tetrio-replay/src/reconstruct.rs:92-97 | a Hold key-down with the latch clear appends what the board's hold returns and sets the latch |
| Reconstruct.HoldRepeatIsIdle | tetrio-replay/src/reconstruct.rs:92-97 | a second Hold key-down without a key-up appends nothing |
| Reconstruct.HoldReleaseRearms | tetrio-replay/src/reconstruct.rs:114 | a Hold key-up clears the latch, so the next key-down holds again |
| Reconstruct.HardDropRelease | tetrio-replay/src/reconstruct.rs:115 | a HardDrop key-up clears only its latch |
| Reconstruct.OtherKeysUnimplemented | tetrio-replay/src/reconstruct.rs:85-113 | movement and rotation keys panic with `todo!()` on key-down and key-up alike |
| Reconstruct.FirstEventPanic | tetrio-replay/src/reconstruct.rs:163-184 | the panic that ends the event loop at an event: unreachable for start, todo for in-game and end events, the key handler's panic, or else "game parsing" |
| Reconstruct.StreamNeverFinishes | tetrio-replay/src/reconstruct.rs:163-184 | every event panics, and with the hard-drop message exactly on a HardDrop key-down with the latch clear |
| Reconstruct.Board.New | tetrio-replay/src/reconstruct.rs:151 | the board is created with the options' seed and no hold has been asked of it |
| Reconstruct.Board.DoHold | tetrio-replay/src/reconstruct.rs:94 | a hold returns the given actions and is counted |
| Reconstruct.State.Default | tetrio-replay/src/reconstruct.rs:62-72 | the default state has zero counters, no shift and all latches clear |
| Reconstruct.State.HandleKeys | tetrio-replay/src/reconstruct.rs:74-119 | `handle_keys` panics or updates the stream, the latches and the board's hold count exactly as `KeyStep` says, and changes nothing else |
| Reconstruct.Controller.FromParts | tetrio-replay/src/reconstruct.rs:149-154 | the controller holds the remaining events, the board and the state |
| Reconstruct.Controller.Stream | tetrio-replay/src/reconstruct.rs:159-187 | `stream` returns an empty stream exactly when no event is left, and otherwise panics at the first event as `FirstEventPanic` says; it never returns an error |
| Reconstruct.ReadGame | tetrio-replay/src/reconstruct.rs:126-157 | `read_game` fails with its message exactly when there is no full-state event, and otherwise keeps the events after the first one, seeds the board from it and starts from the default state |
| Reconstruct.ReconstructReplay | tetrio-replay/src/reconstruct.rs:190-192 | `reconstruct` returns the read error when there is no full-state event, the empty stream when that event is the last one, and otherwise the panic of the event after it |
| PlayerState.Applied | viewtris-player/src/state.rs:40-48 | the board calls of an advance are one apply per passed action, in order |
| PlayerState.Rollbacks | viewtris-player/src/state.rs:50-62 | the board calls of a rewind are one rollback per undone action, latest first |
| PlayerState.NetSnoc | viewtris-player/src/state.rs:45 | the board's contents after a call follow from its contents before it |
| PlayerState.AdvanceStop | viewtris-player/src/state.rs:40-48 | the advance loop stops at the first action after the new frame, or at the end, passing only actions at or before it |
| PlayerState.RewindStop | viewtris-player/src/state.rs:50-62 | the rewind loop stops just after the last action at or before the new frame, undoing only later actions |
| PlayerState.RollbacksAsWritten | viewtris-player/src/state.rs:50-62 | `rewind_to_frame` as written also rolls back the action it stops at |
| PlayerState.AdvanceCounts | viewtris-player/src/state.rs:40-48 | on frame-sorted actions, advancing passes exactly the actions at or before the frame |
| PlayerState.AdvanceFromStart | viewtris-player/src/state.rs:40-48 | from the start, the passed count is the number of actions at or before the frame |
| PlayerState.RewindAfterAdvance | viewtris-player/src/state.rs:40-62 | on frame-sorted actions, rewinding to an earlier frame lands where advancing from the start to that frame would |
| PlayerState.AsWrittenLosesKept | viewtris-player/src/state.rs:50-62 | after the as-written rewind the board lacks the action it stopped at, although that action stays counted as passed |
| PlayerState.RewindCounterexample | viewtris-player/src/state.rs:50-62 | with actions at frames 0 and 5, both applied, rewinding to frame 4 keeps one action counted but leaves the board empty |
| PlayerState.Replay.WithActions | viewtris-player/src/state.rs:23-29 | a new replay has an empty board and no action passed |
| PlayerState.Replay.Reset | viewtris-player/src/state.rs:31-34 | `reset` empties the board and passes no action |
| PlayerState.Replay.IsFinished | viewtris-player/src/state.rs:36-38 | a finished replay with its cursor in range has passed every action, and advancing it to any frame leaves its cursor where it is |
| PlayerState.Replay.AdvanceToFrame | viewtris-player/src/state.rs:40-48 | `advance_to_frame` passes the actions up to the new frame, applies each once, and keeps the board equal to the passed actions |
| PlayerState.Replay.RewindToFrame | viewtris-player/src/state.rs:50-62 | `rewind_to_frame` as written: it stops at the rewind point and issues the as-written rollbacks when the guard holds, and otherwise does nothing |
| PlayerState.Replay.RewindToFrameIntended | viewtris-player/src/state.rs:50-62 | the corrected rewind undoes exactly the actions after the new frame, latest first, and keeps the board equal to the passed actions |
| PlayerState.ReplayState.WithActions | viewtris-player/src/state.rs:70-78 | one replay per action list, paused at frame 0, with the actions of frame 0 applied |
| PlayerState.ReplayState.Play | viewtris-player/src/state.rs:124-127 | `play` records the time and the frame playing resumed on |
| PlayerState.ReplayState.Pause | viewtris-player/src/state.rs:129-131 | `pause` clears the start time and nothing else |
| PlayerState.ReplayState.IsPaused | viewtris-player/src/state.rs:133-135 | paused exactly when no start time is recorded; `Play`, `Pause` and `TogglePause` state their effect through it |
| PlayerState.ReplayState.TogglePause | viewtris-player/src/state.rs:137-143 | `toggle_pause` flips between paused and playing |
| PlayerState.ReplayState.IsFinished | viewtris-player/src/state.rs:145-149 | with no replays the state is finished; in a consistent state, finished means every replay has passed all of its actions |
| PlayerState.ReplayState.AdvanceActions | viewtris-player/src/state.rs:158-162 | every replay advances to the current frame |
| PlayerState.ReplayState.AdvanceFrame | viewtris-player/src/state.rs:151-156 | unless every replay is finished, the frame goes up by one and every replay advances to it; the clock fields are unchanged |
| PlayerState.ReplayState.RewindReplays | viewtris-player/src/state.rs:168-170 | every replay rewinds to the current frame |
| PlayerState.ReplayState.RewindFrame | viewtris-player/src/state.rs:164-172 | above frame 0, the frame goes down by one and every replay rewinds to it; at frame 0 nothing changes; the clock fields are unchanged |
| PlayerState.ReplayState.ResetToBeginning | viewtris-player/src/state.rs:174-181 | back to frame 0, paused, with every replay reset and advanced to frame 0; the frame playing last resumed on is kept |
| PlayerState.NoReplaysFinished | viewtris-player/src/state.rs:145-149 | a state with no replays counts as finished |

## Left out

- Floating point: `next_float` and the `floor` of `next_float() * (i + 1)` are computed exactly. The integer `(draw - 1) * (i + 1) / 2147483646` is proved equal to the exact floor, but `f64` rounding is not modelled.
- TetrioRng.Rng.ShuffleArray: the array is passed and returned by value, as a sequence; only `shuffle_slice` works on an `array` in place.
- Settings: the `f32` handling settings built from the game options (tetrio-replay/src/reconstruct.rs:10-44) are not modelled. tetrio-replay/src/board/settings.rs is not part of this model.
- The `f32` gravity and shift counters are kept as reals. No handled path changes them.
- `Board::new` and `Board::hold` are not part of this model. In `Reconstruct` the board records only its seed and how often it was asked to hold. What a hold returns is a parameter.
- Of the event payloads only the seed of a full-state event is kept. Key events carry only their key. Parsing replays (serde, ttrm) is not modelled.
- Reconstruct.Controller.Stream: the frame difference is never used. Every path of the loop body panics before a second event, so it is only ever taken from frame 0.
- Board::rotate_active (tetrio-replay/src/board.rs:85-100) only prints a lookup and then reaches `todo!()`. The lookup is covered by the rotation-table lemmas. Its test (board.rs:108-120) only runs into that `todo!()`.
- `Tetromino::variant` and the `Board`/`Change` records of tetrio-replay/src/board.rs are plain data. They have no behaviour to model.
- In tetrio-replay/src/board/kick_table.rs the names `MinoVariant` and `Mino` are imported from `board`, which defines `TetrominoVariant` and `Tetromino`. The model maps them to those types. The piece's `direction` and `position` are modelled as a record of the kick-table module.
- The `Board` of viewtris-player (`apply_action`, `rollback_action`) is not part of this model. The board is a log of the calls made on it. `Net` gives its contents on the assumption that a rollback undoes the latest apply of the same action.
- `run_player` (viewtris-player/src/state.rs:110-122) reads the wall clock (`get_time`), so it is left out. `play` and `toggle_pause` take the current time as a parameter.
- PlayerState.ReplayState.RewindFrame: it rewinds with the corrected `rewind_to_frame` (see Findings), not the as-written one.
- Drawing and user interface (`draw`, macroquad, the bsr and viewtris players' renderers, file selection) are not modelled.
- In the board storage an unchecked access indexes with `get(..).unwrap()` on the row and then on the column. An out-of-range location makes an `unwrap` panic. A negative coordinate wraps under `as usize` to a huge index and panics too. `InBounds` turns that panic into a precondition of every access. `get_unchecked_mut` is not a member of its own: it is modelled through `SetUnchecked` and `ReplaceUnchecked`, its only users.
- viewtris/src/tetromino.rs is not part of this model. The viewtris tables use the bsr-tools piece types (`BsrTetromino`) in its place. The variant and direction names match the ones viewtris/src/rotation_table.rs and viewtris/src/tables/kick_table.rs use. The numbering of viewtris' `Direction` (Up 0, Right 1, Down 2, Left 3, as in bsr-tools) is an assumption that no source file confirms. The literal keys of the viewtris tables, and the direction each turned shape is filed under, are stated in that assumed numbering.
- `From<i8>` for directions and rotation states (`transmute(n % 4)`) is defined only for nonnegative `i8` values. A negative value gives an invalid discriminant in Rust.

## Findings

| source | as written | input that shows it | evidently intended | confidence | as-written member | corrected member |
|---|---|---|---|---|---|---|
| tetrio-replay/src/rng.rs:19-29 | `(0..slice.len()).rev()` draws once for every index, including index 0, whose swap is always with itself | the crate's own test (rng.rs:41-56), seed 1742887628: the second `shuffle_array` starts one draw late and gives ['j','s','i','t','l','o','z'], not the expected ['i','t','j','l','o','z','s'] | `(1..slice.len()).rev()`: a Fisher–Yates shuffle with len - 1 draws, which gives both expected arrays | not executed | TetrioRng.BasedAsWritten | TetrioRng.Based |
| viewtris-player/src/state.rs:50-62 | the rewind loop calls `rollback_action` on the action it stops at, then breaks without decrementing `actions_passed` | actions at frames 0 and 5, both applied; rewind to frame 4: both actions are rolled back but one stays counted as passed | roll back only the actions after the new frame, so the board keeps exactly the passed actions | not executed | PlayerState.AsWrittenLosesKept | PlayerState.Replay.RewindToFrameIntended |
