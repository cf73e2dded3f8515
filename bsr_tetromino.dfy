/**
 * The piece vocabulary of bsr-tools: the seven variants, board cells, spins and the four
 * directions with their mod-4 arithmetic, and the `Mino` state record with the operations
 * that only read or copy it (`rotation`, `rotate`). The table lookups `position` and `kick`
 * depend on the kick-table module and live in `BsrMino`.
 */
module BsrTetromino {

  import Offsets
  import opened Tables

  datatype MinoVariant = L | J | T | Z | S | O | I

  /** The state of one board cell: filled by a piece of some variant, garbage, or empty. */
  datatype Cell = Tetromino(variant: MinoVariant) | Garbage | Empty

  /** `From<MinoVariant> for Cell`. */
  function CellOf(v: MinoVariant): (c: Cell)
    ensures c.Tetromino? && c.variant == v
    ensures !IsEmpty(c)
  {
    Tetromino(v)
  }

  /** `Display for Cell`: a two-letter code per cell. */
  function Display(c: Cell): (s: string)
    ensures |s| == 2
  {
    match c
    case Tetromino(I) => "II"
    case Tetromino(J) => "JJ"
    case Tetromino(L) => "LL"
    case Tetromino(S) => "SS"
    case Tetromino(Z) => "ZZ"
    case Tetromino(T) => "TT"
    case Tetromino(O) => "OO"
    case Garbage => "GB"
    case Empty => "NC"
  }

  /** Different cells are displayed differently. */
  lemma DisplayInjective(c: Cell, d: Cell)
    ensures Display(c) == Display(d) ==> c == d
  {
  }

  /** The name of a variant, as the enum spells it. */
  function Name(v: MinoVariant): char
  {
    match v
    case L => 'L' case J => 'J' case T => 'T' case Z => 'Z'
    case S => 'S' case O => 'O' case I => 'I'
  }

  /** The ASCII lower-case form of an upper-case letter. */
  function Lower(c: char): char
    requires 'A' <= c <= 'Z'
  {
    (c as int + 32) as char
  }

  /**
   * The derived `FromStr` with ASCII case folding: a variant name in either case parses to
   * that variant, and every other string is an error.
   */
  function ParseVariant(s: string): (r: Option<MinoVariant>)
    ensures r.Some? ==> s == [Name(r.value)] || s == [Lower(Name(r.value))]
  {
    if |s| != 1 then None
    else
      match s[0]
      case 'L' => Some(L) case 'l' => Some(L)
      case 'J' => Some(J) case 'j' => Some(J)
      case 'T' => Some(T) case 't' => Some(T)
      case 'Z' => Some(Z) case 'z' => Some(Z)
      case 'S' => Some(S) case 's' => Some(S)
      case 'O' => Some(O) case 'o' => Some(O)
      case 'I' => Some(I) case 'i' => Some(I)
      case _ => None
  }

  /** Both spellings of every variant's name parse back to it. */
  lemma ParseName(v: MinoVariant)
    ensures ParseVariant([Name(v)]) == Some(v)
    ensures ParseVariant([Lower(Name(v))]) == Some(v)
  {
  }

  /** The board tags `From<Option<&str>>` accepts; any other string makes `unwrap` panic. */
  predicate IsCellTag(name: Option<string>)
  {
    name.None? || name.value == "gb" || ParseVariant(name.value).Some?
  }

  /** `From<Option<&str>> for Cell`: no tag is empty, "gb" is garbage, a name is a piece. */
  function CellFromTag(name: Option<string>): (c: Cell)
    requires IsCellTag(name)
    ensures c == Empty <==> name.None?
    ensures c == Garbage <==> name == Some("gb")
    ensures c.Tetromino? ==> ParseVariant(name.value) == Some(c.variant)
  {
    match name
    case None => Empty
    case Some(s) => if s == "gb" then Garbage else Tetromino(ParseVariant(s).value)
  }

  /** `Cell::is_empty`: the cell an absent tag decodes to, and no other. */
  predicate IsEmpty(c: Cell)
    ensures IsEmpty(c) <==> c == CellFromTag(None)
  {
    c.Empty?
  }

  /** A decoded tag is empty exactly when there was no tag. */
  lemma EmptyIffNoTag(name: Option<string>)
    requires IsCellTag(name)
    ensures IsEmpty(CellFromTag(name)) <==> name.None?
  {
  }

  /** `Spin`, with its `repr(i8)` discriminants. */
  datatype Spin = CW | CCW | Flip

  function SpinValue(s: Spin): int
  {
    match s
    case CW => 1
    case CCW => 3
    case Flip => 2
  }

  /** `Direction`, numbered clockwise from Up. */
  datatype Direction = Up | Right | Down | Left

  function DirectionValue(d: Direction): (n: int)
    ensures 0 <= n < 4
  {
    match d
    case Up => 0
    case Right => 1
    case Down => 2
    case Left => 3
  }

  /**
   * `From<i8> for Direction`: transmutes `n % 4`. Rust's `%` keeps the sign of n, so a negative
   * n would produce an invalid discriminant; only nonnegative i8 values are defined.
   */
  function DirectionFromI8(n: int): (d: Direction)
    requires 0 <= n <= 127
    ensures DirectionValue(d) == n % 4
  {
    match n % 4
    case 0 => Up
    case 1 => Right
    case 2 => Down
    case 3 => Left
  }

  /** The discriminant determines the direction. */
  lemma DirectionValueInjective(d: Direction, e: Direction)
    ensures DirectionValue(d) == DirectionValue(e) ==> d == e
  {
  }

  /** `Direction + Spin`: the discriminants added mod 4; a spin always changes the direction. */
  function Add(d: Direction, s: Spin): (r: Direction)
    ensures DirectionValue(r) == (DirectionValue(d) + SpinValue(s)) % 4
    ensures r != d
  {
    DirectionFromI8(DirectionValue(d) + SpinValue(s))
  }

  /** Every sum, written out: clockwise is the next direction in Up, Right, Down, Left. */
  lemma AddTable()
    ensures Add(Up, CW) == Right && Add(Right, CW) == Down && Add(Down, CW) == Left && Add(Left, CW) == Up
    ensures Add(Up, CCW) == Left && Add(Right, CCW) == Up && Add(Down, CCW) == Right && Add(Left, CCW) == Down
    ensures Add(Up, Flip) == Down && Add(Right, Flip) == Left && Add(Down, Flip) == Up && Add(Left, Flip) == Right
  {
  }

  /** A clockwise and a counter-clockwise spin cancel, in either order. */
  lemma SpinsCancel(d: Direction)
    ensures Add(Add(d, CW), CCW) == d
    ensures Add(Add(d, CCW), CW) == d
  {
    // Only the arithmetic contract of Add is needed, not its definition.
    hide Add;
    var v := DirectionValue(d);
    assert DirectionValue(Add(d, CW)) == (v + 1) % 4;
    assert DirectionValue(Add(d, CCW)) == (v + 3) % 4;
    DirectionValueInjective(Add(Add(d, CW), CCW), d);
    DirectionValueInjective(Add(Add(d, CCW), CW), d);
  }

  /** Two half turns, or four clockwise quarter turns, return to the start. */
  lemma FullTurns(d: Direction)
    ensures Add(Add(d, Flip), Flip) == d
    ensures Add(Add(Add(Add(d, CW), CW), CW), CW) == d
  {
    hide Add;
    var v := DirectionValue(d);
    assert DirectionValue(Add(d, Flip)) == (v + 2) % 4;
    DirectionValueInjective(Add(Add(d, Flip), Flip), d);
    var a := Add(d, CW);
    assert DirectionValue(a) == (v + 1) % 4;
    var b := Add(a, CW);
    assert DirectionValue(b) == (v + 2) % 4;
    var c := Add(b, CW);
    assert DirectionValue(c) == (v + 3) % 4;
    DirectionValueInjective(Add(c, CW), d);
  }

  /** A rotation from one direction of a piece to another: the key of the kick table. */
  datatype Rotation = Rotation(piece: MinoVariant, from: Direction, to: Direction)

  /** A piece's state: variant, direction and the (usize, usize) coordinate of its origin. */
  datatype Mino = Mino(variant: MinoVariant, direction: Direction, coord: (int, int))

  predicate ValidMino(m: Mino)
  {
    Offsets.InUsize(m.coord.0) && Offsets.InUsize(m.coord.1)
  }

  /** `From<MinoVariant> for Mino`: a new piece points up at (5, 22). */
  function MinoOf(v: MinoVariant): (m: Mino)
    ensures ValidMino(m) && m.variant == v && m.direction == Up
    ensures m.coord == (5, 22)
  {
    Mino(v, Up, (5, 22))
  }

  /** `Mino::rotate`: a copy turned by the spin; nothing but the direction changes. */
  function Rotate(m: Mino, at: Spin): (r: Mino)
    ensures r.variant == m.variant && r.coord == m.coord
    ensures DirectionValue(r.direction) == (DirectionValue(m.direction) + SpinValue(at)) % 4
    ensures r.direction != m.direction
  {
    m.(direction := Add(m.direction, at))
  }

  /** `Mino::rotation`: the rotation that `rotate` performs, from the old direction to the new. */
  function RotationOf(m: Mino, at: Spin): (r: Rotation)
    ensures r.piece == m.variant && r.from == m.direction
    ensures r.to == Rotate(m, at).direction && r.to != r.from
  {
    Rotation(m.variant, m.direction, Add(m.direction, at))
  }
}
