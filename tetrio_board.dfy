/**
 * The piece vocabulary of tetrio-replay's board: variants, cells, the three rotation
 * directions and the four rotation states with their mod-4 arithmetic, and the rotation a
 * tetromino performs. This revision numbers the states Up, Left, Down, Right, so a clockwise
 * turn from Up lands on Left.
 */
module TetrioBoard {

  datatype TetrominoVariant = L | J | T | Z | S | O | I

  /** A filled board cell; an empty cell is the `None` of the grid's `Option<Cell>`. */
  datatype Cell = Tetromino(variant: TetrominoVariant) | Garbage

  /** `Direction`, with its `repr(i8)` discriminants. */
  datatype Direction = CW | CCW | Flip

  function DirectionValue(d: Direction): int
  {
    match d
    case CW => 1
    case CCW => 3
    case Flip => 2
  }

  /** `RotationState`, with its `repr(i8)` discriminants. */
  datatype RotationState = Up | Left | Down | Right

  function StateValue(s: RotationState): (n: int)
    ensures 0 <= n < 4
  {
    match s
    case Up => 0
    case Left => 1
    case Down => 2
    case Right => 3
  }

  lemma StateValueInjective(s: RotationState, t: RotationState)
    ensures StateValue(s) == StateValue(t) ==> s == t
  {
  }

  /**
   * `From<i8> for RotationState`: transmutes `n % 4`. Rust's `%` keeps the sign of n, so only
   * nonnegative i8 values give a valid discriminant.
   */
  function FromI8(n: int): (s: RotationState)
    requires 0 <= n <= 127
    ensures StateValue(s) == n % 4
  {
    match n % 4
    case 0 => Up
    case 1 => Left
    case 2 => Down
    case 3 => Right
  }

  lemma FromI8RoundTrip(s: RotationState)
    ensures FromI8(StateValue(s)) == s
  {
    StateValueInjective(FromI8(StateValue(s)), s);
  }

  /** `RotationState + Direction`: the discriminants added mod 4; a turn always changes the state. */
  function Add(s: RotationState, d: Direction): (r: RotationState)
    ensures StateValue(r) == (StateValue(s) + DirectionValue(d)) % 4
    ensures r != s
  {
    FromI8(StateValue(s) + DirectionValue(d))
  }

  /** Every sum, written out: with this numbering clockwise goes Up, Left, Down, Right. */
  lemma AddTable()
    ensures Add(Up, CW) == Left && Add(Left, CW) == Down && Add(Down, CW) == Right && Add(Right, CW) == Up
    ensures Add(Up, CCW) == Right && Add(Left, CCW) == Up && Add(Down, CCW) == Left && Add(Right, CCW) == Down
    ensures Add(Up, Flip) == Down && Add(Left, Flip) == Right && Add(Down, Flip) == Up && Add(Right, Flip) == Left
  {
  }

  /** A clockwise and a counter-clockwise turn cancel, in either order. */
  lemma TurnsCancel(s: RotationState)
    ensures Add(Add(s, CW), CCW) == s
    ensures Add(Add(s, CCW), CW) == s
  {
    hide Add;
    var v := StateValue(s);
    assert StateValue(Add(s, CW)) == (v + 1) % 4;
    assert StateValue(Add(s, CCW)) == (v + 3) % 4;
    StateValueInjective(Add(Add(s, CW), CCW), s);
    StateValueInjective(Add(Add(s, CCW), CW), s);
  }

  /** Two flips, or four clockwise turns, return to the start. */
  lemma FullTurns(s: RotationState)
    ensures Add(Add(s, Flip), Flip) == s
    ensures Add(Add(Add(Add(s, CW), CW), CW), CW) == s
  {
    hide Add;
    var v := StateValue(s);
    assert StateValue(Add(s, Flip)) == (v + 2) % 4;
    StateValueInjective(Add(Add(s, Flip), Flip), s);
    var a := Add(s, CW);
    assert StateValue(a) == (v + 1) % 4;
    var b := Add(a, CW);
    assert StateValue(b) == (v + 2) % 4;
    var c := Add(b, CW);
    assert StateValue(c) == (v + 3) % 4;
    StateValueInjective(Add(c, CW), s);
  }

  /** A rotation from one state of a piece to another: the key of the kick table. */
  datatype Rotation = Rotation(piece: TetrominoVariant, from: RotationState, to: RotationState)

  /** The active piece: variant, rotation state and (usize, usize) position. */
  datatype Tetromino = TetrominoState(variant: TetrominoVariant, rotationState: RotationState, position: (int, int))

  /** `Tetromino::rotation`: from the current state to the state the turn leads to. */
  function RotationOf(t: Tetromino, at: Direction): (r: Rotation)
    ensures r.piece == t.variant && r.from == t.rotationState
    ensures StateValue(r.to) == (StateValue(r.from) + DirectionValue(at)) % 4
    ensures r.to != r.from
  {
    Rotation(t.variant, t.rotationState, Add(t.rotationState, at))
  }
}
