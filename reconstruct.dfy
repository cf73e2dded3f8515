/**
 * The implemented part of tetrio-replay's reconstruction: scanning a replay's events for
 * the first full-state event, the initial controller state, the hold and hard-drop key
 * latches, and the event loop of `stream`. Every branch that is still `todo!()`,
 * `unimplemented!()` or `unreachable!()` is modelled as a panic outcome carrying the
 * message Rust prints for it; the board behind `Board::new` and `Board::hold` is not part
 * of this model, so the board is a counter of hold calls and the actions a hold returns
 * are a parameter.
 */
module Reconstruct {

  import BsrTetromino
  import opened Tables

  /** The replay actions of bsr-tools. */
  datatype Action =
    | Garbage(column: int, height: int)
    | Reposition(piece: BsrTetromino.Mino)
    | LineClear(line: int)
    | CellAction(position: (int, int), kind: BsrTetromino.Cell)

  datatype Key = Hold | Left | Right | Clockwise | Flip | CounterClockwise | SoftDrop | HardDrop

  /** The event payloads; of a full-state event only the seed is kept. */
  datatype EventData =
    | Start
    | Full(seed: int)
    | Targets
    | KeyDown(key: Key)
    | KeyUp(key: Key)
    | InGameEvent
    | End

  /** An event with its `u32` frame. */
  datatype Event = Event(frame: int, data: EventData)

  datatype Outcome<T> = Ok(value: T) | Err(message: string) | Panic(reason: string)

  const NO_FULL_DATA: string := "could not find full data to extract initial game state from"
  const TODO: string := "not yet implemented"
  const TODO_HARD_DROP: string := "not yet implemented: perform hard drop"
  const GAME_PARSING: string := "not implemented: game parsing"
  const UNREACHABLE: string := "internal error: entered unreachable code"

  datatype ShiftDirection = NotShifting | ShiftingLeft | ShiftingRight

  /** `Default for ShiftDirection`. */
  function DefaultShift(): (s: ShiftDirection)
    ensures s.NotShifting?
  {
    NotShifting
  }

  /** The index of the first full-state event, if any. */
  function FirstFull(events: seq<Event>): (r: Option<nat>)
    ensures r.Some? ==> r.value < |events| && events[r.value].data.Full?
    ensures r.Some? ==> forall j :: 0 <= j < r.value ==> !events[j].data.Full?
    ensures r.None? ==> forall j :: 0 <= j < |events| ==> !events[j].data.Full?
  {
    if events == [] then None
    else if events[0].data.Full? then Some(0)
    else
      match FirstFull(events[1..])
      case None => None
      case Some(i) => Some(i + 1)
  }

  // ---------------------------------------------------------------------------------------
  // Key latches

  /** The three key latches of `State`. */
  datatype Latches = Latches(hardDrop: bool, hold: bool, rotate: bool)

  /** What one key event does: new latches, the actions appended and whether the board was asked to hold. */
  datatype KeyOutcome = Handled(latches: Latches, appended: seq<Action>, holdCalled: bool) | Unimplemented(message: string)

  /** `State::handle_keys` on the latches, given what `board.hold()` would return. */
  function KeyStep(l: Latches, key: Key, down: bool, held: seq<Action>): (r: KeyOutcome)
    ensures r.Handled? <==> key == Hold || (key == HardDrop && (down ==> l.hardDrop))
    ensures r.Handled? ==> r.latches.rotate == l.rotate
    ensures r.Handled? && r.holdCalled ==> key == Hold && down && !l.hold && r.appended == held
    ensures r.Handled? && !r.holdCalled ==> r.appended == []
  {
    if down then
      match key
      case Hold => if !l.hold then Handled(l.(hold := true), held, true) else Handled(l, [], false)
      case HardDrop => if !l.hardDrop then Unimplemented(TODO_HARD_DROP) else Handled(l, [], false)
      case _ => Unimplemented(TODO)
    else
      match key
      case Hold => Handled(l.(hold := false), [], false)
      case HardDrop => Handled(l.(hardDrop := false), [], false)
      case _ => Unimplemented(TODO)
  }

  /** A Hold key-down with the latch clear asks the board once, appends its actions and sets the latch. */
  lemma HoldDown(l: Latches, held: seq<Action>)
    requires !l.hold
    ensures KeyStep(l, Hold, true, held) == Handled(l.(hold := true), held, true)
  {
  }

  /** Once latched, further Hold key-downs do nothing until a key-up. */
  lemma HoldRepeatIsIdle(l: Latches, first: seq<Action>, again: seq<Action>)
    ensures KeyStep(l, Hold, true, first).Handled?
    ensures var after := KeyStep(l, Hold, true, first).latches;
      KeyStep(after, Hold, true, again) == Handled(after, [], false)
  {
  }

  /** A Hold key-up clears the latch, so the next key-down holds again. */
  lemma HoldReleaseRearms(l: Latches, held: seq<Action>)
    ensures KeyStep(l, Hold, false, []) == Handled(l.(hold := false), [], false)
    ensures KeyStep(KeyStep(l, Hold, false, []).latches, Hold, true, held).appended == held
  {
  }

  /** A HardDrop key-up clears its latch and changes nothing else. */
  lemma HardDropRelease(l: Latches, held: seq<Action>)
    ensures KeyStep(l, HardDrop, false, held) == Handled(l.(hardDrop := false), [], false)
  {
  }

  /** Movement and rotation keys are not implemented in either direction. */
  lemma OtherKeysUnimplemented(l: Latches, key: Key, down: bool, held: seq<Action>)
    requires key != Hold && key != HardDrop
    ensures KeyStep(l, key, down, held) == Unimplemented(TODO)
  {
  }

  // ---------------------------------------------------------------------------------------
  // Controller

  /** The board, reduced to how often it was asked to hold. */
  class Board {
    var seed: int
    var holdCalls: nat

    /** `Board::new(options.seed, ...)`. */
    constructor New(seed: int)
      ensures this.seed == seed && holdCalls == 0
    {
      this.seed := seed;
      holdCalls := 0;
    }

    /** `Board::hold`: the actions it returns are given. */
    method DoHold(reply: seq<Action>) returns (actions: seq<Action>)
      modifies this
      ensures actions == reply
      ensures seed == old(seed) && holdCalls == old(holdCalls) + 1
    {
      holdCalls := holdCalls + 1;
      actions := reply;
    }
  }

  /** `State`; the `f32` counters are kept exact. */
  class State {
    var gravityCounter: real
    var shiftCounter: real
    var shifting: ShiftDirection
    var hardDrop: bool
    var hold: bool
    var rotate: bool

    function Latched(): Latches
      reads this
    {
      Latches(hardDrop, hold, rotate)
    }

    ghost predicate IsDefault()
      reads this
    {
      gravityCounter == 0.0 && shiftCounter == 0.0 && shifting == DefaultShift()
      && !hardDrop && !hold && !rotate
    }

    /** The derived `Default`. */
    constructor Default()
      ensures IsDefault()
    {
      gravityCounter, shiftCounter := 0.0, 0.0;
      shifting := DefaultShift();
      hardDrop, hold, rotate := false, false, false;
    }

    /**
     * `handle_keys`: updates the latches and the stream as `KeyStep` says, asking the board
     * to hold when it does, or panics on an unimplemented key.
     */
    method HandleKeys(board: Board, stream: seq<Action>, key: Key, down: bool, held: seq<Action>)
      returns (r: Outcome<seq<Action>>)
      modifies this, board
      ensures var step := KeyStep(old(Latched()), key, down, held);
        && (step.Unimplemented? ==> r == Panic(step.message))
        && (step.Handled? ==> r == Ok(stream + step.appended) && Latched() == step.latches
                              && board.holdCalls == old(board.holdCalls) + (if step.holdCalled then 1 else 0))
      ensures gravityCounter == old(gravityCounter) && shiftCounter == old(shiftCounter)
      ensures shifting == old(shifting) && board.seed == old(board.seed)
    {
      if down {
        match key
        case Hold =>
          if !hold {
            var actions := board.DoHold(held);
            r := Ok(stream + actions);
            hold := true;
          } else {
            assert stream + [] == stream;
            r := Ok(stream);
          }
        case HardDrop =>
          if !hardDrop {
            r := Panic(TODO_HARD_DROP);
          } else {
            assert stream + [] == stream;
            r := Ok(stream);
          }
        case _ =>
          r := Panic(TODO);
      } else {
        match key
        case Hold =>
          hold := false;
          assert stream + [] == stream;
          r := Ok(stream);
        case HardDrop =>
          hardDrop := false;
          assert stream + [] == stream;
          r := Ok(stream);
        case _ =>
          r := Panic(TODO);
      }
    }
  }

  /**
   * The panic that ends `stream` at its first event: `unreachable!` for a start event, `todo!`
   * for in-game and end events, the key handler's own panic for an unimplemented key, and
   * otherwise the `unimplemented!("game parsing")` that follows the match.
   */
  function FirstEventPanic(data: EventData, l: Latches, held: seq<Action>): (reason: string)
    ensures data.Start? ==> reason == UNREACHABLE
    ensures data.InGameEvent? || data.End? ==> reason == TODO
    ensures data.Full? || data.Targets? ==> reason == GAME_PARSING
    ensures data.KeyDown? || data.KeyUp? ==>
      var step := KeyStep(l, data.key, data.KeyDown?, held);
      reason == if step.Unimplemented? then step.message else GAME_PARSING
  {
    match data
    case Start => UNREACHABLE
    case InGameEvent => TODO
    case End => TODO
    case KeyDown(key) =>
      var step := KeyStep(l, key, true, held);
      if step.Unimplemented? then step.message else GAME_PARSING
    case KeyUp(key) =>
      var step := KeyStep(l, key, false, held);
      if step.Unimplemented? then step.message else GAME_PARSING
    case _ => GAME_PARSING
  }

  /** No event lets `stream` finish: each one panics with one of the five messages. */
  lemma StreamNeverFinishes(data: EventData, l: Latches, held: seq<Action>)
    ensures var reason := FirstEventPanic(data, l, held);
      reason == UNREACHABLE || reason == TODO || reason == TODO_HARD_DROP || reason == GAME_PARSING
    ensures FirstEventPanic(data, l, held) == TODO_HARD_DROP <==> data == KeyDown(HardDrop) && !l.hardDrop
  {
  }

  class Controller {
    var events: seq<Event>
    var board: Board
    var state: State

    constructor FromParts(events: seq<Event>, board: Board, state: State)
      ensures this.events == events && this.board == board && this.state == state
    {
      this.events, this.board, this.state := events, board, state;
    }

    /**
     * `stream`: runs the event loop. Every event ends in a panic, at the latest at the
     * `unimplemented!` after the match, so the stream is returned only when no event is left;
     * the frame difference is therefore only ever taken from 0.
     */
    method Stream(held: seq<Action>) returns (r: Outcome<seq<Action>>)
      modifies board, state
      ensures r.Ok? <==> events == []
      ensures r.Ok? ==> r.value == []
      ensures events != [] ==> r == Panic(FirstEventPanic(events[0].data, old(state.Latched()), held))
    {
      var stream := [];
      // The body of `for event in self.events` returns on every path, so at most its first
      // iteration runs: the loop is written as that one iteration.
      if events != [] {
        var event := events[0];
        match event.data {
          case Start =>
            return Panic(UNREACHABLE);
          case Full(_) =>
          case Targets =>
          case KeyDown(key) =>
            var outcome := state.HandleKeys(board, stream, key, true, held);
            if outcome.Panic? {
              return outcome;
            }
          case KeyUp(key) =>
            var outcome := state.HandleKeys(board, stream, key, false, held);
            if outcome.Panic? {
              return outcome;
            }
          case InGameEvent =>
            return Panic(TODO);
          case End =>
            return Panic(TODO);
        }
        return Panic(GAME_PARSING);
      }
      return Ok(stream);
    }
  }

  /**
   * `Controller::read_game`: consumes events up to and including the first full-state event
   * and builds the controller from it with the remaining events and a default state.
   */
  method ReadGame(game: seq<Event>) returns (r: Outcome<Controller>)
    ensures r.Err? <==> FirstFull(game).None?
    ensures r.Err? ==> r.message == NO_FULL_DATA
    ensures !r.Panic?
    ensures r.Ok? ==> (
      && FirstFull(game).Some?
      && r.value.events == game[FirstFull(game).value + 1..]
      && r.value.board.seed == game[FirstFull(game).value].data.seed
      && r.value.board.holdCalls == 0
      && r.value.state.IsDefault()
      && fresh(r.value) && fresh(r.value.board) && fresh(r.value.state))
  {
    var i := 0;
    while i < |game| && !game[i].data.Full?
      invariant 0 <= i <= |game|
      invariant forall j :: 0 <= j < i ==> !game[j].data.Full?
    {
      i := i + 1;
    }
    if i == |game| {
      return Err(NO_FULL_DATA);
    }
    var board := new Board.New(game[i].data.seed);
    var state := new State.Default();
    var controller := new Controller.FromParts(game[i + 1..], board, state);
    return Ok(controller);
  }

  /**
   * `reconstruct`: reads the game, then streams the rest. It returns the (empty) stream only
   * when the first full-state event is the last event, and the read error when there is none.
   */
  method ReconstructReplay(events: seq<Event>, held: seq<Action>) returns (r: Outcome<seq<Action>>)
    ensures r.Err? <==> FirstFull(events).None?
    ensures r.Err? ==> r.message == NO_FULL_DATA
    ensures r.Ok? <==> FirstFull(events) == Some(|events| - 1)
    ensures r.Ok? ==> r.value == []
    ensures FirstFull(events).Some? && FirstFull(events).value + 1 < |events| ==>
      r == Panic(FirstEventPanic(events[FirstFull(events).value + 1].data, Latches(false, false, false), held))
  {
    var game := ReadGame(events);
    match game {
      case Err(message) =>
        return Err(message);
      case Ok(controller) =>
        r := controller.Stream(held);
    }
  }
}
