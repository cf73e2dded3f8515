/**
 * The playback state of viewtris-player: each replay is a frame-stamped list of actions with
 * a cursor counting how many of them have been applied to the replay's board, and the player
 * keeps a frame counter shared by all replays and a play/pause clock.
 *
 * `Board::apply_action` and `Board::rollback_action` are not part of this model. The board is
 * therefore the log of the calls made on it since it was last emptied, and its meaning is
 * given by `Net`: an apply pushes the action's kind, a rollback undoes the most recently
 * applied action, which must be of that kind. A replay is consistent when the net board is
 * exactly the actions that its cursor counts.
 */
module PlayerState {

  import opened Tables

  const U32_MAX: int := 0xFFFF_FFFF

  /** An action and the `u32` frame on which it happens. */
  datatype Action<K> = Action(frame: int, kind: K)

  /** A call made on the board. */
  datatype BoardCall<K> = Apply(kind: K) | Rollback(kind: K)

  /** The kinds of some actions, in order. */
  function Kinds<K>(s: seq<Action<K>>): (r: seq<K>)
    ensures |r| == |s|
    ensures forall i :: 0 <= i < |s| ==> r[i] == s[i].kind
  {
    seq(|s|, i requires 0 <= i < |s| => s[i].kind)
  }

  /** The applies for s[from], ..., s[to - 1], in that order. */
  function Applied<K>(s: seq<Action<K>>, from: nat, to: nat): (r: seq<BoardCall<K>>)
    requires from <= to <= |s|
    ensures |r| == to - from
    ensures forall k :: 0 <= k < |r| ==> r[k] == Apply(s[from + k].kind)
  {
    seq(to - from, k requires 0 <= k < to - from => Apply(s[from + k].kind))
  }

  /** The rollbacks for s[to - 1], ..., s[from], last applied first. */
  function Rollbacks<K>(s: seq<Action<K>>, from: nat, to: nat): (r: seq<BoardCall<K>>)
    requires from <= to <= |s|
    ensures |r| == to - from
    ensures forall k :: 0 <= k < |r| ==> r[k] == Rollback(s[to - 1 - k].kind)
  {
    seq(to - from, k requires 0 <= k < to - from => Rollback(s[to - 1 - k].kind))
  }

  /** One board call on the net board; None once a rollback does not match the last apply. */
  function Step<K(==)>(board: Option<seq<K>>, c: BoardCall<K>): Option<seq<K>>
  {
    match board
    case None => None
    case Some(st) =>
      match c
      case Apply(k) => Some(st + [k])
      case Rollback(k) => if |st| > 0 && st[|st| - 1] == k then Some(st[..|st| - 1]) else None
  }

  /** The actions a log of board calls leaves applied, replayed from the empty board. */
  function Net<K(==)>(log: seq<BoardCall<K>>): Option<seq<K>>
  {
    if log == [] then Some([]) else Step(Net(log[..|log| - 1]), log[|log| - 1])
  }

  lemma NetSnoc<K>(log: seq<BoardCall<K>>, c: BoardCall<K>)
    ensures Net(log + [c]) == Step(Net(log), c)
  {
    assert (log + [c])[..|log|] == log;
  }

  /** Applying the next action keeps the net board equal to the counted actions. */
  lemma ApplyNext<K>(log: seq<BoardCall<K>>, s: seq<Action<K>>, p: nat)
    requires p < |s| && Net(log) == Some(Kinds(s[..p]))
    ensures Net(log + [Apply(s[p].kind)]) == Some(Kinds(s[..p + 1]))
  {
    NetSnoc(log, Apply(s[p].kind));
    assert Kinds(s[..p + 1]) == Kinds(s[..p]) + [s[p].kind];
  }

  /** Rolling back the last counted action keeps the net board equal to the counted actions. */
  lemma RollbackLast<K>(log: seq<BoardCall<K>>, s: seq<Action<K>>, p: nat)
    requires 0 < p <= |s| && Net(log) == Some(Kinds(s[..p]))
    ensures Net(log + [Rollback(s[p - 1].kind)]) == Some(Kinds(s[..p - 1]))
  {
    NetSnoc(log, Rollback(s[p - 1].kind));
    assert Kinds(s[..p - 1]) == Kinds(s[..p])[..p - 1];
  }

  // ---------------------------------------------------------------------------------------
  // Where the cursor stops

  /**
   * Where `advance_to_frame(f)` leaves a cursor that starts at `from`: it passes every action
   * of frame at most f and stops at the first later one or at the end.
   */
  function AdvanceStop<K>(s: seq<Action<K>>, from: nat, f: int): (r: nat)
    requires from <= |s|
    ensures from <= r <= |s|
    ensures forall k :: from <= k < r ==> s[k].frame <= f
    ensures r == |s| || s[r].frame > f
    decreases |s| - from
  {
    if from == |s| || s[from].frame > f then from else AdvanceStop(s, from + 1, f)
  }

  /**
   * Where a rewind to frame f leaves a cursor at `p`: it moves back over every counted
   * action of frame above f and stops after the last counted action of frame at most f.
   */
  function RewindStop<K>(s: seq<Action<K>>, p: nat, f: int): (r: nat)
    requires p <= |s|
    ensures r <= p
    ensures r == 0 || s[r - 1].frame <= f
    ensures forall k :: r <= k < p ==> s[k].frame > f
  {
    if p == 0 || s[p - 1].frame <= f then p else RewindStop(s, p - 1, f)
  }

  /**
   * The rollbacks `rewind_to_frame` performs, as written: every action it moves back over and,
   * when it stops before reaching 0, also the action it stops at.
   */
  function RollbacksAsWritten<K>(s: seq<Action<K>>, p: nat, f: int): (r: seq<BoardCall<K>>)
    requires p <= |s|
    ensures p == 0 ==> r == []
    ensures p > 0 ==> |r| == p - RewindStop(s, p, f) + (if RewindStop(s, p, f) > 0 then 1 else 0)
    ensures p > 0 && RewindStop(s, p, f) > 0 ==> r[|r| - 1] == Rollback(s[RewindStop(s, p, f) - 1].kind)
  {
    if p == 0 then []
    else [Rollback(s[p - 1].kind)] + (if s[p - 1].frame <= f then [] else RollbacksAsWritten(s, p - 1, f))
  }

  lemma AdvanceStopStep<K>(s: seq<Action<K>>, from: nat, f: int)
    requires from < |s| && s[from].frame <= f
    ensures AdvanceStop(s, from + 1, f) == AdvanceStop(s, from, f)
  {
  }

  lemma RewindStopStep<K>(s: seq<Action<K>>, p: nat, f: int)
    requires 0 < p <= |s| && s[p - 1].frame > f
    ensures RewindStop(s, p - 1, f) == RewindStop(s, p, f)
  {
  }

  lemma RewindStopHere<K>(s: seq<Action<K>>, p: nat, f: int)
    requires 0 < p <= |s| && s[p - 1].frame <= f
    ensures RewindStop(s, p, f) == p
  {
  }

  lemma RollbacksAsWrittenStep<K>(s: seq<Action<K>>, p: nat, f: int)
    requires 0 < p <= |s|
    ensures RollbacksAsWritten(s, p, f) == [Rollback(s[p - 1].kind)]
      + (if s[p - 1].frame <= f then [] else RollbacksAsWritten(s, p - 1, f))
  {
  }

  lemma RollbacksStep<K>(s: seq<Action<K>>, from: nat, to: nat)
    requires 0 < from <= to <= |s|
    ensures Rollbacks(s, from - 1, to) == Rollbacks(s, from, to) + [Rollback(s[from - 1].kind)]
  {
  }

  lemma AppliedStep<K>(s: seq<Action<K>>, from: nat, to: nat)
    requires from <= to < |s|
    ensures Applied(s, from, to + 1) == Applied(s, from, to) + [Apply(s[to].kind)]
  {
  }

  ghost predicate SortedByFrame<K>(s: seq<Action<K>>)
  {
    forall i, j :: 0 <= i < j < |s| ==> s[i].frame <= s[j].frame
  }

  /** The number of actions of frame at most f. */
  function CountAtMost<K>(s: seq<Action<K>>, f: int): (r: nat)
    ensures r <= |s|
  {
    if s == [] then 0 else (if s[0].frame <= f then 1 else 0) + CountAtMost(s[1..], f)
  }

  lemma {:induction false} CountAtMostNone<K>(s: seq<Action<K>>, f: int)
    requires forall k :: 0 <= k < |s| ==> s[k].frame > f
    ensures CountAtMost(s, f) == 0
  {
    if s != [] {
      CountAtMostNone(s[1..], f);
    }
  }

  /** On actions sorted by frame, advancing from `from` passes exactly the remaining actions of frame at most f. */
  lemma {:induction false} AdvanceCounts<K>(s: seq<Action<K>>, from: nat, f: int)
    requires SortedByFrame(s) && from <= |s|
    ensures AdvanceStop(s, from, f) == from + CountAtMost(s[from..], f)
    decreases |s| - from
  {
    if from == |s| {
      assert s[from..] == [];
    } else if s[from].frame > f {
      CountAtMostNone(s[from..], f);
    } else {
      assert s[from..][1..] == s[from + 1..];
      AdvanceCounts(s, from + 1, f);
    }
  }

  /** So after a reset and `advance_to_frame(f)` the cursor is the number of actions of frame at most f. */
  lemma AdvanceFromStart<K>(s: seq<Action<K>>, f: int)
    requires SortedByFrame(s)
    ensures AdvanceStop(s, 0, f) == CountAtMost(s, f)
  {
    AdvanceCounts(s, 0, f);
    assert s[0..] == s;
  }

  /** On sorted actions a cursor between the frames at most g and the later ones is where advancing to g stops. */
  lemma BoundaryIsStop<K>(s: seq<Action<K>>, p: nat, g: int)
    requires SortedByFrame(s) && p <= |s|
    requires p == 0 || s[p - 1].frame <= g
    requires p == |s| || s[p].frame > g
    ensures AdvanceStop(s, 0, g) == p
  {
  }

  /**
   * On sorted actions, advancing to f and then rewinding to an earlier frame g leaves the
   * cursor where advancing to g from the start does.
   */
  lemma RewindAfterAdvance<K>(s: seq<Action<K>>, f: int, g: int)
    requires SortedByFrame(s) && g <= f
    ensures RewindStop(s, AdvanceStop(s, 0, f), g) == AdvanceStop(s, 0, g)
  {
    var p := AdvanceStop(s, 0, f);
    var r := RewindStop(s, p, g);
    if r == p && r < |s| {
      assert s[r].frame > f;
    }
    BoundaryIsStop(s, r, g);
  }

  /**
   * The as-written rewind breaks consistency whenever it stops before the start: the action
   * it stops at is rolled back but stays counted, so the net board is one action short.
   */
  lemma {:induction false} AsWrittenLosesKept<K>(log: seq<BoardCall<K>>, s: seq<Action<K>>, p: nat, f: int)
    requires 0 < p <= |s| && Net(log) == Some(Kinds(s[..p]))
    requires RewindStop(s, p, f) > 0
    ensures Net(log + RollbacksAsWritten(s, p, f)) == Some(Kinds(s[..RewindStop(s, p, f) - 1]))
    ensures Net(log + RollbacksAsWritten(s, p, f)) != Some(Kinds(s[..RewindStop(s, p, f)]))
    decreases p
  {
    hide Net, Kinds, RewindStop, RollbacksAsWritten;
    var next := log + [Rollback(s[p - 1].kind)];
    RollbackLast(log, s, p);
    RollbacksAsWrittenStep(s, p, f);
    if s[p - 1].frame <= f {
      RewindStopHere(s, p, f);
      assert [Rollback(s[p - 1].kind)] + [] == [Rollback(s[p - 1].kind)];
    } else {
      RewindStopStep(s, p, f);
      var rest := RollbacksAsWritten(s, p - 1, f);
      assert log + RollbacksAsWritten(s, p, f) == next + rest;
      AsWrittenLosesKept(next, s, p - 1, f);
    }
  }

  /** Concretely: actions on frames 0 and 5, both applied, rewound to frame 4. */
  lemma RewindCounterexample()
    ensures var s := [Action(0, 'a'), Action(5, 'b')];
      && RewindStop(s, 2, 4) == 1
      && RollbacksAsWritten(s, 2, 4) == [Rollback('b'), Rollback('a')]
      && Net(Applied(s, 0, 2)) == Some(Kinds(s[..2]))
      && Net(Applied(s, 0, 2) + RollbacksAsWritten(s, 2, 4)) == Some([])
      && Kinds(s[..RewindStop(s, 2, 4)]) == ['a']
  {
    var s := [Action(0, 'a'), Action(5, 'b')];
    var a, b := Apply('a'), Apply('b');
    assert Applied(s, 0, 2) == [a, b];
    NetSnoc([], a);
    assert [] + [a] == [a];
    assert [] + ['a'] == ['a'];
    NetSnoc([a], b);
    assert [a] + [b] == [a, b];
    assert ['a'] + ['b'] == ['a', 'b'];
    assert Net([a, b]) == Some(['a', 'b']);
    assert Kinds(s[..2]) == ['a', 'b'];
    assert RollbacksAsWritten(s, 2, 4) == [Rollback('b'), Rollback('a')];
    NetSnoc([a, b], Rollback('b'));
    assert [a, b] + [Rollback('b')] == [a, b, Rollback('b')];
    NetSnoc([a, b, Rollback('b')], Rollback('a'));
    assert [a, b, Rollback('b')] + [Rollback('a')] == [a, b] + RollbacksAsWritten(s, 2, 4);
    assert Kinds(s[..1]) == ['a'];
  }

  // ---------------------------------------------------------------------------------------
  // One replay

  class Replay<K(==)> {
    /** The calls made on the board since it was last emptied. */
    var board: seq<BoardCall<K>>
    var actions: seq<Action<K>>
    var passed: nat

    ghost predicate InRange()
      reads this
    {
      passed <= |actions|
    }

    /** The net board is exactly the counted actions. */
    ghost predicate Valid()
      reads this
    {
      InRange() && Net(board) == Some(Kinds(actions[..passed]))
    }

    /** `Replay::with_actions`: an empty board and nothing passed. */
    constructor WithActions(actions: seq<Action<K>>)
      ensures board == [] && this.actions == actions && passed == 0
      ensures Valid()
    {
      board := [];
      this.actions := actions;
      passed := 0;
      new;
      assert actions[..0] == [];
    }

    /** `Replay::reset`. */
    method Reset()
      modifies this
      ensures board == [] && passed == 0 && actions == old(actions)
      ensures Valid()
    {
      board := [];
      passed := 0;
      assert actions[..0] == [];
    }

    /**
     * `Replay::is_finished`: with the cursor in range, every action has been passed, and
     * advancing to any frame leaves the cursor where it is.
     */
    predicate IsFinished()
      reads this
      ensures IsFinished() && InRange() ==> passed == |actions|
      ensures IsFinished() && InRange() ==> forall f :: AdvanceStop(actions, passed, f) == passed
    {
      passed >= |actions|
    }

    /**
     * `Replay::advance_to_frame`: applies the actions from the cursor on, in order, up to the
     * first one after `newFrame`.
     */
    method AdvanceToFrame(newFrame: int)
      requires InRange()
      modifies this
      ensures actions == old(actions)
      ensures passed == AdvanceStop(actions, old(passed), newFrame)
      ensures board == old(board) + Applied(actions, old(passed), passed)
      ensures old(Valid()) ==> Valid()
    {
      ghost var consistent := Valid();
      hide Net, AdvanceStop, Applied, Kinds;
      while passed < |actions|
        invariant old(passed) <= passed <= |actions| && actions == old(actions)
        invariant AdvanceStop(actions, passed, newFrame) == AdvanceStop(actions, old(passed), newFrame)
        invariant board == old(board) + Applied(actions, old(passed), passed)
        invariant consistent ==> Valid()
        decreases |actions| - passed
      {
        var action := actions[passed];
        if action.frame > newFrame {
          break;
        }
        if consistent {
          ApplyNext(board, actions, passed);
        }
        AdvanceStopStep(actions, passed, newFrame);
        AppliedStep(actions, old(passed), passed);
        board := board + [Apply(action.kind)];
        passed := passed + 1;
      }
    }

    /**
     * `Replay::rewind_to_frame` as written: when the last counted action is after `newFrame`,
     * moves the cursor back over the actions after `newFrame`, rolling each back, and also
     * rolls back the action it stops at without uncounting it.
     */
    method RewindToFrame(newFrame: int)
      requires InRange()
      modifies this
      ensures InRange() && actions == old(actions)
      ensures passed == RewindStop(actions, old(passed), newFrame)
      ensures old(passed) > 0 && actions[old(passed) - 1].frame > newFrame ==>
        board == old(board) + RollbacksAsWritten(actions, old(passed), newFrame)
      ensures !(old(passed) > 0 && actions[old(passed) - 1].frame > newFrame) ==> board == old(board)
    {
      hide RewindStop, RollbacksAsWritten;
      if passed > 0 && actions[passed - 1].frame > newFrame {
        while passed > 0
          invariant passed <= old(passed) && actions == old(actions)
          invariant RewindStop(actions, passed, newFrame) == RewindStop(actions, old(passed), newFrame)
          invariant board + RollbacksAsWritten(actions, passed, newFrame)
            == old(board) + RollbacksAsWritten(actions, old(passed), newFrame)
        {
          var action := actions[passed - 1];
          RollbacksAsWrittenStep(actions, passed, newFrame);
          if action.frame > newFrame {
            RewindStopStep(actions, passed, newFrame);
          }
          board := board + [Rollback(action.kind)];
          if action.frame <= newFrame {
            break;
          } else {
            passed := passed - 1;
          }
        }
      }
    }

    /**
     * The evidently intended rewind: rolls back exactly the actions it uncounts, so the
     * board keeps matching the cursor.
     */
    method RewindToFrameIntended(newFrame: int)
      requires InRange()
      modifies this
      ensures InRange() && actions == old(actions)
      ensures passed == RewindStop(actions, old(passed), newFrame)
      ensures board == old(board) + Rollbacks(actions, passed, old(passed))
      ensures old(Valid()) ==> Valid()
    {
      ghost var consistent := Valid();
      hide Net, RewindStop, Rollbacks, Kinds, Applied;
      while passed > 0
        invariant passed <= old(passed) && actions == old(actions)
        invariant RewindStop(actions, passed, newFrame) == RewindStop(actions, old(passed), newFrame)
        invariant board == old(board) + Rollbacks(actions, passed, old(passed))
        invariant consistent ==> Valid()
      {
        var action := actions[passed - 1];
        if action.frame <= newFrame {
          RewindStopHere(actions, passed, newFrame);
          break;
        }
        if consistent {
          RollbackLast(board, actions, passed);
        }
        RewindStopStep(actions, passed, newFrame);
        RollbacksStep(actions, passed, old(passed));
        board := board + [Rollback(action.kind)];
        passed := passed - 1;
      }
    }
  }

  // ---------------------------------------------------------------------------------------
  // The player

  /**
   * `ReplayState`: the replays shown side by side, the current frame (a `u32`), when playing
   * began (a time of the clock, absent while paused) and the frame playing began on.
   */
  class ReplayState<K(==)> {
    var replays: seq<Replay<K>>
    var frame: nat
    var playingSince: Option<real>
    var unpausedOnFrame: nat

    /** Every replay is consistent, and each is owned once. */
    ghost predicate Valid()
      reads this, replays
    {
      && (forall i :: 0 <= i < |replays| ==> replays[i].Valid())
      && (forall i, j :: 0 <= i < j < |replays| ==> replays[i] != replays[j])
      && frame <= U32_MAX && unpausedOnFrame <= U32_MAX
    }

    /** `ReplayState::with_actions`: one replay per action list, at frame 0, paused, advanced to frame 0. */
    constructor WithActions(lists: seq<seq<Action<K>>>)
      ensures Valid() && frame == 0 && playingSince.None? && unpausedOnFrame == 0
      ensures |replays| == |lists|
      ensures forall i :: 0 <= i < |lists| ==>
        && fresh(replays[i])
        && replays[i].actions == lists[i]
        && replays[i].passed == AdvanceStop(lists[i], 0, 0)
    {
      var rs: seq<Replay<K>> := [];
      var i := 0;
      while i < |lists|
        invariant 0 <= i <= |lists| && |rs| == i
        invariant forall j :: 0 <= j < i ==> fresh(rs[j]) && rs[j].actions == lists[j] && rs[j].passed == 0 && rs[j].Valid()
        invariant forall j, k :: 0 <= j < k < i ==> rs[j] != rs[k]
      {
        var r := new Replay.WithActions(lists[i]);
        rs := rs + [r];
        i := i + 1;
      }
      replays := rs;
      frame := 0;
      playingSince := None;
      unpausedOnFrame := 0;
      new;
      AdvanceActions();
    }

    /** `ReplayState::play`, given the current time of the clock. */
    method Play(now: real)
      modifies this
      ensures unpausedOnFrame == frame && playingSince == Some(now)
      ensures replays == old(replays) && frame == old(frame)
    {
      unpausedOnFrame := frame;
      playingSince := Some(now);
    }

    /** `ReplayState::pause`. */
    method Pause()
      modifies this
      ensures playingSince.None?
      ensures replays == old(replays) && frame == old(frame) && unpausedOnFrame == old(unpausedOnFrame)
    {
      playingSince := None;
    }

    /** `ReplayState::is_paused`. */
    predicate IsPaused()
      reads this
    {
      playingSince.None?
    }

    /** `ReplayState::toggle_pause`: flips whether the player is paused. */
    method TogglePause(now: real)
      modifies this
      ensures IsPaused() <==> !old(IsPaused())
      ensures !IsPaused() ==> playingSince == Some(now) && unpausedOnFrame == frame
      ensures IsPaused() ==> unpausedOnFrame == old(unpausedOnFrame)
      ensures replays == old(replays) && frame == old(frame)
    {
      if playingSince.Some? {
        Pause();
      } else {
        Play(now);
      }
    }

    /**
     * `ReplayState::is_finished`: every replay is finished, which holds when there are none;
     * in a consistent state every replay has then passed all of its actions.
     */
    predicate IsFinished()
      reads this, replays
      ensures replays == [] ==> IsFinished()
      ensures Valid() && IsFinished() ==> forall i :: 0 <= i < |replays| ==> replays[i].passed == |replays[i].actions|
    {
      forall i :: 0 <= i < |replays| ==> replays[i].IsFinished()
    }

    /** `ReplayState::advance_actions`: advances every replay to the current frame. */
    method AdvanceActions()
      requires Valid()
      modifies replays
      ensures Valid()
      ensures forall i :: 0 <= i < |replays| ==>
        && replays[i].actions == old(replays[i].actions)
        && replays[i].passed == AdvanceStop(replays[i].actions, old(replays[i].passed), frame)
    {
      hide AdvanceStop, Net, Kinds;
      var i := 0;
      while i < |replays|
        invariant 0 <= i <= |replays|
        invariant forall j :: 0 <= j < |replays| ==> replays[j].Valid() && replays[j].actions == old(replays[j].actions)
        invariant forall j :: 0 <= j < i ==> replays[j].passed == AdvanceStop(replays[j].actions, old(replays[j].passed), frame)
        invariant forall j :: i <= j < |replays| ==> replays[j].passed == old(replays[j].passed)
      {
        replays[i].AdvanceToFrame(frame);
        i := i + 1;
      }
    }

    /**
     * `ReplayState::advance_frame`: when some replay is unfinished, moves to the next frame
     * and advances every replay to it; `frame += 1` on a `u32` must not overflow.
     */
    method AdvanceFrame()
      requires Valid()
      requires !IsFinished() ==> frame < U32_MAX
      modifies this, replays
      ensures Valid() && replays == old(replays)
      ensures old(IsFinished()) ==> frame == old(frame)
      ensures !old(IsFinished()) ==> frame == old(frame) + 1
      ensures playingSince == old(playingSince) && unpausedOnFrame == old(unpausedOnFrame)
      ensures forall i :: 0 <= i < |replays| ==>
        && replays[i].actions == old(replays[i].actions)
        && (old(IsFinished()) ==> replays[i].passed == old(replays[i].passed))
        && (!old(IsFinished()) ==> replays[i].passed == AdvanceStop(replays[i].actions, old(replays[i].passed), frame))
    {
      if !IsFinished() {
        frame := frame + 1;
        AdvanceActions();
      }
    }

    /**
     * `ReplayState::rewind_frame`: when past frame 0, moves to the previous frame and rewinds
     * every replay to it, with the corrected rewind.
     */
    method RewindFrame()
      requires Valid()
      modifies this, replays
      ensures Valid() && replays == old(replays)
      ensures frame == if old(frame) > 0 then old(frame) - 1 else 0
      ensures playingSince == old(playingSince) && unpausedOnFrame == old(unpausedOnFrame)
      ensures forall i :: 0 <= i < |replays| ==>
        && replays[i].actions == old(replays[i].actions)
        && (old(frame) == 0 ==> replays[i].passed == old(replays[i].passed))
        && (old(frame) > 0 ==> replays[i].passed == RewindStop(replays[i].actions, old(replays[i].passed), frame))
    {
      if frame > 0 {
        frame := frame - 1;
        RewindReplays();
      }
    }

    /** The loop of `rewind_frame`: rewinds every replay to the current frame. */
    method RewindReplays()
      requires Valid()
      modifies replays
      ensures Valid()
      ensures forall i :: 0 <= i < |replays| ==>
        && replays[i].actions == old(replays[i].actions)
        && replays[i].passed == RewindStop(replays[i].actions, old(replays[i].passed), frame)
    {
      hide RewindStop, Net, Kinds;
      var i := 0;
      while i < |replays|
        invariant 0 <= i <= |replays|
        invariant forall j :: 0 <= j < |replays| ==> replays[j].Valid() && replays[j].actions == old(replays[j].actions)
        invariant forall j :: 0 <= j < i ==> replays[j].passed == RewindStop(replays[j].actions, old(replays[j].passed), frame)
        invariant forall j :: i <= j < |replays| ==> replays[j].passed == old(replays[j].passed)
      {
        replays[i].RewindToFrameIntended(frame);
        i := i + 1;
      }
    }

    /**
     * `ReplayState::reset_to_beginning`: back to frame 0, paused, every replay emptied and
     * advanced to frame 0.
     */
    method ResetToBeginning()
      requires Valid()
      modifies this, replays
      ensures Valid() && replays == old(replays)
      ensures frame == 0 && IsPaused()
      ensures unpausedOnFrame == old(unpausedOnFrame)
      ensures forall i :: 0 <= i < |replays| ==>
        && replays[i].actions == old(replays[i].actions)
        && replays[i].passed == AdvanceStop(replays[i].actions, 0, 0)
    {
      frame := 0;
      Pause();
      var i := 0;
      while i < |replays|
        invariant 0 <= i <= |replays| && replays == old(replays) && frame == 0 && IsPaused()
        invariant unpausedOnFrame == old(unpausedOnFrame)
        invariant forall j :: 0 <= j < |replays| ==> replays[j].Valid() && replays[j].actions == old(replays[j].actions)
        invariant forall j :: 0 <= j < i ==> replays[j].passed == 0
      {
        replays[i].Reset();
        i := i + 1;
      }
      AdvanceActions();
    }
  }

  /** With no replays the player is finished from the start. */
  lemma NoReplaysFinished<K>(state: ReplayState<K>)
    requires state.replays == []
    ensures state.IsFinished()
  {
  }
}
