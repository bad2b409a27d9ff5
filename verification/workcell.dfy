/**
 The shared vocabulary of the work cell: the closed state set of each of the
 three stations, the events a run records, and the record of the whole cell.

 Every state change of a station goes through its context's `TransitionTo`,
 which is modelled by `Record` on a transition event. `Replay` re-applies a
 list of recorded events, and `Follows(c, r)` says that `r` is exactly what the
 events recorded since `c` produce, with every peer call made from the state the
 protocol requires.
 */
module WorkCell {

  /** States of the nesting camera station (`IdleState`, `AnalyseState`). */
  datatype NestingState = Idle | Analyse

  /** States of the robot station (`IdleState`, `PickingState`, `DroppingState`). */
  datatype RobotState = Idle | Picking | Dropping

  /** States of the pallet camera station (`IdleState`, `AnalyseState`, `MovingState`). */
  datatype PalletState = Idle | Analyse | Moving

  /** What a run records, in order: a transition of one station, or a call
      from one station into its peer (recorded by the caller just before it calls). */
  datatype Event =
    | NestingTo(n: NestingState)
    | RobotTo(r: RobotState)
    | PalletTo(p: PalletState)
    | AnalyseRockCalled   // the robot calls its nesting peer's AnalyseRock
    | PickCalled          // the pallet calls its robot peer's Pick

  /** The three stations of the cell, wired pallet -> robot -> nesting, and the trace so far. */
  datatype Cell = Cell(nesting: NestingState, robot: RobotState, pallet: PalletState, trace: seq<Event>)

  /** Appends one event to the trace; a transition event also makes its target
      the current state of its station. */
  function Record(c: Cell, e: Event): Cell
  {
    var logged := c.(trace := c.trace + [e]);
    match e
    case NestingTo(s) => logged.(nesting := s)
    case RobotTo(s) => logged.(robot := s)
    case PalletTo(s) => logged.(pallet := s)
    case AnalyseRockCalled => logged
    case PickCalled => logged
  }

  /** Re-applies a list of events, oldest first. */
  function Replay(c: Cell, ev: seq<Event>): Cell
    decreases |ev|
  {
    if ev == [] then c else Record(Replay(c, ev[..|ev| - 1]), ev[|ev| - 1])
  }

  /** The events recorded after `c`, when `r` extends `c`'s trace. */
  function NewEvents(c: Cell, r: Cell): seq<Event>
    requires c.trace <= r.trace
  {
    r.trace[|c.trace|..]
  }

  /** The protocol's ordering rule for one event, judged in the cell just before it. */
  predicate CallOk(before: Cell, e: Event)
  {
    match e
    case AnalyseRockCalled => before.robot == RobotState.Dropping
    case PickCalled => before.pallet == PalletState.Idle
    case PalletTo(s) => s != PalletState.Moving
    case _ => true
  }

  /** Every event of `ev`, replayed from `c`, obeys the ordering rule. */
  predicate WellOrdered(c: Cell, ev: seq<Event>)
    decreases |ev|
  {
    ev == [] || (WellOrdered(c, ev[..|ev| - 1]) && CallOk(Replay(c, ev[..|ev| - 1]), ev[|ev| - 1]))
  }

  /** `r` is what the events recorded since `c` produce, and they are well ordered. */
  predicate Follows(c: Cell, r: Cell)
  {
    && c.trace <= r.trace
    && r == Replay(c, NewEvents(c, r))
    && WellOrdered(c, NewEvents(c, r))
  }

  /** Replaying the trace of a concatenation is replaying one part after the other. */
  lemma {:induction false} ReplayAppend(c: Cell, a: seq<Event>, b: seq<Event>)
    ensures Replay(c, a + b) == Replay(Replay(c, a), b)
    decreases |b|
  {
    if b == [] {
      assert a + b == a;
    } else {
      var front := b[..|b| - 1];
      var last := b[|b| - 1];
      assert b == front + [last];
      assert a + b == (a + front) + [last];
      assert (a + b)[..|a + b| - 1] == a + front;
      ReplayAppend(c, a, front);
    }
  }

  /** A station that no replayed event names keeps its state: a transition
      event is the only way a station's state changes. */
  lemma {:induction false} ReplayFrame(c: Cell, ev: seq<Event>)
    ensures (forall e <- ev :: !e.NestingTo?) ==> Replay(c, ev).nesting == c.nesting
    ensures (forall e <- ev :: !e.RobotTo?) ==> Replay(c, ev).robot == c.robot
    ensures (forall e <- ev :: !e.PalletTo?) ==> Replay(c, ev).pallet == c.pallet
    decreases |ev|
  {
    if ev != [] {
      var front := ev[..|ev| - 1];
      assert forall e <- front :: e in ev;
      ReplayFrame(c, front);
    }
  }

  /** In well-ordered events, each event obeys the rule in the cell its predecessors produce. */
  lemma {:induction false} WellOrderedAt(c: Cell, ev: seq<Event>, i: int)
    requires WellOrdered(c, ev)
    requires 0 <= i < |ev|
    ensures CallOk(Replay(c, ev[..i]), ev[i])
    decreases |ev|
  {
    var front := ev[..|ev| - 1];
    if i < |front| {
      WellOrderedAt(c, front, i);
      assert front[..i] == ev[..i];
    }
  }

  /** Well-ordered events never put a pallet into Moving that was not there already. */
  lemma {:induction false} WellOrderedNeverEntersMoving(c: Cell, ev: seq<Event>)
    requires WellOrdered(c, ev)
    requires c.pallet != PalletState.Moving
    ensures Replay(c, ev).pallet != PalletState.Moving
    decreases |ev|
  {
    if ev != [] {
      WellOrderedNeverEntersMoving(c, ev[..|ev| - 1]);
    }
  }

  /** A cell follows from itself with no events. */
  lemma FollowsRefl(c: Cell)
    ensures Follows(c, c)
    ensures NewEvents(c, c) == []
  {
  }

  /** Recording one event that obeys the ordering rule is a step the cell follows. */
  lemma FollowsRecord(c: Cell, e: Event)
    requires CallOk(c, e)
    ensures Follows(c, Record(c, e))
    ensures NewEvents(c, Record(c, e)) == [e]
  {
    var r := Record(c, e);
    assert NewEvents(c, r) == [e];
    assert [e][..0] == [];
    assert Replay(c, [e]) == Record(Replay(c, []), e);
  }

  /** Well-ordered steps compose. */
  lemma {:induction false} WellOrderedAppend(c: Cell, a: seq<Event>, b: seq<Event>)
    requires WellOrdered(c, a)
    requires WellOrdered(Replay(c, a), b)
    ensures WellOrdered(c, a + b)
    decreases |b|
  {
    if b == [] {
      assert a + b == a;
    } else {
      var front := b[..|b| - 1];
      assert (a + b)[..|a + b| - 1] == a + front;
      assert (a + b)[|a + b| - 1] == b[|b| - 1];
      WellOrderedAppend(c, a, front);
      ReplayAppend(c, a, front);
    }
  }

  /** `Follows` is transitive, and the events of the whole are those of the parts in order. */
  lemma FollowsTrans(a: Cell, b: Cell, c: Cell)
    requires Follows(a, b)
    requires Follows(b, c)
    ensures Follows(a, c)
    ensures NewEvents(a, c) == NewEvents(a, b) + NewEvents(b, c)
  {
    var x := NewEvents(a, b);
    var y := NewEvents(b, c);
    assert b.trace == a.trace + x;
    assert c.trace == b.trace + y;
    assert c.trace == a.trace + (x + y);
    assert NewEvents(a, c) == x + y;
    ReplayAppend(a, x, y);
    WellOrderedAppend(a, x, y);
  }

  /** The state reached through well-ordered steps from a cell outside Moving is outside Moving. */
  lemma FollowsNeverEntersMoving(c: Cell, r: Cell)
    requires Follows(c, r)
    requires c.pallet != PalletState.Moving
    ensures r.pallet != PalletState.Moving
  {
    WellOrderedNeverEntersMoving(c, NewEvents(c, r));
  }

  /** Concatenation regrouped; stated once so that callers need not re-derive it. */
  lemma ConcatAssoc(t: seq<Event>, a: seq<Event>, b: seq<Event>)
    ensures t + a + b == t + (a + b)
  {
  }
}
