/**
 The robot station: three states and a fixed nesting peer. The context's
 `Pick` delegates to the state's `Pick`; `Dropped` and `Stop` both delegate to
 the state's `GoIdle`. The state-level `Drop` is reached only from `Pick`.
 */
module Robot {
  import opened WorkCell
  import Nesting

  /** The context's `TransitionTo`: `s` becomes the robot's current state,
      the transition is recorded, and nothing else changes. */
  function TransitionTo(c: Cell, s: RobotState): (r: Cell)
    ensures r.robot == s
    ensures r.nesting == c.nesting && r.pallet == c.pallet
    ensures r.trace == c.trace + [RobotTo(s)]
    ensures Follows(c, r)
  {
    FollowsRecord(c, RobotTo(s));
    Record(c, RobotTo(s))
  }

  /** How far a state is from the end of a pick cycle. */
  function Rank(s: RobotState): nat
  {
    match s
    case Idle => 2
    case Picking => 1
    case Dropping => 0
  }

  /** Events a robot command may record: its own transitions, its call into the
      nesting peer, and the peer's transitions; never anything of the pallet. */
  predicate RobotSide(e: Event)
  {
    e.RobotTo? || e.AnalyseRockCalled? || e.NestingTo?
  }

  /** The Dropping state's `Drop`: the nesting peer analyses the rock, then
      the robot returns to Idle. */
  function ReleaseRock(c: Cell): (r: Cell)
    requires c.robot == RobotState.Dropping
    ensures r.robot == RobotState.Idle && r.nesting == NestingState.Idle
    ensures r.pallet == c.pallet
    ensures Follows(c, r)
  {
    FollowsRecord(c, AnalyseRockCalled);
    var called := Record(c, AnalyseRockCalled);
    var analysed := Nesting.AnalyseRock(called);
    var r := TransitionTo(analysed, RobotState.Idle);
    FollowsTrans(c, called, analysed);
    FollowsTrans(c, analysed, r);
    r
  }

  /** The state-level `Drop`: a no-op in Idle; Picking moves to Dropping and
      hands over to the new state; Dropping releases the rock. */
  function Drop(c: Cell): (r: Cell)
    ensures c.robot == RobotState.Idle ==> r == c
    ensures c.robot != RobotState.Idle ==> r.robot == RobotState.Idle && r.nesting == NestingState.Idle
    ensures r.pallet == c.pallet
    ensures Follows(c, r)
    decreases Rank(c.robot)
  {
    match c.robot
    case Idle =>
      FollowsRefl(c);
      c
    case Picking =>
      var dropping := TransitionTo(c, RobotState.Dropping);
      var r := Drop(dropping);
      FollowsTrans(c, dropping, r);
      r
    case Dropping =>
      ReleaseRock(c)
  }

  /** `Pick`: Idle moves to Picking and drops from there; Picking drops at once;
      Dropping refuses. */
  function Pick(c: Cell): (r: Cell)
    ensures c.robot == RobotState.Dropping ==> r == c
    ensures c.robot != RobotState.Dropping ==> r.robot == RobotState.Idle && r.nesting == NestingState.Idle
    ensures r.pallet == c.pallet
    ensures Follows(c, r)
  {
    match c.robot
    case Idle =>
      var picking := TransitionTo(c, RobotState.Picking);
      var r := Drop(picking);
      FollowsTrans(c, picking, r);
      r
    case Picking =>
      Drop(c)
    case Dropping =>
      FollowsRefl(c);
      c
  }

  /** The state-level `GoIdle`: Picking and Dropping return to Idle; Idle does nothing. */
  function GoIdle(c: Cell): (r: Cell)
    ensures r.robot == RobotState.Idle
    ensures r.nesting == c.nesting && r.pallet == c.pallet
    ensures Follows(c, r)
    ensures c.robot == RobotState.Idle <==> r == c
    ensures c.robot != RobotState.Idle ==> NewEvents(c, r) == [RobotTo(RobotState.Idle)]
  {
    match c.robot
    case Idle => FollowsRefl(c); c
    case Picking => TransitionTo(c, RobotState.Idle)
    case Dropping => TransitionTo(c, RobotState.Idle)
  }

  /** The context's `Dropped`: the arm reports the rock released and goes idle. */
  function Dropped(c: Cell): (r: Cell)
    ensures r.robot == RobotState.Idle
    ensures r.nesting == c.nesting && r.pallet == c.pallet
    ensures Follows(c, r)
    ensures c.robot == RobotState.Idle <==> r == c
    ensures c.robot != RobotState.Idle ==> NewEvents(c, r) == [RobotTo(RobotState.Idle)]
  {
    GoIdle(c)
  }

  /** The context's `Stop`: the arm goes idle. */
  function Stop(c: Cell): (r: Cell)
    ensures r.robot == RobotState.Idle
    ensures r.nesting == c.nesting && r.pallet == c.pallet
    ensures Follows(c, r)
    ensures c.robot == RobotState.Idle <==> r == c
    ensures c.robot != RobotState.Idle ==> NewEvents(c, r) == [RobotTo(RobotState.Idle)]
  {
    GoIdle(c)
  }

  /** The events of one `Pick` that reaches the drop, after the Picking
      transition (if any): Dropping, the nesting call, the nesting peer's
      transitions, and the return to Idle. */
  function DropEvents(n: NestingState): seq<Event>
  {
    [RobotTo(RobotState.Dropping), AnalyseRockCalled] + Nesting.RockTransitions(n) + [RobotTo(RobotState.Idle)]
  }

  /** `Drop` from Dropping: one nesting call, then the transition back to Idle. */
  lemma DropFromDropping(c: Cell)
    requires c.robot == RobotState.Dropping
    ensures ReleaseRock(c) == Drop(c)
    ensures ReleaseRock(c)
         == c.(robot := RobotState.Idle, nesting := NestingState.Idle,
               trace := c.trace + [AnalyseRockCalled] + Nesting.RockTransitions(c.nesting) + [RobotTo(RobotState.Idle)])
  {
    var called := Record(c, AnalyseRockCalled);
    Nesting.AnalyseRockRecords(called);
  }

  /** `Drop` from Picking records Dropping and then behaves as from Dropping. */
  lemma DropFromPicking(c: Cell)
    requires c.robot == RobotState.Picking
    ensures Drop(c)
         == c.(robot := RobotState.Idle, nesting := NestingState.Idle, trace := c.trace + DropEvents(c.nesting))
  {
    var dropping := TransitionTo(c, RobotState.Dropping);
    assert dropping == c.(robot := RobotState.Dropping, trace := c.trace + [RobotTo(RobotState.Dropping)]);
    assert Drop(c) == ReleaseRock(dropping);
    DropFromDropping(dropping);
    DropEventsSplit(c.trace, c.nesting);
  }

  /** `DropEvents` regrouped after the Dropping transition. */
  lemma DropEventsSplit(t: seq<Event>, n: NestingState)
    ensures t + [RobotTo(RobotState.Dropping)] + [AnalyseRockCalled] + Nesting.RockTransitions(n) + [RobotTo(RobotState.Idle)]
         == t + DropEvents(n)
  {
  }

  /** `Pick` from Idle records Picking, Dropping, one nesting call with the
      peer's transitions, and Idle, and leaves both robot and peer Idle. */
  lemma PickFromIdle(c: Cell)
    requires c.robot == RobotState.Idle
    ensures Pick(c)
         == c.(robot := RobotState.Idle, nesting := NestingState.Idle,
               trace := c.trace + [RobotTo(RobotState.Picking)] + DropEvents(c.nesting))
  {
    var picking := TransitionTo(c, RobotState.Picking);
    DropFromPicking(picking);
  }

  /** `Pick` from Picking skips the Picking transition. */
  lemma PickFromPicking(c: Cell)
    requires c.robot == RobotState.Picking
    ensures Pick(c)
         == c.(robot := RobotState.Idle, nesting := NestingState.Idle, trace := c.trace + DropEvents(c.nesting))
  {
    DropFromPicking(c);
  }

  /** What one `Pick` records, by the robot's state `rs` and its nesting peer's state `ns`. */
  function PickEvents(rs: RobotState, ns: NestingState): seq<Event>
  {
    match rs
    case Idle => [RobotTo(RobotState.Picking)] + DropEvents(ns)
    case Picking => DropEvents(ns)
    case Dropping => []
  }

  /** From every state, `Pick` records exactly `PickEvents`. */
  lemma PickRecords(c: Cell)
    ensures Pick(c).trace == c.trace + PickEvents(c.robot, c.nesting)
  {
    match c.robot
    case Idle =>
      PickFromIdle(c);
      ConcatAssoc(c.trace, [RobotTo(RobotState.Picking)], DropEvents(c.nesting));
    case Picking =>
      PickFromPicking(c);
    case Dropping =>
  }

  /** `PickEvents` holds one nesting call unless the robot is Dropping, and
      nothing of the pallet station. */
  lemma PickEventsShape(rs: RobotState, ns: NestingState)
    ensures multiset(PickEvents(rs, ns))[AnalyseRockCalled] == if rs == RobotState.Dropping then 0 else 1
    ensures forall e <- PickEvents(rs, ns) :: RobotSide(e)
  {
  }

  /** `Pick` calls the nesting peer exactly once unless it refuses, and it
      records nothing of the pallet station. */
  lemma PickCallsNestingOnce(c: Cell)
    ensures multiset(NewEvents(c, Pick(c)))[AnalyseRockCalled] == if c.robot == RobotState.Dropping then 0 else 1
    ensures forall e <- NewEvents(c, Pick(c)) :: RobotSide(e)
  {
    PickRecords(c);
    PickEventsShape(c.robot, c.nesting);
  }

  /** Every nesting call a `Pick` makes happens while the robot is Dropping,
      and strictly before the robot's final transition to Idle. */
  lemma PickCallsNestingWhileDropping(c: Cell)
    requires c.robot != RobotState.Dropping
    ensures forall i :: 0 <= i < |NewEvents(c, Pick(c))| && NewEvents(c, Pick(c))[i] == AnalyseRockCalled
              ==> Replay(c, NewEvents(c, Pick(c))[..i]).robot == RobotState.Dropping
    ensures NewEvents(c, Pick(c))[|NewEvents(c, Pick(c))| - 1] == RobotTo(RobotState.Idle)
  {
    var r := Pick(c);
    var ev := NewEvents(c, r);
    forall i | 0 <= i < |ev| && ev[i] == AnalyseRockCalled
      ensures Replay(c, ev[..i]).robot == RobotState.Dropping
    {
      WellOrderedAt(c, ev, i);
    }
    if c.robot == RobotState.Idle {
      PickFromIdle(c);
    } else {
      PickFromPicking(c);
    }
  }

  /** `Stop` and `Dropped` both have the effect of `GoIdle`, and `GoIdle` is idempotent. */
  lemma StopIsDropped(c: Cell)
    ensures Stop(c) == Dropped(c) == GoIdle(c)
    ensures GoIdle(GoIdle(c)) == GoIdle(c)
  {
  }
}
