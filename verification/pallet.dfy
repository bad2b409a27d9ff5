/**
 The pallet camera station: three states and a fixed robot peer. The state
 handlers are `MoveTo`, `AnalysePallet` and `Stop` (here `StateStop`); the
 context exposes `StartCycle`, `AnalyseNextRock` and `Stop`, and all three
 delegate to the current state's `AnalysePallet`. The context has no `MoveTo`,
 and its `Stop` never reaches the state-level `Stop` handler.
 */
module Pallet {
  import opened WorkCell
  import Robot

  /** The context's `TransitionTo`: `s` becomes the pallet's current state,
      the transition is recorded, and nothing else changes. No handler ever
      asks for Moving, so only those transitions count as protocol steps. */
  function TransitionTo(c: Cell, s: PalletState): (r: Cell)
    ensures r.pallet == s
    ensures r.nesting == c.nesting && r.robot == c.robot
    ensures r.trace == c.trace + [PalletTo(s)]
    ensures s != PalletState.Moving ==> Follows(c, r)
  {
    if s != PalletState.Moving then FollowsRecord(c, PalletTo(s)); Record(c, PalletTo(s))
    else Record(c, PalletTo(s))
  }

  /** How many re-entrant `AnalysePallet` calls a state can still make. */
  function Rank(s: PalletState): nat
  {
    match s
    case Idle => 1
    case Analyse => 0
    case Moving => 0
  }

  /** The state-level `MoveTo`: a placeholder that does nothing in any of the three states. */
  function MoveTo(c: Cell, encoderPos: int): (r: Cell)
    ensures r == c
    ensures Follows(c, r)
  {
    FollowsRefl(c);
    c
  }

  /** The Analyse state's `AnalysePallet`: return to Idle, then have the robot pick. */
  function HandOver(c: Cell): (r: Cell)
    ensures r.pallet == PalletState.Idle
    ensures c.robot != RobotState.Dropping ==> r.robot == RobotState.Idle && r.nesting == NestingState.Idle
    ensures c.robot == RobotState.Dropping ==> r.robot == c.robot && r.nesting == c.nesting
    ensures Follows(c, r)
  {
    var idle := TransitionTo(c, PalletState.Idle);
    FollowsRecord(idle, PickCalled);
    var called := Record(idle, PickCalled);
    var r := Robot.Pick(called);
    FollowsTrans(c, idle, called);
    FollowsTrans(c, called, r);
    r
  }

  /** The state-level `AnalysePallet`: Idle moves to Analyse and hands over to
      the new state; Analyse returns to Idle and calls the robot's `Pick`;
      Moving moves to Analyse and stops there. */
  function AnalysePallet(c: Cell): (r: Cell)
    ensures c.pallet == PalletState.Moving ==> r == c.(pallet := PalletState.Analyse, trace := c.trace + [PalletTo(PalletState.Analyse)])
    ensures c.pallet != PalletState.Moving ==> r.pallet == PalletState.Idle
    ensures c.pallet != PalletState.Moving && c.robot != RobotState.Dropping ==>
              r.robot == RobotState.Idle && r.nesting == NestingState.Idle
    ensures c.robot == RobotState.Dropping ==> r.robot == c.robot && r.nesting == c.nesting
    ensures Follows(c, r)
    decreases Rank(c.pallet)
  {
    match c.pallet
    case Idle =>
      var analysing := TransitionTo(c, PalletState.Analyse);
      var r := AnalysePallet(analysing);
      FollowsTrans(c, analysing, r);
      r
    case Analyse =>
      HandOver(c)
    case Moving =>
      TransitionTo(c, PalletState.Analyse)
  }

  /** The state-level `Stop`: a no-op in Idle; Analyse and Moving return to Idle. */
  function StateStop(c: Cell): (r: Cell)
    ensures r.pallet == PalletState.Idle
    ensures r.nesting == c.nesting && r.robot == c.robot
    ensures Follows(c, r)
    ensures PickCalled !in NewEvents(c, r)
    ensures c.pallet == PalletState.Idle <==> r == c
    ensures c.pallet != PalletState.Idle ==> NewEvents(c, r) == [PalletTo(PalletState.Idle)]
  {
    match c.pallet
    case Idle => FollowsRefl(c); c
    case Analyse => TransitionTo(c, PalletState.Idle)
    case Moving => TransitionTo(c, PalletState.Idle)
  }

  /** The context's `StartCycle`: the external entry point for one cycle. */
  function StartCycle(c: Cell): (r: Cell)
    ensures r.pallet != PalletState.Moving
    ensures c.pallet != PalletState.Moving ==> r.pallet == PalletState.Idle
    ensures r.trace == c.trace + AnalysePalletEvents(c.pallet, c.robot, c.nesting)
    ensures Follows(c, r)
  {
    AnalysePalletRecords(c);
    AnalysePallet(c)
  }

  /** The context's `AnalyseNextRock`. */
  function AnalyseNextRock(c: Cell): (r: Cell)
    ensures r.pallet != PalletState.Moving
    ensures c.pallet != PalletState.Moving ==> r.pallet == PalletState.Idle
    ensures r.trace == c.trace + AnalysePalletEvents(c.pallet, c.robot, c.nesting)
    ensures Follows(c, r)
  {
    AnalysePalletRecords(c);
    AnalysePallet(c)
  }

  /** The context's `Stop`, which runs the state's `AnalysePallet` rather than
      its `Stop` handler. */
  function Stop(c: Cell): (r: Cell)
    ensures r.pallet != PalletState.Moving
    ensures c.pallet != PalletState.Moving ==> r.pallet == PalletState.Idle
    ensures r.trace == c.trace + AnalysePalletEvents(c.pallet, c.robot, c.nesting)
    ensures Follows(c, r)
  {
    AnalysePalletRecords(c);
    AnalysePallet(c)
  }

  /** The state-level `Stop` is idempotent, whereas the context's `Stop` is
      not: from Moving it stops in Analyse, and a second call completes a
      pick cycle. */
  lemma StopIdempotence(c: Cell)
    ensures StateStop(StateStop(c)) == StateStop(c)
    ensures c.pallet == PalletState.Moving ==> Stop(c).pallet == PalletState.Analyse && Stop(Stop(c)) != Stop(c)
  {
  }

  /** The three context commands have the same effect from every cell: that
      of the current state's `AnalysePallet`. */
  lemma ContextCommandsAgree(c: Cell)
    ensures StartCycle(c) == AnalyseNextRock(c) == Stop(c) == AnalysePallet(c)
  {
  }

  /** The events `AnalysePallet` records from Analyse: Idle, the call into the
      robot, then what the robot's `Pick` records in robot state `rs` with
      nesting peer state `ns`. */
  function HandOverEvents(rs: RobotState, ns: NestingState): seq<Event>
  {
    [PalletTo(PalletState.Idle), PickCalled] + Robot.PickEvents(rs, ns)
  }

  /** `AnalysePallet` from Analyse: back to Idle, then exactly one `Pick`. */
  lemma AnalysePalletFromAnalyse(c: Cell)
    requires c.pallet == PalletState.Analyse
    ensures AnalysePallet(c).trace == c.trace + HandOverEvents(c.robot, c.nesting)
  {
    var idle := TransitionTo(c, PalletState.Idle);
    var called := Record(idle, PickCalled);
    Robot.PickRecords(called);
    assert called.trace == c.trace + [PalletTo(PalletState.Idle), PickCalled];
    ConcatAssoc(c.trace, [PalletTo(PalletState.Idle), PickCalled], Robot.PickEvents(c.robot, c.nesting));
  }

  /** `AnalysePallet` from Idle passes through Analyse first. */
  lemma AnalysePalletFromIdle(c: Cell)
    requires c.pallet == PalletState.Idle
    ensures AnalysePallet(c).trace == c.trace + [PalletTo(PalletState.Analyse)] + HandOverEvents(c.robot, c.nesting)
  {
    var analysing := TransitionTo(c, PalletState.Analyse);
    assert AnalysePallet(c) == AnalysePallet(analysing);
    AnalysePalletFromAnalyse(analysing);
  }

  /** The pallet is already Idle whenever it calls the robot's `Pick`. */
  lemma IdleBeforePick(c: Cell)
    ensures forall i :: 0 <= i < |NewEvents(c, AnalysePallet(c))| && NewEvents(c, AnalysePallet(c))[i] == PickCalled
              ==> Replay(c, NewEvents(c, AnalysePallet(c))[..i]).pallet == PalletState.Idle
  {
    var ev := NewEvents(c, AnalysePallet(c));
    forall i | 0 <= i < |ev| && ev[i] == PickCalled
      ensures Replay(c, ev[..i]).pallet == PalletState.Idle
    {
      WellOrderedAt(c, ev, i);
    }
  }

  /** The events `AnalysePallet` records, by the states of the three stations. */
  function AnalysePalletEvents(ps: PalletState, rs: RobotState, ns: NestingState): seq<Event>
  {
    match ps
    case Idle => [PalletTo(PalletState.Analyse)] + HandOverEvents(rs, ns)
    case Analyse => HandOverEvents(rs, ns)
    case Moving => [PalletTo(PalletState.Analyse)]
  }

  /** From every state, `AnalysePallet` records exactly `AnalysePalletEvents`. */
  lemma AnalysePalletRecords(c: Cell)
    ensures AnalysePallet(c).trace == c.trace + AnalysePalletEvents(c.pallet, c.robot, c.nesting)
  {
    match c.pallet
    case Idle =>
      AnalysePalletFromIdle(c);
      ConcatAssoc(c.trace, [PalletTo(PalletState.Analyse)], HandOverEvents(c.robot, c.nesting));
    case Analyse =>
      AnalysePalletFromAnalyse(c);
    case Moving =>
  }

  /** `AnalysePalletEvents` holds one call into the robot unless the pallet is Moving. */
  lemma AnalysePalletEventsShape(ps: PalletState, rs: RobotState, ns: NestingState)
    ensures multiset(AnalysePalletEvents(ps, rs, ns))[PickCalled] == if ps == PalletState.Moving then 0 else 1
  {
    Robot.PickEventsShape(rs, ns);
    assert PickCalled !in Robot.PickEvents(rs, ns);
  }

  /** `AnalysePallet` calls the robot's `Pick` exactly once from Idle or
      Analyse, and never from Moving. */
  lemma AnalysePalletPicksOnce(c: Cell)
    ensures multiset(NewEvents(c, AnalysePallet(c)))[PickCalled] == if c.pallet == PalletState.Moving then 0 else 1
  {
    AnalysePalletRecords(c);
    AnalysePalletEventsShape(c.pallet, c.robot, c.nesting);
  }
}
