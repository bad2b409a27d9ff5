/**
 The whole work cell as the program wires it: three stations that all start
 Idle, the commands the stations expose, and runs of several commands.
 */
module Cycle {
  import opened WorkCell
  import Nesting
  import Robot
  import Pallet

  /** The program's wiring: every station constructed in its Idle state, nothing recorded yet. */
  const Wiring: Cell := Cell(NestingState.Idle, RobotState.Idle, PalletState.Idle, [])

  /** All three stations are at rest in Idle. */
  predicate AllIdle(c: Cell)
  {
    c.nesting == NestingState.Idle && c.robot == RobotState.Idle && c.pallet == PalletState.Idle
  }

  /** The events of one full pick cycle started from an all-Idle cell. */
  const CycleEvents: seq<Event> := [
    PalletTo(PalletState.Analyse), PalletTo(PalletState.Idle), PickCalled,
    RobotTo(RobotState.Picking), RobotTo(RobotState.Dropping), AnalyseRockCalled,
    NestingTo(NestingState.Analyse), NestingTo(NestingState.Idle), RobotTo(RobotState.Idle)
  ]

  /** The public commands of the three station contexts. */
  datatype Command =
    | NestingAnalyseRock | NestingStop
    | RobotPick | RobotDropped | RobotStop
    | PalletStartCycle | PalletAnalyseNextRock | PalletStop
  {
    /** The command is addressed to the pallet station. */
    predicate ToPallet()
    {
      this.PalletStartCycle? || this.PalletAnalyseNextRock? || this.PalletStop?
    }
  }

  /** Runs one command against its station's context. */
  function Execute(c: Cell, cmd: Command): (r: Cell)
    ensures Follows(c, r)
    ensures c.pallet != PalletState.Moving ==> r.pallet != PalletState.Moving
    ensures AllIdle(c) ==> AllIdle(r)
    ensures r.robot == RobotState.Picking ==> c.robot == RobotState.Picking
    ensures r.nesting == NestingState.Analyse ==> c.nesting == NestingState.Analyse
  {
    var r := match cmd
      case NestingAnalyseRock => Nesting.AnalyseRock(c)
      case NestingStop => Nesting.Stop(c)
      case RobotPick => Robot.Pick(c)
      case RobotDropped => Robot.Dropped(c)
      case RobotStop => Robot.Stop(c)
      case PalletStartCycle => Pallet.StartCycle(c)
      case PalletAnalyseNextRock => Pallet.AnalyseNextRock(c)
      case PalletStop => Pallet.Stop(c);
    if c.pallet != PalletState.Moving then FollowsNeverEntersMoving(c, r); r else r
  }

  /** Runs a list of commands, first to last. */
  function Run(c: Cell, cmds: seq<Command>): (r: Cell)
    ensures Follows(c, r)
    ensures c.pallet != PalletState.Moving ==> r.pallet != PalletState.Moving
    ensures AllIdle(c) ==> AllIdle(r)
    decreases |cmds|
  {
    if cmds == [] then
      FollowsRefl(c);
      c
    else
      var next := Execute(c, cmds[0]);
      var r := Run(next, cmds[1..]);
      FollowsTrans(c, next, r);
      r
  }

  /** `n` copies of `ev`, one after the other. */
  function Repeat(ev: seq<Event>, n: nat): seq<Event>
  {
    if n == 0 then [] else ev + Repeat(ev, n - 1)
  }

  /** From an all-Idle cell, one `StartCycle` drives pallet, robot and nesting
      through one full cycle and leaves all three Idle. */
  lemma StartCycleFromAllIdle(c: Cell)
    requires AllIdle(c)
    ensures Pallet.StartCycle(c) == c.(trace := c.trace + CycleEvents)
  {
    Pallet.AnalysePalletRecords(c);
    CycleEventsFromAllIdle();
  }

  /** `AnalysePallet`'s events from three Idle stations are exactly one cycle. */
  lemma CycleEventsFromAllIdle()
    ensures Pallet.AnalysePalletEvents(PalletState.Idle, RobotState.Idle, NestingState.Idle) == CycleEvents
  {
  }

  /** The program's own run: `StartCycle` on the wiring. */
  lemma StartCycleFromWiring()
    ensures Pallet.StartCycle(Wiring) == Cell(NestingState.Idle, RobotState.Idle, PalletState.Idle, CycleEvents)
  {
    StartCycleFromAllIdle(Wiring);
  }

  /** Each nesting and robot command runs the handler its context delegates to:
      the nesting commands their namesakes, `Pick` the robot's `Pick`, and
      `Dropped` and `Stop` the robot state's `GoIdle`. */
  lemma ExecuteDispatch(c: Cell)
    ensures Execute(c, NestingAnalyseRock) == Nesting.AnalyseRock(c)
    ensures Execute(c, NestingStop) == Nesting.Stop(c)
    ensures Execute(c, RobotPick) == Robot.Pick(c)
    ensures Execute(c, RobotDropped) == Robot.GoIdle(c)
    ensures Execute(c, RobotStop) == Robot.GoIdle(c)
  {
    ExecuteRobotIdles(c);
  }

  /** The robot's `Dropped` and `Stop` commands both run the state's `GoIdle`. */
  lemma ExecuteRobotIdles(c: Cell)
    ensures Execute(c, RobotDropped) == Robot.GoIdle(c)
    ensures Execute(c, RobotStop) == Robot.GoIdle(c)
  {
    Robot.StopIsDropped(c);
  }

  /** Every command addressed to the pallet runs the same handler as `StartCycle`. */
  lemma PalletCommandStartsCycle(c: Cell, cmd: Command)
    requires cmd.ToPallet()
    ensures Execute(c, cmd) == Pallet.StartCycle(c)
  {
    Pallet.ContextCommandsAgree(c);
  }

  /** Any run of pallet commands from an all-Idle cell performs one full cycle
      per command and leaves the cell all Idle. */
  lemma {:induction false} PalletRunCycles(c: Cell, cmds: seq<Command>)
    requires AllIdle(c)
    requires forall i :: 0 <= i < |cmds| ==> cmds[i].ToPallet()
    ensures Run(c, cmds) == c.(trace := c.trace + Repeat(CycleEvents, |cmds|))
    decreases |cmds|
  {
    if cmds != [] {
      var next := Execute(c, cmds[0]);
      assert Run(c, cmds) == Run(next, cmds[1..]);
      PalletCommandStartsCycle(c, cmds[0]);
      StartCycleFromAllIdle(c);
      PalletRunCycles(next, cmds[1..]);
      ConcatAssoc(c.trace, CycleEvents, Repeat(CycleEvents, |cmds| - 1));
    }
  }

  /** No run of commands, from any cell, records a transition into Moving. */
  lemma RunNeverRecordsMoving(c: Cell, cmds: seq<Command>)
    ensures PalletTo(PalletState.Moving) !in NewEvents(c, Run(c, cmds))
  {
    var ev := NewEvents(c, Run(c, cmds));
    if PalletTo(PalletState.Moving) in ev {
      var i :| 0 <= i < |ev| && ev[i] == PalletTo(PalletState.Moving);
      WellOrderedAt(c, ev, i);
    }
  }

  /** Moving is never entered: a run that starts outside Moving never ends in it. */
  lemma RunNeverEntersMoving(c: Cell, cmds: seq<Command>)
    requires c.pallet != PalletState.Moving
    ensures Run(c, cmds).pallet != PalletState.Moving
  {
    RunNeverRecordsMoving(c, cmds);
    FollowsNeverEntersMoving(c, Run(c, cmds));
  }

  /** Every call into the nesting station in any run is made while the robot
      is Dropping, and every call into the robot while the pallet is Idle. */
  lemma RunCallsWellOrdered(c: Cell, cmds: seq<Command>, i: int)
    requires 0 <= i < |NewEvents(c, Run(c, cmds))|
    ensures NewEvents(c, Run(c, cmds))[i] == AnalyseRockCalled ==>
              Replay(c, NewEvents(c, Run(c, cmds))[..i]).robot == RobotState.Dropping
    ensures NewEvents(c, Run(c, cmds))[i] == PickCalled ==>
              Replay(c, NewEvents(c, Run(c, cmds))[..i]).pallet == PalletState.Idle
  {
    WellOrderedAt(c, NewEvents(c, Run(c, cmds)), i);
  }
}
