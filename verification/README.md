# Pick-and-place work cell: three cooperating state machines

This project models a small pick-and-place cell written in the State pattern. It has
three stations:

- the **nesting** camera: states Idle and Analyse; commands `AnalyseRock` and `Stop`;
- the **robot** arm: states Idle, Picking and Dropping; commands `Pick`, `Dropped` and
  `Stop`, plus the state-level handlers `Drop` and `GoIdle`; it holds a nesting peer;
- the **pallet** camera: states Idle, Analyse and Moving; context commands
  `StartCycle`, `AnalyseNextRock` and `Stop`, plus the state-level handlers `MoveTo`,
  `AnalysePallet` and `Stop`; it holds a robot peer.

A handler may change its own station's state, call the handler of the new state
directly, and call into the peer station, all within one call. A single `StartCycle`
therefore cascades from pallet to robot to nesting.

Each station's state is a Dafny datatype (`WorkCell.NestingState`, `RobotState`,
`PalletState`). The whole cell is a record `WorkCell.Cell` holding the three states and an
ordered trace of events. An event is either a transition of one station (`NestingTo`,
`RobotTo`, `PalletTo`) or a peer call (`AnalyseRockCalled`, `PickCalled`). The caller
records a peer call just before it makes the call. Every handler is a pure function from
`Cell` to `Cell`. A handler that re-enters the new state's handler is a recursion, and it
terminates on a per-station rank.

A context's `TransitionTo` is `Record` applied to a transition event. `Replay` re-applies
a list of events. `Follows(c, r)` says two things:

- `r` is exactly what replaying the events recorded since `c` produces. So a state
  changes only through a recorded transition.
- Every recorded event obeys the protocol: the robot calls the nesting station only
  while it is Dropping, the pallet calls the robot only while it is Idle, and no pallet
  transition targets Moving.

Every handler's contract includes `Follows`.

Module layout follows the source: `WorkCell` (shared vocabulary), `Nesting`, `Robot` and
`Pallet` (one module per station file), and `Cycle`. `Cycle` holds the program's
all-Idle wiring, the command surface and runs of several commands.

The context's `Stop` on the pallet station runs the state's `AnalysePallet`, not the
state's `Stop` handler. The model keeps this exactly as written, and `Pallet.Stop` is
that literal behaviour. Its contract gives its exact trace, `Pallet.AnalysePalletEvents`.
So from Idle the context's `Stop` runs a whole pick cycle, unless the robot is Dropping:
then the robot refuses the pick, and only the pallet's own transitions and its call into
the robot are recorded. `Pallet.StopIdempotence` proves
that from Moving it stops in Analyse, and that a second `Stop` is not a no-op.

The state-level `Stop` handler (`Pallet.StateStop`) is modelled as well. No context
command reaches it.

## Model

| member | source | states |
|---|---|---|
| `WorkCell.ReplayFrame` | TestGilliStatePattern/CameraNesting/NestingContext.cs:20-25 | a station named by no recorded transition keeps its state: a recorded transition is the only way a state changes |
| `WorkCell.FollowsNeverEntersMoving` | TestGilliStatePattern/CameraPallet/PalletContext.cs:73-135 | a protocol-respecting sequence of steps from a pallet outside Moving never ends in Moving |
| `Nesting.TransitionTo` | TestGilliStatePattern/CameraNesting/NestingContext.cs:20-25 | the given state becomes the nesting state, the transition is appended to the trace, and the robot and pallet are untouched |
| `Nesting.AnalyseRock` | TestGilliStatePattern/CameraNesting/NestingContext.cs:64-85 | from every state it ends in Idle, records only nesting transitions, touches no other station, and follows the protocol |
| `Nesting.Stop` | TestGilliStatePattern/CameraNesting/NestingContext.cs:73-87 | ends in Idle from every state; it changes nothing at all exactly when the station was already Idle; from Analyse it records exactly one transition, to Idle |
| `Nesting.AnalyseRockFromIdle` | TestGilliStatePattern/CameraNesting/NestingContext.cs:64-71 | from Idle it records Analyse then Idle, in that order, and ends in Idle |
| `Nesting.AnalyseRockFromAnalyse` | TestGilliStatePattern/CameraNesting/NestingContext.cs:80-85 | from Analyse it records exactly one transition, to Idle |
| `Nesting.AnalyseRockRecords` | TestGilliStatePattern/CameraNesting/NestingContext.cs:64-85 | from every state, the recorded transitions are those of `RockTransitions` for that state |
| `Nesting.StopIdempotent` | TestGilliStatePattern/CameraNesting/NestingContext.cs:73-87 | a second `Stop` changes neither the state nor the trace |
| `Robot.TransitionTo` | TestGilliStatePattern/Robot/RobotContext.cs:23-28 | the given state becomes the robot state, the transition is appended to the trace, and the nesting and pallet are untouched |
| `Robot.ReleaseRock` | TestGilliStatePattern/Robot/RobotContext.cs:126-134 | from Dropping, the nesting peer is analysed and both robot and nesting end in Idle, with the pallet untouched |
| `Robot.Drop` | TestGilliStatePattern/Robot/RobotContext.cs:83-134 | a no-op in Idle; from Picking or Dropping both robot and nesting end in Idle; it never touches the pallet |
| `Robot.Pick` | TestGilliStatePattern/Robot/RobotContext.cs:74-145 | a refusal in Dropping (nothing changes); from Idle or Picking both robot and nesting end in Idle, whatever the nesting state was |
| `Robot.GoIdle` | TestGilliStatePattern/Robot/RobotContext.cs:88-140 | ends in Idle and never touches nesting or pallet; it changes nothing exactly when already Idle, and from Picking or Dropping it records exactly one transition, to Idle |
| `Robot.Dropped` | TestGilliStatePattern/Robot/RobotContext.cs:37-40 | the robot ends Idle and nesting and pallet are untouched; nothing changes exactly when the robot was Idle, and otherwise exactly one transition to Idle is recorded |
| `Robot.Stop` | TestGilliStatePattern/Robot/RobotContext.cs:42-45 | the robot ends Idle and nesting and pallet are untouched; nothing changes exactly when the robot was Idle, and otherwise exactly one transition to Idle is recorded |
| `Robot.DropFromDropping` | TestGilliStatePattern/Robot/RobotContext.cs:126-134 | from Dropping: one nesting call, the nesting transitions, then the robot's transition to Idle |
| `Robot.DropFromPicking` | TestGilliStatePattern/Robot/RobotContext.cs:106-112 | from Picking: the Dropping transition, then the drop from Dropping |
| `Robot.PickFromIdle` | TestGilliStatePattern/Robot/RobotContext.cs:74-81 | from Idle the robot records Picking, Dropping, one nesting call and Idle, and robot and nesting end in Idle |
| `Robot.PickFromPicking` | TestGilliStatePattern/Robot/RobotContext.cs:98-104 | from Picking the Picking transition is skipped; the rest is as from Idle |
| `Robot.PickRecords` | TestGilliStatePattern/Robot/RobotContext.cs:32-35 | from every state, `Pick` records exactly `PickEvents` for the robot and nesting states |
| `Robot.PickEventsShape` | TestGilliStatePattern/Robot/RobotContext.cs:126-134 | a pick's events contain one nesting call unless the robot is Dropping, and no pallet event |
| `Robot.PickCallsNestingOnce` | TestGilliStatePattern/Robot/RobotContext.cs:126-134 | `Pick` calls the nesting peer exactly once unless it refuses, and never records a pallet event |
| `Robot.PickCallsNestingWhileDropping` | TestGilliStatePattern/Robot/RobotContext.cs:126-134 | every nesting call of a pick is made while the robot is Dropping, and the pick's last event is the robot's transition to Idle |
| `Robot.StopIsDropped` | TestGilliStatePattern/Robot/RobotContext.cs:37-45 | `Stop`, `Dropped` and `GoIdle` have the same effect, and `GoIdle` is idempotent |
| `Pallet.TransitionTo` | TestGilliStatePattern/CameraPallet/PalletContext.cs:26-31 | the given state becomes the pallet state, the transition is appended, robot and nesting are untouched; a transition to anything other than Moving is a protocol step |
| `Pallet.MoveTo` | TestGilliStatePattern/CameraPallet/PalletContext.cs:77-129 | for every encoder position and every state, nothing changes: no state and no trace entry |
| `Pallet.HandOver` | TestGilliStatePattern/CameraPallet/PalletContext.cs:103-112 | from Analyse the pallet ends Idle; the robot and nesting end Idle unless the robot refused the pick while Dropping |
| `Pallet.AnalysePallet` | TestGilliStatePattern/CameraPallet/PalletContext.cs:82-124 | from Moving, only a transition to Analyse; from Idle or Analyse, the pallet ends Idle, and robot and nesting end Idle unless the robot was Dropping |
| `Pallet.StateStop` | TestGilliStatePattern/CameraPallet/PalletContext.cs:91-134 | ends Idle from every state and never calls the robot; it changes nothing exactly when already Idle, and from Analyse or Moving it records exactly one transition, to Idle |
| `Pallet.StartCycle` | TestGilliStatePattern/CameraPallet/PalletContext.cs:35-38 | records exactly the events of the current state's `AnalysePallet` (`AnalysePalletEvents`); the pallet ends Idle, or Analyse when it was Moving, never Moving; the cascade follows the protocol |
| `Pallet.AnalyseNextRock` | TestGilliStatePattern/CameraPallet/PalletContext.cs:40-43 | records exactly the events of the current state's `AnalysePallet` (`AnalysePalletEvents`); the pallet ends Idle, or Analyse when it was Moving, never Moving; the cascade follows the protocol |
| `Pallet.Stop` | TestGilliStatePattern/CameraPallet/PalletContext.cs:45-48 | records exactly the events of the current state's `AnalysePallet` (`AnalysePalletEvents`); the pallet ends Idle, or Analyse when it was Moving, never Moving; the cascade follows the protocol |
| `Pallet.StopIdempotence` | TestGilliStatePattern/CameraPallet/PalletContext.cs:45-48 | the state-level `Stop` is idempotent; the context `Stop` from Moving stops in Analyse, and a second call changes the cell again |
| `Pallet.ContextCommandsAgree` | TestGilliStatePattern/CameraPallet/PalletContext.cs:35-48 | `StartCycle`, `AnalyseNextRock` and `Stop` have identical effects from every cell, equal to those of the state's `AnalysePallet` |
| `Pallet.AnalysePalletFromAnalyse` | TestGilliStatePattern/CameraPallet/PalletContext.cs:103-112 | from Analyse: the transition to Idle, the call into the robot, then the robot's pick events |
| `Pallet.AnalysePalletFromIdle` | TestGilliStatePattern/CameraPallet/PalletContext.cs:82-89 | from Idle: the transition to Analyse, then everything `AnalysePallet` does from Analyse |
| `Pallet.IdleBeforePick` | TestGilliStatePattern/CameraPallet/PalletContext.cs:108-111 | whenever the pallet calls the robot's `Pick`, the pallet is already Idle |
| `Pallet.AnalysePalletRecords` | TestGilliStatePattern/CameraPallet/PalletContext.cs:82-124 | from every state, `AnalysePallet` records exactly `AnalysePalletEvents` for the three station states |
| `Pallet.AnalysePalletEventsShape` | TestGilliStatePattern/CameraPallet/PalletContext.cs:103-112 | those events hold one call into the robot unless the pallet is Moving |
| `Pallet.AnalysePalletPicksOnce` | TestGilliStatePattern/CameraPallet/PalletContext.cs:82-124 | `AnalysePallet` calls the robot's `Pick` exactly once from Idle or Analyse, and never from Moving |
| `Cycle.Execute` | TestGilliStatePattern/Robot/RobotContext.cs:32-45 | any public command on the wired cell follows the protocol and never enters Moving; it keeps an all-Idle cell all Idle; robot Picking and nesting Analyse are never left behind unless they were there before |
| `Cycle.ExecuteDispatch` | TestGilliStatePattern/Robot/RobotContext.cs:32-45 | each nesting and robot command runs the handler its context delegates to: the robot's `Pick` runs the state's `Pick`, and `Dropped` and `Stop` run the state's `GoIdle`; the nesting commands run `AnalyseRock` and `Stop` as at NestingContext.cs lines 29-37 |
| `Cycle.Run` | TestGilliStatePattern/CameraPallet/PalletContext.cs:35-48 | a run of commands follows the protocol, never enters Moving, and keeps an all-Idle cell all Idle |
| `Cycle.StartCycleFromAllIdle` | TestGilliStatePattern/CameraPallet/PalletContext.cs:82-112 | from an all-Idle cell, `StartCycle` records Pallet Analyse, Pallet Idle, the pick call, Robot Picking, Robot Dropping, the nesting call, Nesting Analyse, Nesting Idle, Robot Idle, and leaves everything Idle |
| `Cycle.StartCycleFromWiring` | TestGilliStatePattern/Program.cs:12-15 | the program's own run ends with all three stations Idle and exactly the cycle's events |
| `Cycle.PalletCommandStartsCycle` | TestGilliStatePattern/CameraPallet/PalletContext.cs:35-48 | every pallet context command has the effect of `StartCycle` |
| `Cycle.PalletRunCycles` | TestGilliStatePattern/CameraPallet/PalletContext.cs:35-48 | n pallet commands from an all-Idle cell record n full cycles, one after another, and leave it all Idle |
| `Cycle.RunNeverRecordsMoving` | TestGilliStatePattern/CameraPallet/PalletContext.cs:73-135 | no run of commands, from any cell, records a transition into Moving |
| `Cycle.RunNeverEntersMoving` | TestGilliStatePattern/CameraPallet/PalletContext.cs:73-135 | no run of commands that starts outside Moving ends in Moving |
| `Cycle.RunCallsWellOrdered` | TestGilliStatePattern/Robot/RobotContext.cs:126-134 | in every run, each nesting call is made while the robot is Dropping, and each robot call while the pallet is Idle |

## Left out

- Logging through NLog (`_log.Trace`) is a side channel. The trace records abstract transition and peer-call events, not log strings or handler entries.
- The wiring in `Program.Main` is used only as the initial cell `Cycle.Wiring`. The constructors' initial `TransitionTo` is not recorded, so a fresh cell has an empty trace.
- The TODO in `Program.Main` about tasks and waiting describes concurrency that is not implemented, so it is not modelled.
- Object identity, fresh state instances and the `SetContext` back-reference are not modelled. States are enum values, and a state object's handler is the handler of the matching state.
- The peer fields are public and mutable, and they are set after the constructor's transition. They could be null or reassigned. The model treats each peer as always present and fixed.
- `Cycle.Execute` has no command for an outside caller invoking the public `TransitionTo` (for example into Moving). No code in the repository makes such a call, so Moving appears only as an initial state.
- The encoder position given to `MoveTo` is a placeholder with no behaviour. `Pallet.MoveTo` takes it as an unbounded integer rather than a 32-bit one.
