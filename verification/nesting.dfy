/**
 The nesting camera station: two states, commands `AnalyseRock` and `Stop`.
 The context delegates each command to the current state's handler, so the
 context commands and the state-level handlers coincide here.
 */
module Nesting {
  import opened WorkCell

  /** The context's `TransitionTo`: `s` becomes the nesting station's current
      state, the transition is recorded, and nothing else changes. */
  function TransitionTo(c: Cell, s: NestingState): (r: Cell)
    ensures r.nesting == s
    ensures r.robot == c.robot && r.pallet == c.pallet
    ensures r.trace == c.trace + [NestingTo(s)]
    ensures Follows(c, r)
  {
    FollowsRecord(c, NestingTo(s));
    Record(c, NestingTo(s))
  }

  /** How many re-entrant `AnalyseRock` calls a state can still make. */
  function Rank(s: NestingState): nat
  {
    match s
    case Idle => 1
    case Analyse => 0
  }

  /** `AnalyseRock`: Idle moves to Analyse and hands the request to the new
      state; Analyse finishes by going back to Idle. */
  function AnalyseRock(c: Cell): (r: Cell)
    ensures r.nesting == NestingState.Idle
    ensures r.robot == c.robot && r.pallet == c.pallet
    ensures Follows(c, r)
    ensures forall e <- NewEvents(c, r) :: e.NestingTo?
    decreases Rank(c.nesting)
  {
    match c.nesting
    case Idle =>
      var analysing := TransitionTo(c, NestingState.Analyse);
      var r := AnalyseRock(analysing);
      FollowsTrans(c, analysing, r);
      r
    case Analyse =>
      TransitionTo(c, NestingState.Idle)
  }

  /** `Stop`: a no-op in Idle, a transition back to Idle in Analyse. */
  function Stop(c: Cell): (r: Cell)
    ensures r.nesting == NestingState.Idle
    ensures r.robot == c.robot && r.pallet == c.pallet
    ensures Follows(c, r)
    ensures c.nesting == NestingState.Idle <==> r == c
    ensures c.nesting == NestingState.Analyse ==> NewEvents(c, r) == [NestingTo(NestingState.Idle)]
  {
    match c.nesting
    case Idle => FollowsRefl(c); c
    case Analyse => TransitionTo(c, NestingState.Idle)
  }

  /** The transitions one `AnalyseRock` records, by starting state. */
  function RockTransitions(s: NestingState): seq<Event>
  {
    match s
    case Idle => [NestingTo(NestingState.Analyse), NestingTo(NestingState.Idle)]
    case Analyse => [NestingTo(NestingState.Idle)]
  }

  /** From Idle, `AnalyseRock` passes through Analyse and ends in Idle. */
  lemma AnalyseRockFromIdle(c: Cell)
    requires c.nesting == NestingState.Idle
    ensures AnalyseRock(c)
         == c.(trace := c.trace + [NestingTo(NestingState.Analyse), NestingTo(NestingState.Idle)])
  {
  }

  /** From Analyse, `AnalyseRock` makes exactly one transition, to Idle. */
  lemma AnalyseRockFromAnalyse(c: Cell)
    requires c.nesting == NestingState.Analyse
    ensures AnalyseRock(c) == c.(nesting := NestingState.Idle, trace := c.trace + [NestingTo(NestingState.Idle)])
  {
  }

  /** Whatever the starting state, `AnalyseRock` ends in Idle having recorded `RockTransitions`. */
  lemma AnalyseRockRecords(c: Cell)
    ensures AnalyseRock(c) == c.(nesting := NestingState.Idle, trace := c.trace + RockTransitions(c.nesting))
  {
    match c.nesting
    case Idle => AnalyseRockFromIdle(c);
    case Analyse => AnalyseRockFromAnalyse(c);
  }

  /** `Stop` is idempotent: a second `Stop` changes nothing, not even the trace. */
  lemma StopIdempotent(c: Cell)
    ensures Stop(Stop(c)) == Stop(c)
  {
  }
}
