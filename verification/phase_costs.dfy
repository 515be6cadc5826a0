// Every phase of a run is charged exactly what passed while it was the open one.
module PhaseCosts {
  import opened Common
  import opened RunTiming
  import opened RunTimingLaws

  // What passes between two readings of the clock while nothing is entered or left.
  function Passing(t: Timing, now: Time, later: Time): Cost {
    var total := later - now;
    var provider := Reading(t.provider, later) - Reading(t.provider, now);
    var external := Reading(t.external, later) - Reading(t.external, now);
    Cost(total, provider, total - provider, Reading(t.network, later) - Reading(t.network, now), total - external)
  }

  // What passed while `name` was the open phase, over a run and until a final reading.
  function PassedIn(s: State, ops: seq<Op>, now: Time, name: string): Cost
    decreases |ops|
  {
    if ops == [] then PassedUntil(s.t, s.now, now, name)
    else if Possible(s, ops[0]) then
      Plus(PassedUntil(s.t, s.now, ops[0].at, name), PassedIn(Step(s, ops[0]), ops[1..], now, name))
    else PassedIn(s, ops[1..], now, name)
  }

  function PassedUntil(t: Timing, now: Time, later: Time, name: string): Cost {
    if t.phase == name then Passing(t, now, later) else NOTHING
  }

  function Entry(costs: map<string, Cost>, name: string): Cost {
    if name in costs then costs[name] else NOTHING
  }

  // What the report shows for a phase.
  function Shown(t: Timing, now: Time, name: string): Cost { Entry(Breakdown(t, now), name) }

  // No reading of a reachable state is clamped.
  lemma Unclamped(s: State, later: Time)
    requires Inv(s) && s.now <= later
    ensures PhasesOk(s.t, later) && s.t.started <= later
    ensures ElapsedAt(s.t, later) ==
            Elapsed(later - s.t.started, Reading(s.t.provider, later), Reading(s.t.network, later),
                    Reading(s.t.external, later))
    ensures 0 <= Reading(s.t.provider, later) - Reading(s.t.provider, s.now) <= later - s.now
    ensures 0 <= Reading(s.t.external, later) - Reading(s.t.external, s.now) <= later - s.now
  {
    PassTime(s, later);
    ReadingBounded(MeterOf(s.t, Provider), Spans(s.waits, Provider), s.t.started, later);
  }

  // Time outside provider waits, and outside all waits, has not gone back.
  predicate Forward(now: Elapsed, later: Elapsed) {
    now.total - now.provider <= later.total - later.provider && now.total - now.external <= later.total - later.external
  }

  // Charging up to a later reading charges the open phase what came in between.
  lemma ChargedLater(costs: map<string, Cost>, phase: string, start: Elapsed, now: Elapsed, later: Elapsed,
                     name: string)
    requires Forward(start, now) && Forward(now, later)
    ensures Entry(Charge(costs, phase, start, later), name) ==
            Plus(Entry(Charge(costs, phase, start, now), name), if name == phase then Spent(now, later) else NOTHING)
  {
  }

  lemma ReachableIsSteady(s: State, later: Time)
    requires Inv(s) && s.now <= later
    ensures Forward(s.t.phaseStart, ElapsedAt(s.t, s.now)) && Forward(ElapsedAt(s.t, s.now), ElapsedAt(s.t, later))
    ensures Spent(ElapsedAt(s.t, s.now), ElapsedAt(s.t, later)) == Passing(s.t, s.now, later)
  {
    Unclamped(s, s.now);
    Unclamped(s, later);
  }

  // The report at a reading of the clock that shows `elapsed`.
  lemma ShownAt(t: Timing, now: Time, name: string, elapsed: Elapsed)
    requires elapsed == ElapsedAt(t, now)
    ensures Shown(t, now, name) == Entry(Charge(t.phases, t.phase, t.phaseStart, elapsed), name)
  {
  }

  lemma SteadyTimeIsCharged(t: Timing, now: Time, later: Time, name: string, start: Elapsed, end: Elapsed,
                            passed: Cost)
    requires start == ElapsedAt(t, now) && end == ElapsedAt(t, later) && passed == Spent(start, end)
    requires Forward(t.phaseStart, start) && Forward(start, end)
    ensures Shown(t, later, name) == Plus(Shown(t, now, name), if t.phase == name then passed else NOTHING)
  {
    ChargedLater(t.phases, t.phase, t.phaseStart, start, end, name);
    ShownAt(t, now, name, start);
    ShownAt(t, later, name, end);
  }

  lemma TimeIsCharged(s: State, later: Time, name: string)
    requires Inv(s) && s.now <= later
    ensures Shown(s.t, later, name) == Plus(Shown(s.t, s.now, name), PassedUntil(s.t, s.now, later, name))
  {
    ReachableIsSteady(s, later);
    SteadyTimeIsCharged(s.t, s.now, later, name, ElapsedAt(s.t, s.now), ElapsedAt(s.t, later),
                        Passing(s.t, s.now, later));
  }

  lemma FreshPhaseIsFree(costs: map<string, Cost>, phase: string, now: Elapsed, name: string)
    ensures Entry(Charge(costs, phase, now, now), name) == Entry(costs, name)
  {
  }

  lemma SwitchIsFree(t: Timing, to: string, now: Time, name: string, elapsed: Elapsed)
    requires elapsed == ElapsedAt(t, now) && elapsed == ElapsedAt(SwitchPhase(t, to, now), now)
    ensures Shown(SwitchPhase(t, to, now), now, name) == Shown(t, now, name)
  {
    FreshPhaseIsFree(Breakdown(t, now), to, elapsed, name);
  }

  lemma SwitchKeepsTime(t: Timing, to: string, now: Time)
    ensures ElapsedAt(SwitchPhase(t, to, now), now) == ElapsedAt(t, now)
  {
  }

  // The report depends on the counters only through their readings.
  lemma SameReadings(t: Timing, t': Timing, now: Time, name: string)
    requires (t'.phases, t'.phase, t'.phaseStart) == (t.phases, t.phase, t.phaseStart)
    requires ElapsedAt(t', now) == ElapsedAt(t, now)
    ensures Shown(t', now, name) == Shown(t, now, name)
  {
  }

  // An operation at one instant moves nothing between phases.
  lemma InstantIsFree(s: State, op: Op, name: string)
    requires Inv(s) && Possible(s, op) && op.at == s.now
    ensures Shown(Step(s, op).t, s.now, name) == Shown(s.t, s.now, name)
  {
    if op.PhaseOp? {
      SwitchKeepsTime(s.t, op.name, s.now);
      SwitchIsFree(s.t, op.name, s.now, name, ElapsedAt(s.t, s.now));
    } else {
      OnlyPhasesBook(s, op);
      CountersKept(s, op);
      SameReadings(s.t, Step(s, op).t, s.now, name);
    }
  }

  lemma CountersKept(s: State, op: Op)
    requires Inv(s) && Possible(s, op) && op.at == s.now && !op.PhaseOp?
    ensures ElapsedAt(Step(s, op).t, s.now) == ElapsedAt(s.t, s.now) && Step(s, op).t.phase == s.t.phase
  {
    if op.CloseInner? {
      HeldSpanCounts(s, External, op.wait);
    } else if op.CloseWait? {
      HeldSpanCounts(s, CounterOf(s.waits[op.wait].kind), op.wait);
    }
  }

  lemma HeldSpanCounts(s: State, which: Which, i: nat)
    requires Inv(s) && i < |s.waits| && IsOpen(Of(s.waits[i], which))
    ensures MeterOf(s.t, which).active > 0
  {
    assert Measures(MeterOf(s.t, which), Spans(s.waits, which), s.t.started, s.now);
    assert i in Open(Spans(s.waits, which));
  }

  lemma StepIsCharged(s: State, op: Op, name: string)
    requires Inv(s) && Possible(s, op)
    ensures Shown(Step(s, op).t, op.at, name) == Plus(Shown(s.t, s.now, name), PassedUntil(s.t, s.now, op.at, name))
  {
    var here := s.(now := op.at);
    PassTime(s, op.at);
    TimeIsCharged(s, op.at, name);
    InstantIsFree(here, op, name);
    assert Step(here, op) == Step(s, op);
  }

  lemma Combine(end: Cost, middle: Cost, rest: Cost, start: Cost, first: Cost)
    requires end == Plus(middle, rest) && middle == Plus(start, first)
    ensures end == Plus(start, Plus(first, rest))
  {
  }

  lemma {:induction false} RunIsCharged(s: State, ops: seq<Op>, now: Time, name: string)
    requires Inv(s) && now >= Run(s, ops).now
    ensures Shown(Run(s, ops).t, now, name) == Plus(Shown(s.t, s.now, name), PassedIn(s, ops, now, name))
    decreases |ops|
  {
    if ops == [] {
      TimeIsCharged(s, now, name);
    } else if Possible(s, ops[0]) {
      StepKeepsInv(s, ops[0]);
      StepIsCharged(s, ops[0], name);
      RunIsCharged(Step(s, ops[0]), ops[1..], now, name);
      Combine(Shown(Run(s, ops).t, now, name), Shown(Step(s, ops[0]).t, ops[0].at, name),
              PassedIn(Step(s, ops[0]), ops[1..], now, name), Shown(s.t, s.now, name),
              PassedUntil(s.t, s.now, ops[0].at, name));
    } else {
      RunIsCharged(s, ops[1..], now, name);
    }
  }

  lemma NothingShownYet(start: Time, name: string)
    ensures Shown(Start(start), start, name) == NOTHING
  {
    assert ElapsedAt(Start(start), start) == Elapsed(0, 0, 0, 0);
    ShownAt(Start(start), start, name, Elapsed(0, 0, 0, 0));
    FreshPhaseIsFree(map[], "setup", Elapsed(0, 0, 0, 0), name);
  }

  lemma InitKeepsInv(start: Time)
    ensures Inv(Init(start))
  {
    Reachable(start, [], start);
  }

  lemma FromNothing(shown: Cost, passed: Cost)
    ensures shown == Plus(NOTHING, passed) <==> shown == passed
  {
  }

  // At every moment of every run the report charges each phase exactly the time, the provider, network and
  // external waits that passed while it was the open one, and nothing of any other phase.
  lemma PhasesAreChargedTheirOwn(start: Time, ops: seq<Op>, now: Time, name: string)
    requires now >= Run(Init(start), ops).now
    ensures Shown(Run(Init(start), ops).t, now, name) == PassedIn(Init(start), ops, now, name)
  {
    InitKeepsInv(start);
    RunIsCharged(Init(start), ops, now, name);
    NothingShownYet(start, name);
    FromNothing(Shown(Run(Init(start), ops).t, now, name), PassedIn(Init(start), ops, now, name));
  }
}
