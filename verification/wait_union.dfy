// The shared external-wait counter against the union of all provider and network waits. Every wait reads
// the clock once for its own counter and once for the shared one, so ticks between the two can be missed.
module WaitUnion {
  import opened Common
  import opened RunTiming
  import opened RunTimingLaws

  // Every wait's own interval.
  function Outers(waits: seq<Wait>): seq<Option<Span>> {
    seq(|waits|, i requires 0 <= i < |waits| => Some(waits[i].outer))
  }

  // The ticks that some wait's own interval covers.
  function Union(waits: seq<Wait>, origin: Time, now: Time): set<Time> {
    Covered(Outers(waits), origin, now)
  }

  // The ticks during which some provider wait or some network wait was in progress.
  function AllWaits(waits: seq<Wait>, origin: Time, now: Time): set<Time> {
    Covered(Spans(waits, Provider), origin, now) + Covered(Spans(waits, Network), origin, now)
  }

  lemma UnionOfBothKinds(waits: seq<Wait>, origin: Time, now: Time)
    ensures Union(waits, origin, now) == AllWaits(waits, origin, now)
  {
    forall x | x in Union(waits, origin, now) ensures x in AllWaits(waits, origin, now) {
      var i :| 0 <= i < |waits| && Covers(Outers(waits)[i], x);
      assert Covers(Spans(waits, CounterOf(waits[i].kind))[i], x);
    }
    forall which, x | which != External && x in Covered(Spans(waits, which), origin, now)
      ensures x in Union(waits, origin, now)
    {
      var i :| 0 <= i < |waits| && Covers(Spans(waits, which)[i], x);
      assert Covers(Outers(waits)[i], x);
    }
  }

  // ---- what the counters say

  predicate Waiting(t: Timing) { t.provider.active + t.network.active > 0 }

  // From now until `later` the shared counter misses everything or nothing.
  function Missed(s: State, later: Time): int {
    if Waiting(s.t) && s.t.external.active == 0 then later - s.now else 0
  }

  // Ticks missed over a run and until a final reading.
  function MissedTicks(s: State, ops: seq<Op>, now: Time): int
    decreases |ops|
  {
    if ops == [] then Missed(s, now)
    else if Possible(s, ops[0]) then Missed(s, ops[0].at) + MissedTicks(Step(s, ops[0]), ops[1..], now)
    else MissedTicks(s, ops[1..], now)
  }

  // Whenever the clock advances while some wait is in progress, the shared counter is running.
  predicate Counting(s: State, later: Time) {
    later > s.now && Waiting(s.t) ==> s.t.external.active > 0
  }

  predicate AlwaysCounting(s: State, ops: seq<Op>, now: Time)
    decreases |ops|
  {
    if ops == [] then Counting(s, now)
    else if Possible(s, ops[0]) then Counting(s, ops[0].at) && AlwaysCounting(Step(s, ops[0]), ops[1..], now)
    else AlwaysCounting(s, ops[1..], now)
  }

  lemma {:induction false} RunMovesForward(s: State, ops: seq<Op>)
    ensures s.now <= Run(s, ops).now && Run(s, ops).t.started == s.t.started
    decreases |ops|
  {
    if ops == [] {
    } else if Possible(s, ops[0]) {
      RunMovesForward(Step(s, ops[0]), ops[1..]);
    } else {
      RunMovesForward(s, ops[1..]);
    }
  }

  lemma {:induction false} NothingMissedWhenCounting(s: State, ops: seq<Op>, now: Time)
    requires now >= Run(s, ops).now
    ensures MissedTicks(s, ops, now) >= 0
    ensures MissedTicks(s, ops, now) == 0 <==> AlwaysCounting(s, ops, now)
    decreases |ops|
  {
    if ops == [] {
    } else if Possible(s, ops[0]) {
      RunMovesForward(Step(s, ops[0]), ops[1..]);
      NothingMissedWhenCounting(Step(s, ops[0]), ops[1..], now);
    } else {
      NothingMissedWhenCounting(s, ops[1..], now);
    }
  }

  // ---- what the intervals say

  // How far the shared counter is behind the union.
  function Behind(s: State, now: Time): int {
    |Union(s.waits, s.t.started, now)| - Reading(s.t.external, now)
  }

  lemma OutersWithin(s: State)
    requires Inv(s)
    ensures Within(Outers(s.waits), s.t.started, s.now)
  {
    forall i | 0 <= i < |s.waits| ensures Inside(Outers(s.waits)[i], s.t.started, s.now) {
      var which := CounterOf(s.waits[i].kind);
      assert Measures(MeterOf(s.t, which), Spans(s.waits, which), s.t.started, s.now);
      assert Inside(Spans(s.waits, which)[i], s.t.started, s.now);
    }
  }

  lemma SomethingOpen(s: State, which: Which)
    requires Inv(s)
    ensures MeterOf(s.t, which).active > 0 <==> exists i :: 0 <= i < |s.waits| && IsOpen(Of(s.waits[i], which))
  {
    var open := Open(Spans(s.waits, which));
    assert Measures(MeterOf(s.t, which), Spans(s.waits, which), s.t.started, s.now);
    if MeterOf(s.t, which).active > 0 {
      assert open != {};
      var i :| i in open;
      assert IsOpen(Of(s.waits[i], which));
    }
    if i :| 0 <= i < |s.waits| && IsOpen(Of(s.waits[i], which)) {
      assert i in open;
    }
  }

  lemma OpenOuter(s: State)
    requires Inv(s)
    ensures Waiting(s.t) <==> Open(Outers(s.waits)) != {}
    ensures s.t.external.active > 0 ==> Waiting(s.t)
  {
    SomethingOpen(s, Provider);
    SomethingOpen(s, Network);
    SomethingOpen(s, External);
    if i :| i in Open(Outers(s.waits)) {
      assert IsOpen(Of(s.waits[i], CounterOf(s.waits[i].kind)));
    }
    if i :| 0 <= i < |s.waits| && (IsOpen(Of(s.waits[i], Provider)) || IsOpen(Of(s.waits[i], Network))) {
      assert i in Open(Outers(s.waits));
    }
    if i :| 0 <= i < |s.waits| && IsOpen(Of(s.waits[i], External)) {
      assert WaitOk(s.waits[i], s.now) && i in Open(Outers(s.waits));
    }
  }

  // Time passing: the counter falls behind by exactly the missed ticks.
  lemma BehindGrows(s: State, later: Time)
    requires Inv(s) && s.now <= later
    ensures Behind(s, later) == Behind(s, s.now) + Missed(s, later)
  {
    OutersWithin(s);
    OpenOuter(s);
    assert Measures(s.t.external, Spans(s.waits, External), s.t.started, s.now) by {
      assert Measures(MeterOf(s.t, External), Spans(s.waits, External), s.t.started, s.now);
    }
    CoverGrows(Outers(s.waits), s.t.started, s.now, later);
  }

  // Entering and leaving at one instant changes neither side.
  lemma OuterSame(s: State, op: Op)
    requires Inv(s) && Possible(s, op) && op.at == s.now
    ensures Union(Step(s, op).waits, s.t.started, s.now) == Union(s.waits, s.t.started, s.now)
  {
    var spans, after := Outers(s.waits), Outers(Step(s, op).waits);
    if op.OpenWait? {
      var v := Some(Span(s.now, None));
      assert after == (spans + [None])[|spans| := v];
      SameCover(spans + [None], |spans|, v, s.t.started, s.now);
      CoverUnseen(spans, s.t.started, s.now);
    } else if op.CloseWait? {
      assert after == spans[op.wait := Some(s.waits[op.wait].outer.(end := Some(s.now)))];
      SameCover(spans, op.wait, after[op.wait], s.t.started, s.now);
    } else {
      assert after == spans;
    }
  }

  lemma CoverUnseen(spans: seq<Option<Span>>, origin: Time, now: Time)
    ensures Covered(spans + [None], origin, now) == Covered(spans, origin, now)
  {
    forall x | x in Covered(spans, origin, now) ensures x in Covered(spans + [None], origin, now) {
      var i :| 0 <= i < |spans| && Covers(spans[i], x);
      assert Covers((spans + [None])[i], x);
    }
  }

  lemma CounterSame(s: State, op: Op)
    requires Inv(s) && Possible(s, op) && op.at == s.now
    ensures Reading(Step(s, op).t.external, s.now) == Reading(s.t.external, s.now)
    ensures Step(s, op).t.started == s.t.started
  {
    if op.CloseInner? {
      SomethingOpen(s, External);
      assert IsOpen(Of(s.waits[op.wait], External));
    }
  }

  lemma BehindStep(s: State, op: Op)
    requires Inv(s) && Possible(s, op)
    ensures Behind(Step(s, op), op.at) == Behind(s, s.now) + Missed(s, op.at)
  {
    var here := s.(now := op.at);
    PassTime(s, op.at);
    BehindGrows(s, op.at);
    OuterSame(here, op);
    CounterSame(here, op);
    assert Step(here, op) == Step(s, op);
  }

  lemma {:induction false} BehindIsMissed(s: State, ops: seq<Op>, now: Time)
    requires Inv(s) && now >= Run(s, ops).now
    ensures Behind(Run(s, ops), now) == Behind(s, s.now) + MissedTicks(s, ops, now)
    decreases |ops|
  {
    if ops == [] {
      BehindGrows(s, now);
    } else if Possible(s, ops[0]) {
      StepKeepsInv(s, ops[0]);
      BehindStep(s, ops[0]);
      BehindIsMissed(Step(s, ops[0]), ops[1..], now);
    } else {
      BehindIsMissed(s, ops[1..], now);
    }
  }

  // Over every run the union of all provider waits and all network waits is what the shared counter reads plus
  // exactly the ticks at which the clock advanced with a wait in progress and the shared counter at rest. So
  // the counter never exceeds the union, and equals it if and only if no such tick occurs.
  lemma ExternalIsTheUnionOfAllWaits(start: Time, ops: seq<Op>, now: Time)
    requires now >= Run(Init(start), ops).now
    ensures var s := Run(Init(start), ops);
            && |AllWaits(s.waits, start, now)| == Reading(s.t.external, now) + MissedTicks(Init(start), ops, now)
            && Reading(s.t.external, now) <= |AllWaits(s.waits, start, now)|
            && (Reading(s.t.external, now) == |AllWaits(s.waits, start, now)| <==>
                AlwaysCounting(Init(start), ops, now))
  {
    Reachable(start, [], start);
    RunMovesForward(Init(start), ops);
    BehindIsMissed(Init(start), ops, now);
    NothingMissedWhenCounting(Init(start), ops, now);
    UnionOfBothKinds(Run(Init(start), ops).waits, start, now);
  }

  // A wait that has read the clock for its own counter and not yet for the shared one, read a tick later.
  lemma MissedTickExample()
    ensures var s := Run(Init(0), [OpenWait(ProviderKind, 0)]);
            && Reading(s.t.external, 1) == 0 && |AllWaits(s.waits, 0, 1)| == 1
            && !AlwaysCounting(Init(0), [OpenWait(ProviderKind, 0)], 1)
  {
    var ops := [OpenWait(ProviderKind, 0)];
    assert ops[1..] == [];
    assert Run(Init(0), ops) == Step(Init(0), ops[0]);
    ExternalIsTheUnionOfAllWaits(0, ops, 1);
    assert MissedTicks(Init(0), ops, 1) == Missed(Init(0), 0) + MissedTicks(Step(Init(0), ops[0]), [], 1);
  }
}
