// Wall-clock run timing with nested and overlapping waits (backend/agent/latency.py).
// Times are ticks of the monotonic clock.
module RunTiming {
  import opened Common

  // ---- one wait counter: active depth, start of the current outermost wait, time accumulated so far

  datatype Meter = Meter(active: nat, started: Time, total: int)

  const IDLE := Meter(0, 0, 0)

  function Enter(m: Meter, now: Time): Meter {
    m.(started := if m.active == 0 then now else m.started, active := m.active + 1)
  }

  function Exit(m: Meter, now: Time): Meter {
    if m.active <= 1 then Meter(0, 0, m.total + (now - m.started)) else m.(active := m.active - 1)
  }

  function Reading(m: Meter, now: Time): int {
    m.total + if m.active > 0 then now - m.started else 0
  }

  // ---- what a phase has cost

  datatype Elapsed = Elapsed(total: int, provider: int, network: int, external: int)

  datatype Cost = Cost(total: int, provider: int, application: int, network: int, internal: int)

  const NOTHING := Cost(0, 0, 0, 0, 0)

  function Plus(a: Cost, b: Cost): Cost {
    Cost(a.total + b.total, a.provider + b.provider, a.application + b.application, a.network + b.network,
         a.internal + b.internal)
  }

  function Spent(start: Elapsed, end: Elapsed): Cost {
    var total, provider := end.total - start.total, end.provider - start.provider;
    var external := end.external - start.external;
    Cost(total, provider, Max(total - provider, 0), end.network - start.network, Max(total - external, 0))
  }

  function Charge(costs: map<string, Cost>, name: string, start: Elapsed, end: Elapsed): map<string, Cost> {
    costs[name := Plus(if name in costs then costs[name] else NOTHING, Spent(start, end))]
  }

  datatype Timing = Timing(
    started: Time, provider: Meter, network: Meter, external: Meter,
    phase: string, phaseStart: Elapsed, phases: map<string, Cost>)

  function Start(now: Time): Timing {
    Timing(now, IDLE, IDLE, IDLE, "setup", Elapsed(0, 0, 0, 0), map[])
  }

  // snapshot() and network_snapshot() at one clock reading.
  function ElapsedAt(t: Timing, now: Time): Elapsed {
    var total := Max(now - t.started, 0);
    Elapsed(total, Min(Max(Reading(t.provider, now), 0), total), Reading(t.network, now), Reading(t.external, now))
  }

  function SwitchPhase(t: Timing, name: string, now: Time): Timing {
    var end := ElapsedAt(t, now);
    t.(phases := Charge(t.phases, t.phase, t.phaseStart, end), phase := name, phaseStart := end)
  }

  // The report of a run: the closed phases and the one still open.
  function Breakdown(t: Timing, now: Time): map<string, Cost> {
    Charge(t.phases, t.phase, t.phaseStart, ElapsedAt(t, now))
  }

  class RunTimer {
    const started: Time
    var provider: Meter
    var network: Meter
    var external: Meter
    var phase: string
    var phaseStart: Elapsed
    var phases: map<string, Cost>

    ghost function View(): Timing
      reads this
    {
      Timing(started, provider, network, external, phase, phaseStart, phases)
    }

    constructor (now: Time)
      ensures View() == Start(now)
    {
      started, provider, network, external := now, IDLE, IDLE, IDLE;
      phase, phaseStart, phases := "setup", Elapsed(0, 0, 0, 0), map[];
    }

    // A context manager reads the clock for its own counter and again for the shared external one.
    method EnterProviderWait(now: Time, later: Time)
      modifies this`provider, this`external
      ensures View() == old(View()).(provider := Enter(old(provider), now), external := Enter(old(external), later))
    {
      if provider.active == 0 { provider := provider.(started := now); }
      provider := provider.(active := provider.active + 1);
      if external.active == 0 { external := external.(started := later); }
      external := external.(active := external.active + 1);
    }

    method ExitProviderWait(now: Time, later: Time)
      requires provider.active > 0 && external.active > 0
      modifies this`provider, this`external
      ensures View() == old(View()).(external := Exit(old(external), now), provider := Exit(old(provider), later))
    {
      external := external.(active := external.active - 1);
      if external.active == 0 { external := Meter(0, 0, external.total + (now - external.started)); }
      provider := provider.(active := provider.active - 1);
      if provider.active == 0 { provider := Meter(0, 0, provider.total + (later - provider.started)); }
    }

    method EnterNetworkWait(now: Time, later: Time)
      modifies this`network, this`external
      ensures View() == old(View()).(network := Enter(old(network), now), external := Enter(old(external), later))
    {
      if network.active == 0 { network := network.(started := now); }
      network := network.(active := network.active + 1);
      if external.active == 0 { external := external.(started := later); }
      external := external.(active := external.active + 1);
    }

    method ExitNetworkWait(now: Time, later: Time)
      requires network.active > 0 && external.active > 0
      modifies this`network, this`external
      ensures View() == old(View()).(external := Exit(old(external), now), network := Exit(old(network), later))
    {
      external := external.(active := external.active - 1);
      if external.active == 0 { external := Meter(0, 0, external.total + (now - external.started)); }
      network := network.(active := network.active - 1);
      if network.active == 0 { network := Meter(0, 0, network.total + (later - network.started)); }
    }

    method EnterPhase(name: string, now: Time)
      modifies this`phase, this`phaseStart, this`phases
      ensures View() == SwitchPhase(old(View()), name, now)
      ensures phase == name && phaseStart == ElapsedAt(old(View()), now)
      ensures phases.Keys == old(phases).Keys + {old(phase)}
      ensures forall p :: p in old(phases) && p != old(phase) ==> phases[p] == old(phases)[p]
    {
      var end := ElapsedAt(Timing(started, provider, network, external, phase, phaseStart, phases), now);
      var spent := Spent(phaseStart, end);
      phases := phases[phase := Plus(if phase in phases then phases[phase] else NOTHING, spent)];
      phase, phaseStart := name, end;
    }
  }
}

// Counters measure unions of intervals, and phases partition the run.
module RunTimingLaws {
  import opened Common
  import opened RunTiming

  datatype Span = Span(start: Time, end: Option<Time>)

  datatype Kind = ProviderKind | NetworkKind

  // One context manager instance: its own interval, and the one it holds on the shared external counter.
  datatype Wait = Wait(kind: Kind, outer: Span, inner: Option<Span>)

  datatype Which = Provider | Network | External

  // The interval a wait contributes to a counter, if any.
  function Of(w: Wait, which: Which): Option<Span> {
    match which
    case Provider => if w.kind == ProviderKind then Some(w.outer) else None
    case Network => if w.kind == NetworkKind then Some(w.outer) else None
    case External => w.inner
  }

  function Spans(waits: seq<Wait>, which: Which): seq<Option<Span>> {
    seq(|waits|, i requires 0 <= i < |waits| => Of(waits[i], which))
  }

  predicate Covers(v: Option<Span>, x: Time) {
    v.Some? && v.value.start <= x && (v.value.end.Some? ==> x < v.value.end.value)
  }

  // The ticks before `now` during which some interval was in progress.
  function Covered(spans: seq<Option<Span>>, origin: Time, now: Time): set<Time> {
    set x | x in Range(origin, now) && exists i :: 0 <= i < |spans| && Covers(spans[i], x)
  }

  predicate IsOpen(v: Option<Span>) {
    v.Some? && v.value.end.None?
  }

  function Open(spans: seq<Option<Span>>): set<int> {
    set i | 0 <= i < |spans| && IsOpen(spans[i])
  }

  // Every interval lies between the origin and now.
  predicate Within(spans: seq<Option<Span>>, origin: Time, now: Time) {
    forall i :: 0 <= i < |spans| ==> Inside(spans[i], origin, now)
  }

  predicate Inside(v: Option<Span>, origin: Time, now: Time) {
    v.Some? ==> origin <= v.value.start <= now && (v.value.end.Some? ==> v.value.end.value <= now)
  }

  // A counter next to the intervals it has seen.
  ghost predicate Measures(m: Meter, spans: seq<Option<Span>>, origin: Time, now: Time) {
    && origin <= now
    && Within(spans, origin, now)
    && m.active == |Open(spans)|
    && Reading(m, now) == |Covered(spans, origin, now)|
  }

  lemma CoverWhileOpen(spans: seq<Option<Span>>, i: int, origin: Time, now: Time, later: Time)
    requires 0 <= i < |spans| && IsOpen(spans[i]) && spans[i].value.start <= now && origin <= now <= later
    ensures |Covered(spans, origin, later)| == |Covered(spans, origin, now)| + (later - now)
  {
    forall x | x in Range(now, later) ensures x in Covered(spans, origin, later) {
      assert Covers(spans[i], x);
    }
    assert Covered(spans, origin, later) == Covered(spans, origin, now) + Range(now, later);
    assert Covered(spans, origin, now) !! Range(now, later);
  }

  lemma CoverWhileClosed(spans: seq<Option<Span>>, origin: Time, now: Time, later: Time)
    requires Within(spans, origin, now) && origin <= now <= later
    requires forall i :: 0 <= i < |spans| ==> !IsOpen(spans[i])
    ensures Covered(spans, origin, later) == Covered(spans, origin, now)
  {
    forall i, x | 0 <= i < |spans| && Covers(spans[i], x) ensures x < now {
      assert Inside(spans[i], origin, now);
    }
  }

  // Time passing: the union grows by exactly the elapsed ticks while an interval is open, else not at all.
  lemma CoverGrows(spans: seq<Option<Span>>, origin: Time, now: Time, later: Time)
    requires Within(spans, origin, now) && origin <= now <= later
    ensures |Covered(spans, origin, later)| ==
            |Covered(spans, origin, now)| + if Open(spans) != {} then later - now else 0
  {
    if Open(spans) != {} {
      var i :| i in Open(spans);
      assert Inside(spans[i], origin, now);
      CoverWhileOpen(spans, i, origin, now, later);
    } else {
      forall i | 0 <= i < |spans| ensures !IsOpen(spans[i]) {
        assert i !in Open(spans);
      }
      CoverWhileClosed(spans, origin, now, later);
    }
  }

  lemma Elapse(m: Meter, spans: seq<Option<Span>>, origin: Time, now: Time, later: Time)
    requires Measures(m, spans, origin, now) && now <= later
    ensures Measures(m, spans, origin, later)
  {
    CoverGrows(spans, origin, now, later);
    forall i | 0 <= i < |spans| ensures Inside(spans[i], origin, later) {
      assert Inside(spans[i], origin, now);
    }
  }

  lemma UnseenMeasured(m: Meter, spans: seq<Option<Span>>, origin: Time, now: Time)
    requires Measures(m, spans, origin, now)
    ensures Measures(m, spans + [None], origin, now)
  {
    var spans' := spans + [None];
    assert Open(spans') == Open(spans);
    forall x | x in Covered(spans, origin, now) ensures x in Covered(spans', origin, now) {
      var j :| 0 <= j < |spans| && Covers(spans[j], x);
      assert Covers(spans'[j], x);
    }
    assert Covered(spans', origin, now) == Covered(spans, origin, now);
  }

  // An interval that starts now, or ends now, covers the same past ticks as before.
  lemma SameCover(spans: seq<Option<Span>>, i: int, v: Option<Span>, origin: Time, now: Time)
    requires 0 <= i < |spans|
    requires forall x :: x < now ==> (Covers(spans[i], x) <==> Covers(v, x))
    ensures Covered(spans[i := v], origin, now) == Covered(spans, origin, now)
  {
    forall x | x in Covered(spans, origin, now) ensures x in Covered(spans[i := v], origin, now) {
      var j :| 0 <= j < |spans| && Covers(spans[j], x);
      assert Covers(spans[i := v][j], x);
    }
    forall x | x in Covered(spans[i := v], origin, now) ensures x in Covered(spans, origin, now) {
      var j :| 0 <= j < |spans| && Covers(spans[i := v][j], x);
      assert Covers(spans[j], x);
    }
  }

  lemma OpenCount(spans: seq<Option<Span>>, i: int, v: Option<Span>)
    requires 0 <= i < |spans|
    ensures |Open(spans[i := v])| ==
            |Open(spans)| + (if IsOpen(v) then 1 else 0) - (if IsOpen(spans[i]) then 1 else 0)
  {
    assert Open(spans[i := v]) - {i} == Open(spans) - {i};
    WithoutOne(Open(spans), i);
    WithoutOne(Open(spans[i := v]), i);
  }

  lemma WithoutOne(s: set<int>, i: int)
    ensures |s - {i}| == |s| - if i in s then 1 else 0
  {
    if i !in s {
      assert s - {i} == s;
    }
  }

  lemma WithinUpdate(spans: seq<Option<Span>>, i: int, v: Option<Span>, origin: Time, now: Time)
    requires Within(spans, origin, now) && 0 <= i < |spans| && Inside(v, origin, now)
    ensures Within(spans[i := v], origin, now)
  {
  }

  lemma EnterMeasured(m: Meter, spans: seq<Option<Span>>, origin: Time, now: Time, i: int)
    requires Measures(m, spans, origin, now) && 0 <= i < |spans| && spans[i].None?
    ensures Measures(Enter(m, now), spans[i := Some(Span(now, None))], origin, now)
    ensures Reading(Enter(m, now), now) == Reading(m, now)
  {
    var v := Some(Span(now, None));
    OpenCount(spans, i, v);
    SameCover(spans, i, v, origin, now);
    WithinUpdate(spans, i, v, origin, now);
  }

  lemma ExitMeasured(m: Meter, spans: seq<Option<Span>>, origin: Time, now: Time, i: int)
    requires Measures(m, spans, origin, now) && 0 <= i < |spans| && IsOpen(spans[i])
    ensures Measures(Exit(m, now), spans[i := Some(Span(spans[i].value.start, Some(now)))], origin, now)
    ensures Reading(Exit(m, now), now) == Reading(m, now)
  {
    var v := Some(Span(spans[i].value.start, Some(now)));
    assert Inside(spans[i], origin, now);
    OpenCount(spans, i, v);
    SameCover(spans, i, v, origin, now);
    WithinUpdate(spans, i, v, origin, now);
  }

  // ---- whole runs

  // Every counter access reads the clock once; `at` is that reading.
  datatype Op =
    | OpenWait(kind: Kind, at: Time)
    | OpenInner(wait: int, at: Time)
    | CloseInner(wait: int, at: Time)
    | CloseWait(wait: int, at: Time)
    | PhaseOp(name: string, at: Time)

  datatype State = State(t: Timing, waits: seq<Wait>, now: Time)

  function MeterOf(t: Timing, which: Which): Meter {
    match which case Provider => t.provider case Network => t.network case External => t.external
  }

  function WithMeter(t: Timing, which: Which, m: Meter): Timing {
    match which
    case Provider => t.(provider := m)
    case Network => t.(network := m)
    case External => t.(external := m)
  }

  function CounterOf(kind: Kind): Which {
    if kind == ProviderKind then Provider else Network
  }

  // Context managers nest: the inner interval opens after and closes before the outer one; and the clock
  // never runs backwards.
  predicate Possible(s: State, op: Op) {
    && op.at >= s.now
    && (op.OpenInner? || op.CloseInner? || op.CloseWait? ==>
        0 <= op.wait < |s.waits| && s.waits[op.wait].outer.end.None?)
    && (op.OpenInner? ==> s.waits[op.wait].inner.None?)
    && (op.CloseInner? ==> IsOpen(s.waits[op.wait].inner))
    && (op.CloseWait? ==> s.waits[op.wait].inner.Some? && !IsOpen(s.waits[op.wait].inner))
  }

  function Step(s: State, op: Op): State
    requires Possible(s, op)
  {
    match op
    case OpenWait(kind, at) =>
      var which := CounterOf(kind);
      State(WithMeter(s.t, which, Enter(MeterOf(s.t, which), at)), s.waits + [Wait(kind, Span(at, None), None)], at)
    case OpenInner(i, at) =>
      State(s.t.(external := Enter(s.t.external, at)), s.waits[i := s.waits[i].(inner := Some(Span(at, None)))], at)
    case CloseInner(i, at) =>
      var inner := Some(s.waits[i].inner.value.(end := Some(at)));
      State(s.t.(external := Exit(s.t.external, at)), s.waits[i := s.waits[i].(inner := inner)], at)
    case CloseWait(i, at) =>
      var which := CounterOf(s.waits[i].kind);
      State(WithMeter(s.t, which, Exit(MeterOf(s.t, which), at)),
            s.waits[i := s.waits[i].(outer := s.waits[i].outer.(end := Some(at)))], at)
    case PhaseOp(name, at) => State(SwitchPhase(s.t, name, at), s.waits, at)
  }

  // Impossible operations do not happen.
  function Run(s: State, ops: seq<Op>): State
    decreases |ops|
  {
    if ops == [] then s
    else Run(if Possible(s, ops[0]) then Step(s, ops[0]) else s, ops[1..])
  }

  function Init(now: Time): State {
    State(Start(now), [], now)
  }

  ghost function Sum(costs: map<string, Cost>): Cost {
    if costs == map[] then NOTHING
    else var name :| name in costs; Plus(costs[name], Sum(costs - {name}))
  }

  lemma {:induction false} SumSplit(costs: map<string, Cost>, name: string)
    requires name in costs
    ensures Sum(costs) == Plus(costs[name], Sum(costs - {name}))
    decreases |costs|
  {
    var first :| first in costs && Sum(costs) == Plus(costs[first], Sum(costs - {first}));
    if first == name {
    } else {
      SumSplit(costs - {first}, name);
      SumSplit(costs - {name}, first);
      var rest := costs - {first} - {name};
      assert costs - {name} - {first} == rest;
      assert Sum(costs - {first}) == Plus(costs[name], Sum(rest));
      assert Sum(costs - {name}) == Plus(costs[first], Sum(rest));
      assert Sum(costs) == Plus(costs[first], Plus(costs[name], Sum(rest)));
    }
  }

  lemma SumCharge(costs: map<string, Cost>, name: string, start: Elapsed, end: Elapsed)
    ensures Sum(Charge(costs, name, start, end)) == Plus(Sum(costs), Spent(start, end))
  {
    var charged := Charge(costs, name, start, end);
    SumSplit(charged, name);
    assert charged - {name} == costs - {name};
    if name in costs {
      SumSplit(costs, name);
    } else {
      assert costs - {name} == costs;
    }
  }

  // What the phases should add up to at a reading of the clock.
  function Whole(e: Elapsed): Cost {
    Cost(e.total, e.provider, e.total - e.provider, e.network, e.total - e.external)
  }

  // Neither the time outside provider waits nor the time outside all waits has gone back since the open
  // phase began.
  predicate PhasesOk(t: Timing, now: Time) {
    var e := ElapsedAt(t, now);
    && t.phaseStart.total - t.phaseStart.provider <= e.total - e.provider
    && t.phaseStart.total - t.phaseStart.external <= e.total - e.external
  }

  ghost predicate MetersOk(t: Timing, waits: seq<Wait>, now: Time) {
    forall which :: Measures(MeterOf(t, which), Spans(waits, which), t.started, now)
  }

  // Inner intervals lie inside their outer ones.
  predicate Nested(w: Wait) {
    && (w.inner.Some? ==>
          && w.outer.start <= w.inner.value.start
          && (w.inner.value.end.None? ==> w.outer.end.None?)
          && (w.inner.value.end.Some? && w.outer.end.Some? ==> w.inner.value.end.value <= w.outer.end.value))
  }

  ghost predicate Inv(s: State) {
    && MetersOk(s.t, s.waits, s.now)
    && PhasesOk(s.t, s.now)
    && WaitsOk(s.waits, s.now)
  }

  predicate WaitsOk(waits: seq<Wait>, now: Time) {
    forall i :: 0 <= i < |waits| ==> WaitOk(waits[i], now)
  }

  predicate WaitOk(w: Wait, now: Time) {
    && Nested(w)
    && w.outer.start <= now
    && (w.inner.Some? && w.inner.value.end.Some? ==> w.inner.value.end.value <= now)
  }

  // A union of waits never covers more than the time that passed.
  lemma ReadingBounded(m: Meter, spans: seq<Option<Span>>, origin: Time, now: Time)
    requires Measures(m, spans, origin, now)
    ensures 0 <= Reading(m, now) <= now - origin
  {
    SubsetCardinality(Covered(spans, origin, now), Range(origin, now));
  }

  lemma MetersPass(t: Timing, waits: seq<Wait>, now: Time, later: Time)
    requires MetersOk(t, waits, now) && now <= later
    ensures MetersOk(t, waits, later)
  {
    forall which ensures Measures(MeterOf(t, which), Spans(waits, which), t.started, later) {
      Elapse(MeterOf(t, which), Spans(waits, which), t.started, now, later);
    }
  }

  lemma PhasesPass(t: Timing, now: Time, later: Time)
    requires PhasesOk(t, now) && t.started <= now <= later
    requires 0 <= Reading(t.provider, now) <= now - t.started
    requires 0 <= Reading(t.provider, later) <= later - t.started
    ensures PhasesOk(t, later)
  {
  }

  lemma PassTime(s: State, later: Time)
    requires Inv(s) && s.now <= later
    ensures Inv(s.(now := later))
  {
    MetersPass(s.t, s.waits, s.now, later);
    assert Measures(MeterOf(s.t, Provider), Spans(s.waits, Provider), s.t.started, s.now);
    ReadingBounded(s.t.provider, Spans(s.waits, Provider), s.t.started, s.now);
    ReadingBounded(s.t.provider, Spans(s.waits, Provider), s.t.started, later);
    PhasesPass(s.t, s.now, later);
    forall i | 0 <= i < |s.waits| ensures WaitOk(s.waits[i], later) {
      assert WaitOk(s.waits[i], s.now);
    }
  }

  // Entering or leaving a wait costs no time.
  lemma PhasesKept(t: Timing, which: Which, m: Meter, now: Time)
    requires PhasesOk(t, now) && Reading(m, now) == Reading(MeterOf(t, which), now)
    ensures PhasesOk(WithMeter(t, which, m), now)
  {
    assert ElapsedAt(WithMeter(t, which, m), now) == ElapsedAt(t, now);
  }

  // One counter enters or leaves interval i of the waits; the others see nothing new.
  lemma MetersKept(t: Timing, waits: seq<Wait>, now: Time, which: Which, m: Meter, i: int, w: Wait)
    requires MetersOk(t, waits, now) && 0 <= i < |waits|
    requires forall other :: other != which ==> Of(w, other) == Of(waits[i], other)
    requires Measures(m, Spans(waits, which)[i := Of(w, which)], t.started, now)
    ensures MetersOk(WithMeter(t, which, m), waits[i := w], now)
  {
    forall other ensures Measures(MeterOf(WithMeter(t, which, m), other), Spans(waits[i := w], other), t.started, now) {
      assert Spans(waits[i := w], other) == Spans(waits, other)[i := Of(w, other)];
      assert Measures(MeterOf(t, other), Spans(waits, other), t.started, now);
      if other != which {
        assert Spans(waits, other)[i := Of(w, other)] == Spans(waits, other);
      }
    }
  }

  lemma OpenWaitMeasured(t: Timing, waits: seq<Wait>, now: Time, kind: Kind)
    requires MetersOk(t, waits, now)
    ensures var which := CounterOf(kind);
            && MetersOk(WithMeter(t, which, Enter(MeterOf(t, which), now)), waits + [Wait(kind, Span(now, None), None)],
                        now)
            && Reading(Enter(MeterOf(t, which), now), now) == Reading(MeterOf(t, which), now)
  {
    var which, n := CounterOf(kind), |waits|;
    var t' := WithMeter(t, which, Enter(MeterOf(t, which), now));
    var waits' := waits + [Wait(kind, Span(now, None), None)];
    forall other ensures Measures(MeterOf(t', other), Spans(waits', other), t.started, now) {
      var unseen := Spans(waits, other) + [None];
      assert Measures(MeterOf(t, other), Spans(waits, other), t.started, now);
      UnseenMeasured(MeterOf(t, other), Spans(waits, other), t.started, now);
      if other == which {
        EnterMeasured(MeterOf(t, other), unseen, t.started, now, n);
        assert Spans(waits', other) == unseen[n := Some(Span(now, None))];
      } else {
        assert Spans(waits', other) == unseen;
      }
    }
  }

  lemma UpdateKeepsInv(s: State, which: Which, m: Meter, i: int, w: Wait)
    requires Inv(s) && 0 <= i < |s.waits|
    requires forall other :: other != which ==> Of(w, other) == Of(s.waits[i], other)
    requires Measures(m, Spans(s.waits, which)[i := Of(w, which)], s.t.started, s.now)
    requires Reading(m, s.now) == Reading(MeterOf(s.t, which), s.now)
    requires WaitOk(w, s.now)
    ensures Inv(State(WithMeter(s.t, which, m), s.waits[i := w], s.now))
  {
    MetersKept(s.t, s.waits, s.now, which, m, i, w);
    PhasesKept(s.t, which, m, s.now);
  }

  lemma OpenWaitKeepsInv(s: State, kind: Kind)
    requires Inv(s)
    ensures Inv(Step(s, OpenWait(kind, s.now)))
  {
    OpenWaitMeasured(s.t, s.waits, s.now, kind);
    PhasesKept(s.t, CounterOf(kind), Enter(MeterOf(s.t, CounterOf(kind)), s.now), s.now);
  }

  lemma OpenInnerKeepsInv(s: State, i: int)
    requires Inv(s) && Possible(s, OpenInner(i, s.now))
    ensures Inv(Step(s, OpenInner(i, s.now)))
  {
    var w, spans := s.waits[i], Spans(s.waits, External);
    assert Measures(MeterOf(s.t, External), spans, s.t.started, s.now);
    EnterMeasured(s.t.external, spans, s.t.started, s.now, i);
    UpdateKeepsInv(s, External, Enter(s.t.external, s.now), i, w.(inner := Some(Span(s.now, None))));
  }

  lemma CloseInnerKeepsInv(s: State, i: int)
    requires Inv(s) && Possible(s, CloseInner(i, s.now))
    ensures Inv(Step(s, CloseInner(i, s.now)))
  {
    var w, spans := s.waits[i], Spans(s.waits, External);
    assert Measures(MeterOf(s.t, External), spans, s.t.started, s.now);
    ExitMeasured(s.t.external, spans, s.t.started, s.now, i);
    UpdateKeepsInv(s, External, Exit(s.t.external, s.now), i, w.(inner := Some(w.inner.value.(end := Some(s.now)))));
  }

  lemma CloseWaitKeepsInv(s: State, i: int)
    requires Inv(s) && Possible(s, CloseWait(i, s.now))
    ensures Inv(Step(s, CloseWait(i, s.now)))
  {
    var w := s.waits[i];
    var which := CounterOf(w.kind);
    assert Measures(MeterOf(s.t, which), Spans(s.waits, which), s.t.started, s.now);
    ExitMeasured(MeterOf(s.t, which), Spans(s.waits, which), s.t.started, s.now, i);
    UpdateKeepsInv(s, which, Exit(MeterOf(s.t, which), s.now), i, w.(outer := w.outer.(end := Some(s.now))));
  }

  lemma MetersIgnorePhases(t: Timing, t': Timing, waits: seq<Wait>, now: Time)
    requires MetersOk(t, waits, now)
    requires (t'.started, t'.provider, t'.network, t'.external) == (t.started, t.provider, t.network, t.external)
    ensures MetersOk(t', waits, now)
  {
    forall which ensures Measures(MeterOf(t', which), Spans(waits, which), t'.started, now) {
      assert Measures(MeterOf(t, which), Spans(waits, which), t.started, now);
    }
  }

  lemma PhaseOpKeepsInv(s: State, name: string)
    requires Inv(s)
    ensures Inv(Step(s, PhaseOp(name, s.now)))
  {
    MetersIgnorePhases(s.t, SwitchPhase(s.t, name, s.now), s.waits, s.now);
  }

  lemma StepNowKeepsInv(s: State, op: Op)
    requires Inv(s) && op.at == s.now && Possible(s, op)
    ensures Inv(Step(s, op))
  {
    match op
    case OpenWait(kind, at) => OpenWaitKeepsInv(s, kind);
    case OpenInner(i, at) => OpenInnerKeepsInv(s, i);
    case CloseInner(i, at) => CloseInnerKeepsInv(s, i);
    case CloseWait(i, at) => CloseWaitKeepsInv(s, i);
    case PhaseOp(name, at) => PhaseOpKeepsInv(s, name);
  }

  lemma StepKeepsInv(s: State, op: Op)
    requires Inv(s) && Possible(s, op)
    ensures Inv(Step(s, op))
  {
    PassTime(s, op.at);
    StepNowKeepsInv(s.(now := op.at), op);
    assert Step(s.(now := op.at), op) == Step(s, op);
  }

  lemma {:induction false} RunKeepsInv(s: State, ops: seq<Op>)
    requires Inv(s)
    ensures Inv(Run(s, ops))
    decreases |ops|
  {
    if ops == [] {
    } else {
      if Possible(s, ops[0]) {
        StepKeepsInv(s, ops[0]);
        RunKeepsInv(Step(s, ops[0]), ops[1..]);
      } else {
        RunKeepsInv(s, ops[1..]);
      }
    }
  }

  // Closed phases add up to what had elapsed when the open one began.
  ghost predicate Summed(t: Timing) {
    Sum(t.phases) == Whole(t.phaseStart)
  }

  lemma PhasesAddUp(t: Timing, now: Time)
    requires Summed(t) && PhasesOk(t, now)
    ensures Sum(Breakdown(t, now)) == Whole(ElapsedAt(t, now))
  {
    SumCharge(t.phases, t.phase, t.phaseStart, ElapsedAt(t, now));
    Telescopes(t.phaseStart, ElapsedAt(t, now));
  }

  // What had elapsed and what was spent since make up what has elapsed.
  lemma Telescopes(start: Elapsed, end: Elapsed)
    requires start.total - start.provider <= end.total - end.provider
    requires start.total - start.external <= end.total - end.external
    ensures Plus(Whole(start), Spent(start, end)) == Whole(end)
  {
  }

  lemma StepKeepsSum(t: Timing, name: string, now: Time)
    requires Summed(t) && PhasesOk(t, now)
    ensures Summed(SwitchPhase(t, name, now))
  {
    PhasesAddUp(t, now);
    assert SwitchPhase(t, name, now).phases == Breakdown(t, now);
  }

  lemma OnlyPhasesBook(s: State, op: Op)
    requires Possible(s, op) && !op.PhaseOp?
    ensures Step(s, op).t.phases == s.t.phases && Step(s, op).t.phaseStart == s.t.phaseStart
  {
  }

  lemma {:induction false} RunKeepsSum(s: State, ops: seq<Op>)
    requires Inv(s) && Summed(s.t)
    ensures Summed(Run(s, ops).t)
    decreases |ops|
  {
    if ops == [] {
    } else {
      if Possible(s, ops[0]) {
        StepKeepsInv(s, ops[0]);
        PhasesAt(s, ops[0].at);
        if ops[0].PhaseOp? {
          StepKeepsSum(s.t, ops[0].name, ops[0].at);
        } else {
          OnlyPhasesBook(s, ops[0]);
        }
        RunKeepsSum(Step(s, ops[0]), ops[1..]);
      } else {
        RunKeepsSum(s, ops[1..]);
      }
    }
  }

  lemma PhasesAt(s: State, later: Time)
    requires Inv(s) && s.now <= later
    ensures PhasesOk(s.t, later)
  {
    PassTime(s, later);
  }

  lemma Reachable(start: Time, ops: seq<Op>, now: Time)
    requires now >= Run(Init(start), ops).now
    ensures Inv(Run(Init(start), ops).(now := now))
  {
    forall which ensures Measures(IDLE, Spans([], which), start, start) {
      assert Covered(Spans([], which), start, start) == {} && Open(Spans([], which)) == {};
    }
    RunKeepsInv(Init(start), ops);
    PassTime(Run(Init(start), ops), now);
  }

  // Under any nesting and overlap, each counter reads the number of ticks in the union of its
  // intervals; and in any further `pause` ticks it grows by at most that many.
  lemma CountersMeasureUnions(start: Time, ops: seq<Op>, which: Which, now: Time, pause: nat)
    requires now >= Run(Init(start), ops).now
    ensures var s := Run(Init(start), ops);
            && Reading(MeterOf(s.t, which), now) == |Covered(Spans(s.waits, which), s.t.started, now)|
            && 0 <= Reading(MeterOf(s.t, which), now + pause) - Reading(MeterOf(s.t, which), now) <= pause
  {
    Reachable(start, ops, now);
    var s := Run(Init(start), ops);
    assert Measures(MeterOf(s.t, which), Spans(s.waits, which), s.t.started, now);
  }

  // At every moment the phases partition the run: their totals, provider waits, application times,
  // network waits and internal times add up to the run's own, exactly, and none is clamped away.
  lemma PhasesPartitionTheRun(start: Time, ops: seq<Op>, now: Time)
    requires now >= Run(Init(start), ops).now
    ensures var t := Run(Init(start), ops).t;
            && Sum(Breakdown(t, now)) == Whole(ElapsedAt(t, now))
            && ElapsedAt(t, now).provider == Reading(t.provider, now)
            && ElapsedAt(t, now).total == now - t.started
            && ElapsedAt(t, now).external <= ElapsedAt(t, now).total
  {
    Reachable(start, ops, now);
    ReachableSum(start, ops);
    PartitionAt(Run(Init(start), ops).(now := now));
  }

  lemma ReachableSum(start: Time, ops: seq<Op>)
    ensures Summed(Run(Init(start), ops).t)
  {
    Reachable(start, [], start);
    RunKeepsSum(Init(start), ops);
  }

  lemma PartitionAt(s: State)
    requires Inv(s) && Summed(s.t)
    ensures Sum(Breakdown(s.t, s.now)) == Whole(ElapsedAt(s.t, s.now))
    ensures ElapsedAt(s.t, s.now).provider == Reading(s.t.provider, s.now)
    ensures ElapsedAt(s.t, s.now).total == s.now - s.t.started
    ensures ElapsedAt(s.t, s.now).external <= ElapsedAt(s.t, s.now).total
  {
    ReadingBounded(MeterOf(s.t, Provider), Spans(s.waits, Provider), s.t.started, s.now);
    ReadingBounded(MeterOf(s.t, External), Spans(s.waits, External), s.t.started, s.now);
    PhasesAddUp(s.t, s.now);
  }
}
