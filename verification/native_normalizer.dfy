// The normaliser object, its shared step budget and the replay loop, proved against NativeSearch.
module NativeNormalizer {
  import opened Common
  import opened NativeSearch

  class StepBudget {
    var calls: int
    var revealed: set<string>
    var chars: int
    const maxCalls: int
    const maxReveals: int
    const maxChars: int

    constructor (maxCalls: int, maxReveals: int, maxChars: int)
      ensures calls == 0 && revealed == {} && chars == 0
      ensures this.maxCalls == maxCalls && this.maxReveals == maxReveals && this.maxChars == maxChars
    {
      calls, revealed, chars := 0, {}, 0;
      this.maxCalls, this.maxReveals, this.maxChars := maxCalls, maxReveals, maxChars;
    }
  }

  class Normalizer {
    const plan: Plan
    const budget: StepBudget
    var names: set<string>
    var stage: Stage
    var active: Option<string>
    var seqNo: nat
    var seen: map<string, Item>
    var streamed: multiset<Item>
    var completed: bool
    var finalized: bool

    ghost function Spent(): Budget
      reads budget
    {
      Budget(budget.calls, budget.revealed, budget.chars, budget.maxCalls, budget.maxReveals, budget.maxChars)
    }

    ghost function View(): State
      reads this, budget
    {
      State(Spent(), names, stage, active, seqNo, seen, streamed, completed, finalized)
    }

    constructor (plan: Plan, budget: StepBudget)
      ensures this.plan == plan && this.budget == budget && View() == Start(Spent())
    {
      this.plan, this.budget := plan, budget;
      names, stage, active, seqNo, seen := {}, Idle, None, 0, map[];
      streamed, completed, finalized := multiset{}, false, false;
    }

    method RevealDefinition(d: Definition, raw: Item) returns (events: seq<Event>, ok: bool)
      modifies this`names, this`seqNo, budget`revealed
      ensures Fed(View(), events, ok) == Reveal(plan, old(View()), d, raw)
    {
      if !d.isFunction || !d.deferLoading { return [], false; }
      if d.name !in plan.deferred { return [], false; }
      if d.name !in plan.definitions || plan.definitions[d.name] != d { return [], false; }
      if d.name in names { return [], true; }
      var canonical := plan.canonical[d.name];
      if canonical !in budget.revealed && |budget.revealed| >= Max(1, budget.maxReveals) { return [], false; }
      names := names + {d.name};
      budget.revealed := budget.revealed + {canonical};
      events, ok := [Revealed(seqNo, canonical, d.name, raw, d.name in plan.safe)], true;
      seqNo := seqNo + 1;
    }

    method RevealListed(listed: seq<Listed>, raw: Item) returns (events: seq<Event>, ok: bool)
      modifies this`names, this`seqNo, budget`revealed
      ensures Fed(View(), events, ok) == RevealAll(plan, old(View()), listed, raw)
    {
      events := [];
      for k := 0 to |listed|
        invariant Fed(View(), events, true) == RevealAll(plan, old(View()), listed[..k], raw)
      {
        RefusalIsFinal(plan, old(View()), listed, raw, k);
        if listed[k].NotObject? { return [], false; }
        var more, fine := RevealDefinition(listed[k].definition, raw);
        if !fine { return [], false; }
        events := events + more;
      }
      assert listed[..|listed|] == listed;
      ok := true;
    }

    method TakeSearchCall(item: Item) returns (events: seq<Event>, ok: bool)
      modifies this`stage, this`active, this`seqNo, budget`calls
      ensures Fed(View(), events, ok) == FeedSearchCall(old(View()), item)
    {
      if !item.server { return [], false; }
      if stage == Called { return [], false; }
      if budget.calls >= Max(1, budget.maxCalls) { return [], false; }
      budget.calls := budget.calls + 1;
      stage, active := Called, item.callId;
      events, ok := [SearchStarted(seqNo, item)], true;
      seqNo := seqNo + 1;
    }

    method TakeSearchOutput(item: Item) returns (events: seq<Event>, ok: bool)
      modifies this`stage, this`active, this`names, this`seqNo, budget`revealed, budget`chars
      ensures Fed(View(), events, ok) == FeedSearchOutput(plan, old(View()), item)
    {
      if stage != Called { return [], false; }
      if !item.server || !item.done { return [], false; }
      if item.callId != active || item.tools.None? { return [], false; }
      if budget.chars + item.chars > Max(100, budget.maxChars) { return [], false; }
      budget.chars := budget.chars + item.chars;
      stage, active := Result, None;
      var first := SearchResult(seqNo, item);
      seqNo := seqNo + 1;
      ghost var found := View();
      assert found == Spend(old(View()), item).(stage := Result, active := None, seqNo := old(seqNo) + 1);
      var more, fine := RevealListed(item.tools.value, item);
      if !fine { return [], false; }
      events, ok := [first] + more, true;
    }

    method TakeReference(item: Item) returns (events: seq<Event>, ok: bool)
      modifies this`names, this`seqNo, budget`revealed, budget`chars
      ensures Fed(View(), events, ok) == FeedReference(plan, old(View()), item)
    {
      if stage != Result || item.tool.None? { return [], false; }
      if budget.chars + item.chars > Max(100, budget.maxChars) { return [], false; }
      budget.chars := budget.chars + item.chars;
      events, ok := RevealDefinition(item.tool.value, item);
    }

    method TakeFunctionCall(item: Item) returns (events: seq<Event>, ok: bool)
      modifies this`seqNo
      ensures Fed(View(), events, ok) == FeedFunctionCall(plan, old(View()), item)
    {
      if item.name !in plan.canonical { return [], false; }
      var deferred := item.name in plan.deferred;
      if deferred && item.name !in names { return [], false; }
      var executable := !deferred || item.name in plan.safe;
      var callId := if item.callId.Some? then item.callId.value else item.id;
      var arguments := if item.arguments != "" then item.arguments else "{}";
      events, ok := [ToolCall(seqNo, item, plan.canonical[item.name], item.name, callId, arguments, executable)], true;
      seqNo := seqNo + 1;
    }

    method TakeItem(item: Item) returns (events: seq<Event>, ok: bool)
      modifies this, budget
      ensures Fed(View(), events, ok) == FeedItem(plan, old(View()), item)
    {
      if item.kind == OtherKind { return [], true; }
      if item.id != "" {
        if item.id in seen { return [], seen[item.id] == item; }
        seen := seen[item.id := item];
      }
      match item.kind {
        case SearchCall => events, ok := TakeSearchCall(item);
        case SearchOutput => events, ok := TakeSearchOutput(item);
        case Reference => events, ok := TakeReference(item);
        case FunctionCall => events, ok := TakeFunctionCall(item);
      }
    }

    method TakeSummaryItem(entry: Option<Item>) returns (events: seq<Event>, ok: bool)
      modifies this, budget
      ensures Fed(View(), events, ok) == FeedSummaryItem(plan, old(View()), entry)
    {
      if entry.None? { return [], true; }
      var item := entry.value;
      if item.id == "" && streamed[item] > 0 {
        streamed := streamed[item := streamed[item] - 1];
        return [], true;
      }
      events, ok := TakeItem(item);
    }

    method TakeSummary(output: seq<Option<Item>>) returns (events: seq<Event>, ok: bool)
      modifies this, budget
      ensures Fed(View(), events, ok) == FeedSummary(plan, old(View()), output)
    {
      events := [];
      for k := 0 to |output|
        invariant Fed(View(), events, true) == FeedSummary(plan, old(View()), output[..k])
      {
        ghost var before := View();
        var more, fine := TakeSummaryItem(output[k]);
        SummaryGoesOn(plan, old(View()), output, k, before, events);
        if !fine { return more, false; }  // a refused item emits nothing
        events := events + more;
      }
      assert output[..|output|] == output;
      ok := true;
    }

    method TakeSse(event: Sse) returns (events: seq<Event>, ok: bool)
      modifies this, budget
      ensures Fed(View(), events, ok) == FeedSse(plan, old(View()), event)
    {
      if finalized || completed { return [], false; }
      match event {
        case ItemAdded(item) => return [], item.Some?;
        case ItemDone(item) =>
          if item.None? { return [], false; }
          events, ok := TakeItem(item.value);
          if ok && item.value.id == "" {
            streamed := streamed[item.value := streamed[item.value] + 1];
          }
        case ResponseCompleted(output) =>
          if output.None? { return [], true; }
          events, ok := TakeSummary(output.value);
          if ok { completed := true; }
        case OtherEvent => return [], true;
      }
    }

    method Finish() returns (ok: bool)
      modifies this`finalized
      ensures Fed(View(), [], ok) == Finalize(old(View()))
    {
      if finalized { return true; }
      if !completed || stage == Called { return false; }
      finalized := true;
      ok := true;
    }
  }

  // One refused definition refuses the whole list, with the state it left.
  lemma {:induction false} RefusalIsFinal(plan: Plan, st: State, listed: seq<Listed>, raw: Item, k: nat)
    requires k < |listed|
    ensures listed[..k + 1][..k] == listed[..k] && listed[..k + 1][k] == listed[k]
    ensures !RevealAll(plan, st, listed[..k + 1], raw).ok ==>
              RevealAll(plan, st, listed, raw) == RevealAll(plan, st, listed[..k + 1], raw)
    decreases |listed|
  {
    var n := |listed| - 1;
    if k < n {
      RefusalIsFinal(plan, st, listed[..n], raw, k);
      assert listed[..n][..k + 1] == listed[..k + 1];
    } else {
      assert listed[..k + 1] == listed;
    }
  }

  // One more entry of a summary that was accepted so far: it is taken, or refuses the rest.
  lemma SummaryGoesOn(plan: Plan, start: State, output: seq<Option<Item>>, k: nat, st: State, events: seq<Event>)
    requires k < |output| && Fed(st, events, true) == FeedSummary(plan, start, output[..k])
    ensures var last := FeedSummaryItem(plan, st, output[k]);
            if last.ok then FeedSummary(plan, start, output[..k + 1]) == Fed(last.st, events + last.events, true)
            else FeedSummary(plan, start, output) == last
  {
    SummaryRefusalIsFinal(plan, start, output, k);
  }

  lemma {:induction false} SummaryRefusalIsFinal(plan: Plan, st: State, output: seq<Option<Item>>, k: nat)
    requires k < |output|
    ensures output[..k + 1][..k] == output[..k] && output[..k + 1][k] == output[k]
    ensures !FeedSummary(plan, st, output[..k + 1]).ok ==>
            FeedSummary(plan, st, output) == FeedSummary(plan, st, output[..k + 1])
    decreases |output|
  {
    var n := |output| - 1;
    if k < n {
      SummaryRefusalIsFinal(plan, st, output[..n], k);
      assert output[..n][..k + 1] == output[..k + 1];
    } else {
      assert output[..k + 1] == output;
    }
  }

  // The validation loop over records sorted by sequence number.
  method BuildReplay(records: seq<Record>) returns (output: Option<seq<Kept>>)
    ensures output == Replay(records)
  {
    var ordered := Sorted(records);
    var kept: seq<Kept> := [];
    var last, stage, active := -1, Idle, None;
    for k := 0 to |ordered|
      invariant Scan(ordered[..k]) == Some((Cursor(last, stage, active), kept))
    {
      ScanStops(ordered, k);
      var r := ordered[k];
      if r.at <= last { return None; }
      last := r.at;
      if r.data.Malformed? || (r.data.Wrapped? && r.data.inner.None?) { return None; }
      var item := if r.data.Bare? then r.data.item else r.data.inner.value;
      match item.kind {
        case SearchCall =>
          if stage == Called || !item.server { return None; }
          stage, active := Called, item.callId;
        case SearchOutput =>
          if stage != Called || !item.server || !item.done || item.tools.None? || item.callId != active { return None; }
          stage, active := Result, None;
        case Reference =>
          if stage != Result { return None; }
        case _ => return None;
      }
      kept := kept + [Kept(r.at, item)];
    }
    assert ordered[..|ordered|] == ordered;
    if stage == Called { return None; }
    output := Some(kept);
  }

  lemma {:induction false} ScanStops(records: seq<Record>, k: nat)
    requires k < |records|
    ensures records[..k + 1][..k] == records[..k] && records[..k + 1][k] == records[k]
    ensures Scan(records[..k + 1]).None? ==> Scan(records).None?
    decreases |records|
  {
    var n := |records| - 1;
    if k < n {
      ScanStops(records[..n], k);
      assert records[..n][..k + 1] == records[..k + 1];
    } else {
      assert records[..k + 1] == records;
    }
  }
}
