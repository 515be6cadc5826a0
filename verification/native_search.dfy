// Provider-native Tool Search: the request plan, the stream normaliser and the replay validator
// (backend/agent/native_tool_search.py).
module NativeSearch {
  import opened Common

  // ---- the wire

  // A provider-visible tool definition; its digest is the definition itself.
  datatype Definition = Definition(name: string, isFunction: bool, deferLoading: bool, body: string)

  datatype Kind = SearchCall | SearchOutput | Reference | FunctionCall | OtherKind

  // One element of a search result's tool array.
  datatype Listed = Object(definition: Definition) | NotObject

  // An output item. An absent id is the empty string, an absent or empty call id is None, and `chars` is
  // the length of the item's compact encoding; equal items are equal encodings.
  datatype Item = Item(
    kind: Kind, id: string, server: bool, done: bool, callId: Option<string>, tools: Option<seq<Listed>>,
    tool: Option<Definition>, name: string, arguments: string, chars: nat)

  datatype Sse =
    | ItemAdded(item: Option<Item>)
    | ItemDone(item: Option<Item>)
    | ResponseCompleted(output: Option<seq<Option<Item>>>)
    | OtherEvent

  // ---- the plan of one request

  datatype PlanData = PlanData(
    direct: set<string>, deferred: set<string>, canonical: map<string, string>, definitions: map<string, Definition>,
    safe: set<string>)

  // Every deferred wire name has a canonical tool.
  type Plan = p: PlanData | p.deferred <= p.canonical.Keys witness PlanData({}, {}, map[], map[], {})

  // ---- what one step may spend, shared with the portable search

  datatype Budget = Budget(calls: int, revealed: set<string>, chars: int, maxCalls: int, maxReveals: int, maxChars: int)

  function CallLimit(b: Budget): int { Max(1, b.maxCalls) }

  function RevealLimit(b: Budget): int { Max(1, b.maxReveals) }

  function CharLimit(b: Budget): int { Max(100, b.maxChars) }

  datatype Stage = Idle | Called | Result

  datatype State = State(
    budget: Budget, names: set<string>, stage: Stage, active: Option<string>, seqNo: nat, seen: map<string, Item>,
    streamed: multiset<Item>, completed: bool, finalized: bool)

  datatype Event =
    | SearchStarted(at: nat, item: Item)
    | SearchResult(at: nat, item: Item)
    | Revealed(at: nat, canonical: string, wire: string, provider: Item, executable: bool)
    | ToolCall(at: nat, item: Item, canonical: string, wire: string, callId: string, arguments: string,
               executable: bool)

  // What feeding leaves behind: an error keeps the mutations made before it and emits nothing.
  datatype Fed = Fed(st: State, events: seq<Event>, ok: bool)

  function Fail(st: State): Fed { Fed(st, [], false) }

  function Start(budget: Budget): State {
    State(budget, {}, Idle, None, 0, map[], multiset{}, false, false)
  }

  // ---- the normaliser, one item at a time

  // The definition is exactly the deferred one the request listed.
  predicate Eligible(plan: Plan, d: Definition) {
    d.isFunction && d.deferLoading && d.name in plan.deferred && d.name in plan.definitions &&
    plan.definitions[d.name] == d
  }

  function Reveal(plan: Plan, st: State, d: Definition, raw: Item): Fed {
    if !Eligible(plan, d) then Fail(st)
    else if d.name in st.names then Fed(st, [], true)
    else
      var canonical := plan.canonical[d.name];
      if canonical !in st.budget.revealed && |st.budget.revealed| >= RevealLimit(st.budget) then Fail(st)
      else
        var after := st.(names := st.names + {d.name}, seqNo := st.seqNo + 1,
                         budget := st.budget.(revealed := st.budget.revealed + {canonical}));
        Fed(after, [Revealed(st.seqNo, canonical, d.name, raw, d.name in plan.safe)], true)
  }

  function RevealAll(plan: Plan, st: State, listed: seq<Listed>, raw: Item): Fed
    decreases |listed|
  {
    if listed == [] then Fed(st, [], true)
    else
      var n := |listed| - 1;
      var before := RevealAll(plan, st, listed[..n], raw);
      if !before.ok then before
      else if listed[n].NotObject? then Fail(before.st)
      else
        var last := Reveal(plan, before.st, listed[n].definition, raw);
        if last.ok then Fed(last.st, before.events + last.events, true) else last
  }

  function FeedSearchCall(st: State, item: Item): Fed {
    if !item.server || st.stage == Called || st.budget.calls >= CallLimit(st.budget) then Fail(st)
    else
      Fed(st.(budget := st.budget.(calls := st.budget.calls + 1), stage := Called, active := item.callId,
              seqNo := st.seqNo + 1), [SearchStarted(st.seqNo, item)], true)
  }

  function Spend(st: State, item: Item): State {
    st.(budget := st.budget.(chars := st.budget.chars + item.chars))
  }

  function FeedSearchOutput(plan: Plan, st: State, item: Item): Fed {
    if st.stage != Called || !item.server || !item.done || item.callId != st.active || item.tools.None? ||
       st.budget.chars + item.chars > CharLimit(st.budget) then Fail(st)
    else
      var found := Spend(st, item).(stage := Result, active := None, seqNo := st.seqNo + 1);
      var revealed := RevealAll(plan, found, item.tools.value, item);
      if revealed.ok then Fed(revealed.st, [SearchResult(st.seqNo, item)] + revealed.events, true)
      else Fail(revealed.st)
  }

  function FeedReference(plan: Plan, st: State, item: Item): Fed {
    if st.stage != Result || item.tool.None? || st.budget.chars + item.chars > CharLimit(st.budget) then Fail(st)
    else Reveal(plan, Spend(st, item), item.tool.value, item)
  }

  function FeedFunctionCall(plan: Plan, st: State, item: Item): Fed {
    if item.name !in plan.canonical || (item.name in plan.deferred && item.name !in st.names) then Fail(st)
    else
      var executable := item.name !in plan.deferred || item.name in plan.safe;
      var callId := if item.callId.Some? then item.callId.value else item.id;
      var arguments := if item.arguments == "" then "{}" else item.arguments;
      Fed(st.(seqNo := st.seqNo + 1),
          [ToolCall(st.seqNo, item, plan.canonical[item.name], item.name, callId, arguments, executable)], true)
  }

  function FeedFresh(plan: Plan, st: State, item: Item): Fed {
    match item.kind
    case SearchCall => FeedSearchCall(st, item)
    case SearchOutput => FeedSearchOutput(plan, st, item)
    case Reference => FeedReference(plan, st, item)
    case FunctionCall => FeedFunctionCall(plan, st, item)
    case OtherKind => Fed(st, [], true)
  }

  // An item with an id is taken once; the same id again must be the same item.
  function FeedItem(plan: Plan, st: State, item: Item): Fed {
    if item.kind == OtherKind then Fed(st, [], true)
    else if item.id == "" then FeedFresh(plan, st, item)
    else if item.id in st.seen then
      if st.seen[item.id] == item then Fed(st, [], true) else Fail(st)
    else FeedFresh(plan, st.(seen := st.seen[item.id := item]), item)
  }

  // One entry of the terminal summary: an id-less item that was already streamed is struck off.
  function FeedSummaryItem(plan: Plan, st: State, entry: Option<Item>): Fed {
    if entry.None? then Fed(st, [], true)
    else if entry.value.id == "" && st.streamed[entry.value] > 0 then
      Fed(st.(streamed := st.streamed[entry.value := st.streamed[entry.value] - 1]), [], true)
    else FeedItem(plan, st, entry.value)
  }

  function FeedSummary(plan: Plan, st: State, output: seq<Option<Item>>): Fed
    decreases |output|
  {
    if output == [] then Fed(st, [], true)
    else
      var n := |output| - 1;
      var before := FeedSummary(plan, st, output[..n]);
      if !before.ok then before
      else
        var last := FeedSummaryItem(plan, before.st, output[n]);
        if last.ok then Fed(last.st, before.events + last.events, true) else last
  }

  function FeedSse(plan: Plan, st: State, event: Sse): Fed {
    if st.finalized || st.completed then Fail(st)
    else
      match event
      case ItemAdded(item) => Fed(st, [], item.Some?)
      case ItemDone(item) =>
        if item.None? then Fail(st)
        else
          var fed := FeedItem(plan, st, item.value);
          if fed.ok && item.value.id == "" then
            fed.(st := fed.st.(streamed := fed.st.streamed[item.value := fed.st.streamed[item.value] + 1]))
          else fed
      case ResponseCompleted(output) =>
        if output.None? then Fed(st, [], true)
        else
          var fed := FeedSummary(plan, st, output.value);
          if fed.ok then fed.(st := fed.st.(completed := true)) else fed
      case OtherEvent => Fed(st, [], true)
  }

  // A whole stream; the first error ends it.
  function FeedStream(plan: Plan, st: State, events: seq<Sse>): Fed
    decreases |events|
  {
    if events == [] then Fed(st, [], true)
    else
      var n := |events| - 1;
      var before := FeedStream(plan, st, events[..n]);
      if !before.ok then before
      else
        var last := FeedSse(plan, before.st, events[n]);
        if last.ok then Fed(last.st, before.events + last.events, true) else last
  }

  function Finalize(st: State): Fed {
    if st.finalized then Fed(st, [], true)
    else if !st.completed || st.stage == Called then Fail(st)
    else Fed(st.(finalized := true), [], true)
  }

  // ---- what is kept of a stream, and its replay

  datatype Data = Bare(item: Item) | Wrapped(inner: Option<Item>) | Malformed

  datatype Record = Record(at: int, data: Data)

  datatype Kept = Kept(at: int, item: Item)

  // Opaque items are saved under the sequence number of the event that carried them.
  function SavedBy(event: Event): seq<Kept> {
    match event
    case SearchStarted(at, item) => [Kept(at, item)]
    case SearchResult(at, item) => [Kept(at, item)]
    case Revealed(at, _, _, provider, _) => if provider.kind == Reference then [Kept(at, provider)] else []
    case ToolCall(_, _, _, _, _, _, _) => []
  }

  function Transcript(events: seq<Event>): seq<Kept> {
    if events == [] then []
    else Transcript(events[..|events| - 1]) + SavedBy(events[|events| - 1])
  }

  function Saved(kept: seq<Kept>): seq<Record> {
    seq(|kept|, k requires 0 <= k < |kept| => Record(kept[k].at, Bare(kept[k].item)))
  }

  function ItemOf(data: Data): Option<Item> {
    match data
    case Bare(item) => Some(item)
    case Wrapped(inner) => inner
    case Malformed => None
  }

  datatype Cursor = Cursor(last: int, stage: Stage, active: Option<string>)

  predicate Admissible(c: Cursor, item: Item) {
    match item.kind
    case SearchCall => c.stage != Called && item.server
    case SearchOutput => c.stage == Called && item.server && item.done && item.tools.Some? && item.callId == c.active
    case Reference => c.stage == Result
    case _ => false
  }

  function Advance(c: Cursor, at: int, item: Item): Cursor {
    match item.kind
    case SearchCall => Cursor(at, Called, item.callId)
    case SearchOutput => Cursor(at, Result, None)
    case _ => c.(last := at)
  }

  // Validation of records in order: None once one is refused.
  function Scan(records: seq<Record>): Option<(Cursor, seq<Kept>)>
    decreases |records|
  {
    if records == [] then Some((Cursor(-1, Idle, None), []))
    else
      var n := |records| - 1;
      var before := Scan(records[..n]);
      var r := records[n];
      if before.None? || r.at <= before.value.0.last || ItemOf(r.data).None? ||
         !Admissible(before.value.0, ItemOf(r.data).value) then None
      else
        var item := ItemOf(r.data).value;
        Some((Advance(before.value.0, r.at, item), before.value.1 + [Kept(r.at, item)]))
  }

  function Insert(r: Record, sorted: seq<Record>): seq<Record> {
    if sorted == [] || r.at >= sorted[|sorted| - 1].at then sorted + [r]
    else Insert(r, sorted[..|sorted| - 1]) + [sorted[|sorted| - 1]]
  }

  // A stable sort by sequence number.
  function Sorted(records: seq<Record>): seq<Record> {
    if records == [] then [] else Insert(records[|records| - 1], Sorted(records[..|records| - 1]))
  }

  // The replayable history, or None when the records are not one.
  function Replay(records: seq<Record>): Option<seq<Kept>> {
    var scanned := Scan(Sorted(records));
    if scanned.None? || scanned.value.0.stage == Called then None else Some(scanned.value.1)
  }
}
