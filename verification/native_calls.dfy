// What a stream asks the executor to do: exactly the finished items, each once and in order, and each call with
// the content of its own item and the authority of its own catalogue entry.
module NativeCalls {
  import opened Common
  import opened NativeSearch
  import opened NativePlan
  import opened NativeStreams

  // ---- the content of a call

  // The tool, the call id and the arguments are the item's own, and only a deferred tool not marked safe waits.
  predicate OwnContent(plan: Plan, e: Event) {
    e.ToolCall? ==>
      && e.item.kind == FunctionCall && e.wire == e.item.name
      && e.wire in plan.canonical && e.canonical == plan.canonical[e.wire]
      && (e.item.callId != None ==> Some(e.callId) == e.item.callId)
      && (e.item.callId == None ==> e.callId == e.item.id)
      && (e.item.arguments != "" ==> e.arguments == e.item.arguments)
      && (e.item.arguments == "" ==> e.arguments == "{}")
      && (!e.executable <==> e.wire in plan.deferred && e.wire !in plan.safe)
  }

  predicate OwnContents(plan: Plan, events: seq<Event>) {
    forall k :: 0 <= k < |events| ==> OwnContent(plan, events[k])
  }

  // ---- what is handled

  // Kinds of items that are passed on as they are; references are passed on as reveals.
  predicate Handled(kind: Kind) { kind == SearchCall || kind == SearchOutput || kind == FunctionCall }

  function CarriedBy(e: Event): seq<Item> {
    match e
    case SearchStarted(_, item) => [item]
    case SearchResult(_, item) => [item]
    case ToolCall(_, item, _, _, _, _, _) => [item]
    case Revealed(_, _, _, _, _) => []
  }

  // The items the events pass on, in order.
  function Carried(events: seq<Event>): seq<Item> {
    if events == [] then [] else Carried(events[..|events| - 1]) + CarriedBy(events[|events| - 1])
  }

  function IdsOf(items: seq<Item>): set<string> {
    set i | i in items && i.kind != OtherKind && i.id != "" :: i.id
  }

  // The handled items, leaving out those whose id was there before.
  function Fresh(items: seq<Item>): seq<Item> {
    if items == [] then []
    else
      var n := |items| - 1;
      Fresh(items[..n]) + if Handled(items[n].kind) && items[n].id !in IdsOf(items[..n]) then [items[n]] else []
  }

  // What a terminal summary adds to the stream: its entries, less one id-less entry for each one streamed.
  function Left(output: seq<Option<Item>>, streamed: multiset<Item>): (seq<Item>, multiset<Item>) {
    if output == [] then ([], streamed)
    else
      var n := |output| - 1;
      var before := Left(output[..n], streamed);
      if output[n].None? then before
      else if output[n].value.id == "" && output[n].value in before.1 then
        (before.0, before.1 - multiset{output[n].value})
      else (before.0 + [output[n].value], before.1)
  }

  function IdLess(items: seq<Item>): multiset<Item> {
    if items == [] then multiset{}
    else
      var n := |items| - 1;
      IdLess(items[..n]) + if items[n].id == "" then multiset{items[n]} else multiset{}
  }

  function Adds(before: seq<Item>, event: Sse): seq<Item> {
    match event
    case ItemDone(item) => if item.Some? then [item.value] else []
    case ResponseCompleted(output) => if output.Some? then Left(output.value, IdLess(before)).0 else []
    case _ => []
  }

  // The items a stream finishes, in order.
  function Finished(stream: seq<Sse>): seq<Item> {
    if stream == [] then []
    else
      var n := |stream| - 1;
      Finished(stream[..n]) + Adds(Finished(stream[..n]), stream[n])
  }

  // ---- one step

  // An accepted step of a stream that had finished `items` and finishes `more`.
  predicate Passes(plan: Plan, fed: Fed, items: seq<Item>, more: seq<Item>) {
    && fed.st.seen.Keys == IdsOf(items + more)
    && Fresh(items + more) == Fresh(items) + Carried(fed.events)
    && OwnContents(plan, fed.events)
  }

  lemma Regroup(a: seq<Item>, b: seq<Item>, c: seq<Item>)
    ensures a + (b + c) == (a + b) + c
  {
  }

  lemma OwnContentsConcat(plan: Plan, a: seq<Event>, b: seq<Event>)
    requires OwnContents(plan, a) && OwnContents(plan, b)
    ensures OwnContents(plan, a + b)
  {
  }

  lemma {:induction false} CarriedConcat(a: seq<Event>, b: seq<Event>)
    ensures Carried(a + b) == Carried(a) + Carried(b)
    decreases |b|
  {
    if b == [] {
      assert a + b == a;
    } else {
      var n := |b| - 1;
      CarriedConcat(a, b[..n]);
      assert (a + b)[..|a + b| - 1] == a + b[..n];
      Regroup(Carried(a), Carried(b[..n]), CarriedBy(b[n]));
    }
  }

  lemma CarriedOne(e: Event)
    ensures Carried([e]) == CarriedBy(e)
  {
    assert [e][..0] == [];
  }

  lemma IdsOne(items: seq<Item>, item: Item)
    ensures IdsOf(items + [item]) == IdsOf(items) + if item.kind != OtherKind && item.id != "" then {item.id} else {}
  {
    forall id | id in IdsOf(items) ensures id in IdsOf(items + [item]) {
      var i :| i in items && i.kind != OtherKind && i.id != "" && i.id == id;
      assert i in items + [item];
    }
    if item.kind != OtherKind && item.id != "" {
      assert item in items + [item];
    }
  }

  lemma FreshOne(items: seq<Item>, item: Item)
    ensures Fresh(items + [item]) ==
            Fresh(items) + if Handled(item.kind) && item.id !in IdsOf(items) then [item] else []
  {
    assert (items + [item])[..|items|] == items;
  }

  lemma PassesThen(plan: Plan, first: Fed, second: Fed, items: seq<Item>, more: seq<Item>, last: seq<Item>)
    requires Passes(plan, first, items, more) && Passes(plan, second, items + more, last)
    ensures Passes(plan, Fed(second.st, first.events + second.events, true), items, more + last)
  {
    CarriedConcat(first.events, second.events);
    Regroup(items, more, last);
    Regroup(Fresh(items), Carried(first.events), Carried(second.events));
    OwnContentsConcat(plan, first.events, second.events);
  }

  lemma NothingPasses(plan: Plan, st: State, items: seq<Item>)
    requires st.seen.Keys == IdsOf(items)
    ensures Passes(plan, Fed(st, [], true), items, [])
  {
    assert items + [] == items;
  }

  lemma RevealCarriesNothing(plan: Plan, st: State, d: Definition, raw: Item)
    ensures Carried(Reveal(plan, st, d, raw).events) == [] && OwnContents(plan, Reveal(plan, st, d, raw).events)
  {
    var fed := Reveal(plan, st, d, raw);
    if fed.events != [] {
      assert fed.events == [fed.events[0]];
      CarriedOne(fed.events[0]);
    }
  }

  lemma {:induction false} RevealsCarryNothing(plan: Plan, st: State, listed: seq<Listed>, raw: Item)
    ensures Carried(RevealAll(plan, st, listed, raw).events) == []
    ensures OwnContents(plan, RevealAll(plan, st, listed, raw).events)
    decreases |listed|
  {
    if listed == [] {
    } else {
      var n := |listed| - 1;
      var before := RevealAll(plan, st, listed[..n], raw);
      RevealsCarryNothing(plan, st, listed[..n], raw);
      if before.ok && listed[n].Object? {
        RevealCarriesNothing(plan, before.st, listed[n].definition, raw);
        CarriedConcat(before.events, Reveal(plan, before.st, listed[n].definition, raw).events);
      }
    }
  }

  lemma ThenNothing(plan: Plan, first: Event, rest: seq<Event>)
    requires OwnContent(plan, first) && OwnContents(plan, rest) && Carried(rest) == []
    ensures Carried([first] + rest) == CarriedBy(first) && OwnContents(plan, [first] + rest)
  {
    CarriedOne(first);
    CarriedConcat([first], rest);
  }

  lemma SearchOutputCarriesItself(plan: Plan, st: State, item: Item)
    requires FeedSearchOutput(plan, st, item).ok
    ensures Carried(FeedSearchOutput(plan, st, item).events) == [item]
    ensures OwnContents(plan, FeedSearchOutput(plan, st, item).events)
  {
    var found := Spend(st, item).(stage := Result, active := None, seqNo := st.seqNo + 1);
    var listed := RevealAll(plan, found, item.tools.value, item).events;
    RevealsCarryNothing(plan, found, item.tools.value, item);
    ThenNothing(plan, SearchResult(st.seqNo, item), listed);
    assert FeedSearchOutput(plan, st, item).events == [SearchResult(st.seqNo, item)] + listed;
  }

  lemma SearchCallCarriesItself(st: State, item: Item)
    requires FeedSearchCall(st, item).ok
    ensures Carried(FeedSearchCall(st, item).events) == [item]
  {
    CarriedOne(SearchStarted(st.seqNo, item));
  }

  lemma FunctionCallCarriesItself(plan: Plan, st: State, item: Item)
    requires item.kind == FunctionCall && FeedFunctionCall(plan, st, item).ok
    ensures Carried(FeedFunctionCall(plan, st, item).events) == [item]
    ensures OwnContents(plan, FeedFunctionCall(plan, st, item).events)
  {
    var call := FeedFunctionCall(plan, st, item).events[0];
    CarriedOne(call);
    assert FeedFunctionCall(plan, st, item).events == [call];
  }

  // A fresh item of a handled kind is passed on once, with its own content.
  lemma FreshCarriesItself(plan: Plan, st: State, item: Item)
    requires FeedFresh(plan, st, item).ok
    ensures Carried(FeedFresh(plan, st, item).events) == if Handled(item.kind) then [item] else []
    ensures OwnContents(plan, FeedFresh(plan, st, item).events)
  {
    match item.kind
    case SearchCall => SearchCallCarriesItself(st, item);
    case SearchOutput => SearchOutputCarriesItself(plan, st, item);
    case Reference => RevealCarriesNothing(plan, Spend(st, item), item.tool.value, item);
    case FunctionCall => FunctionCallCarriesItself(plan, st, item);
    case OtherKind =>
  }

  // A step that remembers the item's id and passes the item on if it is fresh.
  lemma OneMorePasses(plan: Plan, fed: Fed, items: seq<Item>, item: Item)
    requires fed.st.seen.Keys == IdsOf(items) + if item.kind != OtherKind && item.id != "" then {item.id} else {}
    requires Carried(fed.events) == if Handled(item.kind) && item.id !in IdsOf(items) then [item] else []
    requires OwnContents(plan, fed.events)
    ensures Passes(plan, fed, items, [item])
  {
    FreshOne(items, item);
    IdsOne(items, item);
  }

  lemma NewItemPasses(plan: Plan, st: State, item: Item, items: seq<Item>)
    requires st.seen.Keys == IdsOf(items) && item.id !in IdsOf(items)
    requires item.kind != OtherKind && FeedItem(plan, st, item).ok
    ensures Passes(plan, FeedItem(plan, st, item), items, [item])
  {
    var remembered := if item.id == "" then st else st.(seen := st.seen[item.id := item]);
    FreshCarriesItself(plan, remembered, item);
    FreshKeepsMemory(plan, remembered, item);
    OneMorePasses(plan, FeedItem(plan, st, item), items, item);
  }

  lemma NoIdIsEmpty(items: seq<Item>)
    ensures "" !in IdsOf(items)
  {
  }

  lemma ItemPasses(plan: Plan, st: State, item: Item, items: seq<Item>)
    requires st.seen.Keys == IdsOf(items) && FeedItem(plan, st, item).ok
    ensures Passes(plan, FeedItem(plan, st, item), items, [item])
    ensures FeedItem(plan, st, item).st.streamed == st.streamed
  {
    ItemRemembered(plan, st, item);
    NoIdIsEmpty(items);
    if item.kind == OtherKind || item.id in st.seen {
      OneMorePasses(plan, FeedItem(plan, st, item), items, item);
    } else {
      NewItemPasses(plan, st, item, items);
    }
  }

  lemma {:induction false} SummaryPasses(plan: Plan, st: State, output: seq<Option<Item>>, items: seq<Item>)
    requires st.seen.Keys == IdsOf(items) && FeedSummary(plan, st, output).ok
    ensures Passes(plan, FeedSummary(plan, st, output), items, Left(output, st.streamed).0)
    ensures FeedSummary(plan, st, output).st.streamed == Left(output, st.streamed).1
    decreases |output|
  {
    if output == [] {
      NothingPasses(plan, st, items);
    } else {
      var n := |output| - 1;
      var before, left := FeedSummary(plan, st, output[..n]), Left(output[..n], st.streamed);
      SummaryPasses(plan, st, output[..n], items);
      SummaryItemPasses(plan, before.st, output[n], items + left.0);
      var more := if output[n].None? || (output[n].value.id == "" && output[n].value in left.1) then []
                  else [output[n].value];
      PassesThen(plan, before, FeedSummaryItem(plan, before.st, output[n]), items, left.0, more);
      assert left.0 + [] == left.0;
    }
  }

  lemma SummaryItemPasses(plan: Plan, st: State, entry: Option<Item>, items: seq<Item>)
    requires st.seen.Keys == IdsOf(items) && FeedSummaryItem(plan, st, entry).ok
    ensures var struck := entry.Some? && entry.value.id == "" && entry.value in st.streamed;
            var fed := FeedSummaryItem(plan, st, entry);
            && Passes(plan, fed, items, if entry.None? || struck then [] else [entry.value])
            && fed.st.streamed == if struck then st.streamed - multiset{entry.value} else st.streamed
  {
    if entry.None? {
      NothingPasses(plan, st, items);
    } else if entry.value.id == "" && entry.value in st.streamed {
      NothingPasses(plan, FeedSummaryItem(plan, st, entry).st, items);
    } else {
      ItemPasses(plan, st, entry.value, items);
    }
  }

  lemma SsePasses(plan: Plan, st: State, event: Sse, items: seq<Item>)
    requires st.seen.Keys == IdsOf(items) && st.streamed == IdLess(items) && FeedSse(plan, st, event).ok
    ensures Passes(plan, FeedSse(plan, st, event), items, Adds(items, event))
    ensures !FeedSse(plan, st, event).st.completed ==>
              FeedSse(plan, st, event).st.streamed == IdLess(items + Adds(items, event))
  {
    if event.ItemDone? {
      ItemPasses(plan, st, event.item.value, items);
      assert (items + [event.item.value])[..|items|] == items;
    } else if event.ResponseCompleted? && event.output.Some? {
      SummaryPasses(plan, st, event.output.value, items);
    } else {
      NothingPasses(plan, st, items);
      assert items + [] == items;
    }
  }

  lemma {:induction false} StreamPasses(plan: Plan, budget: Budget, stream: seq<Sse>)
    requires FeedStream(plan, Start(budget), stream).ok
    ensures Passes(plan, FeedStream(plan, Start(budget), stream), [], Finished(stream))
    ensures !FeedStream(plan, Start(budget), stream).st.completed ==>
              FeedStream(plan, Start(budget), stream).st.streamed == IdLess(Finished(stream))
    decreases |stream|
  {
    if stream == [] {
      NothingPasses(plan, Start(budget), []);
    } else {
      var n := |stream| - 1;
      var before := FeedStream(plan, Start(budget), stream[..n]);
      StreamPasses(plan, budget, stream[..n]);
      OnlySummariesComplete(plan, before.st, stream[n]);
      assert [] + Finished(stream[..n]) == Finished(stream[..n]);
      SsePasses(plan, before.st, stream[n], Finished(stream[..n]));
      PassesThen(plan, before, FeedSse(plan, before.st, stream[n]), [], Finished(stream[..n]),
                 Adds(Finished(stream[..n]), stream[n]));
    }
  }

  // ---- theorems

  // In every accepted stream the search calls, search results and tool calls that are passed on are exactly the
  // finished items of those kinds, each id once, in the order they were finished, terminal summary included.
  lemma EveryItemIsHandledOnce(plan: Plan, budget: Budget, stream: seq<Sse>)
    requires FeedStream(plan, Start(budget), stream).ok
    ensures Carried(FeedStream(plan, Start(budget), stream).events) == Fresh(Finished(stream))
  {
    StreamPasses(plan, budget, stream);
    assert [] + Finished(stream) == Finished(stream);
    assert Fresh([]) + Carried(FeedStream(plan, Start(budget), stream).events) ==
           Carried(FeedStream(plan, Start(budget), stream).events);
  }

  // Every call names the tool, the call id and the arguments of its own item.
  lemma CallsCarryTheirItems(plan: Plan, budget: Budget, stream: seq<Sse>, k: nat)
    requires FeedStream(plan, Start(budget), stream).ok && k < |FeedStream(plan, Start(budget), stream).events|
    ensures OwnContent(plan, FeedStream(plan, Start(budget), stream).events[k])
  {
    StreamPasses(plan, budget, stream);
  }

  // Over every accepted stream under a built plan: a call of a catalogue tool is executable at once if and only
  // if the tool is direct or its own entry is safe within one response, and it goes to that entry's tool.
  lemma ExecutableExactlyWhenDirectOrSafe(catalog: seq<Entry>, direct: seq<string>, deferred: seq<string>,
                                          synthetic: map<string, string>, budget: Budget, stream: seq<Sse>, k: nat,
                                          entry: Entry)
    requires OnePerId(catalog) && OnePerName(catalog) && BuildPlan(catalog, direct, deferred, synthetic).Some?
    requires entry in catalog && entry.id != SEARCH
    requires var fed := FeedStream(BuildPlan(catalog, direct, deferred, synthetic).value, Start(budget), stream);
             fed.ok && k < |fed.events| && fed.events[k].ToolCall? && fed.events[k].item.name == entry.name
    ensures var call := FeedStream(BuildPlan(catalog, direct, deferred, synthetic).value, Start(budget),
                                   stream).events[k];
            && call.canonical == entry.id
            && (call.executable <==> entry.id in direct || entry.safe)
  {
    var plan := BuildPlan(catalog, direct, deferred, synthetic).value;
    PlanPlacesEveryEntry(catalog, direct, deferred, synthetic, entry);
    CallsCarryTheirItems(plan, budget, stream, k);
    assert entry.id in Ids(catalog) && entry.id in SetOf(direct) + SetOf(deferred);
    assert entry.id in direct && entry.id in deferred ==> entry.id in SetOf(direct) * SetOf(deferred);
  }

  // The extra direct tools are executable at once and go to their own canonical tool.
  lemma SyntheticToolsAreDirect(catalog: seq<Entry>, direct: seq<string>, deferred: seq<string>,
                                synthetic: map<string, string>, budget: Budget, stream: seq<Sse>, k: nat)
    requires OnePerId(catalog) && BuildPlan(catalog, direct, deferred, synthetic).Some?
    requires var fed := FeedStream(BuildPlan(catalog, direct, deferred, synthetic).value, Start(budget), stream);
             fed.ok && k < |fed.events| && fed.events[k].ToolCall? && fed.events[k].item.name in synthetic
    ensures var call := FeedStream(BuildPlan(catalog, direct, deferred, synthetic).value, Start(budget),
                                   stream).events[k];
            call.executable && call.canonical == synthetic[call.item.name]
  {
    var plan := BuildPlan(catalog, direct, deferred, synthetic).value;
    CallsCarryTheirItems(plan, budget, stream, k);
    SyntheticApart(catalog, direct, deferred, synthetic);
  }
}
