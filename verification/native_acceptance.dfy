// Which streams the normaliser accepts, said of the finished items alone: no state, no events.
module NativeAcceptance {
  import opened Common
  import opened NativeSearch
  import opened NativeBudget
  import opened NativeStreams
  import opened NativeCalls

  // ---- what the items so far amount to

  // Every finished item but repeats of an id; items of other kinds do not matter.
  function Novel(items: seq<Item>): seq<Item> {
    if items == [] then []
    else
      var n := |items| - 1;
      Novel(items[..n]) + if items[n].kind != OtherKind && items[n].id !in IdsOf(items[..n]) then [items[n]] else []
  }

  // The last search call, if it has not been answered yet.
  function OpenCall(taken: seq<Item>): Option<Item> {
    if taken == [] then None
    else
      var n := |taken| - 1;
      if taken[n].kind == SearchCall then Some(taken[n])
      else if taken[n].kind == SearchOutput then None
      else OpenCall(taken[..n])
  }

  predicate Answered(taken: seq<Item>) {
    OpenCall(taken).None? && exists i :: i in taken && i.kind == SearchOutput
  }

  function CallsIn(taken: seq<Item>): nat {
    if taken == [] then 0
    else CallsIn(taken[..|taken| - 1]) + if taken[|taken| - 1].kind == SearchCall then 1 else 0
  }

  function CharsIn(taken: seq<Item>): nat {
    if taken == [] then 0
    else
      var last := taken[|taken| - 1];
      CharsIn(taken[..|taken| - 1]) + if last.kind == SearchOutput || last.kind == Reference then last.chars else 0
  }

  function ListedNames(listed: seq<Listed>): set<string> {
    if listed == [] then {}
    else
      var last := listed[|listed| - 1];
      ListedNames(listed[..|listed| - 1]) + if last.Object? then {last.definition.name} else {}
  }

  // The tools an item names.
  function NamesOf(item: Item): set<string> {
    if item.kind == SearchOutput && item.tools.Some? then ListedNames(item.tools.value)
    else if item.kind == Reference && item.tool.Some? then {item.tool.value.name}
    else {}
  }

  function NamesIn(taken: seq<Item>): set<string> {
    if taken == [] then {} else NamesIn(taken[..|taken| - 1]) + NamesOf(taken[|taken| - 1])
  }

  function Tools(plan: Plan, names: set<string>): set<string> {
    set n | n in names && n in plan.canonical :: plan.canonical[n]
  }

  // ---- what may come next

  predicate AllEligible(plan: Plan, listed: seq<Listed>) {
    forall k :: 0 <= k < |listed| ==> listed[k].Object? && Eligible(plan, listed[k].definition)
  }

  // Nothing new is revealed, or what is revealed then still fits.
  predicate RevealRoom(b: Budget, before: set<string>, after: set<string>) {
    after == before || |after| <= RevealLimit(b)
  }

  predicate Spares(b: Budget, taken: seq<Item>, item: Item) { b.chars + CharsIn(taken) + item.chars <= CharLimit(b) }

  predicate Reveals(plan: Plan, b: Budget, taken: seq<Item>, names: set<string>) {
    var before := b.revealed + Tools(plan, NamesIn(taken));
    RevealRoom(b, before, before + Tools(plan, names))
  }

  // A new item that may follow these: a search call when none is open and one more may be spent; an output that
  // answers the open call by its id and lists only the request's own deferred tools; a reference to one of those
  // after an answer; a call of a tool that is direct or was named before.
  predicate MayFollow(plan: Plan, b: Budget, taken: seq<Item>, item: Item) {
    match item.kind
    case SearchCall => item.server && OpenCall(taken).None? && b.calls + CallsIn(taken) < CallLimit(b)
    case SearchOutput =>
      && OpenCall(taken).Some? && item.callId == OpenCall(taken).value.callId
      && item.server && item.done && item.tools.Some? && Spares(b, taken, item)
      && AllEligible(plan, item.tools.value) && Reveals(plan, b, taken, NamesOf(item))
    case Reference =>
      && Answered(taken) && item.tool.Some? && Spares(b, taken, item)
      && Eligible(plan, item.tool.value) && Reveals(plan, b, taken, NamesOf(item))
    case FunctionCall => item.name in plan.canonical && (item.name in plan.deferred ==> item.name in NamesIn(taken))
    case OtherKind => true
  }

  // A repeated id must repeat its item; anything else is new.
  predicate Accepts(plan: Plan, b: Budget, items: seq<Item>, item: Item) {
    item.kind == OtherKind ||
    if item.id in IdsOf(items) then item in items else MayFollow(plan, b, Novel(items), item)
  }

  predicate AcceptsAll(plan: Plan, b: Budget, items: seq<Item>, more: seq<Item>) {
    forall k :: 0 <= k < |more| ==> Accepts(plan, b, items + more[..k], more[k])
  }

  predicate WellShaped(event: Sse) {
    (event.ItemAdded? ==> event.item.Some?) && (event.ItemDone? ==> event.item.Some?)
  }

  // Every event is well shaped and only the last one completes the stream.
  predicate WellFormed(stream: seq<Sse>) {
    forall k :: 0 <= k < |stream| ==> WellShaped(stream[k]) && (Completes(stream[k]) ==> k == |stream| - 1)
  }

  // ---- the state is what the items amount to

  function StageOf(taken: seq<Item>): Stage {
    if OpenCall(taken).Some? then Called else if Answered(taken) then Result else Idle
  }

  predicate Reads(plan: Plan, b: Budget, st: State, taken: seq<Item>) {
    && st.stage == StageOf(taken)
    && st.active == (if OpenCall(taken).Some? then OpenCall(taken).value.callId else None)
    && st.names == NamesIn(taken)
    && st.budget == b.(calls := b.calls + CallsIn(taken), chars := b.chars + CharsIn(taken),
                       revealed := b.revealed + Tools(plan, NamesIn(taken)))
  }

  lemma TakenOne(taken: seq<Item>, item: Item)
    ensures var more := taken + [item];
            && OpenCall(more) == (if item.kind == SearchCall then Some(item)
                                  else if item.kind == SearchOutput then None else OpenCall(taken))
            && CallsIn(more) == CallsIn(taken) + (if item.kind == SearchCall then 1 else 0)
            && NamesIn(more) == NamesIn(taken) + NamesOf(item)
            && CharsIn(more) ==
               CharsIn(taken) + (if item.kind == SearchOutput || item.kind == Reference then item.chars else 0)
  {
    assert (taken + [item])[..|taken|] == taken;
  }

  lemma StageAfter(taken: seq<Item>, item: Item)
    ensures StageOf(taken + [item]) ==
            match item.kind case SearchCall => Called case SearchOutput => Result case _ => StageOf(taken)
  {
    TakenOne(taken, item);
    assert forall i :: i in taken ==> i in taken + [item];
    assert item in taken + [item];
  }

  // ---- reveals

  lemma ToolsOfOne(plan: Plan, name: string)
    ensures Tools(plan, {name}) == if name in plan.canonical then {plan.canonical[name]} else {}
  {
  }

  lemma ToolsConcat(plan: Plan, a: set<string>, b: set<string>)
    ensures Tools(plan, a + b) == Tools(plan, a) + Tools(plan, b)
  {
  }

  predicate RevealsInto(st: State, after: State, names: set<string>, tools: set<string>) {
    after == st.(names := st.names + names, seqNo := after.seqNo, budget := st.budget.(revealed := tools))
  }

  lemma RevealExactly(plan: Plan, st: State, d: Definition, raw: Item)
    requires Tools(plan, st.names) <= st.budget.revealed
    ensures var tools := st.budget.revealed + Tools(plan, {d.name});
            var fed := Reveal(plan, st, d, raw);
            && (fed.ok <==> Eligible(plan, d) && RevealRoom(st.budget, st.budget.revealed, tools))
            && (fed.ok ==> RevealsInto(st, fed.st, {d.name}, tools))
  {
    ToolsOfOne(plan, d.name);
    if Eligible(plan, d) {
      var tool := plan.canonical[d.name];
      if d.name in st.names {
        assert tool in Tools(plan, st.names);
      }
      if tool in st.budget.revealed {
        assert st.budget.revealed + {tool} == st.budget.revealed;
      } else {
        assert tool in st.budget.revealed + {tool};
      }
      assert st.names + {d.name} == st.names || d.name !in st.names;
    }
  }

  // What revealing a list comes to.
  predicate RevealsAs(plan: Plan, st: State, listed: seq<Listed>, fed: Fed) {
    var tools := st.budget.revealed + Tools(plan, ListedNames(listed));
    && (fed.ok <==> AllEligible(plan, listed) && RevealRoom(st.budget, st.budget.revealed, tools))
    && (fed.ok ==> RevealsInto(st, fed.st, ListedNames(listed), tools))
  }

  lemma {:induction false} RevealsExactly(plan: Plan, st: State, listed: seq<Listed>, raw: Item)
    requires Tools(plan, st.names) <= st.budget.revealed
    ensures RevealsAs(plan, st, listed, RevealAll(plan, st, listed, raw))
    decreases |listed|
  {
    if listed == [] {
      assert st.names + {} == st.names && st.budget.revealed + Tools(plan, {}) == st.budget.revealed;
    } else {
      var n := |listed| - 1;
      var before := RevealAll(plan, st, listed[..n], raw);
      RevealsExactly(plan, st, listed[..n], raw);
      if before.ok && listed[n].Object? {
        RevealsOneMore(plan, st, listed, before, Reveal(plan, before.st, listed[n].definition, raw), raw);
      } else if listed[n].Object? {
        NoRoomForMore(plan, st, listed, before);
      }
    }
  }

  lemma EligibleOne(plan: Plan, listed: seq<Listed>)
    requires listed != [] && listed[|listed| - 1].Object?
    ensures AllEligible(plan, listed) <==>
            AllEligible(plan, listed[..|listed| - 1]) && Eligible(plan, listed[|listed| - 1].definition)
  {
    if AllEligible(plan, listed[..|listed| - 1]) && Eligible(plan, listed[|listed| - 1].definition) {
      forall k | 0 <= k < |listed| ensures listed[k].Object? && Eligible(plan, listed[k].definition) {
        if k < |listed| - 1 {
          assert listed[..|listed| - 1][k] == listed[k];
        }
      }
    }
  }

  lemma NamesOne(listed: seq<Listed>)
    requires listed != [] && listed[|listed| - 1].Object?
    ensures ListedNames(listed) == ListedNames(listed[..|listed| - 1]) + {listed[|listed| - 1].definition.name}
  {
  }

  lemma ListedOne(plan: Plan, listed: seq<Listed>, names: set<string>, name: string)
    requires ListedNames(listed) == names + {name}
    ensures Tools(plan, ListedNames(listed)) == Tools(plan, names) + Tools(plan, {name})
  {
    ToolsConcat(plan, names, {name});
  }

  lemma NoRoomForMore(plan: Plan, st: State, listed: seq<Listed>, before: Fed)
    requires listed != [] && listed[|listed| - 1].Object? && !before.ok
    requires RevealsAs(plan, st, listed[..|listed| - 1], before)
    ensures RevealsAs(plan, st, listed, before)
  {
    var d, names := listed[|listed| - 1].definition, ListedNames(listed[..|listed| - 1]);
    EligibleOne(plan, listed);
    NamesOne(listed);
    ListedOne(plan, listed, names, d.name);
    RoomGrows(st.budget, st.budget.revealed, Tools(plan, names), Tools(plan, {d.name}));
  }

  lemma RevealsOneMore(plan: Plan, st: State, listed: seq<Listed>, before: Fed, last: Fed, raw: Item)
    requires Tools(plan, st.names) <= st.budget.revealed && listed != [] && listed[|listed| - 1].Object?
    requires before.ok && RevealsAs(plan, st, listed[..|listed| - 1], before)
    requires last == Reveal(plan, before.st, listed[|listed| - 1].definition, raw)
    ensures RevealsAs(plan, st, listed, last)
  {
    var d, names := listed[|listed| - 1].definition, ListedNames(listed[..|listed| - 1]);
    EligibleOne(plan, listed);
    NamesOne(listed);
    ListedOne(plan, listed, names, d.name);
    RoomGrows(st.budget, st.budget.revealed, Tools(plan, names), Tools(plan, {d.name}));
    ToolsConcat(plan, st.names, names);
    RevealExactly(plan, before.st, d, raw);
    Chained(st, before.st, last.st, names, {d.name}, Tools(plan, names), Tools(plan, {d.name}));
  }

  lemma Chained(st: State, middle: State, end: State, a: set<string>, b: set<string>, some: set<string>,
                more: set<string>)
    requires RevealsInto(st, middle, a, st.budget.revealed + some)
    ensures RevealsInto(middle, end, b, middle.budget.revealed + more) ==>
              RevealsInto(st, end, a + b, st.budget.revealed + (some + more))
  {
    assert st.names + (a + b) == st.names + a + b;
    assert st.budget.revealed + (some + more) == st.budget.revealed + some + more;
  }

  // Revealing one after the other has room exactly when revealing all has.
  lemma RoomGrows(b: Budget, before: set<string>, some: set<string>, more: set<string>)
    ensures RevealRoom(b, before, before + (some + more)) <==>
            RevealRoom(b, before, before + some) && RevealRoom(b, before + some, before + some + more)
    ensures before + (some + more) == before + some + more
  {
    SubsetCardinality(before + some, before + some + more);
    assert before + (some + more) == before + some + more;
    if before + some + more == before {
      assert some <= before + some + more && more <= before + some + more;
      assert before + some == before;
    }
  }

  // ---- one new item

  lemma SearchCallExactly(plan: Plan, b: Budget, st: State, taken: seq<Item>, item: Item)
    requires Reads(plan, b, st, taken) && item.kind == SearchCall
    ensures FeedSearchCall(st, item).ok <==> MayFollow(plan, b, taken, item)
    ensures FeedSearchCall(st, item).ok ==> Reads(plan, b, FeedSearchCall(st, item).st, taken + [item])
  {
    TakenOne(taken, item);
    StageAfter(taken, item);
    assert NamesIn(taken) + {} == NamesIn(taken);
  }

  // What an accepted output or reference leaves: the given stage, its length spent and its tools revealed.
  predicate Leaves(plan: Plan, b: Budget, st: State, after: State, item: Item, stage: Stage) {
    && after.stage == stage && after.names == st.names + NamesOf(item)
    && after.active == (if stage == Result && item.kind == SearchOutput then None else st.active)
    && after.budget == st.budget.(chars := st.budget.chars + item.chars,
                                  revealed := st.budget.revealed + Tools(plan, NamesOf(item)))
  }

  lemma LeftReads(plan: Plan, b: Budget, st: State, after: State, taken: seq<Item>, item: Item)
    requires Reads(plan, b, st, taken) && (item.kind == SearchOutput || item.kind == Reference)
    requires Leaves(plan, b, st, after, item, if item.kind == SearchOutput then Result else st.stage)
    ensures Reads(plan, b, after, taken + [item])
  {
    TakenOne(taken, item);
    StageAfter(taken, item);
    ToolsConcat(plan, NamesIn(taken), NamesOf(item));
    assert b.revealed + Tools(plan, NamesIn(taken)) + Tools(plan, NamesOf(item)) ==
           b.revealed + (Tools(plan, NamesIn(taken)) + Tools(plan, NamesOf(item)));
  }

  lemma SearchOutputExactly(plan: Plan, b: Budget, st: State, taken: seq<Item>, item: Item)
    requires Reads(plan, b, st, taken) && item.kind == SearchOutput
    ensures FeedSearchOutput(plan, st, item).ok <==> MayFollow(plan, b, taken, item)
    ensures FeedSearchOutput(plan, st, item).ok ==> Reads(plan, b, FeedSearchOutput(plan, st, item).st, taken + [item])
  {
    if item.tools.Some? {
      var found := Spend(st, item).(stage := Result, active := None, seqNo := st.seqNo + 1);
      RevealsExactly(plan, found, item.tools.value, item);
      if FeedSearchOutput(plan, st, item).ok {
        LeftReads(plan, b, st, FeedSearchOutput(plan, st, item).st, taken, item);
      }
    }
  }

  lemma ReferenceExactly(plan: Plan, b: Budget, st: State, taken: seq<Item>, item: Item)
    requires Reads(plan, b, st, taken) && item.kind == Reference
    ensures FeedReference(plan, st, item).ok <==> MayFollow(plan, b, taken, item)
    ensures FeedReference(plan, st, item).ok ==> Reads(plan, b, FeedReference(plan, st, item).st, taken + [item])
  {
    if item.tool.Some? {
      RevealExactly(plan, Spend(st, item), item.tool.value, item);
      if FeedReference(plan, st, item).ok {
        LeftReads(plan, b, st, FeedReference(plan, st, item).st, taken, item);
      }
    }
  }

  lemma FunctionCallExactly(plan: Plan, b: Budget, st: State, taken: seq<Item>, item: Item)
    requires Reads(plan, b, st, taken) && item.kind == FunctionCall
    ensures FeedFunctionCall(plan, st, item).ok <==> MayFollow(plan, b, taken, item)
    ensures FeedFunctionCall(plan, st, item).ok ==> Reads(plan, b, FeedFunctionCall(plan, st, item).st, taken + [item])
  {
    TakenOne(taken, item);
    StageAfter(taken, item);
    assert NamesIn(taken) + {} == NamesIn(taken);
  }

  lemma FreshExactly(plan: Plan, b: Budget, st: State, taken: seq<Item>, item: Item)
    requires Reads(plan, b, st, taken) && item.kind != OtherKind
    ensures FeedFresh(plan, st, item).ok <==> MayFollow(plan, b, taken, item)
    ensures FeedFresh(plan, st, item).ok ==> Reads(plan, b, FeedFresh(plan, st, item).st, taken + [item])
  {
    match item.kind
    case SearchCall => SearchCallExactly(plan, b, st, taken, item);
    case SearchOutput => SearchOutputExactly(plan, b, st, taken, item);
    case Reference => ReferenceExactly(plan, b, st, taken, item);
    case FunctionCall => FunctionCallExactly(plan, b, st, taken, item);
  }

  // ---- one finished item

  // The ids seen are those of the items, each with its own item.
  predicate Remembered(st: State, items: seq<Item>) {
    && st.seen.Keys == IdsOf(items)
    && (forall i :: i in items && i.kind != OtherKind && i.id != "" ==> i.id in st.seen && st.seen[i.id] == i)
  }

  predicate Follows(plan: Plan, b: Budget, st: State, items: seq<Item>) {
    Reads(plan, b, st, Novel(items)) && Remembered(st, items)
  }

  lemma NovelOne(items: seq<Item>, item: Item)
    ensures Novel(items + [item]) ==
            if item.kind != OtherKind && item.id !in IdsOf(items) then Novel(items) + [item] else Novel(items)
  {
    assert (items + [item])[..|items|] == items;
    assert Novel(items) + [] == Novel(items);
  }

  lemma SeenIsFinished(st: State, items: seq<Item>, item: Item)
    requires Remembered(st, items) && item.kind != OtherKind && item.id in st.seen
    ensures st.seen[item.id] == item <==> item in items
  {
    var i :| i in items && i.kind != OtherKind && i.id != "" && i.id == item.id;
  }

  lemma RepeatExactly(plan: Plan, b: Budget, st: State, items: seq<Item>, item: Item)
    requires Follows(plan, b, st, items) && item.kind != OtherKind && item.id in IdsOf(items)
    ensures FeedItem(plan, st, item).ok <==> item in items
    ensures FeedItem(plan, st, item).ok ==> Follows(plan, b, FeedItem(plan, st, item).st, items + [item])
  {
    NoIdIsEmpty(items);
    SeenIsFinished(st, items, item);
    IdsOne(items, item);
    NovelOne(items, item);
  }

  // What is left of a new item that was taken.
  lemma NewFollows(plan: Plan, b: Budget, st: State, after: State, items: seq<Item>, item: Item)
    requires Remembered(st, items) && item.kind != OtherKind && item.id !in IdsOf(items)
    requires Reads(plan, b, after, Novel(items) + [item])
    requires after.seen == if item.id == "" then st.seen else st.seen[item.id := item]
    ensures Follows(plan, b, after, items + [item])
  {
    NovelOne(items, item);
    NewRemembered(st, after, items, item);
  }

  lemma NewRemembered(st: State, after: State, items: seq<Item>, item: Item)
    requires Remembered(st, items) && item.kind != OtherKind && item.id !in IdsOf(items)
    requires after.seen == if item.id == "" then st.seen else st.seen[item.id := item]
    ensures Remembered(after, items + [item])
  {
    IdsOne(items, item);
  }

  lemma NewExactly(plan: Plan, b: Budget, st: State, items: seq<Item>, item: Item)
    requires Follows(plan, b, st, items) && item.kind != OtherKind && item.id !in IdsOf(items)
    ensures FeedItem(plan, st, item).ok <==> MayFollow(plan, b, Novel(items), item)
    ensures FeedItem(plan, st, item).ok ==> Follows(plan, b, FeedItem(plan, st, item).st, items + [item])
  {
    var remembered := if item.id == "" then st else st.(seen := st.seen[item.id := item]);
    var fed := FeedFresh(plan, remembered, item);
    FreshExactly(plan, b, remembered, Novel(items), item);
    FreshKeepsMemory(plan, remembered, item);
    assert FeedItem(plan, st, item) == fed;
    if fed.ok {
      NewFollows(plan, b, st, fed.st, items, item);
    }
  }

  lemma ItemExactly(plan: Plan, b: Budget, st: State, items: seq<Item>, item: Item)
    requires Follows(plan, b, st, items)
    ensures FeedItem(plan, st, item).ok <==> Accepts(plan, b, items, item)
    ensures FeedItem(plan, st, item).ok ==> Follows(plan, b, FeedItem(plan, st, item).st, items + [item])
    ensures FeedItem(plan, st, item).ok ==> FeedItem(plan, st, item).st.streamed == st.streamed
  {
    if item.kind == OtherKind {
      IdsOne(items, item);
      NovelOne(items, item);
    } else if item.id in IdsOf(items) {
      RepeatExactly(plan, b, st, items, item);
    } else {
      NewExactly(plan, b, st, items, item);
    }
    if FeedItem(plan, st, item).ok {
      ItemRemembered(plan, st, item);
    }
  }

  // ---- whole streams

  lemma AcceptsConcat(plan: Plan, b: Budget, items: seq<Item>, more: seq<Item>, last: seq<Item>)
    ensures AcceptsAll(plan, b, items, more + last) <==>
            AcceptsAll(plan, b, items, more) && AcceptsAll(plan, b, items + more, last)
  {
    forall k | 0 <= k < |more|
      ensures Accepts(plan, b, items + (more + last)[..k], (more + last)[k]) <==>
              Accepts(plan, b, items + more[..k], more[k])
    {
      assert (more + last)[..k] == more[..k];
    }
    forall k | 0 <= k < |last|
      ensures Accepts(plan, b, items + (more + last)[..|more| + k], (more + last)[|more| + k]) <==>
              Accepts(plan, b, items + more + last[..k], last[k])
    {
      assert items + (more + last)[..|more| + k] == items + more + last[..k];
    }
    if AcceptsAll(plan, b, items, more + last) {
      forall k | 0 <= k < |last| ensures Accepts(plan, b, items + more + last[..k], last[k]) {
        assert Accepts(plan, b, items + (more + last)[..|more| + k], (more + last)[|more| + k]);
      }
      forall k | 0 <= k < |more| ensures Accepts(plan, b, items + more[..k], more[k]) {
        assert Accepts(plan, b, items + (more + last)[..k], (more + last)[k]);
      }
    }
    if AcceptsAll(plan, b, items, more) && AcceptsAll(plan, b, items + more, last) {
      forall k | 0 <= k < |more + last| ensures Accepts(plan, b, items + (more + last)[..k], (more + last)[k]) {
        if k >= |more| {
          assert Accepts(plan, b, items + more + last[..k - |more|], last[k - |more|]);
        }
      }
    }
  }

  lemma AcceptsOne(plan: Plan, b: Budget, items: seq<Item>, item: Item)
    ensures AcceptsAll(plan, b, items, [item]) <==> Accepts(plan, b, items, item)
  {
    assert items + [item][..0] == items;
  }

  // Taking these items in turn comes to this.
  predicate TakesAs(plan: Plan, b: Budget, items: seq<Item>, more: seq<Item>, streamed: multiset<Item>, fed: Fed) {
    && (fed.ok <==> AcceptsAll(plan, b, items, more))
    && (fed.ok ==> Follows(plan, b, fed.st, items + more) && fed.st.streamed == streamed)
  }

  predicate Struck(entry: Option<Item>, streamed: multiset<Item>) {
    entry.Some? && entry.value.id == "" && entry.value in streamed
  }

  // What one entry of a summary adds, and what it strikes off.
  function Added(entry: Option<Item>, streamed: multiset<Item>): seq<Item> {
    if entry.None? || Struck(entry, streamed) then [] else [entry.value]
  }

  function LeftAfter(entry: Option<Item>, streamed: multiset<Item>): multiset<Item> {
    if Struck(entry, streamed) then streamed - multiset{entry.value} else streamed
  }

  lemma SummaryItemExactly(plan: Plan, b: Budget, st: State, entry: Option<Item>, items: seq<Item>)
    requires Follows(plan, b, st, items)
    ensures TakesAs(plan, b, items, Added(entry, st.streamed), LeftAfter(entry, st.streamed),
                    FeedSummaryItem(plan, st, entry))
  {
    assert items + [] == items;
    if entry.Some? && !Struck(entry, st.streamed) {
      ItemExactly(plan, b, st, items, entry.value);
      AcceptsOne(plan, b, items, entry.value);
    }
  }

  lemma TakesThen(plan: Plan, b: Budget, items: seq<Item>, more: seq<Item>, last: seq<Item>, streamed: multiset<Item>,
                  left: multiset<Item>, first: Fed, second: Fed)
    requires TakesAs(plan, b, items, more, streamed, first)
    requires first.ok ==> TakesAs(plan, b, items + more, last, left, second)
    ensures TakesAs(plan, b, items, more + last, left,
                    if first.ok then Fed(second.st, second.events, second.ok) else first)
  {
    AcceptsConcat(plan, b, items, more, last);
    Regroup(items, more, last);
  }

  lemma LeftOne(output: seq<Option<Item>>, streamed: multiset<Item>)
    requires output != []
    ensures var n := |output| - 1;
            var before := Left(output[..n], streamed);
            Left(output, streamed) == (before.0 + Added(output[n], before.1), LeftAfter(output[n], before.1))
  {
    var before := Left(output[..|output| - 1], streamed);
    assert before.0 + [] == before.0;
  }

  lemma {:induction false} SummaryExactly(plan: Plan, b: Budget, st: State, output: seq<Option<Item>>, items: seq<Item>)
    requires Follows(plan, b, st, items)
    ensures TakesAs(plan, b, items, Left(output, st.streamed).0, Left(output, st.streamed).1,
                    FeedSummary(plan, st, output))
    decreases |output|
  {
    if output == [] {
      assert items + [] == items;
    } else {
      var n := |output| - 1;
      var before, left := FeedSummary(plan, st, output[..n]), Left(output[..n], st.streamed);
      SummaryExactly(plan, b, st, output[..n], items);
      LeftOne(output, st.streamed);
      var last := FeedSummaryItem(plan, before.st, output[n]);
      if before.ok {
        SummaryItemExactly(plan, b, before.st, output[n], items + left.0);
      }
      TakesThen(plan, b, items, left.0, Added(output[n], left.1), left.1, LeftAfter(output[n], left.1), before, last);
    }
  }

  // What holds of an accepted stream that is not completed yet.
  predicate Running(plan: Plan, b: Budget, st: State, items: seq<Item>) {
    Follows(plan, b, st, items) && st.streamed == IdLess(items) && !st.completed && !st.finalized
  }

  // What one event comes to.
  predicate FeedsAs(plan: Plan, b: Budget, items: seq<Item>, event: Sse, fed: Fed) {
    && (fed.ok <==> WellShaped(event) && AcceptsAll(plan, b, items, Adds(items, event)))
    && (fed.ok ==> Follows(plan, b, fed.st, items + Adds(items, event)))
    && (fed.ok && !Completes(event) ==> Running(plan, b, fed.st, items + Adds(items, event)))
  }

  lemma DoneKeepsRunning(plan: Plan, st: State, item: Item)
    requires FeedSse(plan, st, ItemDone(Some(item))).ok
    ensures var fed := FeedSse(plan, st, ItemDone(Some(item)));
            && !fed.st.completed && fed.st.finalized == st.finalized
            && fed.st.streamed == if item.id == "" then st.streamed[item := st.streamed[item] + 1] else st.streamed
  {
    OnlySummariesComplete(plan, st, ItemDone(Some(item)));
    SseLawful(plan, st, ItemDone(Some(item)));
    ItemRemembered(plan, st, item);
  }

  // Counting a finished item touches neither the search state nor the memory of ids.
  lemma CountedFollows(plan: Plan, b: Budget, st: State, after: State, items: seq<Item>)
    requires Follows(plan, b, st, items) && after == st.(streamed := after.streamed)
    ensures Follows(plan, b, after, items)
  {
  }

  lemma DoneExactly(plan: Plan, b: Budget, st: State, item: Item, items: seq<Item>)
    requires Running(plan, b, st, items)
    ensures FeedsAs(plan, b, items, ItemDone(Some(item)), FeedSse(plan, st, ItemDone(Some(item))))
  {
    var fed := FeedSse(plan, st, ItemDone(Some(item)));
    ItemExactly(plan, b, st, items, item);
    AcceptsOne(plan, b, items, item);
    if fed.ok {
      CountedFollows(plan, b, FeedItem(plan, st, item).st, fed.st, items + [item]);
      DoneKeepsRunning(plan, st, item);
      IdLessOne(items, item);
    }
  }

  lemma IdLessOne(items: seq<Item>, item: Item)
    ensures IdLess(items + [item]) ==
            if item.id == "" then IdLess(items)[item := IdLess(items)[item] + 1] else IdLess(items)
  {
    assert (items + [item])[..|items|] == items;
  }

  lemma SseExactly(plan: Plan, b: Budget, st: State, event: Sse, items: seq<Item>)
    requires Running(plan, b, st, items)
    ensures FeedsAs(plan, b, items, event, FeedSse(plan, st, event))
  {
    if event.ItemDone? && event.item.Some? {
      DoneExactly(plan, b, st, event.item.value, items);
    } else if Completes(event) {
      SummaryExactly(plan, b, st, event.output.value, items);
    } else {
      assert items + [] == items;
    }
  }

  predicate Accepted(plan: Plan, b: Budget, stream: seq<Sse>) {
    WellFormed(stream) && AcceptsAll(plan, b, [], Finished(stream))
  }

  lemma AcceptedPrefix(plan: Plan, b: Budget, stream: seq<Sse>)
    requires stream != []
    ensures var n := |stream| - 1;
            Accepted(plan, b, stream) <==>
              && Accepted(plan, b, stream[..n]) && (n > 0 ==> !Completes(stream[n - 1])) && WellShaped(stream[n])
              && AcceptsAll(plan, b, Finished(stream[..n]), Adds(Finished(stream[..n]), stream[n]))
  {
    var n := |stream| - 1;
    AcceptsConcat(plan, b, [], Finished(stream[..n]), Adds(Finished(stream[..n]), stream[n]));
    assert [] + Finished(stream[..n]) == Finished(stream[..n]);
    ShapePrefix(stream);
  }

  lemma ShapePrefix(stream: seq<Sse>)
    requires stream != []
    ensures var n := |stream| - 1;
            WellFormed(stream) <==>
              WellFormed(stream[..n]) && (n > 0 ==> !Completes(stream[n - 1])) && WellShaped(stream[n])
  {
    var n := |stream| - 1;
    assert forall k :: 0 <= k < n ==> stream[..n][k] == stream[k];
  }

  lemma {:induction false} StreamExactly(plan: Plan, b: Budget, stream: seq<Sse>)
    ensures var fed := FeedStream(plan, Start(b), stream);
            && (fed.ok <==> Accepted(plan, b, stream))
            && (fed.ok ==> Follows(plan, b, fed.st, Finished(stream)))
            && (fed.ok && !fed.st.completed ==> Running(plan, b, fed.st, Finished(stream)))
    decreases |stream|
  {
    if stream == [] {
      assert b.revealed + Tools(plan, {}) == b.revealed;
    } else {
      var n := |stream| - 1;
      var before := FeedStream(plan, Start(b), stream[..n]);
      StreamExactly(plan, b, stream[..n]);
      AcceptedPrefix(plan, b, stream);
      if before.ok {
        CompletedByTheLastEvent(plan, b, stream[..n]);
        StreamSpendsLawfully(plan, Start(b), stream[..n]);
        if !before.st.completed {
          SseExactly(plan, b, before.st, stream[n], Finished(stream[..n]));
          LastCompletes(plan, before.st, stream[n]);
        }
      }
    }
  }

  lemma LastCompletes(plan: Plan, st: State, event: Sse)
    ensures FeedSse(plan, st, event).ok ==> (FeedSse(plan, st, event).st.completed <==> Completes(event))
  {
    if FeedSse(plan, st, event).ok {
      OnlySummariesComplete(plan, st, event);
    }
  }

  // A stream is accepted if and only if its events are well shaped, nothing follows the one that completes it,
  // and every finished item may follow the finished items before it.
  lemma AcceptedExactly(plan: Plan, b: Budget, stream: seq<Sse>)
    ensures FeedStream(plan, Start(b), stream).ok <==>
              && WellFormed(stream)
              && forall k :: 0 <= k < |Finished(stream)| ==>
                 Accepts(plan, b, Finished(stream)[..k], Finished(stream)[k])
  {
    StreamExactly(plan, b, stream);
    forall k | 0 <= k < |Finished(stream)| ensures [] + Finished(stream)[..k] == Finished(stream)[..k] {
    }
  }

  // ... and it may be finalised if and only if its last event completes it and no search call is left open; it
  // then takes nothing more and may be finalised again. Its budget has spent exactly the calls, characters and
  // tools of its items.
  lemma FinalisedExactly(plan: Plan, b: Budget, stream: seq<Sse>)
    requires FeedStream(plan, Start(b), stream).ok
    ensures Finalize(FeedStream(plan, Start(b), stream).st).ok <==>
              stream != [] && Completes(stream[|stream| - 1]) && OpenCall(Novel(Finished(stream))).None?
    ensures var done := Finalize(FeedStream(plan, Start(b), stream).st);
            done.ok ==>
              Finalize(done.st) == Fed(done.st, [], true) && done.events == [] &&
              forall event :: !FeedSse(plan, done.st.(completed := false), event).ok
    ensures var taken, spent := Novel(Finished(stream)), FeedStream(plan, Start(b), stream).st.budget;
            && spent.calls == b.calls + CallsIn(taken) && spent.chars == b.chars + CharsIn(taken)
            && spent.revealed == b.revealed + Tools(plan, NamesIn(taken))
  {
    StreamExactly(plan, b, stream);
    CompletedByTheLastEvent(plan, b, stream);
    StreamSpendsLawfully(plan, Start(b), stream);
  }
}
