// Search, reveal and result-character budgets, in every state the normaliser can reach.
module NativeBudget {
  import opened Common
  import opened NativeSearch

  predicate WithinLimits(b: Budget) {
    b.calls <= CallLimit(b) && |b.revealed| <= RevealLimit(b) && b.chars <= CharLimit(b)
  }

  // Limits are fixed, spending only grows, counters inside their limits stay inside them, and only
  // finalising finalises. This holds of failed steps too: what they spent before failing is kept.
  predicate Lawful(a: State, b: State) {
    && b.finalized == a.finalized
    && b.budget.maxCalls == a.budget.maxCalls && b.budget.maxReveals == a.budget.maxReveals
    && b.budget.maxChars == a.budget.maxChars
    && a.budget.calls <= b.budget.calls && a.budget.revealed <= b.budget.revealed && a.budget.chars <= b.budget.chars
    && (WithinLimits(a.budget) ==> WithinLimits(b.budget))
  }

  lemma RevealLawful(plan: Plan, st: State, d: Definition, raw: Item)
    ensures Lawful(st, Reveal(plan, st, d, raw).st)
  {
    if Eligible(plan, d) {
      assert plan.canonical[d.name] in st.budget.revealed ==>
          st.budget.revealed + {plan.canonical[d.name]} == st.budget.revealed;
    }
  }

  lemma {:induction false} RevealAllLawful(plan: Plan, st: State, listed: seq<Listed>, raw: Item)
    ensures Lawful(st, RevealAll(plan, st, listed, raw).st)
    decreases |listed|
  {
    if listed == [] {
    } else {
      var n := |listed| - 1;
      RevealAllLawful(plan, st, listed[..n], raw);
      if listed[n].Object? {
        RevealLawful(plan, RevealAll(plan, st, listed[..n], raw).st, listed[n].definition, raw);
      }
    }
  }

  lemma FreshLawful(plan: Plan, st: State, item: Item)
    ensures Lawful(st, FeedFresh(plan, st, item).st)
  {
    match item.kind
    case SearchCall => SearchCallLawful(st, item);
    case SearchOutput => SearchOutputLawful(plan, st, item);
    case Reference => ReferenceLawful(plan, st, item);
    case FunctionCall =>
    case OtherKind =>
  }

  lemma SearchCallLawful(st: State, item: Item)
    ensures Lawful(st, FeedSearchCall(st, item).st)
  {
  }

  lemma ReferenceLawful(plan: Plan, st: State, item: Item)
    ensures Lawful(st, FeedReference(plan, st, item).st)
  {
    if item.tool.Some? {
      RevealLawful(plan, Spend(st, item), item.tool.value, item);
    }
  }

  lemma SearchOutputLawful(plan: Plan, st: State, item: Item)
    ensures Lawful(st, FeedSearchOutput(plan, st, item).st)
  {
    if item.tools.Some? {
      RevealAllLawful(plan, Spend(st, item).(stage := Result, active := None, seqNo := st.seqNo + 1), item.tools.value,
                      item);
    }
  }

  lemma ItemLawful(plan: Plan, st: State, item: Item)
    ensures Lawful(st, FeedItem(plan, st, item).st)
  {
    if item.id == "" {
      FreshLawful(plan, st, item);
    } else {
      FreshLawful(plan, st.(seen := st.seen[item.id := item]), item);
    }
  }

  lemma {:induction false} SummaryLawful(plan: Plan, st: State, output: seq<Option<Item>>)
    ensures Lawful(st, FeedSummary(plan, st, output).st)
    decreases |output|
  {
    if output == [] {
    } else {
      var n := |output| - 1;
      SummaryLawful(plan, st, output[..n]);
      if output[n].Some? {
        ItemLawful(plan, FeedSummary(plan, st, output[..n]).st, output[n].value);
      }
    }
  }

  lemma SseLawful(plan: Plan, st: State, event: Sse)
    ensures Lawful(st, FeedSse(plan, st, event).st)
  {
    if event.ItemDone? && event.item.Some? {
      ItemLawful(plan, st, event.item.value);
    } else if event.ResponseCompleted? && event.output.Some? {
      SummaryLawful(plan, st, event.output.value);
    }
  }

  // Counters that start within their limits stay within them over every stream, refused ones included.
  lemma {:induction false} StreamSpendsLawfully(plan: Plan, st: State, events: seq<Sse>)
    ensures Lawful(st, FeedStream(plan, st, events).st)
    decreases |events|
  {
    if events == [] {
    } else {
      var n := |events| - 1;
      StreamSpendsLawfully(plan, st, events[..n]);
      SseLawful(plan, FeedStream(plan, st, events[..n]).st, events[n]);
    }
  }
}

// The normaliser and the replay validator agree: what a finished stream leaves behind is replayable.
module NativeReplay {
  import opened Common
  import opened NativeSearch
  import opened NativeBudget

  // ---- sorting

  predicate InOrder(records: seq<Record>) {
    forall j, k :: 0 <= j < k < |records| ==> records[j].at <= records[k].at
  }

  predicate Strict(records: seq<Record>) {
    forall j, k :: 0 <= j < k < |records| ==> records[j].at < records[k].at
  }

  lemma {:induction false} InsertPermutes(r: Record, sorted: seq<Record>)
    ensures multiset(Insert(r, sorted)) == multiset(sorted) + multiset{r}
  {
    if sorted == [] || r.at >= sorted[|sorted| - 1].at {
    } else {
      var n := |sorted| - 1;
      InsertPermutes(r, sorted[..n]);
      assert sorted == sorted[..n] + [sorted[n]];
    }
  }

  lemma {:induction false} InsertSorts(r: Record, sorted: seq<Record>)
    requires InOrder(sorted)
    ensures InOrder(Insert(r, sorted))
  {
    if sorted == [] || r.at >= sorted[|sorted| - 1].at {
    } else {
      var n := |sorted| - 1;
      var head := Insert(r, sorted[..n]);
      InsertSorts(r, sorted[..n]);
      InsertPermutes(r, sorted[..n]);
      forall k | 0 <= k < |head| ensures head[k].at <= sorted[n].at {
        assert head[k] in multiset(head);
        assert head[k] == r || head[k] in sorted[..n];
      }
    }
  }

  lemma {:induction false} SortSorts(records: seq<Record>)
    ensures InOrder(Sorted(records)) && multiset(Sorted(records)) == multiset(records)
  {
    if records == [] {
    } else {
      var n := |records| - 1;
      SortSorts(records[..n]);
      InsertSorts(records[n], Sorted(records[..n]));
      InsertPermutes(records[n], Sorted(records[..n]));
      assert records == records[..n] + [records[n]];
    }
  }

  lemma LastAgrees(a: seq<Record>, b: seq<Record>, n: nat)
    requires InOrder(a) && Strict(b) && |a| == |b| == n + 1
    requires a[n] in b && b[n] in a
    ensures a[n] == b[n]
  {
    var j :| 0 <= j < |b| && b[j] == a[n];
    var k :| 0 <= k < |a| && a[k] == b[n];
  }

  lemma WithoutLast(s: seq<Record>, n: nat)
    requires |s| == n + 1
    ensures multiset(s[..n]) == multiset(s) - multiset{s[n]}
  {
    assert s == s[..n] + [s[n]];
  }

  lemma SameMembers(a: seq<Record>, b: seq<Record>)
    requires multiset(a) == multiset(b)
    ensures |a| == |b| && forall r :: r in a <==> r in b
  {
    assert |a| == |multiset(a)| && |b| == |multiset(b)|;
    forall r ensures r in a <==> r in b {
      assert r in a <==> r in multiset(a);
      assert r in b <==> r in multiset(b);
    }
  }

  // Only one ordering of records with distinct sequence numbers is sorted.
  lemma {:induction false} SortedIsUnique(a: seq<Record>, b: seq<Record>)
    requires InOrder(a) && Strict(b) && multiset(a) == multiset(b)
    ensures a == b
    decreases |b|
  {
    SameMembers(a, b);
    if b == [] {
    } else {
      var n := |b| - 1;
      LastAgrees(a, b, n);
      PrefixesAgree(a, b, n);
      SortedIsUnique(a[..n], b[..n]);
      assert a == a[..n] + [a[n]] && b == b[..n] + [b[n]];
    }
  }

  lemma PrefixesAgree(a: seq<Record>, b: seq<Record>, n: nat)
    requires |a| == |b| == n + 1 && multiset(a) == multiset(b) && a[n] == b[n]
    ensures multiset(a[..n]) == multiset(b[..n])
  {
    WithoutLast(a, n);
    WithoutLast(b, n);
  }

  // ---- which histories replay

  function Previous(items: seq<Item>, k: nat): Kind
    requires k <= |items|
  {
    if k == 0 then OtherKind else items[k - 1].kind
  }

  // Each item against the one before it: a call never follows an unanswered call, an output answers the call
  // just before it, and references follow an output or another reference.
  predicate Fits(items: seq<Item>, k: nat)
    requires k < |items|
  {
    match items[k].kind
    case SearchCall => items[k].server && Previous(items, k) != SearchCall
    case SearchOutput =>
      && Previous(items, k) == SearchCall
      && items[k].server && items[k].done && items[k].tools.Some? && items[k].callId == items[k - 1].callId
    case Reference => Previous(items, k) == SearchOutput || Previous(items, k) == Reference
    case _ => false
  }

  predicate SearchHistory(items: seq<Item>) {
    (forall k :: 0 <= k < |items| ==> Fits(items, k)) && Previous(items, |items|) != SearchCall
  }

  function Items(records: seq<Record>): seq<Item>
    requires forall k :: 0 <= k < |records| ==> ItemOf(records[k].data).Some?
  {
    seq(|records|, k requires 0 <= k < |records| => ItemOf(records[k].data).value)
  }

  predicate AllItems(records: seq<Record>) {
    forall k :: 0 <= k < |records| ==> ItemOf(records[k].data).Some? && records[k].at >= 0
  }

  function StageAfter(kind: Kind): Stage {
    if kind == SearchCall then Called else if kind == OtherKind then Idle else Result
  }

  predicate Local(records: seq<Record>) {
    AllItems(records) && Strict(records) && forall k :: 0 <= k < |records| ==> Fits(Items(records), k)
  }

  // The state the scanner is in after these records, read off the last one.
  predicate ReadOff(records: seq<Record>, c: Cursor)
    requires AllItems(records)
  {
    var n := |records|;
    && c.stage == StageAfter(Previous(Items(records), n))
    && c.last == (if n == 0 then -1 else records[n - 1].at)
    && c.active == (if Previous(Items(records), n) == SearchCall then Items(records)[n - 1].callId else None)
  }

  function AsKept(records: seq<Record>): seq<Kept>
    requires AllItems(records)
  {
    seq(|records|, k requires 0 <= k < |records| => Kept(records[k].at, ItemOf(records[k].data).value))
  }

  lemma LocalPrefix(records: seq<Record>, n: nat)
    requires |records| == n + 1
    ensures Local(records) <==>
              && Local(records[..n])
              && ItemOf(records[n].data).Some? && records[n].at >= 0
              && (n > 0 ==> records[n - 1].at < records[n].at)
              && Fits(Items(records[..n]) + [ItemOf(records[n].data).value], n)
  {
    if AllItems(records) {
      assert Items(records) == Items(records[..n]) + [ItemOf(records[n].data).value];
      assert forall k :: 0 <= k < n ==> (Fits(Items(records[..n]), k) <==> Fits(Items(records), k));
    } else if AllItems(records[..n]) {
      assert !(ItemOf(records[n].data).Some? && records[n].at >= 0);
    }
  }

  // The scanner accepts exactly the records that fit locally.
  lemma {:induction false} ScanIsLocal(records: seq<Record>)
    ensures Scan(records).Some? <==> Local(records)
    ensures Local(records) ==> Scan(records).value.1 == AsKept(records) && ReadOff(records, Scan(records).value.0)
    decreases |records|
  {
    if records == [] {
    } else {
      var n := |records| - 1;
      ScanIsLocal(records[..n]);
      LocalPrefix(records, n);
      if Local(records[..n]) && ItemOf(records[n].data).Some? {
        var item := ItemOf(records[n].data).value;
        var c := Scan(records[..n]).value.0;
        assert Admissible(c, item) <==> Fits(Items(records[..n]) + [item], n);
      }
    }
  }

  // The validator accepts exactly records with distinct sequence numbers that, in that order, form a history.
  lemma ReplayAcceptsHistories(records: seq<Record>)
    ensures Replay(records).Some? <==>
              var sorted := Sorted(records);
              AllItems(sorted) && Strict(sorted) && SearchHistory(Items(sorted))
  {
    ScanIsLocal(Sorted(records));
  }

  // ---- the normaliser is tracked by the scanner

  lemma {:induction false} TranscriptConcat(a: seq<Event>, b: seq<Event>)
    ensures Transcript(a + b) == Transcript(a) + Transcript(b)
    decreases |b|
  {
    if b == [] {
      assert a + b == a;
    } else {
      var n := |b| - 1;
      TranscriptConcat(a, b[..n]);
      assert (a + b)[..|a + b| - 1] == a + b[..n];
      Regroup(Transcript(a), Transcript(b[..n]), SavedBy(b[n]));
    }
  }

  lemma Regroup(a: seq<Kept>, b: seq<Kept>, c: seq<Kept>)
    ensures a + (b + c) == (a + b) + c
  {
  }

  lemma KeptConcat(kept: seq<Kept>, a: seq<Event>, b: seq<Event>)
    ensures kept + Transcript(a + b) == kept + Transcript(a) + Transcript(b)
  {
    TranscriptConcat(a, b);
    Regroup(kept, Transcript(a), Transcript(b));
  }

  lemma TranscriptOfOne(e: Event)
    ensures Transcript([e]) == SavedBy(e)
  {
    assert [e][..0] == [];
  }

  // Scanning what was kept so far leaves the validator in the normaliser's own search stage.
  predicate Tracks(st: State, kept: seq<Kept>) {
    var scanned := Scan(Saved(kept));
    && scanned.Some?
    && scanned.value.1 == kept
    && scanned.value.0.stage == st.stage
    && scanned.value.0.active == st.active
    && scanned.value.0.last < st.seqNo
  }

  lemma TracksPush(st: State, after: State, kept: seq<Kept>, item: Item)
    requires Tracks(st, kept) && Admissible(Cursor(0, st.stage, st.active), item)
    requires after.seqNo > st.seqNo
    requires var c := Advance(Cursor(0, st.stage, st.active), st.seqNo, item);
             after.stage == c.stage && after.active == c.active
    ensures Tracks(after, kept + [Kept(st.seqNo, item)])
  {
    var more := kept + [Kept(st.seqNo, item)];
    assert Saved(more)[..|kept|] == Saved(kept);
  }

  // Revealing moves nothing but the sequence number; only a reference is kept.
  predicate SameStage(a: State, b: State) {
    a.stage == b.stage && a.active == b.active && a.seqNo <= b.seqNo
  }

  lemma RevealTracks(plan: Plan, st: State, d: Definition, raw: Item, kept: seq<Kept>)
    requires Tracks(st, kept) && Reveal(plan, st, d, raw).ok
    requires raw.kind == Reference ==> st.stage == Result
    ensures Tracks(Reveal(plan, st, d, raw).st, kept + Transcript(Reveal(plan, st, d, raw).events))
    ensures SameStage(st, Reveal(plan, st, d, raw).st)
  {
    var fed := Reveal(plan, st, d, raw);
    if fed.events == [] {
      assert kept + [] == kept;
    } else {
      TranscriptOfOne(fed.events[0]);
      assert fed.events == [fed.events[0]];
      if raw.kind == Reference {
        TracksPush(st, fed.st, kept, raw);
      } else {
        assert kept + [] == kept;
      }
    }
  }

  lemma {:induction false} RevealAllTracks(plan: Plan, st: State, listed: seq<Listed>, raw: Item, kept: seq<Kept>)
    requires Tracks(st, kept) && RevealAll(plan, st, listed, raw).ok && raw.kind != Reference
    ensures Tracks(RevealAll(plan, st, listed, raw).st, kept + Transcript(RevealAll(plan, st, listed, raw).events))
    ensures SameStage(st, RevealAll(plan, st, listed, raw).st)
    decreases |listed|
  {
    if listed == [] {
      assert kept + [] == kept;
    } else {
      var n := |listed| - 1;
      var before := RevealAll(plan, st, listed[..n], raw);
      var last := Reveal(plan, before.st, listed[n].definition, raw);
      RevealAllTracks(plan, st, listed[..n], raw, kept);
      RevealTracks(plan, before.st, listed[n].definition, raw, kept + Transcript(before.events));
      KeptConcat(kept, before.events, last.events);
    }
  }

  lemma SearchOutputTracks(plan: Plan, st: State, item: Item, kept: seq<Kept>)
    requires Tracks(st, kept) && item.kind == SearchOutput && FeedSearchOutput(plan, st, item).ok
    ensures Tracks(FeedSearchOutput(plan, st, item).st, kept + Transcript(FeedSearchOutput(plan, st, item).events))
  {
    var found := Spend(st, item).(stage := Result, active := None, seqNo := st.seqNo + 1);
    var first := SearchResult(st.seqNo, item);
    var revealed := RevealAll(plan, found, item.tools.value, item);
    TracksPush(st, found, kept, item);
    TranscriptOfOne(first);
    RevealAllTracks(plan, found, item.tools.value, item, kept + Transcript([first]));
    KeptConcat(kept, [first], revealed.events);
  }

  lemma FreshTracks(plan: Plan, st: State, item: Item, kept: seq<Kept>)
    requires Tracks(st, kept) && FeedFresh(plan, st, item).ok
    ensures Tracks(FeedFresh(plan, st, item).st, kept + Transcript(FeedFresh(plan, st, item).events))
  {
    var fed := FeedFresh(plan, st, item);
    match item.kind
    case SearchCall =>
      TranscriptOfOne(SearchStarted(st.seqNo, item));
      TracksPush(st, fed.st, kept, item);
    case SearchOutput => SearchOutputTracks(plan, st, item, kept);
    case Reference => RevealTracks(plan, Spend(st, item), item.tool.value, item, kept);
    case FunctionCall =>
      TranscriptOfOne(fed.events[0]);
      assert fed.events == [fed.events[0]] && kept + [] == kept;
    case OtherKind => assert kept + [] == kept;
  }

  lemma ItemTracks(plan: Plan, st: State, item: Item, kept: seq<Kept>)
    requires Tracks(st, kept) && FeedItem(plan, st, item).ok
    ensures Tracks(FeedItem(plan, st, item).st, kept + Transcript(FeedItem(plan, st, item).events))
  {
    if item.kind == OtherKind || (item.id != "" && item.id in st.seen) {
      assert kept + [] == kept;
    } else if item.id == "" {
      FreshTracks(plan, st, item, kept);
    } else {
      FreshTracks(plan, st.(seen := st.seen[item.id := item]), item, kept);
    }
  }

  lemma {:induction false} SummaryTracks(plan: Plan, st: State, output: seq<Option<Item>>, kept: seq<Kept>)
    requires Tracks(st, kept) && FeedSummary(plan, st, output).ok
    ensures Tracks(FeedSummary(plan, st, output).st, kept + Transcript(FeedSummary(plan, st, output).events))
    decreases |output|
  {
    if output == [] {
      assert kept + [] == kept;
    } else {
      var n := |output| - 1;
      var before := FeedSummary(plan, st, output[..n]);
      var last := FeedSummaryItem(plan, before.st, output[n]);
      SummaryTracks(plan, st, output[..n], kept);
      SummaryItemTracks(plan, before.st, output[n], kept + Transcript(before.events));
      KeptConcat(kept, before.events, last.events);
    }
  }

  lemma SummaryItemTracks(plan: Plan, st: State, entry: Option<Item>, kept: seq<Kept>)
    requires Tracks(st, kept) && FeedSummaryItem(plan, st, entry).ok
    ensures Tracks(FeedSummaryItem(plan, st, entry).st, kept + Transcript(FeedSummaryItem(plan, st, entry).events))
  {
    if entry.None? || (entry.value.id == "" && st.streamed[entry.value] > 0) {
      assert kept + [] == kept;
    } else {
      ItemTracks(plan, st, entry.value, kept);
    }
  }

  lemma SseTracks(plan: Plan, st: State, event: Sse, kept: seq<Kept>)
    requires Tracks(st, kept) && FeedSse(plan, st, event).ok
    ensures Tracks(FeedSse(plan, st, event).st, kept + Transcript(FeedSse(plan, st, event).events))
  {
    match event
    case ItemDone(item) => ItemTracks(plan, st, item.value, kept);
    case ResponseCompleted(output) =>
      if output.Some? {
        SummaryTracks(plan, st, output.value, kept);
      } else {
        assert kept + [] == kept;
      }
    case _ => assert kept + [] == kept;
  }

  lemma {:induction false} StreamTracks(plan: Plan, budget: Budget, events: seq<Sse>)
    requires FeedStream(plan, Start(budget), events).ok
    ensures Tracks(FeedStream(plan, Start(budget), events).st,
                   Transcript(FeedStream(plan, Start(budget), events).events))
    decreases |events|
  {
    if events == [] {
      assert Saved([]) == [];
    } else {
      var n := |events| - 1;
      var before := FeedStream(plan, Start(budget), events[..n]);
      var last := FeedSse(plan, before.st, events[n]);
      StreamTracks(plan, budget, events[..n]);
      SseTracks(plan, before.st, events[n], Transcript(before.events));
      TranscriptConcat(before.events, last.events);
    }
  }

  // For every stream the normaliser accepts, finished or cut short anywhere, the items kept so far replay, in
  // whatever order the store returns them, if and only if no search is left unanswered; and then to exactly
  // those items in the order they were emitted.
  lemma KeptItemsReplayExactly(plan: Plan, budget: Budget, events: seq<Sse>, records: seq<Record>)
    requires FeedStream(plan, Start(budget), events).ok
    requires multiset(records) == multiset(Saved(Transcript(FeedStream(plan, Start(budget), events).events)))
    ensures var fed := FeedStream(plan, Start(budget), events);
            && (Replay(records).Some? <==> fed.st.stage != Called)
            && (Replay(records).Some? ==> Replay(records) == Some(Transcript(fed.events)))
  {
    var fed := FeedStream(plan, Start(budget), events);
    var saved := Saved(Transcript(fed.events));
    StreamTracks(plan, budget, events);
    ScanIsLocal(saved);
    SortSorts(records);
    SortedIsUnique(Sorted(records), saved);
  }

  // So the kept items of every stream that is accepted and finalised replay.
  lemma FinishedStreamReplays(plan: Plan, budget: Budget, events: seq<Sse>, records: seq<Record>)
    requires FeedStream(plan, Start(budget), events).ok && Finalize(FeedStream(plan, Start(budget), events).st).ok
    requires multiset(records) == multiset(Saved(Transcript(FeedStream(plan, Start(budget), events).events)))
    ensures Replay(records) == Some(Transcript(FeedStream(plan, Start(budget), events).events))
  {
    StreamSpendsLawfully(plan, Start(budget), events);
    KeptItemsReplayExactly(plan, budget, events, records);
  }
}

// Deferred tools are called only after their exact reveal, and a terminal summary that repeats the
// stream changes nothing.
module NativeStreams {
  import opened Common
  import opened NativeSearch
  import opened NativeBudget

  // ---- reveals before calls

  // The provider item lists exactly this definition.
  predicate Lists(provider: Item, d: Definition) {
    if provider.kind == Reference then provider.tool == Some(d)
    else provider.tools.Some? && Object(d) in provider.tools.value
  }

  // A reveal names a deferred tool of the plan, by the very definition the request carried.
  predicate ExactReveal(plan: Plan, e: Event)
    requires e.Revealed?
  {
    && e.wire in plan.deferred && e.wire in plan.definitions && plan.definitions[e.wire].name == e.wire
    && Lists(e.provider, plan.definitions[e.wire]) && e.canonical == plan.canonical[e.wire]
    && (e.executable <==> e.wire in plan.safe)
  }

  function RevealedWires(events: seq<Event>): set<string> {
    if events == [] then {}
    else
      var n := |events| - 1;
      RevealedWires(events[..n]) + if events[n].Revealed? then {events[n].wire} else {}
  }

  predicate Justified(plan: Plan, revealed: set<string>, e: Event) {
    && (e.Revealed? ==> ExactReveal(plan, e))
    && (e.ToolCall? ==> e.wire in plan.canonical && e.canonical == plan.canonical[e.wire] &&
                        (e.wire in plan.deferred ==> e.wire in revealed && (e.executable <==> e.wire in plan.safe)))
  }

  // Every event is justified by the events before it, starting from what was revealed earlier.
  predicate InOrder(plan: Plan, earlier: set<string>, events: seq<Event>) {
    forall k :: 0 <= k < |events| ==> Justified(plan, earlier + RevealedWires(events[..k]), events[k])
  }

  lemma {:induction false} WiresConcat(a: seq<Event>, b: seq<Event>)
    ensures RevealedWires(a + b) == RevealedWires(a) + RevealedWires(b)
    decreases |b|
  {
    if b == [] {
      assert a + b == a;
    } else {
      var n := |b| - 1;
      WiresConcat(a, b[..n]);
      assert (a + b)[..|a + b| - 1] == a + b[..n];
    }
  }

  lemma InOrderConcat(plan: Plan, earlier: set<string>, a: seq<Event>, b: seq<Event>)
    requires InOrder(plan, earlier, a) && InOrder(plan, earlier + RevealedWires(a), b)
    ensures InOrder(plan, earlier, a + b)
  {
    forall k | 0 <= k < |a + b| ensures Justified(plan, earlier + RevealedWires((a + b)[..k]), (a + b)[k]) {
      if k < |a| {
        assert (a + b)[..k] == a[..k];
      } else {
        assert (a + b)[..k] == a + b[..k - |a|];
        WiresConcat(a, b[..k - |a|]);
        assert earlier + (RevealedWires(a) + RevealedWires(b[..k - |a|])) ==
               earlier + RevealedWires(a) + RevealedWires(b[..k - |a|]);
      }
    }
  }

  // Events are numbered without gaps from `first`.
  predicate Numbered(first: nat, events: seq<Event>) {
    forall k :: 0 <= k < |events| ==> events[k].at == first + k
  }

  // A step whose emitted events are numbered on from the last, justified, and account for every newly
  // revealed name.
  predicate Honest(plan: Plan, st: State, fed: Fed) {
    fed.ok ==>
      && InOrder(plan, st.names, fed.events) && fed.st.names == st.names + RevealedWires(fed.events)
      && Numbered(st.seqNo, fed.events) && fed.st.seqNo == st.seqNo + |fed.events|
  }

  lemma HonestThen(plan: Plan, st: State, first: Fed, second: Fed)
    requires first.ok && second.ok && Honest(plan, st, first) && Honest(plan, first.st, second)
    ensures Honest(plan, st, Fed(second.st, first.events + second.events, true))
  {
    InOrderConcat(plan, st.names, first.events, second.events);
    WiresConcat(first.events, second.events);
  }

  lemma OneEvent(plan: Plan, earlier: set<string>, e: Event)
    requires Justified(plan, earlier, e)
    ensures InOrder(plan, earlier, [e]) && RevealedWires([e]) == if e.Revealed? then {e.wire} else {}
  {
    assert [e][..0] == [];
    assert earlier + {} == earlier;
  }

  lemma RevealHonest(plan: Plan, st: State, d: Definition, raw: Item)
    requires Lists(raw, d)
    ensures Honest(plan, st, Reveal(plan, st, d, raw))
  {
    var fed := Reveal(plan, st, d, raw);
    if fed.events != [] {
      OneEvent(plan, st.names, fed.events[0]);
    }
  }

  lemma {:induction false} RevealAllHonest(plan: Plan, st: State, listed: seq<Listed>, raw: Item)
    requires raw.kind != Reference && raw.tools.Some? && forall d :: d in listed ==> d in raw.tools.value
    ensures Honest(plan, st, RevealAll(plan, st, listed, raw))
    decreases |listed|
  {
    if listed == [] {
    } else if RevealAll(plan, st, listed, raw).ok {
      var n := |listed| - 1;
      var before := RevealAll(plan, st, listed[..n], raw);
      RevealAllHonest(plan, st, listed[..n], raw);
      assert listed[n] in listed;
      RevealHonest(plan, before.st, listed[n].definition, raw);
      HonestThen(plan, st, before, Reveal(plan, before.st, listed[n].definition, raw));
    }
  }

  lemma SearchOutputHonest(plan: Plan, st: State, item: Item)
    requires item.kind == SearchOutput && FeedSearchOutput(plan, st, item).ok
    ensures Honest(plan, st, FeedSearchOutput(plan, st, item))
  {
    var found := Spend(st, item).(stage := Result, active := None, seqNo := st.seqNo + 1);
    var first := Fed(found, [SearchResult(st.seqNo, item)], true);
    OneEvent(plan, st.names, SearchResult(st.seqNo, item));
    RevealAllHonest(plan, found, item.tools.value, item);
    HonestThen(plan, st, first, RevealAll(plan, found, item.tools.value, item));
  }

  lemma FreshHonest(plan: Plan, st: State, item: Item)
    ensures Honest(plan, st, FeedFresh(plan, st, item))
  {
    var fed := FeedFresh(plan, st, item);
    if fed.ok {
      match item.kind
      case SearchCall => OneEvent(plan, st.names, fed.events[0]);
      case SearchOutput => SearchOutputHonest(plan, st, item);
      case Reference => RevealHonest(plan, Spend(st, item), item.tool.value, item);
      case FunctionCall => OneEvent(plan, st.names, fed.events[0]);
      case OtherKind =>
    }
  }

  lemma ItemHonest(plan: Plan, st: State, item: Item)
    ensures Honest(plan, st, FeedItem(plan, st, item))
  {
    if item.id == "" {
      FreshHonest(plan, st, item);
    } else {
      FreshHonest(plan, st.(seen := st.seen[item.id := item]), item);
    }
  }

  lemma {:induction false} SummaryHonest(plan: Plan, st: State, output: seq<Option<Item>>)
    ensures Honest(plan, st, FeedSummary(plan, st, output))
    decreases |output|
  {
    if output == [] {
    } else if FeedSummary(plan, st, output).ok {
      var n := |output| - 1;
      var before := FeedSummary(plan, st, output[..n]);
      SummaryHonest(plan, st, output[..n]);
      if output[n].Some? {
        ItemHonest(plan, before.st, output[n].value);
      }
      HonestThen(plan, st, before, FeedSummaryItem(plan, before.st, output[n]));
    }
  }

  lemma SseHonest(plan: Plan, st: State, event: Sse)
    ensures Honest(plan, st, FeedSse(plan, st, event))
  {
    if event.ItemDone? && event.item.Some? {
      ItemHonest(plan, st, event.item.value);
    } else if event.ResponseCompleted? && event.output.Some? {
      SummaryHonest(plan, st, event.output.value);
    }
  }

  lemma {:induction false} StreamHonest(plan: Plan, st: State, events: seq<Sse>)
    ensures Honest(plan, st, FeedStream(plan, st, events))
    decreases |events|
  {
    if events == [] {
    } else if FeedStream(plan, st, events).ok {
      var n := |events| - 1;
      var before := FeedStream(plan, st, events[..n]);
      StreamHonest(plan, st, events[..n]);
      SseHonest(plan, before.st, events[n]);
      HonestThen(plan, st, before, FeedSse(plan, before.st, events[n]));
    }
  }

  lemma {:induction false} RevealOf(events: seq<Event>, wire: string) returns (j: nat)
    requires wire in RevealedWires(events)
    ensures j < |events| && events[j].Revealed? && events[j].wire == wire
    decreases |events|
  {
    var n := |events| - 1;
    if events[n].Revealed? && events[n].wire == wire {
      j := n;
    } else {
      j := RevealOf(events[..n], wire);
    }
  }

  predicate RevealsAt(plan: Plan, events: seq<Event>, j: int, wire: string) {
    0 <= j < |events| && events[j].Revealed? && events[j].wire == wire && ExactReveal(plan, events[j])
  }

  // The events of an accepted stream are numbered 0, 1, 2, ... in the order they are emitted.
  lemma EventsAreNumbered(plan: Plan, budget: Budget, stream: seq<Sse>, k: nat)
    requires FeedStream(plan, Start(budget), stream).ok && k < |FeedStream(plan, Start(budget), stream).events|
    ensures FeedStream(plan, Start(budget), stream).events[k].at == k
  {
    StreamHonest(plan, Start(budget), stream);
  }

  // In every accepted stream a call to a deferred tool comes after a reveal of that tool by a provider item
  // listing exactly the definition the request carried.
  lemma DeferredCallFollowsItsReveal(plan: Plan, budget: Budget, stream: seq<Sse>, k: nat)
    requires FeedStream(plan, Start(budget), stream).ok
    requires var events := FeedStream(plan, Start(budget), stream).events;
             k < |events| && events[k].ToolCall? && events[k].wire in plan.deferred
    ensures var events := FeedStream(plan, Start(budget), stream).events;
            exists j :: j < k && RevealsAt(plan, events, j, events[k].wire)
  {
    var events := FeedStream(plan, Start(budget), stream).events;
    StreamHonest(plan, Start(budget), stream);
    assert Justified(plan, {} + RevealedWires(events[..k]), events[k]);
    var j := RevealOf(events[..k], events[k].wire);
    assert Justified(plan, {} + RevealedWires(events[..j]), events[j]);
    assert RevealsAt(plan, events, j, events[k].wire);
  }

  // ---- the terminal summary

  function DoneItem(event: Sse): seq<Item> {
    if event.ItemDone? && event.item.Some? then [event.item.value] else []
  }

  function DoneItems(events: seq<Sse>): seq<Item> {
    if events == [] then [] else DoneItems(events[..|events| - 1]) + DoneItem(events[|events| - 1])
  }

  function Present(output: seq<Option<Item>>): seq<Item> {
    if output == [] then []
    else
      var n := |output| - 1;
      Present(output[..n]) + if output[n].Some? then [output[n].value] else []
  }

  predicate SameMemory(a: State, b: State) {
    b.seen == a.seen && b.streamed == a.streamed && b.completed == a.completed
  }

  lemma {:induction false} RevealAllKeepsMemory(plan: Plan, st: State, listed: seq<Listed>, raw: Item)
    ensures SameMemory(st, RevealAll(plan, st, listed, raw).st)
    decreases |listed|
  {
    if listed == [] {
    } else {
      RevealAllKeepsMemory(plan, st, listed[..|listed| - 1], raw);
    }
  }

  lemma FreshKeepsMemory(plan: Plan, st: State, item: Item)
    ensures SameMemory(st, FeedFresh(plan, st, item).st)
  {
    if item.kind == SearchOutput && item.tools.Some? {
      RevealAllKeepsMemory(plan, Spend(st, item).(stage := Result, active := None, seqNo := st.seqNo + 1),
                           item.tools.value, item);
    }
  }

  // Nothing already seen is forgotten, and an accepted item with an id is remembered under it.
  predicate Remembers(a: State, b: State, item: Item) {
    && b.streamed == a.streamed && b.completed == a.completed
    && (forall id :: id in a.seen ==> id in b.seen && b.seen[id] == a.seen[id])
    && (item.id != "" && item.kind != OtherKind ==> item.id in b.seen && b.seen[item.id] == item)
  }

  lemma ItemRemembered(plan: Plan, st: State, item: Item)
    requires FeedItem(plan, st, item).ok
    ensures Remembers(st, FeedItem(plan, st, item).st, item)
  {
    if item.id == "" {
      FreshKeepsMemory(plan, st, item);
    } else {
      FreshKeepsMemory(plan, st.(seen := st.seen[item.id := item]), item);
    }
  }

  // The stream's memory of the items it has finished: by id, or counted when there is none.
  predicate Known(st: State, done: seq<Item>, i: Item) {
    if i.id == "" then st.streamed[i] == multiset(done)[i]
    else i in done && i.kind != OtherKind ==> i.id in st.seen && st.seen[i.id] == i
  }

  ghost predicate AllKnown(st: State, done: seq<Item>) {
    forall i :: Known(st, done, i)
  }

  lemma DoneIsKnown(plan: Plan, st: State, item: Item, done: seq<Item>)
    requires AllKnown(st, done) && !st.completed && FeedSse(plan, st, ItemDone(Some(item))).ok
    ensures AllKnown(FeedSse(plan, st, ItemDone(Some(item))).st, done + [item])
  {
    var after := FeedSse(plan, st, ItemDone(Some(item))).st;
    ItemRemembered(plan, st, item);
    forall i ensures Known(after, done + [item], i) {
      assert Known(st, done, i);
    }
  }

  lemma KnownStep(plan: Plan, st: State, event: Sse, done: seq<Item>)
    requires FeedSse(plan, st, event).ok && !FeedSse(plan, st, event).st.completed
    requires !st.completed ==> AllKnown(st, done)
    ensures AllKnown(FeedSse(plan, st, event).st, done + DoneItem(event))
  {
    if event.ItemDone? {
      DoneIsKnown(plan, st, event.item.value, done);
    } else {
      assert FeedSse(plan, st, event).st == st && done + [] == done;
    }
  }

  lemma {:induction false} StreamKnowsItsItems(plan: Plan, budget: Budget, stream: seq<Sse>)
    requires FeedStream(plan, Start(budget), stream).ok && !FeedStream(plan, Start(budget), stream).st.completed
    ensures AllKnown(FeedStream(plan, Start(budget), stream).st, DoneItems(stream))
    decreases |stream|
  {
    if stream == [] {
      forall i ensures Known(Start(budget), [], i) {
      }
    } else {
      var n := |stream| - 1;
      var before := FeedStream(plan, Start(budget), stream[..n]);
      if !before.st.completed {
        StreamKnowsItsItems(plan, budget, stream[..n]);
      }
      KnownStep(plan, before.st, stream[n], DoneItems(stream[..n]));
    }
  }

  // Striking a summary off: what is left of the streamed counts.
  ghost predicate StruckOff(before: State, after: State, items: seq<Item>) {
    after == before.(streamed := after.streamed) &&
    forall i: Item :: i.id == "" ==> Counts(before, after, items, i)
  }

  predicate Counts(before: State, after: State, items: seq<Item>, i: Item) {
    after.streamed[i] + multiset(items)[i] == before.streamed[i]
  }

  lemma {:induction false} SummaryIsSilent(plan: Plan, st: State, output: seq<Option<Item>>, done: seq<Item>)
    requires AllKnown(st, done) && multiset(Present(output)) <= multiset(done)
    ensures FeedSummary(plan, st, output).ok && FeedSummary(plan, st, output).events == []
    ensures StruckOff(st, FeedSummary(plan, st, output).st, Present(output))
    decreases |output|
  {
    if output == [] {
    } else {
      var n := |output| - 1;
      var items := Present(output[..n]);
      SummaryIsSilent(plan, st, output[..n], done);
      if output[n].Some? {
        StrikeOne(plan, st, FeedSummary(plan, st, output[..n]).st, output[n].value, items, done);
      }
    }
  }

  lemma StrikeOne(plan: Plan, st: State, before: State, item: Item, items: seq<Item>, done: seq<Item>)
    requires AllKnown(st, done) && StruckOff(st, before, items) && multiset(items + [item]) <= multiset(done)
    ensures var fed := FeedSummaryItem(plan, before, Some(item));
            fed.ok && fed.events == [] && StruckOff(st, fed.st, items + [item])
  {
    var after := FeedSummaryItem(plan, before, Some(item)).st;
    assert Known(st, done, item);
    assert multiset(items + [item])[item] == multiset(items)[item] + 1 <= multiset(done)[item];
    if item.id == "" {
      assert Counts(st, before, items, item);
    }
    forall i: Item | i.id == "" ensures Counts(st, after, items + [item], i) {
      assert Counts(st, before, items, i);
    }
  }

  // The one event that completes a stream: a response.completed that carries an output list.
  predicate Completes(event: Sse) { event.ResponseCompleted? && event.output.Some? }

  // An accepted stream is completed exactly when its last event carries the output list ...
  lemma CompletedByTheLastEvent(plan: Plan, budget: Budget, stream: seq<Sse>)
    requires FeedStream(plan, Start(budget), stream).ok
    ensures FeedStream(plan, Start(budget), stream).st.completed <==> stream != [] && Completes(stream[|stream| - 1])
  {
    if stream == [] {
    } else {
      var n := |stream| - 1;
      OnlySummariesComplete(plan, FeedStream(plan, Start(budget), stream[..n]).st, stream[n]);
    }
  }

  // ... and nothing follows such an event.
  lemma {:induction false} NothingFollowsCompletion(plan: Plan, budget: Budget, stream: seq<Sse>, k: nat)
    requires FeedStream(plan, Start(budget), stream).ok && k < |stream| - 1
    ensures !Completes(stream[k])
    decreases |stream|
  {
    var before := stream[..|stream| - 1];
    OpenUntilTheLast(plan, budget, stream);
    if k < |before| - 1 {
      NothingFollowsCompletion(plan, budget, before, k);
    } else {
      CompletedByTheLastEvent(plan, budget, before);
    }
    assert before[k] == stream[k];
  }

  lemma OpenUntilTheLast(plan: Plan, budget: Budget, stream: seq<Sse>)
    requires FeedStream(plan, Start(budget), stream).ok && stream != []
    ensures var before := FeedStream(plan, Start(budget), stream[..|stream| - 1]); before.ok && !before.st.completed
  {
    var n := |stream| - 1;
    OnlySummariesComplete(plan, FeedStream(plan, Start(budget), stream[..n]).st, stream[n]);
  }

  lemma OnlySummariesComplete(plan: Plan, st: State, event: Sse)
    requires FeedSse(plan, st, event).ok
    ensures !st.completed && (FeedSse(plan, st, event).st.completed <==> Completes(event))
  {
    if event.ItemDone? {
      ItemRemembered(plan, st, event.item.value);
    }
  }

  // A response.completed without an output list is accepted and completes nothing: more may follow.
  lemma EmptyCompletionExample(plan: Plan, budget: Budget)
    ensures var fed := FeedStream(plan, Start(budget), [ResponseCompleted(None), ResponseCompleted(None)]);
            fed.ok && !fed.st.completed && !Finalize(fed.st).ok
  {
    var stream := [ResponseCompleted(None), ResponseCompleted(None)];
    assert stream[..1] == [ResponseCompleted(None)] && stream[..1][..0] == [];
    assert FeedStream(plan, Start(budget), stream[..1]).st == Start(budget);
  }

  // A response.completed whose output repeats finished items, in any order and any part of them, emits
  // nothing, spends nothing and moves no search state: it only completes the stream.
  lemma CompletedSummaryIsFree(plan: Plan, budget: Budget, stream: seq<Sse>, output: seq<Option<Item>>)
    requires FeedStream(plan, Start(budget), stream).ok
    requires !FeedStream(plan, Start(budget), stream).st.completed
    requires multiset(Present(output)) <= multiset(DoneItems(stream))
    ensures var st := FeedStream(plan, Start(budget), stream).st;
            var last := FeedSse(plan, st, ResponseCompleted(Some(output)));
            last.ok && last.events == [] && last.st == st.(streamed := last.st.streamed, completed := true)
  {
    StreamKnowsItsItems(plan, budget, stream);
    StreamSpendsLawfully(plan, Start(budget), stream);
    KnownSummaryIsFree(plan, FeedStream(plan, Start(budget), stream).st, output, DoneItems(stream));
  }

  lemma KnownSummaryIsFree(plan: Plan, st: State, output: seq<Option<Item>>, done: seq<Item>)
    requires AllKnown(st, done) && !st.completed && !st.finalized && multiset(Present(output)) <= multiset(done)
    ensures var last := FeedSse(plan, st, ResponseCompleted(Some(output)));
            last.ok && last.events == [] && last.st == st.(streamed := last.st.streamed, completed := true)
  {
    SummaryIsSilent(plan, st, output, done);
  }
}
