// Bounded summary requests out of one serialized history (backend/agent/compaction.py, _chunk_requests).
module CompactionChunks {
  // The meter prices a whole summary request; a request is determined by its fragment.
  type Meter = string -> nat

  datatype Chunks = Chunks(fragments: seq<string>) | NoBudget | NoFit

  function Concat(fragments: seq<string>): string {
    if fragments == [] then "" else Concat(fragments[..|fragments| - 1]) + fragments[|fragments| - 1]
  }

  predicate Fits(measure: Meter, budget: int, fragment: string) {
    measure(fragment) <= budget && |fragment| <= 4 * budget
  }

  // Any other way of cutting the source into requests that fit.
  ghost predicate FittingSplit(measure: Meter, budget: int, source: string, fragments: seq<string>) {
    Concat(fragments) == source && forall k :: 0 <= k < |fragments| ==> Fits(measure, budget, fragments[k])
  }

  ghost predicate Monotone(measure: Meter) {
    forall s: string, i, j :: 0 <= i <= j <= |s| ==> measure(s[i..j]) <= measure(s)
  }

  // A single character whose request is already over budget.
  predicate Dear(measure: Meter, budget: int, source: string, i: int) {
    0 <= i < |source| && measure(source[i..i + 1]) > budget
  }

  // ---- cut points

  // Fragment k is the piece of the source between cuts k and k + 1.
  predicate Piece(source: string, fragments: seq<string>, cuts: seq<int>, k: int) {
    && 0 <= k < |fragments| && k + 1 < |cuts|
    && 0 <= cuts[k] <= cuts[k + 1] <= |source|
    && fragments[k] == source[cuts[k]..cuts[k + 1]]
  }

  predicate IsSplit(source: string, fragments: seq<string>, cuts: seq<int>) {
    |cuts| == |fragments| + 1 && cuts[0] == 0 && forall k :: 0 <= k < |fragments| ==> Piece(source, fragments, cuts, k)
  }

  // Piece k ends the source, or would not fit with one more character.
  predicate Full(measure: Meter, budget: int, source: string, cuts: seq<int>, k: int) {
    && 0 <= k && k + 1 < |cuts| && 0 <= cuts[k] <= cuts[k + 1] <= |source|
    && (cuts[k + 1] < |source| ==> !Fits(measure, budget, source[cuts[k]..cuts[k + 1] + 1]))
  }

  predicate Stretched(measure: Meter, budget: int, source: string, cuts: seq<int>) {
    forall k :: 0 <= k < |cuts| - 1 ==> Full(measure, budget, source, cuts, k)
  }

  lemma SubSlice(source: string, a: int, b: int, c: int, d: int)
    requires 0 <= c <= a <= b <= d <= |source|
    ensures source[c..d][a - c..b - c] == source[a..b]
  {
    var part := source[c..d];
    forall i | 0 <= i < b - a ensures part[a - c..b - c][i] == source[a..b][i] {
      assert part[a - c + i] == source[a + i];
    }
  }

  lemma {:induction false} CutsOf(fragments: seq<string>) returns (cuts: seq<int>)
    ensures IsSplit(Concat(fragments), fragments, cuts)
    ensures cuts[|fragments|] == |Concat(fragments)|
  {
    if fragments == [] {
      cuts := [0];
    } else {
      var n := |fragments| - 1;
      var whole, part := Concat(fragments), Concat(fragments[..n]);
      var before := CutsOf(fragments[..n]);
      cuts := before + [|whole|];
      forall k | 0 <= k < |fragments| ensures Piece(whole, fragments, cuts, k) {
        if k < n {
          assert Piece(part, fragments[..n], before, k);
          assert whole[before[k]..before[k + 1]] == part[before[k]..before[k + 1]];
        }
      }
    }
  }

  lemma {:induction false} SplitConcat(source: string, fragments: seq<string>, cuts: seq<int>)
    requires IsSplit(source, fragments, cuts)
    ensures 0 <= cuts[|fragments|] <= |source| && Concat(fragments) == source[..cuts[|fragments|]]
    decreases |fragments|
  {
    if fragments == [] {
    } else {
      var n := |fragments| - 1;
      assert Piece(source, fragments, cuts, n);
      var init, initCuts := fragments[..n], cuts[..n + 1];
      forall k | 0 <= k < n ensures Piece(source, init, initCuts, k) {
        assert Piece(source, fragments, cuts, k);
      }
      SplitConcat(source, fragments[..n], cuts[..n + 1]);
    }
  }

  lemma SplitExtends(source: string, fragments: seq<string>, cuts: seq<int>, end: int)
    requires IsSplit(source, fragments, cuts) && 0 <= cuts[|fragments|] <= end <= |source|
    ensures IsSplit(source, fragments + [source[cuts[|fragments|]..end]], cuts + [end])
  {
    var longer := fragments + [source[cuts[|fragments|]..end]];
    forall k | 0 <= k < |longer| ensures Piece(source, longer, cuts + [end], k) {
      if k < |fragments| {
        assert Piece(source, fragments, cuts, k);
      }
    }
  }

  lemma StretchedExtends(measure: Meter, budget: int, source: string, cuts: seq<int>, end: int)
    requires Stretched(measure, budget, source, cuts) && cuts != []
    requires 0 <= cuts[|cuts| - 1] <= end <= |source|
    requires end < |source| ==> !Fits(measure, budget, source[cuts[|cuts| - 1]..end + 1])
    ensures Stretched(measure, budget, source, cuts + [end])
  {
    forall k | 0 <= k < |cuts| ensures Full(measure, budget, source, cuts + [end], k) {
      if k < |cuts| - 1 {
        assert Full(measure, budget, source, cuts, k);
      }
    }
  }

  lemma Within(measure: Meter, source: string, a: int, b: int, c: int, d: int)
    requires Monotone(measure) && 0 <= c <= a <= b <= d <= |source|
    ensures measure(source[a..b]) <= measure(source[c..d])
  {
    SubSlice(source, a, b, c, d);
    assert measure(source[c..d][a - c..b - c]) <= measure(source[c..d]);
  }

  // Greedy stays ahead: after k fragments no fitting split has got further than a stretched one.
  lemma {:induction false} StaysAhead(measure: Meter, budget: int, source: string, greedy: seq<string>, cuts: seq<int>,
                                      other: seq<string>, others: seq<int>, k: nat)
    requires Monotone(measure) && k <= |greedy| && k <= |other|
    requires IsSplit(source, greedy, cuts) && Stretched(measure, budget, source, cuts)
    requires IsSplit(source, other, others) && forall i :: 0 <= i < |other| ==> Fits(measure, budget, other[i])
    ensures others[k] <= cuts[k]
  {
    if k == 0 {
    } else {
      StaysAhead(measure, budget, source, greedy, cuts, other, others, k - 1);
      assert Piece(source, other, others, k - 1) && Fits(measure, budget, other[k - 1]);
      assert Full(measure, budget, source, cuts, k - 1);
      if cuts[k] < others[k] {
        Within(measure, source, cuts[k - 1], cuts[k] + 1, others[k - 1], others[k]);
      }
    }
  }

  lemma GreedyIsLeast(measure: Meter, budget: int, source: string, greedy: seq<string>, cuts: seq<int>,
                      other: seq<string>)
    requires Monotone(measure)
    requires IsSplit(source, greedy, cuts) && Stretched(measure, budget, source, cuts)
    requires forall k :: 0 <= k < |greedy| ==> greedy[k] != ""
    requires FittingSplit(measure, budget, source, other)
    ensures |greedy| <= |other|
  {
    var others := CutsOf(other);
    if |other| < |greedy| {
      assert Piece(source, greedy, cuts, |other|);
      StaysAhead(measure, budget, source, greedy, cuts, other, others, |other|);
    }
  }

  // A character too dear for the budget is too dear in any fragment.
  lemma {:induction false} DearCharacter(measure: Meter, budget: int, source: string, fragments: seq<string>,
                                         cuts: seq<int>, i: int, k: nat)
    requires Monotone(measure) && Dear(measure, budget, source, i)
    requires IsSplit(source, fragments, cuts) && k <= |fragments|
    requires forall j :: 0 <= j < |fragments| ==> Fits(measure, budget, fragments[j])
    ensures cuts[k] <= i
  {
    if k == 0 {
    } else {
      DearCharacter(measure, budget, source, fragments, cuts, i, k - 1);
      assert Piece(source, fragments, cuts, k - 1) && Fits(measure, budget, fragments[k - 1]);
      if cuts[k] > i {
        Within(measure, source, i, i + 1, cuts[k - 1], cuts[k]);
      }
    }
  }

  lemma NothingDear(measure: Meter, budget: int, source: string, fragments: seq<string>, cuts: seq<int>)
    requires Monotone(measure)
    requires IsSplit(source, fragments, cuts) && cuts[|fragments|] == |source|
    requires forall j :: 0 <= j < |fragments| ==> Fits(measure, budget, fragments[j])
    ensures forall i :: !Dear(measure, budget, source, i)
  {
    forall i ensures !Dear(measure, budget, source, i) {
      if Dear(measure, budget, source, i) {
        DearCharacter(measure, budget, source, fragments, cuts, i, |fragments|);
      }
    }
  }

  // The largest prefix of source[start..high] the meter accepts, by the source's binary search.
  method LargestFitting(measure: Meter, budget: int, source: string, start: nat, high: nat) returns (end: nat)
    requires start < high <= |source|
    ensures start <= end <= high
    ensures end == start || measure(source[start..end]) <= budget
    ensures Monotone(measure) && end < high ==> measure(source[start..end + 1]) > budget
  {
    end := high;
    if measure(source[start..end]) > budget {
      var lo, hi := start, high;
      while lo < hi
        invariant start <= lo <= hi <= high
        invariant lo == start || measure(source[start..lo]) <= budget
        invariant hi < high && Monotone(measure) ==> measure(source[start..hi + 1]) > budget
      {
        var middle := (lo + hi + 1) / 2;
        if measure(source[start..middle]) <= budget {
          lo := middle;
        } else {
          hi := middle - 1;
        }
      }
      end := lo;
    }
  }

  // Fragments concatenate to the whole source and every request fits; with a meter that never prices a
  // part above the whole, they are as few as any fitting split allows, and chunking fails exactly when
  // the empty request or some single character already exceeds the budget.
  method ChunkRequests(measure: Meter, source: string, budget: int) returns (r: Chunks)
    ensures r.NoBudget? <==> measure("") >= budget
    ensures r.Chunks? ==> FittingSplit(measure, budget, source, r.fragments) && "" !in r.fragments
    ensures Monotone(measure) && r.Chunks? ==>
              forall other :: FittingSplit(measure, budget, source, other) ==> |r.fragments| <= |other|
    ensures Monotone(measure) && measure("") < budget ==>
              (r.NoFit? <==> exists i :: Dear(measure, budget, source, i))
  {
    if measure("") >= budget { return NoBudget; }
    var fragments, start := [], 0;
    ghost var cuts := [0];
    while start < |source|
      invariant IsSplit(source, fragments, cuts) && cuts[|fragments|] == start
      invariant forall k :: 0 <= k < |fragments| ==> fragments[k] != "" && Fits(measure, budget, fragments[k])
      invariant Monotone(measure) ==> Stretched(measure, budget, source, cuts)
    {
      var high := if |source| < start + budget * 4 then |source| else start + budget * 4;
      var end := LargestFitting(measure, budget, source, start, high);
      if end == start {
        assert Monotone(measure) ==> Dear(measure, budget, source, start);
        return NoFit;
      }
      SplitExtends(source, fragments, cuts, end);
      if Monotone(measure) {
        StretchedExtends(measure, budget, source, cuts, end);
      }
      fragments := fragments + [source[start..end]];
      cuts := cuts + [end];
      start := end;
    }
    SplitConcat(source, fragments, cuts);
    assert source[..|source|] == source;
    r := Chunks(fragments);
    if Monotone(measure) {
      NothingDear(measure, budget, source, fragments, cuts);
      forall other | FittingSplit(measure, budget, source, other) ensures |fragments| <= |other| {
        GreedyIsLeast(measure, budget, source, fragments, cuts, other);
      }
    }
  }
}

// How much recent history survives a compaction verbatim (backend/agent/compaction_select.py).
module CompactionSelect {
  import opened Common

  const MIN_PRESERVE_RECENT_TOKENS := 8_000
  const MAX_PRESERVE_RECENT_TOKENS := 60_000

  datatype Message = Message(id: string, user: bool, compaction: bool)

  datatype Turn = Turn(start: nat, end: nat, id: string)

  datatype Selection = Selection(head: seq<Message>, tailStart: Option<string>)

  type Meter = seq<Message> -> int

  // A quarter of the usable window between fixed bounds, unless configured.
  function PreserveRecentBudget(usable: int, configured: Option<int>): (budget: int)
    ensures configured.Some? ==> budget == Max(0, configured.value)
    ensures configured.None? && usable < 4 * MIN_PRESERVE_RECENT_TOKENS ==> budget == MIN_PRESERVE_RECENT_TOKENS
    ensures configured.None? && usable > 4 * MAX_PRESERVE_RECENT_TOKENS ==> budget == MAX_PRESERVE_RECENT_TOKENS
    ensures configured.None? ==> MIN_PRESERVE_RECENT_TOKENS <= budget <= MAX_PRESERVE_RECENT_TOKENS
    ensures configured.None? && 4 * MIN_PRESERVE_RECENT_TOKENS <= usable <= 4 * MAX_PRESERVE_RECENT_TOKENS ==>
              4 * budget <= usable < 4 * budget + 4
  {
    if configured.Some? then Max(0, configured.value)
    else Min(MAX_PRESERVE_RECENT_TOKENS, Max(MIN_PRESERVE_RECENT_TOKENS, usable / 4))
  }

  // A real user message opens a turn; a compaction request does not.
  predicate Opens(m: Message) { m.user && !m.compaction }

  // Where turns open, in order.
  function Openings(messages: seq<Message>): seq<nat> {
    if messages == [] then []
    else
      var n := |messages| - 1;
      Openings(messages[..n]) + if Opens(messages[n]) then [n] else []
  }

  lemma {:induction false} OpeningsSound(messages: seq<Message>)
    ensures forall k :: 0 <= k < |Openings(messages)| ==> Openings(messages)[k] < |messages|
    ensures forall j, k :: 0 <= j < k < |Openings(messages)| ==> Openings(messages)[j] < Openings(messages)[k]
  {
    if messages == [] {
    } else {
      OpeningsSound(messages[..|messages| - 1]);
    }
  }

  // A message opens a turn exactly when its position is listed.
  lemma {:induction false} OpeningsComplete(messages: seq<Message>, i: nat)
    requires i < |messages|
    ensures i in Openings(messages) <==> Opens(messages[i])
  {
    var n := |messages| - 1;
    OpeningsSound(messages[..n]);
    if i == n {
    } else {
      OpeningsComplete(messages[..n], i);
    }
  }

  // Turns partition everything from the first opening to the end of the history.
  predicate IsTurns(messages: seq<Message>, turns: seq<Turn>) {
    |turns| == |Openings(messages)| && forall k :: 0 <= k < |turns| ==> IsTurn(messages, k, turns[k])
  }

  predicate IsTurn(messages: seq<Message>, k: nat, turn: Turn) {
    && k < |Openings(messages)|
    && turn.start == Openings(messages)[k]
    && turn.start < |messages|
    && turn.id == messages[turn.start].id
    && turn.end == if k + 1 < |Openings(messages)| then Openings(messages)[k + 1] else |messages|
  }

  // Each turn ends where the next one starts, the last at the end of the history.
  predicate Contiguous(turns: seq<Turn>, length: nat) {
    && (forall k :: 0 <= k < |turns| ==> EndsWell(turns, length, k))
    && (forall j, k :: 0 <= j <= k < |turns| ==> turns[j].start <= turns[k].start)
  }

  predicate EndsWell(turns: seq<Turn>, length: nat, k: nat)
    requires k < |turns|
  {
    turns[k].start < turns[k].end == (if k + 1 < |turns| then turns[k + 1].start else length) <= length
  }

  lemma TurnsAreContiguous(messages: seq<Message>, turns: seq<Turn>)
    requires IsTurns(messages, turns)
    ensures Contiguous(turns, |messages|)
  {
    OpeningsSound(messages);
    forall k | 0 <= k < |turns| ensures EndsWell(turns, |messages|, k) {
      assert IsTurn(messages, k, turns[k]);
      if k + 1 < |turns| {
        assert IsTurn(messages, k + 1, turns[k + 1]);
      }
    }
    forall j, k | 0 <= j <= k < |turns| ensures turns[j].start <= turns[k].start {
      assert IsTurn(messages, j, turns[j]) && IsTurn(messages, k, turns[k]);
    }
  }

  method Turns(messages: seq<Message>) returns (result: seq<Turn>)
    ensures IsTurns(messages, result)
  {
    result := [];
    for i := 0 to |messages|
      invariant |result| == |Openings(messages[..i])|
      invariant forall k :: 0 <= k < |result| ==>
                  && result[k].start == Openings(messages[..i])[k] < |messages|
                  && result[k].end == |messages| && result[k].id == messages[result[k].start].id
    {
      assert messages[..i + 1][..i] == messages[..i];
      if !Opens(messages[i]) { continue; }
      result := result + [Turn(i, |messages|, messages[i].id)];
    }
    assert messages[..|messages|] == messages;
    if result == [] { return; }
    for i := 0 to |result| - 1
      invariant |result| == |Openings(messages)|
      invariant forall k :: 0 <= k < |result| ==>
                  && result[k].start == Openings(messages)[k] < |messages|
                  && result[k].id == messages[result[k].start].id
      invariant forall k :: i <= k < |result| ==> result[k].end == |messages|
      invariant forall k :: 0 <= k < i ==> result[k].end == Openings(messages)[k + 1]
    {
      result := result[i := result[i].(end := result[i + 1].start)];
    }
  }

  // The earliest split strictly inside the turn whose rest fits.
  method SplitTurn(messages: seq<Message>, turn: Turn, budget: int, measure: Meter) returns (split: Option<nat>)
    requires turn.start < turn.end <= |messages|
    ensures split.Some? ==>
              turn.start < split.value < turn.end && budget > 0 && measure(messages[split.value..turn.end]) <= budget
    ensures forall k :: turn.start < k < (if split.Some? then split.value else turn.end) && budget > 0 ==>
                          measure(messages[k..turn.end]) > budget
  {
    if budget <= 0 || turn.end - turn.start <= 1 { return None; }
    for start := turn.start + 1 to turn.end
      invariant forall k :: turn.start < k < start ==> measure(messages[k..turn.end]) > budget
    {
      if measure(messages[start..turn.end]) <= budget { return Some(start); }
    }
    return None;
  }

  // A meter that prices a concatenation as the sum of its parts and every message above nothing.
  ghost predicate StrictlyAdditive(measure: Meter) {
    forall a, b :: AddsUp(measure, a, b)
  }

  predicate AddsUp(measure: Meter, a: seq<Message>, b: seq<Message>) {
    measure(a + b) == measure(a) + measure(b) && (a != [] ==> measure(a) > 0)
  }

  // The first message a tail may start at: the opening of the tailTurns-th turn from the end.
  function FirstEligible(messages: seq<Message>, tailTurns: Option<int>): Option<nat> {
    var opens := Openings(messages);
    if opens == [] || (tailTurns.Some? && tailTurns.value <= 0) then None
    else if tailTurns.None? || tailTurns.value > |opens| then Some(opens[0])
    else Some(opens[|opens| - tailTurns.value])
  }

  // A tail messages[k..] that may be kept and fits.
  predicate Keepable(messages: seq<Message>, first: nat, budget: int, measure: Meter, k: int) {
    first <= k < |messages| && measure(messages[k..]) <= budget
  }

  // The tail from c on is the longest keepable one; c is the end of the history when none is keepable.
  ghost predicate Longest(messages: seq<Message>, first: nat, budget: int, measure: Meter, c: int) {
    && first <= c <= |messages|
    && (c < |messages| ==> Keepable(messages, first, budget, measure, c))
    && (forall k :: Keepable(messages, first, budget, measure, k) ==> c <= k)
  }

  lemma SplitMeasure(messages: seq<Message>, measure: Meter, a: nat, b: nat)
    requires StrictlyAdditive(measure) && a <= b <= |messages|
    ensures measure(messages[a..]) == measure(messages[a..b]) + measure(messages[b..])
    ensures a < b ==> measure(messages[a..]) > measure(messages[b..])
  {
    assert AddsUp(measure, messages[a..b], messages[b..]);
    assert messages[a..] == messages[a..b] + messages[b..];
  }

  lemma NothingCostsNothing(messages: seq<Message>, measure: Meter)
    requires StrictlyAdditive(measure)
    ensures measure(messages[|messages|..]) == 0
  {
    assert AddsUp(measure, [], []);
    assert messages[|messages|..] == [] + [];
  }

  // Head followed by the kept tail is the history; for a strictly positive additive meter the tail is the
  // longest keepable one, and there is none exactly when none is keepable or the longest is everything.
  method Select(messages: seq<Message>, usable: int, configured: Option<int>, tailTurns: Option<int>, measure: Meter)
    returns (s: Selection)
    ensures s.head <= messages
    ensures s.tailStart.None? ==> s.head == messages
    ensures s.tailStart.Some? ==>
              0 < |s.head| < |messages| && s.tailStart == Some(messages[|s.head|].id) &&
              messages == s.head + messages[|s.head|..]
    ensures FirstEligible(messages, tailTurns).None? ==> s.tailStart.None?
    ensures StrictlyAdditive(measure) && FirstEligible(messages, tailTurns).Some? ==>
              var first, budget := FirstEligible(messages, tailTurns).value, PreserveRecentBudget(usable, configured);
              && (s.tailStart.Some? ==> Longest(messages, first, budget, measure, |s.head|))
              && (s.tailStart.None? <==>
                    (forall k :: !Keepable(messages, first, budget, measure, k)) ||
                    Keepable(messages, first, budget, measure, 0))
  {
    if tailTurns.Some? && tailTurns.value <= 0 { return Selection(messages, None); }
    var budget := PreserveRecentBudget(usable, configured);
    var all := Turns(messages);
    if all == [] { return Selection(messages, None); }
    var skip := if tailTurns.None? || tailTurns.value > |all| then 0 else |all| - tailTurns.value;
    TurnsAreContiguous(messages, all);
    assert IsTurn(messages, skip, all[skip]);
    var keep := TailStart(messages, all, skip, budget, measure);
    if keep.None? || keep.value == 0 {
      return Selection(messages, None);
    }
    s := Selection(messages[..keep.value], Some(messages[keep.value].id));
  }

  // The backward walk of select: whole turns from the newest on, then as much of the next as fits.
  method TailStart(messages: seq<Message>, all: seq<Turn>, skip: nat, budget: int, measure: Meter)
    returns (keep: Option<nat>)
    requires Contiguous(all, |messages|) && skip < |all| && budget >= 0
    ensures keep.Some? ==> all[skip].start <= keep.value < |messages|
    ensures StrictlyAdditive(measure) ==> Longest(messages, all[skip].start, budget, measure, CutOf(messages, keep))
  {
    ghost var first := all[skip].start;
    assert EndsWell(all, |messages|, skip);
    if StrictlyAdditive(measure) { NothingCostsNothing(messages, measure); }
    var total, i := 0, |all|;
    keep := None;
    while i > skip
      invariant skip <= i <= |all| && first <= CutOf(messages, keep) <= |messages|
      invariant keep.Some? ==> keep.value < |messages|
      invariant CutOf(messages, keep) == if i < |all| then all[i].start else |messages|
      invariant StrictlyAdditive(measure) ==> total == measure(messages[CutOf(messages, keep)..]) <= budget
    {
      var turn := all[i - 1];
      assert EndsWell(all, |messages|, i - 1);
      var size := measure(messages[turn.start..turn.end]);
      if StrictlyAdditive(measure) { SplitMeasure(messages, measure, turn.start, turn.end); }
      if total + size <= budget {
        total := total + size;
        keep := Some(turn.start);
        i := i - 1;
        continue;
      }
      var split := SplitTurn(messages, turn, budget - total, measure);
      if StrictlyAdditive(measure) {
        NothingEarlier(messages, first, budget, measure, turn, total, split);
      }
      return if split.Some? then split else keep;
    }
  }

  // Where the kept tail starts so far.
  function CutOf(messages: seq<Message>, keep: Option<nat>): int {
    if keep.Some? then keep.value else |messages|
  }

  // When a turn does not fit whole, the split (or the turn's end) is the earliest keepable start.
  lemma NothingEarlier(messages: seq<Message>, first: nat, budget: int, measure: Meter, turn: Turn, total: int,
                       split: Option<nat>)
    requires StrictlyAdditive(measure) && first <= turn.start < turn.end <= |messages|
    requires total <= budget
    requires total == measure(messages[turn.end..]) && total + measure(messages[turn.start..turn.end]) > budget
    requires split.Some? ==>
               turn.start < split.value < turn.end && measure(messages[split.value..turn.end]) <= budget - total
    requires forall k :: turn.start < k < (if split.Some? then split.value else turn.end) && budget - total > 0 ==>
                           measure(messages[k..turn.end]) > budget - total
    ensures Longest(messages, first, budget, measure, if split.Some? then split.value else turn.end)
  {
    if split.Some? {
      SplitMeasure(messages, measure, split.value, turn.end);
    }
    forall k | Keepable(messages, first, budget, measure, k)
      ensures (if split.Some? then split.value else turn.end) <= k
    {
      if k < turn.end {
        SplitMeasure(messages, measure, k, turn.end);
        SplitMeasure(messages, measure, turn.start, turn.end);
        if k <= turn.start {
          SplitMeasure(messages, measure, k, turn.start);
        }
        assert messages[k..turn.end] != [];
      }
    }
  }
}
