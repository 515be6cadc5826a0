// Small vocabulary shared by every protocol of the agent backend.
module Common {
  datatype Option<+T> = None | Some(value: T)

  // A run identity is never the empty string: every producer falls back to a fresh UUID.
  type RunId = s: string | s != "" witness "run"

  // "message_<n>" identifiers come from one ascending generator; only their ordinal matters.
  type MessageId = nat

  // The database clock, in its own ticks of one second.
  type Time = int

  function Max(a: int, b: int): int { if a < b then b else a }

  function Min(a: int, b: int): int { if a < b then a else b }

  // A subset of a finite set has no more elements than the set.
  lemma {:induction false} SubsetCardinality<T>(a: set<T>, b: set<T>)
    requires a <= b
    ensures |a| <= |b|
    decreases a
  {
    if a == {} {
    } else {
      var x :| x in a;
      SubsetCardinality(a - {x}, b - {x});
    }
  }

  lemma SomeElement<T>(s: seq<T>)
    ensures s == [] || exists x :: x in s
  {
    if s != [] {
      assert s[0] in s;
    }
  }

  // The integers lo..hi-1.
  function Range(lo: int, hi: int): (r: set<int>)
    ensures forall x :: x in r <==> lo <= x < hi
    ensures |r| == if lo < hi then hi - lo else 0
    decreases hi - lo
  {
    if lo < hi then Range(lo, hi - 1) + {hi - 1} else {}
  }
}
