// What every interleaving of driver transactions keeps: any number of workers, stale leases,
// crashes (a worker simply stops issuing operations) and clock advances.
module DriverRuns {
  import opened Common
  import opened Driver

  datatype Op =
    | OpReserve(s: string, user: string, run: Option<RunId>, uuid: RunId, worker: string,
                trigger: Option<MessageId>, phase: Phase, runnable: bool, linked: bool)
    | OpTakeover(record: RecoveredDriver, uuid: RunId, worker: string, phase: Phase, runnable: bool)
    | OpHandoff(s: string, user: string, settledRun: string, settledGeneration: nat, uuid: RunId, worker: string)
    | OpRenew(l: RunLease)
    | OpSetPhase(l: RunLease, phase: Phase)
    | OpBindTrigger(l: RunLease, message: MessageId)
    | OpBindLocked(s: string, user: string, bound: RunId, generation: nat, message: MessageId)
    | OpRelease(l: RunLease)
    | OpPreserve(l: RunLease)
    | OpAbort(s: string, user: string, exact: Option<(RunId, nat)>)
    | OpWrite(s: string, user: string, writer: RunId, generation: nat)  // a transcript write behind the fence
    | OpTick(seconds: nat)
    | OpCreate(s: string, user: string)  // a session is created under an unused id ...
    | OpDelete(s: string, user: string)  // ... and softly deleted by its owner; neither is ever undone

  function Step(w: World, op: Op): World {
    match op
    case OpReserve(s, user, run, uuid, worker, trigger, phase, runnable, linked) =>
      Reserve(w, s, user, run, uuid, worker, trigger, phase, runnable, linked).w
    case OpTakeover(record, uuid, worker, phase, runnable) => Takeover(w, record, uuid, worker, phase, runnable).w
    case OpHandoff(s, user, settledRun, settledGeneration, uuid, worker) =>
      SettlementHandoff(w, s, user, settledRun, settledGeneration, uuid, worker).w
    case OpRenew(l) => Renew(w, l).w
    case OpSetPhase(l, phase) => SetPhase(w, l, phase).w
    case OpBindTrigger(l, message) => BindTrigger(w, l, message).w
    case OpBindLocked(s, user, bound, generation, message) =>
      BindTriggerLocked(w, s, user, bound, generation, message).w
    case OpRelease(l) => Release(w, l).w
    case OpPreserve(l) => PreserveForRecovery(w, l).w
    case OpAbort(s, user, exact) => RequestAbort(w, s, user, exact).w
    case OpWrite(s, user, writer, generation) => w
    case OpTick(seconds) => w.(now := w.now + seconds)
    case OpCreate(s, user) => if s in w.sessions then w else w.(sessions := w.sessions[s := SessionRow(user, false)])
    case OpDelete(s, user) =>
      if OwnedSession(w, s, user) then w.(sessions := w.sessions[s := w.sessions[s].(deleted := true)]) else w
  }

  function Run(w: World, ops: seq<Op>): World
    decreases |ops|
  {
    if ops == [] then w else Run(Step(w, ops[0]), ops[1..])
  }

  function Init(limit: int, now: Time): World {
    World(limit, now, map[], map[])
  }

  // ---- quota

  // Live generations of a user that were admitted against the quota.
  function Counted(w: World, user: string): set<string> {
    set s | s in LiveSessions(w, user) && !w.rows[s].handoff
  }

  function LiveSettlements(w: World, user: string): set<string> {
    set s | s in LiveSessions(w, user) && w.rows[s].handoff
  }

  ghost predicate WithinQuota(w: World) {
    forall user :: |Counted(w, user)| <= Max(w.limit, 0)
  }

  // A step either admits one session for one user, after counting, or only shrinks what is counted.
  lemma StepCounts(w: World, op: Op, user: string)
    ensures Step(w, op).limit == w.limit
    ensures Counted(Step(w, op), user) <= Counted(w, user) ||
            (|LiveSessions(w, user)| < w.limit &&
             exists s :: Counted(Step(w, op), user) <= Counted(w, user) + {s})
  {
    var w' := Step(w, op);
    if op.OpReserve? && w'.rows != w.rows {
      assert Counted(w', user) <= Counted(w, user) + {op.s};
    } else if op.OpTakeover? && w'.rows != w.rows {
      assert Counted(w', user) <= Counted(w, user) + {op.record.session};
    } else {
      assert Counted(w', user) <= Counted(w, user);
    }
  }

  lemma StepKeepsQuota(w: World, op: Op)
    requires WithinQuota(w)
    ensures WithinQuota(Step(w, op))
  {
    var w' := Step(w, op);
    forall user ensures |Counted(w', user)| <= Max(w'.limit, 0) {
      StepCounts(w, op, user);
      if Counted(w', user) <= Counted(w, user) {
        SubsetCardinality(Counted(w', user), Counted(w, user));
      } else {
        var s :| Counted(w', user) <= Counted(w, user) + {s};
        SubsetCardinality(Counted(w', user), Counted(w, user) + {s});
        SubsetCardinality(Counted(w, user), LiveSessions(w, user));
      }
    }
  }

  lemma {:induction false} RunKeepsQuota(w: World, ops: seq<Op>)
    requires WithinQuota(w)
    ensures WithinQuota(Run(w, ops)) && Run(w, ops).limit == w.limit
    decreases |ops|
  {
    if ops == [] {
    } else {
      StepKeepsQuota(w, ops[0]);
      StepCounts(w, ops[0], "");
      RunKeepsQuota(Step(w, ops[0]), ops[1..]);
    }
  }

  // For every user and every run: quota-admitted live generations never exceed the limit, so the
  // total exceeds it by at most the number of live settlement hand-offs.
  lemma QuotaHolds(limit: int, now: Time, ops: seq<Op>, user: string)
    ensures |Counted(Run(Init(limit, now), ops), user)| <= Max(limit, 0)
    ensures |LiveSessions(Run(Init(limit, now), ops), user)| <=
            Max(limit, 0) + |LiveSettlements(Run(Init(limit, now), ops), user)|
  {
    var w := Run(Init(limit, now), ops);
    assert forall u :: Counted(Init(limit, now), u) == {};
    RunKeepsQuota(Init(limit, now), ops);
    assert LiveSessions(w, user) == Counted(w, user) + LiveSettlements(w, user);
    assert Counted(w, user) !! LiveSettlements(w, user);
  }

  // ---- generations and the write fence

  function GenerationOf(w: World, s: string): nat {
    if s in w.rows then w.rows[s].generation else 0
  }

  // The generations of the accepted fenced writes of one session, in order.
  function FencedGenerations(w: World, ops: seq<Op>, s: string): seq<nat>
    decreases |ops|
  {
    if ops == [] then []
    else
      var rest := FencedGenerations(Step(w, ops[0]), ops[1..], s);
      if ops[0].OpWrite? && ops[0].s == s && Fence(w, s, ops[0].user, ops[0].writer, ops[0].generation)
      then [ops[0].generation] + rest
      else rest
  }

  // This generation has been replaced, or it is the row's own and no longer live.
  predicate Dead(w: World, s: string, generation: nat) {
    s in w.rows &&
    (w.rows[s].generation > generation || (w.rows[s].generation == generation && !Live(w.rows[s], w.now)))
  }

  // One step: generations never go down, a generation that is live after the step was live before it
  // under the same run and user, and only a new generation can bring a dead row back to life.
  lemma StepFencing(w: World, op: Op, s: string)
    ensures GenerationOf(w, s) <= GenerationOf(Step(w, op), s) <= GenerationOf(w, s) + 1
    ensures s in w.rows ==> s in Step(w, op).rows
    ensures s in w.rows && Step(w, op).rows[s].generation == w.rows[s].generation &&
            Live(Step(w, op).rows[s], Step(w, op).now) ==>
              && Live(w.rows[s], w.now)
              && Step(w, op).rows[s].run == w.rows[s].run
              && Step(w, op).rows[s].user == w.rows[s].user
  {
  }

  lemma {:induction false} DeadForever(w: World, ops: seq<Op>, s: string, generation: nat)
    requires Dead(w, s, generation)
    ensures Dead(Run(w, ops), s, generation)
    ensures generation !in FencedGenerations(w, ops, s)
    decreases |ops|
  {
    if ops == [] {
    } else {
      StepFencing(w, ops[0], s);
      DeadForever(Step(w, ops[0]), ops[1..], s, generation);
    }
  }

  predicate NonDecreasing(g: seq<nat>) {
    forall i, j :: 0 <= i < j < |g| ==> g[i] <= g[j]
  }

  // Accepted fenced writes of a session carry a non-decreasing sequence of generations.
  lemma {:induction false} FencedWritesNeverGoBack(w: World, ops: seq<Op>, s: string)
    ensures NonDecreasing(FencedGenerations(w, ops, s))
    ensures forall g :: g in FencedGenerations(w, ops, s) ==> GenerationOf(w, s) <= g <= GenerationOf(Run(w, ops), s)
    ensures GenerationOf(w, s) <= GenerationOf(Run(w, ops), s)
    decreases |ops|
  {
    if ops == [] {
    } else {
      StepFencing(w, ops[0], s);
      FencedWritesNeverGoBack(Step(w, ops[0]), ops[1..], s);
      var rest := FencedGenerations(Step(w, ops[0]), ops[1..], s);
      assert forall i :: 0 <= i < |rest| ==> rest[i] in rest;
    }
  }

  // At one moment the fence admits one (user, run, generation); once a later generation's write was
  // accepted, no write of an earlier one ever is.
  lemma OneWriterAtATime(w: World, ops: seq<Op>, s: string, user: string, run: RunId, generation: nat,
                         user': string, run': RunId, generation': nat)
    requires Fence(w, s, user, run, generation)
    ensures Fence(w, s, user', run', generation') ==> (user', run', generation') == (user, run, generation)
    ensures generation' < generation ==> generation' !in FencedGenerations(w, ops, s)
  {
    if generation' < generation {
      DeadForever(w, ops, s, generation');
    }
  }

  // Interruption bookkeeping is serialised with the run it describes: if the settlement hand-off of a
  // released generation is still granted, no generation wrote anything in between.
  lemma HandoffSeesNoReplacement(w: World, l: RunLease, ops: seq<Op>, uuid: RunId, worker: string)
    requires Release(w, l).out == Done
    requires SettlementHandoff(Run(Release(w, l).w, ops), l.session, l.user, l.run, l.generation, uuid, worker).out ==
             Done
    ensures FencedGenerations(Release(w, l).w, ops, l.session) == []
    ensures GenerationOf(Run(Release(w, l).w, ops), l.session) == l.generation
  {
    var released := Release(w, l).w;
    var writes := FencedGenerations(released, ops, l.session);
    DeadForever(released, ops, l.session, l.generation);
    FencedWritesNeverGoBack(released, ops, l.session);
    SomeElement(writes);
  }

  // ---- shape of reachable rows: a non-idle row always has a lease, never longer than a full one

  ghost predicate Shaped(w: World) {
    && (forall s :: s in w.rows && w.rows[s].phase != Idle ==>
          w.rows[s].lease.Some? && w.rows[s].lease.value <= w.now + LEASE_SECONDS)
    && (w.rows.Keys != {} ==> w.limit >= 1)
  }

  lemma StepKeepsShape(w: World, op: Op)
    requires Shaped(w)
    ensures Shaped(Step(w, op))
  {
    if op.OpHandoff? {
      assert op.s in w.rows ==> w.rows.Keys != {};
    }
  }

  // A driver row belongs to the owner of its session.
  ghost predicate RowsOwned(w: World) {
    forall s :: s in w.rows ==> OwnedSession(w, s, w.rows[s].user)
  }

  lemma StepKeepsOwned(w: World, op: Op)
    requires RowsOwned(w)
    ensures RowsOwned(Step(w, op))
  {
    forall s | s in Step(w, op).rows ensures OwnedSession(Step(w, op), s, Step(w, op).rows[s].user) {
      SessionsLast(w, op, s);
    }
  }

  // A session keeps its owner for ever, and a deleted one stays deleted.
  lemma SessionsLast(w: World, op: Op, s: string)
    ensures s in w.sessions ==>
              && s in Step(w, op).sessions && Step(w, op).sessions[s].user == w.sessions[s].user
              && (w.sessions[s].deleted ==> Step(w, op).sessions[s].deleted)
  {
  }

  // ---- the recovery marker

  predicate SameMarker(before: World, after: World, s: string)
    requires s in before.rows
  {
    && s in after.rows
    && RecordOf(s, after.rows[s]) == RecordOf(s, before.rows[s])
    && after.rows[s].owner == before.rows[s].owner
    && Expired(after.rows[s], after.now)
  }

  // The step that replaces a marker: an exact takeover, to the next generation, keeping the trigger.
  predicate ExactTakeover(before: World, op: Op, after: World, s: string)
    requires s in before.rows
  {
    && op.OpTakeover?
    && op.record == RecordOf(s, before.rows[s])
    && s in after.rows
    && after.rows[s].generation == before.rows[s].generation + 1
    && after.rows[s].trigger == before.rows[s].trigger
    && after.rows[s].user == before.rows[s].user
    && Live(after.rows[s], after.now)
  }

  lemma MarkerStep(w: World, op: Op, s: string)
    requires s in w.rows && Expired(w.rows[s], w.now)
    ensures SameMarker(w, Step(w, op), s) || ExactTakeover(w, op, Step(w, op), s)
  {
  }

  // An expired generation's marker survives every prompt, every stale owner call and every clock
  // advance; the only way it ever leaves is an exact takeover that carries its trigger over.
  lemma {:induction false} MarkerLeavesOnlyByTakeover(w: World, ops: seq<Op>, s: string)
    requires s in w.rows && Expired(w.rows[s], w.now)
    ensures SameMarker(w, Run(w, ops), s) ||
            exists i :: 0 <= i < |ops| && SameMarker(w, Run(w, ops[..i]), s) &&
                        ExactTakeover(w, ops[i], Run(w, ops[..i + 1]), s)
    decreases |ops|
  {
    if ops == [] {
    } else {
      var w' := Step(w, ops[0]);
      MarkerStep(w, ops[0], s);
      if SameMarker(w, w', s) {
        MarkerLeavesOnlyByTakeover(w', ops[1..], s);
        if !SameMarker(w', Run(w', ops[1..]), s) {
          var i :| 0 <= i < |ops[1..]| && SameMarker(w', Run(w', ops[1..][..i]), s) &&
                   ExactTakeover(w', ops[1..][i], Run(w', ops[1..][..i + 1]), s);
          assert ops[..i + 1][1..] == ops[1..][..i] && ops[..i + 2][1..] == ops[1..][..i + 1];
          assert SameMarker(w, Run(w, ops[..i + 1]), s) && ExactTakeover(w, ops[i + 1], Run(w, ops[..i + 2]), s);
        }
      } else {
        assert ops[..0] == [] && ops[..1][1..] == [] && ops[..1][0] == ops[0];
        assert SameMarker(w, Run(w, ops[..0]), s) && ExactTakeover(w, ops[0], Run(w, ops[..0 + 1]), s);
      }
    }
  }
}
