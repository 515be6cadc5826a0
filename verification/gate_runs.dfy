// What every run of gate commands and operations keeps. Handles and command ids are arbitrary: a
// caller may replay, race or invent them.
module GateRuns {
  import opened Common
  import opened ResourceGate

  datatype Op =
    | OpCommand(action: Action, fence: Fence, id: string, journal: string)
    | OpAdvance(fence: Fence, next: Fence, id: string, journal: string)
    | OpAdmit(entry: Option<Fence>, parent: Option<string>, step: Option<string>, journal: string, digest: string,
              generated: string, claim: string)
    | OpCheckpoint(h: Handle)
    | OpFinish(h: Handle, canceled: bool)

  function Step(g: Gate, op: Op): Gate {
    match op
    case OpCommand(action, fence, id, journal) => Command(g, action, fence, id, journal).gate
    case OpAdvance(fence, next, id, journal) => Advance(g, fence, next, id, journal).gate
    case OpAdmit(entry, parent, step, journal, digest, generated, claim) =>
      Admit(g, entry, parent, step, journal, digest, generated, claim).gate
    case OpCheckpoint(h) => Checkpoint(g, h).gate
    case OpFinish(h, canceled) => Finish(g, h, canceled)
  }

  function Run(g: Gate, ops: seq<Op>): Gate
    decreases |ops|
  {
    if ops == [] then g else Run(Step(g, ops[0]), ops[1..])
  }

  function Init(journal: string): Gate {
    Gate(journal, None, map[], map[])
  }

  // ---- ownership: who may ever have been admitted

  // Automation owns the odd epochs.
  predicate EpochOk(f: Fence) {
    f.kind == Automation <==> f.epoch % 2 == 1
  }

  // The gate was first bound by fence `initial`, which every fenced operation in the journal carries.
  predicate BoundBy(g: Gate, initial: Fence) {
    && g.control.Some?
    && initial.epoch == 1 && initial.kind == Automation
    && initial.resource == g.control.value.fence.resource
    && EpochOk(g.control.value.fence)
    && (g.control.value.open ==> g.control.value.fence == initial)
    && HistoryMatches(g, initial)
  }

  lemma {:induction false} BoundForever(g: Gate, ops: seq<Op>, initial: Fence)
    requires BoundBy(g, initial)
    ensures BoundBy(Run(g, ops), initial)
    decreases |ops|
  {
    if ops == [] {
    } else {
      assert BoundBy(Step(g, ops[0]), initial);
      BoundForever(Step(g, ops[0]), ops[1..], initial);
    }
  }

  // Reachable gates: `open` implies epoch 1 owned by automation, the owner is automation exactly on odd
  // epochs, and every fenced operation ever journaled carries the one initial fence.
  lemma {:induction false} ReachableOwnership(g: Gate, ops: seq<Op>)
    requires g.control.Some? ==> exists initial :: BoundBy(g, initial)
    ensures Run(g, ops).control.Some? ==> exists initial :: BoundBy(Run(g, ops), initial)
    decreases |ops|
  {
    if ops == [] {
    } else {
      var g' := Step(g, ops[0]);
      if g'.control.Some? {
        if g.control.Some? {
          var initial :| BoundBy(g, initial);
          assert BoundBy(g', initial);
        } else {
          assert BoundBy(g', g'.control.value.fence);
        }
      }
      ReachableOwnership(g', ops[1..]);
    }
  }

  lemma OpenMeansFirstAutomationEpoch(journal: string, ops: seq<Op>)
    ensures var g := Run(Init(journal), ops);
            g.control.Some? ==>
              && EpochOk(g.control.value.fence)
              && (g.control.value.open ==> g.control.value.fence.epoch == 1 && g.control.value.fence.kind == Automation)
              && (forall a, b ::
                    (a in g.operations && b in g.operations && g.operations[a].fence.Some? &&
                     g.operations[b].fence.Some?) ==>
                    g.operations[a].fence == g.operations[b].fence)
  {
    ReachableOwnership(Init(journal), ops);
  }

  // ---- closing is for ever

  predicate Closed(g: Gate) {
    g.control.Some? && !g.control.value.open
  }

  // Once closed, admission never reopens: no operation, earlier or later, is admitted or passes a
  // checkpoint again, whatever fence, claim or id it presents, including after any epoch advance.
  lemma {:induction false} ClosedForever(g: Gate, ops: seq<Op>, h: Handle, fence: Option<Fence>, parent: Option<string>,
                                         step: Option<string>, digest: string, generated: string, claim: string)
    requires Closed(g)
    ensures Closed(Run(g, ops))
    ensures Checkpoint(Run(g, ops), h).result.Refused?
    ensures Admit(Run(g, ops), fence, parent, step, h.journal, digest, generated, claim).result.Refused?
    decreases |ops|
  {
    if ops == [] {
    } else {
      ClosedForever(Step(g, ops[0]), ops[1..], h, fence, parent, step, digest, generated, claim);
    }
  }

  // ---- epochs

  function EpochOf(g: Gate): int {
    if g.control.Some? then g.control.value.fence.epoch else 0
  }

  // Once bound, the epoch moves by exactly one, only by an advance, only while closed and with every
  // journaled operation confirmed terminal.
  lemma EpochStep(g: Gate, op: Op)
    ensures EpochOf(Step(g, op)) != EpochOf(g) ==>
              || (g.control.None? && op.OpCommand? && EpochOf(Step(g, op)) == 1)
              || (op.OpAdvance? && Closed(g) && Blocking(g) == {} && EpochOf(Step(g, op)) == EpochOf(g) + 1)
  {
  }

  // An operation that is not confirmed terminal, and that nobody confirms, pins the epoch.
  predicate Pinned(g: Gate, id: string) {
    g.control.Some? && id in g.operations && !Settled(g.operations[id].state)
  }

  predicate ConfirmsNot(op: Op, id: string, claim: string) {
    op.OpFinish? ==> op.h.id != id || op.h.claim != claim
  }

  lemma {:induction false} InFlightPinsEpoch(g: Gate, ops: seq<Op>, id: string)
    requires Pinned(g, id)
    requires forall i :: 0 <= i < |ops| ==> ConfirmsNot(ops[i], id, g.operations[id].claim)
    ensures Pinned(Run(g, ops), id) && EpochOf(Run(g, ops)) == EpochOf(g)
    ensures Run(g, ops).operations[id].claim == g.operations[id].claim
    decreases |ops|
  {
    if ops == [] {
    } else {
      var g' := Step(g, ops[0]);
      assert id in Blocking(g);
      assert ConfirmsNot(ops[0], id, g.operations[id].claim);
      assert Pinned(g', id) && g'.operations[id].claim == g.operations[id].claim;
      assert forall i :: 0 <= i < |ops[1..]| ==> ops[1..][i] == ops[i + 1];
      InFlightPinsEpoch(g', ops[1..], id);
    }
  }

  // An unknown outcome can never be confirmed, so it pins the epoch for ever.
  lemma {:induction false} UnknownPinsEpochForever(g: Gate, ops: seq<Op>, id: string)
    requires g.control.Some? && id in g.operations && g.operations[id].state == Unknown
    ensures id in Run(g, ops).operations && Run(g, ops).operations[id] == g.operations[id]
    ensures Run(g, ops).control.Some? && EpochOf(Run(g, ops)) == EpochOf(g)
    decreases |ops|
  {
    if ops == [] {
    } else {
      assert id in Blocking(g);
      UnknownPinsEpochForever(Step(g, ops[0]), ops[1..], id);
    }
  }

  // ---- commands are replayed, never repeated

  function Submit(g: Gate, id: string, payload: Payload): CommandReply {
    match payload
    case ControlPayload(action, fence, journal) => Command(g, action, fence, id, journal)
    case AdvancePayload(fence, next, journal) => Advance(g, fence, next, id, journal)
  }

  ghost predicate ReceiptsOk(g: Gate) {
    forall id :: id in g.commands ==> ReceiptOk(g, id)
  }

  predicate ReceiptOk(g: Gate, id: string)
    requires id in g.commands
  {
    && g.commands[id].command == id
    && g.commands[id].payload.journal == g.journal
    && (g.commands[id].payload.AdvancePayload? ==>
          var p := g.commands[id].payload;
          p.next.resource == p.fence.resource && p.next.epoch == p.fence.epoch + 1 && p.next.kind != p.fence.kind)
  }

  lemma StepKeepsReceipt(g: Gate, op: Op, id: string)
    requires id in g.commands ==> ReceiptOk(g, id)
    ensures Step(g, op).journal == g.journal
    ensures id in g.commands ==> id in Step(g, op).commands && Step(g, op).commands[id] == g.commands[id]
    ensures id in Step(g, op).commands ==> ReceiptOk(Step(g, op), id)
  {
  }

  lemma {:induction false} RunKeepsReceipts(g: Gate, ops: seq<Op>)
    requires ReceiptsOk(g)
    ensures ReceiptsOk(Run(g, ops)) && Run(g, ops).journal == g.journal
    ensures forall id :: id in g.commands ==> id in Run(g, ops).commands && Run(g, ops).commands[id] == g.commands[id]
    decreases |ops|
  {
    if ops == [] {
    } else {
      forall id ensures (id in g.commands ==>
                         id in Step(g, ops[0]).commands && Step(g, ops[0]).commands[id] == g.commands[id])
                && (id in Step(g, ops[0]).commands ==> ReceiptOk(Step(g, ops[0]), id))
      {
        StepKeepsReceipt(g, ops[0], id);
      }
      StepKeepsReceipt(g, ops[0], "");
      RunKeepsReceipts(Step(g, ops[0]), ops[1..]);
    }
  }

  // A command that once succeeded gets the same receipt for ever, changing nothing, even after later
  // closes and epoch advances; the same id with any other payload is refused without effect.
  lemma CommandsReplay(journal: string, before: seq<Op>, after: seq<Op>, id: string, payload: Payload, other: Payload)
    requires Submit(Run(Init(journal), before), id, payload).result.Ok?
    requires other != payload
    ensures var first := Submit(Run(Init(journal), before), id, payload);
            var later := Run(first.gate, after);
            && Submit(later, id, payload) == CommandReply(later, first.result)
            && Submit(later, id, other).result.Refused? && Submit(later, id, other).gate == later
  {
    var g := Run(Init(journal), before);
    RunKeepsReceipts(Init(journal), before);
    var first := Submit(g, id, payload);
    SubmitRecords(g, id, payload);
    RunKeepsReceipts(first.gate, after);
    RecordedReplays(Run(first.gate, after), id, other);
    RecordedReplays(Run(first.gate, after), id, payload);
  }

  // A granted command is recorded under its id with its own payload.
  lemma SubmitRecords(g: Gate, id: string, payload: Payload)
    requires ReceiptsOk(g) && Submit(g, id, payload).result.Ok?
    ensures var first := Submit(g, id, payload);
            && ReceiptsOk(first.gate) && id in first.gate.commands
            && first.gate.commands[id] == first.result.value && first.result.value.payload == payload
  {
    forall k | k in Submit(g, id, payload).gate.commands ensures ReceiptOk(Submit(g, id, payload).gate, k) {
      assert k in g.commands ==> ReceiptOk(g, k);
    }
  }

  lemma RecordedReplays(g: Gate, id: string, payload: Payload)
    requires ReceiptsOk(g) && id in g.commands
    ensures Submit(g, id, payload).gate == g
    ensures if g.commands[id].payload == payload then Submit(g, id, payload).result == Ok(g.commands[id])
            else Submit(g, id, payload).result.Refused?
  {
    assert ReceiptOk(g, id);
  }

  // ---- operations are admitted once

  // How often operation `id` is admitted in a run.
  function Admissions(g: Gate, ops: seq<Op>, id: string): nat
    decreases |ops|
  {
    if ops == [] then 0
    else
      var rest := Admissions(Step(g, ops[0]), ops[1..], id);
      var op := ops[0];
      if op.OpAdmit? then
        var r := Admit(g, op.entry, op.parent, op.step, op.journal, op.digest, op.generated, op.claim).result;
        if r.Ok? && r.value.id == id then rest + 1 else rest
      else rest
  }

  // Over the whole journal an operation id is admitted at most once, and never again once recorded.
  lemma {:induction false} AdmittedAtMostOnce(g: Gate, ops: seq<Op>, id: string)
    ensures Admissions(g, ops, id) <= 1
    ensures id in g.operations ==> Admissions(g, ops, id) == 0
    ensures id in g.operations ==>
              && id in Run(g, ops).operations
              && Run(g, ops).operations[id].(state := Admitted) == g.operations[id].(state := Admitted)
    decreases |ops|
  {
    if ops == [] {
    } else {
      AdmittedAtMostOnce(Step(g, ops[0]), ops[1..], id);
    }
  }
}

// The admit / checkpoint / finish bracket every HTTP request and socket goes through.
module GateRequests {
  import opened Common
  import opened ResourceGate
  import GateRuns

  datatype Request =
    | Entered(h: Handle)    // admitted, first checkpoint not passed yet
    | InApp(h: Handle)      // the application body is running
    | Left(h: Handle, ran: bool)

  datatype System = System(gate: Gate, requests: map<string, Request>)

  datatype Op =
    | Command(op: GateRuns.Op)                             // bind, close or advance, by anyone
    | Enter(op: GateRuns.Op)                               // admit a request
    | Start(id: string)                                    // its first checkpoint
    | Check(id: string)                                    // a later checkpoint: socket traffic
    | Quiesce(id: string)                                  // the body declares itself quiescent
    | Leave(id: string)                                    // the finally block

  function Step(s: System, op: Op): System {
    match op
    case Command(c) =>
      if c.OpCommand? || c.OpAdvance? then s.(gate := GateRuns.Step(s.gate, c)) else s
    case Enter(a) =>
      if a.OpAdmit? then
        var r := Admit(s.gate, a.entry, a.parent, a.step, a.journal, a.digest, a.generated, a.claim);
        if r.result.Ok? then System(r.gate, s.requests[r.result.value.id := Entered(r.result.value)]) else s
      else s
    case Start(id) =>
      if id in s.requests && s.requests[id].Entered? then
        var r := Checkpoint(s.gate, s.requests[id].h);
        if r.result.Ok? then System(r.gate, s.requests[id := InApp(s.requests[id].h)]) else s
      else s
    case Check(id) =>
      if id in s.requests && s.requests[id].InApp? then s.(gate := Checkpoint(s.gate, s.requests[id].h).gate) else s
    case Quiesce(id) =>
      if id in s.requests && s.requests[id].InApp?
      then s.(requests := s.requests[id := InApp(s.requests[id].h.(quiescent := true))]) else s
    case Leave(id) =>
      if id in s.requests && !s.requests[id].Left? then
        var ran := s.requests[id].InApp?;
        System(Finish(s.gate, s.requests[id].h, !ran), s.requests[id := Left(s.requests[id].h, ran)])
      else s
  }

  function Run(s: System, ops: seq<Op>): System
    decreases |ops|
  {
    if ops == [] then s else Run(Step(s, ops[0]), ops[1..])
  }

  // What the journal says of each request, against where the request really is.
  predicate Truthful(s: System, id: string)
    requires id in s.requests
  {
    var r := s.requests[id];
    && r.h.id == id && id in s.gate.operations && s.gate.operations[id].claim == r.h.claim
    && (r.Entered? ==> s.gate.operations[id].state == Admitted && !r.h.quiescent)
    && (r.InApp? ==> s.gate.operations[id].state == Running)
    && (r.Left? ==> s.gate.operations[id].state ==
                    if !r.ran then Canceled else if r.h.quiescent then Completed else Unknown)
  }

  ghost predicate Inv(s: System) {
    && s.gate.operations.Keys == s.requests.Keys
    && forall id :: id in s.requests ==> Truthful(s, id)
  }

  lemma StepKeepsInv(s: System, op: Op)
    requires Inv(s)
    ensures Inv(Step(s, op))
  {
    assert Step(s, op).gate.operations.Keys == Step(s, op).requests.Keys;
    forall id | id in Step(s, op).requests ensures Truthful(Step(s, op), id) {
      RequestStaysTruthful(s, op, id);
    }
  }

  lemma RequestStaysTruthful(s: System, op: Op, id: string)
    requires s.gate.operations.Keys == s.requests.Keys && id in Step(s, op).requests
    requires id in s.requests ==> Truthful(s, id)
    requires !op.Command? && !op.Enter? && op.id in s.requests ==> Truthful(s, op.id)
    ensures Truthful(Step(s, op), id)
  {
  }

  lemma {:induction false} RunKeepsInv(s: System, ops: seq<Op>)
    requires Inv(s)
    ensures Inv(Run(s, ops))
    decreases |ops|
  {
    if ops == [] {
    } else {
      StepKeepsInv(s, ops[0]);
      RunKeepsInv(Step(s, ops[0]), ops[1..]);
    }
  }

  // The journal never lies: an operation is completed only if its body ran and declared itself
  // quiescent, canceled only if its body never started; and an epoch advance finds no body running.
  lemma EpochAdvanceFindsNobodyInside(journal: string, ops: seq<Op>, fence: Fence, next: Fence, command: string)
    ensures var s := Run(System(GateRuns.Init(journal), map[]), ops);
            && (forall id :: id in s.requests ==> Truthful(s, id))
            && (Advance(s.gate, fence, next, command, s.gate.journal).gate != s.gate ==>
                  forall id :: id in s.requests ==>
                    s.requests[id].Left? && (s.requests[id].ran ==> s.requests[id].h.quiescent))
  {
    var s := Run(System(GateRuns.Init(journal), map[]), ops);
    RunKeepsInv(System(GateRuns.Init(journal), map[]), ops);
    if Blocking(s.gate) == {} {
      forall id | id in s.requests ensures s.requests[id].Left? && (s.requests[id].ran ==> s.requests[id].h.quiescent) {
        assert Truthful(s, id) && id !in Blocking(s.gate);
      }
    }
  }
}
