// The durable ledger of external provider effects (backend/agent/effect_ledger.py):
// prepare -> claim -> submitting -> accepted -> settled, with recovery claims that may query but never resend.
module EffectLedger {
  import opened Common

  const EFFECT_LEASE_SECONDS := 90
  const PREPARED_RECOVERY_GRACE_SECONDS := 120
  const RECONCILE_RETRY_SECONDS := 30
  const MAX_DISPATCH_ATTEMPTS := 1
  const MAX_RECONCILE_ATTEMPTS := 8
  const OWNER_ACKNOWLEDGEABLE_ADAPTERS := {"sandbox_tool", "sandbox_preparation", "sandbox_runtime", "computer"}

  datatype State = Prepared | Submitting | Accepted | Succeeded | Failed | OutcomeUnknown | ManualReview

  predicate Terminal(s: State) { s == Succeeded || s == Failed || s == ManualReview }

  type TerminalState = s: State | Terminal(s) witness Failed
  type DeferredState = s: State | s == Accepted || s == OutcomeUnknown witness OutcomeUnknown

  // The digest behind the effect id is injective, so the id is its own preimage.
  datatype EffectKey = EffectKey(tenant: string, session: string, adapter: string, operation: string, logical: string)

  datatype Request = Request(provider: string, idempotencyKey: string, digest: string, resource: Option<string>)

  datatype ClaimKind = Dispatch | Reconcile

  // The four claim columns are always written and cleared together.
  datatype HeldClaim = HeldClaim(kind: ClaimKind, token: string, owner: string, expires: Time)

  // What a worker remembers of a claim it was granted.
  datatype EffectClaim = EffectClaim(
    key: EffectKey, run: RunId, runGeneration: nat, kind: ClaimKind, token: string, generation: nat, owner: string)

  // What an entry of the log shows. EvOther is any phase name the ledger itself does not use; a deferral may
  // show no state at all.
  datatype EvidencePhase =
    | EvPrepared | EvReprepared | EvClaimAcquired | EvSubmitting(attempt: nat) | EvAbandoned | EvOther
    | EvAccepted | EvSettled(state: TerminalState) | EvUnknown | EvAcknowledged
    | EvReconcileClaimed(attempt: nat) | EvDeferred(shown: Option<State>)

  datatype Evidence = Evidence(sequence: nat, claimGeneration: nat, phase: EvidencePhase)

  // What is known of the provider's side, and of the last failure.
  datatype Findings = Findings(
    handle: Option<string>, receipt: Option<string>, projection: Option<string>, error: Option<string>)

  function Newer(known: Option<string>, reported: Option<string>): Option<string> {
    if reported.Some? then reported else known
  }

  datatype Effect = Effect(
    key: EffectKey,
    request: Request,
    run: RunId,
    runGeneration: nat,
    state: State,
    attempts: nat,
    reconciles: nat,
    claimGeneration: nat,
    claim: Option<HeldClaim>,
    findings: Findings,
    reconcileAfter: Option<Time>,
    preparedAt: Time,
    evidence: seq<Evidence>)

  datatype Outcome = Done | InvalidCall | Conflict | LeaseLost | NotDispatchable | Blocked | Skipped

  datatype Reply = Reply(e: Effect, out: Outcome)

  // ---- guards

  predicate Matches(e: Effect, c: EffectClaim) {
    && e.key == c.key
    && e.claim.Some?
    && e.claim.value.kind == c.kind
    && e.claim.value.token == c.token
    && e.claimGeneration == c.generation
    && e.claim.value.owner == c.owner
  }

  predicate MatchesLive(e: Effect, c: EffectClaim, now: Time) {
    Matches(e, c) && e.claim.value.expires > now
  }

  predicate Unclaimed(e: Effect, now: Time) {
    e.claim.None? || e.claim.value.expires <= now
  }

  function MaxSequence(log: seq<Evidence>): nat {
    if log == [] then 0
    else
      var rest := MaxSequence(log[..|log| - 1]);
      if rest < log[|log| - 1].sequence then log[|log| - 1].sequence else rest
  }

  // The log with one more entry, numbered after the largest sequence already stored.
  function Logged(log: seq<Evidence>, generation: nat, phase: EvidencePhase): seq<Evidence> {
    log + [Evidence(MaxSequence(log) + 1, generation, phase)]
  }

  // One entry more under this generation and phase, numbered above every other.
  predicate OneMore(before: seq<Evidence>, after: seq<Evidence>, generation: nat, phase: EvidencePhase) {
    && |after| == |before| + 1 && after[..|before|] == before
    && (after[|before|].claimGeneration, after[|before|].phase) == (generation, phase)
    && (forall i :: 0 <= i < |before| ==> before[i].sequence < after[|before|].sequence)
  }

  lemma {:induction false} MaxIsMax(log: seq<Evidence>, i: nat)
    requires i < |log|
    ensures log[i].sequence <= MaxSequence(log)
  {
    if i == |log| - 1 {
    } else {
      MaxIsMax(log[..|log| - 1], i);
    }
  }

  lemma LoggedOnTop(log: seq<Evidence>, generation: nat, phase: EvidencePhase)
    ensures OneMore(log, Logged(log, generation, phase), generation, phase)
  {
    forall i | 0 <= i < |log| ensures log[i].sequence <= MaxSequence(log) {
      MaxIsMax(log, i);
    }
  }

  // ---- preparing

  // `live` is the agent run fence for (run, generation); `resourceKnown`, `resourceOpen` and `inScope`
  // are the answers of the resource controller and of the session lookup.
  function PrepareGuard(key: EffectKey, generation: nat, request: Request, live: bool, resourceKnown: bool,
                        inScope: bool): Outcome {
    if key.tenant == "" || key.session == "" || generation == 0 then InvalidCall
    else if !live then LeaseLost
    else if request.resource.Some? && !resourceKnown then Blocked
    else if !inScope then NotDispatchable
    else Done
  }

  function NewEffect(key: EffectKey, request: Request, run: RunId, generation: nat, now: Time): Effect {
    Effect(key, request, run, generation, Prepared, 0, 0, 0, None, Findings(None, None, None, None), None, now,
           Logged([], 0, EvPrepared))
  }

  // prepare_effect on an existing row: the same request may move a never-sent, unclaimed row to a new run.
  function Reprepare(e: Effect, request: Request, run: RunId, generation: nat, resourceOpen: bool): Reply {
    if e.request != request then Reply(e, Conflict)
    else if e.state == Prepared && request.resource.Some? && !resourceOpen then Reply(e, Blocked)
    else if e.state == Prepared && e.attempts == 0 && e.claim.None? &&
            (e.run != run || e.runGeneration != generation) then
      Reply(e.(run := run, runGeneration := generation,
               evidence := Logged(e.evidence, e.claimGeneration, EvReprepared)), Done)
    else Reply(e, Done)
  }

  // ---- dispatching

  function ClaimForDispatch(e: Effect, run: RunId, generation: nat, live: bool, token: string, owner: string,
                            now: Time): Reply {
    if !live then Reply(e, LeaseLost)
    else if e.run == run && e.runGeneration == generation && e.state == Prepared &&
            e.attempts < MAX_DISPATCH_ATTEMPTS && Unclaimed(e, now) then
      Reply(e.(claimGeneration := e.claimGeneration + 1,
               claim := Some(HeldClaim(Dispatch, token, owner, now + EFFECT_LEASE_SECONDS)),
               evidence := Logged(e.evidence, e.claimGeneration + 1, EvClaimAcquired)), Done)
    else Reply(e, NotDispatchable)
  }

  // Only an effect bound to a physical resource consults the run fence and the resource controller here.
  predicate ResourceGuard(e: Effect, live: bool, resourceOpen: bool) {
    e.request.resource.Some? ==> live && resourceOpen
  }

  function MarkSubmitting(e: Effect, c: EffectClaim, live: bool, resourceOpen: bool, now: Time): Reply {
    if c.kind != Dispatch then Reply(e, LeaseLost)
    else if !ResourceGuard(e, live, resourceOpen) then Reply(e, Blocked)
    else if MatchesLive(e, c, now) && e.state == Prepared then
      Reply(e.(state := Submitting, attempts := e.attempts + 1,
               evidence := Logged(e.evidence, e.claimGeneration, EvSubmitting(e.attempts + 1))), Done)
    else Reply(e, LeaseLost)
  }

  // The last durable guard before the external request: true means this worker may send now.
  predicate Dispatchable(e: Effect, c: EffectClaim, live: bool, resourceOpen: bool, now: Time) {
    c.kind == Dispatch && live && ResourceGuard(e, live, resourceOpen) && MatchesLive(e, c, now)
 && e.state == Submitting
  }

  // No kind guard: see LedgerTheorems.ReconcileAbandonReopens.
  function Abandon(e: Effect, c: EffectClaim, now: Time): Reply {
    if MatchesLive(e, c, now) && e.state == Prepared && e.attempts == 0 then
      Reply(e.(claim := None, evidence := Logged(e.evidence, e.claimGeneration, EvAbandoned)), Done)
    else Reply(e, LeaseLost)
  }

  function RenewClaim(e: Effect, c: EffectClaim, now: Time): Reply {
    if MatchesLive(e, c, now) && !Terminal(e.state) then
      Reply(e.(claim := Some(e.claim.value.(expires := now + EFFECT_LEASE_SECONDS))), Done)
    else Reply(e, LeaseLost)
  }

  // The caller names the phase of the entry.
  function RecordProgress(e: Effect, c: EffectClaim, phase: EvidencePhase, now: Time): Reply {
    if c.kind != Dispatch then Reply(e, NotDispatchable)
    else if MatchesLive(e, c, now) && e.state == Submitting then
      Reply(e.(evidence := Logged(e.evidence, e.claimGeneration, phase)), Done)
    else Reply(e, LeaseLost)
  }

  function RecordAccepted(e: Effect, c: EffectClaim, handle: Option<string>, receipt: string, now: Time): Reply {
    if MatchesLive(e, c, now) && e.state == Submitting then
      Reply(e.(state := Accepted, findings := e.findings.(handle := handle, receipt := Some(receipt)),
               reconcileAfter := Some(now),
               evidence := Logged(e.evidence, e.claimGeneration, EvAccepted)), Done)
    else if e.key == c.key && e.claim.Some? && e.claim.value.token == c.token && e.claimGeneration == c.generation &&
            e.state == Accepted && e.findings.handle == handle && e.findings.receipt == Some(receipt) then
      Reply(e, Done)  // the same receipt is already durable
    else Reply(e, LeaseLost)
  }

  // ---- settling

  datatype Verdict = Verdict(
    state: TerminalState, projection: Option<string>, error: Option<string>, handle: Option<string>,
    receipt: Option<string>)

  function Settle(e: Effect, c: EffectClaim, v: Verdict, projector: bool, live: bool, now: Time): Reply {
    if c.kind == Reconcile && projector then Reply(e, NotDispatchable)
    else if c.kind == Dispatch && !live then Reply(e, LeaseLost)
    else if MatchesLive(e, c, now) && !Terminal(e.state) then
      Reply(e.(state := v.state,
               findings := Findings(Newer(e.findings.handle, v.handle), Newer(e.findings.receipt, v.receipt),
                                    if v.state == Succeeded then v.projection else e.findings.projection, v.error),
               reconcileAfter := None, claim := None,
               evidence := Logged(e.evidence, e.claimGeneration, EvSettled(v.state))), Done)
    else Reply(e, LeaseLost)
  }

  function RecordUnknown(e: Effect, c: EffectClaim, error: string, handle: Option<string>, receipt: Option<string>,
                         now: Time): Reply {
    if MatchesLive(e, c, now) && (e.state == Submitting || e.state == Accepted) then
      Reply(e.(state := OutcomeUnknown, reconcileAfter := Some(now), claim := None,
               findings := Findings(Newer(e.findings.handle, handle), Newer(e.findings.receipt, receipt),
                                    e.findings.projection, Some(error)),
               evidence := Logged(e.evidence, e.claimGeneration, EvUnknown)), Done)
    else Reply(e, LeaseLost)
  }

  function Acknowledge(e: Effect): Reply {
    if e.state == ManualReview && e.key.adapter in OWNER_ACKNOWLEDGEABLE_ADAPTERS then
      Reply(e.(state := Failed, findings := e.findings.(error := Some("acknowledged_unverified")),
               reconcileAfter := None,
               evidence := Logged(e.evidence, e.claimGeneration, EvAcknowledged)), Done)
    else Reply(e, Skipped)
  }

  // ---- recovery

  function ClaimForReconcile(e: Effect, originLive: bool, token: string, owner: string, now: Time): Reply {
    if Terminal(e.state) then Reply(e, Skipped)
    else if !Unclaimed(e, now) then Reply(e, Skipped)
    else if e.reconcileAfter.Some? && e.reconcileAfter.value > now then Reply(e, Skipped)
    else if originLive then Reply(e, Skipped)
    else if e.state == Prepared && e.preparedAt > now - PREPARED_RECOVERY_GRACE_SECONDS then Reply(e, Skipped)
    else
      Reply(e.(claimGeneration := e.claimGeneration + 1, reconciles := e.reconciles + 1,
               claim := Some(HeldClaim(Reconcile, token, owner, now + EFFECT_LEASE_SECONDS)),
               evidence := Logged(e.evidence, e.claimGeneration + 1, EvReconcileClaimed(e.reconciles + 1))), Done)
  }

  // What the free-form evidence of a provider decision does to the logged state: nothing, or it puts
  // something else under the same key, or makes the entry too large to keep any.
  datatype Report = AsIs | Overridden(shown: Option<State>)

  datatype Deferral = Deferral(
    next: DeferredState, error: Option<string>, handle: Option<string>, receipt: Option<string>, retryAfter: int,
    report: Report)

  function Shown(d: Deferral): Option<State> {
    if d.report.AsIs? then Some(d.next) else d.report.shown
  }

  // No state guard at all: only the claim is compared.
  function Defer(e: Effect, c: EffectClaim, d: Deferral, now: Time): Reply {
    if MatchesLive(e, c, now) then
      Reply(e.(state := d.next, reconcileAfter := Some(now + Max(1, Min(3600, d.retryAfter))), claim := None,
               findings := Findings(Newer(e.findings.handle, d.handle), Newer(e.findings.receipt, d.receipt),
                                    e.findings.projection, d.error),
               evidence := Logged(e.evidence, e.claimGeneration, EvDeferred(Shown(d)))), Done)
    else Reply(e, LeaseLost)
  }

  // How a provider query ended.
  datatype Answer =
    | Raised(errorType: string)
    | Decided(state: State, handle: Option<string>, receipt: Option<string>, projection: Option<string>,
              evidence: Option<string>, retryAfter: int, report: Report)

  datatype Conclusion = SettleWith(verdict: Verdict) | DeferWith(deferral: Deferral)

  datatype Plan = Write(conclusion: Conclusion) | Query

  // recover_effect_once, before the provider is queried: `registered` and `withoutHandle` describe the adapter.
  function PlanRecovery(snapshot: Effect, registered: bool, withoutHandle: bool): Plan {
    if snapshot.state == Prepared then
      Write(SettleWith(Verdict(Failed, None, Some("abandoned_before_dispatch"), None, None)))
    else if snapshot.reconciles > MAX_RECONCILE_ATTEMPTS then
      Write(SettleWith(Verdict(ManualReview, None, Some("reconcile_attempts_exhausted"), None, None)))
    else if !registered then
      Write(SettleWith(Verdict(ManualReview, None, Some("reconciler_unavailable"), None, None)))
    else if snapshot.findings.handle.None? && !withoutHandle then
      Write(SettleWith(Verdict(ManualReview, None, Some("provider_receipt_unavailable"), None, None)))
    else Query
  }

  // ... and after it answered; `count` is the reconcile count of the snapshot that was planned on.
  function Conclude(count: nat, a: Answer): Conclusion {
    match a
    case Raised(errorType) =>
      if count >= MAX_RECONCILE_ATTEMPTS then
        SettleWith(Verdict(ManualReview, None, Some("reconcile_failed"), None, None))
      else DeferWith(Deferral(OutcomeUnknown, Some(errorType), None, None, RECONCILE_RETRY_SECONDS, AsIs))
    case Decided(state, handle, receipt, projection, evidence, retryAfter, report) =>
      match state
      case Succeeded => SettleWith(Verdict(Succeeded, projection, None, handle, receipt))
      case Failed =>
        SettleWith(Verdict(Failed, None, if evidence.Some? then evidence else Some("provider_failed"), handle, receipt))
      case ManualReview =>
        SettleWith(Verdict(ManualReview, None, if evidence.Some? then evidence else Some("manual_review_required"),
                           handle, receipt))
      case Accepted => DeferWith(Deferral(Accepted, None, handle, receipt, retryAfter, report))
      case _ => DeferWith(Deferral(OutcomeUnknown, None, handle, receipt, retryAfter, report))
  }

  function Finish(e: Effect, c: EffectClaim, conclusion: Conclusion, now: Time): Reply {
    match conclusion
    case SettleWith(v) => Settle(e, c, v, false, false, now)
    case DeferWith(d) => Defer(e, c, d, now)
  }

  // One ledger row. Every method is one transaction on it.
  class EffectRecord {
    const key: EffectKey
    const request: Request
    const preparedAt: Time
    var run: RunId
    var runGeneration: nat
    var state: State
    var attempts: nat
    var reconciles: nat
    var claimGeneration: nat
    var claim: Option<HeldClaim>
    var findings: Findings
    var reconcileAfter: Option<Time>
    var evidence: seq<Evidence>

    ghost function View(): Effect
      reads this
    {
      Effect(key, request, run, runGeneration, state, attempts, reconciles, claimGeneration, claim, findings,
             reconcileAfter, preparedAt, evidence)
    }

    constructor (key: EffectKey, request: Request, run: RunId, generation: nat, now: Time)
      ensures View() == NewEffect(key, request, run, generation, now)
    {
      this.key, this.request, this.preparedAt, this.run, this.runGeneration := key, request, now, run, generation;
      state, attempts, reconciles, claimGeneration, claim := Prepared, 0, 0, 0, None;
      findings, reconcileAfter := Findings(None, None, None, None), None;
      evidence := [Evidence(1, 0, EvPrepared)];
    }

    // The exact claim columns of a live claim.
    predicate Held(c: EffectClaim, now: Time)
      reads this
    {
      key == c.key && claim.Some? && claim.value.kind == c.kind && claim.value.token == c.token &&
      claimGeneration == c.generation && claim.value.owner == c.owner && claim.value.expires > now
    }

    // Open, unclaimed, past its retry time and, if never sent, past its grace.
    predicate RecoveryDue(now: Time)
      reads this
    {
      && !Terminal(state) && (claim.Some? ==> claim.value.expires <= now)
      && (reconcileAfter.Some? ==> reconcileAfter.value <= now) && (state == Prepared ==> preparedAt + 120 <= now)
    }

    method PrepareAgain(again: Request, run': RunId, generation: nat, resourceOpen: bool) returns (out: Outcome)
      modifies this
      ensures Reply(View(), out) == Reprepare(old(View()), again, run', generation, resourceOpen)
      ensures out == Conflict <==> request != again
      ensures out == Done <==> request == again && (state == Prepared && request.resource.Some? ==> resourceOpen)
      ensures out == Done ==>
                var moves := state == Prepared && attempts == 0 && claim.None?;
                && (run, runGeneration) == (if moves then (run', generation) else (old(run), old(runGeneration)))
                && View() == old(View()).(run := run, runGeneration := runGeneration, evidence := evidence)
                && (evidence == old(evidence) <==> (run, runGeneration) == (old(run), old(runGeneration)))
      ensures out != Done ==> View() == old(View())
    {
      if request != again { return Conflict; }
      if state == Prepared && again.resource.Some? && !resourceOpen { return Blocked; }
      if state == Prepared && attempts == 0 && claim.None? && (run != run' || runGeneration != generation) {
        run, runGeneration := run', generation;
        LoggedOnTop(evidence, claimGeneration, EvReprepared);
        evidence := Logged(evidence, claimGeneration, EvReprepared);
      }
      out := Done;
    }

    method ClaimDispatch(run': RunId, generation: nat, live: bool, token: string, owner: string, now: Time)
      returns (out: Outcome)
      modifies this
      ensures Reply(View(), out) == ClaimForDispatch(old(View()), run', generation, live, token, owner, now)
      ensures out == Done <==>
                && live && (run, runGeneration) == (run', generation) && old(state) == Prepared && old(attempts) == 0
                && (old(claim).Some? ==> old(claim).value.expires <= now)
      ensures out == Done ==>
                && claim == Some(HeldClaim(Dispatch, token, owner, now + 90))
                && claimGeneration == old(claimGeneration) + 1
                && View() == old(View()).(claim := claim, claimGeneration := claimGeneration, evidence := evidence)
                && OneMore(old(evidence), evidence, claimGeneration, EvClaimAcquired)
      ensures out != Done ==> View() == old(View())
    {
      if !live { return LeaseLost; }
      if run != run' || runGeneration != generation || state != Prepared { return NotDispatchable; }
      if attempts >= MAX_DISPATCH_ATTEMPTS || (claim.Some? && claim.value.expires > now) { return NotDispatchable; }
      claimGeneration := claimGeneration + 1;
      claim := Some(HeldClaim(Dispatch, token, owner, now + EFFECT_LEASE_SECONDS));
      LoggedOnTop(evidence, claimGeneration, EvClaimAcquired);
      evidence := Logged(evidence, claimGeneration, EvClaimAcquired);
      out := Done;
    }

    method Submit(c: EffectClaim, live: bool, resourceOpen: bool, now: Time) returns (out: Outcome)
      modifies this
      ensures Reply(View(), out) == MarkSubmitting(old(View()), c, live, resourceOpen, now)
      ensures out == Done <==>
                && c.kind == Dispatch && old(Held(c, now)) && old(state) == Prepared
                && (request.resource.Some? ==> live && resourceOpen)
      ensures out == Done ==>
                && state == Submitting && attempts == old(attempts) + 1
                && View() == old(View()).(state := state, attempts := attempts, evidence := evidence)
                && OneMore(old(evidence), evidence, claimGeneration, EvSubmitting(attempts))
      ensures out != Done ==> View() == old(View())
    {
      if c.kind != Dispatch { return LeaseLost; }
      if request.resource.Some? && !(live && resourceOpen) { return Blocked; }
      if !Held(c, now) || state != Prepared { return LeaseLost; }
      state, attempts := Submitting, attempts + 1;
      LoggedOnTop(evidence, claimGeneration, EvSubmitting(attempts));
      evidence := Logged(evidence, claimGeneration, EvSubmitting(attempts));
      out := Done;
    }

    method AbandonClaim(c: EffectClaim, now: Time) returns (out: Outcome)
      modifies this
      ensures Reply(View(), out) == Abandon(old(View()), c, now)
      ensures out == Done <==> old(Held(c, now)) && old(state) == Prepared && old(attempts) == 0
      ensures out == Done ==>
                && claim == None && View() == old(View()).(claim := claim, evidence := evidence)
                && OneMore(old(evidence), evidence, claimGeneration, EvAbandoned)
      ensures out != Done ==> View() == old(View())
    {
      if !Held(c, now) || state != Prepared || attempts != 0 { return LeaseLost; }
      claim := None;
      LoggedOnTop(evidence, claimGeneration, EvAbandoned);
      evidence := Logged(evidence, claimGeneration, EvAbandoned);
      out := Done;
    }

    method Renew(c: EffectClaim, now: Time) returns (out: Outcome)
      modifies this`claim
      ensures Reply(View(), out) == RenewClaim(old(View()), c, now)
      ensures out == Done <==> old(Held(c, now)) && !Terminal(state)
      ensures out == Done ==> claim == Some(old(claim).value.(expires := now + 90))
      ensures out != Done ==> claim == old(claim)
    {
      if !Held(c, now) || Terminal(state) { return LeaseLost; }
      claim := Some(claim.value.(expires := now + EFFECT_LEASE_SECONDS));
      out := Done;
    }

    method RecordDispatchProgress(c: EffectClaim, phase: EvidencePhase, now: Time) returns (out: Outcome)
      modifies this`evidence
      ensures Reply(View(), out) == RecordProgress(old(View()), c, phase, now)
      ensures out == Done <==> c.kind == Dispatch && Held(c, now) && state == Submitting
      ensures out == Done ==> OneMore(old(evidence), evidence, claimGeneration, phase)
      ensures out != Done ==> evidence == old(evidence)
    {
      if c.kind != Dispatch { return NotDispatchable; }
      if !Held(c, now) || state != Submitting { return LeaseLost; }
      LoggedOnTop(evidence, claimGeneration, phase);
      evidence := Logged(evidence, claimGeneration, phase);
      out := Done;
    }

    method Accept(c: EffectClaim, h: Option<string>, r: string, now: Time) returns (out: Outcome)
      modifies this
      ensures Reply(View(), out) == RecordAccepted(old(View()), c, h, r, now)
      ensures old(Held(c, now)) && old(state) == Submitting ==>
                && out == Done && state == Accepted && reconcileAfter == Some(now)
                && findings == Findings(h, Some(r), old(findings).projection, old(findings).error)
                && View() == old(View()).(state := state, findings := findings, reconcileAfter := reconcileAfter,
                                          evidence := evidence)
                && OneMore(old(evidence), evidence, claimGeneration, EvAccepted)
      ensures !(old(Held(c, now)) && old(state) == Submitting) ==> View() == old(View())
      ensures out == Done ==> state == Accepted && findings.handle == h && findings.receipt == Some(r)
    {
      if Held(c, now) && state == Submitting {
        state, findings, reconcileAfter := Accepted, findings.(handle := h, receipt := Some(r)), Some(now);
        LoggedOnTop(evidence, claimGeneration, EvAccepted);
        evidence := Logged(evidence, claimGeneration, EvAccepted);
        return Done;
      }
      var durable := key == c.key && claim.Some? && claim.value.token == c.token && claimGeneration == c.generation &&
      state == Accepted && findings.handle == h && findings.receipt == Some(r);
      out := if durable then Done else LeaseLost;
    }

    method SettleRow(c: EffectClaim, v: Verdict, projector: bool, live: bool, now: Time) returns (out: Outcome)
      modifies this
      ensures Reply(View(), out) == Settle(old(View()), c, v, projector, live, now)
      ensures out == Done <==>
                && !(c.kind == Reconcile && projector) && (c.kind == Dispatch ==> live)
                && old(Held(c, now)) && !Terminal(old(state))
      ensures out == Done ==>
                && state == v.state && claim == None && reconcileAfter == None
                && (v.handle.Some? ==> findings.handle == v.handle)
                && (v.receipt.Some? ==> findings.receipt == v.receipt)
                && (v.handle.None? ==> findings.handle == old(findings).handle)
                && (v.receipt.None? ==> findings.receipt == old(findings).receipt)
                && findings.projection == (if v.state == Succeeded then v.projection else old(findings).projection)
                && findings.error == v.error
                && View() == old(View()).(state := state, claim := claim, reconcileAfter := reconcileAfter,
                                          findings := findings, evidence := evidence)
                && OneMore(old(evidence), evidence, claimGeneration, EvSettled(v.state))
      ensures out != Done ==> View() == old(View())
    {
      if c.kind == Reconcile && projector { return NotDispatchable; }
      if c.kind == Dispatch && !live { return LeaseLost; }
      if !Held(c, now) || Terminal(state) { return LeaseLost; }
      findings := findings.(handle := Newer(findings.handle, v.handle), receipt := Newer(findings.receipt, v.receipt));
      state := v.state;
      if v.state == Succeeded { findings := findings.(projection := v.projection); }
      findings := findings.(error := v.error);
      reconcileAfter, claim := None, None;
      LoggedOnTop(evidence, claimGeneration, EvSettled(v.state));
      evidence := Logged(evidence, claimGeneration, EvSettled(v.state));
      out := Done;
    }

    method RecordOutcomeUnknown(c: EffectClaim, e: string, h: Option<string>, r: Option<string>, now: Time)
      returns (out: Outcome)
      modifies this
      ensures Reply(View(), out) == RecordUnknown(old(View()), c, e, h, r, now)
      ensures out == Done <==> old(Held(c, now)) && (old(state) == Submitting || old(state) == Accepted)
      ensures out == Done ==>
                && state == OutcomeUnknown && claim == None && reconcileAfter == Some(now)
                && (h.Some? ==> findings.handle == h) && (r.Some? ==> findings.receipt == r)
                && (h.None? ==> findings.handle == old(findings).handle)
                && (r.None? ==> findings.receipt == old(findings).receipt)
                && findings.projection == old(findings).projection && findings.error == Some(e)
                && View() == old(View()).(state := state, claim := claim, reconcileAfter := reconcileAfter,
                                          findings := findings, evidence := evidence)
                && OneMore(old(evidence), evidence, claimGeneration, EvUnknown)
      ensures out != Done ==> View() == old(View())
    {
      if !Held(c, now) || (state != Submitting && state != Accepted) { return LeaseLost; }
      state, reconcileAfter, claim := OutcomeUnknown, Some(now), None;
      findings := findings.(error := Some(e), handle := Newer(findings.handle, h),
                            receipt := Newer(findings.receipt, r));
      LoggedOnTop(evidence, claimGeneration, EvUnknown);
      evidence := Logged(evidence, claimGeneration, EvUnknown);
      out := Done;
    }

    method ClaimReconcile(originLive: bool, token: string, owner: string, now: Time) returns (out: Outcome)
      modifies this
      ensures Reply(View(), out) == ClaimForReconcile(old(View()), originLive, token, owner, now)
      ensures out == Done <==> !originLive && old(RecoveryDue(now))
      ensures out == Done ==>
                && claim == Some(HeldClaim(Reconcile, token, owner, now + 90))
                && claimGeneration == old(claimGeneration) + 1 && reconciles == old(reconciles) + 1
                && View() == old(View()).(claim := claim, claimGeneration := claimGeneration, reconciles := reconciles,
                                          evidence := evidence)
                && OneMore(old(evidence), evidence, claimGeneration, EvReconcileClaimed(reconciles))
      ensures out != Done ==> View() == old(View())
    {
      if Terminal(state) || (claim.Some? && claim.value.expires > now) { return Skipped; }
      if reconcileAfter.Some? && reconcileAfter.value > now { return Skipped; }
      if originLive { return Skipped; }
      if state == Prepared && preparedAt > now - PREPARED_RECOVERY_GRACE_SECONDS { return Skipped; }
      claimGeneration, reconciles := claimGeneration + 1, reconciles + 1;
      claim := Some(HeldClaim(Reconcile, token, owner, now + EFFECT_LEASE_SECONDS));
      LoggedOnTop(evidence, claimGeneration, EvReconcileClaimed(reconciles));
      evidence := Logged(evidence, claimGeneration, EvReconcileClaimed(reconciles));
      out := Done;
    }

    method DeferRow(c: EffectClaim, d: Deferral, now: Time) returns (out: Outcome)
      modifies this
      ensures Reply(View(), out) == Defer(old(View()), c, d, now)
      ensures out == Done <==> old(Held(c, now))
      ensures out == Done ==>
                && state == d.next && claim == None && reconcileAfter.Some? && 1 <= reconcileAfter.value - now <= 3600
                && (1 <= d.retryAfter <= 3600 ==> reconcileAfter.value == now + d.retryAfter)
                && (d.handle.Some? ==> findings.handle == d.handle)
                && (d.receipt.Some? ==> findings.receipt == d.receipt)
                && (d.handle.None? ==> findings.handle == old(findings).handle)
                && (d.receipt.None? ==> findings.receipt == old(findings).receipt)
                && findings.projection == old(findings).projection && findings.error == d.error
                && View() == old(View()).(state := state, claim := claim, reconcileAfter := reconcileAfter,
                                          findings := findings, evidence := evidence)
                && OneMore(old(evidence), evidence, claimGeneration, EvDeferred(Shown(d)))
      ensures out != Done ==> View() == old(View())
    {
      if !Held(c, now) { return LeaseLost; }
      state, claim := d.next, None;
      reconcileAfter := Some(now + Max(1, Min(3600, d.retryAfter)));
      findings := findings.(error := d.error, handle := Newer(findings.handle, d.handle));
      findings := findings.(receipt := Newer(findings.receipt, d.receipt));
      LoggedOnTop(evidence, claimGeneration, EvDeferred(Shown(d)));
      evidence := Logged(evidence, claimGeneration, EvDeferred(Shown(d)));
      out := Done;
    }

    method AcknowledgeRow() returns (out: Outcome)
      modifies this
      ensures Reply(View(), out) == Acknowledge(old(View()))
      ensures out == Done <==> old(state) == ManualReview && key.adapter in OWNER_ACKNOWLEDGEABLE_ADAPTERS
      ensures out == Done ==>
                && state == Failed && findings == old(findings).(error := Some("acknowledged_unverified"))
                && View() == old(View()).(state := state, findings := findings, reconcileAfter := None,
                                          evidence := evidence)
                && OneMore(old(evidence), evidence, claimGeneration, EvAcknowledged)
      ensures out != Done ==> View() == old(View())
    {
      if state != ManualReview || key.adapter !in OWNER_ACKNOWLEDGEABLE_ADAPTERS { return Skipped; }
      state, findings, reconcileAfter := Failed, findings.(error := Some("acknowledged_unverified")), None;
      LoggedOnTop(evidence, claimGeneration, EvAcknowledged);
      evidence := Logged(evidence, claimGeneration, EvAcknowledged);
      out := Done;
    }

    method AssertDispatchable(c: EffectClaim, live: bool, resourceOpen: bool, now: Time) returns (ok: bool)
      ensures ok == Dispatchable(View(), c, live, resourceOpen, now)
    {
      if c.kind != Dispatch || !live { return false; }
      if request.resource.Some? && !resourceOpen { return false; }
      ok := Held(c, now) && state == Submitting;
    }
  }
}
