/** The execution host as an object. Its methods run the lock regions of the transition system, and
    one attempt that nothing interleaves with is exactly the seven steps of that system. */
module HostObject {
  import opened Budget
  import opened Options
  import opened ExecutionPlan
  import opened Ledger
  import opened Host
  import opened HostInvariant
  import opened HostReceipts
  import opened HostRuns
  import opened HostSteps

  /** The first attempt of an idle host after its start and `steps` further steps. */
  ghost function Alone(cfg: HostConfig, env: Id -> Call, shared: Shared, slotId: Id, token: nat, steps: nat): HostState {
    if steps == 0 then Step(cfg, env, HostState(shared, map[]), Start(0, slotId))
    else Step(cfg, env, Alone(cfg, env, shared, slotId, token, steps - 1), Advance(0, token))
  }

  /** A host with no attempt in flight. */
  ghost predicate Idle(cfg: HostConfig, env: Id -> Call, shared: Shared) {
    Inv(cfg, env, HostState(shared, map[]))
  }

  lemma ForgetFinished(cfg: HostConfig, env: Id -> Call, s: HostState)
    requires Inv(cfg, env, s) && forall t :: t in s.attempts ==> s.attempts[t].Finished?
    ensures Idle(cfg, env, s.shared)
  {
    Clauses(cfg, env, s);
    hide LedgerOk, CountersOk, ReportsOk, SlotTable, HasEvent;
    assert forall id :: !PendingForSome(s.attempts, id);
    forall id ensures id in s.shared.usedSlots ==> id in ReportIds(s.shared.reports) {
      assert !HeldBySome(s.attempts, id);
    }
    forall id ensures id !in s.shared.ledger.reservations {
      assert !ReservedBySome(s.attempts, id);
    }
  }

  lemma {:induction false} AloneKeepsInv(
    cfg: HostConfig, env: Id -> Call, shared: Shared, slotId: Id, token: nat, steps: nat)
    requires cfg.Accepted() && Idle(cfg, env, shared)
    ensures Inv(cfg, env, Alone(cfg, env, shared, slotId, token, steps))
  {
    hide Inv, Step, HostConfig.Accepted;
    if steps == 0 {
      StepKeepsInv(cfg, env, HostState(shared, map[]), Start(0, slotId));
    } else {
      AloneKeepsInv(cfg, env, shared, slotId, token, steps - 1);
      StepKeepsInv(cfg, env, Alone(cfg, env, shared, slotId, token, steps - 1), Advance(0, token));
    }
  }

  lemma IdleLedger(cfg: HostConfig, env: Id -> Call, shared: Shared)
    requires Idle(cfg, env, shared)
    ensures Ledger.Invariant(shared.ledger) && shared.ledger.ceilings == cfg.ceilings
  {
    Clauses(cfg, env, HostState(shared, map[]));
    hide HoldersOk, CountersOk, ReservationsOk, EventsOk, ReceiptsOk, ReportsOk, PhasesOk, Ledger.Invariant;
  }

  // The seven steps, spelled out.

  lemma AloneStep(
    cfg: HostConfig, env: Id -> Call, shared: Shared, slotId: Id, token: nat, steps: nat,
    before: Shared, phase: Phase)
    requires steps > 0
    requires Alone(cfg, env, shared, slotId, token, steps - 1) == HostState(before, map[0 := phase])
    ensures Alone(cfg, env, shared, slotId, token, steps)
      == HostState(NextShared(cfg, env, before, phase, token), map[0 := NextPhase(cfg, env, before, phase, token)])
  {
    hide NextShared, NextPhase;
  }

  lemma {:induction false} AloneFinished(
    cfg: HostConfig, env: Id -> Call, shared: Shared, slotId: Id, token: nat, steps: nat, more: nat,
    after: Shared, result: AttemptResult)
    requires steps <= more
    requires Alone(cfg, env, shared, slotId, token, steps) == HostState(after, map[0 := Finished(result)])
    ensures Alone(cfg, env, shared, slotId, token, more) == HostState(after, map[0 := Finished(result)])
    decreases more
  {
    if steps < more {
      AloneFinished(cfg, env, shared, slotId, token, steps, more - 1, after, result);
      AloneStep(cfg, env, shared, slotId, token, more, after, Finished(result));
    }
  }

  lemma AloneDenied(cfg: HostConfig, env: Id -> Call, shared: Shared, slotId: Id, token: nat)
    requires ClaimAnswer(cfg, shared, slotId).Denied?
    ensures Alone(cfg, env, shared, slotId, token, 6)
      == HostState(shared, map[0 := Finished(Refused(ClaimAnswer(cfg, shared, slotId).reason))])
  {
    hide ClaimAnswer;
    AloneFinished(cfg, env, shared, slotId, token, 0, 6, shared, Refused(ClaimAnswer(cfg, shared, slotId).reason));
  }

  ghost function AfterReserved(cfg: HostConfig, shared: Shared, slot: Slot, token: nat): Shared {
    AfterClaim(shared, slot).(ledger := AfterReserve(shared.ledger, slot.slotId, cfg.MaximumsOf(slot), token))
  }

  lemma AloneUnreserved(cfg: HostConfig, env: Id -> Call, shared: Shared, slotId: Id, token: nat, slot: Slot)
    requires ClaimAnswer(cfg, shared, slotId) == Granted(slot)
    requires !ReserveAnswer(shared.ledger, slot.slotId, cfg.MaximumsOf(slot)).ReservationGranted?
    ensures Alone(cfg, env, shared, slotId, token, 6) == HostState(
      AfterRelease(AfterReserved(cfg, shared, slot, token), slot),
      map[0 := Finished(Refused(ReservationFailed(ReserveAnswer(shared.ledger, slot.slotId, cfg.MaximumsOf(slot)))))])
  {
    var answer := ReserveAnswer(shared.ledger, slot.slotId, cfg.MaximumsOf(slot));
    hide ClaimAnswer, ReserveAnswer, AfterReserve, HostConfig.MaximumsOf;
    AloneStep(cfg, env, shared, slotId, token, 1, AfterClaim(shared, slot), Claimed(slot));
    var reserved := AfterReserved(cfg, shared, slot, token);
    AloneStep(cfg, env, shared, slotId, token, 2, reserved, Releasing(slot, answer));
    AloneFinished(cfg, env, shared, slotId, token, 2, 6, AfterRelease(reserved, slot), Refused(ReservationFailed(answer)));
  }

  /** What is left to do once the local variables of the attempt are known. */
  ghost function Closing(cfg: HostConfig, shared: Shared, slot: Slot, token: nat, draft: Draft): (Shared, AttemptResult) {
    var answer := SettleSlot(cfg, shared.ledger, slot, token, draft);
    var settled := shared.(ledger := AfterSettle(
      shared.ledger, slot.slotId, FinalCharge(draft, cfg.MaximumsOf(slot)), draft.status, draft.receipt, token));
    if answer.SettledWithin? || answer.SettledBreach? then
      var report := BuildReport(cfg, slot, draft, answer.SettledBreach?);
      (settled.(reports := settled.reports + [report]), ResultOf(report, draft))
    else (settled, Stranded)
  }

  lemma AloneDispatched(cfg: HostConfig, env: Id -> Call, shared: Shared, slotId: Id, token: nat, slot: Slot)
    requires ClaimAnswer(cfg, shared, slotId) == Granted(slot) && slot.slotId == slotId
    requires ReserveAnswer(shared.ledger, slotId, cfg.MaximumsOf(slot)).ReservationGranted?
    ensures var called := AfterCall(cfg, slot, env(slotId));
      var draft := AfterReceiptClaim(called, ReusedIn(called, shared.receipts), env(slotId).interrupt);
      var (after, result) := Closing(cfg, WithReceipt(AfterReserved(cfg, shared, slot, token), called), slot, token, draft);
      Alone(cfg, env, shared, slotId, token, 6) == HostState(after, map[0 := Finished(result)])
  {
    hide ClaimAnswer, ReserveAnswer, AfterReserve, AfterSettle, AfterCall, AfterReceiptClaim;
    hide HostConfig.MaximumsOf, BuildReport, FinalCharge, SettleAnswer;
    AloneStep(cfg, env, shared, slotId, token, 1, AfterClaim(shared, slot), Claimed(slot));
    var reserved := AfterReserved(cfg, shared, slot, token);
    AloneStep(cfg, env, shared, slotId, token, 2, reserved, Reserved(slot, token));
    var called := AfterCall(cfg, slot, env(slotId));
    AloneStep(cfg, env, shared, slotId, token, 3, reserved, Called(slot, token, called));
    var draft := AfterReceiptClaim(called, ReusedIn(called, shared.receipts), env(slotId).interrupt);
    var claimed := WithReceipt(reserved, called);
    AloneStep(cfg, env, shared, slotId, token, 4, claimed, ReceiptClaimed(slot, token, draft));
    var settled, pending := NextShared(cfg, env, claimed, ReceiptClaimed(slot, token, draft), token),
      NextPhase(cfg, env, claimed, ReceiptClaimed(slot, token, draft), token);
    AloneStep(cfg, env, shared, slotId, token, 5, settled, pending);
    var (after, result) := Closing(cfg, claimed, slot, token, draft);
    AloneFinished(cfg, env, shared, slotId, token, 5, 6, after, result);
  }

  lemma GrantedSlot(cfg: HostConfig, shared: Shared, slotId: Id)
    requires cfg.Accepted() && ClaimAnswer(cfg, shared, slotId).Granted?
    ensures ClaimAnswer(cfg, shared, slotId).slot.slotId == slotId
  {
    hide HostConfig.Accepted, SlotTable;
    SlotKnown(cfg, slotId);
  }

  /** The seven steps always end the attempt. */
  lemma AloneEnds(cfg: HostConfig, env: Id -> Call, shared: Shared, slotId: Id, token: nat)
    requires cfg.Accepted() && Idle(cfg, env, shared)
    ensures Idle(cfg, env, Alone(cfg, env, shared, slotId, token, 6).shared)
  {
    hide HostConfig.Accepted, Idle, Alone, ClaimAnswer, ReserveAnswer, Closing, AfterReserved, Inv;
    match ClaimAnswer(cfg, shared, slotId) {
      case Denied(_) => AloneDenied(cfg, env, shared, slotId, token);
      case Granted(slot) =>
        GrantedSlot(cfg, shared, slotId);
        if ReserveAnswer(shared.ledger, slotId, cfg.MaximumsOf(slot)).ReservationGranted? {
          AloneDispatched(cfg, env, shared, slotId, token, slot);
        } else {
          AloneUnreserved(cfg, env, shared, slotId, token, slot);
        }
    }
    AloneKeepsInv(cfg, env, shared, slotId, token, 6);
    ForgetFinished(cfg, env, Alone(cfg, env, shared, slotId, token, 6));
  }

  // What is checked before a slot is claimed.

  datatype Request = Request(
    attemptId: Id,
    componentId: Id,
    retryIndex: int,
    modelId: Id,
    purpose: Id,
    systemPrompt: string,
    userPayload: string)
  {
    predicate NamesSlot(slot: Slot) {
      && slot.slotId == attemptId
      && slot.componentId == componentId
      && slot.retryIndex == retryIndex
      && slot.modelId == modelId
      && slot.purpose == purpose
    }

    predicate CarriesText(slot: Slot, sha: string -> string) {
      slot.systemPromptSha == sha(systemPrompt) && slot.userPayloadSha == sha(userPayload)
    }
  }

  /** The request is for a frozen slot, with that slot's metadata and texts, while the evidence is valid. */
  predicate Admissible(cfg: HostConfig, request: Request, sha: string -> string, expired: bool) {
    && !expired && request.attemptId in cfg.Table()
    && request.NamesSlot(cfg.Table()[request.attemptId])
    && request.CarriesText(cfg.Table()[request.attemptId], sha)
  }

  predicate Asks(request: Request, slot: Slot, sha: string -> string) {
    && (slot.slotId, slot.componentId, slot.retryIndex, slot.modelId, slot.purpose)
       == (request.attemptId, request.componentId, request.retryIndex, request.modelId, request.purpose)
    && (slot.systemPromptSha, slot.userPayloadSha) == (sha(request.systemPrompt), sha(request.userPayload))
  }

  /** A request passes the checks exactly if some slot of the plan carries all of its fields and the digests of its
      texts, and the evidence has not expired. */
  lemma AdmissibleExactly(cfg: HostConfig, request: Request, sha: string -> string, expired: bool)
    requires cfg.Accepted()
    ensures Admissible(cfg, request, sha, expired)
      <==> !expired && exists slot :: slot in cfg.slots && Asks(request, slot, sha)
  {
    SlotTableHoldsPlan(cfg.slots);
    hide SlotTable, AuthorityValid, ExactCallMatrix, SlotKeys, SlotShapeValid;
  }

  lemma AdmissibleIndex(cfg: HostConfig, request: Request, sha: string -> string, expired: bool)
    requires cfg.Accepted() && Admissible(cfg, request, sha, expired)
    ensures request.retryIndex >= 0
  {
    SlotKnown(cfg, request.attemptId);
    assert SlotShapeValid(cfg.Table()[request.attemptId]);
    hide HostConfig.Accepted, SlotTable, SlotAuthorized;
  }

  /** The reason is true of the request; the clock is blamed only when nothing else is wrong. */
  predicate Explains(
    cfg: HostConfig, request: Request, sha: string -> string, expired: bool, clockValid: bool, reason: Refusal)
  {
    match reason
    case ArgumentsInvalid => request.retryIndex < 0
    case EvidenceExpired => expired
    case NotScheduled => request.attemptId !in cfg.Table()
    case MetadataMismatch =>
      request.attemptId in cfg.Table() && !request.NamesSlot(cfg.Table()[request.attemptId])
    case TextMismatch =>
      && request.attemptId in cfg.Table() && request.NamesSlot(cfg.Table()[request.attemptId])
      && !request.CarriesText(cfg.Table()[request.attemptId], sha)
    case ClockInvalid => Admissible(cfg, request, sha, expired) && !clockValid
    case _ => false
  }

  /** Every execution method is one or more of the lock regions; `env` stands for the provider, the
      receipt verifier and the clock. */
  class FrontierExecutionHost {
    const cfg: HostConfig
    const env: Id -> Call
    const ledger: BudgetLedger
    var usedSlots: set<Id>
    var allocatedAttempts: map<Id, int>
    var receipts: set<Digest>
    var reports: seq<Report>

    ghost function State(): Shared
      reads this, ledger
    {
      Shared(ledger.State(), usedSlots, allocatedAttempts, receipts, reports)
    }

    ghost predicate Valid()
      reads this, ledger
    {
      cfg.Accepted() && Idle(cfg, env, State())
    }

    constructor (cfg: HostConfig, env: Id -> Call, ledger: BudgetLedger)
      requires ledger.State() == Opened(cfg.ceilings) && cfg.Accepted()
      ensures this.cfg == cfg && this.env == env && this.ledger == ledger
      ensures State() == InitialShared(cfg) && Valid()
    {
      this.cfg, this.env, this.ledger := cfg, env, ledger;
      usedSlots, receipts, reports := {}, {}, [];
      allocatedAttempts := map id | id in cfg.authority.components :: 0;
      new;
      hide HostConfig.Accepted, Inv;
      InitialInv(cfg, env);
    }

    /** Accepts exactly valid ceilings, a valid authority and a valid plan that covers the exact call
        matrix, and always works on a ledger of its own. */
    static method Open(identity: Identity, ceilings: Amounts, authority: Authority, slots: seq<Slot>, env: Id -> Call)
      returns (host: FrontierExecutionHost?)
      ensures host != null <==> HostConfig(identity, ceilings, authority, slots).Accepted()
      ensures host != null ==>
        && fresh(host) && fresh(host.ledger)
        && host.cfg == HostConfig(identity, ceilings, authority, slots) && host.env == env
        && host.Valid() && host.State() == InitialShared(host.cfg)
    {
      hide AuthorityValid, PlanValid, ExactCallMatrix, Inv, Ledger.Invariant, ValidCeilings;
      host := null;
      var ledger := BudgetLedger.Open(ceilings);
      if ledger != null && AuthorityValid(authority) {
        var failures := ValidateExecutionPlan(slots);
        if failures == [] {
          var covered := CheckCallMatrix(authority, slots);
          if covered {
            host := new FrontierExecutionHost(HostConfig(identity, ceilings, authority, slots), env, ledger);
          }
        }
      }
    }

    method ClaimSlot(slotId: Id) returns (claim: Claim)
      modifies this
      ensures claim == ClaimAnswer(cfg, old(State()), slotId)
      ensures State() == if claim.Granted? then AfterClaim(old(State()), claim.slot) else old(State())
    {
      var table := cfg.Table();
      if slotId !in table {
        return Denied(NotScheduled);
      }
      if slotId in usedSlots {
        return Denied(AlreadyConsumed);
      }
      var slot := table[slotId];
      var taken := if slot.componentId in allocatedAttempts then allocatedAttempts[slot.componentId] else 0;
      if taken >= cfg.CapacityOf(slot) {
        return Denied(CapacityExhausted);
      }
      usedSlots := usedSlots + {slot.slotId};
      allocatedAttempts := allocatedAttempts[slot.componentId := taken + 1];
      return Granted(slot);
    }

    method ReleaseSlot(slot: Slot)
      modifies this
      ensures State() == AfterRelease(old(State()), slot)
    {
      usedSlots := usedSlots - {slot.slotId};
      var taken := if slot.componentId in allocatedAttempts then allocatedAttempts[slot.componentId] else 0;
      allocatedAttempts := allocatedAttempts[slot.componentId := taken - 1];
    }

    /** The receipt region: only the first attempt to present a receipt obtains it. */
    method ClaimReceipt(digest: Digest) returns (reused: bool)
      modifies this
      ensures reused <==> digest in old(receipts)
      ensures State() == old(State()).(receipts := old(receipts) + {digest})
    {
      reused := digest in receipts;
      if !reused {
        receipts := receipts + {digest};
      }
    }

    method Record(report: Report)
      modifies this
      ensures State() == old(State()).(reports := old(reports) + [report])
    {
      reports := reports + [report];
    }

    /** The part of an attempt after its reservation and before its settlement. */
    method Dispatch(slot: Slot) returns (draft: Draft)
      modifies this
      ensures var called := AfterCall(cfg, slot, env(slot.slotId));
        && State() == WithReceipt(old(State()), called)
        && draft == AfterReceiptClaim(called, ReusedIn(called, old(receipts)), env(slot.slotId).interrupt)
    {
      hide CandidateValid;
      var call, maximums := env(slot.slotId), cfg.MaximumsOf(slot);
      var status, failure, usable := Failure, Some(ProviderException), false;
      var response: Option<Digest>, verified: Option<Digest>, receipt: Option<Digest> := None, None, None;
      var text: Option<string>, authoritative := None, false;
      var charged, observed, interrupted := maximums, Observed(cfg, slot, call), false;
      match call.outcome {
        case ReturnedCandidate(candidate) =>
          if !CandidateValid(cfg, slot, candidate) {
            status, failure := Malformed, Some(InvalidProviderResult);
          } else {
            status, text := candidate.status, Some(candidate.text);
            charged := Amounts(1, candidate.inputTokens, candidate.outputTokens, candidate.moneyMicrounits, observed);
            response := Some(TextDigest(candidate.text));
            match candidate.verification {
              case VerifierInterrupted =>
                status, failure, text, interrupted := CancelledAfterCall, Some(HostInterrupted), None, true;
              case Unverified =>
                failure := Some(ReceiptUnverified);
              case Verified(digest) =>
                verified := Some(digest);
                var reused := ClaimReceipt(digest);
                if reused {
                  failure := Some(ReceiptReused);
                } else if !call.interrupt.DigestAdded? {
                  receipt := Some(digest);
                  authoritative := !call.interrupt.ReceiptTaken?;
                  failure := if status == Success then None else Some(StatusCode(status));
                }
                usable := status == Success && failure.None?;
                if !call.interrupt.Uninterrupted? {
                  status, failure, text, interrupted := CancelledAfterCall, Some(HostInterrupted), None, true;
                  usable := false;
                }
            }
          }
        case RaisedInvalid =>
          status, failure := Malformed, Some(InvalidProviderResult);
        case ReturnedOther =>
          status, failure := Malformed, Some(InvalidProviderResult);
        case RaisedTimeout =>
          status, failure := Timeout, Some(ProviderTimeout);
        case RaisedOther =>
          status, failure := Failure, Some(ProviderException);
        case RaisedInterrupt =>
          status, failure, interrupted := CancelledAfterCall, Some(HostInterrupted), true;
      }
      draft := Draft(
        status, response, verified, charged, observed, receipt, authoritative, failure, usable, text, interrupted);
    }

    /** Every check that comes before the claim; `expired` and `clockValid` are what the clocks say.
        `sha` is the digest of a text. */
    method Screen(request: Request, sha: string -> string, expired: bool, clockValid: bool)
      returns (refusal: Option<Refusal>)
      requires cfg.Accepted()
      ensures refusal.None? <==> Admissible(cfg, request, sha, expired) && clockValid
      ensures refusal.Some? ==> Explains(cfg, request, sha, expired, clockValid, refusal.value)
    {
      hide HostConfig.Accepted, SlotTable;
      if Admissible(cfg, request, sha, expired) {
        AdmissibleIndex(cfg, request, sha, expired);
      }
      if request.retryIndex < 0 {
        return Some(ArgumentsInvalid);
      }
      if expired {
        return Some(EvidenceExpired);
      }
      var table := cfg.Table();
      if request.attemptId !in table {
        return Some(NotScheduled);
      }
      var slot := table[request.attemptId];
      SlotKnown(cfg, request.attemptId);
      if slot.componentId != request.componentId || slot.retryIndex != request.retryIndex
        || slot.modelId != request.modelId || slot.purpose != request.purpose
      {
        return Some(MetadataMismatch);
      }
      if slot.systemPromptSha != sha(request.systemPrompt) || slot.userPayloadSha != sha(request.userPayload) {
        return Some(TextMismatch);
      }
      if !clockValid {
        return Some(ClockInvalid);
      }
      return None;
    }

    /** A request that is not for a frozen slot and its texts is refused without a trace. For any other,
        claims the slot, reserves its worst case, calls the provider, settles once and records once;
        undisturbed, this takes the host through the seven steps of the transition system. */
    method ExecuteAttempt(request: Request, sha: string -> string, expired: bool, clockValid: bool, token: nat)
      returns (result: AttemptResult)
      requires Valid()
      modifies this, ledger
      ensures Valid()
      ensures if Admissible(cfg, request, sha, expired) && clockValid
        then Alone(cfg, env, old(State()), request.attemptId, token, 6) == HostState(State(), map[0 := Finished(result)])
        else
          && State() == old(State())
          && result.Refused? && Explains(cfg, request, sha, expired, clockValid, result.reason)
    {
      hide HostConfig.Accepted, Idle, Alone, ClaimAnswer, ReserveAnswer, AfterReserve, SettleAnswer, AfterSettle;
      hide AfterCall, AfterReceiptClaim, FinalCharge, BuildReport, HostConfig.MaximumsOf, Admissible, Explains;
      var refusal := Screen(request, sha, expired, clockValid);
      if refusal.Some? {
        return Refused(refusal.value);
      }
      var slotId := request.attemptId;
      ghost var before := State();
      IdleLedger(cfg, env, before);
      AloneEnds(cfg, env, before, slotId, token);
      var claim := ClaimSlot(slotId);
      if claim.Denied? {
        AloneDenied(cfg, env, before, slotId, token);
        return Refused(claim.reason);
      }
      var slot := claim.slot;
      GrantedSlot(cfg, before, slotId);
      var maximums := cfg.MaximumsOf(slot);
      var reservation := ledger.Reserve(slotId, maximums, token);
      if !reservation.ReservationGranted? {
        ReleaseSlot(slot);
        AloneUnreserved(cfg, env, before, slotId, token, slot);
        return Refused(ReservationFailed(reservation));
      }
      var draft := Dispatch(slot);
      AloneDispatched(cfg, env, before, slotId, token, slot);
      var charged := FinalCharge(draft, maximums);
      var settled := ledger.Settle(slotId, charged, draft.status, draft.receipt, token);
      if !settled.SettledWithin? && !settled.SettledBreach? {
        return Stranded;
      }
      var report := BuildReport(cfg, slot, draft, settled.SettledBreach?);
      Record(report);
      return ResultOf(report, draft);
    }
  }
}
