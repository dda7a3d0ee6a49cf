/** The execution host as a transition system. Each step of an attempt is one region the source
    runs under a lock, or one call it makes outside of any lock. */
module Host {
  import opened Budget
  import opened Options
  import opened ExecutionPlan
  import opened Ledger
  import opened Texts

  /** The bindings that every record of one host repeats. */
  datatype Identity = Identity(
    campaignSha: string,
    preflightSha: string,
    evidenceExpiresAt: string,
    systemId: Id,
    planSha: string,
    authorityReceipt: string)

  datatype HostConfig = HostConfig(
    identity: Identity,
    ceilings: Amounts,
    authority: Authority,
    slots: seq<Slot>)
  {
    /** What the constructor requires before it accepts any attempt. */
    ghost predicate Accepted() {
      && ValidCeilings(ceilings)
      && AuthorityValid(authority)
      && PlanValid(slots)
      && ExactCallMatrix(authority, slots)
    }

    function Table(): map<Id, Slot> {
      SlotTable(slots)
    }

    /** The frozen maximums of the slot's component. An accepted host knows every component. */
    function MaximumsOf(slot: Slot): Amounts {
      if slot.componentId in authority.components
      then authority.components[slot.componentId].Maximums() else ZERO
    }

    function CapacityOf(slot: Slot): int {
      if slot.componentId in authority.components
      then authority.components[slot.componentId].Capacity() else 0
    }

    function ModelOf(slot: Slot): Model {
      if slot.modelId in authority.models then authority.models[slot.modelId] else Model("", "", [])
    }
  }

  // What the provider, the receipt verifier and the clock do in one attempt.

  datatype Verification = Verified(digest: Digest) | Unverified | VerifierInterrupted

  datatype Candidate = Candidate(
    text: string,
    provider: Id,
    modelId: Id,
    status: Status,
    inputTokens: int,
    outputTokens: int,
    moneyMicrounits: int,
    physicalAttempts: int,
    verification: Verification)

  datatype CallOutcome =
    | RaisedInvalid
    | RaisedTimeout
    | RaisedOther
    | RaisedInterrupt
    | ReturnedOther
    | ReturnedCandidate(candidate: Candidate)

  /** An interrupt in the receipt region, by the last thing done before it: the digest was added to
      the known ones, the attempt took it as its receipt, or its usage became authoritative. One that
      arrives earlier is the verifier's. */
  datatype ClaimInterrupt = Uninterrupted | DigestAdded | ReceiptTaken | UsageAuthoritative

  /** `elapsed` is missing when the clock fails. */
  datatype Call = Call(outcome: CallOutcome, elapsed: Option<nat>, interrupt: ClaimInterrupt)

  /** The identity and shape checks, and the ranges of the reported usage. */
  predicate CandidateValid(cfg: HostConfig, slot: Slot, candidate: Candidate) {
    && candidate.provider == cfg.ModelOf(slot).provider
    && candidate.modelId == slot.modelId
    && candidate.physicalAttempts == 1
    && candidate.status != CancelledAfterCall
    && !(candidate.status == Success && Blank(candidate.text))
    && 0 <= candidate.inputTokens <= MAX_BUDGET_VALUE
    && 0 <= candidate.outputTokens <= MAX_BUDGET_VALUE
    && 0 <= candidate.moneyMicrounits <= MAX_BUDGET_VALUE
  }

  // The local variables of one attempt after the provider call.

  datatype FailureCode =
    | ReceiptUnverified
    | ReceiptReused
    | InvalidProviderResult
    | ProviderTimeout
    | ProviderException
    | HostInterrupted
    | BudgetBreach
    | StatusCode(status: Status)

  datatype Draft = Draft(
    status: Status,
    response: Option<Digest>,
    verified: Option<Digest>,
    reported: Amounts,
    observed: int,
    receipt: Option<Digest>,
    authoritative: bool,
    failure: Option<FailureCode>,
    usable: bool,
    text: Option<string>,
    interrupted: bool)

  function Max(a: int, b: int): int {
    if a >= b then a else b
  }

  function Observed(cfg: HostConfig, slot: Slot, call: Call): int {
    match call.elapsed
    case None => cfg.MaximumsOf(slot).wallClockMs
    case Some(ms) => if ms <= MAX_BUDGET_VALUE then ms else MAX_BUDGET_VALUE
  }

  function Failed(cfg: HostConfig, slot: Slot, call: Call, status: Status, failure: FailureCode): Draft {
    Draft(status, None, None, cfg.MaximumsOf(slot), Observed(cfg, slot, call),
          None, false, Some(failure), false, None, false)
  }

  /** The attempt up to and including the verifier's answer. */
  function AfterCall(cfg: HostConfig, slot: Slot, call: Call): Draft {
    match call.outcome
    case RaisedInvalid => Failed(cfg, slot, call, Malformed, InvalidProviderResult)
    case ReturnedOther => Failed(cfg, slot, call, Malformed, InvalidProviderResult)
    case RaisedTimeout => Failed(cfg, slot, call, Timeout, ProviderTimeout)
    case RaisedOther => Failed(cfg, slot, call, Failure, ProviderException)
    case RaisedInterrupt =>
      Failed(cfg, slot, call, CancelledAfterCall, HostInterrupted).(interrupted := true)
    case ReturnedCandidate(candidate) =>
      if !CandidateValid(cfg, slot, candidate) then
        Failed(cfg, slot, call, Malformed, InvalidProviderResult)
      else
        var draft := Draft(
          candidate.status, Some(TextDigest(candidate.text)), None,
          Amounts(1, candidate.inputTokens, candidate.outputTokens, candidate.moneyMicrounits,
                  Observed(cfg, slot, call)),
          Observed(cfg, slot, call), None, false, Some(ReceiptUnverified), false, Some(candidate.text), false);
        match candidate.verification
        case Unverified => draft
        case VerifierInterrupted =>
          draft.(status := CancelledAfterCall, failure := Some(HostInterrupted), text := None,
                 interrupted := true)
        case Verified(digest) => draft.(verified := Some(digest))
  }

  /** The receipt region: a verified receipt that was used before gives no authority. */
  function AfterReceiptClaim(draft: Draft, reused: bool, interrupt: ClaimInterrupt): Draft {
    if draft.verified.None? then draft
    else
      var taken := !reused && !interrupt.DigestAdded?;
      var failure :=
        if reused then Some(ReceiptReused)
        else if draft.status == Success then None else Some(StatusCode(draft.status));
      var claimed := draft.(
        receipt := if taken then draft.verified else None,
        authoritative := taken && !interrupt.ReceiptTaken?);
      if interrupt.Uninterrupted? then
        claimed.(failure := failure, usable := draft.status == Success && failure.None?)
      else
        claimed.(status := CancelledAfterCall, failure := Some(HostInterrupted), usable := false,
                 text := None, interrupted := true)
  }

  /** Without authority the full reservation is charged, and at least the observed time. */
  function FinalCharge(draft: Draft, maximums: Amounts): Amounts {
    if draft.authoritative then draft.reported.(wallClockMs := draft.observed)
    else maximums.(wallClockMs := Max(maximums.wallClockMs, draft.observed))
  }

  // Reports.

  datatype ReportBody = ReportBody(
    identity: Identity,
    attemptId: Id,
    componentId: Id,
    unitId: Id,
    caseId: Id,
    replicateIndex: int,
    retryIndex: int,
    modelId: Id,
    purpose: Id,
    route: Id,
    routeAuthorityId: Id,
    seed: Option<int>,
    provider: Id,
    modelSnapshot: Id,
    response: Option<Digest>,
    status: Status,
    usage: Amounts,
    receipt: Option<Digest>,
    usable: bool,
    failure: Option<FailureCode>)

  /** The self-hash of a record, idealized as an injective function of its content. */
  datatype Hash<T> = HashOf(content: T)

  datatype Report = Report(body: ReportBody, hash: Hash<ReportBody>)

  function BuildReport(cfg: HostConfig, slot: Slot, draft: Draft, breach: bool): Report {
    var body := ReportBody(
      cfg.identity, slot.slotId, slot.componentId, slot.unitId, slot.caseId, slot.replicateIndex,
      slot.retryIndex, slot.modelId, slot.purpose, slot.route, slot.routeAuthorityId, slot.seed,
      cfg.ModelOf(slot).provider, cfg.ModelOf(slot).snapshot,
      draft.response, draft.status, FinalCharge(draft, cfg.MaximumsOf(slot)), draft.receipt,
      draft.usable && !breach,
      if breach then Some(BudgetBreach) else draft.failure);
    Report(body, HashOf(body))
  }

  // The shared state and the regions that touch it.

  datatype Shared = Shared(
    ledger: LedgerState,
    usedSlots: set<Id>,
    allocatedAttempts: map<Id, int>,
    receipts: set<Digest>,
    reports: seq<Report>)

  datatype Refusal =
    | ArgumentsInvalid
    | EvidenceExpired
    | NotScheduled
    | MetadataMismatch
    | TextMismatch
    | ClockInvalid
    | AlreadyConsumed
    | CapacityExhausted
    | ReservationFailed(why: ReserveResult)

  datatype Claim = Granted(slot: Slot) | Denied(reason: Refusal)

  function InitialShared(cfg: HostConfig): Shared {
    Shared(Opened(cfg.ceilings), {}, map id | id in cfg.authority.components :: 0, {}, [])
  }

  function AllocatedTo(shared: Shared, componentId: Id): int {
    if componentId in shared.allocatedAttempts then shared.allocatedAttempts[componentId] else 0
  }

  function ClaimAnswer(cfg: HostConfig, shared: Shared, slotId: Id): Claim {
    if slotId !in cfg.Table() then Denied(NotScheduled)
    else if slotId in shared.usedSlots then Denied(AlreadyConsumed)
    else
      var slot := cfg.Table()[slotId];
      if AllocatedTo(shared, slot.componentId) >= cfg.CapacityOf(slot) then Denied(CapacityExhausted)
      else Granted(slot)
  }

  function AfterClaim(shared: Shared, slot: Slot): Shared {
    shared.(
      usedSlots := shared.usedSlots + {slot.slotId},
      allocatedAttempts := shared.allocatedAttempts[slot.componentId := AllocatedTo(shared, slot.componentId) + 1])
  }

  function AfterRelease(shared: Shared, slot: Slot): Shared {
    shared.(
      usedSlots := shared.usedSlots - {slot.slotId},
      allocatedAttempts := shared.allocatedAttempts[slot.componentId := AllocatedTo(shared, slot.componentId) - 1])
  }

  predicate ReusedIn(draft: Draft, receipts: set<Digest>) {
    draft.verified.Some? && draft.verified.value in receipts
  }

  function WithReceipt(shared: Shared, draft: Draft): Shared {
    if draft.verified.None? then shared
    else shared.(receipts := shared.receipts + {draft.verified.value})
  }

  // One attempt, from its claim to its record.

  datatype AttemptResult =
    | Refused(reason: Refusal)
    | Completed(report: Report, output: Option<string>)
    | Interrupted(partial: Report)
    | Stranded

  datatype Phase =
    | Claimed(slot: Slot)
    | Releasing(slot: Slot, why: ReserveResult)
    | Reserved(slot: Slot, token: nat)
    | Called(slot: Slot, token: nat, draft: Draft)
    | ReceiptClaimed(slot: Slot, token: nat, draft: Draft)
    | Settled(slot: Slot, pending: AttemptResult)
    | Finished(result: AttemptResult)
  {
    predicate Live() {
      !Finished?
    }

    predicate HasReservation() {
      Reserved? || Called? || ReceiptClaimed?
    }

    /** The attempt is charged but its report is not yet on record. */
    predicate HasReport() {
      Settled? && (pending.Completed? || pending.Interrupted?)
    }

    function PendingReport(): Report
      requires HasReport()
    {
      if pending.Completed? then pending.report else pending.partial
    }
  }

  function ResultOf(report: Report, draft: Draft): AttemptResult {
    if draft.interrupted then Interrupted(report)
    else Completed(report, if report.body.usable then draft.text else None)
  }

  datatype HostState = HostState(shared: Shared, attempts: map<nat, Phase>)

  /** `Start` begins attempt `id` on a slot; `Advance` performs the attempt's next step. The token
      is the random value a reservation draws. */
  datatype Action = Start(id: nat, slotId: Id) | Advance(id: nat, token: nat)

  function SettleSlot(cfg: HostConfig, ledger: LedgerState, slot: Slot, token: nat, draft: Draft): SettleResult {
    SettleAnswer(ledger, slot.slotId, FinalCharge(draft, cfg.MaximumsOf(slot)), draft.status, draft.receipt, token)
  }

  ghost function NextPhase(cfg: HostConfig, env: Id -> Call, shared: Shared, phase: Phase, drawn: nat): Phase {
    match phase
    case Claimed(slot) =>
      var answer := ReserveAnswer(shared.ledger, slot.slotId, cfg.MaximumsOf(slot));
      if answer.ReservationGranted? then Reserved(slot, drawn) else Releasing(slot, answer)
    case Releasing(slot, why) => Finished(Refused(ReservationFailed(why)))
    case Reserved(slot, token) => Called(slot, token, AfterCall(cfg, slot, env(slot.slotId)))
    case Called(slot, token, draft) =>
      ReceiptClaimed(slot, token, AfterReceiptClaim(
        draft, ReusedIn(draft, shared.receipts), env(slot.slotId).interrupt))
    case ReceiptClaimed(slot, token, draft) =>
      var answer := SettleSlot(cfg, shared.ledger, slot, token, draft);
      Settled(slot,
        if answer.SettledWithin? || answer.SettledBreach?
        then ResultOf(BuildReport(cfg, slot, draft, answer.SettledBreach?), draft) else Stranded)
    case Settled(slot, pending) => Finished(pending)
    case Finished(_) => phase
  }

  ghost function NextShared(cfg: HostConfig, env: Id -> Call, shared: Shared, phase: Phase, drawn: nat): Shared {
    match phase
    case Claimed(slot) =>
      shared.(ledger := AfterReserve(shared.ledger, slot.slotId, cfg.MaximumsOf(slot), drawn))
    case Releasing(slot, _) => AfterRelease(shared, slot)
    case Reserved(_, _) => shared
    case Called(_, _, draft) => WithReceipt(shared, draft)
    case ReceiptClaimed(slot, token, draft) =>
      shared.(ledger := AfterSettle(
        shared.ledger, slot.slotId, FinalCharge(draft, cfg.MaximumsOf(slot)), draft.status, draft.receipt, token))
    case Settled(_, _) =>
      if phase.HasReport() then shared.(reports := shared.reports + [phase.PendingReport()]) else shared
    case Finished(_) => shared
  }

  ghost function Step(cfg: HostConfig, env: Id -> Call, s: HostState, action: Action): HostState {
    match action
    case Start(id, slotId) =>
      if id in s.attempts then s
      else
        (match ClaimAnswer(cfg, s.shared, slotId)
         case Denied(reason) => s.(attempts := s.attempts[id := Finished(Refused(reason))])
         case Granted(slot) =>
           HostState(AfterClaim(s.shared, slot), s.attempts[id := Claimed(slot)]))
    case Advance(id, token) =>
      if id !in s.attempts then s
      else
        HostState(
          NextShared(cfg, env, s.shared, s.attempts[id], token),
          s.attempts[id := NextPhase(cfg, env, s.shared, s.attempts[id], token)])
  }

  function Initial(cfg: HostConfig): HostState {
    HostState(InitialShared(cfg), map[])
  }

  /** The state after any interleaving of the steps of any number of attempts. */
  ghost function Run(cfg: HostConfig, env: Id -> Call, actions: seq<Action>): HostState {
    if actions == [] then Initial(cfg)
    else Step(cfg, env, Run(cfg, env, actions[..|actions| - 1]), actions[|actions| - 1])
  }
}
