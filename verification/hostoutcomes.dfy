/** What a report says of its call, in terms of what the provider returned and the component allows. */
module HostOutcomes {
  import opened Budget
  import opened Options
  import opened Campaign
  import opened ExecutionPlan
  import opened Ledger
  import opened Host
  import opened HostInvariant
  import opened HostReceipts
  import opened HostResults
  import opened HostRuns
  import opened HostSteps
  import opened Texts

  function ComponentOf(cfg: HostConfig, slot: Slot): Component
    requires slot.componentId in cfg.authority.components
  {
    cfg.authority.components[slot.componentId]
  }

  /** The measured time, capped; a clock that fails costs the whole allowance. */
  predicate TimeIs(component: Component, call: Call, ms: int) {
    match call.elapsed
    case Some(elapsed) => ms <= elapsed && ms <= MAX_BUDGET_VALUE && (ms == elapsed || ms == MAX_BUDGET_VALUE)
    case None => ms == component.maxWallClockMs
  }

  /** The component's maximums, and at least the measured time. */
  predicate ChargedInFull(component: Component, call: Call, usage: Amounts) {
    && usage.calls == 1
    && usage.inputTokens == component.maxInputTokens
    && usage.outputTokens == component.maxOutputTokens
    && usage.moneyMicrounits == component.maxMoneyMicrounits
    && usage.wallClockMs >= component.maxWallClockMs
    && (usage.wallClockMs > component.maxWallClockMs ==> TimeIs(component, call, usage.wallClockMs))
    && (call.elapsed.Some? ==> usage.wallClockMs >= call.elapsed.value || usage.wallClockMs >= MAX_BUDGET_VALUE)
  }

  /** The provider's own figures, and the measured time. */
  predicate ChargedAsReported(component: Component, call: Call, usage: Amounts, candidate: Candidate) {
    && usage.calls == 1
    && usage.inputTokens == candidate.inputTokens
    && usage.outputTokens == candidate.outputTokens
    && usage.moneyMicrounits == candidate.moneyMicrounits
    && TimeIs(component, call, usage.wallClockMs)
  }

  /** An unusable report; a breach overrides its failure code. */
  predicate UnusableAs(body: ReportBody, status: Status, code: FailureCode, breach: bool) {
    body.status == status && !body.usable && body.failure == Some(if breach then BudgetBreach else code)
  }

  /** A call without a sound result. */
  predicate FailedAs(
    component: Component, call: Call, body: ReportBody, breach: bool, status: Status, code: FailureCode)
  {
    && UnusableAs(body, status, code, breach)
    && body.response.None? && body.receipt.None?
    && ChargedInFull(component, call, body.usage)
  }

  /** What the call costs stays within what its component allows: the measured time always, and the
      provider's figures where they are what is charged. */
  predicate CallFits(cfg: HostConfig, slot: Slot, call: Call) {
    && slot.componentId in cfg.authority.components && slot.modelId in cfg.authority.models
    && var component := ComponentOf(cfg, slot);
    && (call.elapsed.Some? ==>
          call.elapsed.value <= component.maxWallClockMs || component.maxWallClockMs == MAX_BUDGET_VALUE)
    && (call.outcome.ReturnedCandidate? && ResultSound(cfg, slot, call.outcome.candidate)
        && call.outcome.candidate.verification.Verified? && call.interrupt in {Uninterrupted, UsageAuthoritative} ==>
          && call.outcome.candidate.inputTokens <= component.maxInputTokens
          && call.outcome.candidate.outputTokens <= component.maxOutputTokens
          && call.outcome.candidate.moneyMicrounits <= component.maxMoneyMicrounits)
  }

  /** No call of the plan costs more than its own reservation. */
  ghost predicate CallsWithinReservations(cfg: HostConfig, env: Id -> Call) {
    forall id :: id in cfg.Table() ==> CallFits(cfg, cfg.Table()[id], env(id))
  }

  /** The result names the authorized provider and model, one call, a permitted status, a text where
      it claims success, and figures in range. */
  predicate ResultSound(cfg: HostConfig, slot: Slot, candidate: Candidate)
    requires slot.modelId in cfg.authority.models
  {
    && candidate.provider == cfg.authority.models[slot.modelId].provider
    && candidate.modelId == slot.modelId
    && candidate.physicalAttempts == 1
    && candidate.status in {Success, Failure, Timeout, Refusal, Quota, Malformed}
    && (candidate.status == Success ==> exists i :: 0 <= i < |candidate.text| && !IsSpace(candidate.text[i]))
    && 0 <= candidate.inputTokens <= MAX_BUDGET_VALUE
    && 0 <= candidate.outputTokens <= MAX_BUDGET_VALUE
    && 0 <= candidate.moneyMicrounits <= MAX_BUDGET_VALUE
  }

  /** A sound result whose receipt was verified, by what the receipt region did with it. */
  predicate VerifiedAs(
    component: Component, call: Call, body: ReportBody, breach: bool, candidate: Candidate, digest: Digest)
  {
    && (body.receipt.Some? ==> body.receipt == Some(digest) && call.interrupt != DigestAdded)
    && (if body.receipt.Some? && call.interrupt != ReceiptTaken
        then ChargedAsReported(component, call, body.usage, candidate)
        else ChargedInFull(component, call, body.usage))
    && (if call.interrupt != Uninterrupted then UnusableAs(body, CancelledAfterCall, HostInterrupted, breach)
        else if body.receipt.None? then UnusableAs(body, candidate.status, ReceiptReused, breach)
        else if candidate.status != Success then
          UnusableAs(body, candidate.status, StatusCode(candidate.status), breach)
        else
          && body.status == Success && body.usable == !breach
          && body.failure == if breach then Some(BudgetBreach) else None)
  }

  predicate ReturnedAs(
    cfg: HostConfig, slot: Slot, call: Call, body: ReportBody, breach: bool, candidate: Candidate)
    requires slot.componentId in cfg.authority.components && slot.modelId in cfg.authority.models
  {
    var component := ComponentOf(cfg, slot);
    if !ResultSound(cfg, slot, candidate) then
      FailedAs(component, call, body, breach, Malformed, InvalidProviderResult)
    else
      && body.response == Some(TextDigest(candidate.text))
      && match candidate.verification
         case Verified(digest) => VerifiedAs(component, call, body, breach, candidate, digest)
         case Unverified =>
           && UnusableAs(body, candidate.status, ReceiptUnverified, breach)
           && body.receipt.None? && ChargedInFull(component, call, body.usage)
         case VerifierInterrupted =>
           && UnusableAs(body, CancelledAfterCall, HostInterrupted, breach)
           && body.receipt.None? && ChargedInFull(component, call, body.usage)
  }

  /** Every outcome by name. */
  predicate TellsOutcome(cfg: HostConfig, slot: Slot, call: Call, body: ReportBody, breach: bool)
    requires slot.componentId in cfg.authority.components && slot.modelId in cfg.authority.models
  {
    var component := ComponentOf(cfg, slot);
    match call.outcome
    case RaisedInvalid => FailedAs(component, call, body, breach, Malformed, InvalidProviderResult)
    case ReturnedOther => FailedAs(component, call, body, breach, Malformed, InvalidProviderResult)
    case RaisedTimeout => FailedAs(component, call, body, breach, Timeout, ProviderTimeout)
    case RaisedOther => FailedAs(component, call, body, breach, Failure, ProviderException)
    case RaisedInterrupt => FailedAs(component, call, body, breach, CancelledAfterCall, HostInterrupted)
    case ReturnedCandidate(candidate) => ReturnedAs(cfg, slot, call, body, breach, candidate)
  }

  lemma SoundIsValid(cfg: HostConfig, slot: Slot, candidate: Candidate)
    requires slot.modelId in cfg.authority.models
    ensures CandidateValid(cfg, slot, candidate) <==> ResultSound(cfg, slot, candidate)
  {
    hide IsSpace;
  }

  lemma FullCharge(cfg: HostConfig, slot: Slot, call: Call, draft: Draft)
    requires slot.componentId in cfg.authority.components && ComponentOf(cfg, slot).WellFormed()
    requires !draft.authoritative && draft.observed == Observed(cfg, slot, call)
    ensures ChargedInFull(ComponentOf(cfg, slot), call, FinalCharge(draft, cfg.MaximumsOf(slot)))
  {
  }

  lemma OwnCharge(cfg: HostConfig, slot: Slot, call: Call, draft: Draft, candidate: Candidate)
    requires slot.componentId in cfg.authority.components && draft.authoritative
    requires draft.observed == Observed(cfg, slot, call)
    requires draft.reported == Amounts(
      1, candidate.inputTokens, candidate.outputTokens, candidate.moneyMicrounits, Observed(cfg, slot, call))
    ensures ChargedAsReported(ComponentOf(cfg, slot), call, FinalCharge(draft, cfg.MaximumsOf(slot)), candidate)
  {
  }

  lemma ReturnedTold(
    cfg: HostConfig, slot: Slot, call: Call, candidate: Candidate, reused: bool, breach: bool)
    requires slot.componentId in cfg.authority.components && slot.modelId in cfg.authority.models
    requires ComponentOf(cfg, slot).WellFormed() && call.outcome == ReturnedCandidate(candidate)
    ensures var draft := AfterReceiptClaim(AfterCall(cfg, slot, call), reused, call.interrupt);
      ReturnedAs(cfg, slot, call, BuildReport(cfg, slot, draft, breach).body, breach, candidate)
  {
    var draft := AfterReceiptClaim(AfterCall(cfg, slot, call), reused, call.interrupt);
    SoundIsValid(cfg, slot, candidate);
    hide CandidateValid, ResultSound, Observed, ChargedInFull, ChargedAsReported, HostConfig.MaximumsOf;
    hide Component.WellFormed;
    if draft.authoritative {
      OwnCharge(cfg, slot, call, draft, candidate);
    } else {
      FullCharge(cfg, slot, call, draft);
    }
    hide FinalCharge;
  }

  lemma OutcomeTold(cfg: HostConfig, env: Id -> Call, slot: Slot, reused: bool, breach: bool)
    requires slot.componentId in cfg.authority.components && slot.modelId in cfg.authority.models
    requires ComponentOf(cfg, slot).WellFormed()
    ensures TellsOutcome(cfg, slot, env(slot.slotId), ReportOf(cfg, env, slot, reused, breach).body, breach)
  {
    var call := env(slot.slotId);
    if call.outcome.ReturnedCandidate? {
      ReturnedTold(cfg, slot, call, call.outcome.candidate, reused, breach);
      hide ReturnedAs, AfterCall, AfterReceiptClaim, BuildReport;
    } else {
      FullCharge(cfg, slot, call, AfterCall(cfg, slot, call));
      hide ChargedInFull, FinalCharge, Observed;
    }
  }

  // Over every run.

  /** The attempt was charged more than it reserved on some axis, or took some axis over its ceiling. */
  ghost predicate Overran(events: seq<Event>, id: Id) {
    exists event :: event in events && event.id == id && (event.overReserved != [] || event.overCeiling != [])
  }

  lemma BreachTold(cfg: HostConfig, env: Id -> Call, s: HostState, report: Report)
    requires Inv(cfg, env, s) && report in s.shared.reports
    ensures report.body.failure == Some(BudgetBreach) <==> Overran(s.shared.ledger.events, report.body.attemptId)
  {
    EventsOf(cfg, env, s);
    var events := s.shared.ledger.events;
    hide Inv, SlotTable, HostConfig.MaximumsOf, ReportIds, PendingForSome, ReportsOk;
    assert HasEvent(events, report);
    var own :| own in events && Matches(own, report);
    assert OverBudget(own) <==> report.body.failure == Some(BudgetBreach);
    forall event | event in events && event.id == report.body.attemptId ensures event == own {
      assert event.id == own.id;
    }
    hide Matches;
  }

  lemma BreachCode(cfg: HostConfig, env: Id -> Call, slot: Slot, reused: bool, breach: bool)
    ensures ReportOf(cfg, env, slot, reused, breach).body.failure == Some(BudgetBreach) <==> breach
  {
    DraftSound(cfg, env, slot, reused);
    hide DraftOf, FinalCharge;
  }

  lemma PlanKnown(cfg: HostConfig, id: Id)
    requires cfg.Accepted() && id in cfg.Table()
    ensures var slot := cfg.Table()[id];
      && slot.slotId == id
      && slot.componentId in cfg.authority.components && slot.modelId in cfg.authority.models
      && ComponentOf(cfg, slot).WellFormed()
  {
    SlotKnown(cfg, id);
    hide SlotTable;
  }

  /** In every interleaving, each report on record says what came of its own call: its status, its failure
      code, its response, its receipt and its charge, by the provider's own result or the way the call failed. */
  lemma EveryReportTells(cfg: HostConfig, env: Id -> Call, actions: seq<Action>, report: Report)
    requires cfg.Accepted() && report in Run(cfg, env, actions).shared.reports
    ensures report.body.attemptId in cfg.Table()
    ensures var slot, events := cfg.Table()[report.body.attemptId], Run(cfg, env, actions).shared.ledger.events;
      && slot.componentId in cfg.authority.components && slot.modelId in cfg.authority.models
      && TellsOutcome(cfg, slot, env(slot.slotId), report.body, Overran(events, slot.slotId))
      && report.body.identity == cfg.identity
      && report.body.provider == cfg.authority.models[slot.modelId].provider
      && report.body.modelSnapshot == cfg.authority.models[slot.modelId].snapshot
  {
    hide HostConfig.Accepted, Inv, SlotTable, Run, TellsOutcome, ReportOf, Overran;
    var s := Run(cfg, env, actions);
    EveryInterleavingKeepsInv(cfg, env, actions);
    EventsOf(cfg, env, s);
    assert ReportExplained(cfg, env, report);
    var slot := cfg.Table()[report.body.attemptId];
    var reused, breach :| report == ReportOf(cfg, env, slot, reused, breach);
    PlanKnown(cfg, report.body.attemptId);
    BreachTold(cfg, env, s, report);
    BreachCode(cfg, env, slot, reused, breach);
    OutcomeTold(cfg, env, slot, reused, breach);
    ReportNames(cfg, env, slot, reused, breach);
  }

  lemma ReportNames(cfg: HostConfig, env: Id -> Call, slot: Slot, reused: bool, breach: bool)
    requires slot.modelId in cfg.authority.models
    ensures var body := ReportOf(cfg, env, slot, reused, breach).body;
      && body.identity == cfg.identity
      && body.provider == cfg.authority.models[slot.modelId].provider
      && body.modelSnapshot == cfg.authority.models[slot.modelId].snapshot
  {
    hide AfterReceiptClaim, AfterCall, FinalCharge;
  }

  /** The caller gets the interrupt back exactly when the report says so, and the provider's text
      exactly when the report is usable. */
  predicate ResultTells(call: Call, result: AttemptResult) {
    match result
    case Completed(report, output) =>
      && report.body.status != CancelledAfterCall
      && (report.body.usable ==> call.outcome.ReturnedCandidate? && output == Some(call.outcome.candidate.text))
      && (!report.body.usable ==> output == None)
    case Interrupted(report) => report.body.status == CancelledAfterCall
    case _ => true
  }

  lemma ResultTold(cfg: HostConfig, env: Id -> Call, slot: Slot, reused: bool, breach: bool)
    ensures ResultTells(env(slot.slotId), OutcomeOf(cfg, env, slot, reused, breach))
  {
    hide FinalCharge, Blank, Observed, HostConfig.MaximumsOf;
  }

  lemma EveryResultTells(cfg: HostConfig, env: Id -> Call, actions: seq<Action>, t: nat)
    requires cfg.Accepted()
    requires t in Run(cfg, env, actions).attempts && Run(cfg, env, actions).attempts[t].Finished?
    ensures var result := Run(cfg, env, actions).attempts[t].result;
      && (result.Completed? ==> ResultTells(env(result.report.body.attemptId), result))
      && (result.Interrupted? ==> ResultTells(env(result.partial.body.attemptId), result))
  {
    hide HostConfig.Accepted, SlotTable, Run, ResultTells, SlotAuthorized;
    var s := Run(cfg, env, actions);
    EveryResultOk(cfg, env, actions);
    var result := s.attempts[t].result;
    assert ResultOk(cfg, env, s.shared.reports, result);
    if result.Completed? || result.Interrupted? {
      var report := if result.Completed? then result.report else result.partial;
      var slot := cfg.Table()[report.body.attemptId];
      var reused, breach :| result == OutcomeOf(cfg, env, slot, reused, breach);
      SlotKnown(cfg, report.body.attemptId);
      ResultTold(cfg, env, slot, reused, breach);
    }
  }

  // Calls within their reservations.

  /** What the host would charge for the slot's call, with its receipt new or already used. */
  function ChargeFor(cfg: HostConfig, env: Id -> Call, slot: Slot, reused: bool): Amounts {
    FinalCharge(DraftOf(cfg, env, slot, reused), cfg.MaximumsOf(slot))
  }

  /** A call fits exactly when it is charged no more than its reservation, whether or not its receipt is new. */
  lemma FitsExactly(cfg: HostConfig, env: Id -> Call, slot: Slot)
    requires slot.componentId in cfg.authority.components && slot.modelId in cfg.authority.models
    requires ComponentOf(cfg, slot).WellFormed()
    ensures CallFits(cfg, slot, env(slot.slotId)) <==>
      && ChargeFor(cfg, env, slot, false).Leq(cfg.MaximumsOf(slot))
      && ChargeFor(cfg, env, slot, true).Leq(cfg.MaximumsOf(slot))
  {
    var call := env(slot.slotId);
    ChargeByAuthority(cfg, env, slot, false);
    ChargeByAuthority(cfg, env, slot, true);
    ReportedFigures(cfg, slot, call);
    hide AfterCall, DraftOf, FinalCharge, ResultSound;
  }

  lemma ReportedFigures(cfg: HostConfig, slot: Slot, call: Call)
    requires slot.modelId in cfg.authority.models
    ensures var draft := AfterCall(cfg, slot, call);
      && draft.observed == Observed(cfg, slot, call)
      && (draft.verified.Some? <==>
            call.outcome.ReturnedCandidate? && ResultSound(cfg, slot, call.outcome.candidate)
            && call.outcome.candidate.verification.Verified?)
      && (draft.verified.Some? ==>
            var candidate := call.outcome.candidate;
            draft.reported == Amounts(
              1, candidate.inputTokens, candidate.outputTokens, candidate.moneyMicrounits, draft.observed))
  {
    if call.outcome.ReturnedCandidate? {
      SoundIsValid(cfg, slot, call.outcome.candidate);
    }
    hide CandidateValid, ResultSound, Observed;
  }
}
