/** The life of a slot: every report, charge and result in every interleaving. */
module HostLifecycle {
  import opened Budget
  import opened Options
  import opened ExecutionPlan
  import opened Ledger
  import opened Host
  import opened HostInvariant
  import opened HostReceipts
  import opened HostRuns
  import opened HostSteps
  import opened Texts
  import opened HostResults

  /** A charged attempt is settled exactly once; it is reported exactly once, or will be by the one
      live attempt that still holds its slot. */
  ghost predicate ChargedOnceReportedOnce(s: HostState) {
    var events, reports := s.shared.ledger.events, s.shared.reports;
    && (forall i, j :: 0 <= i < j < |events| ==> events[i].id != events[j].id)
    && (forall i, j :: 0 <= i < j < |reports| ==> reports[i].body.attemptId != reports[j].body.attemptId)
    && (forall report :: report in reports ==> HasEvent(events, report))
    && (forall event :: event in events ==>
          (event.id in ReportIds(reports) <==> !PendingForSome(s.attempts, event.id)))
  }

  /** A slot that was given back has no reservation, no charge and no report. */
  ghost predicate ReleasedLeavesNoTrace(s: HostState) {
    forall id :: id !in s.shared.usedSlots ==>
      && id !in s.shared.ledger.reservations
      && id !in EventIds(s.shared.ledger.events)
      && id !in ReportIds(s.shared.reports)
  }

  /** Without a receipt the whole reservation is charged. Only a receipted success whose own charge
      stayed within budget is usable. */
  ghost predicate ReportSound(cfg: HostConfig, events: seq<Event>, report: Report) {
    && report.body.attemptId in cfg.Table()
    && (report.body.receipt.None? ==>
          cfg.MaximumsOf(cfg.Table()[report.body.attemptId]).Leq(report.body.usage))
    && (report.body.usable ==>
          && report.body.status == Success && report.body.receipt.Some?
          && report.body.response.Some? && report.body.failure.None?)
    && (!report.body.usable ==> report.body.failure.Some?)
    && (forall event :: event in events && event.id == report.body.attemptId && OverBudget(event) ==>
          !report.body.usable && report.body.failure == Some(BudgetBreach))
  }

  /** Text leaves the host only with a usable report, and it is the text the provider returned. */
  ghost predicate OutputSound(env: Id -> Call, reports: seq<Report>, result: AttemptResult) {
    result.Completed? && result.output.Some? ==>
      && result.report in reports
      && result.report.body.usable
      && env(result.report.body.attemptId).outcome.ReturnedCandidate?
      && result.output.value == env(result.report.body.attemptId).outcome.candidate.text
  }

  /** An attempt that went past its reservation ends with its report on record and its charge settled. */
  ghost predicate EndedOnRecord(s: HostState, result: AttemptResult) {
    && (result.Completed? ==> result.report in s.shared.reports && HasEvent(s.shared.ledger.events, result.report))
    && (result.Interrupted? ==> result.partial in s.shared.reports && HasEvent(s.shared.ledger.events, result.partial))
  }

  lemma EventHolder(cfg: HostConfig, env: Id -> Call, s: HostState, event: Event)
    requires Inv(cfg, env, s) && event in s.shared.ledger.events
    ensures event.id in s.shared.usedSlots
    ensures event.id in ReportIds(s.shared.reports) <==> !PendingForSome(s.attempts, event.id)
  {
    Clauses(cfg, env, s);
    hide LedgerOk, CountersOk, ReservationsOk, ReceiptsOk, ReportsOk, PhasesOk, SlotTable, HeldBySome, HasEvent;
    hide ReportIds;
    assert event.id in ReportIds(s.shared.reports) || PendingForSome(s.attempts, event.id);
  }

  lemma ReservationHolder(cfg: HostConfig, env: Id -> Call, s: HostState, id: Id)
    requires Inv(cfg, env, s) && id in s.shared.ledger.reservations
    ensures id in s.shared.usedSlots
  {
    Clauses(cfg, env, s);
    hide LedgerOk, CountersOk, EventsOk, ReceiptsOk, ReportsOk, PhasesOk, SlotTable, HeldBySome, ReportIds;
    assert ReservedBySome(s.attempts, id);
  }

  lemma InvGivesLifecycle(cfg: HostConfig, env: Id -> Call, s: HostState)
    requires Inv(cfg, env, s)
    ensures ChargedOnceReportedOnce(s)
    ensures ReleasedLeavesNoTrace(s)
    ensures RecordedOnce(s.shared.reports)
  {
    Clauses(cfg, env, s);
    forall event | event in s.shared.ledger.events {
      EventHolder(cfg, env, s, event);
    }
    forall id | id in s.shared.ledger.reservations {
      ReservationHolder(cfg, env, s, id);
    }
    assert ReportIds(s.shared.reports) <= s.shared.usedSlots && EventIds(s.shared.ledger.events) <= s.shared.usedSlots;
    assert IdsPartitioned(s.shared.ledger) && ReportsOk(cfg, env, s.shared.reports);
    hide HoldersOk, CountersOk, ReservationsOk, ReceiptsOk, PhasesOk, Accounted, BreachExplained, AmountsValid;
    hide SlotTable, ReportIds, PendingForSome, HasEvent, ReportExplained, RecordedOnce, EventIds;
  }

  /** A slot is on record, or a live attempt is at work on it. */
  ghost predicate Taken(s: HostState, slotId: Id) {
    || (exists report :: report in s.shared.reports && report.body.attemptId == slotId)
    || (exists t :: t in s.attempts && !s.attempts[t].Finished? && s.attempts[t].slot.slotId == slotId)
  }

  /** A claim is granted exactly for a slot of the plan that is not taken; nothing else is ever refused. */
  lemma ClaimTold(cfg: HostConfig, env: Id -> Call, s: HostState, slotId: Id)
    requires cfg.Accepted() && Inv(cfg, env, s)
    ensures match ClaimAnswer(cfg, s.shared, slotId)
      case Granted(slot) => slot in cfg.slots && slot.slotId == slotId && !Taken(s, slotId)
      case Denied(reason) =>
        var scheduled := exists slot :: slot in cfg.slots && slot.slotId == slotId;
        (reason == NotScheduled && !scheduled) || (reason == AlreadyConsumed && scheduled && Taken(s, slotId))
  {
    Clauses(cfg, env, s);
    CapacityNeverExhausted(cfg, env, s, slotId);
    SlotTableHoldsPlan(cfg.slots);
    hide Inv, SlotTable, LedgerOk, CountersOk, ReservationsOk, EventsOk, ReceiptsOk, ReportsOk, PhasesOk;
    hide HostConfig.CapacityOf;
    assert slotId in s.shared.usedSlots <==> Taken(s, slotId) by {
      TakenIsUsed(cfg, s, slotId);
    }
  }

  lemma TakenIsUsed(cfg: HostConfig, s: HostState, slotId: Id)
    requires HoldersOk(cfg.Table(), s.shared.usedSlots, ReportIds(s.shared.reports), s.attempts)
    ensures slotId in s.shared.usedSlots <==> Taken(s, slotId)
  {
    if slotId in s.shared.usedSlots && slotId !in ReportIds(s.shared.reports) {
      assert HeldBySome(s.attempts, slotId);
    }
    hide SlotTable;
  }

  lemma MatchingEventUnique(cfg: HostConfig, env: Id -> Call, s: HostState, report: Report, event: Event)
    requires Inv(cfg, env, s) && report in s.shared.reports
    requires event in s.shared.ledger.events && event.id == report.body.attemptId
    ensures Matches(event, report)
  {
    hide Inv, SlotTable, HostConfig.MaximumsOf, ReportIds, PendingForSome, ReportsOk;
    EventsOf(cfg, env, s);
    assert HasEvent(s.shared.ledger.events, report);
    var other :| other in s.shared.ledger.events && Matches(other, report);
    assert other.id == event.id;
    hide Matches;
  }

  lemma ReportIsSound(cfg: HostConfig, env: Id -> Call, s: HostState, report: Report)
    requires cfg.Accepted() && Inv(cfg, env, s) && report in s.shared.reports
    ensures ReportSound(cfg, s.shared.ledger.events, report)
  {
    Clauses(cfg, env, s);
    hide HostConfig.Accepted, SlotTable;
    forall event | event in s.shared.ledger.events && event.id == report.body.attemptId
      ensures OverBudget(event) <==> report.body.failure == Some(BudgetBreach)
    {
      MatchingEventUnique(cfg, env, s, report, event);
    }
    assert ReportExplained(cfg, env, report);
    hide Inv, OverBudget;
    ExplainedIsSound(cfg, env, report);
  }

  lemma ExplainedIsSound(cfg: HostConfig, env: Id -> Call, report: Report)
    requires cfg.Accepted() && ReportExplained(cfg, env, report)
    ensures report.body.receipt.None? ==>
      cfg.MaximumsOf(cfg.Table()[report.body.attemptId]).Leq(report.body.usage)
    ensures report.body.usable ==>
      && report.body.status == Success && report.body.receipt.Some?
      && report.body.response.Some? && report.body.failure.None?
    ensures !report.body.usable ==> report.body.failure.Some?
    ensures report.body.usage.OneCall()
  {
    hide HostConfig.Accepted, SlotTable;
    var slot := cfg.Table()[report.body.attemptId];
    var reused, breach :| report == ReportOf(cfg, env, slot, reused, breach);
    SlotKnown(cfg, report.body.attemptId);
    ChargeValid(cfg, env, slot, reused);
    DraftSound(cfg, env, slot, reused);
    hide DraftOf, FinalCharge, SlotAuthorized;
  }

  lemma OutputIsSound(cfg: HostConfig, env: Id -> Call, s: HostState, t: nat)
    requires cfg.Accepted() && ResultsOk(cfg, env, s) && t in s.attempts && s.attempts[t].Finished?
    ensures OutputSound(env, s.shared.reports, s.attempts[t].result)
    ensures s.attempts[t].result != Stranded && s.attempts[t].result != Refused(CapacityExhausted)
  {
    hide HostConfig.Accepted, SlotTable;
    var result := s.attempts[t].result;
    assert ResultOk(cfg, env, s.shared.reports, result);
    if result.Completed? && result.output.Some? {
      var id := result.report.body.attemptId;
      var reused, breach :| result == OutcomeOf(cfg, env, cfg.Table()[id], reused, breach);
      SlotKnown(cfg, id);
      TextFromProvider(cfg, env, cfg.Table()[id], reused);
      hide DraftOf, SlotAuthorized;
    }
  }

  lemma TextFromProvider(cfg: HostConfig, env: Id -> Call, slot: Slot, reused: bool)
    ensures var text := DraftOf(cfg, env, slot, reused).text;
      text.Some? ==>
        && env(slot.slotId).outcome.ReturnedCandidate?
        && text.value == env(slot.slotId).outcome.candidate.text
  {
    hide Blank;
  }

  /** In every interleaving, with any exceptions and interrupts in the calls: each charged attempt
      is settled once and reported once, an attempt that ends after its reservation has its report and
      its charge, a released slot leaves no trace, receipts on record are pairwise distinct, a missing
      receipt costs the full reservation, and text leaves the host only for a receipted success within budget. */
  lemma SlotLifecycle(cfg: HostConfig, env: Id -> Call, actions: seq<Action>)
    requires cfg.Accepted()
    ensures var s := Run(cfg, env, actions);
      && ChargedOnceReportedOnce(s)
      && ReleasedLeavesNoTrace(s)
      && RecordedOnce(s.shared.reports)
      && (forall report :: report in s.shared.reports ==> ReportSound(cfg, s.shared.ledger.events, report))
      && (forall t :: t in s.attempts && s.attempts[t].Finished? ==>
            && s.attempts[t].result != Stranded
            && s.attempts[t].result != Refused(CapacityExhausted)
            && EndedOnRecord(s, s.attempts[t].result)
            && OutputSound(env, s.shared.reports, s.attempts[t].result))
  {
    hide HostConfig.Accepted, Inv, Run, ReportSound, OutputSound, RecordedOnce, EndedOnRecord;
    hide ChargedOnceReportedOnce, ReleasedLeavesNoTrace, ResultsOk;
    var s := Run(cfg, env, actions);
    EveryInterleavingKeepsInv(cfg, env, actions);
    EveryResultOk(cfg, env, actions);
    InvGivesLifecycle(cfg, env, s);
    forall report | report in s.shared.reports {
      ReportIsSound(cfg, env, s, report);
    }
    forall t | t in s.attempts && s.attempts[t].Finished?
      ensures s.attempts[t].result != Stranded && s.attempts[t].result != Refused(CapacityExhausted)
      ensures EndedOnRecord(s, s.attempts[t].result) && OutputSound(env, s.shared.reports, s.attempts[t].result)
    {
      OutputIsSound(cfg, env, s, t);
      EndIsRecorded(cfg, env, s, t);
    }
  }

  lemma EndIsRecorded(cfg: HostConfig, env: Id -> Call, s: HostState, t: nat)
    requires Inv(cfg, env, s) && ResultsOk(cfg, env, s) && t in s.attempts && s.attempts[t].Finished?
    ensures EndedOnRecord(s, s.attempts[t].result)
  {
    EventsOf(cfg, env, s);
    var result := s.attempts[t].result;
    assert ResultOk(cfg, env, s.shared.reports, result);
    hide Inv, SlotTable, ReportIds, PendingForSome, ReportsOk, ResultExplained, HasEvent;
    if result.Completed? {
      assert HasEvent(s.shared.ledger.events, result.report);
    }
    if result.Interrupted? {
      assert HasEvent(s.shared.ledger.events, result.partial);
    }
  }
}
