/** A finished, unbreached host always yields an accepted manifest. */
module HostManifest {
  import opened Budget
  import opened Campaign
  import opened ExecutionPlan
  import opened Ledger
  import opened Host
  import opened HostInvariant
  import opened HostReceipts
  import opened HostRuns
  import opened HostSteps
  import opened HostLifecycle
  import opened HostAdmission
  import opened HostSnapshot
  import opened HostSchedule
  import opened Manifest

  /** The document the host was built from. */
  predicate PlanOf(cfg: HostConfig, plan: PlanDocument) {
    plan.slots == cfg.slots && MatchesPlan(cfg.identity, plan)
  }

  lemma ExplainedReportBound(cfg: HostConfig, env: Id -> Call, report: Report)
    requires cfg.Accepted() && ReportExplained(cfg, env, report)
    ensures ReportBound(report, cfg.Table()[report.body.attemptId], cfg.identity)
  {
    hide SlotTable, SlotAuthorized;
    var slot := cfg.Table()[report.body.attemptId];
    SlotKnown(cfg, report.body.attemptId);
    assert SlotShapeValid(slot);
    hide HostConfig.Accepted;
    ExplainedIsSound(cfg, env, report);
    var reused, breach :| report == ReportOf(cfg, env, slot, reused, breach);
    hide DraftOf, FinalCharge;
  }

  lemma HostReportsBound(cfg: HostConfig, env: Id -> Call, s: HostState)
    requires cfg.Accepted() && Inv(cfg, env, s) && Complete(cfg, s)
    ensures ReportsBound(SortedReports(cfg, s.shared.reports), cfg.slots, cfg.identity)
  {
    Clauses(cfg, env, s);
    hide HostConfig.Accepted, SlotTable, Complete, SortedReports, ReportBound;
    ReportsArranged(cfg, env, s);
    PlanIds(cfg);
    assert ReportsOk(cfg, env, s.shared.reports);
    hide Inv, ReportExplained, RecordedOnce;
    var sorted := SortedReports(cfg, s.shared.reports);
    forall i | 0 <= i < |cfg.slots| ensures ReportBound(sorted[i], cfg.slots[i], cfg.identity) {
      ExplainedReportBound(cfg, env, sorted[i]);
    }
  }

  /** Without a breach no charge exceeded its reservation. */
  lemma UnbreachedNoOverrun(cfg: HostConfig, env: Id -> Call, s: HostState)
    requires Inv(cfg, env, s) && !s.shared.ledger.breached
    ensures NoOverrun(s.shared.ledger.events)
  {
    Clauses(cfg, env, s);
    hide HoldersOk, CountersOk, ReservationsOk, EventsOk, ReceiptsOk, ReportsOk, PhasesOk, SlotTable;
    hide IdsPartitioned, Accounted, AmountsValid, Amounts.Leq;
    assert BreachExplained(s.shared.ledger);
    forall event | event in s.shared.ledger.events ensures event.charged.Leq(event.reserved) {
      assert !OverBudget(event);
    }
  }

  lemma LedgerOf(cfg: HostConfig, env: Id -> Call, s: HostState)
    requires Inv(cfg, env, s)
    ensures AmountsValid(s.shared.ledger) && Accounted(s.shared.ledger)
    ensures s.shared.ledger.ceilings == cfg.ceilings
  {
    Clauses(cfg, env, s);
    hide HoldersOk, CountersOk, ReservationsOk, EventsOk, ReceiptsOk, ReportsOk, PhasesOk, SlotTable;
    hide IdsPartitioned, Accounted, BreachExplained, AmountsValid;
  }

  lemma ConsumedOnAxis(ledger: LedgerState, axis: Axis)
    requires AmountsValid(ledger) && Accounted(ledger) && NoOverrun(ledger.events)
    ensures 0 <= ledger.consumed.At(axis) <= ledger.ceilings.At(axis)
  {
    hide ActiveAt, Total, Amounts.Leq;
    NoOverrunWithinCeilings(ledger, axis);
    ActiveNonNegative(ledger.reservations, axis);
    forall i | 0 <= i < |ledger.events| ensures 0 <= Charged(ledger.events, axis)[i] {
      assert ledger.events[i] in ledger.events;
      OnEveryAxis(ZERO, ledger.events[i].charged);
    }
    TotalNonNegative(Charged(ledger.events, axis));
  }

  lemma ConsumedWithin(cfg: HostConfig, env: Id -> Call, s: HostState)
    requires Inv(cfg, env, s) && NoOverrun(s.shared.ledger.events)
    ensures cfg.ceilings.InRange()
    ensures ZERO.Leq(s.shared.ledger.consumed) && s.shared.ledger.consumed.Leq(cfg.ceilings)
  {
    hide Inv, SlotTable, Accounted, NoOverrun, Amounts.Leq;
    LedgerOf(cfg, env, s);
    var ledger := s.shared.ledger;
    forall axis: Axis {
      ConsumedOnAxis(ledger, axis);
    }
    OnEveryAxis(ZERO, ledger.consumed);
    OnEveryAxis(ledger.consumed, ledger.ceilings);
  }

  lemma HostEventsAgree(cfg: HostConfig, env: Id -> Call, s: HostState)
    requires cfg.Accepted() && Inv(cfg, env, s) && Complete(cfg, s) && NoOverrun(s.shared.ledger.events)
    ensures EventsAgree(SortedEvents(cfg, s.shared.ledger.events), SortedReports(cfg, s.shared.reports))
  {
    hide HostConfig.Accepted, Inv, SlotTable, Complete, SortedReports, SortedEvents, NoOverrun;
    ReportsArranged(cfg, env, s);
    EventsArranged(cfg, env, s);
    var events, reports := SortedEvents(cfg, s.shared.ledger.events), SortedReports(cfg, s.shared.reports);
    forall i | 0 <= i < |cfg.slots| ensures EventAgrees(events[i], reports[i]) {
      MatchingEventUnique(cfg, env, s, reports[i], events[i]);
      NothingOverBudget(cfg, env, s, events[i]);
    }
  }

  lemma AgreeingTotals(events: seq<Event>, reports: seq<Report>, axis: Axis)
    requires EventsAgree(events, reports)
    ensures Total(Charged(events, axis)) == Total(Usages(reports, axis))
  {
    forall i | 0 <= i < |events| ensures Charged(events, axis)[i] == Usages(reports, axis)[i] {
      assert EventAgrees(events[i], reports[i]);
    }
    assert Charged(events, axis) == Usages(reports, axis);
  }

  lemma HostLedgerTerminal(cfg: HostConfig, env: Id -> Call, s: HostState)
    requires cfg.Accepted() && Inv(cfg, env, s) && Complete(cfg, s) && NoOverrun(s.shared.ledger.events)
    ensures TerminalLedgerValid(
      SnapshotOf(cfg, s.shared).body.ledger, SortedReports(cfg, s.shared.reports))
  {
    hide HostConfig.Accepted, Inv, SlotTable, Complete, SortedReports, SortedEvents, NoOverrun, Total, Charged;
    var events, reports := SortedEvents(cfg, s.shared.ledger.events), SortedReports(cfg, s.shared.reports);
    TerminalLedger(cfg, env, s);
    ConsumedWithin(cfg, env, s);
    ConsumedDetermined(cfg, env, s);
    HostEventsAgree(cfg, env, s);
    forall axis: Axis ensures TotalCharge(events).At(axis) == Total(Usages(reports, axis)) {
      AgreeingTotals(events, reports, axis);
    }
    hide TotalCharge, EventsAgree, Usages, LedgerBodyOf;
  }

  /** Whenever every slot is on record and the ledger is not breached, the host's snapshot builds a
      manifest that the validator accepts. */
  lemma CompletedHostAccepted(
    cfg: HostConfig, env: Id -> Call, actions: seq<Action>, plan: PlanDocument, manifestId: Id)
    requires cfg.Accepted() && PlanOf(cfg, plan)
    requires Complete(cfg, Run(cfg, env, actions)) && !Run(cfg, env, actions).shared.ledger.breached
    ensures var snapshot := SnapshotOf(cfg, Run(cfg, env, actions).shared);
      && snapshot.hash == SnapshotHashOf(snapshot.body)
      && ManifestValid(ManifestFrom(snapshot, manifestId), plan)
  {
    hide Inv, SlotTable, Complete, SortedReports, SortedEvents, NoOverrun, Run, PlanValid, AuthorityValid;
    hide ExactCallMatrix, TerminalLedgerValid, LedgerBodyOf;
    var s := Run(cfg, env, actions);
    EveryInterleavingKeepsInv(cfg, env, actions);
    UnbreachedNoOverrun(cfg, env, s);
    HostReportsBound(cfg, env, s);
    HostLedgerTerminal(cfg, env, s);
    ReportsArranged(cfg, env, s);
    hide ReportsBound;
    assert SnapshotOf(cfg, s.shared).body.reports == SortedReports(cfg, s.shared.reports);
    assert ManifestFrom(SnapshotOf(cfg, s.shared), manifestId).body.completedSlotIds == SlotIds(cfg.slots);
  }

  // The bundle's check against the campaign's frozen maximums.

  /** Each attempt reserved its component's frozen maximums and used no more. */
  ghost predicate WithinFrozenMaximums(manifest: ExecutionManifest, plan: PlanDocument, components: map<Id, Component>)
  {
    var events, reports := manifest.body.ledger.body.events, manifest.body.reports;
    && |events| == |reports| == |plan.slots|
    && forall i :: 0 <= i < |plan.slots| ==>
         && plan.slots[i].componentId in components
         && events[i].reserved == components[plan.slots[i].componentId].Maximums()
         && reports[i].body.usage.Leq(components[plan.slots[i].componentId].Maximums())
  }

  lemma SlotWithinMaximums(cfg: HostConfig, env: Id -> Call, s: HostState, i: nat)
    requires cfg.Accepted() && Inv(cfg, env, s) && Complete(cfg, s) && NoOverrun(s.shared.ledger.events)
    requires i < |cfg.slots|
    ensures var events, reports := SortedEvents(cfg, s.shared.ledger.events), SortedReports(cfg, s.shared.reports);
      && |events| == |reports| == |cfg.slots|
      && cfg.slots[i].componentId in cfg.authority.components
      && events[i].reserved == cfg.MaximumsOf(cfg.slots[i])
      && reports[i].body.usage.Leq(cfg.MaximumsOf(cfg.slots[i]))
  {
    hide HostConfig.Accepted, Inv, SlotTable, Complete, SortedReports, SortedEvents, HostConfig.MaximumsOf;
    hide Amounts.Leq, SlotAuthorized, OverBudget, PlanValid, Accounted;
    HostEventsAgree(cfg, env, s);
    EventsArranged(cfg, env, s);
    LedgerFromPlan(cfg, env, s);
    PlanIds(cfg);
    SlotKnown(cfg, cfg.slots[i].slotId);
    var events, reports := SortedEvents(cfg, s.shared.ledger.events), SortedReports(cfg, s.shared.reports);
    assert EventAgrees(events[i], reports[i]) && events[i] in s.shared.ledger.events;
  }

  lemma CompletedHostWithinMaximums(
    cfg: HostConfig, env: Id -> Call, actions: seq<Action>, plan: PlanDocument, manifestId: Id)
    requires cfg.Accepted() && PlanOf(cfg, plan)
    requires Complete(cfg, Run(cfg, env, actions)) && !Run(cfg, env, actions).shared.ledger.breached
    ensures WithinFrozenMaximums(
      ManifestFrom(SnapshotOf(cfg, Run(cfg, env, actions).shared), manifestId), plan, cfg.authority.components)
  {
    hide HostConfig.Accepted, Inv, SlotTable, Complete, SortedReports, SortedEvents, Run, Component.Maximums;
    hide Amounts.Leq, NoOverrun, Total;
    var s := Run(cfg, env, actions);
    EveryInterleavingKeepsInv(cfg, env, actions);
    UnbreachedNoOverrun(cfg, env, s);
    SlotsNotEmpty(cfg);
    SlotWithinMaximums(cfg, env, s, 0);
    forall i | 0 <= i < |cfg.slots| {
      SlotWithinMaximums(cfg, env, s, i);
    }
  }

  lemma SlotsNotEmpty(cfg: HostConfig)
    requires cfg.Accepted()
    ensures cfg.slots != []
  {
    hide AuthorityValid, ExactCallMatrix;
  }
}
