/** A complete run's snapshot depends on the calls, not on their order. */
module HostSchedule {
  import opened Budget
  import opened Options
  import opened ExecutionPlan
  import opened Ledger
  import opened Host
  import opened HostInvariant
  import opened HostReceipts
  import opened HostRuns
  import opened HostSteps
  import opened HostAdmission
  import opened HostSnapshot
  import opened Sorting
  import opened HostReuse

  // A complete run without overruns.

  lemma NothingOverBudget(cfg: HostConfig, env: Id -> Call, s: HostState, event: Event)
    requires Inv(cfg, env, s) && NoOverrun(s.shared.ledger.events) && event in s.shared.ledger.events
    ensures event.overReserved == [] && event.overCeiling == []
  {
    Clauses(cfg, env, s);
    hide HoldersOk, CountersOk, ReservationsOk, EventsOk, ReceiptsOk, ReportsOk, PhasesOk, SlotTable;
    hide IdsPartitioned, Accounted, AmountsValid, Amounts.Leq;
    assert BreachExplained(s.shared.ledger);
  }

  lemma EventOfReport(cfg: HostConfig, env: Id -> Call, s: HostState, report: Report) returns (event: Event)
    requires Inv(cfg, env, s) && report in s.shared.reports
    ensures event in s.shared.ledger.events && Matches(event, report)
  {
    Clauses(cfg, env, s);
    hide LedgerOk, HoldersOk, CountersOk, ReservationsOk, ReceiptsOk, ReportsOk, PhasesOk, SlotTable;
    assert HasEvent(s.shared.ledger.events, report);
    event :| event in s.shared.ledger.events && Matches(event, report);
  }

  lemma NotBreachReport(cfg: HostConfig, env: Id -> Call, s: HostState, report: Report)
    requires Inv(cfg, env, s) && NoOverrun(s.shared.ledger.events) && report in s.shared.reports
    ensures report.body.failure != Some(BudgetBreach)
  {
    hide Inv, NoOverrun;
    var event := EventOfReport(cfg, env, s, report);
    NothingOverBudget(cfg, env, s, event);
  }

  lemma RecordedReceiptOwner(cfg: HostConfig, env: Id -> Call, s: HostState, digest: Digest) returns (report: Report)
    requires cfg.Accepted() && Inv(cfg, env, s) && digest in ReportReceipts(s.shared.reports)
    ensures report in s.shared.reports && report.body.receipt == Some(digest)
    ensures report.body.attemptId in cfg.Table() && cfg.Table()[report.body.attemptId] in cfg.slots
    ensures cfg.Table()[report.body.attemptId].slotId == report.body.attemptId
    ensures VerifiedDigest(cfg, env, cfg.Table()[report.body.attemptId]) == Some(digest)
  {
    Clauses(cfg, env, s);
    hide HostConfig.Accepted, SlotTable, SlotAuthorized;
    report :| report in s.shared.reports && report.body.receipt == Some(digest);
    assert ReportExplained(cfg, env, report);
    hide Inv;
    var slot := cfg.Table()[report.body.attemptId];
    var reused, breach :| report == ReportOf(cfg, env, slot, reused, breach);
    SlotKnown(cfg, report.body.attemptId);
    DraftSound(cfg, env, slot, reused);
    hide DraftOf, AfterCall;
  }

  lemma SameReport(cfg: HostConfig, env: Id -> Call, s: HostState, a: Report, b: Report)
    requires Inv(cfg, env, s) && a in s.shared.reports && b in s.shared.reports
    requires a.body.attemptId == b.body.attemptId
    ensures a == b
  {
    Clauses(cfg, env, s);
    assert ReportsOk(cfg, env, s.shared.reports);
    hide Inv, ReportExplained, RecordedOnce;
  }

  lemma ReusedHasNoReceipt(cfg: HostConfig, env: Id -> Call, slot: Slot, breach: bool)
    requires VerifiedDigest(cfg, env, slot).Some?
    ensures ReportOf(cfg, env, slot, true, breach).body.receipt.None?
  {
    NothingBeforeClaim(cfg, slot, env(slot.slotId));
    hide AfterCall, FinalCharge;
  }

  lemma BreachHasCode(cfg: HostConfig, env: Id -> Call, slot: Slot, reused: bool)
    ensures ReportOf(cfg, env, slot, reused, true).body.failure == Some(BudgetBreach)
  {
    hide DraftOf, FinalCharge;
  }

  /** With distinct receipts and no overrun, a report is what its own call alone determines. */
  lemma ReportDetermined(cfg: HostConfig, env: Id -> Call, s: HostState, report: Report)
    requires cfg.Accepted() && Inv(cfg, env, s) && ReuseOk(cfg, env, s) && Complete(cfg, s)
    requires NoOverrun(s.shared.ledger.events) && DistinctReceipts(cfg, env)
    requires report in s.shared.reports
    ensures report.body.attemptId in cfg.Table()
    ensures report == ReportOf(cfg, env, cfg.Table()[report.body.attemptId], false, false)
  {
    hide HostConfig.Accepted, Inv, SlotTable, SlotAuthorized, NoOverrun, ReportOf, VerifiedDigest, Complete;
    var slot := cfg.Table()[report.body.attemptId];
    assert ReportJustified(cfg, env, s.shared.receipts, slot, report);
    hide ReuseOk;
    var reused, breach :|
      report == ReportOf(cfg, env, slot, reused, breach) && Justified(cfg, env, s.shared.receipts, slot, reused);
    SlotKnown(cfg, report.body.attemptId);
    NotBreachReport(cfg, env, s, report);
    BreachHasCode(cfg, env, slot, reused);
    if reused {
      var digest := VerifiedDigest(cfg, env, slot).value;
      KnownFrom(cfg, env, s, digest);
      if digest in ReportReceipts(s.shared.reports) {
        var owner := RecordedReceiptOwner(cfg, env, s, digest);
        SameReport(cfg, env, s, owner, report);
        ReusedHasNoReceipt(cfg, env, slot, breach);
      } else {
        LostHidesReuse(cfg, env, slot, breach);
      }
    }
  }

  /** A complete host knows a digest from its record or from a call that lost it. */
  lemma KnownFrom(cfg: HostConfig, env: Id -> Call, s: HostState, digest: Digest)
    requires Inv(cfg, env, s) && ReuseOk(cfg, env, s) && Complete(cfg, s) && digest in s.shared.receipts
    ensures digest in ReportReceipts(s.shared.reports) || LostBy(cfg, env, digest)
  {
    hide Inv, Complete, LostBy, PhaseJustified, ReportJustified, Known;
    if !LostBy(cfg, env, digest) {
      OwnedAreRecorded(cfg, env, s, digest);
    }
  }

  /** An interrupt between adding and taking leaves the same report whether the digest was new or not. */
  lemma LostHidesReuse(cfg: HostConfig, env: Id -> Call, slot: Slot, breach: bool)
    requires env(slot.slotId).interrupt.DigestAdded?
    ensures ReportOf(cfg, env, slot, true, breach) == ReportOf(cfg, env, slot, false, breach)
  {
    hide AfterCall, FinalCharge;
  }

  /** The event that settling within budget leaves for a report. */
  function EventFrom(cfg: HostConfig, slot: Slot, report: Report): Event {
    Event(slot.slotId, report.body.status, cfg.MaximumsOf(slot), report.body.usage, report.body.receipt, [], [])
  }

  lemma EventDetermined(cfg: HostConfig, env: Id -> Call, s: HostState, event: Event, report: Report)
    requires cfg.Accepted() && Inv(cfg, env, s) && NoOverrun(s.shared.ledger.events)
    requires event in s.shared.ledger.events && report in s.shared.reports
    requires event.id == report.body.attemptId
    ensures event.id in cfg.Table() && event == EventFrom(cfg, cfg.Table()[event.id], report)
  {
    hide HostConfig.Accepted, Inv, SlotTable, SlotAuthorized, NoOverrun, HostConfig.MaximumsOf;
    NothingOverBudget(cfg, env, s, event);
    LedgerFromPlan(cfg, env, s);
    SlotKnown(cfg, event.id);
    var other := EventOfReport(cfg, env, s, report);
    assert other == event;
  }

  // The snapshot the calls alone determine.

  function ExpectedReports(cfg: HostConfig, env: Id -> Call): seq<Report> {
    seq(|cfg.slots|, i requires 0 <= i < |cfg.slots| => ReportOf(cfg, env, cfg.slots[i], false, false))
  }

  function ExpectedEvents(cfg: HostConfig, env: Id -> Call): seq<Event> {
    seq(|cfg.slots|, i requires 0 <= i < |cfg.slots| =>
      EventFrom(cfg, cfg.slots[i], ReportOf(cfg, env, cfg.slots[i], false, false)))
  }

  function TotalCharge(events: seq<Event>): Amounts {
    Amounts(
      Total(Charged(events, Calls)),
      Total(Charged(events, InputTokens)),
      Total(Charged(events, OutputTokens)),
      Total(Charged(events, MoneyMicrounits)),
      Total(Charged(events, WallClockMs)))
  }

  /** The digests that the verifier returned in the calls of the plan. */
  ghost function VerifiedDigests(cfg: HostConfig, env: Id -> Call): set<Digest> {
    set slot | slot in cfg.slots && VerifiedDigest(cfg, env, slot).Some? :: VerifiedDigest(cfg, env, slot).value
  }

  ghost function ExpectedSnapshot(cfg: HostConfig, env: Id -> Call): Snapshot {
    var reports, events := ExpectedReports(cfg, env), ExpectedEvents(cfg, env);
    var consumed := TotalCharge(events);
    var ledger := LedgerBody(
      cfg.ceilings, consumed, ZERO, Remaining(cfg.ceilings, consumed, ZERO), map[], events, [], [], false);
    var body := SnapshotBody(
      cfg.identity, Capacities(cfg), Capacities(cfg), cfg.Table().Keys, VerifiedDigests(cfg, env),
      reports, LedgerRecord(ledger, HashOf(ledger)));
    Snapshot(body, SnapshotHashOf(body))
  }

  lemma SortedReportsDetermined(cfg: HostConfig, env: Id -> Call, s: HostState)
    requires cfg.Accepted() && Inv(cfg, env, s) && ReuseOk(cfg, env, s) && Complete(cfg, s)
    requires NoOverrun(s.shared.ledger.events) && DistinctReceipts(cfg, env)
    ensures SortedReports(cfg, s.shared.reports) == ExpectedReports(cfg, env)
  {
    hide HostConfig.Accepted, Inv, SlotTable, ReuseOk, Complete, NoOverrun, DistinctReceipts, ReportOf, SortedReports;
    ReportsArranged(cfg, env, s);
    PlanIds(cfg);
    var sorted := SortedReports(cfg, s.shared.reports);
    forall i | 0 <= i < |cfg.slots| ensures sorted[i] == ExpectedReports(cfg, env)[i] {
      ReportDetermined(cfg, env, s, sorted[i]);
    }
  }

  lemma SortedEventsDetermined(cfg: HostConfig, env: Id -> Call, s: HostState)
    requires cfg.Accepted() && Inv(cfg, env, s) && ReuseOk(cfg, env, s) && Complete(cfg, s)
    requires NoOverrun(s.shared.ledger.events) && DistinctReceipts(cfg, env)
    ensures SortedEvents(cfg, s.shared.ledger.events) == ExpectedEvents(cfg, env)
  {
    hide HostConfig.Accepted, Inv, SlotTable, ReuseOk, Complete, NoOverrun, DistinctReceipts, ReportOf;
    hide SortedEvents, SortedReports, EventFrom;
    EventsArranged(cfg, env, s);
    ReportsArranged(cfg, env, s);
    SortedReportsDetermined(cfg, env, s);
    PlanIds(cfg);
    var events, reports := SortedEvents(cfg, s.shared.ledger.events), SortedReports(cfg, s.shared.reports);
    forall i | 0 <= i < |cfg.slots| ensures events[i] == ExpectedEvents(cfg, env)[i] {
      EventDetermined(cfg, env, s, events[i], reports[i]);
    }
  }

  lemma ConsumedDetermined(cfg: HostConfig, env: Id -> Call, s: HostState)
    requires Inv(cfg, env, s)
    ensures s.shared.ledger.consumed == TotalCharge(SortedEvents(cfg, s.shared.ledger.events))
  {
    hide Inv, Total, SortByKey, Charged, ActiveAt, SlotTable, EventsFromPlan;
    LedgerFromPlan(cfg, env, s);
    var events, sorted := s.shared.ledger.events, SortedEvents(cfg, s.shared.ledger.events);
    SortSorts(events, (event: Event) => PlanOrder(cfg, event.id) as real);
    forall axis: Axis ensures s.shared.ledger.consumed.At(axis) == TotalCharge(sorted).At(axis) {
      ChargedOrder(events, sorted, axis);
    }
    OnEveryAxis(s.shared.ledger.consumed, TotalCharge(sorted));
  }

  lemma ChargedOrder(events: seq<Event>, sorted: seq<Event>, axis: Axis)
    requires multiset(events) == multiset(sorted)
    ensures Total(Charged(events, axis)) == Total(Charged(sorted, axis))
  {
    var charge := (event: Event) => event.charged.At(axis);
    TotalPermutation(events, sorted, charge);
    assert Charged(events, axis) == Mapped(events, charge) && Charged(sorted, axis) == Mapped(sorted, charge);
  }

  /** A complete host knows exactly the digests that its calls came back with. */
  lemma ReceiptsDetermined(cfg: HostConfig, env: Id -> Call, s: HostState)
    requires cfg.Accepted() && Inv(cfg, env, s) && ReuseOk(cfg, env, s) && Complete(cfg, s)
    ensures s.shared.receipts == VerifiedDigests(cfg, env)
  {
    hide HostConfig.Accepted, Inv, SlotTable, Complete, ReportReceipts, ReportIds, SlotAuthorized, VerifiedDigest;
    forall digest | digest in s.shared.receipts ensures digest in VerifiedDigests(cfg, env) {
      KnownFrom(cfg, env, s, digest);
      if digest in ReportReceipts(s.shared.reports) {
        var owner := RecordedReceiptOwner(cfg, env, s, digest);
        assert cfg.Table()[owner.body.attemptId] in cfg.slots;
      }
    }
    forall slot | slot in cfg.slots ensures Known(cfg, env, s.shared.receipts, slot) {
      var report := ReportOfSlot(cfg, env, s, slot);
      assert ReuseOk(cfg, env, s);
    }
  }

  lemma ReportOfSlot(cfg: HostConfig, env: Id -> Call, s: HostState, slot: Slot) returns (report: Report)
    requires cfg.Accepted() && Complete(cfg, s) && slot in cfg.slots
    ensures report in s.shared.reports && report.body.attemptId in cfg.Table()
    ensures cfg.Table()[report.body.attemptId] == slot
  {
    PlanIds(cfg);
    hide HostConfig.Accepted, SlotTable;
    var i :| 0 <= i < |cfg.slots| && cfg.slots[i] == slot;
    assert slot.slotId in ReportIds(s.shared.reports);
    report :| report in s.shared.reports && report.body.attemptId == slot.slotId;
  }

  lemma TerminalLedger(cfg: HostConfig, env: Id -> Call, s: HostState)
    requires Inv(cfg, env, s) && Complete(cfg, s) && NoOverrun(s.shared.ledger.events)
    ensures var ledger, events := s.shared.ledger, SortedEvents(cfg, s.shared.ledger.events);
      LedgerBodyOf(ledger, events) == LedgerBody(
        cfg.ceilings, TotalCharge(events), ZERO, Remaining(cfg.ceilings, TotalCharge(events), ZERO),
        map[], events, [], [], false)
  {
    hide Inv, Complete, NoOverrun, SlotTable, SortedEvents, TotalCharge, ActiveAt;
    NoOpenReservations(cfg, env, s);
    NoRejections(cfg, env, s);
    NotBreached(cfg, env, s);
    ConsumedDetermined(cfg, env, s);
    LedgerFromPlan(cfg, env, s);
    NothingActive();
  }

  lemma NothingActive()
    ensures Active(map[]) == ZERO
  {
  }

  /** The snapshot of a complete run without overruns, whose receipts are pairwise distinct, is
      determined by the plan and the calls. */
  lemma SnapshotDetermined(cfg: HostConfig, env: Id -> Call, actions: seq<Action>)
    requires cfg.Accepted() && DistinctReceipts(cfg, env)
    requires Complete(cfg, Run(cfg, env, actions))
    requires NoOverrun(Run(cfg, env, actions).shared.ledger.events)
    ensures SnapshotOf(cfg, Run(cfg, env, actions).shared) == ExpectedSnapshot(cfg, env)
  {
    hide HostConfig.Accepted, Inv, SlotTable, ReuseOk, Complete, NoOverrun, DistinctReceipts, Run;
    hide SortedReports, SortedEvents, VerifiedDigests, ExpectedReports, ExpectedEvents, TotalCharge;
    var s := Run(cfg, env, actions);
    EveryInterleavingKeepsInv(cfg, env, actions);
    EveryRunReuseOk(cfg, env, actions);
    SortedReportsDetermined(cfg, env, s);
    SortedEventsDetermined(cfg, env, s);
    ReceiptsDetermined(cfg, env, s);
    AllCapacityUsed(cfg, env, s);
    NoLiveAttempts(cfg, env, s);
    TerminalLedger(cfg, env, s);
    hide LedgerBodyOf, Remaining, Capacities;
  }

  /** Schedule independence: two complete interleavings of the same calls end in the same snapshot. */
  lemma ScheduleIndependent(cfg: HostConfig, env: Id -> Call, one: seq<Action>, other: seq<Action>)
    requires cfg.Accepted() && DistinctReceipts(cfg, env)
    requires Complete(cfg, Run(cfg, env, one)) && Complete(cfg, Run(cfg, env, other))
    requires NoOverrun(Run(cfg, env, one).shared.ledger.events)
    requires NoOverrun(Run(cfg, env, other).shared.ledger.events)
    ensures SnapshotOf(cfg, Run(cfg, env, one).shared) == SnapshotOf(cfg, Run(cfg, env, other).shared)
  {
    hide *;
    SnapshotDetermined(cfg, env, one);
    SnapshotDetermined(cfg, env, other);
  }
}
