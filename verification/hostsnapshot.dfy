/** The host's snapshot: its contents in plan order, and what it looks like once every slot is on record, with
    one report and one event for each slot. */
module HostSnapshot {
  import opened Budget
  import opened Campaign
  import opened ExecutionPlan
  import opened Ledger
  import opened Host
  import opened HostInvariant
  import opened HostReceipts
  import opened HostSteps
  import opened Sorting

  datatype LedgerBody = LedgerBody(
    ceilings: Amounts,
    consumed: Amounts,
    activeReserved: Amounts,
    remaining: Amounts,
    activeReservations: map<Id, Amounts>,
    events: seq<Event>,
    cancellations: seq<Id>,
    rejections: seq<Rejection>,
    breached: bool)

  datatype LedgerRecord = LedgerRecord(body: LedgerBody, hash: Hash<LedgerBody>)

  /** Sets stand for the sorted lists of the source. */
  datatype SnapshotBody = SnapshotBody(
    identity: Identity,
    capacities: map<Id, int>,
    allocatedAttempts: map<Id, int>,
    usedSlots: set<Id>,
    receipts: set<Digest>,
    reports: seq<Report>,
    ledger: LedgerRecord)

  datatype SnapshotHash = SnapshotHashOf(content: SnapshotBody)

  datatype Snapshot = Snapshot(body: SnapshotBody, hash: SnapshotHash)

  function Remaining(ceilings: Amounts, consumed: Amounts, active: Amounts): Amounts {
    Amounts(
      Positive(ceilings.calls - consumed.calls - active.calls),
      Positive(ceilings.inputTokens - consumed.inputTokens - active.inputTokens),
      Positive(ceilings.outputTokens - consumed.outputTokens - active.outputTokens),
      Positive(ceilings.moneyMicrounits - consumed.moneyMicrounits - active.moneyMicrounits),
      Positive(ceilings.wallClockMs - consumed.wallClockMs - active.wallClockMs))
  }

  ghost function LedgerBodyOf(ledger: LedgerState, events: seq<Event>): LedgerBody {
    var active := Active(ledger.reservations);
    LedgerBody(
      ledger.ceilings, ledger.consumed, active, Remaining(ledger.ceilings, ledger.consumed, active),
      map id | id in ledger.reservations :: ledger.reservations[id].reserved,
      events, ledger.cancellations, ledger.rejections, ledger.breached)
  }

  /** The position of a slot in the frozen plan; unknown ids sort last. */
  function PlanOrder(cfg: HostConfig, id: Id): int {
    var ids := SlotIds(cfg.slots);
    if id in ids then Position(ids, id) else MAX_BUDGET_VALUE
  }

  function ReportId(report: Report): Id {
    report.body.attemptId
  }

  function EventId(event: Event): Id {
    event.id
  }

  function SortedReports(cfg: HostConfig, reports: seq<Report>): seq<Report> {
    SortByKey(reports, (report: Report) => PlanOrder(cfg, report.body.attemptId) as real)
  }

  function SortedEvents(cfg: HostConfig, events: seq<Event>): seq<Event> {
    SortByKey(events, (event: Event) => PlanOrder(cfg, event.id) as real)
  }

  function Capacities(cfg: HostConfig): map<Id, int> {
    map id | id in cfg.authority.components :: cfg.authority.components[id].Capacity()
  }

  ghost function SnapshotOf(cfg: HostConfig, shared: Shared): Snapshot {
    var ledger := LedgerBodyOf(shared.ledger, SortedEvents(cfg, shared.ledger.events));
    var body := SnapshotBody(
      cfg.identity, Capacities(cfg), shared.allocatedAttempts, shared.usedSlots, shared.receipts,
      SortedReports(cfg, shared.reports), LedgerRecord(ledger, HashOf(ledger)));
    Snapshot(body, SnapshotHashOf(body))
  }

  /** Every slot of the plan is on record. */
  ghost predicate Complete(cfg: HostConfig, s: HostState) {
    ReportIds(s.shared.reports) == cfg.Table().Keys
  }

  lemma NoLiveAttempts(cfg: HostConfig, env: Id -> Call, s: HostState)
    requires Inv(cfg, env, s) && Complete(cfg, s)
    ensures s.shared.usedSlots == cfg.Table().Keys
    ensures forall t :: t in s.attempts ==> s.attempts[t].Finished?
  {
    Clauses(cfg, env, s);
    hide LedgerOk, CountersOk, ReservationsOk, EventsOk, ReceiptsOk, ReportsOk, PhasesOk, SlotTable, ReportIds;
    hide HeldBySome;
  }

  lemma NoOpenReservations(cfg: HostConfig, env: Id -> Call, s: HostState)
    requires Inv(cfg, env, s) && Complete(cfg, s)
    ensures s.shared.ledger.reservations == map[]
    ensures EventIds(s.shared.ledger.events) == cfg.Table().Keys
  {
    Clauses(cfg, env, s);
    NoLiveAttempts(cfg, env, s);
    hide LedgerOk, HoldersOk, CountersOk, ReceiptsOk, ReportsOk, PhasesOk, SlotTable;
    assert forall id :: !ReservedBySome(s.attempts, id);
    forall id | id in cfg.Table() ensures id in EventIds(s.shared.ledger.events) {
      var report :| report in s.shared.reports && report.body.attemptId == id;
      assert HasEvent(s.shared.ledger.events, report);
    }
  }

  lemma NoRejections(cfg: HostConfig, env: Id -> Call, s: HostState)
    requires Inv(cfg, env, s) && Complete(cfg, s)
    ensures s.shared.ledger.rejections == [] && s.shared.ledger.cancellations == []
  {
    Clauses(cfg, env, s);
    NoOpenReservations(cfg, env, s);
    hide HoldersOk, CountersOk, ReservationsOk, EventsOk, ReceiptsOk, ReportsOk, PhasesOk, SlotTable, Complete;
    hide Accounted, BreachExplained, AmountsValid;
    var rejections := s.shared.ledger.rejections;
    assert RejectedIds(rejections) == {};
    assert rejections == [] || rejections[0].id in RejectedIds(rejections);
  }

  lemma OwnedAreRecorded(cfg: HostConfig, env: Id -> Call, s: HostState, digest: Digest)
    requires Inv(cfg, env, s) && Complete(cfg, s) && Owned(s, digest)
    ensures digest in ReportReceipts(s.shared.reports)
  {
    NoLiveAttempts(cfg, env, s);
    hide Inv, SlotTable, Complete, ReportReceipts;
    assert !ClaimedBySome(s.attempts, digest);
  }

  lemma CountedComponents(cfg: HostConfig, env: Id -> Call, s: HostState)
    requires Inv(cfg, env, s)
    ensures s.shared.allocatedAttempts.Keys == cfg.authority.components.Keys
  {
    Clauses(cfg, env, s);
    hide LedgerOk, HoldersOk, ReservationsOk, EventsOk, ReceiptsOk, ReportsOk, PhasesOk, SlotTable;
  }

  lemma AllCapacityUsed(cfg: HostConfig, env: Id -> Call, s: HostState)
    requires cfg.Accepted() && Inv(cfg, env, s) && Complete(cfg, s)
    ensures s.shared.allocatedAttempts == Capacities(cfg)
  {
    hide Inv, SlotTable, Complete, SlotsOfComponent, HostConfig.Accepted, Component.Capacity;
    NoLiveAttempts(cfg, env, s);
    CountedComponents(cfg, env, s);
    forall c | c in cfg.authority.components
      ensures c in s.shared.allocatedAttempts && s.shared.allocatedAttempts[c] == Capacities(cfg)[c]
    {
      UsedCounted(cfg, env, s, c);
      CapacityCount(cfg, c);
    }
  }

  // The sorted lists follow the plan.

  lemma PlanIds(cfg: HostConfig)
    requires cfg.Accepted()
    ensures forall i, j :: 0 <= i < j < |cfg.slots| ==> SlotIds(cfg.slots)[i] != SlotIds(cfg.slots)[j]
    ensures forall id :: id in SlotIds(cfg.slots) <==> id in cfg.Table()
    ensures forall i :: 0 <= i < |cfg.slots| ==>
      cfg.slots[i].slotId in cfg.Table() && cfg.Table()[cfg.slots[i].slotId] == cfg.slots[i]
  {
    SlotTableHoldsPlan(cfg.slots);
    hide SlotTable, AuthorityValid, ExactCallMatrix;
    forall id | id in cfg.Table() ensures id in SlotIds(cfg.slots) {
      var i :| 0 <= i < |cfg.slots| && cfg.slots[i] == cfg.Table()[id];
      assert SlotIds(cfg.slots)[i] == id;
    }
  }

  lemma OneReportPerSlot(cfg: HostConfig, env: Id -> Call, s: HostState)
    requires cfg.Accepted() && Inv(cfg, env, s) && Complete(cfg, s)
    ensures OnePerId(s.shared.reports, SlotIds(cfg.slots), ReportId)
  {
    Clauses(cfg, env, s);
    hide HostConfig.Accepted, SlotTable;
    var reports, ids := s.shared.reports, SlotIds(cfg.slots);
    PlanIds(cfg);
    assert ReportsOk(cfg, env, reports);
    hide Inv, ReportExplained, RecordedOnce, SlotIds;
    forall id | id in ids ensures HasItem(reports, id, ReportId) {
      var report :| report in reports && report.body.attemptId == id;
      assert ReportId(report) == id;
    }
    forall report | report in reports ensures ReportId(report) in ids {
      assert report.body.attemptId in ReportIds(reports);
    }
  }

  lemma OneEventPerSlot(cfg: HostConfig, env: Id -> Call, s: HostState)
    requires cfg.Accepted() && Inv(cfg, env, s) && Complete(cfg, s)
    ensures OnePerId(s.shared.ledger.events, SlotIds(cfg.slots), EventId)
  {
    hide HostConfig.Accepted, SlotTable, Inv, Complete, SlotIds, EventsOk, ReportsOk;
    var events, ids := s.shared.ledger.events, SlotIds(cfg.slots);
    PlanIds(cfg);
    NoOpenReservations(cfg, env, s);
    EventsOf(cfg, env, s);
    forall id | id in ids ensures HasItem(events, id, EventId) {
      var event :| event in events && event.id == id;
      assert EventId(event) == id;
    }
    forall event | event in events ensures EventId(event) in ids {
      assert event.id in EventIds(events);
    }
  }

  lemma ReportsArranged(cfg: HostConfig, env: Id -> Call, s: HostState)
    requires cfg.Accepted() && Inv(cfg, env, s) && Complete(cfg, s)
    ensures var sorted := SortedReports(cfg, s.shared.reports);
      && |sorted| == |cfg.slots|
      && forall i :: 0 <= i < |cfg.slots| ==>
           sorted[i] in s.shared.reports && sorted[i].body.attemptId == cfg.slots[i].slotId
  {
    hide HostConfig.Accepted, SlotTable, Inv, Complete;
    PlanIds(cfg);
    OneReportPerSlot(cfg, env, s);
    SortArranges(s.shared.reports, SlotIds(cfg.slots), ReportId,
      (report: Report) => PlanOrder(cfg, report.body.attemptId) as real);
  }

  lemma EventsArranged(cfg: HostConfig, env: Id -> Call, s: HostState)
    requires cfg.Accepted() && Inv(cfg, env, s) && Complete(cfg, s)
    ensures var sorted := SortedEvents(cfg, s.shared.ledger.events);
      && |sorted| == |cfg.slots|
      && forall i :: 0 <= i < |cfg.slots| ==>
           sorted[i] in s.shared.ledger.events && sorted[i].id == cfg.slots[i].slotId
  {
    hide HostConfig.Accepted, SlotTable, Inv, Complete;
    PlanIds(cfg);
    OneEventPerSlot(cfg, env, s);
    SortArranges(s.shared.ledger.events, SlotIds(cfg.slots), EventId,
      (event: Event) => PlanOrder(cfg, event.id) as real);
  }
}
