/** The execution manifest and its validator, which knows nothing of the host. */
module Manifest {
  import opened Budget
  import opened Options
  import opened ExecutionPlan
  import opened Ledger
  import opened Host
  import opened HostSnapshot

  datatype PlanDocument = PlanDocument(campaignSha: string, systemId: Id, planSha: string, slots: seq<Slot>)

  datatype ManifestBody = ManifestBody(
    manifestId: Id,
    identity: Identity,
    reports: seq<Report>,
    completedSlotIds: seq<Id>,
    ledger: LedgerRecord,
    hostHash: SnapshotHash)

  datatype ManifestHash = ManifestHashOf(content: ManifestBody)

  datatype ExecutionManifest = ExecutionManifest(body: ManifestBody, hash: ManifestHash)

  datatype Finding =
    | ReportUsageInvalid
    | ReportIndexInvalid
    | ReportSeedInvalid
    | UsableWithoutAuthority
    | UnusableWithoutCode
    | ReportHashMismatch
    | LedgerAmountsInvalid
    | LedgerNotTerminal
    | LedgerBreachFlag
    | EventsIncomplete
    | EventMismatch
    | ConsumedMismatch
    | ActiveNonzero
    | RemainingInvalid
    | LedgerHashMismatch
    | PlanInvalid
    | PlanMismatch
    | AttemptsIncomplete
    | SlotMismatch
    | AuthorityDrift
    | CoverageIncomplete
    | ManifestHashMismatch

  // One attempt report.

  predicate UsableWithAuthority(body: ReportBody) {
    body.status == Success && body.failure.None? && body.response.Some? && body.receipt.Some?
  }

  predicate ReportValid(report: Report) {
    && report.body.usage.OneCall()
    && 0 <= report.body.retryIndex && 0 <= report.body.replicateIndex
    && SeedValid(report.body.seed)
    && (report.body.usable ==> UsableWithAuthority(report.body))
    && (!report.body.usable ==> report.body.failure.Some?)
    && report.hash == HashOf(report.body)
  }

  method ValidateAttemptReport(report: Report) returns (findings: seq<Finding>)
    ensures findings == [] <==> ReportValid(report)
  {
    findings := [];
    if report.body.retryIndex < 0 || report.body.replicateIndex < 0 {
      findings := findings + [ReportIndexInvalid];
    }
    if !SeedValid(report.body.seed) {
      findings := findings + [ReportSeedInvalid];
    }
    if !report.body.usage.OneCall() {
      findings := findings + [ReportUsageInvalid];
    }
    if report.body.usable && !UsableWithAuthority(report.body) {
      findings := findings + [UsableWithoutAuthority];
    }
    if !report.body.usable && report.body.failure.None? {
      findings := findings + [UnusableWithoutCode];
    }
    if report.hash != HashOf(report.body) {
      findings := findings + [ReportHashMismatch];
    }
  }

  // The terminal ledger.

  function Usages(reports: seq<Report>, axis: Axis): seq<int> {
    seq(|reports|, i requires 0 <= i < |reports| => reports[i].body.usage.At(axis))
  }

  predicate EventAgrees(event: Event, report: Report) {
    && event.id == report.body.attemptId
    && event.status == report.body.status
    && event.charged == report.body.usage
    && event.receipt == report.body.receipt
    && event.overReserved == []
    && event.overCeiling == []
  }

  ghost predicate ConsumedIsUsage(consumed: Amounts, reports: seq<Report>) {
    forall axis: Axis :: consumed.At(axis) == Total(Usages(reports, axis))
  }

  ghost predicate EventsAgree(events: seq<Event>, reports: seq<Report>) {
    |events| == |reports| && forall i :: 0 <= i < |events| ==> EventAgrees(events[i], reports[i])
  }

  predicate LedgerVectorsValid(body: LedgerBody) {
    body.ceilings.InRange() && body.consumed.InRange()
    && body.activeReserved.InRange() && body.remaining.InRange()
  }

  predicate LedgerSettled(body: LedgerBody) {
    body.activeReservations == map[] && body.cancellations == [] && body.rejections == []
  }

  /** A ledger with nothing open, rejected or breached, whose events are the reports' usage and
      whose remainder is what the ceilings leave after that usage. */
  ghost predicate TerminalLedgerValid(ledger: LedgerRecord, reports: seq<Report>) {
    var body := ledger.body;
    && LedgerVectorsValid(body)
    && LedgerSettled(body)
    && !body.breached
    && EventsAgree(body.events, reports)
    && ConsumedIsUsage(body.consumed, reports)
    && body.activeReserved == ZERO
    && body.consumed.Leq(body.ceilings)
    && body.remaining == body.ceilings.Minus(body.consumed)
    && ledger.hash == HashOf(body)
  }

  method SumUsage(reports: seq<Report>) returns (total: Amounts)
    ensures ConsumedIsUsage(total, reports)
  {
    total := ZERO;
    for n := 0 to |reports|
      invariant ConsumedIsUsage(total, reports[..n])
    {
      total := total.Plus(reports[n].body.usage);
      forall axis: Axis ensures total.At(axis) == Total(Usages(reports[..n + 1], axis)) {
        assert Usages(reports[..n + 1], axis) == Usages(reports[..n], axis) + [reports[n].body.usage.At(axis)];
        TotalAppend(Usages(reports[..n], axis), reports[n].body.usage.At(axis));
      }
    }
    assert reports[..|reports|] == reports;
  }

  method CompareEvents(events: seq<Event>, reports: seq<Report>) returns (findings: seq<Finding>)
    ensures findings == [] <==> EventsAgree(events, reports)
  {
    if |events| != |reports| {
      return [EventsIncomplete];
    }
    findings := [];
    for n := 0 to |events|
      invariant findings == [] <==> forall i :: 0 <= i < n ==> EventAgrees(events[i], reports[i])
    {
      if !EventAgrees(events[n], reports[n]) {
        findings := findings + [EventMismatch];
      }
    }
  }

  method ValidateTerminalLedger(ledger: LedgerRecord, reports: seq<Report>) returns (findings: seq<Finding>)
    ensures findings == [] <==> TerminalLedgerValid(ledger, reports)
  {
    var body := ledger.body;
    findings := CompareEvents(body.events, reports);
    if !LedgerVectorsValid(body) {
      findings := findings + [LedgerAmountsInvalid];
    }
    if !LedgerSettled(body) {
      findings := findings + [LedgerNotTerminal];
    }
    if body.breached {
      findings := findings + [LedgerBreachFlag];
    }
    if LedgerVectorsValid(body) {
      var consumed := SumUsage(reports);
      OnEveryAxis(body.consumed, consumed);
      if body.consumed != consumed {
        findings := findings + [ConsumedMismatch];
      }
      if body.activeReserved != ZERO {
        findings := findings + [ActiveNonzero];
      }
      if !ZERO.Leq(body.ceilings.Minus(body.consumed)) || body.remaining != body.ceilings.Minus(body.consumed) {
        findings := findings + [RemainingInvalid];
      }
    }
    if ledger.hash != HashOf(body) {
      findings := findings + [LedgerHashMismatch];
    }
  }

  // The manifest.

  predicate MatchesSlot(body: ReportBody, slot: Slot) {
    && body.attemptId == slot.slotId
    && body.componentId == slot.componentId
    && body.unitId == slot.unitId
    && body.caseId == slot.caseId
    && body.replicateIndex == slot.replicateIndex
    && body.retryIndex == slot.retryIndex
    && body.modelId == slot.modelId
    && body.purpose == slot.purpose
    && body.route == slot.route
    && body.routeAuthorityId == slot.routeAuthorityId
    && body.seed == slot.seed
  }

  predicate MatchesPlan(identity: Identity, plan: PlanDocument) {
    && identity.campaignSha == plan.campaignSha
    && identity.systemId == plan.systemId
    && identity.planSha == plan.planSha
  }

  predicate ReportBound(report: Report, slot: Slot, identity: Identity) {
    ReportValid(report) && MatchesSlot(report.body, slot) && report.body.identity == identity
  }

  ghost predicate ReportsBound(reports: seq<Report>, slots: seq<Slot>, identity: Identity) {
    |reports| == |slots| && forall i :: 0 <= i < |slots| ==> ReportBound(reports[i], slots[i], identity)
  }

  ghost predicate ManifestValid(manifest: ExecutionManifest, plan: PlanDocument) {
    var body := manifest.body;
    && PlanValid(plan.slots)
    && MatchesPlan(body.identity, plan)
    && ReportsBound(body.reports, plan.slots, body.identity)
    && body.completedSlotIds == SlotIds(plan.slots)
    && TerminalLedgerValid(body.ledger, body.reports)
    && manifest.hash == ManifestHashOf(body)
  }

  method CompareReports(reports: seq<Report>, slots: seq<Slot>, identity: Identity) returns (findings: seq<Finding>)
    requires |reports| == |slots|
    ensures findings == [] <==> ReportsBound(reports, slots, identity)
  {
    findings := [];
    for n := 0 to |slots|
      invariant findings == [] <==> forall i :: 0 <= i < n ==> ReportBound(reports[i], slots[i], identity)
    {
      var own := ValidateAttemptReport(reports[n]);
      findings := findings + own;
      if !MatchesSlot(reports[n].body, slots[n]) {
        findings := findings + [SlotMismatch];
      } else if reports[n].body.identity != identity {
        findings := findings + [AuthorityDrift];
      }
    }
  }

  /** The manifest validator: it finds nothing exactly on the valid manifests. */
  method ValidateManifest(manifest: ExecutionManifest, plan: PlanDocument) returns (findings: seq<Finding>)
    ensures findings == [] <==> ManifestValid(manifest, plan)
  {
    var body := manifest.body;
    findings := [];
    var planFailures := ValidateExecutionPlan(plan.slots);
    hide PlanValid, TerminalLedgerValid, ReportsBound;
    var slots := plan.slots;
    if planFailures != [] {
      findings, slots := findings + [PlanInvalid], [];
    }
    if slots != [] && !MatchesPlan(body.identity, plan) {
      findings := findings + [PlanMismatch];
    }
    var reports := body.reports;
    if |reports| != |slots| {
      findings, reports := findings + [AttemptsIncomplete], [];
    } else {
      var mismatches := CompareReports(reports, slots, body.identity);
      findings := findings + mismatches;
    }
    if body.completedSlotIds != SlotIds(slots) {
      findings := findings + [CoverageIncomplete];
    }
    var unsettled := ValidateTerminalLedger(body.ledger, reports);
    findings := findings + unsettled;
    if manifest.hash != ManifestHashOf(body) {
      findings := findings + [ManifestHashMismatch];
    }
    ValidPlanNotEmpty(plan.slots);
    BoundLength(body.reports, plan.slots, body.identity);
  }

  lemma ValidPlanNotEmpty(slots: seq<Slot>)
    ensures PlanValid(slots) ==> slots != []
  {
  }

  lemma BoundLength(reports: seq<Report>, slots: seq<Slot>, identity: Identity)
    ensures ReportsBound(reports, slots, identity) ==> |reports| == |slots|
  {
  }

  /** A report carries every frozen field of its slot, and is usable only with what a release needs. */
  predicate ReportTells(body: ReportBody, slot: Slot, plan: PlanDocument) {
    && (body.attemptId, body.componentId, body.unitId, body.caseId)
       == (slot.slotId, slot.componentId, slot.unitId, slot.caseId)
    && (body.replicateIndex, body.retryIndex, body.seed) == (slot.replicateIndex, slot.retryIndex, slot.seed)
    && (body.modelId, body.purpose, body.route, body.routeAuthorityId)
       == (slot.modelId, slot.purpose, slot.route, slot.routeAuthorityId)
    && (body.identity.campaignSha, body.identity.systemId, body.identity.planSha)
       == (plan.campaignSha, plan.systemId, plan.planSha)
    && (body.usable ==> body.status.Success? && body.response.Some? && body.receipt.Some? && body.failure.None?)
    && (!body.usable ==> body.failure.Some?)
    && body.usage.calls == 1
  }

  lemma BoundReportTells(report: Report, slot: Slot, plan: PlanDocument, identity: Identity)
    requires ReportBound(report, slot, identity) && MatchesPlan(identity, plan)
    ensures ReportTells(report.body, slot, plan)
  {
  }

  /** What an accepted manifest proves, whoever produced it. */
  lemma AcceptedManifest(manifest: ExecutionManifest, plan: PlanDocument)
    requires ManifestValid(manifest, plan)
    ensures |manifest.body.reports| == |plan.slots|
    ensures forall i :: 0 <= i < |plan.slots| ==> ReportTells(manifest.body.reports[i].body, plan.slots[i], plan)
    ensures forall i, j :: 0 <= i < |plan.slots| && 0 <= j < |plan.slots| ==>
      manifest.body.reports[i].body.identity == manifest.body.reports[j].body.identity
    ensures forall i, j :: 0 <= i < j < |plan.slots| ==>
      manifest.body.reports[i].body.attemptId != manifest.body.reports[j].body.attemptId
    ensures forall i :: 0 <= i < |plan.slots| ==>
      var body, event := manifest.body.reports[i].body, manifest.body.ledger.body.events[i];
      && |manifest.body.ledger.body.events| == |plan.slots|
      && (event.id, event.status, event.charged, event.receipt)
         == (plan.slots[i].slotId, body.status, body.usage, body.receipt)
    ensures forall axis: Axis ::
      && manifest.body.ledger.body.consumed.At(axis) == Total(Usages(manifest.body.reports, axis))
      && manifest.body.ledger.body.consumed.At(axis) <= manifest.body.ledger.body.ceilings.At(axis)
    ensures manifest.body.ledger.body.consumed.calls == |plan.slots|
  {
    forall i, j | 0 <= i < j < |plan.slots|
      ensures manifest.body.reports[i].body.attemptId != manifest.body.reports[j].body.attemptId
    {
      assert SlotIds(plan.slots)[i] != SlotIds(plan.slots)[j];
      assert ReportBound(manifest.body.reports[i], plan.slots[i], manifest.body.identity);
      assert ReportBound(manifest.body.reports[j], plan.slots[j], manifest.body.identity);
    }
    OnEveryAxis(manifest.body.ledger.body.consumed, manifest.body.ledger.body.ceilings);
    forall i | 0 <= i < |plan.slots| ensures manifest.body.reports[i].body.usage.calls == 1 {
      assert ReportBound(manifest.body.reports[i], plan.slots[i], manifest.body.identity);
    }
    forall i | 0 <= i < |plan.slots| ensures ReportTells(manifest.body.reports[i].body, plan.slots[i], plan) {
      BoundReportTells(manifest.body.reports[i], plan.slots[i], plan, manifest.body.identity);
    }
    OneCallEach(manifest.body.reports);
    assert manifest.body.ledger.body.consumed.At(Calls) == Total(Usages(manifest.body.reports, Calls));
  }

  lemma {:induction false} OneCallEach(reports: seq<Report>)
    requires forall i :: 0 <= i < |reports| ==> reports[i].body.usage.calls == 1
    ensures Total(Usages(reports, Calls)) == |reports|
  {
    if reports != [] {
      var init := reports[..|reports| - 1];
      OneCallEach(init);
      assert Usages(reports, Calls) == Usages(init, Calls) + [1];
      TotalAppend(Usages(init, Calls), 1);
    }
  }

  // Building a manifest from a snapshot.

  function ManifestFrom(snapshot: Snapshot, manifestId: Id): ExecutionManifest {
    var reports := snapshot.body.reports;
    var body := ManifestBody(
      manifestId, snapshot.body.identity, reports,
      seq(|reports|, i requires 0 <= i < |reports| => reports[i].body.attemptId),
      snapshot.body.ledger, snapshot.hash);
    ExecutionManifest(body, ManifestHashOf(body))
  }

  /** Refuses a snapshot that was altered, or whose manifest its own validator would not accept. */
  method BuildManifest(snapshot: Snapshot, plan: PlanDocument, manifestId: Id)
    returns (manifest: Option<ExecutionManifest>)
    ensures manifest.Some? <==>
      snapshot.hash == SnapshotHashOf(snapshot.body) && ManifestValid(ManifestFrom(snapshot, manifestId), plan)
    ensures manifest.Some? ==> manifest.value == ManifestFrom(snapshot, manifestId)
  {
    if snapshot.hash != SnapshotHashOf(snapshot.body) {
      return None;
    }
    var built := ManifestFrom(snapshot, manifestId);
    var findings := ValidateManifest(built, plan);
    if findings != [] {
      return None;
    }
    return Some(built);
  }
}
