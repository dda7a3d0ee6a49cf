/** The host's invariant, and its preservation by every step of every interleaving. One lemma treats
    each kind of step: a refused or granted claim, a release, the reservation, the provider call, the
    receipt region, settling and recording. */
module HostSteps {
  import opened Budget
  import opened Options
  import opened ExecutionPlan
  import opened Ledger
  import opened Host
  import opened HostInvariant
  import opened HostReceipts

  ghost predicate LedgerOk(cfg: HostConfig, ledger: LedgerState) {
    && Ledger.Invariant(ledger)
    && ledger.ceilings == cfg.ceilings
    && ledger.usedIds <= cfg.Table().Keys
    && ledger.cancellations == []
  }

  ghost predicate ReportsOk(cfg: HostConfig, env: Id -> Call, reports: seq<Report>) {
    && (forall i, j :: 0 <= i < j < |reports| ==> reports[i].body.attemptId != reports[j].body.attemptId)
    && (forall report {:trigger ReportExplained(cfg, env, report)} ::
          report in reports ==> ReportExplained(cfg, env, report))
    && RecordedOnce(reports)
  }

  ghost predicate PhasesOk(cfg: HostConfig, env: Id -> Call, attempts: map<nat, Phase>) {
    forall t {:trigger PhaseExplained(cfg, env, attempts[t])} ::
      t in attempts ==> PhaseExplained(cfg, env, attempts[t])
  }

  /** The clauses of the host's invariant. A proof takes the ones it needs with `Clauses`. */
  datatype Clause =
    | LedgerClause
    | HolderClause
    | CounterClause
    | ReservationClause
    | EventClause
    | ReceiptClause
    | ReportClause
    | PhaseClause

  ghost predicate Holds(cfg: HostConfig, env: Id -> Call, s: HostState, clause: Clause) {
    match clause
    case LedgerClause => LedgerOk(cfg, s.shared.ledger)
    case HolderClause => HoldersOk(cfg.Table(), s.shared.usedSlots, ReportIds(s.shared.reports), s.attempts)
    case CounterClause => CountersOk(cfg, s.shared.usedSlots, s.shared.allocatedAttempts)
    case ReservationClause => ReservationsOk(cfg, s.shared.ledger, s.attempts)
    case EventClause => EventsOk(cfg, s.shared.ledger.events, s.shared.reports, s.attempts)
    case ReceiptClause => ReceiptsOk(s.shared.receipts, ReportReceipts(s.shared.reports), s.attempts)
    case ReportClause => ReportsOk(cfg, env, s.shared.reports)
    case PhaseClause => PhasesOk(cfg, env, s.attempts)
  }

  ghost predicate Inv(cfg: HostConfig, env: Id -> Call, s: HostState) {
    forall clause {:trigger Holds(cfg, env, s, clause)} :: Holds(cfg, env, s, clause)
  }

  lemma Clauses(cfg: HostConfig, env: Id -> Call, s: HostState)
    ensures Inv(cfg, env, s) <==>
      && LedgerOk(cfg, s.shared.ledger)
      && HoldersOk(cfg.Table(), s.shared.usedSlots, ReportIds(s.shared.reports), s.attempts)
      && CountersOk(cfg, s.shared.usedSlots, s.shared.allocatedAttempts)
      && ReservationsOk(cfg, s.shared.ledger, s.attempts)
      && EventsOk(cfg, s.shared.ledger.events, s.shared.reports, s.attempts)
      && ReceiptsOk(s.shared.receipts, ReportReceipts(s.shared.reports), s.attempts)
      && ReportsOk(cfg, env, s.shared.reports)
      && PhasesOk(cfg, env, s.attempts)
  {
    hide LedgerOk, HoldersOk, CountersOk, ReservationsOk, EventsOk, ReceiptsOk, ReportsOk, PhasesOk;
    assert Holds(cfg, env, s, LedgerClause) <==> LedgerOk(cfg, s.shared.ledger);
    assert Holds(cfg, env, s, HolderClause) <==>
      HoldersOk(cfg.Table(), s.shared.usedSlots, ReportIds(s.shared.reports), s.attempts);
    assert Holds(cfg, env, s, CounterClause) <==> CountersOk(cfg, s.shared.usedSlots, s.shared.allocatedAttempts);
    assert Holds(cfg, env, s, ReservationClause) <==> ReservationsOk(cfg, s.shared.ledger, s.attempts);
    assert Holds(cfg, env, s, EventClause) <==>
      EventsOk(cfg, s.shared.ledger.events, s.shared.reports, s.attempts);
    assert Holds(cfg, env, s, ReceiptClause) <==>
      ReceiptsOk(s.shared.receipts, ReportReceipts(s.shared.reports), s.attempts);
    assert Holds(cfg, env, s, ReportClause) <==> ReportsOk(cfg, env, s.shared.reports);
    assert Holds(cfg, env, s, PhaseClause) <==> PhasesOk(cfg, env, s.attempts);
  }

  /** Every slot of an accepted plan belongs to a known component with valid maximums. */
  lemma SlotKnown(cfg: HostConfig, id: Id)
    requires cfg.Accepted() && id in cfg.Table()
    ensures cfg.Table()[id].slotId == id && cfg.Table()[id] in cfg.slots
    ensures cfg.Table()[id].componentId in cfg.authority.components
    ensures SlotAuthorized(cfg.authority, cfg.Table()[id])
    ensures cfg.MaximumsOf(cfg.Table()[id]).OneCall()
  {
    SlotTableHoldsPlan(cfg.slots);
    assert SlotAuthorized(cfg.authority, cfg.Table()[id]);
  }

  lemma CapacityCount(cfg: HostConfig, c: Id)
    requires cfg.Accepted() && c in cfg.authority.components
    ensures |SlotsOfComponent(cfg.Table(), cfg.Table().Keys, c)| == cfg.authority.components[c].Capacity()
  {
    SlotCountIsCapacity(cfg.authority, cfg.slots, c);
  }

  lemma UsedCounted(cfg: HostConfig, env: Id -> Call, s: HostState, c: Id)
    requires Inv(cfg, env, s) && c in cfg.authority.components
    ensures AllocatedTo(s.shared, c) == |SlotsOfComponent(cfg.Table(), s.shared.usedSlots, c)|
    ensures s.shared.usedSlots <= cfg.Table().Keys
  {
    Clauses(cfg, env, s);
    hide LedgerOk, ReservationsOk, EventsOk, ReceiptsOk, ReportsOk, PhasesOk, SlotTable, SlotsOfComponent;
    hide HeldBySome;
  }

  lemma EventsOf(cfg: HostConfig, env: Id -> Call, s: HostState)
    requires Inv(cfg, env, s)
    ensures EventsOk(cfg, s.shared.ledger.events, s.shared.reports, s.attempts)
    ensures ReportsOk(cfg, env, s.shared.reports)
    ensures var events := s.shared.ledger.events;
      forall i, j :: 0 <= i < j < |events| ==> events[i].id != events[j].id
  {
    Clauses(cfg, env, s);
    hide HoldersOk, CountersOk, ReservationsOk, EventsOk, ReceiptsOk, ReportsOk, PhasesOk, SlotTable;
    hide Accounted, BreachExplained, AmountsValid, EventIds, RejectedIds, Elements;
  }

  lemma HolderKnown(cfg: HostConfig, env: Id -> Call, s: HostState, t: nat)
    requires cfg.Accepted() && Inv(cfg, env, s)
    requires t in s.attempts && s.attempts[t].Live()
    ensures Knows(cfg.Table(), s.attempts[t].slot)
    ensures s.attempts[t].slot.slotId in s.shared.usedSlots
    ensures s.attempts[t].slot.slotId !in ReportIds(s.shared.reports)
    ensures s.attempts[t].slot.componentId in cfg.authority.components
    ensures cfg.MaximumsOf(s.attempts[t].slot).OneCall()
    ensures forall u :: u in s.attempts && SameSlot(s.attempts[u], s.attempts[t]) ==> u == t
  {
    Clauses(cfg, env, s);
    SlotKnown(cfg, s.attempts[t].slot.slotId);
    hide SlotTable, ReportIds;
  }

  lemma PhasesUpdate(cfg: HostConfig, env: Id -> Call, attempts: map<nat, Phase>, t: nat, phase: Phase)
    requires PhasesOk(cfg, env, attempts) && PhaseExplained(cfg, env, phase)
    ensures PhasesOk(cfg, env, attempts[t := phase])
  {
    hide PhaseExplained;
  }

  // One lemma for each kind of step.

  lemma RefusedStart(cfg: HostConfig, env: Id -> Call, s: HostState, t: nat, reason: Refusal)
    requires Inv(cfg, env, s) && t !in s.attempts
    ensures Inv(cfg, env, s.(attempts := s.attempts[t := Finished(Refused(reason))]))
  {
    Clauses(cfg, env, s);
    var phase := Finished(Refused(reason));
    assert ClaimedReceipt(phase).None? && PhaseExplained(cfg, env, phase);
    hide HoldersOk, CountersOk, ReservationsOk, EventsOk, ReceiptsOk, ReportsOk, LedgerOk, PhasesOk;
    hide SlotTable, ReportIds, ReportReceipts, ClaimedReceipt, PhaseExplained;
    MoveKeepsHolders(cfg.Table(), s.shared.usedSlots, ReportIds(s.shared.reports), s.attempts, t, phase);
    MoveKeepsReservations(cfg, s.shared.ledger, s.attempts, t, phase);
    MoveKeepsEvents(cfg, s.shared.ledger.events, s.shared.reports, s.attempts, t, phase);
    MoveKeepsReceipts(s.shared.receipts, s.shared.receipts, ReportReceipts(s.shared.reports), s.attempts, t, phase);
    PhasesUpdate(cfg, env, s.attempts, t, phase);
  }

  lemma GrantedStart(cfg: HostConfig, env: Id -> Call, s: HostState, t: nat, slot: Slot)
    requires cfg.Accepted() && Inv(cfg, env, s) && t !in s.attempts
    requires Knows(cfg.Table(), slot) && slot.slotId !in s.shared.usedSlots
    ensures Inv(cfg, env, HostState(AfterClaim(s.shared, slot), s.attempts[t := Claimed(slot)]))
  {
    Clauses(cfg, env, s);
    hide HostConfig.Accepted, SlotTable, SlotAuthorized, AllocatedTo;
    var phase := Claimed(slot);
    SlotKnown(cfg, slot.slotId);
    assert ClaimedReceipt(phase).None? && PhaseExplained(cfg, env, phase);
    hide HoldersOk, CountersOk, ReservationsOk, EventsOk, ReceiptsOk, ReportsOk, LedgerOk, PhasesOk;
    hide SlotTable, ReportIds, ReportReceipts, ClaimedReceipt, PhaseExplained;
    ClaimKeepsHolders(cfg.Table(), s.shared.usedSlots, ReportIds(s.shared.reports), s.attempts, t, slot);
    ClaimKeepsCounters(cfg, s.shared, slot);
    MoveKeepsReservations(cfg, s.shared.ledger, s.attempts, t, phase);
    MoveKeepsEvents(cfg, s.shared.ledger.events, s.shared.reports, s.attempts, t, phase);
    MoveKeepsReceipts(s.shared.receipts, s.shared.receipts, ReportReceipts(s.shared.reports), s.attempts, t, phase);
    PhasesUpdate(cfg, env, s.attempts, t, phase);
  }

  lemma Released(cfg: HostConfig, env: Id -> Call, s: HostState, t: nat, result: AttemptResult)
    requires cfg.Accepted() && Inv(cfg, env, s)
    requires t in s.attempts && s.attempts[t].Releasing?
    ensures Inv(cfg, env, HostState(
      AfterRelease(s.shared, s.attempts[t].slot), s.attempts[t := Finished(result)]))
  {
    Clauses(cfg, env, s);
    hide HostConfig.Accepted, SlotTable, AllocatedTo;
    var slot, phase := s.attempts[t].slot, Finished(result);
    HolderKnown(cfg, env, s, t);
    assert ClaimedReceipt(phase).None? && ClaimedReceipt(s.attempts[t]).None?;
    assert PhaseExplained(cfg, env, phase);
    hide HoldersOk, CountersOk, ReservationsOk, EventsOk, ReceiptsOk, ReportsOk, LedgerOk, PhasesOk;
    hide SlotTable, ReportIds, ReportReceipts, ClaimedReceipt, PhaseExplained;
    FinishKeepsHolders(cfg.Table(), s.shared.usedSlots, ReportIds(s.shared.reports), s.attempts, t, result);
    ReleaseKeepsCounters(cfg, s.shared, slot);
    MoveKeepsReservations(cfg, s.shared.ledger, s.attempts, t, phase);
    MoveKeepsEvents(cfg, s.shared.ledger.events, s.shared.reports, s.attempts, t, phase);
    MoveKeepsReceipts(s.shared.receipts, s.shared.receipts, ReportReceipts(s.shared.reports), s.attempts, t, phase);
    PhasesUpdate(cfg, env, s.attempts, t, phase);
  }

  lemma ReserveKeepsLedger(cfg: HostConfig, ledger: LedgerState, slot: Slot, token: nat)
    requires LedgerOk(cfg, ledger) && slot.slotId in cfg.Table()
    ensures LedgerOk(cfg, AfterReserve(ledger, slot.slotId, cfg.MaximumsOf(slot), token))
    ensures AfterReserve(ledger, slot.slotId, cfg.MaximumsOf(slot), token).events == ledger.events
    ensures ReserveAnswer(ledger, slot.slotId, cfg.MaximumsOf(slot)).ReservationGranted? ==>
      slot.slotId !in ledger.reservations
      && AfterReserve(ledger, slot.slotId, cfg.MaximumsOf(slot), token).reservations
         == ledger.reservations[slot.slotId := Reservation(cfg.MaximumsOf(slot), token)]
    ensures !ReserveAnswer(ledger, slot.slotId, cfg.MaximumsOf(slot)).ReservationGranted? ==>
      AfterReserve(ledger, slot.slotId, cfg.MaximumsOf(slot), token).reservations == ledger.reservations
  {
    assert ledger.reservations.Keys <= ledger.usedIds;
    ReserveKeepsInvariant(ledger, slot.slotId, cfg.MaximumsOf(slot), token);
    hide Ledger.Invariant, Active, SlotTable;
  }

  lemma ReservationTried(cfg: HostConfig, env: Id -> Call, s: HostState, t: nat, token: nat)
    requires cfg.Accepted() && Inv(cfg, env, s)
    requires t in s.attempts && s.attempts[t].Claimed?
    ensures Inv(cfg, env, HostState(
      NextShared(cfg, env, s.shared, s.attempts[t], token),
      s.attempts[t := NextPhase(cfg, env, s.shared, s.attempts[t], token)]))
  {
    Clauses(cfg, env, s);
    hide HostConfig.Accepted, SlotTable, OverAxes, Active;
    var slot, phase := s.attempts[t].slot, NextPhase(cfg, env, s.shared, s.attempts[t], token);
    var after := AfterReserve(s.shared.ledger, slot.slotId, cfg.MaximumsOf(slot), token);
    HolderKnown(cfg, env, s, t);
    ReserveKeepsLedger(cfg, s.shared.ledger, slot, token);
    assert ClaimedReceipt(phase).None? && ClaimedReceipt(s.attempts[t]).None?;
    assert PhaseExplained(cfg, env, phase);
    hide HoldersOk, CountersOk, ReservationsOk, EventsOk, ReceiptsOk, ReportsOk, LedgerOk, PhasesOk;
    hide SlotTable, ReportIds, ReportReceipts, ClaimedReceipt, PhaseExplained, ReserveAnswer, AfterReserve;
    MoveKeepsHolders(cfg.Table(), s.shared.usedSlots, ReportIds(s.shared.reports), s.attempts, t, phase);
    if phase.Reserved? {
      GrantKeepsReservations(cfg, s.shared.ledger, after, s.attempts, t, slot, token);
    } else {
      MoveKeepsReservations(cfg, s.shared.ledger, s.attempts, t, phase);
      SameReservations(cfg, s.shared.ledger, after, s.attempts[t := phase]);
    }
    MoveKeepsEvents(cfg, s.shared.ledger.events, s.shared.reports, s.attempts, t, phase);
    MoveKeepsReceipts(s.shared.receipts, s.shared.receipts, ReportReceipts(s.shared.reports), s.attempts, t, phase);
    PhasesUpdate(cfg, env, s.attempts, t, phase);
  }

  lemma SameReservations(cfg: HostConfig, ledger: LedgerState, after: LedgerState, attempts: map<nat, Phase>)
    requires ReservationsOk(cfg, ledger, attempts) && after.reservations == ledger.reservations
    ensures ReservationsOk(cfg, after, attempts)
  {
  }

  lemma ProviderCalled(cfg: HostConfig, env: Id -> Call, s: HostState, t: nat)
    requires cfg.Accepted() && Inv(cfg, env, s)
    requires t in s.attempts && s.attempts[t].Reserved?
    ensures Inv(cfg, env, HostState(
      s.shared, s.attempts[t := Called(
        s.attempts[t].slot, s.attempts[t].token,
        AfterCall(cfg, s.attempts[t].slot, env(s.attempts[t].slot.slotId)))]))
  {
    Clauses(cfg, env, s);
    hide HostConfig.Accepted, SlotTable, AfterCall;
    var slot := s.attempts[t].slot;
    var phase := Called(slot, s.attempts[t].token, AfterCall(cfg, slot, env(slot.slotId)));
    assert ClaimedReceipt(phase).None? && ClaimedReceipt(s.attempts[t]).None?;
    assert PhaseExplained(cfg, env, phase);
    hide HoldersOk, CountersOk, ReservationsOk, EventsOk, ReceiptsOk, ReportsOk, LedgerOk, PhasesOk;
    hide ReportIds, ReportReceipts, ClaimedReceipt, PhaseExplained;
    MoveKeepsHolders(cfg.Table(), s.shared.usedSlots, ReportIds(s.shared.reports), s.attempts, t, phase);
    MoveKeepsReservations(cfg, s.shared.ledger, s.attempts, t, phase);
    MoveKeepsEvents(cfg, s.shared.ledger.events, s.shared.reports, s.attempts, t, phase);
    MoveKeepsReceipts(s.shared.receipts, s.shared.receipts, ReportReceipts(s.shared.reports), s.attempts, t, phase);
    PhasesUpdate(cfg, env, s.attempts, t, phase);
  }

  lemma ReceiptRegion(cfg: HostConfig, env: Id -> Call, s: HostState, t: nat)
    requires cfg.Accepted() && Inv(cfg, env, s)
    requires t in s.attempts && s.attempts[t].Called?
    ensures Inv(cfg, env, HostState(
      NextShared(cfg, env, s.shared, s.attempts[t], 0),
      s.attempts[t := NextPhase(cfg, env, s.shared, s.attempts[t], 0)]))
  {
    Clauses(cfg, env, s);
    hide HostConfig.Accepted, SlotTable;
    var before, phase := s.attempts[t], NextPhase(cfg, env, s.shared, s.attempts[t], 0);
    var shared := WithReceipt(s.shared, before.draft);
    var recorded := ReportReceipts(s.shared.reports);
    ReceiptRegionExplained(cfg, env, s, t);
    hide HoldersOk, CountersOk, ReservationsOk, EventsOk, ReceiptsOk, ReportsOk, LedgerOk, PhasesOk;
    hide ReportIds, ReportReceipts, ClaimedReceipt, PhaseExplained, AfterReceiptClaim, ReusedIn;
    MoveKeepsHolders(cfg.Table(), s.shared.usedSlots, ReportIds(s.shared.reports), s.attempts, t, phase);
    MoveKeepsReservations(cfg, s.shared.ledger, s.attempts, t, phase);
    MoveKeepsEvents(cfg, s.shared.ledger.events, s.shared.reports, s.attempts, t, phase);
    if ClaimedReceipt(phase).Some? {
      ClaimKeepsReceipts(s.shared.receipts, recorded, s.attempts, t, phase, before.draft.verified.value);
    } else {
      MoveKeepsReceipts(s.shared.receipts, shared.receipts, recorded, s.attempts, t, phase);
    }
    PhasesUpdate(cfg, env, s.attempts, t, phase);
  }

  lemma PhaseIsExplained(cfg: HostConfig, env: Id -> Call, s: HostState, t: nat)
    requires Inv(cfg, env, s) && t in s.attempts
    ensures PhaseExplained(cfg, env, s.attempts[t])
  {
    Clauses(cfg, env, s);
    hide LedgerOk, HoldersOk, CountersOk, ReservationsOk, EventsOk, ReceiptsOk, ReportsOk, PhaseExplained;
  }

  lemma ClaimedDraft(shared: Shared, draft: Draft, interrupt: ClaimInterrupt)
    requires draft.receipt.None?
    ensures var receipt := AfterReceiptClaim(draft, ReusedIn(draft, shared.receipts), interrupt).receipt;
      && (receipt.Some? ==> receipt == draft.verified && receipt.value !in shared.receipts)
      && (receipt.None? ==> draft.verified.None? || ReusedIn(draft, shared.receipts) || interrupt.DigestAdded?)
  {
  }

  /** A claim is for a digest no one knew. Without one the call had no receipt, or came too late, or was
      interrupted between adding the digest and taking it. */
  lemma ReceiptRegionExplained(cfg: HostConfig, env: Id -> Call, s: HostState, t: nat)
    requires Inv(cfg, env, s) && t in s.attempts && s.attempts[t].Called?
    ensures var phase := NextPhase(cfg, env, s.shared, s.attempts[t], 0);
      && PhaseExplained(cfg, env, phase)
      && ClaimedReceipt(s.attempts[t]).None?
      && (ClaimedReceipt(phase).Some? ==>
            && s.attempts[t].draft.verified == ClaimedReceipt(phase)
            && ClaimedReceipt(phase).value !in s.shared.receipts)
      && (ClaimedReceipt(phase).None? ==>
            || s.attempts[t].draft.verified.None?
            || ReusedIn(s.attempts[t].draft, s.shared.receipts)
            || env(s.attempts[t].slot.slotId).interrupt.DigestAdded?)
  {
    Clauses(cfg, env, s);
    var slot := s.attempts[t].slot;
    PhaseIsExplained(cfg, env, s, t);
    NothingBeforeClaim(cfg, slot, env(slot.slotId));
    ClaimedDraft(s.shared, s.attempts[t].draft, env(slot.slotId).interrupt);
    hide Inv, AfterCall, AfterReceiptClaim, ReusedIn, WithReceipt;
  }

  // Settling.

  lemma ReservationHeld(cfg: HostConfig, env: Id -> Call, s: HostState, t: nat)
    requires Inv(cfg, env, s) && t in s.attempts && s.attempts[t].HasReservation()
    ensures s.attempts[t].slot.slotId in s.shared.ledger.reservations
    ensures s.shared.ledger.reservations[s.attempts[t].slot.slotId]
      == Reservation(cfg.MaximumsOf(s.attempts[t].slot), s.attempts[t].token)
  {
    Clauses(cfg, env, s);
    hide HoldersOk, CountersOk, EventsOk, ReceiptsOk, ReportsOk, LedgerOk, PhasesOk, SlotTable;
  }

  lemma DraftCharged(cfg: HostConfig, env: Id -> Call, s: HostState, t: nat)
    requires cfg.Accepted() && Inv(cfg, env, s)
    requires t in s.attempts && s.attempts[t].ReceiptClaimed?
    ensures FinalCharge(s.attempts[t].draft, cfg.MaximumsOf(s.attempts[t].slot)).OneCall()
  {
    hide HostConfig.Accepted, Inv, SlotTable, DraftOf, FinalCharge, Amounts.OneCall;
    HolderKnown(cfg, env, s, t);
    PhaseIsExplained(cfg, env, s, t);
    ChargeValid(cfg, env, s.attempts[t].slot, false);
    ChargeValid(cfg, env, s.attempts[t].slot, true);
  }

  lemma SettleAccepted(cfg: HostConfig, env: Id -> Call, s: HostState, t: nat)
    requires cfg.Accepted() && Inv(cfg, env, s)
    requires t in s.attempts && s.attempts[t].ReceiptClaimed?
    ensures var phase := s.attempts[t];
      var answer := SettleSlot(cfg, s.shared.ledger, phase.slot, phase.token, phase.draft);
      answer.SettledWithin? || answer.SettledBreach?
    ensures FinalCharge(s.attempts[t].draft, cfg.MaximumsOf(s.attempts[t].slot)).OneCall()
    ensures s.attempts[t].slot.slotId in s.shared.ledger.reservations
    ensures s.shared.ledger.reservations[s.attempts[t].slot.slotId]
      == Reservation(cfg.MaximumsOf(s.attempts[t].slot), s.attempts[t].token)
  {
    hide HostConfig.Accepted, Inv, SlotTable, OverAxes, FinalCharge, Amounts.OneCall;
    ReservationHeld(cfg, env, s, t);
    DraftCharged(cfg, env, s, t);
  }

  lemma SettleKeepsLedger(
    cfg: HostConfig, ledger: LedgerState, id: Id, charge: Amounts, status: Status, receipt: Option<Digest>, token: nat)
    requires LedgerOk(cfg, ledger)
    requires id in ledger.reservations && ledger.reservations[id].token == token && charge.OneCall()
    ensures var after := AfterSettle(ledger, id, charge, status, receipt, token);
      && LedgerOk(cfg, after)
      && after.reservations == ledger.reservations - {id}
      && after.events == ledger.events + [EventFor(ledger, id, charge, status, receipt)]
    ensures SettleAnswer(ledger, id, charge, status, receipt, token).SettledBreach?
      <==> OverBudget(EventFor(ledger, id, charge, status, receipt))
  {
    SettleKeepsInvariant(ledger, id, charge, status, receipt, token);
    hide Ledger.Invariant, SlotTable, OverAxes;
  }

  /** What settling hands over is explained by the call, and matches the event it leaves behind. */
  lemma ReportMatchesEvent(
    cfg: HostConfig, env: Id -> Call, ledger: LedgerState, slot: Slot, reused: bool, event: Event)
    requires slot.slotId in ledger.reservations
    requires var draft := DraftOf(cfg, env, slot, reused);
      event == EventFor(ledger, slot.slotId, FinalCharge(draft, cfg.MaximumsOf(slot)), draft.status, draft.receipt)
    ensures Matches(event, ReportOf(cfg, env, slot, reused, OverBudget(event)))
  {
    DraftSound(cfg, env, slot, reused);
    hide DraftOf, FinalCharge, OverAxes;
  }

  lemma SettledPhase(cfg: HostConfig, env: Id -> Call, s: HostState, t: nat)
    requires cfg.Accepted() && Inv(cfg, env, s)
    requires t in s.attempts && s.attempts[t].ReceiptClaimed?
    ensures s.attempts[t].slot.slotId in s.shared.ledger.reservations
    ensures var before, phase := s.attempts[t], NextPhase(cfg, env, s.shared, s.attempts[t], 0);
      var event := EventFor(s.shared.ledger, before.slot.slotId,
        FinalCharge(before.draft, cfg.MaximumsOf(before.slot)), before.draft.status, before.draft.receipt);
      && phase.Settled? && phase.HasReport() && phase.slot == before.slot
      && PhaseExplained(cfg, env, phase)
      && phase.PendingReport().body.attemptId == before.slot.slotId
      && Matches(event, phase.PendingReport())
      && event.reserved == cfg.MaximumsOf(before.slot)
      && ClaimedReceipt(phase) == ClaimedReceipt(before)
  {
    hide HostConfig.Accepted, Inv, SlotTable, DraftOf, FinalCharge, OverAxes, Matches;
    SettleAccepted(cfg, env, s, t);
    PhaseIsExplained(cfg, env, s, t);
    var before, phase := s.attempts[t], NextPhase(cfg, env, s.shared, s.attempts[t], 0);
    var event := EventFor(s.shared.ledger, before.slot.slotId,
      FinalCharge(before.draft, cfg.MaximumsOf(before.slot)), before.draft.status, before.draft.receipt);
    var reused := before.draft == DraftOf(cfg, env, before.slot, true);
    ReportMatchesEvent(cfg, env, s.shared.ledger, before.slot, reused, event);
    assert phase.pending == OutcomeOf(cfg, env, before.slot, reused, OverBudget(event));
  }

  lemma Settling(cfg: HostConfig, env: Id -> Call, s: HostState, t: nat)
    requires cfg.Accepted() && Inv(cfg, env, s)
    requires t in s.attempts && s.attempts[t].ReceiptClaimed?
    ensures Inv(cfg, env, HostState(
      NextShared(cfg, env, s.shared, s.attempts[t], 0),
      s.attempts[t := NextPhase(cfg, env, s.shared, s.attempts[t], 0)]))
  {
    Clauses(cfg, env, s);
    hide HostConfig.Accepted, SlotTable;
    var before, phase := s.attempts[t], NextPhase(cfg, env, s.shared, s.attempts[t], 0);
    var slot, draft := before.slot, before.draft;
    var charge := FinalCharge(draft, cfg.MaximumsOf(slot));
    HolderKnown(cfg, env, s, t);
    SettleAccepted(cfg, env, s, t);
    SettledPhase(cfg, env, s, t);
    hide HoldersOk, CountersOk, ReservationsOk, EventsOk, ReceiptsOk, ReportsOk, LedgerOk, PhasesOk;
    hide NextPhase, FinalCharge, EventFor, AfterSettle, SettleSlot, ReportIds, ReportReceipts, ClaimedReceipt;
    hide PhaseExplained, Matches;
    var event := EventFor(s.shared.ledger, slot.slotId, charge, draft.status, draft.receipt);
    var after := AfterSettle(s.shared.ledger, slot.slotId, charge, draft.status, draft.receipt, before.token);
    SettleKeepsLedger(cfg, s.shared.ledger, slot.slotId, charge, draft.status, draft.receipt, before.token);
    MoveKeepsHolders(cfg.Table(), s.shared.usedSlots, ReportIds(s.shared.reports), s.attempts, t, phase);
    SettleKeepsReservations(cfg, s.shared.ledger, after, s.attempts, t, phase);
    SettleKeepsEvents(cfg, s.shared.ledger.events, event, s.shared.reports, s.attempts, t, phase);
    MoveKeepsReceipts(s.shared.receipts, s.shared.receipts, ReportReceipts(s.shared.reports), s.attempts, t, phase);
    PhasesUpdate(cfg, env, s.attempts, t, phase);
  }

  // Recording.

  lemma PendingHasReport(cfg: HostConfig, env: Id -> Call, s: HostState, t: nat)
    requires cfg.Accepted() && Inv(cfg, env, s)
    requires t in s.attempts && s.attempts[t].Settled?
    ensures s.attempts[t].HasReport()
    ensures s.attempts[t].PendingReport().body.attemptId == s.attempts[t].slot.slotId
    ensures ReportExplained(cfg, env, s.attempts[t].PendingReport())
  {
    Clauses(cfg, env, s);
    hide HostConfig.Accepted, SlotTable;
    HolderKnown(cfg, env, s, t);
    PhaseIsExplained(cfg, env, s, t);
    hide Inv, DraftOf;
    var slot := s.attempts[t].slot;
    var reused, breach :| s.attempts[t].pending == OutcomeOf(cfg, env, slot, reused, breach);
    assert s.attempts[t].PendingReport() == ReportOf(cfg, env, slot, reused, breach);
  }

  lemma RecordKeepsReports(cfg: HostConfig, env: Id -> Call, reports: seq<Report>, report: Report)
    requires ReportsOk(cfg, env, reports) && RecordedOnce(reports + [report])
    requires report.body.attemptId !in ReportIds(reports) && ReportExplained(cfg, env, report)
    ensures ReportsOk(cfg, env, reports + [report])
  {
    forall i | 0 <= i < |reports| ensures reports[i].body.attemptId != report.body.attemptId {
      assert reports[i] in reports && reports[i].body.attemptId in ReportIds(reports);
    }
    hide ReportIds, ReportExplained, RecordedOnce;
  }

  lemma Recording(cfg: HostConfig, env: Id -> Call, s: HostState, t: nat)
    requires cfg.Accepted() && Inv(cfg, env, s)
    requires t in s.attempts && s.attempts[t].Settled?
    ensures Inv(cfg, env, HostState(
      NextShared(cfg, env, s.shared, s.attempts[t], 0),
      s.attempts[t := Finished(s.attempts[t].pending)]))
  {
    Clauses(cfg, env, s);
    hide HostConfig.Accepted, SlotTable;
    hide HoldersOk, CountersOk, ReservationsOk, EventsOk, ReceiptsOk, LedgerOk, PhasesOk;
    var phase, result := s.attempts[t], s.attempts[t].pending;
    HolderKnown(cfg, env, s, t);
    PendingHasReport(cfg, env, s, t);
    var report := phase.PendingReport();
    assert PhaseExplained(cfg, env, Finished(result));
    assert RecordedOnce(s.shared.reports);
    ReportIdsAppend(s.shared.reports, report);
    hide ReportsOk, ReportIds, ReportReceipts, PhaseExplained, ReportExplained, RecordedOnce;
    FinishKeepsHolders(cfg.Table(), s.shared.usedSlots, ReportIds(s.shared.reports), s.attempts, t, result);
    MoveKeepsReservations(cfg, s.shared.ledger, s.attempts, t, Finished(result));
    RecordKeepsEvents(cfg, s.shared.ledger.events, s.shared.reports, s.attempts, t, result);
    RecordKeepsReceipts(s.shared.receipts, s.shared.reports, s.attempts, t, result);
    RecordKeepsReports(cfg, env, s.shared.reports, report);
    PhasesUpdate(cfg, env, s.attempts, t, Finished(result));
  }
}
