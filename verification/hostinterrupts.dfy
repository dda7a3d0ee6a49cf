/** What an interrupt costs where nothing handles it. */
module HostInterrupts {
  import opened Budget
  import opened Options
  import opened ExecutionPlan
  import opened Ledger
  import opened Host
  import opened HostInvariant
  import opened HostOwnership
  import opened HostReceipts
  import opened HostSteps

  /** The attempt ends where it is: none of its remaining regions is run. From the provider call to the
      end of the receipt region the source handles interrupts itself, as part of the call; this is what
      one leads to before and after. */
  function Abandoned(s: HostState, t: nat): HostState {
    s.(attempts := s.attempts[t := Finished(Stranded)])
  }

  /** What of the invariant outlives an attempt that is abandoned in this phase. */
  predicate Outlives(clause: Clause, phase: Phase) {
    match clause
    case HolderClause => !phase.Live()
    case ReservationClause => !phase.HasReservation()
    case EventClause => !phase.HasReport()
    case _ => true
  }

  lemma AloneHolds(cfg: HostConfig, env: Id -> Call, s: HostState, t: nat)
    requires Inv(cfg, env, s) && t in s.attempts && s.attempts[t].Live()
    ensures forall u :: u in s.attempts && SameSlot(s.attempts[t], s.attempts[u]) ==> u == t
    ensures s.attempts[t].slot.slotId in s.shared.usedSlots - ReportIds(s.shared.reports)
  {
    Clauses(cfg, env, s);
    hide LedgerOk, CountersOk, ReservationsOk, EventsOk, ReceiptsOk, ReportsOk, PhasesOk, ReportIds, SlotTable;
  }

  lemma AbandonedHolders(cfg: HostConfig, env: Id -> Call, s: HostState, t: nat)
    requires Inv(cfg, env, s) && t in s.attempts
    ensures Holds(cfg, env, Abandoned(s, t), HolderClause) <==> !s.attempts[t].Live()
  {
    var phase, after := s.attempts[t], Abandoned(s, t);
    Clauses(cfg, env, s);
    if phase.Live() {
      AloneHolds(cfg, env, s, t);
      var id := phase.slot.slotId;
      assert !HeldBySome(after.attempts, id);
    } else {
      MoveKeepsHolders(cfg.Table(), s.shared.usedSlots, ReportIds(s.shared.reports), s.attempts, t, Finished(Stranded));
    }
    hide LedgerOk, CountersOk, ReservationsOk, EventsOk, ReceiptsOk, ReportsOk, PhasesOk, ReportIds, SlotTable;
  }

  lemma AbandonedReservations(cfg: HostConfig, env: Id -> Call, s: HostState, t: nat)
    requires Inv(cfg, env, s) && t in s.attempts
    ensures Holds(cfg, env, Abandoned(s, t), ReservationClause) <==> !s.attempts[t].HasReservation()
  {
    var phase, after := s.attempts[t], Abandoned(s, t);
    Clauses(cfg, env, s);
    hide LedgerOk, HoldersOk, CountersOk, EventsOk, ReceiptsOk, ReportsOk, PhasesOk, SlotTable;
    if phase.HasReservation() {
      AloneHolds(cfg, env, s, t);
      assert phase.slot.slotId in s.shared.ledger.reservations;
      assert !ReservedBySome(after.attempts, phase.slot.slotId);
    } else {
      MoveKeepsReservations(cfg, s.shared.ledger, s.attempts, t, Finished(Stranded));
    }
  }

  lemma AbandonedEvents(cfg: HostConfig, env: Id -> Call, s: HostState, t: nat)
    requires Inv(cfg, env, s) && t in s.attempts
    ensures Holds(cfg, env, Abandoned(s, t), EventClause) <==> !s.attempts[t].HasReport()
  {
    var phase, after := s.attempts[t], Abandoned(s, t);
    Clauses(cfg, env, s);
    hide LedgerOk, HoldersOk, CountersOk, ReservationsOk, ReceiptsOk, ReportsOk, PhasesOk, SlotTable, ReportIds;
    if phase.HasReport() {
      AloneHolds(cfg, env, s, t);
      var id := phase.slot.slotId;
      var event :| event in s.shared.ledger.events && Matches(event, phase.PendingReport());
      assert event.id == id;
      assert !PendingForSome(after.attempts, id);
    } else {
      MoveKeepsEvents(cfg, s.shared.ledger.events, s.shared.reports, s.attempts, t, Finished(Stranded));
    }
  }

  lemma SoleClaim(cfg: HostConfig, env: Id -> Call, s: HostState, t: nat, digest: Digest)
    requires Inv(cfg, env, s) && t in s.attempts && ClaimedReceipt(s.attempts[t]) == Some(digest)
    ensures !ClaimedByOther(s.attempts, t, digest) && digest !in ReportReceipts(s.shared.reports)
  {
    Clauses(cfg, env, s);
    hide LedgerOk, HoldersOk, CountersOk, ReservationsOk, EventsOk, ReportsOk, PhasesOk, SlotTable, ReportReceipts;
    hide ClaimedReceipt;
    forall u | u in s.attempts && u != t ensures ClaimedReceipt(s.attempts[u]) != Some(digest) {
      assert SameReceipt(s.attempts[u], s.attempts[t]) ==> u == t;
    }
  }

  /** A receipt the attempt had claimed stays known and loses its owner; no other digest does. */
  lemma InterruptOrphans(cfg: HostConfig, env: Id -> Call, s: HostState, t: nat, digest: Digest)
    requires Inv(cfg, env, s) && t in s.attempts
    ensures Abandoned(s, t).shared.receipts == s.shared.receipts
    ensures Owned(Abandoned(s, t), digest) <==> Owned(s, digest) && ClaimedReceipt(s.attempts[t]) != Some(digest)
  {
    ClaimsAfterUpdate(s.attempts, t, Finished(Stranded), digest);
    NothingClaimed();
    hide Inv, ClaimedReceipt, ClaimedBySome, ClaimedByOther, ReportReceipts;
    if ClaimedReceipt(s.attempts[t]) == Some(digest) {
      SoleClaim(cfg, env, s, t, digest);
    }
  }

  lemma NothingClaimed()
    ensures ClaimedReceipt(Finished(Stranded)).None?
  {
  }

  lemma AbandonedReceipts(cfg: HostConfig, env: Id -> Call, s: HostState, t: nat)
    requires Inv(cfg, env, s) && t in s.attempts
    ensures Holds(cfg, env, Abandoned(s, t), ReceiptClause)
  {
    Clauses(cfg, env, s);
    NothingClaimed();
    hide LedgerOk, HoldersOk, CountersOk, ReservationsOk, EventsOk, ReportsOk, PhasesOk, SlotTable, ReportReceipts;
    hide ClaimedReceipt;
  }

  /** Exactly what an unhandled interrupt costs. The slot always stays used with no
      attempt to hold it; from the reservation to the settlement the reservation stays open; between
      settling and recording a charge stays without its report. A claimed receipt is lost, as
      `InterruptOrphans` says. The ledger, the counters, the reports on record and everything else in
      flight stay as sound as before. */
  lemma InterruptCosts(cfg: HostConfig, env: Id -> Call, s: HostState, t: nat, clause: Clause)
    requires Inv(cfg, env, s) && t in s.attempts
    ensures Holds(cfg, env, Abandoned(s, t), clause) <==> Outlives(clause, s.attempts[t])
  {
    match clause
    case HolderClause => AbandonedHolders(cfg, env, s, t);
    case ReservationClause => AbandonedReservations(cfg, env, s, t);
    case EventClause => AbandonedEvents(cfg, env, s, t);
    case ReceiptClause => AbandonedReceipts(cfg, env, s, t);
    case _ =>
      Clauses(cfg, env, s);
      PhasesUpdate(cfg, env, s.attempts, t, Finished(Stranded));
      hide LedgerOk, HoldersOk, CountersOk, ReservationsOk, EventsOk, ReceiptsOk, ReportsOk, PhasesOk;
  }

  /** Only an attempt that has already ended can be interrupted without a trace. */
  lemma InterruptKeepsInv(cfg: HostConfig, env: Id -> Call, s: HostState, t: nat)
    requires Inv(cfg, env, s) && t in s.attempts
    ensures Inv(cfg, env, Abandoned(s, t)) <==> s.attempts[t].Finished?
  {
    var after := Abandoned(s, t);
    hide Holds, SlotTable;
    forall clause ensures Holds(cfg, env, after, clause) <==> Outlives(clause, s.attempts[t]) {
      InterruptCosts(cfg, env, s, t, clause);
    }
    if !s.attempts[t].Finished? {
      assert !Holds(cfg, env, after, HolderClause);
    }
  }

  /** An interrupt inside the reservation, after it was stored, releases the slot and leaves the
      reservation open: the one way in which a released slot leaves a trace. */
  lemma InterruptedReserveLeavesTrace(cfg: HostConfig, env: Id -> Call, s: HostState, t: nat)
    requires Inv(cfg, env, s) && t in s.attempts && s.attempts[t].Reserved?
    ensures var id, after := s.attempts[t].slot.slotId,
        HostState(AfterRelease(s.shared, s.attempts[t].slot), s.attempts[t := Finished(Stranded)]);
      && id !in after.shared.usedSlots && id in after.shared.ledger.reservations
      && !Inv(cfg, env, after)
  {
    var id, after := s.attempts[t].slot.slotId,
      HostState(AfterRelease(s.shared, s.attempts[t].slot), s.attempts[t := Finished(Stranded)]);
    ReservationHeld(cfg, env, s, t);
    AbandonedReservations(cfg, env, s, t);
    hide Inv;
    assert !ReservationsOk(cfg, s.shared.ledger, after.attempts);
    Clauses(cfg, env, after);
    hide ReservationsOk;
  }
}
