/** What every interleaving of attempts keeps about slots, counters, reservations and events, stated
    on the parts of the host's state so that each kind of step is treated where it acts and nowhere else. */
module HostInvariant {
  import opened Budget
  import opened Options
  import opened ExecutionPlan
  import opened Ledger
  import opened Host

  function ReportIds(reports: seq<Report>): set<Id> {
    set report | report in reports :: report.body.attemptId
  }

  predicate Knows(table: map<Id, Slot>, slot: Slot) {
    slot.slotId in table && table[slot.slotId] == slot
  }

  // Who holds a slot.

  /** A used slot is on record, or held by exactly one live attempt, and never both. */
  ghost predicate HoldersOk(table: map<Id, Slot>, used: set<Id>, reported: set<Id>, attempts: map<nat, Phase>) {
    && reported <= used <= table.Keys
    && (forall t :: t in attempts && attempts[t].Live() ==>
          Knows(table, attempts[t].slot) && attempts[t].slot.slotId in used - reported)
    && (forall t, u :: t in attempts && u in attempts && SameSlot(attempts[t], attempts[u]) ==> t == u)
    && (forall id {:trigger HeldBySome(attempts, id)} :: id in used && id !in reported ==> HeldBySome(attempts, id))
  }

  predicate SameSlot(a: Phase, b: Phase) {
    a.Live() && b.Live() && a.slot.slotId == b.slot.slotId
  }

  ghost predicate HeldBySome(attempts: map<nat, Phase>, id: Id) {
    exists t :: t in attempts && attempts[t].Live() && attempts[t].slot.slotId == id
  }

  lemma HeldAfterUpdate(attempts: map<nat, Phase>, t: nat, phase: Phase, id: Id)
    requires HeldBySome(attempts, id)
    requires t in attempts && attempts[t].Live() && attempts[t].slot.slotId == id ==>
      phase.Live() && phase.slot.slotId == id
    ensures HeldBySome(attempts[t := phase], id)
  {
    var u :| u in attempts && attempts[u].Live() && attempts[u].slot.slotId == id;
    assert u in attempts[t := phase];
  }

  lemma ClaimKeepsHolders(
    table: map<Id, Slot>, used: set<Id>, reported: set<Id>, attempts: map<nat, Phase>, t: nat, slot: Slot)
    requires HoldersOk(table, used, reported, attempts)
    requires t !in attempts && Knows(table, slot) && slot.slotId !in used
    ensures HoldersOk(table, used + {slot.slotId}, reported, attempts[t := Claimed(slot)])
  {
    var after := attempts[t := Claimed(slot)];
    assert t in after && after[t].slot == slot;
    forall id | id in used && id !in reported ensures HeldBySome(after, id) {
      HeldAfterUpdate(attempts, t, Claimed(slot), id);
    }
  }

  lemma MoveKeepsHolders(
    table: map<Id, Slot>, used: set<Id>, reported: set<Id>, attempts: map<nat, Phase>, t: nat, phase: Phase)
    requires HoldersOk(table, used, reported, attempts)
    requires if t in attempts && attempts[t].Live() then phase.Live() && phase.slot == attempts[t].slot
             else phase.Finished?
    ensures HoldersOk(table, used, reported, attempts[t := phase])
  {
    forall id | id in used && id !in reported ensures HeldBySome(attempts[t := phase], id) {
      HeldAfterUpdate(attempts, t, phase, id);
    }
  }

  /** The attempt that holds a slot may give it back, or put it on record, and finish. */
  lemma FinishKeepsHolders(
    table: map<Id, Slot>, used: set<Id>, reported: set<Id>, attempts: map<nat, Phase>, t: nat, result: AttemptResult)
    requires HoldersOk(table, used, reported, attempts)
    requires t in attempts && attempts[t].Live()
    ensures HoldersOk(table, used - {attempts[t].slot.slotId}, reported, attempts[t := Finished(result)])
    ensures HoldersOk(table, used, reported + {attempts[t].slot.slotId}, attempts[t := Finished(result)])
  {
    var phase := Finished(result);
    forall id | id in used && id !in reported && id != attempts[t].slot.slotId
      ensures HeldBySome(attempts[t := phase], id)
    {
      HeldAfterUpdate(attempts, t, phase, id);
    }
  }

  // Attempt counters.

  ghost predicate CountersOk(cfg: HostConfig, used: set<Id>, counters: map<Id, int>) {
    && counters.Keys == cfg.authority.components.Keys
    && forall c :: c in counters ==> counters[c] == |SlotsOfComponent(cfg.Table(), used, c)|
  }

  lemma CountAdd(table: map<Id, Slot>, used: set<Id>, slot: Slot, c: Id)
    requires Knows(table, slot) && slot.slotId !in used
    ensures |SlotsOfComponent(table, used + {slot.slotId}, c)|
      == |SlotsOfComponent(table, used, c)| + if slot.componentId == c then 1 else 0
  {
    assert SlotsOfComponent(table, used + {slot.slotId}, c)
      == SlotsOfComponent(table, used, c) + if slot.componentId == c then {slot.slotId} else {};
  }

  lemma ClaimKeepsCounters(cfg: HostConfig, shared: Shared, slot: Slot)
    requires CountersOk(cfg, shared.usedSlots, shared.allocatedAttempts)
    requires Knows(cfg.Table(), slot) && slot.slotId !in shared.usedSlots
    requires slot.componentId in cfg.authority.components
    ensures CountersOk(cfg, AfterClaim(shared, slot).usedSlots, AfterClaim(shared, slot).allocatedAttempts)
  {
    forall c: Id {
      CountAdd(cfg.Table(), shared.usedSlots, slot, c);
    }
    hide SlotsOfComponent, SlotTable;
  }

  lemma ReleaseKeepsCounters(cfg: HostConfig, shared: Shared, slot: Slot)
    requires CountersOk(cfg, shared.usedSlots, shared.allocatedAttempts)
    requires Knows(cfg.Table(), slot) && slot.slotId in shared.usedSlots
    requires slot.componentId in cfg.authority.components
    ensures CountersOk(cfg, AfterRelease(shared, slot).usedSlots, AfterRelease(shared, slot).allocatedAttempts)
  {
    var used := shared.usedSlots - {slot.slotId};
    assert used + {slot.slotId} == shared.usedSlots;
    forall c: Id {
      CountAdd(cfg.Table(), used, slot, c);
    }
    hide SlotsOfComponent, SlotTable;
  }

  // Reservations, events and reports.

  ghost predicate Matches(event: Event, report: Report) {
    && event.id == report.body.attemptId
    && event.status == report.body.status
    && event.charged == report.body.usage
    && event.receipt == report.body.receipt
    && (report.body.failure == Some(BudgetBreach) <==> OverBudget(event))
  }

  ghost predicate HasEvent(events: seq<Event>, report: Report) {
    exists event :: event in events && Matches(event, report)
  }

  ghost predicate ReservedBySome(attempts: map<nat, Phase>, id: Id) {
    exists t :: t in attempts && attempts[t].HasReservation() && attempts[t].slot.slotId == id
  }

  ghost predicate PendingForSome(attempts: map<nat, Phase>, id: Id) {
    exists t :: t in attempts && attempts[t].HasReport() && attempts[t].slot.slotId == id
  }

  /** Open reservations belong to the attempts being made, and settled charges to their reports. */
  ghost predicate ReservationsOk(cfg: HostConfig, ledger: LedgerState, attempts: map<nat, Phase>) {
    && (forall t :: t in attempts && attempts[t].HasReservation() ==>
          && attempts[t].slot.slotId in ledger.reservations
          && ledger.reservations[attempts[t].slot.slotId]
             == Reservation(cfg.MaximumsOf(attempts[t].slot), attempts[t].token))
    && (forall id {:trigger ReservedBySome(attempts, id)} :: id in ledger.reservations ==> ReservedBySome(attempts, id))
  }

  ghost predicate EventsOk(cfg: HostConfig, events: seq<Event>, reports: seq<Report>, attempts: map<nat, Phase>) {
    && (forall report {:trigger HasEvent(events, report)} :: report in reports ==> HasEvent(events, report))
    && (forall t :: t in attempts && attempts[t].HasReport() ==>
          && attempts[t].PendingReport().body.attemptId == attempts[t].slot.slotId
          && HasEvent(events, attempts[t].PendingReport()))
    && (forall event :: event in events ==>
          && event.id in cfg.Table()
          && event.reserved == cfg.MaximumsOf(cfg.Table()[event.id])
          && (event.id in ReportIds(reports) || PendingForSome(attempts, event.id)))
  }

  lemma ReservedAfterUpdate(attempts: map<nat, Phase>, t: nat, phase: Phase, id: Id)
    requires ReservedBySome(attempts, id)
    requires t in attempts && attempts[t].HasReservation() && attempts[t].slot.slotId == id ==>
      phase.HasReservation() && phase.slot.slotId == id
    ensures ReservedBySome(attempts[t := phase], id)
  {
    var u :| u in attempts && attempts[u].HasReservation() && attempts[u].slot.slotId == id;
    assert u in attempts[t := phase];
  }

  lemma PendingAfterUpdate(attempts: map<nat, Phase>, t: nat, phase: Phase, id: Id)
    requires PendingForSome(attempts, id)
    requires t in attempts && attempts[t].HasReport() && attempts[t].slot.slotId == id ==>
      phase.HasReport() && phase.slot.slotId == id
    ensures PendingForSome(attempts[t := phase], id)
  {
    var u :| u in attempts && attempts[u].HasReport() && attempts[u].slot.slotId == id;
    assert u in attempts[t := phase];
  }

  lemma MoveKeepsReservations(cfg: HostConfig, ledger: LedgerState, attempts: map<nat, Phase>, t: nat, phase: Phase)
    requires ReservationsOk(cfg, ledger, attempts)
    requires if t in attempts && attempts[t].HasReservation()
      then phase.HasReservation() && phase.slot == attempts[t].slot && phase.token == attempts[t].token
      else !phase.HasReservation()
    ensures ReservationsOk(cfg, ledger, attempts[t := phase])
  {
    forall id | id in ledger.reservations ensures ReservedBySome(attempts[t := phase], id) {
      ReservedAfterUpdate(attempts, t, phase, id);
    }
  }

  lemma GrantKeepsReservations(
    cfg: HostConfig, ledger: LedgerState, after: LedgerState, attempts: map<nat, Phase>, t: nat, slot: Slot, token: nat)
    requires ReservationsOk(cfg, ledger, attempts)
    requires t in attempts && !attempts[t].HasReservation() && slot.slotId !in ledger.reservations
    requires after.reservations
      == ledger.reservations[slot.slotId := Reservation(cfg.MaximumsOf(slot), token)]
    ensures ReservationsOk(cfg, after, attempts[t := Reserved(slot, token)])
  {
    var phase := Reserved(slot, token);
    assert attempts[t := phase][t] == phase;
    forall id | id in after.reservations ensures ReservedBySome(attempts[t := phase], id) {
      if id != slot.slotId {
        ReservedAfterUpdate(attempts, t, phase, id);
      }
    }
  }

  lemma SettleKeepsReservations(
    cfg: HostConfig, ledger: LedgerState, after: LedgerState, attempts: map<nat, Phase>, t: nat, phase: Phase)
    requires ReservationsOk(cfg, ledger, attempts)
    requires t in attempts && attempts[t].HasReservation() && !phase.HasReservation()
    requires forall u :: u in attempts && SameSlot(attempts[u], attempts[t]) ==> u == t
    requires after.reservations == ledger.reservations - {attempts[t].slot.slotId}
    ensures ReservationsOk(cfg, after, attempts[t := phase])
  {
    forall id | id in after.reservations ensures ReservedBySome(attempts[t := phase], id) {
      ReservedAfterUpdate(attempts, t, phase, id);
    }
  }

  lemma MoveKeepsEvents(
    cfg: HostConfig, events: seq<Event>, reports: seq<Report>, attempts: map<nat, Phase>, t: nat, phase: Phase)
    requires EventsOk(cfg, events, reports, attempts)
    requires !phase.HasReport() && (t in attempts ==> !attempts[t].HasReport())
    ensures EventsOk(cfg, events, reports, attempts[t := phase])
  {
    hide HasEvent, ReportIds, SlotTable;
    forall event | event in events
      ensures event.id in ReportIds(reports) || PendingForSome(attempts[t := phase], event.id)
    {
      if PendingForSome(attempts, event.id) {
        PendingAfterUpdate(attempts, t, phase, event.id);
      }
    }
  }

  lemma SettleKeepsEvents(
    cfg: HostConfig, events: seq<Event>, event: Event, reports: seq<Report>, attempts: map<nat, Phase>, t: nat, phase: Phase)
    requires EventsOk(cfg, events, reports, attempts)
    requires t in attempts && !attempts[t].HasReport() && phase.HasReport()
    requires Knows(cfg.Table(), phase.slot) && event.reserved == cfg.MaximumsOf(phase.slot)
    requires phase.PendingReport().body.attemptId == phase.slot.slotId
    requires Matches(event, phase.PendingReport())
    ensures EventsOk(cfg, events + [event], reports, attempts[t := phase])
  {
    MatchingId(event, phase.PendingReport());
    hide SlotTable, ReportIds, Matches, HostConfig.MaximumsOf;
    assert (events + [event])[|events|] == event;
    assert HasEvent(events + [event], phase.PendingReport());
    forall report | HasEvent(events, report) ensures HasEvent(events + [event], report) {
    }
    hide HasEvent;
    forall e | e in events + [event]
      ensures e.id in ReportIds(reports) || PendingForSome(attempts[t := phase], e.id)
    {
      if e in events {
        if PendingForSome(attempts, e.id) {
          PendingAfterUpdate(attempts, t, phase, e.id);
        }
      } else {
        assert attempts[t := phase][t] == phase;
      }
    }
  }

  lemma MatchingId(event: Event, report: Report)
    requires Matches(event, report)
    ensures event.id == report.body.attemptId
  {
  }

  lemma RecordKeepsEvents(
    cfg: HostConfig, events: seq<Event>, reports: seq<Report>, attempts: map<nat, Phase>, t: nat, result: AttemptResult)
    requires EventsOk(cfg, events, reports, attempts)
    requires t in attempts && attempts[t].HasReport()
    ensures EventsOk(cfg, events, reports + [attempts[t].PendingReport()], attempts[t := Finished(result)])
  {
    var report := attempts[t].PendingReport();
    var after := reports + [report];
    ReportIdsAppend(reports, report);
    hide HasEvent, SlotTable, ReportIds;
    forall event | event in events
      ensures event.id in ReportIds(after) || PendingForSome(attempts[t := Finished(result)], event.id)
    {
      if event.id !in ReportIds(reports) && event.id != report.body.attemptId {
        PendingAfterUpdate(attempts, t, Finished(result), event.id);
      }
    }
  }

  lemma ReportIdsAppend(reports: seq<Report>, report: Report)
    ensures ReportIds(reports + [report]) == ReportIds(reports) + {report.body.attemptId}
  {
    assert (reports + [report])[|reports|] == report;
    forall id | id in ReportIds(reports) ensures id in ReportIds(reports + [report]) {
      var r :| r in reports && r.body.attemptId == id;
      assert r in reports + [report];
    }
  }
}
