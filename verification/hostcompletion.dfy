/** An admitted campaign runs to completion, and its manifest is accepted. */
module HostCompletion {
  import opened Budget
  import opened Campaign
  import opened ExecutionPlan
  import opened Ledger
  import opened Host
  import opened HostInvariant
  import opened HostReceipts
  import opened HostRuns
  import opened HostSteps
  import opened HostLifecycle
  import opened HostOutcomes
  import opened HostAdmission
  import opened HostSnapshot
  import opened HostManifest
  import opened Manifest

  /** Some attempt, new at the time, was started on the slot. */
  ghost predicate Attempted(cfg: HostConfig, env: Id -> Call, actions: seq<Action>, slotId: Id) {
    exists k :: StartsAt(cfg, env, actions, slotId, k)
  }

  ghost predicate StartsAt(cfg: HostConfig, env: Id -> Call, actions: seq<Action>, slotId: Id, k: int) {
    && 0 <= k < |actions|
    && actions[k].Start?
    && actions[k].slotId == slotId
    && actions[k].id !in Run(cfg, env, actions[..k]).attempts
  }

  lemma UsedSlotsStay(cfg: HostConfig, env: Id -> Call, s: HostState, action: Action)
    requires NeverRefusedBudget(s)
    ensures s.shared.usedSlots <= Step(cfg, env, s, action).shared.usedSlots
  {
    hide NextPhase, AfterReserve, AfterSettle, ClaimAnswer, FinalCharge;
  }

  lemma StartUsesSlot(cfg: HostConfig, env: Id -> Call, s: HostState, t: nat, slotId: Id)
    requires cfg.Accepted() && Inv(cfg, env, s) && slotId in cfg.Table() && t !in s.attempts
    ensures slotId in Step(cfg, env, s, Start(t, slotId)).shared.usedSlots
  {
    hide HostConfig.Accepted, Inv, SlotTable;
    CapacityNeverExhausted(cfg, env, s, slotId);
    SlotKnown(cfg, slotId);
  }

  lemma {:induction false} AttemptedIsUsed(
    cfg: HostConfig, components: seq<Component>, env: Id -> Call, actions: seq<Action>, slotId: Id, k: int)
    requires cfg.Accepted() && BuiltFrom(cfg, components) && Admitted(components, cfg.ceilings)
    requires NoOverrun(Run(cfg, env, actions).shared.ledger.events)
    requires slotId in cfg.Table() && StartsAt(cfg, env, actions, slotId, k)
    ensures slotId in Run(cfg, env, actions).shared.usedSlots
  {
    hide HostConfig.Accepted, Inv, SlotTable, BuiltFrom, NoOverrun, Step;
    var init := actions[..|actions| - 1];
    var before, last := Run(cfg, env, init), actions[|actions| - 1];
    EveryInterleavingKeepsInv(cfg, env, init);
    if k == |init| {
      StartUsesSlot(cfg, env, before, last.id, slotId);
    } else {
      assert init[..k] == actions[..k];
      EventsGrow(cfg, env, before, last);
      EventsSubset(before.shared.ledger.events, Run(cfg, env, actions).shared.ledger.events);
      AdmissionSound(cfg, components, env, init);
      AttemptedIsUsed(cfg, components, env, init, slotId, k);
      UsedSlotsStay(cfg, env, before, last);
    }
  }

  lemma UsedIsReported(cfg: HostConfig, env: Id -> Call, s: HostState)
    requires Inv(cfg, env, s) && forall t :: t in s.attempts ==> s.attempts[t].Finished?
    requires forall id :: id in cfg.Table() ==> id in s.shared.usedSlots
    ensures Complete(cfg, s)
  {
    Clauses(cfg, env, s);
    hide LedgerOk, CountersOk, ReservationsOk, EventsOk, ReceiptsOk, ReportsOk, PhasesOk, SlotTable, ReportIds;
    forall id | id in s.shared.usedSlots ensures id in ReportIds(s.shared.reports) {
      assert !HeldBySome(s.attempts, id);
    }
  }

  /** With the worst case under the ceilings and no attempt over its own reservation, attempting
      every slot and letting every attempt end puts every slot on record, whatever the order, the
      outcomes or the number of attempts. */
  lemma AdmittedRunCompletes(cfg: HostConfig, components: seq<Component>, env: Id -> Call, actions: seq<Action>)
    requires cfg.Accepted() && BuiltFrom(cfg, components) && Admitted(components, cfg.ceilings)
    requires NoOverrun(Run(cfg, env, actions).shared.ledger.events)
    requires forall id :: id in cfg.Table() ==> Attempted(cfg, env, actions, id)
    requires forall t :: t in Run(cfg, env, actions).attempts ==> Run(cfg, env, actions).attempts[t].Finished?
    ensures Complete(cfg, Run(cfg, env, actions))
  {
    hide HostConfig.Accepted, Inv, SlotTable, BuiltFrom, NoOverrun, Step, Run, StartsAt;
    EveryInterleavingKeepsInv(cfg, env, actions);
    forall id | id in cfg.Table() ensures id in Run(cfg, env, actions).shared.usedSlots {
      var k :| StartsAt(cfg, env, actions, id, k);
      AttemptedIsUsed(cfg, components, env, actions, id, k);
    }
    UsedIsReported(cfg, env, Run(cfg, env, actions));
  }

  // Overruns are a property of the calls alone.

  lemma ReportCharge(cfg: HostConfig, env: Id -> Call, report: Report)
    requires ReportExplained(cfg, env, report)
    ensures exists reused :: report.body.usage == ChargeFor(cfg, env, cfg.Table()[report.body.attemptId], reused)
  {
    hide SlotTable, DraftOf, FinalCharge;
    var slot := cfg.Table()[report.body.attemptId];
    var reused, breach :| report == ReportOf(cfg, env, slot, reused, breach);
    assert report.body.usage == ChargeFor(cfg, env, slot, reused);
  }

  lemma EventOfAttempt(cfg: HostConfig, env: Id -> Call, s: HostState, event: Event, t: nat)
    requires cfg.Accepted() && Inv(cfg, env, s) && event in s.shared.ledger.events
    requires t in s.attempts && s.attempts[t].HasReport() && s.attempts[t].slot.slotId == event.id
    ensures Matches(event, s.attempts[t].PendingReport())
  {
    hide HostConfig.Accepted, SlotTable, Inv, ReportsOk, ReportIds, HostConfig.MaximumsOf;
    EventsOf(cfg, env, s);
    PendingHasReport(cfg, env, s, t);
    var report := s.attempts[t].PendingReport();
    var other :| other in s.shared.ledger.events && Matches(other, report);
    assert other.id == event.id;
    hide Matches, ReportExplained;
  }

  /** Every charge is the one its own call determines. */
  lemma EventCharge(cfg: HostConfig, env: Id -> Call, s: HostState, event: Event)
    requires cfg.Accepted() && Inv(cfg, env, s) && event in s.shared.ledger.events
    ensures event.id in cfg.Table() && event.reserved == cfg.MaximumsOf(cfg.Table()[event.id])
    ensures exists reused :: event.charged == ChargeFor(cfg, env, cfg.Table()[event.id], reused)
  {
    hide HostConfig.Accepted, SlotTable, Inv, ChargeFor, ReportExplained, RecordedOnce, HasEvent, OverBudget;
    EventsOf(cfg, env, s);
    if event.id in ReportIds(s.shared.reports) {
      var report :| report in s.shared.reports && report.body.attemptId == event.id;
      MatchingEventUnique(cfg, env, s, report, event);
      ReportCharge(cfg, env, report);
    } else {
      var t :| t in s.attempts && s.attempts[t].HasReport() && s.attempts[t].slot.slotId == event.id;
      EventOfAttempt(cfg, env, s, event, t);
      PendingHasReport(cfg, env, s, t);
      ReportCharge(cfg, env, s.attempts[t].PendingReport());
    }
  }

  lemma CallsNeverOverrun(cfg: HostConfig, env: Id -> Call, actions: seq<Action>)
    requires cfg.Accepted() && CallsWithinReservations(cfg, env)
    ensures NoOverrun(Run(cfg, env, actions).shared.ledger.events)
  {
    hide HostConfig.Accepted, SlotTable, Inv, ChargeFor, HostConfig.MaximumsOf, Amounts.Leq, Run, CallFits;
    EveryInterleavingKeepsInv(cfg, env, actions);
    forall event | event in Run(cfg, env, actions).shared.ledger.events ensures event.charged.Leq(event.reserved) {
      EventCharge(cfg, env, Run(cfg, env, actions), event);
      PlanKnown(cfg, event.id);
      FitsExactly(cfg, env, cfg.Table()[event.id]);
    }
  }

  /** From admission to acceptance, across the contracts, the host, the ledger and the validator. */
  lemma AdmittedCampaignIsAccepted(
    cfg: HostConfig, components: seq<Component>, env: Id -> Call, actions: seq<Action>, plan: PlanDocument, manifestId: Id)
    requires cfg.Accepted() && BuiltFrom(cfg, components) && Admitted(components, cfg.ceilings) && PlanOf(cfg, plan)
    requires CallsWithinReservations(cfg, env)
    requires forall id :: id in cfg.Table() ==> Attempted(cfg, env, actions, id)
    requires forall t :: t in Run(cfg, env, actions).attempts ==> Run(cfg, env, actions).attempts[t].Finished?
    ensures ManifestValid(ManifestFrom(SnapshotOf(cfg, Run(cfg, env, actions).shared), manifestId), plan)
  {
    hide *;
    CallsNeverOverrun(cfg, env, actions);
    AdmissionSound(cfg, components, env, actions);
    AdmittedRunCompletes(cfg, components, env, actions);
    CompletedHostAccepted(cfg, env, actions, plan, manifestId);
  }
}
