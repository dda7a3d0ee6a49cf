/** A system whose worst case fits its ceilings is never refused budget. */
module HostAdmission {
  import opened Budget
  import opened Campaign
  import opened Counting
  import opened ExecutionPlan
  import opened Ledger
  import opened Host
  import opened HostInvariant
  import opened HostReceipts
  import opened HostRuns
  import opened HostSteps

  // Sums of maximums over sets of slots.

  ghost function MaxSum(cfg: HostConfig, ids: set<Id>, axis: Axis): int
    requires ids <= cfg.Table().Keys
    decreases ids
  {
    if ids == {} then 0
    else
      var id :| id in ids;
      cfg.MaximumsOf(cfg.Table()[id]).At(axis) + MaxSum(cfg, ids - {id}, axis)
  }

  lemma {:induction false} MaxSumRemove(cfg: HostConfig, ids: set<Id>, id: Id, axis: Axis)
    requires ids <= cfg.Table().Keys && id in ids
    ensures MaxSum(cfg, ids, axis)
      == cfg.MaximumsOf(cfg.Table()[id]).At(axis) + MaxSum(cfg, ids - {id}, axis)
    decreases ids
  {
    hide SlotTable, HostConfig.MaximumsOf, Amounts.At;
    var first :| first in ids && MaxSum(cfg, ids, axis)
      == cfg.MaximumsOf(cfg.Table()[first]).At(axis) + MaxSum(cfg, ids - {first}, axis);
    if first != id {
      MaxSumRemove(cfg, ids - {first}, id, axis);
      MaxSumRemove(cfg, ids - {id}, first, axis);
      assert ids - {first} - {id} == ids - {id} - {first};
    }
  }

  lemma {:induction false} MaxSumUnion(cfg: HostConfig, a: set<Id>, b: set<Id>, axis: Axis)
    requires a + b <= cfg.Table().Keys && a !! b
    ensures MaxSum(cfg, a + b, axis) == MaxSum(cfg, a, axis) + MaxSum(cfg, b, axis)
    decreases a
  {
    hide SlotTable, HostConfig.MaximumsOf, Amounts.At;
    if a == {} {
      assert a + b == b;
    } else {
      var id :| id in a;
      MaxSumRemove(cfg, a, id, axis);
      MaxSumRemove(cfg, a + b, id, axis);
      assert a + b - {id} == (a - {id}) + b;
      MaxSumUnion(cfg, a - {id}, b, axis);
    }
  }

  lemma {:induction false} MaxSumNonNegative(cfg: HostConfig, ids: set<Id>, axis: Axis)
    requires cfg.Accepted() && ids <= cfg.Table().Keys
    ensures 0 <= MaxSum(cfg, ids, axis)
    decreases ids
  {
    hide HostConfig.Accepted, SlotTable, SlotAuthorized, HostConfig.MaximumsOf;
    if ids != {} {
      var id :| id in ids;
      MaxSumRemove(cfg, ids, id, axis);
      SlotKnown(cfg, id);
      OnEveryAxis(ZERO, cfg.MaximumsOf(cfg.Table()[id]));
      MaxSumNonNegative(cfg, ids - {id}, axis);
    }
  }

  lemma MaxSumMonotone(cfg: HostConfig, some: set<Id>, all: set<Id>, axis: Axis)
    requires cfg.Accepted() && some <= all <= cfg.Table().Keys
    ensures MaxSum(cfg, some, axis) <= MaxSum(cfg, all, axis)
  {
    hide HostConfig.Accepted, SlotTable;
    assert some + (all - some) == all;
    MaxSumUnion(cfg, some, all - some, axis);
    MaxSumNonNegative(cfg, all - some, axis);
  }

  lemma {:induction false} MaxSumSameComponent(cfg: HostConfig, ids: set<Id>, c: Id, axis: Axis)
    requires ids <= cfg.Table().Keys && c in cfg.authority.components
    requires forall id :: id in ids ==> cfg.Table()[id].componentId == c
    ensures MaxSum(cfg, ids, axis) == |ids| * cfg.authority.components[c].Maximums().At(axis)
    decreases ids
  {
    hide SlotTable, Amounts.At, Component.Maximums;
    if ids != {} {
      var id :| id in ids;
      MaxSumRemove(cfg, ids, id, axis);
      MaxSumSameComponent(cfg, ids - {id}, c, axis);
      MultiplyOneMore(|ids| - 1, cfg.authority.components[c].Maximums().At(axis));
    }
  }

  lemma MultiplyOneMore(n: int, m: int)
    ensures (n + 1) * m == n * m + m
  {
  }

  // The whole plan costs exactly the worst case.

  function ComponentIds(components: seq<Component>): seq<Id> {
    seq(|components|, i requires 0 <= i < |components| => components[i].componentId)
  }

  /** The host was built from this component list. */
  ghost predicate BuiltFrom(cfg: HostConfig, components: seq<Component>) {
    && NoDuplicates(ComponentIds(components))
    && (forall component :: component in components ==>
          && component.componentId in cfg.authority.components
          && cfg.authority.components[component.componentId] == component)
    && (forall id :: id in cfg.authority.components ==> id in ComponentIds(components))
  }

  function SlotsOfFirst(cfg: HostConfig, components: seq<Component>, n: nat): set<Id>
    requires n <= |components|
  {
    set id | id in cfg.Table() && cfg.Table()[id].componentId in ComponentIds(components)[..n]
  }

  lemma NextComponentCost(cfg: HostConfig, components: seq<Component>, n: nat, axis: Axis)
    requires cfg.Accepted() && BuiltFrom(cfg, components) && n < |components|
    ensures MaxSum(cfg, SlotsOfFirst(cfg, components, n + 1), axis)
      == MaxSum(cfg, SlotsOfFirst(cfg, components, n), axis) + components[n].WorstCase().At(axis)
  {
    hide SlotTable, ExactCallMatrix, PlanValid;
    var c := components[n].componentId;
    var own := SlotsOfComponent(cfg.Table(), cfg.Table().Keys, c);
    var ids := ComponentIds(components);
    assert ids[n] == c && ids[..n + 1] == ids[..n] + [c];
    assert c !in ids[..n];
    assert SlotsOfFirst(cfg, components, n + 1) == SlotsOfFirst(cfg, components, n) + own;
    assert components[n] in components;
    SlotCountIsCapacity(cfg.authority, cfg.slots, c);
    hide HostConfig.Accepted, BuiltFrom, AuthorityValid;
    MaxSumUnion(cfg, SlotsOfFirst(cfg, components, n), own, axis);
    MaxSumSameComponent(cfg, own, c, axis);
    ScaledAt(components[n].Maximums(), components[n].Capacity(), axis);
  }

  lemma ScaledAt(amounts: Amounts, n: int, axis: Axis)
    ensures amounts.Scaled(n).At(axis) == n * amounts.At(axis)
  {
  }

  lemma {:induction false} PlanCost(cfg: HostConfig, components: seq<Component>, n: nat, axis: Axis)
    requires cfg.Accepted() && BuiltFrom(cfg, components) && n <= |components|
    ensures MaxSum(cfg, SlotsOfFirst(cfg, components, n), axis) == Total(WorstCases(components[..n], axis))
  {
    hide HostConfig.Accepted, BuiltFrom, SlotTable, WorstCases, MaxSum, SlotsOfFirst, Total, Component.WorstCase;
    if n == 0 {
      NothingCosts(cfg, components, axis);
    } else {
      PlanCost(cfg, components, n - 1, axis);
      NextComponentCost(cfg, components, n - 1, axis);
      assert components[..n] == components[..n - 1] + [components[n - 1]];
      WorstCasesAppend(components[..n - 1], components[n - 1], axis);
    }
  }

  lemma NothingCosts(cfg: HostConfig, components: seq<Component>, axis: Axis)
    ensures MaxSum(cfg, SlotsOfFirst(cfg, components, 0), axis) == 0 == Total(WorstCases(components[..0], axis))
  {
    hide SlotTable;
    assert SlotsOfFirst(cfg, components, 0) == {};
    assert components[..0] == [];
  }

  /** The maximums of all slots of an exact plan add up to the campaign's worst case. */
  lemma PlanCostIsWorstCase(cfg: HostConfig, components: seq<Component>, axis: Axis)
    requires cfg.Accepted() && BuiltFrom(cfg, components)
    ensures MaxSum(cfg, cfg.Table().Keys, axis) == Total(WorstCases(components, axis))
  {
    PlanCost(cfg, components, |components|, axis);
    assert components[..|components|] == components;
    assert ComponentIds(components)[..|components|] == ComponentIds(components);
    forall id | id in cfg.Table() ensures cfg.Table()[id].componentId in ComponentIds(components) {
      SlotKnown(cfg, id);
    }
    hide SlotTable, HostConfig.Accepted;
    assert SlotsOfFirst(cfg, components, |components|) == cfg.Table().Keys;
  }

  // What the ledger holds is bounded by the maximums of the slots it has seen.

  lemma {:induction false} ActiveIsMaxSum(cfg: HostConfig, reservations: map<Id, Reservation>, axis: Axis)
    requires reservations.Keys <= cfg.Table().Keys
    requires forall id :: id in reservations ==> reservations[id].reserved == cfg.MaximumsOf(cfg.Table()[id])
    ensures ActiveAt(reservations, axis) == MaxSum(cfg, reservations.Keys, axis)
    decreases |reservations|
  {
    hide SlotTable, HostConfig.MaximumsOf, Amounts.At;
    if reservations != map[] {
      var id :| id in reservations;
      ActiveRemove(reservations, id, axis);
      MaxSumRemove(cfg, reservations.Keys, id, axis);
      ActiveIsMaxSum(cfg, reservations - {id}, axis);
      assert (reservations - {id}).Keys == reservations.Keys - {id};
    } else {
      assert reservations.Keys == {};
    }
  }

  ghost predicate NoOverrun(events: seq<Event>) {
    forall event :: event in events ==> event.charged.Leq(event.reserved)
  }

  ghost predicate EventsFromPlan(cfg: HostConfig, events: seq<Event>) {
    && (forall i, j :: 0 <= i < j < |events| ==> events[i].id != events[j].id)
    && (forall event :: event in events ==>
          event.id in cfg.Table() && event.reserved == cfg.MaximumsOf(cfg.Table()[event.id]))
  }

  lemma {:induction false} ChargedWithinMaxSum(cfg: HostConfig, events: seq<Event>, axis: Axis)
    requires EventsFromPlan(cfg, events) && NoOverrun(events)
    ensures EventIds(events) <= cfg.Table().Keys
    ensures Total(Charged(events, axis)) <= MaxSum(cfg, EventIds(events), axis)
  {
    hide SlotTable, HostConfig.MaximumsOf, Amounts.At;
    if events == [] {
      assert EventIds(events) == {};
    } else {
      var init, last := events[..|events| - 1], events[|events| - 1];
      assert events == init + [last] && last in events;
      ChargedWithinMaxSum(cfg, init, axis);
      ChargedAppend(init, last, axis);
      OnEveryAxis(last.charged, last.reserved);
      assert EventIds(events) == EventIds(init) + {last.id};
      assert EventIds(events) - {last.id} == EventIds(init);
      MaxSumRemove(cfg, EventIds(events), last.id, axis);
    }
  }

  /** The plan, and hence every prefix of it, fits under the ceilings. */
  ghost predicate Fits(cfg: HostConfig) {
    forall axis: Axis :: MaxSum(cfg, cfg.Table().Keys, axis) <= cfg.ceilings.At(axis)
  }

  lemma RoomForOneMore(cfg: HostConfig, ledger: LedgerState, id: Id, axis: Axis)
    requires cfg.Accepted() && Fits(cfg) && ledger.ceilings == cfg.ceilings
    requires Accounted(ledger) && EventsFromPlan(cfg, ledger.events) && NoOverrun(ledger.events)
    requires ledger.reservations.Keys <= cfg.Table().Keys && id in cfg.Table()
    requires forall r :: r in ledger.reservations ==>
      ledger.reservations[r].reserved == cfg.MaximumsOf(cfg.Table()[r])
    requires id !in ledger.reservations && id !in EventIds(ledger.events)
    requires ledger.reservations.Keys !! EventIds(ledger.events)
    ensures ledger.consumed.At(axis) + ActiveAt(ledger.reservations, axis)
      + cfg.MaximumsOf(cfg.Table()[id]).At(axis) <= cfg.ceilings.At(axis)
  {
    hide HostConfig.Accepted, SlotTable, HostConfig.MaximumsOf, Amounts.At, EventsFromPlan, NoOverrun, EventIds;
    var settled, open := EventIds(ledger.events), ledger.reservations.Keys;
    ChargedWithinMaxSum(cfg, ledger.events, axis);
    ActiveIsMaxSum(cfg, ledger.reservations, axis);
    MaxSumUnion(cfg, settled, open, axis);
    var all := settled + open + {id};
    assert all - {id} == settled + open;
    MaxSumRemove(cfg, all, id, axis);
    MaxSumMonotone(cfg, all, cfg.Table().Keys, axis);
  }

  // No reservation is rejected.

  lemma HolderNotCharged(cfg: HostConfig, env: Id -> Call, s: HostState, t: nat)
    requires Inv(cfg, env, s) && t in s.attempts && s.attempts[t].Claimed?
    ensures s.attempts[t].slot.slotId !in s.shared.ledger.reservations
    ensures s.attempts[t].slot.slotId !in EventIds(s.shared.ledger.events)
  {
    Clauses(cfg, env, s);
    hide LedgerOk, CountersOk, ReceiptsOk, ReportsOk, PhasesOk, SlotTable, HeldBySome, ReportIds, HasEvent;
    var id := s.attempts[t].slot.slotId;
    assert !ReservedBySome(s.attempts, id);
    assert !PendingForSome(s.attempts, id);
  }

  lemma LedgerFromPlan(cfg: HostConfig, env: Id -> Call, s: HostState)
    requires Inv(cfg, env, s)
    ensures Accounted(s.shared.ledger) && s.shared.ledger.ceilings == cfg.ceilings
    ensures EventsFromPlan(cfg, s.shared.ledger.events)
    ensures s.shared.ledger.reservations.Keys <= cfg.Table().Keys
    ensures s.shared.ledger.reservations.Keys !! EventIds(s.shared.ledger.events)
    ensures s.shared.ledger.usedIds == s.shared.ledger.reservations.Keys
      + EventIds(s.shared.ledger.events) + RejectedIds(s.shared.ledger.rejections)
  {
    Clauses(cfg, env, s);
    hide HoldersOk, CountersOk, ReservationsOk, ReceiptsOk, ReportsOk, PhasesOk, SlotTable, ReportIds, HasEvent;
    hide Accounted, BreachExplained, AmountsValid, PendingForSome, HostConfig.MaximumsOf, RejectedIds;
    assert Elements(s.shared.ledger.cancellations) == {};
  }

  lemma ReservedMaximums(cfg: HostConfig, env: Id -> Call, s: HostState, id: Id)
    requires Inv(cfg, env, s) && id in s.shared.ledger.reservations && id in cfg.Table()
    ensures s.shared.ledger.reservations[id].reserved == cfg.MaximumsOf(cfg.Table()[id])
  {
    Clauses(cfg, env, s);
    hide LedgerOk, CountersOk, EventsOk, ReceiptsOk, ReportsOk, PhasesOk, SlotTable, HeldBySome, ReportIds;
    assert ReservedBySome(s.attempts, id);
  }

  lemma NotBreached(cfg: HostConfig, env: Id -> Call, s: HostState)
    requires Inv(cfg, env, s) && NoOverrun(s.shared.ledger.events) && s.shared.ledger.rejections == []
    ensures !s.shared.ledger.breached
  {
    Clauses(cfg, env, s);
    hide HoldersOk, CountersOk, ReservationsOk, EventsOk, ReceiptsOk, ReportsOk, PhasesOk, SlotTable;
    hide IdsPartitioned, Accounted, AmountsValid, Amounts.Leq;
    assert BreachExplained(s.shared.ledger);
  }

  /** With admission and without overruns, the ledger grants whatever a claimed slot asks for. */
  lemma ReservationGrantedToHolder(cfg: HostConfig, env: Id -> Call, s: HostState, t: nat)
    requires cfg.Accepted() && Fits(cfg) && Inv(cfg, env, s)
    requires NoOverrun(s.shared.ledger.events) && s.shared.ledger.rejections == []
    requires t in s.attempts && s.attempts[t].Claimed?
    ensures ReserveAnswer(s.shared.ledger, s.attempts[t].slot.slotId, cfg.MaximumsOf(s.attempts[t].slot))
      .ReservationGranted?
  {
    hide HostConfig.Accepted, Inv, SlotTable, HostConfig.MaximumsOf, Amounts.OneCall, EventsFromPlan, NoOverrun;
    hide Accounted, Fits, EventIds;
    var ledger, slot := s.shared.ledger, s.attempts[t].slot;
    HolderKnown(cfg, env, s, t);
    HolderNotCharged(cfg, env, s, t);
    LedgerFromPlan(cfg, env, s);
    NotBreached(cfg, env, s);
    assert RejectedIds([]) == {};
    forall id | id in ledger.reservations {
      ReservedMaximums(cfg, env, s, id);
    }
    forall axis: Axis {
      RoomForOneMore(cfg, ledger, slot.slotId, axis);
    }
    RequestFits(ledger, cfg.MaximumsOf(slot));
  }

  lemma RequestFits(ledger: LedgerState, maximums: Amounts)
    requires forall axis: Axis ::
      ledger.consumed.At(axis) + ActiveAt(ledger.reservations, axis) + maximums.At(axis)
      <= ledger.ceilings.At(axis)
    ensures OverAxes(ledger.consumed.Plus(Active(ledger.reservations)).Plus(maximums), ledger.ceilings) == []
  {
    hide ActiveAt;
    forall axis: Axis ensures
      ledger.consumed.Plus(Active(ledger.reservations)).Plus(maximums).At(axis) <= ledger.ceilings.At(axis)
    {
      assert Active(ledger.reservations).At(axis) == ActiveAt(ledger.reservations, axis);
    }
    OnEveryAxis(ledger.consumed.Plus(Active(ledger.reservations)).Plus(maximums), ledger.ceilings);
  }

  /** No attempt was refused its reservation, and none is about to be. */
  ghost predicate NeverRefusedBudget(s: HostState) {
    && s.shared.ledger.rejections == []
    && (forall t :: t in s.attempts ==>
          && !s.attempts[t].Releasing?
          && !(s.attempts[t].Finished? && s.attempts[t].result.Refused?
               && s.attempts[t].result.reason.ReservationFailed?))
  }

  lemma EventsGrow(cfg: HostConfig, env: Id -> Call, s: HostState, action: Action)
    ensures s.shared.ledger.events <= Step(cfg, env, s, action).shared.ledger.events
  {
    hide NextPhase, ReserveAnswer, EventFor, FinalCharge;
  }

  lemma StepNeverRefuses(cfg: HostConfig, env: Id -> Call, s: HostState, action: Action)
    requires cfg.Accepted() && Fits(cfg) && Inv(cfg, env, s)
    requires NoOverrun(s.shared.ledger.events) && NeverRefusedBudget(s)
    ensures NeverRefusedBudget(Step(cfg, env, s, action))
  {
    hide HostConfig.Accepted, Inv, Fits, SlotTable, NoOverrun, AfterCall, AfterReceiptClaim, BuildReport;
    if action.Advance? && action.id in s.attempts {
      match s.attempts[action.id] {
        case Claimed(_) =>
          ReservationGrantedToHolder(cfg, env, s, action.id);
          hide ReserveAnswer;
        case Settled(_, _) =>
          PendingIsNotRefused(cfg, env, s, action.id);
        case _ =>
          hide SettleSlot, ReserveAnswer;
      }
    } else {
      hide NextPhase, NextShared;
    }
  }

  lemma PendingIsNotRefused(cfg: HostConfig, env: Id -> Call, s: HostState, t: nat)
    requires cfg.Accepted() && Inv(cfg, env, s) && t in s.attempts && s.attempts[t].Settled?
    ensures !s.attempts[t].pending.Refused?
  {
    hide Inv;
    PendingHasReport(cfg, env, s, t);
  }

  /** Admission soundness. If the worst case of the components fits the ceilings and the plan covers
      the exact call matrix, then in every interleaving whose charges stay within their own
      reservations no reservation is rejected and the ledger never breaches. */
  lemma {:induction false} AdmissionSound(
    cfg: HostConfig, components: seq<Component>, env: Id -> Call, actions: seq<Action>)
    requires cfg.Accepted() && BuiltFrom(cfg, components)
    requires Admitted(components, cfg.ceilings)
    requires NoOverrun(Run(cfg, env, actions).shared.ledger.events)
    ensures NeverRefusedBudget(Run(cfg, env, actions))
    ensures !Run(cfg, env, actions).shared.ledger.breached
  {
    hide HostConfig.Accepted, Inv, Step, BuiltFrom, SlotTable, Fits;
    EveryInterleavingKeepsInv(cfg, env, actions);
    if actions != [] {
      var init := actions[..|actions| - 1];
      var before := Run(cfg, env, init);
      EventsGrow(cfg, env, before, actions[|actions| - 1]);
      EventsSubset(before.shared.ledger.events, Run(cfg, env, actions).shared.ledger.events);
      AdmissionSound(cfg, components, env, init);
      EveryInterleavingKeepsInv(cfg, env, init);
      AdmittedFits(cfg, components);
      StepNeverRefuses(cfg, env, before, actions[|actions| - 1]);
    }
    hide NoOverrun;
    NotBreached(cfg, env, Run(cfg, env, actions));
  }

  lemma AdmittedFits(cfg: HostConfig, components: seq<Component>)
    requires cfg.Accepted() && BuiltFrom(cfg, components) && Admitted(components, cfg.ceilings)
    ensures Fits(cfg)
  {
    hide HostConfig.Accepted, BuiltFrom, SlotTable, WorstCases;
    forall axis: Axis {
      PlanCostIsWorstCase(cfg, components, axis);
    }
  }

  lemma EventsSubset(some: seq<Event>, all: seq<Event>)
    requires some <= all && NoOverrun(all)
    ensures NoOverrun(some)
  {
    forall event | event in some ensures event in all {
      var i :| 0 <= i < |some| && some[i] == event;
      assert all[i] == event;
    }
    hide Amounts.Leq;
  }
}
