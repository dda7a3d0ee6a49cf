/** The host's invariant is kept by all steps, and by all their interleavings. */
module HostRuns {
  import opened Budget
  import opened ExecutionPlan
  import opened Ledger
  import opened Host
  import opened Campaign
  import opened HostInvariant
  import opened HostSteps

  lemma InitialLedger(cfg: HostConfig)
    requires ValidCeilings(cfg.ceilings)
    ensures LedgerOk(cfg, Opened(cfg.ceilings))
  {
    EveryRunKeepsInvariant(cfg.ceilings, []);
    hide Ledger.Invariant;
  }

  lemma InitialInv(cfg: HostConfig, env: Id -> Call)
    requires cfg.Accepted()
    ensures Inv(cfg, env, Initial(cfg))
  {
    hide AuthorityValid, PlanValid, ExactCallMatrix, LedgerOk;
    InitialLedger(cfg);
    forall c | c in cfg.authority.components ensures SlotsOfComponent(cfg.Table(), {}, c) == {} {
    }
  }

  lemma AdvanceKeepsInv(cfg: HostConfig, env: Id -> Call, s: HostState, t: nat, token: nat)
    requires cfg.Accepted() && Inv(cfg, env, s) && t in s.attempts
    ensures Inv(cfg, env, Step(cfg, env, s, Advance(t, token)))
  {
    hide HostConfig.Accepted, Inv, SlotTable;
    match s.attempts[t] {
      case Claimed(_) => ReservationTried(cfg, env, s, t, token);
      case Releasing(_, why) => Released(cfg, env, s, t, Refused(ReservationFailed(why)));
      case Reserved(_, _) => ProviderCalled(cfg, env, s, t);
      case Called(_, _, _) => ReceiptRegion(cfg, env, s, t);
      case ReceiptClaimed(_, _, _) => Settling(cfg, env, s, t);
      case Settled(_, _) => Recording(cfg, env, s, t);
      case Finished(_) => assert s.attempts[t := s.attempts[t]] == s.attempts;
    }
  }

  lemma StartKeepsInv(cfg: HostConfig, env: Id -> Call, s: HostState, t: nat, slotId: Id)
    requires cfg.Accepted() && Inv(cfg, env, s) && t !in s.attempts
    ensures Inv(cfg, env, Step(cfg, env, s, Start(t, slotId)))
  {
    hide HostConfig.Accepted, Inv, SlotTable, SlotAuthorized;
    match ClaimAnswer(cfg, s.shared, slotId) {
      case Denied(reason) => RefusedStart(cfg, env, s, t, reason);
      case Granted(slot) =>
        SlotKnown(cfg, slotId);
        GrantedStart(cfg, env, s, t, slot);
    }
  }

  lemma StepKeepsInv(cfg: HostConfig, env: Id -> Call, s: HostState, action: Action)
    requires cfg.Accepted() && Inv(cfg, env, s)
    ensures Inv(cfg, env, Step(cfg, env, s, action))
  {
    hide HostConfig.Accepted, Inv;
    if action.id in s.attempts {
      match action {
        case Start(_, _) =>
        case Advance(t, token) => AdvanceKeepsInv(cfg, env, s, t, token);
      }
    } else {
      match action {
        case Start(t, slotId) => StartKeepsInv(cfg, env, s, t, slotId);
        case Advance(_, _) =>
      }
    }
  }

  /** Every interleaving of any number of attempts keeps the host's invariant. */
  lemma {:induction false} EveryInterleavingKeepsInv(cfg: HostConfig, env: Id -> Call, actions: seq<Action>)
    requires cfg.Accepted()
    ensures Inv(cfg, env, Run(cfg, env, actions))
  {
    hide HostConfig.Accepted, Inv, Step;
    if actions == [] {
      InitialInv(cfg, env);
    } else {
      EveryInterleavingKeepsInv(cfg, env, actions[..|actions| - 1]);
      StepKeepsInv(cfg, env, Run(cfg, env, actions[..|actions| - 1]), actions[|actions| - 1]);
    }
  }

  /** The capacity check of an accepted host never fires: a free slot leaves room for itself. */
  lemma CapacityNeverExhausted(cfg: HostConfig, env: Id -> Call, s: HostState, slotId: Id)
    requires cfg.Accepted() && Inv(cfg, env, s)
    ensures ClaimAnswer(cfg, s.shared, slotId) != Denied(CapacityExhausted)
  {
    hide SlotTable, SlotsOfComponent, SlotAuthorized, HostConfig.Accepted, Inv, Component.Capacity;
    if slotId in cfg.Table() && slotId !in s.shared.usedSlots {
      SlotKnown(cfg, slotId);
      var slot := cfg.Table()[slotId];
      CapacityCount(cfg, slot.componentId);
      UsedCounted(cfg, env, s, slot.componentId);
      FreeSlotLeavesRoom(cfg.Table(), s.shared.usedSlots, slot);
    }
  }

  lemma FreeSlotLeavesRoom(table: map<Id, Slot>, used: set<Id>, slot: Slot)
    requires Knows(table, slot) && slot.slotId !in used && used <= table.Keys
    ensures |SlotsOfComponent(table, used, slot.componentId)|
      < |SlotsOfComponent(table, table.Keys, slot.componentId)|
  {
    var some := SlotsOfComponent(table, used, slot.componentId);
    var all := SlotsOfComponent(table, table.Keys, slot.componentId);
    assert some < all by { assert slot.slotId in all && slot.slotId !in some; }
    SubsetSmaller(some, all);
  }

  lemma SubsetSmaller<T>(some: set<T>, all: set<T>)
    requires some < all
    ensures |some| < |all|
  {
    assert |all| == |some| + |all - some|;
  }
}
