/** Which receipts the host knows have an owner. A digest is known before the attempt that presents it
    takes it, and an interrupt between the two leaves it known for good and owned by nobody. */
module HostOwnership {
  import opened Budget
  import opened Options
  import opened ExecutionPlan
  import opened Ledger
  import opened Host
  import opened HostInvariant
  import opened HostReceipts
  import opened HostRuns
  import opened HostSteps

  /** The step makes the digest known, and is interrupted before the attempt takes it as its receipt. */
  ghost predicate Loses(cfg: HostConfig, env: Id -> Call, s: HostState, action: Action, digest: Digest) {
    && action.Advance? && action.id in s.attempts
    && s.attempts[action.id].Called?
    && s.attempts[action.id].draft.verified == Some(digest)
    && digest !in s.shared.receipts
    && env(s.attempts[action.id].slot.slotId).interrupt.DigestAdded?
  }

  ghost predicate ClaimedByOther(attempts: map<nat, Phase>, t: nat, digest: Digest) {
    exists u :: u in attempts && u != t && ClaimedReceipt(attempts[u]) == Some(digest)
  }

  lemma ClaimsAfterUpdate(attempts: map<nat, Phase>, t: nat, phase: Phase, digest: Digest)
    ensures ClaimedBySome(attempts[t := phase], digest)
      <==> ClaimedReceipt(phase) == Some(digest) || ClaimedByOther(attempts, t, digest)
    ensures ClaimedBySome(attempts, digest)
      <==> (t in attempts && ClaimedReceipt(attempts[t]) == Some(digest)) || ClaimedByOther(attempts, t, digest)
  {
    hide ClaimedReceipt;
    var after := attempts[t := phase];
    if ClaimedReceipt(phase) == Some(digest) {
      assert after[t] == phase;
    }
    if ClaimedByOther(attempts, t, digest) {
      var u :| u in attempts && u != t && ClaimedReceipt(attempts[u]) == Some(digest);
      assert after[u] == attempts[u];
    }
    if ClaimedBySome(after, digest) {
      var u :| u in after && ClaimedReceipt(after[u]) == Some(digest);
      assert u == t || u in attempts;
    }
  }

  /** What the step of an attempt does to its own claim. */
  lemma OwnClaim(cfg: HostConfig, env: Id -> Call, s: HostState, t: nat, token: nat, digest: Digest)
    requires cfg.Accepted() && Inv(cfg, env, s) && t in s.attempts && !s.attempts[t].Called?
    ensures var before, after := s.attempts[t], NextPhase(cfg, env, s.shared, s.attempts[t], token);
      var shared := NextShared(cfg, env, s.shared, before, token);
      && shared.receipts == s.shared.receipts
      && (ClaimedReceipt(before) == Some(digest) || digest in ReportReceipts(s.shared.reports)
          <==> ClaimedReceipt(after) == Some(digest) || digest in ReportReceipts(shared.reports))
  {
    hide HostConfig.Accepted, Inv, SlotTable, ReportReceipts;
    match s.attempts[t] {
      case ReceiptClaimed(_, _, _) =>
        SettledPhase(cfg, env, s, t);
        hide NextPhase, ClaimedReceipt, AfterSettle;
      case Settled(_, _) =>
        PendingHasReport(cfg, env, s, t);
        ReportReceiptsAppend(s.shared.reports, s.attempts[t].PendingReport());
      case _ => hide AfterCall, ReserveAnswer, AfterReserve;
    }
  }

  lemma ReceiptsKnown(cfg: HostConfig, env: Id -> Call, s: HostState, digest: Digest)
    requires Inv(cfg, env, s) && Owned(s, digest)
    ensures digest in s.shared.receipts
  {
    Clauses(cfg, env, s);
    hide LedgerOk, HoldersOk, CountersOk, ReservationsOk, EventsOk, ReportsOk, PhasesOk, SlotTable, ReportReceipts;
    hide ClaimedReceipt;
  }

  /** A known digest never gains or loses its owner; a new one has its owner from the start unless the
      step was interrupted between adding and taking it. */
  lemma StepOwnership(cfg: HostConfig, env: Id -> Call, s: HostState, action: Action, digest: Digest)
    requires cfg.Accepted() && Inv(cfg, env, s)
    requires digest in Step(cfg, env, s, action).shared.receipts
    ensures Owned(Step(cfg, env, s, action), digest)
      <==> if digest in s.shared.receipts then Owned(s, digest) else !Loses(cfg, env, s, action, digest)
  {
    hide HostConfig.Accepted, Inv, SlotTable, ReportReceipts;
    if Owned(s, digest) {
      ReceiptsKnown(cfg, env, s, digest);
    }
    match action {
      case Start(t, slotId) =>
        if t !in s.attempts {
          StartOwnership(cfg, env, s, t, slotId, digest);
        }
      case Advance(t, token) =>
        if t in s.attempts {
          ClaimsAfterUpdate(s.attempts, t, NextPhase(cfg, env, s.shared, s.attempts[t], token), digest);
          if s.attempts[t].Called? {
            RegionOwnership(cfg, env, s, t, token, digest);
          } else {
            OwnClaim(cfg, env, s, t, token, digest);
          }
        }
    }
    hide NextPhase, NextShared, ClaimedReceipt, ClaimedByOther, ClaimedBySome;
  }

  lemma StartOwnership(cfg: HostConfig, env: Id -> Call, s: HostState, t: nat, slotId: Id, digest: Digest)
    requires t !in s.attempts
    ensures var after := Step(cfg, env, s, Start(t, slotId));
      after.shared.receipts == s.shared.receipts && (Owned(after, digest) <==> Owned(s, digest))
  {
    var phase := Step(cfg, env, s, Start(t, slotId)).attempts[t];
    ClaimsAfterUpdate(s.attempts, t, phase, digest);
    assert ClaimedReceipt(phase).None?;
    hide ClaimAnswer, ClaimedReceipt, ClaimedByOther, ClaimedBySome, ReportReceipts;
  }

  lemma RegionOwnership(cfg: HostConfig, env: Id -> Call, s: HostState, t: nat, token: nat, digest: Digest)
    requires cfg.Accepted() && Inv(cfg, env, s) && t in s.attempts && s.attempts[t].Called?
    requires digest in NextShared(cfg, env, s.shared, s.attempts[t], token).receipts
    ensures ClaimedReceipt(s.attempts[t]).None?
    ensures NextShared(cfg, env, s.shared, s.attempts[t], token).reports == s.shared.reports
    ensures var claimed := ClaimedReceipt(NextPhase(cfg, env, s.shared, s.attempts[t], token));
      if digest in s.shared.receipts then claimed != Some(digest)
      else claimed == Some(digest) <==> !Loses(cfg, env, s, Advance(t, token), digest)
  {
    hide HostConfig.Accepted, Inv, SlotTable;
    ReceiptRegionExplained(cfg, env, s, t);
    TakenUnlessInterrupted(cfg, env, s, t);
    hide AfterReceiptClaim, AfterCall;
  }

  lemma TakenUnlessInterrupted(cfg: HostConfig, env: Id -> Call, s: HostState, t: nat)
    requires Inv(cfg, env, s) && t in s.attempts && s.attempts[t].Called?
    ensures env(s.attempts[t].slot.slotId).interrupt.DigestAdded? ==>
      ClaimedReceipt(NextPhase(cfg, env, s.shared, s.attempts[t], 0)).None?
  {
    PhaseIsExplained(cfg, env, s, t);
    hide Inv;
    NothingBeforeClaim(cfg, s.attempts[t].slot, env(s.attempts[t].slot.slotId));
    hide AfterCall;
  }

  ghost predicate LosesAt(cfg: HostConfig, env: Id -> Call, actions: seq<Action>, digest: Digest, k: int) {
    0 <= k < |actions| && Loses(cfg, env, Run(cfg, env, actions[..k]), actions[k], digest)
  }

  lemma LosesAtPrefix(cfg: HostConfig, env: Id -> Call, actions: seq<Action>, digest: Digest, k: int)
    requires 0 <= k < |actions|
    ensures LosesAt(cfg, env, actions, digest, k) <==>
      if k == |actions| - 1 then Loses(cfg, env, Run(cfg, env, actions[..|actions| - 1]), actions[k], digest)
      else LosesAt(cfg, env, actions[..|actions| - 1], digest, k)
  {
    hide Run, Loses;
    assert k < |actions| - 1 ==> actions[..|actions| - 1][..k] == actions[..k];
  }

  lemma {:induction false} LostIsKnownLater(
    cfg: HostConfig, env: Id -> Call, actions: seq<Action>, digest: Digest, k: int)
    requires LosesAt(cfg, env, actions, digest, k)
    ensures digest in Run(cfg, env, actions).shared.receipts
    decreases |actions|
  {
    var init := actions[..|actions| - 1];
    LosesAtPrefix(cfg, env, actions, digest, k);
    if k < |init| {
      LostIsKnownLater(cfg, env, init, digest, k);
    }
    ReceiptsStay(cfg, env, Run(cfg, env, init), actions[|actions| - 1]);
    hide Run;
    if k == |init| {
      LostIsKnown(cfg, env, Run(cfg, env, init), actions[k], digest);
    }
    hide Step, Loses;
    RunStep(cfg, env, actions);
  }

  lemma RunStep(cfg: HostConfig, env: Id -> Call, actions: seq<Action>)
    requires actions != []
    ensures Run(cfg, env, actions) == Step(cfg, env, Run(cfg, env, actions[..|actions| - 1]), actions[|actions| - 1])
  {
    hide Step;
  }

  lemma ReceiptsStay(cfg: HostConfig, env: Id -> Call, s: HostState, action: Action)
    ensures s.shared.receipts <= Step(cfg, env, s, action).shared.receipts
  {
    hide NextPhase, AfterReserve, AfterSettle;
  }

  lemma LostIsKnown(cfg: HostConfig, env: Id -> Call, s: HostState, action: Action, digest: Digest)
    requires Loses(cfg, env, s, action, digest)
    ensures digest in Step(cfg, env, s, action).shared.receipts
  {
    hide NextPhase;
  }

  ghost predicate Lost(cfg: HostConfig, env: Id -> Call, actions: seq<Action>, digest: Digest) {
    exists k :: LosesAt(cfg, env, actions, digest, k)
  }

  lemma LostAfter(cfg: HostConfig, env: Id -> Call, actions: seq<Action>, digest: Digest)
    requires actions != []
    ensures var init, last := actions[..|actions| - 1], actions[|actions| - 1];
      var before := Run(cfg, env, init);
      Lost(cfg, env, actions, digest) <==>
        if digest in before.shared.receipts then Lost(cfg, env, init, digest) else Loses(cfg, env, before, last, digest)
  {
    var init := actions[..|actions| - 1];
    LosesOnlyUnknown(cfg, env, Run(cfg, env, init), actions[|init|], digest);
    LosesAtPrefix(cfg, env, actions, digest, |init|);
    hide Run, Loses, LosesAt;
    if k :| LosesAt(cfg, env, init, digest, k) {
      InRange(cfg, env, init, digest, k);
      LostIsKnownLater(cfg, env, init, digest, k);
      LosesAtPrefix(cfg, env, actions, digest, k);
    }
    if k :| LosesAt(cfg, env, actions, digest, k) {
      InRange(cfg, env, actions, digest, k);
      LosesAtPrefix(cfg, env, actions, digest, k);
    }
  }

  lemma InRange(cfg: HostConfig, env: Id -> Call, actions: seq<Action>, digest: Digest, k: int)
    ensures LosesAt(cfg, env, actions, digest, k) ==> 0 <= k < |actions|
  {
    hide Loses, Run;
  }

  lemma LosesOnlyUnknown(cfg: HostConfig, env: Id -> Call, s: HostState, action: Action, digest: Digest)
    ensures Loses(cfg, env, s, action, digest) ==> digest !in s.shared.receipts
  {
  }

  /** In every run, a digest the host knows has no owner exactly when one of the steps lost it. */
  lemma {:induction false} UnownedExactlyWhenLost(
    cfg: HostConfig, env: Id -> Call, actions: seq<Action>, digest: Digest)
    requires cfg.Accepted() && digest in Run(cfg, env, actions).shared.receipts
    ensures !Owned(Run(cfg, env, actions), digest) <==> Lost(cfg, env, actions, digest)
  {
    assert actions != [];
    var init := actions[..|actions| - 1];
    RunStep(cfg, env, actions);
    EveryInterleavingKeepsInv(cfg, env, init);
    hide HostConfig.Accepted, Inv, Step, Run, Owned, Loses, Lost;
    StepOwnership(cfg, env, Run(cfg, env, init), actions[|init|], digest);
    LostAfter(cfg, env, actions, digest);
    if digest in Run(cfg, env, init).shared.receipts {
      UnownedExactlyWhenLost(cfg, env, init, digest);
    }
  }

  /** Where no call is interrupted between adding and taking, every known digest has its owner. */
  lemma AlwaysOwned(cfg: HostConfig, env: Id -> Call, actions: seq<Action>, digest: Digest)
    requires cfg.Accepted() && digest in Run(cfg, env, actions).shared.receipts
    requires forall slot :: slot in cfg.slots ==> !env(slot.slotId).interrupt.DigestAdded?
    ensures Owned(Run(cfg, env, actions), digest)
  {
    UnownedExactlyWhenLost(cfg, env, actions, digest);
    if k :| LosesAt(cfg, env, actions, digest, k) {
      EveryInterleavingKeepsInv(cfg, env, actions[..k]);
      LostByPlan(cfg, env, Run(cfg, env, actions[..k]), actions[k], digest);
    }
  }

  /** Only a call of the plan loses a digest, and it is the one its own verifier returned. */
  lemma LostByPlan(cfg: HostConfig, env: Id -> Call, s: HostState, action: Action, digest: Digest)
    requires cfg.Accepted() && Inv(cfg, env, s) && Loses(cfg, env, s, action, digest)
    ensures var slot := s.attempts[action.id].slot;
      && slot in cfg.slots && VerifiedDigest(cfg, env, slot) == Some(digest)
      && env(slot.slotId).interrupt.DigestAdded?
  {
    hide HostConfig.Accepted, Inv, SlotTable, SlotAuthorized, AfterCall;
    HolderKnown(cfg, env, s, action.id);
    SlotKnown(cfg, s.attempts[action.id].slot.slotId);
    PhaseIsExplained(cfg, env, s, action.id);
  }
}
