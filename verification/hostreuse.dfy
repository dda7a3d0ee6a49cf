/** A receipt counts as reused only when the host knew it before, so whoever is refused one can name the call
    that made it known. The host knows the digest of every call past its receipt region, and each digest it
    knows has an owner or was lost by an interrupted call. What each step does to this, and why every run keeps it. */
module HostReuse {
  import opened Budget
  import opened Options
  import opened ExecutionPlan
  import opened Ledger
  import opened Host
  import opened HostReceipts
  import opened HostOwnership
  import opened HostRuns
  import opened HostSteps

  /** No two calls of the plan come back with the same verified receipt. */
  ghost predicate DistinctReceipts(cfg: HostConfig, env: Id -> Call) {
    forall a, b ::
      a in cfg.slots && b in cfg.slots && VerifiedDigest(cfg, env, a).Some?
      && VerifiedDigest(cfg, env, a) == VerifiedDigest(cfg, env, b)
      ==> a.slotId == b.slotId
  }

  // A receipt counts as reused only if the host already knew it.

  ghost predicate Justified(cfg: HostConfig, env: Id -> Call, receipts: set<Digest>, slot: Slot, reused: bool) {
    reused ==> VerifiedDigest(cfg, env, slot).Some? && VerifiedDigest(cfg, env, slot).value in receipts
  }

  ghost predicate DraftJustified(
    cfg: HostConfig, env: Id -> Call, receipts: set<Digest>, slot: Slot, draft: Draft)
  {
    exists reused ::
      draft == DraftOf(cfg, env, slot, reused) && Justified(cfg, env, receipts, slot, reused)
  }

  ghost predicate ReportJustified(
    cfg: HostConfig, env: Id -> Call, receipts: set<Digest>, slot: Slot, report: Report)
  {
    exists reused, breach ::
      report == ReportOf(cfg, env, slot, reused, breach) && Justified(cfg, env, receipts, slot, reused)
  }

  /** What a call's verifier returned, the host knows. */
  ghost predicate Known(cfg: HostConfig, env: Id -> Call, receipts: set<Digest>, slot: Slot) {
    VerifiedDigest(cfg, env, slot).Some? ==> VerifiedDigest(cfg, env, slot).value in receipts
  }

  /** Some call of the plan is interrupted between adding this digest and taking it. */
  ghost predicate LostBy(cfg: HostConfig, env: Id -> Call, digest: Digest) {
    exists slot ::
      slot in cfg.slots && VerifiedDigest(cfg, env, slot) == Some(digest) && env(slot.slotId).interrupt.DigestAdded?
  }

  ghost predicate PhaseJustified(cfg: HostConfig, env: Id -> Call, receipts: set<Digest>, phase: Phase) {
    && (phase.ReceiptClaimed? ==>
          DraftJustified(cfg, env, receipts, phase.slot, phase.draft) && Known(cfg, env, receipts, phase.slot))
    && (phase.HasReport() ==>
          && ReportJustified(cfg, env, receipts, phase.slot, phase.PendingReport())
          && Known(cfg, env, receipts, phase.slot))
  }

  ghost predicate ReuseOk(cfg: HostConfig, env: Id -> Call, s: HostState) {
    && (forall t :: t in s.attempts ==> PhaseJustified(cfg, env, s.shared.receipts, s.attempts[t]))
    && (forall report :: report in s.shared.reports ==>
          && report.body.attemptId in cfg.Table()
          && ReportJustified(cfg, env, s.shared.receipts, cfg.Table()[report.body.attemptId], report)
          && Known(cfg, env, s.shared.receipts, cfg.Table()[report.body.attemptId]))
    && (forall digest :: digest in s.shared.receipts ==> Owned(s, digest) || LostBy(cfg, env, digest))
  }

  lemma JustifiedGrows(cfg: HostConfig, env: Id -> Call, some: set<Digest>, all: set<Digest>)
    requires some <= all
    ensures forall slot, draft ::
      DraftJustified(cfg, env, some, slot, draft) ==> DraftJustified(cfg, env, all, slot, draft)
    ensures forall slot, report ::
      ReportJustified(cfg, env, some, slot, report) ==> ReportJustified(cfg, env, all, slot, report)
    ensures forall slot :: Known(cfg, env, some, slot) ==> Known(cfg, env, all, slot)
  {
    hide DraftOf, ReportOf, VerifiedDigest;
    assert forall slot, reused ::
      Justified(cfg, env, some, slot, reused) ==> Justified(cfg, env, all, slot, reused);
  }

  lemma ClaimJustified(cfg: HostConfig, env: Id -> Call, s: HostState, t: nat)
    requires Inv(cfg, env, s) && t in s.attempts && s.attempts[t].Called?
    ensures var phase := NextPhase(cfg, env, s.shared, s.attempts[t], 0);
      var receipts := WithReceipt(s.shared, s.attempts[t].draft).receipts;
      DraftJustified(cfg, env, receipts, phase.slot, phase.draft) && Known(cfg, env, receipts, phase.slot)
  {
    hide Inv, AfterCall, AfterReceiptClaim;
    PhaseIsExplained(cfg, env, s, t);
    var slot, draft := s.attempts[t].slot, s.attempts[t].draft;
    var reused := ReusedIn(draft, s.shared.receipts);
    var phase := NextPhase(cfg, env, s.shared, s.attempts[t], 0);
    assert phase.draft == DraftOf(cfg, env, slot, reused);
    assert Justified(cfg, env, WithReceipt(s.shared, draft).receipts, slot, reused);
  }

  lemma SettleJustified(cfg: HostConfig, env: Id -> Call, s: HostState, t: nat)
    requires ReuseOk(cfg, env, s) && t in s.attempts && s.attempts[t].ReceiptClaimed?
    ensures var phase := NextPhase(cfg, env, s.shared, s.attempts[t], 0);
      phase.HasReport() ==>
        ReportJustified(cfg, env, s.shared.receipts, phase.slot, phase.PendingReport())
        && Known(cfg, env, s.shared.receipts, phase.slot)
  {
    assert PhaseJustified(cfg, env, s.shared.receipts, s.attempts[t]);
    hide ReuseOk, SettleSlot, Justified, DraftOf, VerifiedDigest;
    var slot, draft := s.attempts[t].slot, s.attempts[t].draft;
    var reused :| draft == DraftOf(cfg, env, slot, reused) && Justified(cfg, env, s.shared.receipts, slot, reused);
    assert forall breach :: BuildReport(cfg, slot, draft, breach) == ReportOf(cfg, env, slot, reused, breach);
    hide BuildReport, ReportOf;
  }

  lemma NewPhaseJustified(cfg: HostConfig, env: Id -> Call, s: HostState, t: nat, token: nat)
    requires Inv(cfg, env, s) && ReuseOk(cfg, env, s) && t in s.attempts
    ensures PhaseJustified(cfg, env, NextShared(cfg, env, s.shared, s.attempts[t], token).receipts,
      NextPhase(cfg, env, s.shared, s.attempts[t], token))
  {
    hide Inv, DraftJustified, ReportJustified, Known, Owned, LostBy;
    match s.attempts[t] {
      case Called(_, _, _) => ClaimJustified(cfg, env, s, t);
      case ReceiptClaimed(_, _, _) =>
        SettleJustified(cfg, env, s, t);
        hide SettleSlot, AfterSettle, ReuseOk;
      case _ => hide ReuseOk, AfterCall, ReserveAnswer, AfterReserve;
    }
  }

  lemma StepKeepsReuse(cfg: HostConfig, env: Id -> Call, s: HostState, action: Action)
    requires cfg.Accepted() && Inv(cfg, env, s) && ReuseOk(cfg, env, s)
    ensures ReuseOk(cfg, env, Step(cfg, env, s, action))
  {
    hide HostConfig.Accepted, Inv, SlotTable, DraftJustified, ReportJustified, Known, Owned, LostBy;
    var after := Step(cfg, env, s, action);
    ReceiptsStay(cfg, env, s, action);
    JustifiedGrows(cfg, env, s.shared.receipts, after.shared.receipts);
    if action.Advance? && action.id in s.attempts {
      NewPhaseJustified(cfg, env, s, action.id, action.token);
      NewReports(cfg, env, s, action.id, action.token);
    }
    forall digest | digest in after.shared.receipts ensures Owned(after, digest) || LostBy(cfg, env, digest) {
      StepOwnership(cfg, env, s, action, digest);
      if Loses(cfg, env, s, action, digest) {
        LostInPlan(cfg, env, s, action, digest);
      }
    }
    hide NextPhase, NextShared, Loses;
  }

  lemma LostInPlan(cfg: HostConfig, env: Id -> Call, s: HostState, action: Action, digest: Digest)
    requires cfg.Accepted() && Inv(cfg, env, s) && Loses(cfg, env, s, action, digest)
    ensures LostBy(cfg, env, digest)
  {
    LostByPlan(cfg, env, s, action, digest);
    hide HostConfig.Accepted, Inv, VerifiedDigest;
  }

  /** Only recording adds a report, and it is the one its attempt was holding. */
  lemma NewReports(cfg: HostConfig, env: Id -> Call, s: HostState, t: nat, token: nat)
    requires cfg.Accepted() && Inv(cfg, env, s) && ReuseOk(cfg, env, s) && t in s.attempts
    ensures var after := NextShared(cfg, env, s.shared, s.attempts[t], token);
      forall report :: report in after.reports && report !in s.shared.reports ==>
        && report.body.attemptId in cfg.Table()
        && ReportJustified(cfg, env, s.shared.receipts, cfg.Table()[report.body.attemptId], report)
        && Known(cfg, env, s.shared.receipts, cfg.Table()[report.body.attemptId])
  {
    hide HostConfig.Accepted, Inv, SlotTable, DraftJustified, ReportJustified, Known, Owned, LostBy;
    if s.attempts[t].Settled? {
      HolderKnown(cfg, env, s, t);
      PendingHasReport(cfg, env, s, t);
    }
    hide AfterReserve, AfterSettle, AfterRelease;
  }

  lemma {:induction false} EveryRunReuseOk(cfg: HostConfig, env: Id -> Call, actions: seq<Action>)
    requires cfg.Accepted()
    ensures ReuseOk(cfg, env, Run(cfg, env, actions))
  {
    hide HostConfig.Accepted, Inv, Step, PhaseJustified, ReportJustified, Known, LostBy;
    if actions != [] {
      var init := actions[..|actions| - 1];
      EveryRunReuseOk(cfg, env, init);
      EveryInterleavingKeepsInv(cfg, env, init);
      StepKeepsReuse(cfg, env, Run(cfg, env, init), actions[|actions| - 1]);
    }
  }
}
