/** What every interleaving keeps about receipts: each one on record or claimed by an attempt in flight is
    known to the host and has one owner. And what a call can lead to, whatever happens around it. */
module HostReceipts {
  import opened Budget
  import opened Options
  import opened ExecutionPlan
  import opened Ledger
  import opened Host
  import opened Texts

  function ReportReceipts(reports: seq<Report>): set<Digest> {
    set report | report in reports && report.body.receipt.Some? :: report.body.receipt.value
  }

  /** The receipt an attempt has claimed but not yet put on record. */
  function ClaimedReceipt(phase: Phase): Option<Digest> {
    if phase.ReceiptClaimed? then phase.draft.receipt
    else if phase.HasReport() then phase.PendingReport().body.receipt
    else None
  }

  ghost predicate ClaimedBySome(attempts: map<nat, Phase>, digest: Digest) {
    exists t :: t in attempts && ClaimedReceipt(attempts[t]) == Some(digest)
  }

  predicate SameReceipt(a: Phase, b: Phase) {
    ClaimedReceipt(a).Some? && ClaimedReceipt(a) == ClaimedReceipt(b)
  }

  ghost predicate RecordedOnce(reports: seq<Report>) {
    forall i, j :: 0 <= i < j < |reports| && reports[i].body.receipt.Some? ==>
      reports[i].body.receipt != reports[j].body.receipt
  }

  /** A digest the host knows is on record or claimed by an attempt in flight. */
  ghost predicate Owned(s: HostState, digest: Digest) {
    digest in ReportReceipts(s.shared.reports) || ClaimedBySome(s.attempts, digest)
  }

  /** Each receipt on record or claimed is known, and has one owner. */
  ghost predicate ReceiptsOk(receipts: set<Digest>, recorded: set<Digest>, attempts: map<nat, Phase>) {
    && recorded <= receipts
    && (forall t :: t in attempts && ClaimedReceipt(attempts[t]).Some? ==>
          && ClaimedReceipt(attempts[t]).value in receipts
          && ClaimedReceipt(attempts[t]).value !in recorded)
    && (forall t, u :: t in attempts && u in attempts && SameReceipt(attempts[t], attempts[u]) ==> t == u)
  }

  /** Knowing more digests takes nothing away from an attempt that goes on with the receipt it had. */
  lemma MoveKeepsReceipts(
    receipts: set<Digest>, more: set<Digest>, recorded: set<Digest>, attempts: map<nat, Phase>, t: nat, phase: Phase)
    requires ReceiptsOk(receipts, recorded, attempts) && receipts <= more
    requires ClaimedReceipt(phase) == if t in attempts then ClaimedReceipt(attempts[t]) else None
    ensures ReceiptsOk(more, recorded, attempts[t := phase])
  {
    hide ClaimedReceipt;
  }

  lemma ClaimKeepsReceipts(
    receipts: set<Digest>, recorded: set<Digest>, attempts: map<nat, Phase>, t: nat, phase: Phase, digest: Digest)
    requires ReceiptsOk(receipts, recorded, attempts)
    requires t in attempts && ClaimedReceipt(attempts[t]).None?
    requires digest !in receipts && ClaimedReceipt(phase) == Some(digest)
    ensures ReceiptsOk(receipts + {digest}, recorded, attempts[t := phase])
  {
    hide ClaimedReceipt;
  }

  lemma RecordKeepsReceipts(
    receipts: set<Digest>, reports: seq<Report>, attempts: map<nat, Phase>, t: nat, result: AttemptResult)
    requires ReceiptsOk(receipts, ReportReceipts(reports), attempts) && RecordedOnce(reports)
    requires t in attempts && attempts[t].HasReport()
    ensures ReceiptsOk(
      receipts, ReportReceipts(reports + [attempts[t].PendingReport()]), attempts[t := Finished(result)])
    ensures RecordedOnce(reports + [attempts[t].PendingReport()])
  {
    var report := attempts[t].PendingReport();
    assert ClaimedReceipt(attempts[t]) == report.body.receipt;
    ReportReceiptsAppend(reports, report);
    forall i | 0 <= i < |reports| && reports[i].body.receipt.Some?
      ensures reports[i].body.receipt != report.body.receipt
    {
      assert reports[i] in reports && reports[i].body.receipt.value in ReportReceipts(reports);
    }
    assert ClaimedReceipt(Finished(result)).None?;
    hide ClaimedReceipt, ReportReceipts;
  }

  lemma ReportReceiptsAppend(reports: seq<Report>, report: Report)
    ensures ReportReceipts(reports + [report])
      == ReportReceipts(reports) + if report.body.receipt.Some? then {report.body.receipt.value} else {}
  {
    assert (reports + [report])[|reports|] == report;
    forall d | d in ReportReceipts(reports) ensures d in ReportReceipts(reports + [report]) {
      var r :| r in reports && r.body.receipt == Some(d);
      assert r in reports + [report];
    }
  }

  // What a call can lead to, whatever else happens around it.

  /** The digest the verifier returned for a slot's call, if the call got that far. */
  function VerifiedDigest(cfg: HostConfig, env: Id -> Call, slot: Slot): Option<Digest> {
    AfterCall(cfg, slot, env(slot.slotId)).verified
  }

  function DraftOf(cfg: HostConfig, env: Id -> Call, slot: Slot, reused: bool): Draft {
    AfterReceiptClaim(AfterCall(cfg, slot, env(slot.slotId)), reused, env(slot.slotId).interrupt)
  }

  function ReportOf(cfg: HostConfig, env: Id -> Call, slot: Slot, reused: bool, breach: bool): Report {
    BuildReport(cfg, slot, DraftOf(cfg, env, slot, reused), breach)
  }

  function OutcomeOf(cfg: HostConfig, env: Id -> Call, slot: Slot, reused: bool, breach: bool): AttemptResult {
    ResultOf(ReportOf(cfg, env, slot, reused, breach), DraftOf(cfg, env, slot, reused))
  }

  ghost predicate PhaseExplained(cfg: HostConfig, env: Id -> Call, phase: Phase) {
    match phase
    case Called(slot, _, draft) => draft == AfterCall(cfg, slot, env(slot.slotId))
    case ReceiptClaimed(slot, _, draft) =>
      draft == DraftOf(cfg, env, slot, false) || draft == DraftOf(cfg, env, slot, true)
    case Settled(slot, pending) =>
      exists reused, breach :: pending == OutcomeOf(cfg, env, slot, reused, breach)
    case _ => true
  }

  ghost predicate ReportExplained(cfg: HostConfig, env: Id -> Call, report: Report) {
    && report.body.attemptId in cfg.Table()
    && exists reused, breach :: report == ReportOf(cfg, env, cfg.Table()[report.body.attemptId], reused, breach)
  }

  /** The charge of any attempt is a valid one-call vector, so settling never rejects it, and
      without a receipt it covers the whole reservation. */
  lemma ChargeValid(cfg: HostConfig, env: Id -> Call, slot: Slot, reused: bool)
    requires cfg.MaximumsOf(slot).OneCall()
    ensures FinalCharge(DraftOf(cfg, env, slot, reused), cfg.MaximumsOf(slot)).OneCall()
    ensures DraftOf(cfg, env, slot, reused).receipt.None? ==>
      cfg.MaximumsOf(slot).Leq(FinalCharge(DraftOf(cfg, env, slot, reused), cfg.MaximumsOf(slot)))
  {
    hide Blank;
    hide *;
    DraftRange(cfg, env, slot, reused);
    ChargeInRange(DraftOf(cfg, env, slot, reused), cfg.MaximumsOf(slot));
  }

  lemma DraftRange(cfg: HostConfig, env: Id -> Call, slot: Slot, reused: bool)
    requires cfg.MaximumsOf(slot).OneCall()
    ensures var draft := DraftOf(cfg, env, slot, reused);
      && draft.reported.OneCall() && 0 <= draft.observed <= MAX_BUDGET_VALUE
      && (draft.authoritative ==> draft.receipt.Some?)
  {
    hide Blank, BuildReport;
  }

  lemma ChargeInRange(draft: Draft, maximums: Amounts)
    requires maximums.OneCall() && draft.reported.OneCall() && 0 <= draft.observed <= MAX_BUDGET_VALUE
    ensures FinalCharge(draft, maximums).OneCall()
    ensures !draft.authoritative ==> maximums.Leq(FinalCharge(draft, maximums))
  {
  }

  /** A call keeps its receipt unless another had it first or an interrupt came before it was taken,
      and it is charged its own figures unless an interrupt came before they were authoritative. */
  lemma ChargeByAuthority(cfg: HostConfig, env: Id -> Call, slot: Slot, reused: bool)
    ensures var call, interrupt := AfterCall(cfg, slot, env(slot.slotId)), env(slot.slotId).interrupt;
      var draft, maximums := DraftOf(cfg, env, slot, reused), cfg.MaximumsOf(slot);
      && (draft.receipt.Some? <==> call.verified.Some? && !reused && !interrupt.DigestAdded?)
      && (draft.receipt.Some? ==> draft.receipt == call.verified)
      && FinalCharge(draft, maximums)
         == (if draft.receipt.Some? && !interrupt.ReceiptTaken?
             then call.reported.(wallClockMs := call.observed)
             else maximums.(wallClockMs := Max(maximums.wallClockMs, call.observed)))
  {
    NothingBeforeClaim(cfg, slot, env(slot.slotId));
    hide AfterCall;
  }

  lemma NothingBeforeClaim(cfg: HostConfig, slot: Slot, call: Call)
    ensures AfterCall(cfg, slot, call).receipt.None? && !AfterCall(cfg, slot, call).authoritative
  {
    hide Blank;
  }

  /** A usable attempt is a receipted success with a response; any other carries a failure code. */
  lemma DraftSound(cfg: HostConfig, env: Id -> Call, slot: Slot, reused: bool)
    ensures var draft := DraftOf(cfg, env, slot, reused);
      && (draft.usable ==>
            && draft.status == Success && draft.failure.None? && draft.receipt.Some?
            && draft.response.Some? && draft.text.Some? && !draft.interrupted)
      && (!draft.usable ==> draft.failure.Some?)
      && draft.failure != Some(BudgetBreach)
      && (draft.receipt.Some? ==> draft.receipt == AfterCall(cfg, slot, env(slot.slotId)).verified)
  {
    hide Blank, BuildReport;
  }
}
