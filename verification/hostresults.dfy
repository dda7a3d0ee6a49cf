/** How attempts end: every result is explained by the attempt's own call, refusals by capacity never occur,
    and no attempt is left with an open reservation. */
module HostResults {
  import opened Budget
  import opened ExecutionPlan
  import opened Ledger
  import opened Host
  import opened HostReceipts
  import opened HostRuns
  import opened HostSteps

  ghost predicate ResultOk(cfg: HostConfig, env: Id -> Call, reports: seq<Report>, result: AttemptResult) {
    match result
    case Refused(reason) => reason != CapacityExhausted
    case Stranded => false
    case Completed(report, _) => report in reports && ResultExplained(cfg, env, report, result)
    case Interrupted(report) => report in reports && ResultExplained(cfg, env, report, result)
  }

  ghost predicate ResultExplained(cfg: HostConfig, env: Id -> Call, report: Report, result: AttemptResult) {
    && report.body.attemptId in cfg.Table()
    && exists reused, breach ::
         result == OutcomeOf(cfg, env, cfg.Table()[report.body.attemptId], reused, breach)
  }

  ghost predicate ResultsOk(cfg: HostConfig, env: Id -> Call, s: HostState) {
    forall t :: t in s.attempts && s.attempts[t].Finished? ==>
      ResultOk(cfg, env, s.shared.reports, s.attempts[t].result)
  }

  /** The only result a step can add is that of its own attempt. */
  lemma NewResultOk(cfg: HostConfig, env: Id -> Call, s: HostState, action: Action)
    requires cfg.Accepted() && Inv(cfg, env, s) && action.id in Step(cfg, env, s, action).attempts
    requires action.id !in s.attempts || !s.attempts[action.id].Finished?
    ensures var after := Step(cfg, env, s, action);
      after.attempts[action.id].Finished? ==>
        ResultOk(cfg, env, after.shared.reports, after.attempts[action.id].result)
  {
    hide HostConfig.Accepted, Inv, SlotTable, ResultExplained;
    if action.Start? {
      CapacityNeverExhausted(cfg, env, s, action.slotId);
      hide NextShared, NextPhase;
    } else if s.attempts[action.id].Settled? {
      RecordedResult(cfg, env, s, action.id);
      hide ResultOk;
    } else {
      hide NextShared, AfterCall, AfterReceiptClaim, BuildReport, SettleSlot, ReserveAnswer;
    }
  }

  lemma OtherAttemptsStay(cfg: HostConfig, env: Id -> Call, s: HostState, action: Action, t: nat)
    requires t in Step(cfg, env, s, action).attempts
    requires t != action.id || (t in s.attempts && s.attempts[t].Finished?)
    ensures t in s.attempts && Step(cfg, env, s, action).attempts[t] == s.attempts[t]
  {
    hide NextShared, ClaimAnswer, AfterClaim;
  }

  lemma StepKeepsResults(cfg: HostConfig, env: Id -> Call, s: HostState, action: Action)
    requires cfg.Accepted() && Inv(cfg, env, s) && ResultsOk(cfg, env, s)
    ensures ResultsOk(cfg, env, Step(cfg, env, s, action))
  {
    hide HostConfig.Accepted, Inv, SlotTable, ResultExplained, Step;
    var after := Step(cfg, env, s, action);
    ReportsGrow(cfg, env, s, action);
    forall t | t in after.attempts && after.attempts[t].Finished?
      ensures ResultOk(cfg, env, after.shared.reports, after.attempts[t].result)
    {
      if t != action.id || (t in s.attempts && s.attempts[t].Finished?) {
        OtherAttemptsStay(cfg, env, s, action, t);
      } else {
        NewResultOk(cfg, env, s, action);
      }
    }
  }

  lemma ReportsGrow(cfg: HostConfig, env: Id -> Call, s: HostState, action: Action)
    ensures forall report :: report in s.shared.reports ==> report in Step(cfg, env, s, action).shared.reports
  {
    hide NextPhase, AfterReserve, AfterSettle;
  }

  lemma RecordedResult(cfg: HostConfig, env: Id -> Call, s: HostState, t: nat)
    requires cfg.Accepted() && Inv(cfg, env, s) && t in s.attempts && s.attempts[t].Settled?
    ensures ResultOk(cfg, env, NextShared(cfg, env, s.shared, s.attempts[t], 0).reports, s.attempts[t].pending)
  {
    Clauses(cfg, env, s);
    hide HostConfig.Accepted, SlotTable;
    HolderKnown(cfg, env, s, t);
    PendingHasReport(cfg, env, s, t);
    PhaseIsExplained(cfg, env, s, t);
    hide Inv, OutcomeOf;
    var report := s.attempts[t].PendingReport();
    assert report in s.shared.reports + [report];
  }

  lemma {:induction false} EveryResultOk(cfg: HostConfig, env: Id -> Call, actions: seq<Action>)
    requires cfg.Accepted()
    ensures ResultsOk(cfg, env, Run(cfg, env, actions))
  {
    hide HostConfig.Accepted, Inv, Step, ResultOk;
    if actions != [] {
      var init := actions[..|actions| - 1];
      EveryResultOk(cfg, env, init);
      EveryInterleavingKeepsInv(cfg, env, init);
      StepKeepsResults(cfg, env, Run(cfg, env, init), actions[|actions| - 1]);
    }
  }
}
