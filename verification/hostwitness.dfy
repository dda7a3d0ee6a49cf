/** The premises of the completion theorem can be met: every admitted campaign has a run and calls that meet
    them, and there is an admitted campaign. */
module HostWitness {
  import opened Budget
  import opened Campaign
  import opened Options
  import opened ExecutionPlan
  import opened Ledger
  import opened Host
  import opened HostReceipts
  import opened HostReuse
  import opened HostAdmission
  import opened HostSnapshot
  import opened HostManifest
  import opened HostCompletion
  import opened HostOutcomes
  import opened Manifest
  import opened Texts

  // One attempt after the other.

  /** At most this many steps are left. */
  function StepsLeft(phase: Phase): nat {
    match phase
    case Claimed(_) => 5
    case Reserved(_, _) => 4
    case Called(_, _, _) => 3
    case ReceiptClaimed(_, _, _) => 2
    case Settled(_, _) => 1
    case Releasing(_, _) => 1
    case Finished(_) => 0
  }

  function Advances(t: nat, n: nat): seq<Action> {
    if n == 0 then [] else Advances(t, n - 1) + [Advance(t, t)]
  }

  function Turn(cfg: HostConfig, t: nat): seq<Action>
    requires t < |cfg.slots|
  {
    [Start(t, cfg.slots[t].slotId)] + Advances(t, 5)
  }

  /** The first `n` slots of the plan, each attempted to its end before the next. */
  function OneByOne(cfg: HostConfig, n: nat): seq<Action>
    requires n <= |cfg.slots|
  {
    if n == 0 then [] else OneByOne(cfg, n - 1) + Turn(cfg, n - 1)
  }

  ghost predicate AllEnded(s: HostState) {
    forall t :: t in s.attempts ==> s.attempts[t].Finished?
  }

  lemma RunOneMore(cfg: HostConfig, env: Id -> Call, actions: seq<Action>, action: Action)
    ensures Run(cfg, env, actions + [action]) == Step(cfg, env, Run(cfg, env, actions), action)
  {
    hide Step;
    assert (actions + [action])[..|actions|] == actions;
  }

  lemma AdvanceNearsEnd(cfg: HostConfig, env: Id -> Call, s: HostState, t: nat, token: nat)
    requires t in s.attempts
    ensures var after := Step(cfg, env, s, Advance(t, token));
      && after.attempts.Keys == s.attempts.Keys
      && (forall u :: u in s.attempts && u != t ==> after.attempts[u] == s.attempts[u])
      && StepsLeft(after.attempts[t]) <= Positive(StepsLeft(s.attempts[t]) - 1)
  {
    hide NextShared, AfterCall, AfterReceiptClaim, SettleSlot, ReserveAnswer, ResultOf, BuildReport;
  }

  lemma {:induction false} AdvancesEnd(cfg: HostConfig, env: Id -> Call, actions: seq<Action>, t: nat, n: nat)
    requires t in Run(cfg, env, actions).attempts
    requires forall u :: u in Run(cfg, env, actions).attempts && u != t ==> Run(cfg, env, actions).attempts[u].Finished?
    ensures var before, after := Run(cfg, env, actions), Run(cfg, env, actions + Advances(t, n));
      && after.attempts.Keys == before.attempts.Keys
      && (forall u :: u in before.attempts && u != t ==> after.attempts[u].Finished?)
      && StepsLeft(after.attempts[t]) <= Positive(StepsLeft(before.attempts[t]) - n)
  {
    hide Run, Step;
    if n == 0 {
      assert actions + Advances(t, 0) == actions;
    } else {
      var earlier := actions + Advances(t, n - 1);
      AdvancesEnd(cfg, env, actions, t, n - 1);
      assert actions + Advances(t, n) == earlier + [Advance(t, t)];
      RunOneMore(cfg, env, earlier, Advance(t, t));
      AdvanceNearsEnd(cfg, env, Run(cfg, env, earlier), t, t);
    }
  }

  lemma StartAdds(cfg: HostConfig, env: Id -> Call, s: HostState, t: nat, slotId: Id)
    requires t !in s.attempts
    ensures var after := Step(cfg, env, s, Start(t, slotId));
      && after.attempts.Keys == s.attempts.Keys + {t}
      && (forall u :: u in s.attempts ==> after.attempts[u] == s.attempts[u])
      && StepsLeft(after.attempts[t]) <= 5
  {
    hide ClaimAnswer, AfterClaim;
  }

  lemma TurnEnds(cfg: HostConfig, env: Id -> Call, actions: seq<Action>, t: nat)
    requires t < |cfg.slots| && AllEnded(Run(cfg, env, actions)) && t !in Run(cfg, env, actions).attempts
    ensures AllEnded(Run(cfg, env, actions + Turn(cfg, t)))
    ensures Run(cfg, env, actions + Turn(cfg, t)).attempts.Keys == Run(cfg, env, actions).attempts.Keys + {t}
    ensures StartsAt(cfg, env, actions + Turn(cfg, t), cfg.slots[t].slotId, |actions|)
  {
    hide Run, Step, Advances;
    var start := Start(t, cfg.slots[t].slotId);
    RunOneMore(cfg, env, actions, start);
    StartAdds(cfg, env, Run(cfg, env, actions), t, start.slotId);
    AdvancesEnd(cfg, env, actions + [start], t, 5);
    assert actions + [start] + Advances(t, 5) == actions + Turn(cfg, t);
    assert (actions + Turn(cfg, t))[..|actions|] == actions;
  }

  lemma StartsAtLonger(cfg: HostConfig, env: Id -> Call, actions: seq<Action>, more: seq<Action>, slotId: Id)
    requires Attempted(cfg, env, actions, slotId)
    ensures Attempted(cfg, env, actions + more, slotId)
  {
    hide Run;
    var k :| StartsAt(cfg, env, actions, slotId, k);
    assert (actions + more)[..k] == actions[..k];
    assert StartsAt(cfg, env, actions + more, slotId, k);
  }

  lemma {:induction false} EveryTurnEnds(cfg: HostConfig, env: Id -> Call, n: nat)
    requires n <= |cfg.slots|
    ensures AllEnded(Run(cfg, env, OneByOne(cfg, n)))
    ensures forall t :: t in Run(cfg, env, OneByOne(cfg, n)).attempts <==> 0 <= t < n
  {
    hide Step, Turn, AllEnded, StartsAt;
    if n > 0 {
      EveryTurnEnds(cfg, env, n - 1);
      hide Run;
      TurnEnds(cfg, env, OneByOne(cfg, n - 1), n - 1);
    } else {
      assert Run(cfg, env, []) == Initial(cfg);
      NothingRuns(cfg);
    }
  }

  lemma NothingRuns(cfg: HostConfig)
    ensures AllEnded(Initial(cfg))
  {
  }

  lemma {:induction false} EveryTurnAttempts(cfg: HostConfig, env: Id -> Call, n: nat)
    requires n <= |cfg.slots|
    ensures forall t :: 0 <= t < n ==> Attempted(cfg, env, OneByOne(cfg, n), cfg.slots[t].slotId)
  {
    hide Run, Turn, Attempted, AllEnded, StartsAt;
    if n > 0 {
      var earlier := OneByOne(cfg, n - 1);
      EveryTurnAttempts(cfg, env, n - 1);
      EveryTurnEnds(cfg, env, n - 1);
      TurnEnds(cfg, env, earlier, n - 1);
      LastAttempted(cfg, env, earlier, n - 1);
      forall t | 0 <= t < n - 1 {
        StartsAtLonger(cfg, env, earlier, Turn(cfg, n - 1), cfg.slots[t].slotId);
      }
    }
  }

  lemma LastAttempted(cfg: HostConfig, env: Id -> Call, actions: seq<Action>, t: nat)
    requires t < |cfg.slots|
    requires StartsAt(cfg, env, actions + Turn(cfg, t), cfg.slots[t].slotId, |actions|)
    ensures Attempted(cfg, env, actions + Turn(cfg, t), cfg.slots[t].slotId)
  {
    hide StartsAt;
  }

  /** Attempting the slots of an admitted campaign one by one completes it, and its manifest is accepted,
      whatever calls within their reservations do. */
  lemma AdmittedCampaignCompletes(
    cfg: HostConfig, components: seq<Component>, env: Id -> Call, plan: PlanDocument, manifestId: Id)
    requires cfg.Accepted() && BuiltFrom(cfg, components) && Admitted(components, cfg.ceilings) && PlanOf(cfg, plan)
    requires CallsWithinReservations(cfg, env)
    ensures var s := Run(cfg, env, OneByOne(cfg, |cfg.slots|));
      Complete(cfg, s) && ManifestValid(ManifestFrom(SnapshotOf(cfg, s.shared), manifestId), plan)
  {
    var actions := OneByOne(cfg, |cfg.slots|);
    EveryTurnEnds(cfg, env, |cfg.slots|);
    EveryTurnAttempts(cfg, env, |cfg.slots|);
    EverySlotAttempted(cfg, env, actions);
    hide *;
    CallsNeverOverrun(cfg, env, actions);
    EndedMeans(Run(cfg, env, actions));
    AdmittedRunCompletes(cfg, components, env, actions);
    AdmittedCampaignIsAccepted(cfg, components, env, actions, plan, manifestId);
  }

  lemma EndedMeans(s: HostState)
    requires AllEnded(s)
    ensures forall t :: t in s.attempts ==> s.attempts[t].Finished?
  {
  }

  lemma EverySlotAttempted(cfg: HostConfig, env: Id -> Call, actions: seq<Action>)
    requires cfg.Accepted()
    requires forall t :: 0 <= t < |cfg.slots| ==> Attempted(cfg, env, actions, cfg.slots[t].slotId)
    ensures forall id :: id in cfg.Table() ==> Attempted(cfg, env, actions, id)
  {
    PlanIds(cfg);
    hide HostConfig.Accepted, SlotTable, Attempted;
    forall id | id in cfg.Table() ensures Attempted(cfg, env, actions, id) {
      assert id in SlotIds(cfg.slots);
      var t :| 0 <= t < |cfg.slots| && SlotIds(cfg.slots)[t] == id;
    }
  }

  // Calls that go well.

  /** The provider uses up everything the component allows, and has a receipt of the slot's own. */
  function FullCall(cfg: HostConfig, slot: Slot, component: Component): Call {
    Call(
      ReturnedCandidate(Candidate(
        "text", cfg.ModelOf(slot).provider, slot.modelId, Success,
        component.maxInputTokens, component.maxOutputTokens, component.maxMoneyMicrounits, 1,
        Verified(TextDigest(slot.slotId)))),
      Some(Positive(component.maxWallClockMs)), Uninterrupted)
  }

  function FullCalls(cfg: HostConfig): Id -> Call {
    id =>
      if id in cfg.Table() && cfg.Table()[id].componentId in cfg.authority.components
      then FullCall(cfg, cfg.Table()[id], cfg.authority.components[cfg.Table()[id].componentId])
      else Call(RaisedOther, None, Uninterrupted)
  }

  lemma TextVisible()
    ensures !Blank("text")
  {
    assert "text"[0] == 't' && !IsSpace("text"[0]);
  }

  lemma FullCallVerified(cfg: HostConfig, slot: Slot, component: Component)
    requires component.WellFormed()
    ensures AfterCall(cfg, slot, FullCall(cfg, slot, component)).verified == Some(TextDigest(slot.slotId))
  {
    TextVisible();
    hide Blank, HostConfig.ModelOf, HostConfig.MaximumsOf;
  }

  lemma FullCallOf(cfg: HostConfig, id: Id)
    requires cfg.Accepted() && id in cfg.Table()
    ensures cfg.Table()[id].slotId == id
    ensures VerifiedDigest(cfg, FullCalls(cfg), cfg.Table()[id]) == Some(TextDigest(id))
  {
    hide HostConfig.Accepted, SlotTable, AfterCall, FullCall;
    PlanKnown(cfg, id);
    FullCallVerified(cfg, cfg.Table()[id], ComponentOf(cfg, cfg.Table()[id]));
  }

  lemma FullCallsWithin(cfg: HostConfig)
    requires cfg.Accepted()
    ensures CallsWithinReservations(cfg, FullCalls(cfg))
  {
    hide HostConfig.Accepted, SlotTable;
    forall id | id in cfg.Table()
      ensures CallFits(cfg, cfg.Table()[id], FullCalls(cfg)(id))
    {
      PlanKnown(cfg, id);
      hide ResultSound;
    }
  }

  lemma FullCallsDistinct(cfg: HostConfig)
    requires cfg.Accepted()
    ensures DistinctReceipts(cfg, FullCalls(cfg))
  {
    PlanIds(cfg);
    hide HostConfig.Accepted, SlotTable, FullCalls, VerifiedDigest;
    forall slot | slot in cfg.slots ensures VerifiedDigest(cfg, FullCalls(cfg), slot) == Some(TextDigest(slot.slotId)) {
      FullCallOf(cfg, slot.slotId);
    }
  }

  // The smallest campaign.

  const COMPONENT := Component("judge", 1, 1, 1000, 100, 20, 3000, ["model"], ["purpose"])
  const SLOT := Slot("slot", "judge", "unit", "case", 0, 0, "model", "purpose", "route", "authority", "", "", None)

  function SmallCampaign(): HostConfig {
    HostConfig(
      Identity("campaign", "preflight", "never", "system", "plan", "receipt"),
      Amounts(1, 1000, 100, 20, 3000),
      Authority(
        map["judge" := COMPONENT], map["model" := Model("provider", "snapshot", [None])],
        map["case" := Route("route", "authority")]),
      [SLOT])
  }

  function SmallPlan(): PlanDocument {
    PlanDocument("campaign", "system", "plan", [SLOT])
  }

  lemma SmallCampaignAccepted()
    ensures SmallCampaign().Accepted()
  {
    var cfg := SmallCampaign();
    assert SlotIds(cfg.slots) == ["slot"] && SlotKeys(cfg.slots) == [("judge", "unit", 0)];
    assert cfg.slots[0] == SLOT;
    assert UnitsOf(cfg.slots, "judge") == {"unit"};
    assert RetriesOf(cfg.slots, "judge", "unit") == {0};
    assert COMPONENT.modelIds[0] == "model" && COMPONENT.purposes[0] == "purpose";
    assert cfg.authority.models["model"].allowedSeeds[0] == None;
    assert SlotAuthorized(cfg.authority, SLOT);
    assert ComponentCovered(cfg.authority, cfg.slots, "judge");
  }

  lemma SmallCampaignAdmitted()
    ensures PlanOf(SmallCampaign(), SmallPlan())
    ensures BuiltFrom(SmallCampaign(), [COMPONENT]) && Admitted([COMPONENT], SmallCampaign().ceilings)
  {
    assert ComponentIds([COMPONENT]) == ["judge"] && ["judge"][0] == "judge";
    assert [COMPONENT][0] == COMPONENT;
    forall axis: Axis ensures Total(WorstCases([COMPONENT], axis)) <= SmallCampaign().ceilings.At(axis) {
      assert WorstCases([COMPONENT], axis) == [COMPONENT.WorstCase().At(axis)];
      assert [] + [COMPONENT.WorstCase().At(axis)] == [COMPONENT.WorstCase().At(axis)];
      TotalAppend([], COMPONENT.WorstCase().At(axis));
    }
  }

  /** A campaign, calls and a run that meet every premise of completion and of schedule independence. */
  lemma CampaignExists() returns (
    cfg: HostConfig, components: seq<Component>, env: Id -> Call, actions: seq<Action>, plan: PlanDocument)
    ensures cfg.Accepted() && BuiltFrom(cfg, components) && Admitted(components, cfg.ceilings) && PlanOf(cfg, plan)
    ensures CallsWithinReservations(cfg, env) && DistinctReceipts(cfg, env)
    ensures Complete(cfg, Run(cfg, env, actions)) && NoOverrun(Run(cfg, env, actions).shared.ledger.events)
    ensures forall id :: id in cfg.Table() ==> Attempted(cfg, env, actions, id)
    ensures AllEnded(Run(cfg, env, actions))
  {
    hide *;
    cfg, components, plan := SmallCampaign(), [COMPONENT], SmallPlan();
    env, actions := FullCalls(cfg), OneByOne(cfg, |cfg.slots|);
    SmallCampaignAccepted();
    SmallCampaignAdmitted();
    FullCallsWithin(cfg);
    FullCallsDistinct(cfg);
    EveryTurnEnds(cfg, env, |cfg.slots|);
    EveryTurnAttempts(cfg, env, |cfg.slots|);
    EverySlotAttempted(cfg, env, actions);
    CallsNeverOverrun(cfg, env, actions);
    AdmittedCampaignCompletes(cfg, components, env, plan, "manifest");
  }
}
