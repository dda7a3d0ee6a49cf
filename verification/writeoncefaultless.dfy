/** Writers that meet no I/O error at all: what each of them reports is decided by the published file alone. */
module WriteOnceFaultless {
  import opened WriteOnce
  import opened WriteOnceCalm
  import opened WriteOnceHonest

  /** A writer's step that succeeds and, where it writes, makes progress. */
  predicate Faultless(action: Action) {
    action.Act? && !action.move.fault && action.move.size > 0
  }

  ghost predicate FaultlessRun(actions: seq<Action>) {
    forall i :: 0 <= i < |actions| ==> Faultless(actions[i])
  }

  /** The writer created the file that everybody finds. */
  predicate Created(disk: Disk, w: nat) {
    disk.Has(Target) && disk.At(Target).owner == Writer(w)
  }

  /** What a writer reports: a conflict against other bytes, and otherwise whether the file is its own. */
  predicate Reports(disk: Disk, data: seq<int>, w: nat, outcome: Outcome) {
    disk.Has(Target) && outcome == if disk.At(Target).bytes != data then Conflict else Success(Created(disk, w))
  }

  /** The writer no longer needs its temporary name. */
  predicate Released(phase: Phase) {
    phase.Done? || (phase.Revalidating? && !phase.created)
  }

  predicate Reporting(disk: Disk, data: seq<int>, w: nat, phase: Phase) {
    && (Finishing(phase) ==> Reports(disk, data, w, phase.outcome))
    && (Released(phase) ==> Temp(w) !in disk.names)
    && (Created(disk, w) ==> Standing(phase) || Finishing(phase))
  }

  ghost predicate AllReporting(data: nat -> seq<int>, s: State) {
    forall w :: Reporting(s.disk, data(w), w, s.PhaseOf(w))
  }

  lemma ReportingOwn(disk: Disk, data: seq<int>, w: nat, phase: Phase, move: Move)
    requires disk.Consistent() && HonestPhase(disk, data, w, phase) && CalmPhase(disk, data, phase)
    requires Reporting(disk, data, w, phase) && !move.fault && move.size > 0
    ensures Finishing(NextPhase(disk, data, w, phase, move)) ==>
      Reports(disk, data, w, NextPhase(disk, data, w, phase, move).outcome)
  {
    hide Disk.Unlink, Disk.Create, Disk.Append, Disk.Link;
  }

  lemma ReleasedOwn(disk: Disk, data: seq<int>, w: nat, phase: Phase, move: Move)
    requires disk.Consistent() && PhaseSafe(disk, w, phase) && !move.fault
    requires Released(phase) ==> Temp(w) !in disk.names
    ensures Released(NextPhase(disk, data, w, phase, move)) ==>
      Temp(w) !in NextDisk(disk, data, w, phase, move).names
  {
    UnlinkRemoves(disk, Temp(w), Temp(w));
  }

  lemma ReleasedOther(disk: Disk, data: seq<int>, u: nat, phase: Phase, move: Move, w: nat)
    requires u != w && Temp(w) !in disk.names
    ensures Temp(w) !in NextDisk(disk, data, u, phase, move).names
  {
  }

  lemma ReportingKept(before: Disk, after: Disk, data: seq<int>, w: nat, outcome: Outcome)
    requires TargetKept(before, after) && Reports(before, data, w, outcome)
    ensures Reports(after, data, w, outcome)
  {
  }

  lemma OwnerReports(s: State, w: nat)
    requires OwnerKnown(s)
    ensures Created(s.disk, w) ==> Standing(s.PhaseOf(w)) || Finishing(s.PhaseOf(w))
  {
  }

  lemma StepReports(data: nat -> seq<int>, s: State, action: Action)
    requires Honest(data, s) && AllCalm(data, s) && AllReporting(data, s) && Faultless(action)
    ensures AllReporting(data, Step(data, s, action))
  {
    var w, phase, after := action.w, s.PhaseOf(action.w), Step(data, s, action);
    assert HonestPhase(s.disk, data(w), w, phase) && CalmPhase(s.disk, data(w), phase);
    assert Reporting(s.disk, data(w), w, phase);
    ReportingOwn(s.disk, data(w), w, phase, action.move);
    ReleasedOwn(s.disk, data(w), w, phase, action.move);
    StepHonest(data, s, action);
    StepCalm(data, s, action);
    hide HonestPhase, CalmPhase, NextDisk, NextPhase, TargetKept, Disk.Consistent, Reports, Created, OwnerKnown;
    forall u: nat ensures Reporting(after.disk, data(u), u, after.PhaseOf(u)) {
      OwnerReports(after, u);
      if u != w && Temp(u) !in s.disk.names {
        ReleasedOther(s.disk, data(w), w, phase, action.move, u);
      }
      assert Reporting(s.disk, data(u), u, s.PhaseOf(u));
      if Finishing(after.PhaseOf(u)) {
        ReportingKept(s.disk, after.disk, data(u), u, after.PhaseOf(u).outcome);
      }
    }
  }

  lemma {:induction false} FaultlessIsCalm(data: nat -> seq<int>, disk: Disk, actions: seq<Action>)
    requires FaultlessRun(actions)
    ensures CalmRun(data, disk, actions)
  {
    hide Run;
  }

  lemma StartReports(data: nat -> seq<int>, disk: Disk)
    requires FreshStart(disk)
    ensures AllReporting(data, State(disk, map[]))
  {
  }

  lemma {:induction false} RunReports(data: nat -> seq<int>, disk: Disk, actions: seq<Action>)
    requires FreshStart(disk) && FaultlessRun(actions)
    ensures AllReporting(data, Run(data, disk, actions))
  {
    if actions == [] {
      StartReports(data, disk);
    } else {
      var init := actions[..|actions| - 1];
      hide Honest, Step, FreshStart, AllCalm, AllReporting, Faultless, CalmRun;
      FaultlessIsCalm(data, disk, init);
      RunReports(data, disk, init);
      RunCalm(data, disk, init);
      CalmIsHonest(data, disk, init);
      RunHonest(data, disk, init);
      StepReports(data, Run(data, disk, init), actions[|actions| - 1]);
    }
  }

  /** Whatever the interleaving, a writer that is done has removed its temporary name, and reports a conflict exactly if
      the published bytes are not its own, and creation exactly if the published file is its own. No other outcome is
      possible. */
  lemma ExactOutcome(data: nat -> seq<int>, disk: Disk, actions: seq<Action>, w: nat)
    requires FreshStart(disk) && FaultlessRun(actions) && Run(data, disk, actions).PhaseOf(w).Done?
    ensures var s := Run(data, disk, actions);
      && s.disk.Has(Target) && Temp(w) !in s.disk.names
      && (s.PhaseOf(w) == Done(Conflict) <==> s.disk.At(Target).bytes != data(w))
      && (s.PhaseOf(w) == Done(Success(true)) <==>
            s.disk.At(Target).bytes == data(w) && s.disk.At(Target).owner == Writer(w))
      && (s.PhaseOf(w) == Done(Success(false)) <==>
            s.disk.At(Target).bytes == data(w) && s.disk.At(Target).owner != Writer(w))
  {
    RunReports(data, disk, actions);
    hide Run;
    var s := Run(data, disk, actions);
    assert Reporting(s.disk, data(w), w, s.PhaseOf(w));
  }
}
