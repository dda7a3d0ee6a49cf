/** Honest writers without an I/O error between a publication and its revalidation. */
module WriteOnceCalm {
  import opened WriteOnce
  import opened WriteOnceHonest

  /** A writer's step without an I/O error between its publication and its revalidation. */
  predicate Calm(s: State, action: Action) {
    action.Act? && (action.move.fault ==> !Exposed(s.PhaseOf(action.w)))
  }

  ghost predicate CalmRun(data: nat -> seq<int>, disk: Disk, actions: seq<Action>) {
    forall i :: 0 <= i < |actions| ==> Calm(Run(data, disk, actions[..i]), actions[i])
  }

  ghost predicate CalmPhase(disk: Disk, data: seq<int>, phase: Phase) {
    && !phase.RollingBack?
    && (phase.Existing? ==> disk.Has(Target))
    && (phase.Confirmed() ==> Matches(disk, data))
    && (Finishing(phase) && phase.outcome == Conflict ==> disk.Has(Target) && !Matches(disk, data))
  }

  ghost predicate AllCalm(data: nat -> seq<int>, s: State) {
    forall w :: CalmPhase(s.disk, data(w), s.PhaseOf(w))
  }

  lemma CalmOwn(disk: Disk, data: seq<int>, w: nat, phase: Phase, move: Move)
    requires disk.Consistent() && HonestPhase(disk, data, w, phase) && CalmPhase(disk, data, phase)
    requires move.fault ==> !Exposed(phase)
    ensures CalmPhase(NextDisk(disk, data, w, phase, move), data, NextPhase(disk, data, w, phase, move))
  {
    StepKeepsTarget(disk, data, w, phase, move);
    if phase.Linking? {
      Publishes(disk, data, w, phase.number);
    }
    hide Disk.Unlink, Disk.Create, Disk.Append, Disk.Link, PhaseSafe;
  }

  lemma CalmOther(before: Disk, after: Disk, own: seq<int>, mine: Phase)
    requires TargetKept(before, after) && CalmPhase(before, own, mine)
    ensures CalmPhase(after, own, mine)
  {
  }

  lemma StepCalm(data: nat -> seq<int>, s: State, action: Action)
    requires Honest(data, s) && AllCalm(data, s) && Calm(s, action)
    ensures AllCalm(data, Step(data, s, action))
    ensures TargetKept(s.disk, Step(data, s, action).disk)
  {
    var w, phase, after := action.w, s.PhaseOf(action.w), Step(data, s, action);
    assert HonestPhase(s.disk, data(w), w, phase) && CalmPhase(s.disk, data(w), phase);
    CalmOwn(s.disk, data(w), w, phase, action.move);
    StepHonest(data, s, action);
    hide HonestPhase, NextDisk, NextPhase, Honest, TargetKept, Disk.Consistent;
    forall u: nat ensures CalmPhase(after.disk, data(u), after.PhaseOf(u)) {
      if u != w {
        assert CalmPhase(s.disk, data(u), s.PhaseOf(u));
        hide CalmPhase;
        CalmOther(s.disk, after.disk, data(u), s.PhaseOf(u));
      }
    }
  }

  lemma CalmPrefix(data: nat -> seq<int>, disk: Disk, actions: seq<Action>)
    requires CalmRun(data, disk, actions) && actions != []
    ensures CalmRun(data, disk, actions[..|actions| - 1])
    ensures Calm(Run(data, disk, actions[..|actions| - 1]), actions[|actions| - 1])
  {
    hide Run, Calm;
    var init := actions[..|actions| - 1];
    forall i | 0 <= i < |init| ensures Calm(Run(data, disk, init[..i]), init[i]) {
      assert init[..i] == actions[..i];
    }
  }

  lemma CalmIsHonest(data: nat -> seq<int>, disk: Disk, actions: seq<Action>)
    requires CalmRun(data, disk, actions)
    ensures OnlyWriters(actions)
  {
    hide Run;
    forall i | 0 <= i < |actions| ensures actions[i].Act? {
      assert Calm(Run(data, disk, actions[..i]), actions[i]);
    }
  }

  lemma {:induction false} RunCalm(data: nat -> seq<int>, disk: Disk, actions: seq<Action>)
    requires FreshStart(disk) && CalmRun(data, disk, actions)
    ensures AllCalm(data, Run(data, disk, actions))
  {
    if actions != [] {
      CalmPrefix(data, disk, actions);
      hide CalmRun, Honest, Step, FreshStart, AllCalm;
      var init := actions[..|actions| - 1];
      RunCalm(data, disk, init);
      CalmIsHonest(data, disk, init);
      RunHonest(data, disk, init);
      StepCalm(data, Run(data, disk, init), actions[|actions| - 1]);
    }
  }

  /** Once something is published under the target name, it never changes and never goes away. */
  lemma {:induction false} PublishedForever(data: nat -> seq<int>, disk: Disk, actions: seq<Action>, n: nat)
    requires FreshStart(disk) && CalmRun(data, disk, actions) && n <= |actions|
    ensures TargetKept(Run(data, disk, actions[..n]).disk, Run(data, disk, actions).disk)
    decreases |actions|
  {
    CalmIsHonest(data, disk, actions);
    if n == |actions| {
      assert actions[..n] == actions;
      RunHonest(data, disk, actions);
      hide Run;
      KeptNow(data, Run(data, disk, actions));
    } else {
      var init := actions[..|actions| - 1];
      CalmPrefix(data, disk, actions);
      hide CalmRun, Honest, Step, FreshStart, TargetKept, AllCalm;
      RunCalm(data, disk, init);
      RunHonest(data, disk, init);
      assert init[..n] == actions[..n];
      PublishedForever(data, disk, init, n);
      StepCalm(data, Run(data, disk, init), actions[|actions| - 1]);
      KeptTwice(Run(data, disk, actions[..n]).disk, Run(data, disk, init).disk, Run(data, disk, actions).disk);
    }
  }

  /** Every successful writer wrote the published bytes, so all of them wrote the same, and a conflict
      is reported only against different bytes. */
  lemma OutcomesAgree(data: nat -> seq<int>, disk: Disk, actions: seq<Action>, a: nat, b: nat)
    requires FreshStart(disk) && CalmRun(data, disk, actions)
    ensures var s := Run(data, disk, actions);
      && (s.PhaseOf(a) == Done(Success(true)) && s.PhaseOf(b) == Done(Success(true)) ==> a == b)
      && (s.PhaseOf(a).Done? && s.PhaseOf(a).outcome.Success? ==> Matches(s.disk, data(a)))
      && (s.PhaseOf(a).Done? && s.PhaseOf(a).outcome.Success? && s.PhaseOf(b).Done? && s.PhaseOf(b).outcome.Success? ==>
            data(a) == data(b))
      && (s.PhaseOf(a) == Done(Conflict) ==> s.disk.Has(Target) && !Matches(s.disk, data(a)))
  {
    CalmIsHonest(data, disk, actions);
    RunHonest(data, disk, actions);
    RunCalm(data, disk, actions);
    var s := Run(data, disk, actions);
    hide Run, CalmRun, FreshStart;
    assert HonestPhase(s.disk, data(a), a, s.PhaseOf(a)) && HonestPhase(s.disk, data(b), b, s.PhaseOf(b));
    assert CalmPhase(s.disk, data(a), s.PhaseOf(a)) && CalmPhase(s.disk, data(b), s.PhaseOf(b));
  }
}
