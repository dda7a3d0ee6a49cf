/** Honest writers under any I/O errors: exactly what takes a published artifact away. */
module WriteOnceHonest {
  import opened WriteOnce

  /** The writer has published and has yet to revalidate. */
  predicate Exposed(phase: Phase) {
    phase.Linked? || (phase.Revalidating? && phase.created)
  }

  /** The writer has published and may still take it back. */
  predicate Standing(phase: Phase) {
    Exposed(phase) || phase.RollingBack?
  }

  predicate Finishing(phase: Phase) {
    phase.Cleaning? || phase.Done?
  }

  predicate Private(disk: Disk, number: nat) {
    Target in disk.names ==> disk.names[Target] != number
  }

  ghost predicate HonestPhase(disk: Disk, data: seq<int>, w: nat, phase: Phase) {
    && PhaseSafe(disk, w, phase)
    && (phase.Writing? ==>
          && phase.offset <= |data| && disk.files[phase.number].bytes == data[..phase.offset]
          && Private(disk, phase.number))
    && (phase.Linking? ==> disk.files[phase.number].bytes == data && Private(disk, phase.number))
    && (phase.Existing? ==> Private(disk, phase.number))
    && (Standing(phase) ==> Target in disk.names && disk.names[Target] == phase.number)
    && (phase.Publishing() || phase.RollingBack? ==>
          disk.Has(Target) && disk.At(Target).owner == Writer(w) && disk.At(Target).bytes == data)
  }

  /** A published file of a writer is there because that writer linked it. */
  ghost predicate OwnerKnown(s: State) {
    s.disk.Has(Target) && s.disk.At(Target).owner.Writer? ==>
      Standing(s.PhaseOf(s.disk.At(Target).owner.id)) || Finishing(s.PhaseOf(s.disk.At(Target).owner.id))
  }

  ghost predicate Honest(data: nat -> seq<int>, s: State) {
    && s.disk.Consistent()
    && (forall w :: HonestPhase(s.disk, data(w), w, s.PhaseOf(w)))
    && OwnerKnown(s)
  }

  /** Nobody but the writers acts, and they may meet any I/O error anywhere. */
  predicate OnlyWriters(actions: seq<Action>) {
    forall i :: 0 <= i < |actions| ==> actions[i].Act?
  }

  /** A rollback whose unlink goes through. */
  predicate RollsBack(s: State, action: Action) {
    action.Act? && s.PhaseOf(action.w).RollingBack? && !action.move.fault
  }

  /** What was published stays published: the same file with the same bytes. */
  predicate TargetKept(before: Disk, after: Disk) {
    Target in before.names ==>
      && before.Has(Target) && after.Has(Target)
      && after.names[Target] == before.names[Target]
      && after.At(Target) == before.At(Target)
  }

  // One step.

  lemma OpsKeepTarget(disk: Disk, name: Name, number: nat, file: File)
    requires disk.Consistent() && name != Target
    ensures TargetKept(disk, disk.Unlink(name))
    ensures number !in disk.files ==> TargetKept(disk, disk.Create(name, number, file))
    ensures TargetKept(disk, disk)
  {
    if Target in disk.names {
      assert (disk.names - {name})[Target] == disk.names[Target];
      assert disk.names[name := number][Target] == disk.names[Target];
    }
  }

  lemma StepKeepsTarget(disk: Disk, data: seq<int>, w: nat, phase: Phase, move: Move)
    requires disk.Consistent() && HonestPhase(disk, data, w, phase)
    requires phase.RollingBack? ==> move.fault
    ensures TargetKept(disk, NextDisk(disk, data, w, phase, move))
  {
    OpsKeepTarget(disk, Temp(w), move.number, File(Writer(w), []));
    hide Disk.Unlink, Disk.Create, Matches;
  }

  lemma RollbackRemoves(disk: Disk, data: seq<int>, w: nat, phase: Phase, move: Move)
    requires HonestPhase(disk, data, w, phase) && phase.RollingBack? && !move.fault
    ensures Target in disk.names && Target !in NextDisk(disk, data, w, phase, move).names
  {
    UnlinkRemoves(disk, Target, Target);
  }

  /** A staged file of one writer is not touched by another writer's step. */
  lemma StepKeepsFile(disk: Disk, data: seq<int>, w: nat, phase: Phase, move: Move, u: nat, number: nat)
    requires disk.Consistent() && HonestPhase(disk, data, w, phase)
    requires u != w && Pinned(disk, u, number)
    ensures Pinned(NextDisk(disk, data, w, phase, move), u, number)
    ensures NextDisk(disk, data, w, phase, move).files[number] == disk.files[number]
    ensures Private(disk, number) ==> Private(NextDisk(disk, data, w, phase, move), number)
  {
    PinSurvives(disk, u, number, Temp(w), move.number, File(Writer(w), []));
    PinSurvives(disk, u, number, Target, if phase.Linking? then phase.number else 0, File(Writer(w), []));
  }

  lemma HonestOther(disk: Disk, data: seq<int>, w: nat, phase: Phase, move: Move, u: nat, mine: Phase, own: seq<int>)
    requires disk.Consistent() && HonestPhase(disk, data, w, phase)
    requires u != w && HonestPhase(disk, own, u, mine)
    ensures HonestPhase(NextDisk(disk, data, w, phase, move), own, u, mine)
  {
    if !phase.RollingBack? || move.fault {
      StepKeepsTarget(disk, data, w, phase, move);
    }
    OthersSafe(disk, data, w, phase, move, u, mine);
    if mine.Pinning() {
      StepKeepsFile(disk, data, w, phase, move, u, mine.number);
    }
    hide NextDisk, Disk.Consistent, PhaseSafe;
  }

  lemma AppendsNext(disk: Disk, data: seq<int>, w: nat, phase: Phase, move: Move)
    requires disk.Consistent() && HonestPhase(disk, data, w, phase) && phase.Writing?
    requires NextPhase(disk, data, w, phase, move).Writing?
    ensures var next, after := NextPhase(disk, data, w, phase, move), NextDisk(disk, data, w, phase, move);
      && next.number == phase.number && next.number in after.files
      && next.offset <= |data| && after.files[next.number].bytes == data[..next.offset]
      && Private(after, next.number)
  {
    var next := phase.offset + Smaller(move.size, |data| - phase.offset);
    assert data[..phase.offset] + data[phase.offset..next] == data[..next];
  }

  lemma StagesEmpty(disk: Disk, w: nat, number: nat)
    requires disk.Consistent() && number !in disk.files
    ensures var after := disk.Create(Temp(w), number, File(Writer(w), []));
      number in after.files && after.files[number].bytes == [] && Private(after, number)
  {
    assert disk.names[Temp(w) := number][Temp(w)] == number;
  }

  lemma Publishes(disk: Disk, data: seq<int>, w: nat, number: nat)
    requires disk.Consistent() && Pinned(disk, w, number) && disk.files[number].bytes == data
    ensures var after := disk.Link(Target, number);
      && after.Has(Target) && after.names[Target] == number
      && after.At(Target).owner == Writer(w) && after.At(Target).bytes == data
  {
    assert disk.names[Target := number][Target] == number;
  }

  lemma HonestOwn(disk: Disk, data: seq<int>, w: nat, phase: Phase, move: Move)
    requires disk.Consistent() && HonestPhase(disk, data, w, phase)
    ensures HonestPhase(NextDisk(disk, data, w, phase, move), data, w, NextPhase(disk, data, w, phase, move))
    ensures NextPhase(disk, data, w, phase, move).RollingBack? <==> Exposed(phase) && move.fault
  {
    OwnSafe(disk, data, w, phase, move);
    if !phase.RollingBack? || move.fault {
      StepKeepsTarget(disk, data, w, phase, move);
    }
    if phase.Staging? && move.number !in disk.files {
      StagesEmpty(disk, w, move.number);
    }
    if phase.Writing? && NextPhase(disk, data, w, phase, move).Writing? {
      AppendsNext(disk, data, w, phase, move);
    }
    if phase.Linking? {
      Publishes(disk, data, w, phase.number);
    }
    hide Disk.Unlink, Disk.Create, Disk.Append, Disk.Link, PhaseSafe;
  }

  lemma PhaseIsSafe(disk: Disk, data: seq<int>, w: nat, phase: Phase)
    requires HonestPhase(disk, data, w, phase)
    ensures PhaseSafe(disk, w, phase)
  {
  }

  /** Only a link puts the target name there, and it is the writer's own file. */
  lemma NewTarget(disk: Disk, data: seq<int>, w: nat, phase: Phase, move: Move)
    requires disk.Consistent() && HonestPhase(disk, data, w, phase)
    requires Target !in disk.names && Target in NextDisk(disk, data, w, phase, move).names
    ensures NextPhase(disk, data, w, phase, move).Linked?
  {
    hide Matches;
    UnlinkRemoves(disk, Temp(w), Target);
    assert Target !in disk.names[Temp(w) := move.number];
  }

  lemma StandsOrFinishes(disk: Disk, data: seq<int>, w: nat, phase: Phase, move: Move)
    requires Standing(phase) || Finishing(phase)
    ensures var next := NextPhase(disk, data, w, phase, move); Standing(next) || Finishing(next)
    ensures Finishing(phase) ==> Finishing(NextPhase(disk, data, w, phase, move))
  {
  }

  lemma StepKeepsOwner(data: nat -> seq<int>, s: State, action: Action)
    requires Honest(data, s) && action.Act?
    requires HonestPhase(Step(data, s, action).disk, data(action.w), action.w, Step(data, s, action).PhaseOf(action.w))
    ensures OwnerKnown(Step(data, s, action))
  {
    var w, phase, after := action.w, s.PhaseOf(action.w), Step(data, s, action);
    assert HonestPhase(s.disk, data(w), w, phase);
    if after.disk.Has(Target) {
      if Target !in s.disk.names {
        NewTarget(s.disk, data(w), w, phase, action.move);
      } else {
        if RollsBack(s, action) {
          RollbackRemoves(s.disk, data(w), w, phase, action.move);
        } else {
          StepKeepsTarget(s.disk, data(w), w, phase, action.move);
        }
        if Standing(phase) || Finishing(phase) {
          StandsOrFinishes(s.disk, data(w), w, phase, action.move);
        }
      }
    }
    hide NextPhase, NextDisk, HonestPhase, Disk.Consistent;
  }

  /** The step that takes a published artifact away is a rollback whose unlink goes through, and no
      other: every other step keeps the file and its bytes. */
  lemma StepHonest(data: nat -> seq<int>, s: State, action: Action)
    requires Honest(data, s) && action.Act?
    ensures Honest(data, Step(data, s, action))
    ensures !RollsBack(s, action) ==> TargetKept(s.disk, Step(data, s, action).disk)
    ensures RollsBack(s, action) ==> Target in s.disk.names && Target !in Step(data, s, action).disk.names
    ensures Step(data, s, action).PhaseOf(action.w).RollingBack? <==>
      Exposed(s.PhaseOf(action.w)) && action.move.fault
  {
    var w, phase := action.w, s.PhaseOf(action.w);
    assert HonestPhase(s.disk, data(w), w, phase);
    hide HonestPhase, NextDisk, NextPhase, Disk.Consistent, PhaseSafe, TargetKept, OwnerKnown;
    PhaseIsSafe(s.disk, data(w), w, phase);
    OwnConsistent(s.disk, data(w), w, phase, action.move);
    HonestOwn(s.disk, data(w), w, phase, action.move);
    if RollsBack(s, action) {
      RollbackRemoves(s.disk, data(w), w, phase, action.move);
    } else {
      StepKeepsTarget(s.disk, data(w), w, phase, action.move);
    }
    forall u: nat
      ensures HonestPhase(Step(data, s, action).disk, data(u), u, Step(data, s, action).PhaseOf(u))
    {
      if u != w {
        HonestOther(s.disk, data(w), w, phase, action.move, u, s.PhaseOf(u), data(u));
      }
    }
    StepKeepsOwner(data, s, action);
  }

  // Every run.

  lemma {:induction false} RunHonest(data: nat -> seq<int>, disk: Disk, actions: seq<Action>)
    requires FreshStart(disk) && OnlyWriters(actions)
    ensures Honest(data, Run(data, disk, actions))
  {
    if actions != [] {
      hide Honest, Step, FreshStart;
      RunHonest(data, disk, actions[..|actions| - 1]);
      StepHonest(data, Run(data, disk, actions[..|actions| - 1]), actions[|actions| - 1]);
    }
  }

  /** In every run of honest writers a published target disappears at a step exactly if that step is
      the rollback of the writer whose inode it names and the unlink meets no error. */
  lemma UnpublishedExactlyByRollback(data: nat -> seq<int>, disk: Disk, actions: seq<Action>, action: Action)
    requires FreshStart(disk) && OnlyWriters(actions) && action.Act?
    requires Target in Run(data, disk, actions).disk.names
    ensures var s := Run(data, disk, actions);
      && (Target !in Step(data, s, action).disk.names <==>
            s.PhaseOf(action.w).RollingBack? && s.disk.names[Target] == s.PhaseOf(action.w).number && !action.move.fault)
      && (Target in Step(data, s, action).disk.names ==> TargetKept(s.disk, Step(data, s, action).disk))
  {
    RunHonest(data, disk, actions);
    var s := Run(data, disk, actions);
    assert HonestPhase(s.disk, data(action.w), action.w, s.PhaseOf(action.w));
    hide Run, Step, Honest, PhaseSafe;
    StepHonest(data, s, action);
  }

  lemma KeptTwice(a: Disk, b: Disk, c: Disk)
    requires TargetKept(a, b) && TargetKept(b, c)
    ensures TargetKept(a, c)
  {
  }

  lemma KeptNow(data: nat -> seq<int>, s: State)
    requires Honest(data, s)
    ensures TargetKept(s.disk, s.disk)
  {
    OpsKeepTarget(s.disk, Temp(0), 0, File(Outsider, []));
  }

  lemma RunConcat(data: nat -> seq<int>, disk: Disk, actions: seq<Action>, last: Action)
    ensures Run(data, disk, actions + [last]) == Step(data, Run(data, disk, actions), last)
  {
    assert (actions + [last])[..|actions|] == actions;
  }

  // When nothing can take the artifact away any more.

  /** The target is published and its writer, if it is one of the writers, is past its revalidation. */
  predicate Settled(s: State) {
    && s.disk.Has(Target)
    && (s.disk.At(Target).owner.Writer? ==> Finishing(s.PhaseOf(s.disk.At(Target).owner.id)))
  }

  lemma StepKeepsSettled(data: nat -> seq<int>, s: State, action: Action)
    requires Honest(data, s) && Settled(s) && action.Act?
    ensures Settled(Step(data, s, action)) && TargetKept(s.disk, Step(data, s, action).disk)
  {
    var w, phase := action.w, s.PhaseOf(action.w);
    assert HonestPhase(s.disk, data(w), w, phase);
    assert !RollsBack(s, action);
    StepHonest(data, s, action);
    if Finishing(phase) {
      StandsOrFinishes(s.disk, data(w), w, phase, action.move);
    }
    hide NextPhase, NextDisk, HonestPhase, Honest;
  }

  lemma {:induction false} SettledForever(data: nat -> seq<int>, disk: Disk, actions: seq<Action>, rest: seq<Action>)
    requires FreshStart(disk) && OnlyWriters(actions) && OnlyWriters(rest) && Settled(Run(data, disk, actions))
    ensures Settled(Run(data, disk, actions + rest))
    ensures TargetKept(Run(data, disk, actions).disk, Run(data, disk, actions + rest).disk)
    decreases |rest|
  {
    if rest == [] {
      assert actions + rest == actions;
      RunHonest(data, disk, actions);
      KeptNow(data, Run(data, disk, actions));
    } else {
      var init, last := rest[..|rest| - 1], rest[|rest| - 1];
      assert actions + rest == actions + init + [last];
      hide Run, Honest, Step, FreshStart, TargetKept, Settled;
      SettledForever(data, disk, actions, init);
      RunHonest(data, disk, actions + init);
      StepKeepsSettled(data, Run(data, disk, actions + init), last);
      RunConcat(data, disk, actions + init, last);
      KeptTwice(Run(data, disk, actions).disk, Run(data, disk, actions + init).disk, Run(data, disk, actions + rest).disk);
    }
  }

  ghost predicate Permanent(data: nat -> seq<int>, disk: Disk, actions: seq<Action>) {
    forall rest :: OnlyWriters(rest) ==> Target in Run(data, disk, actions + rest).disk.names
  }

  /** Two more steps of its own writer take an unsettled artifact away: an I/O error before its
      revalidation is over, and the rollback. */
  lemma UnsettledCanGo(data: nat -> seq<int>, disk: Disk, actions: seq<Action>) returns (rest: seq<Action>)
    requires FreshStart(disk) && OnlyWriters(actions)
    requires Target in Run(data, disk, actions).disk.names && !Settled(Run(data, disk, actions))
    ensures OnlyWriters(rest) && Target !in Run(data, disk, actions + rest).disk.names
  {
    RunHonest(data, disk, actions);
    var s := Run(data, disk, actions);
    assert s.disk.Has(Target);
    var w := s.disk.At(Target).owner.id;
    assert Standing(s.PhaseOf(w));
    hide Run, Honest, Step, FreshStart;
    var fails, undoes := Act(w, Move(0, 0, true)), Act(w, Move(0, 0, false));
    if s.PhaseOf(w).RollingBack? {
      StepHonest(data, s, undoes);
      RunConcat(data, disk, actions, undoes);
      rest := [undoes];
    } else {
      StepHonest(data, s, fails);
      RunConcat(data, disk, actions, fails);
      StepHonest(data, Run(data, disk, actions + [fails]), undoes);
      RunConcat(data, disk, actions + [fails], undoes);
      rest := [fails, undoes];
      assert actions + rest == actions + [fails] + [undoes];
    }
  }

  /** A published artifact is permanent, whatever the honest writers and their I/O errors still do,
      exactly if its own writer is past its revalidation. */
  lemma PermanentExactlyWhenSettled(data: nat -> seq<int>, disk: Disk, actions: seq<Action>)
    requires FreshStart(disk) && OnlyWriters(actions) && Target in Run(data, disk, actions).disk.names
    ensures Permanent(data, disk, actions) <==> Settled(Run(data, disk, actions))
  {
    if Settled(Run(data, disk, actions)) {
      forall rest | OnlyWriters(rest) ensures Target in Run(data, disk, actions + rest).disk.names {
        SettledForever(data, disk, actions, rest);
      }
    } else {
      var rest := UnsettledCanGo(data, disk, actions);
    }
  }

  /** Whoever reports that it created the artifact is the only one, and it stays. */
  lemma CreatedForever(data: nat -> seq<int>, disk: Disk, actions: seq<Action>, rest: seq<Action>, a: nat, b: nat)
    requires FreshStart(disk) && OnlyWriters(actions) && OnlyWriters(rest)
    requires Run(data, disk, actions).PhaseOf(a) == Done(Success(true))
    ensures Matches(Run(data, disk, actions).disk, data(a))
    ensures TargetKept(Run(data, disk, actions).disk, Run(data, disk, actions + rest).disk)
    ensures Run(data, disk, actions).PhaseOf(b) == Done(Success(true)) ==> a == b
  {
    RunHonest(data, disk, actions);
    var s := Run(data, disk, actions);
    assert HonestPhase(s.disk, data(a), a, s.PhaseOf(a)) && HonestPhase(s.disk, data(b), b, s.PhaseOf(b));
    hide Run, Honest, FreshStart;
    SettledForever(data, disk, actions, rest);
  }

  // After a fault between publication and revalidation.

  lemma {:induction false} OthersKeepPhase(
    data: nat -> seq<int>, disk: Disk, actions: seq<Action>, others: seq<Action>, w: nat)
    requires OnlyWriters(others) && forall i :: 0 <= i < |others| ==> others[i].w != w
    ensures Run(data, disk, actions + others).PhaseOf(w) == Run(data, disk, actions).PhaseOf(w)
    decreases |others|
  {
    if others == [] {
      assert actions + others == actions;
    } else {
      var init, last := others[..|others| - 1], others[|others| - 1];
      assert actions + others == actions + init + [last];
      OthersKeepPhase(data, disk, actions, init, w);
      RunConcat(data, disk, actions + init, last);
      hide Run;
    }
  }

  /** After an I/O error between a writer's publication and the end of its revalidation, the artifact
      goes with the writer's next step exactly if the unlink of that rollback meets no error, whatever
      other writers do in between. If it meets one, the artifact stays for good although its writer
      fails. */
  lemma FaultUnpublishes(
    data: nat -> seq<int>, disk: Disk, actions: seq<Action>, w: nat, move: Move, others: seq<Action>, next: Move)
    requires FreshStart(disk) && OnlyWriters(actions) && OnlyWriters(others)
    requires forall i :: 0 <= i < |others| ==> others[i].w != w
    requires Exposed(Run(data, disk, actions).PhaseOf(w)) && move.fault
    ensures var s := Run(data, disk, actions + [Act(w, move)] + others);
      && Target in s.disk.names
      && (Target !in Step(data, s, Act(w, next)).disk.names <==> !next.fault)
      && (next.fault ==> Settled(Step(data, s, Act(w, next))))
      && Step(data, s, Act(w, next)).PhaseOf(w).Cleaning? && Step(data, s, Act(w, next)).PhaseOf(w).outcome == Failed
  {
    var faulted := actions + [Act(w, move)];
    var s := Run(data, disk, faulted + others);
    RunHonest(data, disk, actions);
    RunConcat(data, disk, actions, Act(w, move));
    OthersKeepPhase(data, disk, faulted, others, w);
    RunHonest(data, disk, faulted + others);
    assert HonestPhase(s.disk, data(w), w, s.PhaseOf(w));
    hide Run, FreshStart, Honest;
    StepHonest(data, Run(data, disk, actions), Act(w, move));
    assert s.PhaseOf(w).RollingBack? && s.PhaseOf(w).outcome == Failed;
    StepHonest(data, s, Act(w, next));
    hide HonestPhase;
  }
}
