/** Where the guarantees of the publication protocol end. */
module WriteOnceLimits {
  import opened WriteOnce

  lemma RunOneMore(data: nat -> seq<int>, disk: Disk, actions: seq<Action>, last: Action)
    ensures Run(data, disk, actions + [last]) == Step(data, Run(data, disk, actions), last)
  {
    assert (actions + [last])[..|actions|] == actions;
  }

  function Same(w: nat): seq<int> {
    [7]
  }

  const EMPTY := Disk(map[], map[])

  const GO := Move(5, 1, false)

  const PUBLISHED := Disk(map[Temp(0) := 5, Target := 5], map[5 := File(Writer(0), [7])])

  /** One writer, undisturbed, up to its hard link. */
  function Publication(): seq<Action> {
    [Act(0, GO), Act(0, GO), Act(0, GO), Act(0, GO), Act(0, GO)]
  }

  lemma FirstSteps()
    ensures Run(Same, EMPTY, [Act(0, GO), Act(0, GO)])
      == State(Disk(map[Temp(0) := 5], map[5 := File(Writer(0), [])]), map[0 := Writing(5, 0)])
  {
    RunOneMore(Same, EMPTY, [], Act(0, GO));
    assert [] + [Act(0, GO)] == [Act(0, GO)];
    RunOneMore(Same, EMPTY, [Act(0, GO)], Act(0, GO));
    assert [Act(0, GO)] + [Act(0, GO)] == [Act(0, GO), Act(0, GO)];
    var s := Run(Same, EMPTY, [Act(0, GO)]);
    assert s == State(EMPTY, map[0 := Staging]);
    assert EMPTY.Create(Temp(0), 5, File(Writer(0), [])).names == map[Temp(0) := 5];
    assert 5 in map[Temp(0) := 5].Values by { assert map[Temp(0) := 5][Temp(0)] == 5; }
    assert EMPTY.Create(Temp(0), 5, File(Writer(0), [])).files == map[5 := File(Writer(0), [])];
  }

  lemma PublicationRuns()
    ensures Run(Same, EMPTY, Publication()) == State(PUBLISHED, map[0 := Linked(5)])
  {
    FirstSteps();
    hide Run;
    var two := [Act(0, GO), Act(0, GO)];
    RunOneMore(Same, EMPTY, two, Act(0, GO));
    var written := Disk(map[Temp(0) := 5], map[5 := File(Writer(0), [7])]);
    assert [7][0..1] == [7] && [] + [7] == [7];
    assert Run(Same, EMPTY, two + [Act(0, GO)]) == State(written, map[0 := Writing(5, 1)]);
    RunOneMore(Same, EMPTY, two + [Act(0, GO)], Act(0, GO));
    var four := two + [Act(0, GO)] + [Act(0, GO)];
    assert Run(Same, EMPTY, four) == State(written, map[0 := Linking(5)]);
    RunOneMore(Same, EMPTY, four, Act(0, GO));
    assert four + [Act(0, GO)] == Publication();
    assert written.Link(Target, 5).names == PUBLISHED.names;
    assert 5 in PUBLISHED.names.Values by { assert PUBLISHED.names[Target] == 5; }
    assert written.Link(Target, 5).files == PUBLISHED.files;
  }

  /** An I/O error after the link takes back an artifact that another writer already reported as
      present, so honest writers alone do not make a publication permanent. */
  lemma FaultAfterLinkLosesArtifact() returns (actions: seq<Action>)
    ensures FreshStart(EMPTY) && forall i :: 0 <= i < |actions| ==> actions[i].Act?
    ensures Run(Same, EMPTY, actions).PhaseOf(1) == Done(Success(false))
    ensures Target !in Run(Same, EMPTY, actions).disk.names
  {
    PublicationRuns();
    hide Run;
    var first := Publication();
    RunOneMore(Same, EMPTY, first, Act(1, GO));
    var second := first + [Act(1, GO)];
    assert Run(Same, EMPTY, second) == State(PUBLISHED, map[0 := Linked(5), 1 := Done(Success(false))]);
    RunOneMore(Same, EMPTY, second, Act(0, GO.(fault := true)));
    var third := second + [Act(0, GO.(fault := true))];
    assert Run(Same, EMPTY, third).PhaseOf(0) == RollingBack(5, Failed);
    assert Run(Same, EMPTY, third).disk == PUBLISHED && Run(Same, EMPTY, third).PhaseOf(1) == Done(Success(false));
    RunOneMore(Same, EMPTY, third, Act(0, GO));
    actions := third + [Act(0, GO)];
  }

  /** If someone else removes the temporary name, the inode number can be reused, and the rollback
      deletes a file that is not the writer's. */
  lemma UnpinnedRollbackRemovesForeignFile() returns (actions: seq<Action>)
    ensures FreshStart(EMPTY)
    ensures forall i :: 0 <= i < |actions| && actions[i].Disturb? && !SparesTemps(actions[i].act) ==>
      actions[i].act == Remove(Temp(0))
    ensures var before := Run(Same, EMPTY, actions);
      && before.disk.Has(Target) && before.disk.At(Target).owner == Outsider
      && Target !in Step(Same, before, Act(0, GO)).disk.names
  {
    PublicationRuns();
    hide Run;
    var first := Publication();
    var unpin, clear, plant := Disturb(Remove(Temp(0))), Disturb(Remove(Target)), Disturb(Replace(Target, 5, [9]));
    RunOneMore(Same, EMPTY, first, unpin);
    var second := first + [unpin];
    assert (PUBLISHED.names - {Temp(0)}) == map[Target := 5];
    RunOneMore(Same, EMPTY, second, clear);
    var third := second + [clear];
    assert Run(Same, EMPTY, second).disk.names == map[Target := 5];
    assert (map[Target := 5] - {Target}).Keys == {};
    assert Run(Same, EMPTY, third).disk == EMPTY;
    RunOneMore(Same, EMPTY, third, plant);
    var fourth := third + [plant];
    Planted();
    assert Run(Same, EMPTY, fourth) == State(Disk(map[Target := 5], map[5 := File(Outsider, [9])]), map[0 := Linked(5)]);
    RunOneMore(Same, EMPTY, fourth, Act(0, GO));
    var fifth := fourth + [Act(0, GO)];
    assert Run(Same, EMPTY, fifth).PhaseOf(0) == Revalidating(5, true);
    RunOneMore(Same, EMPTY, fifth, Act(0, GO));
    actions := fifth + [Act(0, GO)];
    assert Run(Same, EMPTY, actions).PhaseOf(0) == RollingBack(5, Conflict);
  }

  lemma Planted()
    ensures EMPTY.Create(Target, 5, File(Outsider, [9])) == Disk(map[Target := 5], map[5 := File(Outsider, [9])])
  {
    var names := map[Target := 5];
    assert 5 in names.Values by { assert names[Target] == 5; }
    assert EMPTY.Create(Target, 5, File(Outsider, [9])).names == names;
    assert EMPTY.Create(Target, 5, File(Outsider, [9])).files == map[5 := File(Outsider, [9])];
  }
}
