/** Write-once publication by hard link, one file-system call of one writer at a time. */
module WriteOnce {
  // The directory. An inode number is free again as soon as no name refers to it.

  datatype Name = Target | Temp(writer: nat) | Other(k: nat)

  datatype Owner = Writer(id: nat) | Outsider

  datatype File = File(owner: Owner, bytes: seq<int>)

  datatype Disk = Disk(names: map<Name, nat>, files: map<nat, File>)
  {
    /** Every name refers to a file and every file has a name. */
    ghost predicate Consistent() {
      files.Keys == names.Values
    }

    predicate Has(name: Name) {
      name in names && names[name] in files
    }

    function At(name: Name): File
      requires Has(name)
    {
      files[names[name]]
    }

    function WithNames(changed: map<Name, nat>): Disk {
      Disk(changed, map n | n in files && n in changed.Values :: files[n])
    }

    function Unlink(name: Name): Disk {
      WithNames(names - {name})
    }

    function Create(name: Name, number: nat, file: File): Disk {
      Disk(names[name := number], files[number := file]).WithNames(names[name := number])
    }

    function Link(name: Name, number: nat): Disk {
      WithNames(names[name := number])
    }

    /** The identity check and the removal, taken as one step. */
    function UnlinkOwned(name: Name, number: nat): Disk {
      if name in names && names[name] == number then Unlink(name) else this
    }

    function Append(number: nat, more: seq<int>): Disk {
      if number in files then this.(files := files[number := File(files[number].owner, files[number].bytes + more)])
      else this
    }
  }

  // One writer.

  datatype Outcome = Success(created: bool) | Conflict | Failed

  datatype Phase =
    | Checking
    | Staging
    | Writing(number: nat, offset: nat)
    | Linking(number: nat)
    | Existing(number: nat)
    | Dropping(number: nat)
    | Linked(number: nat)
    | Revalidating(number: nat, created: bool)
    | RollingBack(number: nat, outcome: Outcome)
    | Cleaning(number: nat, outcome: Outcome)
    | Done(outcome: Outcome)
  {
    /** The writer still holds its staged file by its temporary name. */
    predicate Pinning() {
      Writing? || Linking? || Existing? || Dropping? || Linked? || (Revalidating? && created) || RollingBack?
    }

    /** The writer has not staged its file yet. */
    predicate Unstaged() {
      Checking? || Staging?
    }

    /** The writer may have let go of its staged file, or failed to. */
    predicate LettingGo() {
      (Revalidating? && !created) || Cleaning?
    }

    /** The writer has published and not given up. */
    predicate Publishing() {
      Linked? || (Revalidating? && created) || ((Cleaning? || Done?) && outcome == Success(true))
    }

    /** The writer knows that the target holds its bytes. */
    predicate Confirmed() {
      Linked? || Dropping? || Revalidating? || ((Cleaning? || Done?) && outcome.Success?)
    }
  }

  function Matches(disk: Disk, data: seq<int>): bool {
    disk.Has(Target) && disk.At(Target).bytes == data
  }

  function Smaller(a: nat, b: nat): nat {
    if a <= b then a else b
  }

  /** `number` is the inode the file system hands out, `size` how much one write takes, and `fault`
      an I/O error in this step. An error while a name is being removed leaves the name, and nobody is
      told. An error while a file is being staged leaves the file behind if it came after the creation,
      that is if `size` is positive. */
  datatype Move = Move(number: nat, size: nat, fault: bool)

  function NextPhase(disk: Disk, data: seq<int>, w: nat, phase: Phase, move: Move): Phase {
    match phase
    case Checking =>
      if move.fault then Done(Failed)
      else if Target !in disk.names then Staging
      else Done(if Matches(disk, data) then Success(false) else Conflict)
    case Staging =>
      if move.fault then Done(Failed)
      else if move.number in disk.files then Staging
      else Writing(move.number, 0)
    case Writing(number, offset) =>
      if move.fault then Cleaning(number, Failed)
      else if offset < |data| then
        if move.size == 0 then Cleaning(number, Failed)
        else Writing(number, offset + Smaller(move.size, |data| - offset))
      else if number in disk.files && |disk.files[number].bytes| == |data| then Linking(number)
      else Cleaning(number, Failed)
    case Linking(number) =>
      if move.fault || Temp(w) !in disk.names || disk.names[Temp(w)] != number then Cleaning(number, Failed)
      else if Target in disk.names then Existing(number)
      else Linked(number)
    case Existing(number) =>
      if move.fault || !disk.Has(Target) then Cleaning(number, Failed)
      else if Matches(disk, data) then Dropping(number)
      else Cleaning(number, Conflict)
    case Dropping(number) => Revalidating(number, false)
    case Linked(number) =>
      if move.fault || Target !in disk.names || disk.names[Target] != number then RollingBack(number, Failed)
      else Revalidating(number, true)
    case Revalidating(number, created) =>
      if !move.fault && Matches(disk, data) then Cleaning(number, Success(created))
      else
        var outcome := if move.fault || !disk.Has(Target) then Failed else Conflict;
        if created then RollingBack(number, outcome) else Cleaning(number, outcome)
    case RollingBack(number, outcome) => Cleaning(number, outcome)
    case Cleaning(_, outcome) => Done(outcome)
    case Done(_) => phase
  }

  function NextDisk(disk: Disk, data: seq<int>, w: nat, phase: Phase, move: Move): Disk {
    match phase
    case Staging =>
      if move.number in disk.files || (move.fault && move.size == 0) then disk
      else disk.Create(Temp(w), move.number, File(Writer(w), []))
    case Writing(number, offset) =>
      if move.fault || offset >= |data| then disk
      else disk.Append(number, data[offset..offset + Smaller(move.size, |data| - offset)])
    case Linking(number) =>
      if NextPhase(disk, data, w, phase, move).Linked? then disk.Link(Target, number) else disk
    case Dropping(number) => if move.fault then disk else disk.UnlinkOwned(Temp(w), number)
    case RollingBack(number, _) => if move.fault then disk else disk.UnlinkOwned(Target, number)
    case Cleaning(number, _) => if move.fault then disk else disk.UnlinkOwned(Temp(w), number)
    case _ => disk
  }

  // What else may happen to the directory.

  datatype Foreign =
    | Replace(name: Name, number: nat, bytes: seq<int>)
    | Relink(name: Name, to: Name)
    | Remove(name: Name)
    | Scribble(number: nat, bytes: seq<int>)

  function Disturbed(disk: Disk, act: Foreign): Disk {
    match act
    case Replace(name, number, bytes) =>
      if number in disk.files then disk else disk.Create(name, number, File(Outsider, bytes))
    case Relink(name, to) => if to in disk.names then disk.Link(name, disk.names[to]) else disk
    case Remove(name) => disk.Unlink(name)
    case Scribble(number, bytes) =>
      if number in disk.files then disk.(files := disk.files[number := File(disk.files[number].owner, bytes)]) else disk
  }

  /** The writers' temporary names are left alone. */
  predicate SparesTemps(act: Foreign) {
    match act
    case Replace(name, _, _) => !name.Temp?
    case Relink(name, _) => !name.Temp?
    case Remove(name) => !name.Temp?
    case Scribble(_, _) => true
  }

  // Runs.

  datatype Action = Act(w: nat, move: Move) | Disturb(act: Foreign)

  datatype State = State(disk: Disk, phases: map<nat, Phase>)
  {
    function PhaseOf(w: nat): Phase {
      if w in phases then phases[w] else Checking
    }
  }

  function Step(data: nat -> seq<int>, s: State, action: Action): State {
    match action
    case Act(w, move) =>
      State(NextDisk(s.disk, data(w), w, s.PhaseOf(w), move),
            s.phases[w := NextPhase(s.disk, data(w), w, s.PhaseOf(w), move)])
    case Disturb(act) => State(Disturbed(s.disk, act), s.phases)
  }

  function Run(data: nat -> seq<int>, disk: Disk, actions: seq<Action>): State {
    if actions == [] then State(disk, map[])
    else Step(data, Run(data, disk, actions[..|actions| - 1]), actions[|actions| - 1])
  }

  /** A directory that holds no leftovers under the temporary names to be used, and no file of the
      writers to come. */
  ghost predicate FreshStart(disk: Disk) {
    && disk.Consistent()
    && (forall w :: Temp(w) !in disk.names)
    && (forall n :: n in disk.files ==> disk.files[n].owner == Outsider)
  }

  // Against any interference that spares the temporary names.

  predicate Pinned(disk: Disk, w: nat, number: nat) {
    && Temp(w) in disk.names && disk.names[Temp(w)] == number
    && number in disk.files && disk.files[number].owner == Writer(w)
  }

  ghost predicate PhaseSafe(disk: Disk, w: nat, phase: Phase) {
    && (phase.Pinning() ==> Pinned(disk, w, phase.number))
    && (phase.Unstaged() ==> Temp(w) !in disk.names)
    && (phase.LettingGo() ==> Temp(w) in disk.names ==> Pinned(disk, w, phase.number))
    && (phase.RollingBack? ==> !phase.outcome.Success?)
  }

  ghost predicate Safe(s: State) {
    s.disk.Consistent() && forall w :: PhaseSafe(s.disk, w, s.PhaseOf(w))
  }

  lemma PinSurvives(disk: Disk, w: nat, number: nat, name: Name, other: nat, file: File)
    requires Pinned(disk, w, number) && name != Temp(w)
    ensures Pinned(disk.Unlink(name), w, number)
    ensures other !in disk.files ==> Pinned(disk.Create(name, other, file), w, number)
    ensures Pinned(disk.Link(name, other), w, number)
  {
    assert (disk.names - {name})[Temp(w)] == number;
    assert disk.names[name := other][Temp(w)] == number;
  }

  lemma ConsistentSurvives(disk: Disk, name: Name, other: nat, file: File)
    requires disk.Consistent()
    ensures disk.Unlink(name).Consistent()
    ensures disk.Create(name, other, file).Consistent()
    ensures other in disk.files ==> disk.Link(name, other).Consistent()
  {
  }

  lemma NewFilePinned(disk: Disk, w: nat, number: nat, bytes: seq<int>)
    ensures Pinned(disk.Create(Temp(w), number, File(Writer(w), bytes)), w, number)
  {
    assert disk.names[Temp(w) := number][Temp(w)] == number;
  }

  /** A writer's step does not reach another writer's staged file. */
  lemma OthersSafe(disk: Disk, data: seq<int>, w: nat, phase: Phase, move: Move, u: nat, mine: Phase)
    requires u != w && disk.Consistent() && PhaseSafe(disk, u, mine)
    ensures PhaseSafe(NextDisk(disk, data, w, phase, move), u, mine)
  {
    if mine.Pinning() {
      PinSurvives(disk, u, mine.number, Temp(w), move.number, File(Writer(w), []));
      PinSurvives(disk, u, mine.number, Target, if phase.Linking? then phase.number else 0, File(Writer(w), []));
    }
  }

  lemma UnlinkRemoves(disk: Disk, name: Name, other: Name)
    ensures name !in disk.Unlink(name).names
    ensures other !in disk.names ==> other !in disk.Unlink(name).names
  {
  }

  lemma OwnConsistent(disk: Disk, data: seq<int>, w: nat, phase: Phase, move: Move)
    requires disk.Consistent() && PhaseSafe(disk, w, phase)
    ensures NextDisk(disk, data, w, phase, move).Consistent()
  {
    ConsistentSurvives(disk, Temp(w), move.number, File(Writer(w), []));
    ConsistentSurvives(disk, Target, if phase.Linking? then phase.number else 0, File(Writer(w), []));
    if phase.Writing? {
      AppendSafe(disk, w, phase.number, data, phase.offset, move);
    }
    hide Disk.Unlink, Disk.Create, Disk.Link, Disk.Append, Disk.Consistent;
  }

  lemma OwnSafe(disk: Disk, data: seq<int>, w: nat, phase: Phase, move: Move)
    requires disk.Consistent() && PhaseSafe(disk, w, phase)
    ensures PhaseSafe(NextDisk(disk, data, w, phase, move), w, NextPhase(disk, data, w, phase, move))
  {
    hide Disk.Consistent;
    UnlinkRemoves(disk, Temp(w), Temp(w));
    NewFilePinned(disk, w, move.number, []);
    if phase.Pinning() {
      PinSurvives(disk, w, phase.number, Target, phase.number, File(Writer(w), []));
    }
    if phase.Writing? {
      AppendSafe(disk, w, phase.number, data, phase.offset, move);
    }
    hide Disk.Unlink, Disk.Create, Disk.Link, Disk.Append, Pinned, Matches;
  }

  lemma AppendSafe(disk: Disk, w: nat, number: nat, data: seq<int>, offset: nat, move: Move)
    requires disk.Consistent() && Pinned(disk, w, number)
    ensures var more := if offset < |data| then data[offset..offset + Smaller(move.size, |data| - offset)] else [];
      disk.Append(number, more).Consistent() && Pinned(disk.Append(number, more), w, number)
  {
  }

  lemma DisturbedSafe(disk: Disk, act: Foreign, w: nat, phase: Phase)
    requires SparesTemps(act) && disk.Consistent() && PhaseSafe(disk, w, phase)
    ensures Disturbed(disk, act).Consistent() && PhaseSafe(Disturbed(disk, act), w, phase)
  {
  }

  /** The environment never touches a temporary name. */
  ghost predicate Spared(actions: seq<Action>) {
    forall i :: 0 <= i < |actions| && actions[i].Disturb? ==> SparesTemps(actions[i].act)
  }

  lemma StepSafe(data: nat -> seq<int>, s: State, action: Action)
    requires Safe(s) && (action.Disturb? ==> SparesTemps(action.act))
    ensures Safe(Step(data, s, action))
  {
    hide PhaseSafe, NextDisk, NextPhase, Disturbed, SparesTemps, Disk.Consistent;
    match action
    case Act(w, move) =>
      OwnConsistent(s.disk, data(w), w, s.PhaseOf(w), move);
      OwnSafe(s.disk, data(w), w, s.PhaseOf(w), move);
      forall u: nat ensures PhaseSafe(Step(data, s, action).disk, u, Step(data, s, action).PhaseOf(u)) {
        if u != w {
          OthersSafe(s.disk, data(w), w, s.PhaseOf(w), move, u, s.PhaseOf(u));
        }
      }
    case Disturb(act) =>
      DisturbedSafe(s.disk, act, 0, s.PhaseOf(0));
      forall u: nat ensures PhaseSafe(Disturbed(s.disk, act), u, Step(data, s, action).PhaseOf(u)) {
        DisturbedSafe(s.disk, act, u, s.PhaseOf(u));
      }
  }

  lemma {:induction false} RunSafe(data: nat -> seq<int>, disk: Disk, actions: seq<Action>)
    requires FreshStart(disk) && Spared(actions)
    ensures Safe(Run(data, disk, actions))
  {
    if actions != [] {
      RunSafe(data, disk, actions[..|actions| - 1]);
      StepSafe(data, Run(data, disk, actions[..|actions| - 1]), actions[|actions| - 1]);
    }
  }

  /** Whatever happens around it, a writer never redirects an existing name, and removes a name only
      while that name refers to the file the writer itself created: its temporary name pins the inode
      number that the rollback compares. */
  lemma RemovesOnlyItsOwn(data: nat -> seq<int>, disk: Disk, actions: seq<Action>, w: nat, move: Move, name: Name)
    requires FreshStart(disk) && Spared(actions)
    requires name in Run(data, disk, actions).disk.names
    ensures var before, after := Run(data, disk, actions), Step(data, Run(data, disk, actions), Act(w, move));
      && before.disk.Has(name)
      && (if name in after.disk.names then after.disk.names[name] == before.disk.names[name]
          else before.disk.At(name).owner == Writer(w))
  {
    RunSafe(data, disk, actions);
    hide Run;
    var before := Run(data, disk, actions);
    assert before.disk.Consistent() && PhaseSafe(before.disk, w, before.PhaseOf(w));
  }
}
