/** The refresh of a workspace: a new tree is staged beside it, the old tree is renamed away and kept, the new
    one is renamed into place. The journal and a crash between any two steps decide how it goes on. */
module WorkspaceSwitch {
  import opened InstallCore
  import opened Wrappers

  // ---------------------------------------------------------------- what is observed

  datatype Row = RetainNotStarted | BetweenRenames | BindDone | StageIncomplete | StageLost | Foreign

  /** The row of the reconciliation matrix for the recorded identities and the three observed ones: of the
      workspace, the retained generation and the stage. */
  function Reconcile(before: Option<nat>, after: Option<nat>, work: Option<nat>, retained: Option<nat>,
                     stage: Option<nat>): Row
  {
    if before.None? then Foreign
    else if work == before && retained.None? then
      if stage.Some? && stage == after then RetainNotStarted else StageIncomplete
    else if work.None? && retained == before then
      if stage.Some? && stage == after then BetweenRenames
      else if stage.None? then StageLost
      else Foreign
    else if work.Some? && work == after && retained == before && stage.None? then BindDone
    else Foreign
  }

  /** Tree identities at the three names; `whole` are the complete trees. */
  datatype Disk = Disk(work: Option<nat>, retained: Option<nat>, stage: Option<nat>, whole: set<nat>, manifest: bool,
                       nextId: nat)

  datatype State = NotStarted | Unknown | Complete

  /** The states of the four workspace effects, the identities that their evidence records, and the end. */
  datatype Journal = Journal(stage: State, retain: State, bind: State, manifest: State, before: Option<nat>,
                             after: Option<nat>, kept: bool, closed: bool)

  function RowOf(d: Disk, j: Journal): Row {
    Reconcile(j.before, j.after, d.work, d.retained, d.stage)
  }

  /** Retain started and bind not complete, as the operation index sees it. */
  predicate InSwitch(j: Journal) {
    j.retain != NotStarted && j.bind != Complete
  }

  // ---------------------------------------------------------------- invariant

  predicate Home(d: Disk, origin: nat) {
    d.work == Some(origin) && d.retained.None?
  }

  predicate Between(d: Disk, j: Journal, origin: nat) {
    d.work.None? && d.retained == Some(origin) && d.stage in {None, j.after}
  }

  predicate Bound(d: Disk, j: Journal, origin: nat) {
    d.work.Some? && d.work == j.after && d.retained == Some(origin) && d.stage.None?
  }

  predicate Ordered(j: Journal) {
    && (j.retain != NotStarted ==> j.stage == Complete)
    && (j.bind != NotStarted ==> j.retain == Complete)
    && (j.manifest != NotStarted ==> j.bind == Complete)
  }

  predicate Identities(d: Disk, j: Journal, origin: nat) {
    && origin < d.nextId && (forall id <- d.whole :: id < d.nextId)
    && (d.stage.Some? ==> d.stage.value < d.nextId && d.stage.value != origin)
    && (j.after.Some? ==> j.after.value < d.nextId && j.after.value != origin)
    && (j.before.Some? ==> j.before.value == origin)
    && (j.stage != NotStarted && !j.kept ==> j.before.Some?)
    && (j.stage == Complete && !j.kept ==> j.after.Some?)
  }

  /** What every run keeps: the tree `origin` is at the workspace or retained, and the journal tells where. */
  predicate Kept(d: Disk, j: Journal, origin: nat) {
    && Identities(d, j, origin)
    && if j.kept then
         Home(d, origin) && j.stage == j.retain == j.bind == j.manifest == Complete
       else
         && Ordered(j)
         && (Home(d, origin) || Between(d, j, origin) || Bound(d, j, origin))
         && (Between(d, j, origin) ==> InSwitch(j))
         && (Bound(d, j, origin) ==> j.bind != NotStarted)
         && (j.bind == Complete ==> Bound(d, j, origin))
         && (d.manifest ==> j.manifest != NotStarted)
         && (j.stage == NotStarted ==> d.stage.None?)
         && (Home(d, origin) && j.stage == Complete && j.retain == NotStarted ==> d.stage in {None, j.after})
  }

  /** The recorded stage is at its place until it is bound. */
  predicate StagePresent(d: Disk, j: Journal, origin: nat) {
    j.stage == Complete && (Between(d, j, origin) || (Home(d, origin) && j.retain == NotStarted)) ==>
      d.stage.Some? && d.stage == j.after
  }

  /** A recorded stage that is still there is the whole tree, and so is a bound one. */
  predicate StageWhole(d: Disk, j: Journal, origin: nat) {
    && (j.stage == Complete && d.stage.Some? && d.stage == j.after ==> d.stage.value in d.whole)
    && (Bound(d, j, origin) ==> d.work.value in d.whole)
  }

  /** From here a resume ends with the new tree bound. */
  predicate CanGoOn(d: Disk, j: Journal, origin: nat) {
    || j.kept || Bound(d, j, origin)
    || (Between(d, j, origin) && d.stage.Some?)
    || (Home(d, origin) && j.retain != Complete
        && (j.stage == Complete && j.retain == NotStarted ==> d.stage.Some?))
  }

  /** A step on the way neither helps nor harms: the same ends stay in reach, with the same tree. */
  predicate SameProspects(d: Disk, j: Journal, d2: Disk, j2: Journal, origin: nat) {
    && (CanGoOn(d, j, origin) <==> CanGoOn(d2, j2, origin))
    && (CanGoOn(d, j, origin) ==> (StageWhole(d, j, origin) <==> StageWhole(d2, j2, origin)))
  }

  /** The row that the protocol reads in its own states: never `Foreign`, and the workspace is absent exactly
      between the renames. */
  lemma RowsOfOwnStates(d: Disk, j: Journal, origin: nat)
    requires Kept(d, j, origin) && !j.kept && j.stage != NotStarted
    ensures RowOf(d, j) != Foreign
    ensures RowOf(d, j) in {BetweenRenames, StageLost} <==> d.work.None?
    ensures RowOf(d, j) == BindDone <==> Bound(d, j, origin)
    ensures StagePresent(d, j, origin) && j.stage == Complete ==> RowOf(d, j) != StageLost
    ensures d.work.None? ==> InSwitch(j)
    ensures d.work == Some(origin) || d.retained == Some(origin)
  {
  }

  // ---------------------------------------------------------------- the operation

  /** `Refused`: the command stops with a message and the operation stays open. */
  datatype End = Finished | Refused | Stopped

  class Switch {
    const origin: nat
    var disk: Disk
    var journal: Journal
    var faults: seq<Fault>
    /** A keep began to remove a recorded stage. */
    ghost var cut: bool

    ghost predicate Safe()
      reads this
    {
      && Kept(disk, journal, origin)
      && (!cut ==> StagePresent(disk, journal, origin) && StageWhole(disk, journal, origin))
    }

    constructor (origin: nat, nextId: nat, faults: seq<Fault>)
      requires origin < nextId
      ensures Safe() && !cut && this.origin == origin && this.faults == faults
      ensures disk == Disk(Some(origin), None, None, {}, false, nextId)
      ensures journal == Journal(NotStarted, NotStarted, NotStarted, NotStarted, None, None, false, false)
    {
      this.origin, this.faults, cut := origin, faults, false;
      disk := Disk(Some(origin), None, None, {}, false, nextId);
      journal := Journal(NotStarted, NotStarted, NotStarted, NotStarted, None, None, false, false);
    }

    /** One atomic step on the disk. */
    method Act(next: Disk) returns (s: Status)
      modifies this`disk, this`faults
      ensures s == Verdict(old(faults)) && faults == Rest(old(faults))
      ensures disk == if Happens(old(faults)) then next else old(disk)
    {
      s := Verdict(faults);
      if Happens(faults) {
        disk := next;
      }
      faults := Rest(faults);
    }

    /** One journal generation; the process never goes on past one it could not write. */
    method Save(next: Journal) returns (s: Status)
      modifies this`journal, this`faults
      ensures s == Verdict(old(faults)) && faults == Rest(old(faults))
      ensures journal == if Happens(old(faults)) then next else old(journal)
    {
      s := Verdict(faults);
      if Happens(faults) {
        journal := next;
      }
      faults := Rest(faults);
    }

    /** Removes a staged tree, which is gone only after its content: a stop in between leaves a damaged tree. */
    method RemoveStage() returns (s: Status)
      requires Safe() && Home(disk, origin)
      requires !cut ==> journal.stage != Complete || disk.stage != journal.after
      modifies this`disk, this`faults
      ensures Safe() && Home(disk, origin)
      ensures disk == old(disk).(stage := disk.stage, whole := disk.whole) && disk.stage in {None, old(disk).stage}
      ensures s.Done? ==> disk.stage.None?
      ensures old(disk).stage.None? ==> s.Done? && disk == old(disk) && faults == old(faults)
      ensures old(faults) == [] ==> faults == [] && s.Done?
      ensures old(disk).stage.Some? && old(faults) == [Proceed, Crash] ==>
                && s == Halted && disk == old(disk).(whole := old(disk).whole - {old(disk).stage.value})
                && faults == []
    {
      if disk.stage.None? {
        return Done;
      }
      s := Act(disk.(whole := disk.whole - {disk.stage.value}));
      if s.IsFailure() { return; }
      s := Act(disk.(stage := None));
    }

    /** W1: a new tree under the private stage name. */
    method BuildStage() returns (s: Status)
      requires Safe() && Home(disk, origin) && !journal.kept
      requires journal.stage == Complete ==> disk.stage != journal.after && journal.retain == Unknown
      requires journal.stage != NotStarted
      modifies this`disk, this`faults
      ensures Safe() && Home(disk, origin)
      ensures disk.manifest == old(disk).manifest
      ensures s.Done? ==> disk.stage.Some? && disk.stage.value in disk.whole
      ensures journal.stage == Complete ==> disk.stage != journal.after
      ensures old(disk).stage.None? && Proceeds(old(faults), 2) ==>
                s.Done? && faults == old(faults)[2..] && disk.work == old(disk).work
                    && disk.retained == old(disk).retained
      ensures old(faults) == [] ==> faults == [] && s.Done?
    {
      s := RemoveStage();
      if s.IsFailure() { return; }
      s := Act(disk.(stage := Some(disk.nextId), nextId := disk.nextId + 1));
      if s.IsFailure() { return; }
      s := Act(disk.(whole := disk.whole + {disk.stage.value}));
    }

    /** Runs W1 unless the journal records it complete; a stage left unknown is observed first. */
    method RunStage() returns (e: End)
      requires Safe() && !journal.kept
      modifies this`disk, this`journal, this`faults
      ensures Safe() && !journal.kept
      ensures e == Finished ==> journal.stage == Complete
      ensures journal.closed == old(journal).closed
      ensures e == Finished ==> SameProspects(old(disk), old(journal), disk, journal, origin)
      ensures old(journal).stage == NotStarted && Proceeds(old(faults), 4) ==>
                e == Finished && faults == old(faults)[4..] && AtRetain(disk, journal, origin)
      ensures old(faults) == [] ==> faults == [] && e == Finished
    {
      hide Kept, StagePresent, StageWhole, CanGoOn;
      if journal.stage == Complete {
        return Finished;
      }
      if journal.stage == Unknown && disk.stage.Some? && disk.stage.value in disk.whole {
        e := RecordStage();
      } else {
        e := StageAnew();
      }
    }

    method RecordStage() returns (e: End)
      requires Safe() && !journal.kept && journal.stage == Unknown && disk.stage.Some? && disk.stage.value in disk.whole
      modifies this`journal, this`faults
      ensures Safe() && !journal.kept && e != Refused
      ensures e == Finished ==> journal.stage == Complete
      ensures journal.closed == old(journal).closed
      ensures e == Finished ==> SameProspects(disk, old(journal), disk, journal, origin)
      ensures old(faults) == [] ==> faults == [] && e == Finished
    {
      var s := Save(journal.(stage := Complete, after := disk.stage));
      e := if s.Done? then Finished else Stopped;
    }

    method StageAnew() returns (e: End)
      requires Safe() && !journal.kept && journal.stage != Complete
      modifies this`disk, this`journal, this`faults
      ensures Safe() && !journal.kept && e != Refused
      ensures e == Finished ==> journal.stage == Complete
      ensures journal.closed == old(journal).closed
      ensures e == Finished ==> SameProspects(old(disk), old(journal), disk, journal, origin)
      ensures old(journal).stage == NotStarted && Proceeds(old(faults), 4) ==>
                e == Finished && faults == old(faults)[4..] && AtRetain(disk, journal, origin)
      ensures old(faults) == [] ==> faults == [] && e == Finished
    {
      var s := Save(journal.(stage := Unknown, before := disk.work, after := None));
      if s.IsFailure() {
        return Stopped;
      }
      s := BuildStage();
      if s.IsFailure() {
        return Stopped;
      }
      s := Save(journal.(stage := Complete, after := disk.stage));
      e := if s.Done? then Finished else Stopped;
    }

    /** Runs W2 unless the journal records it complete; one left unknown is reconciled first. */
    method RunRetain() returns (e: End)
      requires Safe() && !journal.kept && journal.stage == Complete
      modifies this`disk, this`journal, this`faults
      ensures Safe() && !journal.kept && journal.stage == Complete
      ensures e == Finished ==> journal.retain == Complete
      ensures e == Finished ==> SameProspects(old(disk), old(journal), disk, journal, origin)
      ensures old(journal).retain == NotStarted && Next(old(faults)) == Crash ==>
                e == Stopped && faults == Rest(old(faults)) && disk == old(disk) && journal == old(journal)
      ensures old(faults) == [] ==> faults == []
      ensures old(faults) == [] && CanGoOn(old(disk), old(journal), origin) ==> e == Finished
    {
      if journal.retain == Complete {
        return Finished;
      }
      var s: Status;
      if journal.retain == Unknown {
        var row := RowOf(disk, journal);
        if row in {BetweenRenames, BindDone} {
          s := Save(journal.(retain := Complete));
          return if s.Done? then Finished else Stopped;
        }
        if row == StageIncomplete {
          e := Restage();
          if e != Finished {
            return;
          }
        } else if row != RetainNotStarted {
          return Refused;
        }
      }
      e := Retain();
    }

    /** The redo of W2 without a usable stage: under the intent of W2 the stage is built again. */
    method Restage() returns (e: End)
      requires Safe() && !journal.kept && journal.stage == Complete && journal.retain == Unknown
      requires RowOf(disk, journal) == StageIncomplete
      modifies this`disk, this`journal, this`faults
      ensures Safe() && !journal.kept && Home(disk, origin)
      ensures journal == old(journal).(after := journal.after)
      ensures e == Finished ==> disk.stage.Some? && disk.stage == journal.after && disk.stage.value in disk.whole
      ensures old(faults) == [] ==> faults == [] && e == Finished
    {
      var s := BuildStage();
      if s.IsFailure() {
        return Stopped;
      }
      s := Save(journal.(after := disk.stage));
      e := if s.Done? then Finished else Stopped;
    }

    /** W2: the old workspace becomes the retained generation, in one rename that replaces nothing. The stage
        is not looked at. */
    method Retain() returns (e: End)
      requires Safe() && !journal.kept && journal.stage == Complete && journal.retain != Complete
      requires Home(disk, origin) && disk.stage in {None, journal.after} && (!cut ==> disk.stage.Some?)
      modifies this`disk, this`journal, this`faults
      ensures Safe() && !journal.kept && journal.stage == Complete && journal.after == old(journal).after
      ensures e == Finished ==>
                journal.retain == Complete && Between(disk, journal, origin) && journal.bind == NotStarted
      ensures disk.stage == old(disk).stage && disk.whole == old(disk).whole
      ensures old(journal).retain == NotStarted && Next(old(faults)) == Crash ==>
                e == Stopped && faults == Rest(old(faults)) && disk == old(disk) && journal == old(journal)
      ensures old(faults) == [] ==> faults == [] && e == Finished
    {
      var s := Save(journal.(retain := Unknown));
      if s.IsFailure() {
        return Stopped;
      }
      if disk.work != journal.before || disk.retained.Some? {
        return Refused;
      }
      s := Act(disk.(work := None, retained := disk.work));
      if s.IsFailure() {
        return Stopped;
      }
      s := Save(journal.(retain := Complete));
      e := if s.Done? then Finished else Stopped;
    }

    /** Runs W3 unless the journal records it complete; one left unknown is reconciled first. */
    method RunBind() returns (e: End)
      requires Safe() && !journal.kept && journal.retain == Complete
      modifies this`disk, this`journal, this`faults
      ensures Safe() && !journal.kept && journal.retain == Complete
      ensures e == Finished ==> journal.bind == Complete && Bound(disk, journal, origin)
      ensures e == Finished ==>
                && CanGoOn(old(disk), old(journal), origin)
                && (disk.work.value in disk.whole <==> StageWhole(old(disk), old(journal), origin))
      ensures old(faults) == [] ==> faults == []
      ensures old(faults) == [] ==> (e == Finished <==> CanGoOn(old(disk), old(journal), origin))
    {
      if journal.bind == Complete {
        return Finished;
      }
      var s: Status;
      if journal.bind == Unknown {
        var row := RowOf(disk, journal);
        if row == BindDone {
          s := Save(journal.(bind := Complete));
          return if s.Done? then Finished else Stopped;
        }
        if row != BetweenRenames {
          return Refused;
        }
      }
      e := Bind();
    }

    /** W3: the staged tree becomes the workspace; its identity is compared, not its content. */
    method Bind() returns (e: End)
      requires Safe() && !journal.kept && journal.retain == Complete && journal.bind != Complete
      requires journal.bind == Unknown ==> RowOf(disk, journal) == BetweenRenames
      modifies this`disk, this`journal, this`faults
      ensures Safe() && !journal.kept && journal.retain == Complete
      ensures e == Finished ==> journal.bind == Complete && Bound(disk, journal, origin)
      ensures e == Finished ==>
                && CanGoOn(old(disk), old(journal), origin)
                && (disk.work.value in disk.whole <==> StageWhole(old(disk), old(journal), origin))
      ensures old(faults) == [] ==> faults == [] && (e == Finished <==> CanGoOn(old(disk), old(journal), origin))
    {
      var s := Save(journal.(bind := Unknown));
      if s.IsFailure() {
        return Stopped;
      }
      if disk.work.Some? || disk.stage != journal.after {
        return Refused;
      }
      s := Act(disk.(work := disk.stage, stage := None));
      if s.IsFailure() {
        return Stopped;
      }
      s := Save(journal.(bind := Complete));
      e := if s.Done? then Finished else Stopped;
    }

    /** Runs W4: the source manifest of the bound tree. */
    method RunManifest() returns (e: End)
      requires Safe() && !journal.kept && journal.bind == Complete
      modifies this`disk, this`journal, this`faults
      ensures Safe() && !journal.kept && journal.bind == Complete
      ensures disk == old(disk).(manifest := disk.manifest) && journal.after == old(journal).after
      ensures e == Finished ==> journal.manifest == Complete
      ensures old(journal).manifest != Complete && e == Finished ==> disk.manifest
      ensures old(faults) == [] ==> faults == [] && e == Finished
    {
      if journal.manifest == Complete {
        return Finished;
      }
      var s: Status;
      if journal.manifest == Unknown && disk.manifest {
        s := Save(journal.(manifest := Complete));
        return if s.Done? then Finished else Stopped;
      }
      s := Save(journal.(manifest := Unknown));
      if s.IsFailure() {
        return Stopped;
      }
      s := Act(disk.(manifest := true));
      if s.IsFailure() {
        return Stopped;
      }
      s := Save(journal.(manifest := Complete));
      e := if s.Done? then Finished else Stopped;
    }

    /** The syncing point of a first run or a plain resume: W1 to W4, then the end. */
    method GoOn() returns (e: End)
      requires Safe() && !journal.closed
      modifies this`disk, this`journal, this`faults
      ensures Safe() && cut == old(cut)
      ensures e == Finished ==> journal.closed && CanGoOn(old(disk), old(journal), origin)
      ensures journal.kept == old(journal).kept
      ensures e == Finished && !journal.kept ==>
                && Bound(disk, journal, origin)
                && (disk.work.value in disk.whole <==> StageWhole(old(disk), old(journal), origin))
      ensures old(journal).stage == NotStarted && Proceeds(old(faults), 4) && |old(faults)| > 4
              && old(faults)[4] == Crash ==>
                e == Stopped && faults == old(faults)[5..] && AtRetain(disk, journal, origin)
                    && journal.closed == old(journal).closed
      ensures old(faults) == [] ==> (e == Finished <==> CanGoOn(old(disk), old(journal), origin))
    {
      assert journal.kept ==> CanGoOn(disk, journal, origin);
      hide Kept, CanGoOn, StagePresent, StageWhole;
      if !journal.kept {
        e := RunStage();
        if e != Finished {
          return;
        }
        e := RunRetain();
        if e != Finished {
          return;
        }
        e := RunBind();
        if e != Finished {
          return;
        }
        e := RunManifest();
        if e != Finished {
          return;
        }
      }
      e := Close();
    }

    method Close() returns (e: End)
      requires Safe() && (journal.kept || (journal.bind == Complete && journal.manifest == Complete))
      modifies this`journal, this`faults
      ensures Safe()
      ensures journal == old(journal).(closed := journal.closed) && (e == Finished ==> journal.closed)
      ensures e != Refused
      ensures old(faults) == [] ==> faults == [] && e == Finished
    {
      var s := Save(journal.(closed := true));
      e := if s.Done? then Finished else Stopped;
    }

    /** `resume --keep-workspace`: the old tree is rebound where it was moved, the own stage is removed, and the
        effects are journaled as kept. */
    method Keep() returns (e: End)
      requires Safe() && !journal.closed
      modifies this`disk, this`journal, this`faults, this`cut
      ensures Safe() && (old(cut) ==> cut)
      ensures e == Finished ==> journal.closed && journal.kept && Home(disk, origin)
      ensures e == Finished && old(journal).stage != NotStarted ==> disk.stage.None?
      ensures old(faults) == [] ==> (e == Finished <==> !old(journal).kept && !Bound(old(disk), old(journal), origin))
      ensures e == Refused ==> disk == old(disk) && journal == old(journal) && cut == old(cut)
      ensures AtRetain(old(disk), old(journal), origin) && old(faults) == [Proceed, Crash] ==>
                && e == Stopped && journal == old(journal)
                && disk == old(disk).(whole := old(disk).whole - {old(disk).stage.value}) && faults == []
    {
      if journal.bind == Complete {
        return Refused;
      }
      if journal.stage != NotStarted {
        RowsOfOwnStates(disk, journal, origin);
        if RowOf(disk, journal) == BindDone {
          return Refused;
        }
        var s := GoHome();
        if s.IsFailure() {
          return Stopped;
        }
      }
      e := CloseKept();
    }

    /** Rebinds the old tree where it was moved, and removes the own stage. */
    method GoHome() returns (s: Status)
      requires Safe() && !journal.kept && journal.stage != NotStarted && journal.bind != Complete
      requires !Bound(disk, journal, origin)
      modifies this`disk, this`faults, this`cut
      ensures Safe() && (old(cut) ==> cut)
      ensures s.Done? ==> Home(disk, origin) && disk.stage.None?
      ensures old(faults) == [] ==> faults == [] && s.Done?
      ensures AtRetain(old(disk), journal, origin) && old(faults) == [Proceed, Crash] ==>
                && s == Halted && disk == old(disk).(whole := old(disk).whole - {old(disk).stage.value})
                && faults == []
    {
      RowsOfOwnStates(disk, journal, origin);
      if RowOf(disk, journal) in {BetweenRenames, StageLost} {
        s := Rebind();
        if s.IsFailure() { return; }
      }
      if journal.stage == Complete && disk.stage == journal.after {
        cut := true;
      }
      s := RemoveStage();
    }

    method CloseKept() returns (e: End)
      requires Safe() && !journal.kept && Home(disk, origin) && disk.stage.None?
      modifies this`journal, this`faults
      ensures Safe() && e != Refused
      ensures e == Finished ==> journal.closed && journal.kept
      ensures old(faults) == [] ==> e == Finished
    {
      var s := Save(journal.(stage := Complete, retain := Complete, bind := Complete, manifest := Complete,
          kept := true));
      if s.IsFailure() {
        return Stopped;
      }
      e := Close();
    }

    /** The retained generation gets the name of the workspace back. */
    method Rebind() returns (s: Status)
      requires Safe() && !journal.kept && Between(disk, journal, origin) && journal.bind != Complete
      modifies this`disk, this`faults
      ensures Safe() && disk.stage == old(disk).stage
      ensures s.Done? ==> Home(disk, origin)
      ensures old(faults) == [] ==> faults == [] && s.Done?
    {
      s := Act(disk.(work := disk.retained, retained := None));
    }
  }

  predicate Proceeds(faults: seq<Fault>, n: nat) {
    n <= |faults| && forall i :: 0 <= i < n ==> faults[i] == Proceed
  }

  /** The stage is recorded, and nothing was moved yet. */
  predicate AtRetain(d: Disk, j: Journal, origin: nat) {
    && Home(d, origin) && !j.kept && j.stage == Complete && j.retain == NotStarted && d.stage.Some?
       && d.stage == j.after
  }

  // ---------------------------------------------------------------- whole lives

  /** A first run and any number of resumes, with a stop between any two steps of any of them. */
  method Lifetime(origin: nat, nextId: nat, faults: seq<Fault>, keeps: seq<bool>) returns (sw: Switch)
    requires origin < nextId
    ensures fresh(sw) && sw.Safe() && sw.origin == origin
    ensures sw.disk.work == Some(origin) || sw.disk.retained == Some(origin)
    ensures sw.disk.work.None? ==> InSwitch(sw.journal)
    ensures (forall i :: 0 <= i < |keeps| ==> !keeps[i]) ==>
              && (sw.disk.work.None? ==> RowOf(sw.disk, sw.journal) == BetweenRenames)
              && (sw.disk.work != Some(origin) && sw.disk.work.Some? ==> sw.disk.work.value in sw.disk.whole)
  {
    sw := new Switch(origin, nextId, faults);
    var _ := sw.GoOn();
    for k := 0 to |keeps|
      invariant fresh(sw) && sw.Safe() && sw.origin == origin
      invariant (forall i :: 0 <= i < k ==> !keeps[i]) ==> !sw.cut
    {
      if !sw.journal.closed {
        if keeps[k] {
          var _ := sw.Keep();
        } else {
          var _ := sw.GoOn();
        }
      }
    }
    if sw.disk.work.None? {
      RowsOfOwnStates(sw.disk, sw.journal, origin);
    }
  }

  /** A first run that stops after its stage was recorded, a keep that stops while it removes that stage, then a
      plain resume: the damaged tree becomes the workspace, because the way forward compares identities only. */
  method DamagedStageIsBound(origin: nat, nextId: nat) returns (sw: Switch, first: End, second: End, third: End)
    requires origin < nextId
    ensures first == second == Stopped && third == Finished
    ensures Bound(sw.disk, sw.journal, origin) && sw.journal.closed && sw.disk.work.value !in sw.disk.whole
  {
    sw := new Switch(origin, nextId, [Proceed, Proceed, Proceed, Proceed, Crash, Proceed, Crash]);
    first := sw.GoOn();
    assert sw.faults == [Proceed, Crash];
    second := sw.Keep();
    assert AtRetain(sw.disk, sw.journal, origin) && !StageWhole(sw.disk, sw.journal, origin);
    third := sw.GoOn();
  }
}
