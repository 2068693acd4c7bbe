/** One `pf install control` operation: a write-ahead journal of effects over a disk that other
    processes share, executed and resumed by an object that may die between any two disk actions. */
module ControlInstall {
  import opened InstallCore
  import opened Wrappers

  // ---------------------------------------------------------------- plan, journal, disk

  datatype Target = BootstrapConf | Record(instance: string) | Wrapper(name: string)

  /** A regular file, or anything that cannot be read as one. */
  datatype File = Readable(data: string) | Unreadable

  datatype Binding = Binding(target: Target, before: Option<string>, after: string)

  datatype Plan = Plan(bindings: seq<Binding>, selectedExisting: bool)

  ghost predicate WellFormed(p: Plan) {
    && |p.bindings| > 0
    && p.bindings[0].target == BootstrapConf
    && forall i, j :: 0 <= i < j < |p.bindings| ==> p.bindings[i].target != p.bindings[j].target
  }

  datatype EffectId = StageRelease | Smoke | PublishRelease | PreBindVerify | Bind(index: nat) | Verify
                    | RollbackMark | AbandonMark

  datatype EffectState = Intended | Complete | Reversed

  datatype Entry = Entry(state: EffectState, identity: Option<nat>)

  datatype Phase = Planned | Prepared | Validated | Switching | Verifying | RollingBack | Abandoning
                 | OperatorNeeded | Completed | Cancelled | RolledBack | Abandoned

  datatype Journal = Journal(phase: Phase, effects: map<EffectId, Entry>)

  /** A release directory: its inode, and whether it verifies against the candidate inventory. */
  datatype Tree = Tree(id: nat, whole: bool)

  datatype Disk = Disk(journal: Journal, files: map<Target, File>, staging: Option<Tree>, release: Option<Tree>,
                       aside: Option<Tree>, nextId: nat)

  predicate Terminal(ph: Phase) {
    ph in {Completed, Cancelled, RolledBack, Abandoned}
  }

  datatype Direction = GoForward | GoRollback | GoAbandon

  function DirectionOf(effects: map<EffectId, Entry>): Direction {
    if AbandonMark in effects then GoAbandon
    else if RollbackMark in effects then GoRollback
    else GoForward
  }

  predicate IsCheck(e: EffectId) {
    e in {Smoke, PreBindVerify, Verify}
  }

  function PlannedEffects(p: Plan): seq<EffectId> {
    (if p.selectedExisting then [] else [StageRelease]) + [Smoke]
    + (if p.selectedExisting then [] else [PublishRelease]) + [PreBindVerify]
    + seq(|p.bindings|, i requires 0 <= i => Bind(i)) + [Verify]
  }

  // ---------------------------------------------------------------- phases

  /** Position in the order planned .. completed; none for the failure phases. */
  function Rank(ph: Phase): Option<nat> {
    match ph
    case Planned => Some(0)
    case Prepared => Some(1)
    case Validated => Some(2)
    case Switching => Some(3)
    case Verifying => Some(4)
    case Completed => Some(5)
    case _ => None
  }

  /** The phase journaled when the effect is intended. */
  function During(e: EffectId): Option<Phase> {
    match e
    case StageRelease => Some(Planned)
    case Bind(_) => Some(Switching)
    case Verify => Some(Verifying)
    case _ => None
  }

  /** The phase journaled when the effect is complete. */
  function After(e: EffectId): Option<Phase> {
    match e
    case StageRelease => Some(Prepared)
    case Smoke => Some(Validated)
    case _ => None
  }

  function Advance(current: Phase, next: Option<Phase>): Phase {
    if next.None? || Rank(current).None? || Rank(next.value).None? then current
    else if Rank(next.value).value > Rank(current).value then next.value else current
  }

  /** The phase a journal in `needs_operator` goes back to. */
  function PhaseFrom(planned: seq<EffectId>, effects: map<EffectId, Entry>): (ph: Phase)
    ensures ph in {Planned, Prepared, Validated, Switching, Verifying}
  {
    if planned == [] then Planned
    else
      var e := planned[|planned| - 1];
      var earlier := PhaseFrom(planned[..|planned| - 1], effects);
      if e !in effects then earlier
      else
        var begun := Advance(earlier, During(e));
        if effects[e].state == Complete then Advance(begun, After(e)) else begun
  }

  // ---------------------------------------------------------------- observation

  datatype Observed = NotStarted | IsComplete | Partial | Unknown

  function ObserveBinding(b: Binding, files: map<Target, File>): Observed {
    if b.target !in files then (if b.before.None? then NotStarted else Unknown)
    else match files[b.target]
      case Unreadable => Unknown
      case Readable(data) =>
        if data == b.after then IsComplete
        else if b.before == Some(data) then NotStarted
        else Unknown
  }

  function StageIdentity(effects: map<EffectId, Entry>): Option<nat> {
    if StageRelease in effects then effects[StageRelease].identity else None
  }

  function ObserveEffect(p: Plan, e: EffectId, effects: map<EffectId, Entry>, d: Disk): Observed
    requires e.Bind? ==> e.index < |p.bindings|
  {
    match e
    case StageRelease =>
      if d.staging.None? then NotStarted else if d.staging.value.whole then IsComplete else Partial
    case PublishRelease =>
      if d.release.None? then NotStarted
      else if d.staging.None? && StageIdentity(effects) == Some(d.release.value.id) && d.release.value.whole
      then IsComplete
      else Unknown
    case Bind(i) => ObserveBinding(p.bindings[i], d.files)
    case _ => NotStarted
  }

  /** The release directory holds the tree this operation staged and published. */
  predicate OwnRelease(effects: map<EffectId, Entry>, release: Option<Tree>) {
    PublishRelease in effects && release.Some? && StageIdentity(effects) == Some(release.value.id)
  }

  /** The staged tree is used up once the effect that renames it is journaled. */
  predicate Consumed(e: EffectId, effects: map<EffectId, Entry>) {
    e == StageRelease && PublishRelease in effects
  }

  // ---------------------------------------------------------------- meaning of a target

  ghost predicate HoldsBefore(b: Binding, files: map<Target, File>) {
    match b.before
    case None => b.target !in files
    case Some(data) => b.target in files && files[b.target] == Readable(data)
  }

  ghost predicate HoldsAfter(b: Binding, files: map<Target, File>) {
    b.target in files && files[b.target] == Readable(b.after)
  }

  ghost predicate AllBefore(p: Plan, files: map<Target, File>) {
    forall i :: 0 <= i < |p.bindings| ==> HoldsBefore(p.bindings[i], files)
  }

  ghost predicate AllAfter(p: Plan, files: map<Target, File>) {
    forall i :: 0 <= i < |p.bindings| ==> HoldsAfter(p.bindings[i], files)
  }

  /** A target the resume pre-pass looks at holds content that is neither the plan's before nor its after. */
  ghost predicate ForeignTarget(p: Plan, d: Disk, direction: Direction) {
    exists i :: 0 <= i < |p.bindings| && ObserveBinding(p.bindings[i], d.files) == Unknown
                && (direction == GoForward || !IsReversed(d.journal.effects, i))
  }

  predicate IsReversed(effects: map<EffectId, Entry>, i: nat) {
    Bind(i) in effects && effects[Bind(i)].state == Reversed
  }

  // ---------------------------------------------------------------- invariants

  ghost predicate IsPlanned(p: Plan, e: EffectId) {
    match e
    case StageRelease => !p.selectedExisting
    case PublishRelease => !p.selectedExisting
    case Smoke => true
    case PreBindVerify => true
    case Bind(i) => i < |p.bindings|
    case Verify => true
    case RollbackMark => false
    case AbandonMark => false
  }

  /** The index of a planned effect in `PlannedEffects`. */
  ghost function Place(p: Plan, e: EffectId): nat {
    var skipped := if p.selectedExisting then 1 else 0;
    match e
    case StageRelease => 0
    case Smoke => 1 - skipped
    case PublishRelease => 2
    case PreBindVerify => 3 - 2 * skipped
    case Bind(i) => 4 - 2 * skipped + i
    case _ => 4 - 2 * skipped + |p.bindings|
  }

  lemma PlannedEffectsListed(p: Plan)
    ensures forall k :: 0 <= k < |PlannedEffects(p)| ==>
              IsPlanned(p, PlannedEffects(p)[k]) && Place(p, PlannedEffects(p)[k]) == k
    ensures forall e :: IsPlanned(p, e) ==>
              Place(p, e) < |PlannedEffects(p)| && PlannedEffects(p)[Place(p, e)] == e
  {
  }

  ghost predicate Precedes(p: Plan, e: EffectId, f: EffectId) {
    IsPlanned(p, e) && IsPlanned(p, f) && Place(p, e) < Place(p, f)
  }

  ghost predicate IsDone(effects: map<EffectId, Entry>, e: EffectId) {
    e in effects && effects[e].state == Complete
  }

  /** The journaled effects are a prefix of the plan; what is not a binding is complete up to its last one. A
      binding that another writer put back is intended again, whatever follows it. */
  ghost predicate InOrder(p: Plan, effects: map<EffectId, Entry>) {
    && (forall e <- effects :: IsPlanned(p, e) && effects[e].state != Reversed)
    && (forall e, f | f in effects && Precedes(p, e, f) :: e in effects && (e.Bind? || IsDone(effects, e)))
  }

  /** Where the candidate's tree is, as far as the forward journal tells. */
  ghost predicate StagingMatches(p: Plan, d: Disk) {
    var effects := d.journal.effects;
    !p.selectedExisting ==>
      && (PublishRelease !in effects ==> d.release.None?)
      && (IsDone(effects, StageRelease) ==> effects[StageRelease].identity.Some?)
      && (IsDone(effects, StageRelease) && PublishRelease !in effects ==>
            d.staging == Some(Tree(effects[StageRelease].identity.value, true)))
      && (PublishRelease in effects ==>
            && IsDone(effects, StageRelease)
            && var tree := Some(Tree(effects[StageRelease].identity.value, true));
               || (d.staging.None? && d.release == tree)
               || (effects[PublishRelease].state == Intended && d.staging == tree && d.release.None?))
  }

  ghost predicate TargetAccounted(b: Binding, entry: Option<Entry>, files: map<Target, File>) {
    && (HoldsBefore(b, files) || HoldsAfter(b, files))
    && (entry.None? ==> HoldsBefore(b, files))
    && (entry.Some? && entry.value.state == Reversed ==> HoldsBefore(b, files))
  }

  function EntryOf(effects: map<EffectId, Entry>, e: EffectId): Option<Entry> {
    if e in effects then Some(effects[e]) else None
  }

  /** What the journal says of itself and of the release trees, whatever other writers do to the targets. */
  ghost predicate Consistent(p: Plan, d: Disk) {
    var effects := d.journal.effects;
    var ph := d.journal.phase;
    && (DirectionOf(effects) == GoForward ==>
          && InOrder(p, effects)
          && (ph != Cancelled ==> StagingMatches(p, d))
          && ph !in {RolledBack, Abandoned, RollingBack, Abandoning})
    && (ph == Cancelled ==> DirectionOf(effects) == GoForward && Bind(0) !in effects)
    && (ph == Completed ==> DirectionOf(effects) == GoForward && forall e | IsPlanned(p, e) :: IsDone(effects, e))
  }

  /** What the journal says of the targets at every moment of a history no other writer disturbs. */
  ghost predicate TargetsKept(p: Plan, d: Disk) {
    var effects := d.journal.effects;
    && (forall i :: 0 <= i < |p.bindings| ==>
          TargetAccounted(p.bindings[i], EntryOf(effects, Bind(i)), d.files))
    && (DirectionOf(effects) == GoForward ==>
          forall i :: 0 <= i < |p.bindings| && IsDone(effects, Bind(i)) ==> HoldsAfter(p.bindings[i], d.files))
    && (d.journal.phase in {RolledBack, Abandoned} ==> AllBefore(p, d.files))
  }

  /** Atomicity of the switch: what each terminal phase says about every target. */
  lemma TerminalPhaseTellsTargets(p: Plan, d: Disk)
    requires WellFormed(p) && Consistent(p, d) && TargetsKept(p, d)
    ensures d.journal.phase == Completed ==> AllAfter(p, d.files)
    ensures d.journal.phase in {Cancelled, RolledBack, Abandoned} ==> AllBefore(p, d.files)
  {
    var effects := d.journal.effects;
    forall i | 0 <= i < |p.bindings|
      ensures d.journal.phase == Completed ==> HoldsAfter(p.bindings[i], d.files)
      ensures d.journal.phase == Cancelled ==> HoldsBefore(p.bindings[i], d.files)
    {
      if d.journal.phase == Completed {
        assert IsPlanned(p, Bind(i));
      } else if d.journal.phase == Cancelled && i > 0 {
        assert Precedes(p, Bind(0), Bind(i));
      }
    }
  }

  // ---------------------------------------------------------------- writes to targets

  /** One write, restore or unlink of a binding target, with the content it replaced. */
  datatype Write = Write(index: nat, found: Option<File>, put: Option<string>)

  function ContentOf(files: map<Target, File>, t: Target): Option<File> {
    if t in files then Some(files[t]) else None
  }

  function AsFile(data: Option<string>): Option<File> {
    match data
    case None => None
    case Some(text) => Some(Readable(text))
  }

  /** The write replaced content of this plan by content of this plan. */
  ghost predicate OwnWrite(p: Plan, w: Write) {
    && w.index < |p.bindings|
    && var b := p.bindings[w.index];
       && w.found in {AsFile(b.before), Some(Readable(b.after))}
       && w.put in {b.before, Some(b.after)}
  }

  /** In every run: a target is written only after its effect was journaled, and a cancelled operation never
      reached its commit effect. */
  ghost predicate Accounted(p: Plan, j: Journal, writes: seq<Write>) {
    && (DirectionOf(j.effects) == GoForward ==>
          && (forall w <- writes :: Bind(w.index) in j.effects)
          && (Ordinary(j.phase) || j.phase in {Completed, Cancelled})
          && PhaseMatches(j.phase, j.effects))
    && (j.phase == Cancelled ==> DirectionOf(j.effects) == GoForward && Bind(0) !in j.effects)
  }

  /** The journaled phase says exactly how far the bindings and the verification have come. */
  ghost predicate PhaseMatches(ph: Phase, effects: map<EffectId, Entry>) {
    ph in {Planned, Prepared, Validated, Switching, Verifying} ==>
      && (ph in {Switching, Verifying} <==> Bind(0) in effects)
      && (ph == Verifying <==> Verify in effects)
  }

  /** The phase recomputed after `needs_operator` is such a phase. */
  lemma PhaseFromMatches(p: Plan, j: Journal)
    requires WellFormed(p) && InOrder(p, j.effects) && DirectionOf(j.effects) == GoForward
    ensures PhaseMatches(PhaseFrom(PlannedEffects(p), j.effects), j.effects)
  {
    var planned := PlannedEffects(p);
    PlannedEffectsListed(p);
    PhaseFromPrefix(planned, j.effects, |planned|);
    assert planned[..|planned|] == planned;
    forall e | e in planned && e.Bind? && e in j.effects
      ensures Bind(0) in j.effects
    {
      assert e.index == 0 || Precedes(p, Bind(0), e);
    }
    assert Verify in j.effects ==> Precedes(p, Bind(0), Verify);
    assert Bind(0) == planned[Place(p, Bind(0))] && Verify == planned[Place(p, Verify)];
  }

  lemma {:induction false} PhaseFromPrefix(planned: seq<EffectId>, effects: map<EffectId, Entry>, k: nat)
    requires k <= |planned|
    ensures PhaseFrom(planned[..k], effects) == Verifying <==> Verify in planned[..k] && Verify in effects
    ensures PhaseFrom(planned[..k], effects) in {Switching, Verifying} <==>
              exists e <- planned[..k] :: (e.Bind? || e == Verify) && e in effects
  {
    if k > 0 {
      PhaseFromPrefix(planned, effects, k - 1);
      assert planned[..k][..k - 1] == planned[..k - 1];
      assert planned[..k] == planned[..k - 1] + [planned[k - 1]];
    }
  }

  /** At most one more write, of binding `i`, that put `data`. */
  ghost predicate Wrote(before: seq<Write>, now: seq<Write>, i: nat, data: Option<string>) {
    now == before || exists found :: now == before + [Write(i, found, data)]
  }

  /** The writes since `before` put after-bytes, in plan order, for planned effects below `k`. */
  ghost predicate WroteAfter(p: Plan, before: seq<Write>, now: seq<Write>, k: nat) {
    && before <= now
    && (forall m :: |before| <= m < |now| ==>
          && now[m].index < |p.bindings| && Place(p, Bind(now[m].index)) < k
          && now[m].put == Some(p.bindings[now[m].index].after))
    && (forall m, n :: |before| <= m < n < |now| ==> now[m].index < now[n].index)
  }

  /** The writes since `before` put before-bytes, last binding first, down to binding `i`. */
  ghost predicate WroteBefore(p: Plan, before: seq<Write>, now: seq<Write>, i: nat) {
    && before <= now
    && (forall m :: |before| <= m < |now| ==>
          i <= now[m].index < |p.bindings| && now[m].put == p.bindings[now[m].index].before)
    && (forall m, n :: |before| <= m < n < |now| ==> now[m].index > now[n].index)
  }

  lemma OneMoreAfter(p: Plan, start: seq<Write>, before: seq<Write>, now: seq<Write>, e: EffectId)
    requires IsPlanned(p, e) && WroteAfter(p, start, before, Place(p, e))
    requires now == before || (e.Bind? && Wrote(before, now, e.index, Some(p.bindings[e.index].after)))
    ensures WroteAfter(p, start, now, Place(p, e) + 1) && WroteAfter(p, start, now, |PlannedEffects(p)|)
  {
    PlannedEffectsListed(p);
  }

  lemma NothingWritten(p: Plan, writes: seq<Write>, i: nat)
    ensures WroteAfter(p, writes, writes, 0) && WroteAfter(p, writes, writes, |PlannedEffects(p)|)
    ensures WroteBefore(p, writes, writes, i)
  {
  }

  lemma OneMoreBefore(p: Plan, start: seq<Write>, before: seq<Write>, now: seq<Write>, i: nat)
    requires i < |p.bindings| && WroteBefore(p, start, before, i + 1)
    requires Wrote(before, now, i, p.bindings[i].before)
    ensures WroteBefore(p, start, now, i)
  {
  }

  lemma CancelledWroteNothing(p: Plan, d: Disk, writes: seq<Write>)
    requires WellFormed(p) && Consistent(p, d) && Accounted(p, d.journal, writes)
    requires forall w <- writes :: OwnWrite(p, w)
    ensures d.journal.phase == Cancelled ==> writes == []
  {
    var j := d.journal;
    forall w | w in writes && DirectionOf(j.effects) == GoForward
      ensures Bind(0) in j.effects
    {
      assert w.index == 0 || Precedes(p, Bind(0), Bind(w.index));
    }
    assert writes != [] ==> writes[0] in writes;
  }

  /** The machine: what survives a crash, what the environment will do next, and the history of writes. */
  class Host {
    var disk: Disk
    var faults: seq<Fault>
    var tampering: seq<map<Target, Option<File>>>
    ghost var disturbed: bool
    ghost var writes: seq<Write>
    /** The last journal write did not take effect. */
    ghost var lost: bool
    /** The files as they were when a target with foreign content was met in this run. */
    ghost var met: Option<map<Target, File>>
    /** The check that found a problem in this run. */
    ghost var failed: Option<EffectId>

    ghost predicate Safe(p: Plan)
      reads this
    {
      && WellFormed(p)
      && (forall w <- writes :: OwnWrite(p, w))
      && Accounted(p, disk.journal, writes)
      && Consistent(p, disk)
      && (!disturbed ==> TargetsKept(p, disk))
    }

    /** The intent directory was renamed into place: an open operation with no effect. */
    constructor (p: Plan, files: map<Target, File>, release: Option<Tree>, faults: seq<Fault>,
                 tampering: seq<map<Target, Option<File>>>)
      requires WellFormed(p)
      requires AllBefore(p, files) && (p.selectedExisting || release.None?)
      ensures Safe(p) && !disturbed && writes == [] && !lost && met.None? && failed.None?
      ensures this.faults == faults && this.tampering == tampering
      ensures disk.journal == Journal(Planned, map[]) && disk.files == files && disk.staging.None?
    {
      disk := Disk(Journal(Planned, map[]), files, None, release, None,
                   match release case None => 0 case Some(t) => t.id + 1);
      this.faults, this.tampering := faults, tampering;
      disturbed, writes, lost, met, failed := false, [], false, None, None;
    }

    /** One atomic action. */
    method Act(next: Disk) returns (s: Status)
      modifies this`disk, this`faults
      ensures s == Verdict(old(faults)) && faults == Rest(old(faults))
      ensures Calm(old(faults)) ==> Calm(faults) && s.Done?
      ensures disk == if Happens(old(faults)) then next else old(disk)
    {
      s := Verdict(faults);
      if Happens(faults) {
        disk := next;
      }
      faults := Rest(faults);
    }

    /** A check run (smoke, verification): reads only; `passed` is meaningful when it came to an end. */
    method Check() returns (s: Status, passed: bool)
      modifies this`faults
      ensures s == Verdict(old(faults)) && faults == Rest(old(faults))
      ensures Calm(old(faults)) ==> Calm(faults) && s.Done?
      ensures passed == (Next(old(faults)) != Reject)
    {
      s, passed := Verdict(faults), Next(faults) != Reject;
      faults := Rest(faults);
    }

    /** Replaces (or, for `None`, unlinks) the target of binding `index` in one rename (or unlink). */
    method Put(p: Plan, index: nat, data: Option<string>) returns (s: Status)
      requires index < |p.bindings|
      modifies this`disk, this`faults, this`writes
      ensures s == Verdict(old(faults)) && faults == Rest(old(faults))
      ensures Calm(old(faults)) ==> Calm(faults) && s.Done?
      ensures disk == if Happens(old(faults)) then old(disk).(files := FilesWith(p, old(disk).files, index, data))
                      else old(disk)
      ensures writes == if Happens(old(faults))
                        then old(writes) + [Write(index, ContentOf(old(disk).files, p.bindings[index].target), data)]
                        else old(writes)
    {
      ghost var w := Write(index, ContentOf(disk.files, p.bindings[index].target), data);
      if Happens(faults) {
        writes := writes + [w];
      }
      s := Act(disk.(files := FilesWith(p, disk.files, index, data)));
    }

    /** Whatever other processes do to files before the operation looks again. */
    method OthersWrite(ghost p: Plan)
      requires Safe(p)
      modifies this`disk, this`tampering, this`disturbed
      ensures old(tampering) == [] ==> tampering == [] && disk == old(disk) && disturbed == old(disturbed)
      ensures old(tampering) != [] ==>
                tampering == old(tampering)[1..] && disk.files == Changed(old(disk).files, old(tampering)[0])
      ensures old(disturbed) ==> disturbed
      ensures Safe(p) && disk == old(disk).(files := disk.files)
      ensures !disturbed ==> disk == old(disk)
    {
      if tampering != [] {
        var files := Changed(disk.files, tampering[0]);
        tampering := tampering[1..];
        disturbed := disturbed || files != disk.files;
        disk := disk.(files := files);
      }
    }
  }

  /** What another process leaves of the files: some written, some removed. */
  function Changed(files: map<Target, File>, changes: map<Target, Option<File>>): map<Target, File> {
    files - changes.Keys + map t | t in changes && changes[t].Some? :: changes[t].value
  }

  function FilesWith(p: Plan, files: map<Target, File>, index: nat, data: Option<string>): map<Target, File>
    requires index < |p.bindings|
  {
    var t := p.bindings[index].target;
    match data
    case None => files - {t}
    case Some(text) => files[t := Readable(text)]
  }

  // ---------------------------------------------------------------- one run

  /** The candidate's tree is neither published nor there nor still in memory. */
  predicate StagingGone(p: Plan, effects: map<EffectId, Entry>, staging: Option<Tree>, candidate: bool) {
    && !p.selectedExisting && PublishRelease !in effects
    && match staging case None => !candidate case Some(tree) => !tree.whole
  }

  /** Where an uninterrupted, undisturbed way forward ends. */
  function ForwardEnd(gone: bool, failed: Option<EffectId>): Phase {
    if gone then Cancelled
    else if failed.None? then Completed
    else if failed == Some(Verify) then RolledBack
    else Cancelled
  }

  /** Where an uninterrupted drive ends that meets no foreign content, from the effects and the staging before it. */
  predicate Ends(p: Plan, effects: map<EffectId, Entry>, staging: Option<Tree>, candidate: bool, action: Direction,
                 failed: Option<EffectId>, ph: Phase) {
    match action
    case GoForward => ph == ForwardEnd(StagingGone(p, effects, staging, candidate), failed)
    case GoRollback => ph == RolledBack
    case GoAbandon => ph == Abandoned
  }

  /** What a finished drive leaves of the targets when no other writer acts. */
  ghost predicate Reaches(p: Plan, effects: map<EffectId, Entry>, action: Direction, files: map<Target, File>) {
    if action == GoForward then AllAfter(p, files) else BeforeFrom(p, effects, files, 0)
  }

  /** What an operator report leaves: `needs_operator`, or still an open journal when that could not be written. */
  predicate Stopped(durable: Journal, lost: bool) {
    if lost then !Terminal(durable.phase) else durable.phase == OperatorNeeded
  }

  /** What a cancel report leaves: `cancelled` exactly when that was written, and otherwise the open journal
      before it; in both cases short of the commit point. */
  predicate CancelLeaves(durable: Journal, lost: bool) {
    && DirectionOf(durable.effects) == GoForward && Bind(0) !in durable.effects
    && (if lost then Ordinary(durable.phase) else durable.phase == Cancelled)
  }

  /** The durable journal knows no effect that the one in memory does not; a terminal one is the one in memory. */
  predicate Behind(durable: Journal, journal: Journal) {
    durable.effects.Keys <= journal.effects.Keys && (Terminal(durable.phase) ==> durable == journal)
  }

  datatype Report = NothingPending | Died | Finished | OperatorReport | RollbackDone | RollbackInterrupted
                  | StaysOpen | CancelReported

  class Run {
    const plan: Plan
    const host: Host
    /** The journal in memory; `Save` makes it the durable one. */
    var journal: Journal
    /** The candidate's bytes are still in memory (false in every resume). */
    var candidate: bool
    /** A check of this run has found a problem, or may still find one. */
    ghost var mayFail: bool

    /** The durable state is safe, and would stay safe if the journal in memory were saved now. */
    ghost predicate Sound()
      reads this, host
    {
      && host.Safe(plan)
      && Accounted(plan, journal, host.writes)
      && Consistent(plan, host.disk.(journal := journal))
      && (!host.disturbed ==> TargetsKept(plan, host.disk.(journal := journal)))
      && Behind(host.disk.journal, journal)
      && (host.failed.Some? || Reject in host.faults ==> mayFail)
    }

    constructor Load(p: Plan, h: Host, candidate: bool)
      requires h.Safe(p)
      ensures plan == p && host == h && journal == h.disk.journal && this.candidate == candidate
      ensures Sound()
    {
      plan, host, journal, this.candidate := p, h, h.disk.journal, candidate;
      mayFail := h.failed.Some? || Reject in h.faults;
    }

    method Save() returns (s: Status)
      requires Sound()
      modifies host`disk, host`faults, host`lost
      ensures Sound()
      ensures s == Verdict(old(host.faults)) && host.faults == Rest(old(host.faults))
      ensures Calm(old(host.faults)) ==> Calm(host.faults) && s.Done?
      ensures host.lost == !Happens(old(host.faults))
      ensures host.disk == if Happens(old(host.faults)) then old(host.disk).(journal := journal) else old(host.disk)
    {
      host.lost := !Happens(host.faults);
      s := host.Act(host.disk.(journal := journal));
    }

    /** No foreign content was met and no check has failed in this run. */
    ghost predicate Fresh()
      reads host
    {
      host.met.None? && host.failed.None?
    }

    /** No other writer will act, and every target holds its before or its after bytes. */
    ghost predicate Clean()
      reads this, host
    {
      host.tampering == [] && AllKnown(plan, host.disk.files)
    }

    /** Nothing is put back on the way forward. */
    lemma SteadyIsClean()
      requires Sound() && GoingForward()
      ensures Steady() <==> Clean()
    {
      hide StagingMatches, TargetsKept;
      assert forall i :: !IsReversed(journal.effects, i);
    }

    /** No other writer will act, and every target is known or was put back already. */
    ghost predicate Steady()
      reads this, host
    {
      host.tampering == [] && NoneForeign(plan, journal.effects, host.disk.files)
    }

    /** A planned effect is observed unknown. */
    ghost predicate SeesForeign()
      reads this, host
    {
      exists e :: IsPlanned(plan, e) && ObserveEffect(plan, e, journal.effects, host.disk) == Unknown
    }

    /** An operator is asked exactly when foreign content was met, and it is still there. */
    ghost predicate AsksOperator(s: Status)
      reads this, host
    {
      && (s == Raised(NeedsOperator) <==> host.met.Some?)
      && (host.met.Some? ==> host.disk.files == host.met.value && SeesForeign())
    }

    /** A failed check is told by its exception. */
    ghost predicate TellsCheck(s: Status)
      reads host
    {
      && (s == Raised(VerifyFailed) <==> host.failed == Some(Verify))
      && (s == Raised(SmokeFailed) <==> host.failed in {Some(Smoke), Some(PreBindVerify)})
      && host.failed in {None, Some(Smoke), Some(PreBindVerify), Some(Verify)}
    }

    ghost predicate GoingForward()
      reads this
    {
      DirectionOf(journal.effects) == GoForward && Ordinary(journal.phase)
    }

    /** This effect wrote nothing, or its own after-bytes once. */
    ghost predicate WritesOwn(e: EffectId, before: seq<Write>)
      reads this, host
    {
      || host.writes == before
      || (e.Bind? && e.index < |plan.bindings|
          && Wrote(before, host.writes, e.index, Some(plan.bindings[e.index].after)))
    }

    /** The files are as they were, or this binding's target holds its after bytes. */
    ghost predicate WritesAfter(e: EffectId, before: map<Target, File>)
      reads this, host
    {
      || host.disk.files == before
      || (e.Bind? && e.index < |plan.bindings|
          && host.disk.files == FilesWith(plan, before, e.index, Some(plan.bindings[e.index].after)))
    }

    ghost predicate PredecessorsDone(e: EffectId)
      reads this
    {
      forall f | Precedes(plan, f, e) :: IsDone(journal.effects, f)
    }

    /** The first thing that was tried failed, and nothing of it is durable. */
    ghost predicate NotBegun(s: Status, durable: Journal, faults: seq<Fault>)
      reads this, host
    {
      s == Raised(Interrupted) && host.disk.journal == durable && host.faults == Rest(faults)
    }

    /** Refused before anything was tried, or failed at once. */
    ghost predicate Untried(s: Status, durable: Journal, faults: seq<Fault>)
      reads this, host
    {
      || NotBegun(s, durable, faults)
      || (s.Raised? && s.exn in {NeedsOperator, StagingLost} && host.disk.journal == durable && host.faults == faults)
    }

    /** Another process may change files here: what the journal says of the release trees stays true. */
    method LetOthersWrite()
      requires Sound()
      modifies host`disk, host`tampering, host`disturbed
      ensures Sound() && host.disk == old(host.disk).(files := host.disk.files)
      ensures old(host.disturbed) ==> host.disturbed
      ensures old(host.tampering) == [] ==>
                host.tampering == [] && host.disk == old(host.disk) && host.disturbed == old(host.disturbed)
      ensures !host.disturbed ==> host.disk == old(host.disk)
    {
      host.OthersWrite(plan);
    }

    /** Write-ahead: the effect is journaled before anything of it happens. */
    method Intend(e: EffectId) returns (s: Status)
      requires Sound() && GoingForward() && IsPlanned(plan, e) && PredecessorsDone(e)
      requires e.Bind? || !IsDone(journal.effects, e)
      modifies this`journal, host`disk, host`faults, host`lost
      ensures Sound() && GoingForward()
      ensures s == Verdict(old(host.faults)) && host.faults == Rest(old(host.faults))
      ensures Calm(old(host.faults)) ==> Calm(host.faults) && s.Done?
      ensures s.Done? ==> host.disk.journal == journal
      ensures FailsAtOnce(old(host.faults)) ==> NotBegun(s, old(host.disk.journal), old(host.faults))
      ensures host.disk == old(host.disk).(journal := host.disk.journal)
      ensures journal.effects == old(journal.effects)[e := Entry(Intended, IdentityOf(old(journal.effects), e))]
    {
      hide Consistent, TargetsKept;
      ghost var d := host.disk.(journal := journal);
      journal := Journal(Advance(journal.phase, During(e)),
                         journal.effects[e := Entry(Intended, IdentityOf(journal.effects, e))]);
      assert e.Bind? || e == Verify ==> e == Bind(0) || Precedes(plan, Bind(0), e);
      IntendKeeps(plan, d, e, journal.phase);
      s := Save();
    }

    method CompleteEffect(e: EffectId, identity: Option<nat>) returns (s: Status)
      requires Sound() && GoingForward() && e in journal.effects
      requires Accomplished(plan, host.disk, journal.effects, e, identity)
      modifies this`journal, host`disk, host`faults, host`lost
      ensures Sound() && GoingForward()
      ensures s == Verdict(old(host.faults)) && host.faults == Rest(old(host.faults))
      ensures Calm(old(host.faults)) ==> Calm(host.faults) && s.Done?
      ensures s.Done? ==> host.disk.journal == journal
      ensures host.disk == old(host.disk).(journal := host.disk.journal)
      ensures IsDone(journal.effects, e)
      ensures journal.effects.Keys == old(journal.effects).Keys
      ensures forall f | f in journal.effects && f != e :: journal.effects[f] == old(journal.effects)[f]
    {
      hide Consistent, TargetsKept;
      ghost var d := host.disk.(journal := journal);
      var kept := if identity.Some? then identity else journal.effects[e].identity;
      journal := Journal(Advance(journal.phase, After(e)), journal.effects[e := Entry(Complete, kept)]);
      CompleteKeeps(plan, d, e, kept, journal.phase);
      s := Save();
    }

    /** The candidate's tree: an empty directory under a new identity, then its content. */
    method StageTree() returns (s: Status, identity: Option<nat>)
      requires Sound() && GoingForward()
      requires host.disk.journal == journal && StageRelease in journal.effects
      requires journal.effects[StageRelease].state == Intended
      requires ObserveEffect(plan, StageRelease, journal.effects, host.disk) == NotStarted
      requires PublishRelease !in journal.effects
      modifies host`disk, host`faults
      ensures Sound() && host.disk.journal == journal && host.disk.files == old(host.disk.files)
      ensures s.Raised? ==> s.exn == Interrupted
      ensures s.Done? ==> Accomplished(plan, host.disk, journal.effects, StageRelease, identity)
      ensures Calm(old(host.faults)) ==> Calm(host.faults) && s.Done?
    {
      identity := None;
      var id := host.disk.nextId;
      s := host.Act(host.disk.(staging := Some(Tree(id, false)), nextId := id + 1));
      if s.IsFailure() { return; }
      s := host.Act(host.disk.(staging := Some(Tree(id, true))));
      identity := Some(id);
    }

    /** One rename publishes the staged tree. */
    method PublishTree() returns (s: Status)
      requires Sound() && GoingForward() && !plan.selectedExisting
      requires host.disk.journal == journal && PublishRelease in journal.effects
      requires journal.effects[PublishRelease].state == Intended
      requires ObserveEffect(plan, PublishRelease, journal.effects, host.disk) == NotStarted
      modifies host`disk, host`faults
      ensures Sound() && host.disk.journal == journal && host.disk.files == old(host.disk.files)
      ensures s.Raised? ==> s.exn == Interrupted
      ensures s.Done? ==>
                host.disk.release == old(host.disk).staging && host.disk.release.Some? && host.disk.staging.None?
      ensures s.Done? ==> Accomplished(plan, host.disk, journal.effects, PublishRelease, None)
      ensures Calm(old(host.faults)) ==> Calm(host.faults) && s.Done?
    {
      s := host.Act(host.disk.(staging := None, release := host.disk.staging));
    }

    /** One planned effect that changes the disk; returns the identity of what it created. */
    method Apply(e: EffectId) returns (s: Status, identity: Option<nat>)
      requires Sound() && GoingForward() && IsPlanned(plan, e) && !IsCheck(e)
      requires host.disk.journal == journal && e in journal.effects && journal.effects[e].state == Intended
      requires ObserveEffect(plan, e, journal.effects, host.disk) == NotStarted
      requires e == StageRelease ==> PublishRelease !in journal.effects
      modifies host`disk, host`faults, host`writes
      ensures Sound() && host.disk.journal == journal
      ensures s.Raised? ==> s.exn == Interrupted
      ensures s.Done? ==> Accomplished(plan, host.disk, journal.effects, e, identity)
      ensures WritesAfter(e, old(host.disk.files))
      ensures WritesOwn(e, old(host.writes))
      ensures Calm(old(host.faults)) ==> Calm(host.faults) && s.Done?
    {
      hide Consistent, TargetsKept, Behind;
      identity := None;
      match e {
        case StageRelease =>
          s, identity := StageTree();
        case PublishRelease =>
          s := PublishTree();
        case Bind(i) =>
          PutKeeps(plan, host.disk, i);
          AfterKnown(plan, host.disk.files, i);
          s := host.Put(plan, i, Some(plan.bindings[i].after));
      }
    }

    /** A check effect: journaled, run, journaled complete. */
    method RunCheck(e: EffectId) returns (s: Status)
      requires Sound() && GoingForward() && IsPlanned(plan, e) && IsCheck(e)
      requires PredecessorsDone(e) && !IsDone(journal.effects, e) && Fresh()
      modifies this`journal, host`disk, host`faults, host`lost, host`failed
      ensures Sound() && GoingForward()
      ensures host.disk == old(host.disk).(journal := host.disk.journal)
      ensures FailsAtOnce(old(host.faults)) ==> NotBegun(s, old(host.disk.journal), old(host.faults))
      ensures journal.effects.Keys <= old(journal.effects).Keys + {e}
      ensures TellsCheck(s)
      ensures Calm(old(host.faults)) ==> (s.Done? <==> Next(Rest(old(host.faults))) != Reject)
      ensures s.Done? ==> Extended(old(journal.effects), journal.effects, e)
      ensures s.Raised? ==> s.exn in {Interrupted, SmokeFailed, VerifyFailed}
      ensures s == Raised(SmokeFailed) ==> Bind(0) !in journal.effects
      ensures Calm(old(host.faults)) ==> Calm(host.faults) && !s.Halted? && s != Raised(Interrupted)
    {
      hide Consistent, Accounted, Behind;
      s := Intend(e);
      if s.IsFailure() { return; }
      ObservationKnown(plan, host.disk.(journal := journal), e);
      s := Judge(e);
    }

    /** Runs a journaled check and journals that it passed. */
    method Judge(e: EffectId) returns (s: Status)
      requires Sound() && GoingForward() && IsPlanned(plan, e) && IsCheck(e) && e in journal.effects && Fresh()
      requires e != Verify ==> Bind(0) !in journal.effects
      modifies this`journal, host`disk, host`faults, host`lost, host`failed
      ensures Sound() && GoingForward() && TellsCheck(s)
      ensures host.disk == old(host.disk).(journal := host.disk.journal)
      ensures journal.effects.Keys == old(journal.effects).Keys
      ensures s.Done? ==> Extended(old(journal.effects), journal.effects, e)
      ensures s.Raised? ==> s.exn in {Interrupted, SmokeFailed, VerifyFailed}
      ensures s == Raised(SmokeFailed) ==> Bind(0) !in journal.effects
      ensures Calm(old(host.faults)) ==>
                && Calm(host.faults) && !s.Halted? && s != Raised(Interrupted)
                && (s.Done? <==> Next(old(host.faults)) != Reject)
    {
      hide Consistent, Accounted, Behind;
      var passed;
      s, passed := host.Check();
      if s.IsFailure() { return; }
      if !passed {
        host.failed := Some(e);
        return Raised(if e == Verify then VerifyFailed else SmokeFailed);
      }
      s := CompleteEffect(e, None);
    }

    /** The effect is already on disk: journal it intended and complete, adopting what is there. */
    method Adopt(e: EffectId) returns (s: Status)
      requires Sound() && GoingForward() && IsPlanned(plan, e) && !IsCheck(e)
      requires PredecessorsDone(e) && (e.Bind? || !IsDone(journal.effects, e))
      requires ObserveEffect(plan, e, journal.effects, host.disk) == IsComplete
      requires e == StageRelease ==> PublishRelease !in journal.effects
      modifies this`journal, host`disk, host`faults, host`lost
      ensures Sound() && GoingForward()
      ensures FailsAtOnce(old(host.faults)) ==> NotBegun(s, old(host.disk.journal), old(host.faults))
      ensures journal.effects.Keys <= old(journal.effects).Keys + {e}
      ensures s.Done? ==> Extended(old(journal.effects), journal.effects, e)
      ensures s.Raised? ==> s.exn == Interrupted
      ensures host.disk == old(host.disk).(journal := host.disk.journal)
      ensures Calm(old(host.faults)) ==> Calm(host.faults) && s.Done?
    {
      hide Consistent, Accounted, TargetsKept, Behind;
      s := Intend(e);
      if s.IsFailure() { return; }
      var identity := if e == StageRelease && host.disk.staging.Some? then Some(host.disk.staging.value.id) else None;
      s := CompleteEffect(e, identity);
    }

    /** Journal the intent, act, journal the completion. */
    method Execute(e: EffectId) returns (s: Status)
      requires Sound() && GoingForward() && IsPlanned(plan, e) && !IsCheck(e)
      requires PredecessorsDone(e) && (e.Bind? || !IsDone(journal.effects, e))
      requires ObserveEffect(plan, e, journal.effects, host.disk) == NotStarted
      requires e == StageRelease ==> PublishRelease !in journal.effects
      modifies this`journal, host`disk, host`faults, host`lost, host`writes
      ensures Sound() && GoingForward()
      ensures FailsAtOnce(old(host.faults)) ==> NotBegun(s, old(host.disk.journal), old(host.faults))
      ensures journal.effects.Keys <= old(journal.effects).Keys + {e}
      ensures s.Done? ==> Extended(old(journal.effects), journal.effects, e)
      ensures s.Raised? ==> s.exn == Interrupted
      ensures s.Done? && e.Bind? ==> HoldsAfter(plan.bindings[e.index], host.disk.files)
      ensures WritesAfter(e, old(host.disk.files))
      ensures WritesOwn(e, old(host.writes))
      ensures Calm(old(host.faults)) ==> Calm(host.faults) && s.Done?
    {
      hide Consistent, Accounted, TargetsKept, Behind;
      s := Intend(e);
      if s.IsFailure() { return; }
      var identity;
      s, identity := Apply(e);
      if s.IsFailure() { return; }
      s := CompleteEffect(e, identity);
    }

    /** One round of the forward loop: skip, adopt what is already on disk, refuse, or execute. */
    method ForwardOne(e: EffectId) returns (s: Status)
      requires Sound() && GoingForward() && IsPlanned(plan, e) && PredecessorsDone(e) && Fresh()
      modifies this`journal, host
      ensures Sound() && GoingForward()
      ensures e !in old(journal.effects) && FailsAtOnce(old(host.faults)) ==>
                Untried(s, old(host.disk.journal), old(host.faults))
      ensures journal.effects.Keys <= old(journal.effects).Keys + {e}
      ensures AsksOperator(s) && TellsCheck(s)
      ensures s == Raised(StagingLost) <==>
                e == StageRelease && StagingGone(plan, old(journal.effects), old(host.disk.staging), candidate)
      ensures old(host.disturbed) ==> host.disturbed
      ensures s.Done? ==> Extended(old(journal.effects), journal.effects, e)
      ensures s == Raised(NeedsOperator) ==> host.disturbed
      ensures old(Clean()) ==> Clean() && s != Raised(NeedsOperator)
      ensures old(Clean()) && s.Done? && e.Bind? ==> HoldsAfter(plan.bindings[e.index], host.disk.files)
      ensures old(Clean()) ==> KeepsAfter(plan, old(host.disk.files), host.disk.files)
      ensures s.Raised? && s.exn in {SmokeFailed, StagingLost} ==> Bind(0) !in journal.effects
      ensures Undisturbed(old(host.tampering), old(host.disturbed)) ==> Undisturbed(host.tampering, host.disturbed)
      ensures WritesOwn(e, old(host.writes))
      ensures Calm(old(host.faults)) ==> Calm(host.faults) && !s.Halted? && s != Raised(Interrupted)
    {
      hide Consistent, Accounted, Behind;
      ObservationKnown(plan, host.disk.(journal := journal), e);
      var known := e in journal.effects;
      var complete := known && journal.effects[e].state == Complete;
      if complete && (IsCheck(e) || Consumed(e, journal.effects)) {
        return Done;
      }
      if IsCheck(e) {
        s := RunCheck(e);
          return;
      }
      if known && Consumed(e, journal.effects) {
        return Done;
      }
      s := Look(e, complete);
    }

    /** Looks at an effect that changes the disk, whatever others did to it: nothing to do, adopt, refuse,
        or execute. */
    method Look(e: EffectId, complete: bool) returns (s: Status)
      requires Sound() && GoingForward() && IsPlanned(plan, e) && PredecessorsDone(e) && !IsCheck(e) && Fresh()
      requires complete <==> IsDone(journal.effects, e)
      requires e == StageRelease ==> PublishRelease !in journal.effects && (complete || Bind(0) !in journal.effects)
      modifies this`journal, host
      ensures Sound() && GoingForward()
      ensures e !in old(journal.effects) && FailsAtOnce(old(host.faults)) ==>
                Untried(s, old(host.disk.journal), old(host.faults))
      ensures journal.effects.Keys <= old(journal.effects).Keys + {e}
      ensures AsksOperator(s) && host.failed.None?
      ensures s.Raised? ==> s.exn in {Interrupted, NeedsOperator, StagingLost}
      ensures s == Raised(StagingLost) <==>
                e == StageRelease && StagingGone(plan, old(journal.effects), old(host.disk.staging), candidate)
      ensures s == Raised(StagingLost) ==> Bind(0) !in journal.effects
      ensures old(host.disturbed) ==> host.disturbed
      ensures s.Done? ==> Extended(old(journal.effects), journal.effects, e)
      ensures s == Raised(NeedsOperator) ==> host.disturbed
      ensures old(Clean()) ==> Clean() && s != Raised(NeedsOperator)
      ensures old(Clean()) && s.Done? && e.Bind? ==> HoldsAfter(plan.bindings[e.index], host.disk.files)
      ensures old(Clean()) ==> KeepsAfter(plan, old(host.disk.files), host.disk.files)
      ensures Undisturbed(old(host.tampering), old(host.disturbed)) ==> Undisturbed(host.tampering, host.disturbed)
      ensures WritesOwn(e, old(host.writes))
      ensures Calm(old(host.faults)) ==> Calm(host.faults) && !s.Halted? && s != Raised(Interrupted)
    {
      hide Consistent, Accounted, Behind, TargetsKept, KeepsAfter, AllKnown, Extended;
      LetOthersWrite();
      ObservationKnown(plan, host.disk.(journal := journal), e);
      if e.Bind? {
        AfterKnown(plan, host.disk.files, e.index);
      }
      KeptAsIs(plan, host.disk.files);
      if ObserveEffect(plan, e, journal.effects, host.disk) == Unknown {
        if !host.disturbed {
          TargetKnown(plan, host.disk.(journal := journal), e.index);
        }
        host.met := Some(host.disk.files);
        s := Raised(NeedsOperator);
      } else {
        s := Continue(e, complete);
      }
    }

    /** Nothing to do, adopt, give up on lost staging, or execute. */
    method Continue(e: EffectId, complete: bool) returns (s: Status)
      requires Sound() && GoingForward() && IsPlanned(plan, e) && PredecessorsDone(e) && !IsCheck(e)
      requires complete <==> IsDone(journal.effects, e)
      requires e == StageRelease ==> PublishRelease !in journal.effects && (complete || Bind(0) !in journal.effects)
      requires ObserveEffect(plan, e, journal.effects, host.disk) != Unknown
      modifies this`journal, host`disk, host`faults, host`lost, host`writes
      ensures Sound() && GoingForward()
      ensures e !in old(journal.effects) && FailsAtOnce(old(host.faults)) ==>
                Untried(s, old(host.disk.journal), old(host.faults))
      ensures journal.effects.Keys <= old(journal.effects).Keys + {e}
      ensures s.Raised? ==> s.exn in {Interrupted, StagingLost}
      ensures s == Raised(StagingLost) <==>
                e == StageRelease && StagingGone(plan, old(journal.effects), old(host.disk.staging), candidate)
      ensures s == Raised(StagingLost) ==> Bind(0) !in journal.effects
      ensures s.Done? ==> Extended(old(journal.effects), journal.effects, e)
      ensures s.Done? && e.Bind? ==> HoldsAfter(plan.bindings[e.index], host.disk.files)
      ensures WritesAfter(e, old(host.disk.files)) && WritesOwn(e, old(host.writes))
      ensures Calm(old(host.faults)) ==> Calm(host.faults) && !s.Halted? && s != Raised(Interrupted)
    {
      hide Consistent, Accounted, Behind, TargetsKept;
      ObservationKnown(plan, host.disk.(journal := journal), e);
      var state := ObserveEffect(plan, e, journal.effects, host.disk);
      if state == IsComplete {
        if complete {
          return Done;
        }
        s := Adopt(e);
      } else if e == StageRelease && (state == Partial || !candidate) {
        s := Raised(StagingLost);
      } else {
        s := Execute(e);
      }
    }

    method Forward() returns (s: Status)
      requires Sound() && GoingForward() && Fresh()
      modifies this`journal, host
      ensures Sound()
      ensures s.Done? ==> host.disk.journal.phase == Completed
      ensures DirectionOf(journal.effects) == GoForward && (Ordinary(journal.phase) || journal.phase == Completed)
      ensures s.Raised? && s.exn != Interrupted ==> GoingForward()
      ensures !GoingForward() ==> Bind(0) in journal.effects
      ensures old(journal.effects) == map[] && FailsAtOnce(old(host.faults)) ==>
                Untried(s, old(host.disk.journal), old(host.faults)) && GoingForward() && Bind(0) !in journal.effects
      ensures AsksOperator(s) && TellsCheck(s)
      ensures s == Raised(StagingLost) <==>
                StagingGone(plan, old(journal.effects), old(host.disk.staging), candidate)
      ensures old(host.disturbed) ==> host.disturbed
      ensures s == Raised(NeedsOperator) ==> host.disturbed && GoingForward()
      ensures old(Clean()) ==> Clean() && s != Raised(NeedsOperator)
      ensures old(Clean()) && s.Done? ==> AllAfter(plan, host.disk.files)
      ensures s.Raised? && s.exn in {SmokeFailed, StagingLost} ==> Bind(0) !in journal.effects
      ensures Undisturbed(old(host.tampering), old(host.disturbed)) ==> Undisturbed(host.tampering, host.disturbed)
      ensures WroteAfter(plan, old(host.writes), host.writes, |PlannedEffects(plan)|)
      ensures Calm(old(host.faults)) ==> Calm(host.faults) && !s.Halted? && s != Raised(Interrupted)
    {
      hide Consistent, TargetsKept, Accounted, Behind, WroteAfter, DoneBelow, AfterBelow, AllAfter, PlannedEffects,
           Precedes, Extended, KeepsAfter, AllKnown;
      var planned := PlannedEffects(plan);
      NothingWritten(plan, host.writes, 0);
      NothingBelow(plan, journal.effects, host.disk.files);
      BeginsWithoutBinding(plan);
      StagesFirst(plan);
      for k := 0 to |planned|
        invariant Sound() && GoingForward() && Fresh()
        invariant k > 0 ==> !StagingGone(plan, old(journal.effects), old(host.disk.staging), candidate)
        invariant old(host.disturbed) ==> host.disturbed
        invariant if k == 0 then
                    && journal == old(journal) && host.faults == old(host.faults)
                    && host.disk == old(host.disk) && host.tampering == old(host.tampering)
                  else !(old(journal.effects) == map[] && FailsAtOnce(old(host.faults)))
        invariant DoneBelow(plan, journal.effects, k)
        invariant old(Clean()) ==> Clean() && AfterBelow(plan, host.disk.files, k)
        invariant Undisturbed(old(host.tampering), old(host.disturbed)) ==> Undisturbed(host.tampering, host.disturbed)
        invariant WroteAfter(plan, old(host.writes), host.writes, k)
        invariant WroteAfter(plan, old(host.writes), host.writes, |planned|)
        invariant Calm(old(host.faults)) ==> Calm(host.faults)
      {
        BelowPrecedes(plan, journal.effects, k);
        ghost var effects := journal.effects;
        ghost var before, files := host.writes, host.disk.files;
        s := ForwardOne(planned[k]);
        OneMoreAfter(plan, old(host.writes), before, host.writes, planned[k]);
        if s.IsFailure() { return; }
        OneMoreBelow(plan, effects, journal.effects, k);
        if old(Clean()) {
          OneMoreHeld(plan, files, host.disk.files, k);
        }
      }
      AllBelow(plan, journal.effects, host.disk.files);
      s := Finish();
    }

    /** Journals `completed` once the result has been read back. */
    method Finish() returns (s: Status)
      requires Sound() && GoingForward()
      requires forall e | IsPlanned(plan, e) :: IsDone(journal.effects, e)
      modifies this`journal, host`disk, host`faults, host`lost
      ensures Sound() && host.disk.files == old(host.disk.files)
      ensures s.Done? ==> host.disk.journal.phase == Completed
      ensures journal.effects == old(journal.effects)
      ensures s.Raised? ==> s.exn == Interrupted
      ensures DirectionOf(journal.effects) == GoForward && (Ordinary(journal.phase) || journal.phase == Completed)
      ensures Calm(old(host.faults)) ==> Calm(host.faults) && s.Done?
    {
      var passed;
      s, passed := host.Check();
      if s.IsFailure() { return; }
      journal := journal.(phase := Completed);
      s := Save();
    }

    ghost predicate GoingBack()
      reads this
    {
      DirectionOf(journal.effects) != GoForward && !Terminal(journal.phase)
    }

    /** Puts every target back, last binding first; each restore is journaled. */
    method RestoreBindings() returns (s: Status)
      requires Sound() && GoingBack() && host.disk.journal == journal
      requires host.met.None?
      modifies this`journal, host`disk, host`faults, host`lost, host`writes, host`tampering, host`disturbed, host`met
      ensures Sound() && GoingBack()
      ensures DirectionOf(journal.effects) == DirectionOf(old(journal.effects))
      ensures s.Done? ==> host.disk.journal == journal && (!host.disturbed ==> AllBefore(plan, host.disk.files))
      ensures old(Steady()) && s.Done? ==> BeforeFrom(plan, old(journal.effects), host.disk.files, 0)
      ensures s.Raised? ==> s.exn in {Interrupted, NeedsOperator}
      ensures s == Raised(NeedsOperator) ==> host.disturbed && host.disk.journal == journal
      ensures old(Steady()) ==> Steady() && s != Raised(NeedsOperator)
      ensures AsksOperator(s)
      ensures old(host.disturbed) ==> host.disturbed
      ensures Undisturbed(old(host.tampering), old(host.disturbed)) ==> Undisturbed(host.tampering, host.disturbed)
      ensures WroteBefore(plan, old(host.writes), host.writes, 0)
      ensures Calm(old(host.faults)) ==> Calm(host.faults) && (s.Done? || s == Raised(NeedsOperator))
    {
      hide Consistent, Accounted, TargetsKept, Behind;
      for i := |plan.bindings| downto 0
        invariant Sound() && GoingBack() && host.disk.journal == journal
        invariant DirectionOf(journal.effects) == DirectionOf(old(journal.effects))
        invariant !host.disturbed ==> forall j :: i <= j < |plan.bindings| ==>
                    HoldsBefore(plan.bindings[j], host.disk.files)
        invariant old(host.disturbed) ==> host.disturbed
        invariant host.met.None?
        invariant forall j :: 0 <= j < i ==> IsReversed(journal.effects, j) == IsReversed(old(journal.effects), j)
        invariant old(Steady()) ==> Steady() && BeforeFrom(plan, old(journal.effects), host.disk.files, i)
        invariant Undisturbed(old(host.tampering), old(host.disturbed)) ==> Undisturbed(host.tampering, host.disturbed)
        invariant WroteBefore(plan, old(host.writes), host.writes, i)
        invariant Calm(old(host.faults)) ==> Calm(host.faults)
      {
        ghost var before := host.writes;
        s := RestoreOne(i);
        OneMoreBefore(plan, old(host.writes), before, host.writes, i);
        if s.IsFailure() { return; }
      }
      s := Done;
    }

    method RestoreOne(i: nat) returns (s: Status)
      requires Sound() && GoingBack() && host.disk.journal == journal && i < |plan.bindings|
      requires host.met.None?
      modifies this`journal, host`disk, host`faults, host`lost, host`writes, host`tampering, host`disturbed, host`met
      ensures Sound() && GoingBack()
      ensures DirectionOf(journal.effects) == DirectionOf(old(journal.effects))
      ensures forall j :: 0 <= j && j != i ==> IsReversed(journal.effects, j) == IsReversed(old(journal.effects), j)
      ensures old(Steady()) && s.Done? ==>
                && (IsReversed(old(journal.effects), i) || HoldsBefore(plan.bindings[i], host.disk.files))
                && KeepsBefore(plan, old(host.disk.files), host.disk.files)
      ensures s.Done? ==>
                && host.disk.journal == journal
                && (!host.disturbed ==>
                      && HoldsBefore(plan.bindings[i], host.disk.files)
                      && KeepsBefore(plan, old(host.disk.files), host.disk.files))
      ensures s.Raised? ==> s.exn in {Interrupted, NeedsOperator}
      ensures s == Raised(NeedsOperator) ==> host.disturbed && host.disk.journal == journal
      ensures old(Steady()) ==> Steady() && s != Raised(NeedsOperator)
      ensures AsksOperator(s)
      ensures old(host.disturbed) ==> host.disturbed
      ensures Undisturbed(old(host.tampering), old(host.disturbed)) ==> Undisturbed(host.tampering, host.disturbed)
      ensures Wrote(old(host.writes), host.writes, i, plan.bindings[i].before)
      ensures Calm(old(host.faults)) ==> Calm(host.faults) && (s.Done? || s == Raised(NeedsOperator))
    {
      hide Consistent, Accounted, TargetsKept, Behind, OwnWrite;
      if !host.disturbed {
        TargetKnown(plan, host.disk, i);
      }
      if IsReversed(journal.effects, i) {
        return Done;
      }
      LetOthersWrite();
      if ObserveBinding(plan.bindings[i], host.disk.files) == Unknown {
        host.met := Some(host.disk.files);
        assert IsPlanned(plan, Bind(i));
        return Raised(NeedsOperator);
      }
      s := GiveBack(i);
    }

    /** Restores a known target and journals that. */
    method GiveBack(i: nat) returns (s: Status)
      requires Sound() && GoingBack() && host.disk.journal == journal && i < |plan.bindings|
      requires ObserveBinding(plan.bindings[i], host.disk.files) != Unknown
      modifies this`journal, host`disk, host`faults, host`lost, host`writes
      ensures Sound() && GoingBack()
      ensures DirectionOf(journal.effects) == DirectionOf(old(journal.effects))
      ensures forall j :: 0 <= j && j != i ==> IsReversed(journal.effects, j) == IsReversed(old(journal.effects), j)
      ensures s.Done? ==> host.disk.journal == journal && HoldsBefore(plan.bindings[i], host.disk.files)
      ensures s.Raised? ==> s.exn == Interrupted
      ensures KeepsBefore(plan, old(host.disk.files), host.disk.files)
      ensures NoneForeign(plan, old(journal.effects), old(host.disk.files)) ==>
                NoneForeign(plan, journal.effects, host.disk.files)
      ensures Wrote(old(host.writes), host.writes, i, plan.bindings[i].before)
      ensures Calm(old(host.faults)) ==> Calm(host.faults) && s.Done?
    {
      hide Consistent, Accounted, TargetsKept, Behind;
      if ObserveBinding(plan.bindings[i], host.disk.files) == IsComplete {
        s := PutBack(i);
        if s.IsFailure() { return; }
      }
      s := MarkReversed(i);
    }

    /** Writes (or, for an absent before, removes) the target of binding `i` as it was. */
    method PutBack(i: nat) returns (s: Status)
      requires Sound() && GoingBack() && host.disk.journal == journal && i < |plan.bindings|
      requires ObserveBinding(plan.bindings[i], host.disk.files) == IsComplete
      modifies host`disk, host`faults, host`writes
      ensures Sound() && host.disk.journal == journal
      ensures s.Raised? ==> s.exn == Interrupted
      ensures s.Done? ==> HoldsBefore(plan.bindings[i], host.disk.files)
      ensures KeepsBefore(plan, old(host.disk.files), host.disk.files)
      ensures ObserveBinding(plan.bindings[i], host.disk.files) != Unknown
      ensures forall j :: 0 <= j < |plan.bindings| && j != i ==>
                ObserveBinding(plan.bindings[j], host.disk.files)
                == ObserveBinding(plan.bindings[j], old(host.disk.files))
      ensures Wrote(old(host.writes), host.writes, i, plan.bindings[i].before)
      ensures Calm(old(host.faults)) ==> Calm(host.faults) && s.Done?
    {
      hide Consistent;
      RestoreKeeps(plan, host.disk, i);
      s := host.Put(plan, i, plan.bindings[i].before);
    }

    method MarkReversed(i: nat) returns (s: Status)
      requires Sound() && GoingBack() && host.disk.journal == journal && i < |plan.bindings|
      requires !host.disturbed ==> HoldsBefore(plan.bindings[i], host.disk.files)
      modifies this`journal, host`disk, host`faults, host`lost
      ensures Sound() && GoingBack()
      ensures DirectionOf(journal.effects) == DirectionOf(old(journal.effects))
      ensures host.disk == old(host.disk).(journal := host.disk.journal)
      ensures forall j :: 0 <= j && j != i ==> IsReversed(journal.effects, j) == IsReversed(old(journal.effects), j)
      ensures IsReversed(journal.effects, i) || journal == old(journal)
      ensures s.Done? ==> host.disk.journal == journal
      ensures s.Raised? ==> s.exn == Interrupted
      ensures Calm(old(host.faults)) ==> Calm(host.faults) && s.Done?
    {
      hide Consistent, TargetsKept;
      var e := Bind(i);
      if e !in journal.effects {
        return Done;
      }
      ReverseKeeps(plan, host.disk, i);
      journal := journal.(effects := journal.effects[e := Entry(Reversed, journal.effects[e].identity)]);
      s := Save();
    }

    /** Journals that the operation goes back from here on. */
    method TurnBack(mark: EffectId, ph: Phase) returns (s: Status)
      requires Sound() && mark in {RollbackMark, AbandonMark} && !Terminal(ph)
      requires !Terminal(journal.phase)
      requires DirectionOf(journal.effects) == GoForward || mark in journal.effects
      modifies this`journal, host`disk, host`faults, host`lost
      ensures Sound() && GoingBack() && mark in journal.effects && host.disk.files == old(host.disk.files)
      ensures forall i :: IsReversed(journal.effects, i) == IsReversed(old(journal.effects), i)
      ensures DirectionOf(old(journal.effects)) != GoForward ==>
                DirectionOf(journal.effects) == DirectionOf(old(journal.effects))
      ensures s.Done? ==> host.disk.journal == journal
      ensures s.Raised? ==> s.exn == Interrupted
      ensures Calm(old(host.faults)) ==> Calm(host.faults) && s.Done?
    {
      hide Consistent;
      TurnBackKeeps(plan, host.disk.(journal := journal), mark, ph);
      journal := Journal(ph, if mark in journal.effects then journal.effects
                             else journal.effects[mark := Entry(Intended, None)]);
      s := Save();
    }

    /** Journals the end of the way back. */
    method Close(mark: EffectId, ph: Phase) returns (s: Status)
      requires Sound() && GoingBack() && host.disk.journal == journal
      requires mark in {RollbackMark, AbandonMark} && ph in {RolledBack, Abandoned}
      requires !host.disturbed ==> AllBefore(plan, host.disk.files)
      modifies this`journal, host`disk, host`faults, host`lost
      ensures Sound() && journal.phase == ph && DirectionOf(journal.effects) != GoForward
      ensures host.disk == old(host.disk).(journal := host.disk.journal)
      ensures s.Done? ==> host.disk.journal == journal
      ensures s.Raised? ==> s.exn == Interrupted
      ensures Calm(old(host.faults)) ==> Calm(host.faults) && s.Done?
    {
      hide Consistent;
      CloseKeeps(plan, host.disk, mark, ph);
      journal := Journal(ph, journal.effects[mark := Entry(Complete, None)]);
      s := Save();
    }

    /** After a failed verification: journal the rollback, put the targets back, close. */
    method Rollback() returns (s: Status)
      requires Sound() && !Terminal(journal.phase) && DirectionOf(journal.effects) != GoAbandon
      requires host.met.None?
      modifies this`journal, host`disk, host`faults, host`lost, host`writes, host`tampering, host`disturbed, host`met
      ensures Sound()
      ensures s.Done? ==> host.disk.journal == journal && journal.phase == RolledBack
      ensures s.Raised? ==> s.exn in {Interrupted, NeedsOperator} && DirectionOf(journal.effects) != GoForward
      ensures s == Raised(NeedsOperator) ==> host.disturbed && GoingBack() && host.disk.journal == journal
      ensures old(Steady()) ==> s != Raised(NeedsOperator)
      ensures old(Steady()) && s.Done? ==> BeforeFrom(plan, old(journal.effects), host.disk.files, 0)
      ensures Undisturbed(old(host.tampering), old(host.disturbed)) ==> Undisturbed(host.tampering, host.disturbed)
      ensures AsksOperator(s)
      ensures old(host.disturbed) ==> host.disturbed
      ensures WroteBefore(plan, old(host.writes), host.writes, 0)
      ensures Calm(old(host.faults)) ==> Calm(host.faults) && (s.Done? || s == Raised(NeedsOperator))
    {
      hide Consistent, TargetsKept, Accounted, Behind, WroteBefore, AllBefore, OwnWrite;
      NothingWritten(plan, host.writes, 0);
      s := TurnBack(RollbackMark, RollingBack);
      if s.IsFailure() { return; }
      s := RestoreBindings();
      if s.IsFailure() { return; }
      s := Close(RollbackMark, RolledBack);
    }

    /** Removes a private tree: it is damaged before it is gone. */
    method RemoveStaging() returns (s: Status)
      requires Sound() && host.disk.journal == journal
      requires DirectionOf(journal.effects) != GoForward || journal.phase == Cancelled
      modifies host`disk, host`faults
      ensures Sound() && host.disk.journal == journal && host.disk.files == old(host.disk).files
      ensures host.disk.release == old(host.disk).release && host.disk.aside == old(host.disk).aside
      ensures s.Done? ==> host.disk.staging.None?
      ensures s.Raised? ==> s.exn == Interrupted
      ensures Calm(old(host.faults)) ==> Calm(host.faults) && s.Done?
    {
      if host.disk.staging.None? {
        return Done;
      }
      s := host.Act(host.disk.(staging := Some(host.disk.staging.value.(whole := false))));
      if s.IsFailure() { return; }
      s := host.Act(host.disk.(staging := None));
    }

    /** On request: journal the abandon, put the targets back, remove the staging, close. */
    method Abandon() returns (s: Status)
      requires Sound() && !Terminal(journal.phase) && DirectionOf(journal.effects) != GoRollback
      requires host.met.None?
      modifies this`journal, host`disk, host`faults, host`lost, host`writes, host`tampering, host`disturbed, host`met
      ensures Sound()
      ensures s.Done? ==> host.disk.journal == journal && journal.phase == Abandoned && host.disk.staging.None?
      ensures s.Raised? ==> s.exn in {Interrupted, NeedsOperator} && DirectionOf(journal.effects) != GoForward
      ensures s == Raised(NeedsOperator) ==> host.disturbed && GoingBack() && host.disk.journal == journal
      ensures old(Steady()) ==> s != Raised(NeedsOperator)
      ensures old(Steady()) && s.Done? ==> BeforeFrom(plan, old(journal.effects), host.disk.files, 0)
      ensures Undisturbed(old(host.tampering), old(host.disturbed)) ==> Undisturbed(host.tampering, host.disturbed)
      ensures AsksOperator(s)
      ensures old(host.disturbed) ==> host.disturbed
      ensures WroteBefore(plan, old(host.writes), host.writes, 0)
      ensures Calm(old(host.faults)) ==> Calm(host.faults) && (s.Done? || s == Raised(NeedsOperator))
    {
      hide Consistent, TargetsKept, Accounted, Behind, WroteBefore, AllBefore, OwnWrite;
      NothingWritten(plan, host.writes, 0);
      s := TurnBack(AbandonMark, Abandoning);
      if s.IsFailure() { return; }
      s := RestoreBindings();
      if s.IsFailure() { return; }
      s := RemoveStaging();
      if s.IsFailure() { return; }
      s := Close(AbandonMark, Abandoned);
    }

    /** Before the commit point: journal `cancelled` first, then remove this operation's own trees. */
    method Cancel() returns (s: Status)
      requires Sound() && GoingForward() && Bind(0) !in journal.effects
      modifies this`journal, host`disk, host`faults, host`lost
      ensures Sound()
      ensures journal == old(journal).(phase := Cancelled)
      ensures host.disk.files == old(host.disk).files
      ensures host.lost == !Happens(old(host.faults))
      ensures host.disk.journal == if Happens(old(host.faults)) then journal else old(host.disk).journal
      ensures if Happens(old(host.faults)) then s.Done? ==> host.disk.staging.None? else s == Verdict(old(host.faults))
      ensures s.Done? && !plan.selectedExisting ==> host.disk.release.None?
      ensures s.Raised? ==> s.exn == Interrupted
      ensures Calm(old(host.faults)) ==> Calm(host.faults) && s.Done?
    {
      hide Consistent;
      CancelKeeps(plan, host.disk.(journal := journal));
      journal := journal.(phase := Cancelled);
      s := Save();
      if s.IsFailure() { return; }
      s := RemoveStaging();
      if s.IsFailure() { return; }
      s := RemovePublished();
    }

    /** One rename takes an own published release out of the releases first; then it is removed. */
    method RemovePublished() returns (s: Status)
      requires Sound() && host.disk.journal == journal && journal.phase == Cancelled
      modifies host`disk, host`faults
      ensures Sound() && host.disk.journal == journal
      ensures host.disk.files == old(host.disk).files && host.disk.staging == old(host.disk).staging
      ensures s.Done? && OwnRelease(journal.effects, old(host.disk).release) ==> host.disk.release.None?
      ensures s.Done? && old(host.disk).release.None? ==> host.disk.release.None?
      ensures s.Raised? ==> s.exn == Interrupted
      ensures Calm(old(host.faults)) ==> Calm(host.faults) && s.Done?
    {
      if !OwnRelease(journal.effects, host.disk.release) {
        return Done;
      }
      s := host.Act(host.disk.(release := None, aside := host.disk.release));
      if s.IsFailure() { return; }
      s := host.Act(host.disk.(aside := Some(host.disk.aside.value.(whole := false))));
      if s.IsFailure() { return; }
      s := host.Act(host.disk.(aside := None));
    }

    method EnterNeedsOperator() returns (r: Report)
      requires Sound() && !Terminal(journal.phase)
      modifies this`journal, host`disk, host`faults, host`lost
      ensures Sound() && (r == Died || r == OperatorReport)
      ensures journal.effects == old(journal.effects)
      ensures host.disk == old(host.disk).(journal := host.disk.journal)
      ensures r == OperatorReport ==> Stopped(host.disk.journal, host.lost)
      ensures r == OperatorReport && !host.lost ==> host.disk.journal == journal
      ensures Calm(old(host.faults)) ==>
                && Calm(host.faults) && r == OperatorReport
                && host.disk.journal == journal == old(journal).(phase := OperatorNeeded)
    {
      journal := journal.(phase := OperatorNeeded);
      var s := Save();
      r := if s.Halted? then Died else OperatorReport;
    }

    /** Foreign content met at any moment of a drive ends in the operator report, with all files as they were
        when it was met; nothing else does. */
    ghost predicate MetInDrive(r: Report)
      reads this, host
    {
      && (r == OperatorReport ==> host.met.Some?)
      && (host.met.Some? ==> r in {OperatorReport, Died} && host.disk.files == host.met.value && SeesForeign())
      && (r == OperatorReport && !host.lost ==> host.disk.journal == journal)
    }

    /** Runs an action with the failure handling of a control operation; what the operator is told. */
    method Drive(action: Direction) returns (r: Report)
      requires Sound() && !Terminal(journal.phase) && Fresh()
      requires action == GoForward ==> GoingForward()
      requires action == GoRollback ==> DirectionOf(journal.effects) != GoAbandon
      requires action == GoAbandon ==> DirectionOf(journal.effects) != GoRollback
      modifies this`journal, this`mayFail, host
      ensures Sound()
      ensures host.failed.Some? ==> action == GoForward && Reject in old(host.faults)
      ensures host.failed in {None, Some(Smoke), Some(PreBindVerify), Some(Verify)}
      ensures r in {Finished, RollbackDone} ==> Terminal(host.disk.journal.phase)
      ensures r == Finished ==> host.disk.journal.phase == match action case GoForward => Completed
                                                                       case GoRollback => RolledBack
                                                                       case GoAbandon => Abandoned
      ensures r == RollbackDone ==> host.disk.journal.phase == RolledBack
      ensures r == OperatorReport ==> Stopped(host.disk.journal, host.lost)
      ensures MetInDrive(r)
      ensures r == CancelReported ==> action == GoForward && CancelLeaves(host.disk.journal, host.lost)
      ensures r in {StaysOpen, RollbackInterrupted} ==>
                && (Bind(0) in journal.effects || DirectionOf(journal.effects) != GoForward)
                && (!host.lost ==> host.disk.journal == journal)
      ensures action == GoForward && old(journal.effects) == map[] && FailsAtOnce(old(host.faults))
              && FailsAtOnce(Rest(old(host.faults))) && Undisturbed(old(host.tampering), old(host.disturbed)) ==>
                r == CancelReported && host.lost && host.disk.journal == old(host.disk.journal)
      ensures old(host.disturbed) ==> host.disturbed
      ensures Undisturbed(old(host.tampering), old(host.disturbed)) ==> Undisturbed(host.tampering, host.disturbed)
      ensures Calm(old(host.faults)) ==> r != Died
      ensures old(Steady()) ==> host.met.None?
      ensures old(Steady()) && r == Finished ==> Reaches(plan, old(journal.effects), action, host.disk.files)
      ensures Undisturbed(old(host.tampering), old(host.disturbed)) ==> host.met.None?
      ensures Calm(old(host.faults)) && Terminal(host.disk.journal.phase)
              && (action == GoForward ==> host.disk.journal.phase == Completed) ==>
                r == Finished
      ensures Calm(old(host.faults)) && host.met.None? ==>
                Ends(plan, old(journal.effects), old(host.disk.staging), candidate, action, host.failed,
                     host.disk.journal.phase)
    {
      hide Consistent, Accounted, Behind, CancelLeaves, Stopped, SeesForeign, AllBefore, AllAfter,
           BeforeFrom, TargetsKept, NoneForeign, AllKnown;
      mayFail := Reject in host.faults;
      var s;
      match action {
        case GoForward => SteadyIsClean(); s := Forward();
        case GoRollback => s := Rollback();
        case GoAbandon => s := Abandon();
      }
      if s.Done? {
        return Finished;
      }
      r := AfterFailure(s);
    }

    /** The failure handling of a drive. */
    method AfterFailure(s: Status) returns (r: Report)
      requires Sound() && s.IsFailure() && AsksOperator(s)
      requires s.Raised? && s.exn in {VerifyFailed, StagingLost, SmokeFailed} ==> GoingForward()
      requires s == Raised(NeedsOperator) ==> !Terminal(journal.phase) && host.disturbed
      requires s.Raised? && Bind(0) !in journal.effects && DirectionOf(journal.effects) == GoForward ==> GoingForward()
      modifies this`journal, host`disk, host`faults, host`lost, host`writes, host`tampering, host`disturbed, host`met
      ensures Sound() && r !in {Finished, NothingPending} && (s.Halted? ==> r == Died)
      ensures r == RollbackDone ==> host.disk.journal.phase == RolledBack
      ensures r == OperatorReport ==> Stopped(host.disk.journal, host.lost)
      ensures MetInDrive(r)
      ensures r == CancelReported ==>
                DirectionOf(old(journal.effects)) == GoForward && CancelLeaves(host.disk.journal, host.lost)
      ensures r in {StaysOpen, RollbackInterrupted} ==>
                && (Bind(0) in journal.effects || DirectionOf(journal.effects) != GoForward)
                && (!host.lost ==> host.disk.journal == journal)
      ensures old(host.disturbed) ==> host.disturbed
      ensures Undisturbed(old(host.tampering), old(host.disturbed)) ==> Undisturbed(host.tampering, host.disturbed)
      ensures Calm(old(host.faults)) && !s.Halted? ==> r != Died
      ensures s == Raised(NeedsOperator) ==> host.met.Some?
      ensures Calm(old(host.faults)) && s == Raised(NeedsOperator) ==> host.disk.journal.phase == OperatorNeeded
      ensures Calm(old(host.faults)) && s == Raised(VerifyFailed) ==>
                host.disk.journal.phase in {RolledBack, OperatorNeeded}
      ensures s != Raised(NeedsOperator)
              && (s == Raised(VerifyFailed) ==>
                    old(Clean()) || Undisturbed(old(host.tampering), old(host.disturbed))) ==>
                host.met.None?
      ensures Calm(old(host.faults)) && host.met.None? && s == Raised(VerifyFailed) ==>
                host.disk.journal.phase == RolledBack
      ensures s.Raised? && s.exn !in {VerifyFailed, NeedsOperator} && Bind(0) !in old(journal.effects)
              && DirectionOf(old(journal.effects)) == GoForward ==>
                && (Calm(old(host.faults)) ==> host.disk.journal.phase == Cancelled)
                && (FailsAtOnce(old(host.faults)) ==>
                      r == CancelReported && host.lost && host.disk.journal == old(host.disk.journal))
    {
      hide Consistent, Accounted, Behind, CancelLeaves, Stopped, AllBefore, TargetsKept;
      if s.Halted? {
        r := Died;
      } else if s.exn == NeedsOperator {
        r := EnterNeedsOperator();
      } else if s.exn == VerifyFailed {
        r := RollBackAfterVerify();
      } else {
        r := StayOrCancel();
      }
    }

    /** Past the commit point, or on the way back, the operation stays open; before it, it is cancelled. */
    method StayOrCancel() returns (r: Report)
      requires Sound() && (Bind(0) !in journal.effects && DirectionOf(journal.effects) == GoForward ==> GoingForward())
      modifies this`journal, host`disk, host`faults, host`lost
      ensures Sound() && r in {StaysOpen, CancelReported, Died}
      ensures r == StaysOpen ==>
                && (Bind(0) in journal.effects || DirectionOf(journal.effects) != GoForward)
                && (!host.lost ==> host.disk.journal == journal)
      ensures r == CancelReported ==>
                Bind(0) !in old(journal.effects) && DirectionOf(old(journal.effects)) == GoForward
      ensures r == CancelReported ==> CancelLeaves(host.disk.journal, host.lost)
      ensures Calm(old(host.faults)) ==> r != Died
      ensures host.lost ==> host.disk.journal == old(host.disk.journal)
      ensures Bind(0) !in old(journal.effects) && DirectionOf(old(journal.effects)) == GoForward ==>
                && r != StaysOpen && (FailsAtOnce(old(host.faults)) ==> r == CancelReported && host.lost)
                && (Calm(old(host.faults)) ==> r == CancelReported && host.disk.journal.phase == Cancelled)
    {
      hide Consistent;
      var s;
      if Committed() || DirectionOf(journal.effects) != GoForward {
        s := Save();
        r := if s.Halted? then Died else StaysOpen;
      } else {
        s := Cancel();
        r := if s.Halted? then Died else CancelReported;
      }
    }

    method RollBackAfterVerify() returns (r: Report)
      requires Sound() && GoingForward()
      requires host.met.None?
      modifies this`journal, host`disk, host`faults, host`lost, host`writes, host`tampering, host`disturbed, host`met
      ensures Sound()
      ensures r in {RollbackDone, RollbackInterrupted, OperatorReport, Died}
      ensures r == OperatorReport ==> Stopped(host.disk.journal, host.lost)
      ensures MetInDrive(r)
      ensures Calm(old(host.faults)) ==> r != Died
      ensures r == RollbackInterrupted ==>
                DirectionOf(journal.effects) != GoForward && (!host.lost ==> host.disk.journal == journal)
      ensures r == RollbackDone ==> host.disk.journal.phase == RolledBack
      ensures old(host.disturbed) ==> host.disturbed
      ensures Undisturbed(old(host.tampering), old(host.disturbed)) ==> Undisturbed(host.tampering, host.disturbed)
      ensures old(Clean()) ==> host.met.None?
      ensures Undisturbed(old(host.tampering), old(host.disturbed)) ==> host.met.None?
      ensures Calm(old(host.faults)) ==>
                host.disk.journal.phase == if host.met.None? then RolledBack else OperatorNeeded
    {
      hide Consistent, TargetsKept;
      SteadyIsClean();
      var s := Rollback();
      if s.Done? {
        r := RollbackDone;
      } else if s.Halted? {
        r := Died;
      } else if s.exn == NeedsOperator {
        r := EnterNeedsOperator();
      } else {
        s := Save();
        r := if s.Halted? then Died else RollbackInterrupted;
      }
    }

    /** The resume pre-pass: looks at every effect before anything is changed. */
    method FirstUnknown(direction: Direction) returns (found: bool)
      requires Sound() && host.disk.journal == journal
      requires direction == GoForward ==> GoingForward()
      requires host.met.None?
      modifies host`disk, host`tampering, host`disturbed, host`met
      ensures Sound()
      ensures host.disk == old(host.disk).(files := host.disk.files)
      ensures found ==> host.disturbed
      ensures AsksOperator(if found then Raised(NeedsOperator) else Done)
      ensures old(host.disturbed) ==> host.disturbed
      ensures old(host.tampering) == [] ==>
                && host.tampering == [] && host.disk == old(host.disk) && host.disturbed == old(host.disturbed)
                && (ForeignTarget(plan, host.disk, direction) <==> found) && (!found ==> Steady())
    {
      hide Consistent, Accounted, TargetsKept;
      found := false;
      if direction != GoForward {
        for i := 0 to |plan.bindings|
          invariant Sound() && host.met.None?
          invariant host.disk == old(host.disk).(files := host.disk.files)
          invariant old(host.disturbed) ==> host.disturbed
          invariant old(host.tampering) == [] ==>
                      && host.tampering == [] && host.disk == old(host.disk) && host.disturbed == old(host.disturbed)
                      && forall j :: 0 <= j < i ==>
                           || IsReversed(journal.effects, j)
                           || ObserveBinding(plan.bindings[j], host.disk.files) != Unknown
        {
          if IsReversed(journal.effects, i) {
            continue;
          }
          var unknown := LooksUnknown(Bind(i), direction);
          if unknown {
            return true;
          }
        }
      } else {
        var planned := PlannedEffects(plan);
        PlannedEffectsListed(plan);
        for k := 0 to |planned|
          invariant Sound() && host.met.None?
          invariant host.disk == old(host.disk).(files := host.disk.files)
          invariant old(host.disturbed) ==> host.disturbed
          invariant old(host.tampering) == [] ==>
                      && host.tampering == [] && host.disk == old(host.disk) && host.disturbed == old(host.disturbed)
                      && forall j :: 0 <= j < k && planned[j].Bind? ==>
                           ObserveBinding(plan.bindings[planned[j].index], host.disk.files) != Unknown
        {
          if IsCheck(planned[k]) || planned[k] == StageRelease {
            continue;
          }
          var unknown := LooksUnknown(planned[k], direction);
          if unknown {
            return true;
          }
        }
        forall i | 0 <= i < |plan.bindings| && old(host.tampering) == []
          ensures ObserveBinding(plan.bindings[i], host.disk.files) != Unknown
        {
          assert planned[Place(plan, Bind(i))] == Bind(i);
        }
      }
    }

    method LooksUnknown(e: EffectId, direction: Direction) returns (unknown: bool)
      requires Sound() && host.disk.journal == journal && IsPlanned(plan, e) && !IsCheck(e) && e != StageRelease
      requires if direction == GoForward then GoingForward() else e.Bind?
      requires host.met.None?
      modifies host`disk, host`tampering, host`disturbed, host`met
      ensures Sound()
      ensures host.disk == old(host.disk).(files := host.disk.files)
      ensures unknown == (ObserveEffect(plan, e, journal.effects, host.disk) == Unknown)
      ensures unknown ==> host.disturbed && e.Bind?
      ensures AsksOperator(if unknown then Raised(NeedsOperator) else Done)
      ensures old(host.disturbed) ==> host.disturbed
      ensures old(host.tampering) == [] ==>
                host.tampering == [] && host.disk == old(host.disk) && host.disturbed == old(host.disturbed)
    {
      hide Consistent, Accounted, TargetsKept;
      if !host.disturbed && e.Bind? {
        TargetKnown(plan, host.disk, e.index);
      }
      LetOthersWrite();
      if !e.Bind? {
        ObservationKnown(plan, host.disk, e);
      }
      unknown := ObserveEffect(plan, e, journal.effects, host.disk) == Unknown;
      if unknown {
        host.met := Some(host.disk.files);
      }
    }

    /** Out of `needs_operator`: the phase is recomputed from the effects before the forward drive. */
    method ReopenForward() returns (r: Report)
      requires Sound() && GoingForward() && Fresh()
      modifies this`journal, this`mayFail, host
      ensures host.Safe(plan)
      ensures host.failed.Some? ==> Reject in old(host.faults)
      ensures host.failed in {None, Some(Smoke), Some(PreBindVerify), Some(Verify)}
      ensures r == CancelReported ==> CancelLeaves(host.disk.journal, host.lost)
      ensures r == OperatorReport ==> Stopped(host.disk.journal, host.lost)
      ensures MetInDrive(r)
      ensures Calm(old(host.faults)) ==> r != Died
      ensures old(host.disturbed) ==> host.disturbed
      ensures Undisturbed(old(host.tampering), old(host.disturbed)) ==> Undisturbed(host.tampering, host.disturbed)
      ensures old(Steady()) ==> host.met.None?
      ensures old(Steady()) && r == Finished ==> Reaches(plan, old(journal.effects), GoForward, host.disk.files)
      ensures Undisturbed(old(host.tampering), old(host.disturbed)) ==> host.met.None?
      ensures Calm(old(host.faults)) && host.disk.journal.phase == Completed ==> r == Finished
      ensures Calm(old(host.faults)) && host.met.None? ==>
                Ends(plan, old(journal.effects), old(host.disk.staging), candidate, GoForward, host.failed,
                     host.disk.journal.phase)
    {
      hide TargetsKept;
      PhaseFromMatches(plan, journal);
      PhaseKeeps(plan, host.disk.(journal := journal), PhaseFrom(PlannedEffects(plan), journal.effects));
      journal := journal.(phase := PhaseFrom(PlannedEffects(plan), journal.effects));
      var s := Save();
      if s.IsFailure() {
        return if s.Halted? then Died else StaysOpen;
      }
      r := Drive(GoForward);
    }

    /** The commit effect is journaled. */
    predicate Committed()
      reads this
    {
      Bind(0) in journal.effects
    }
  }

  lemma CancelKeeps(p: Plan, d: Disk)
    requires WellFormed(p) && Consistent(p, d) && DirectionOf(d.journal.effects) == GoForward
    requires Bind(0) !in d.journal.effects && d.journal.phase != Cancelled
    ensures var after := d.(journal := d.journal.(phase := Cancelled));
            Consistent(p, after) && (TargetsKept(p, d) ==> TargetsKept(p, after))
    ensures !p.selectedExisting && d.release.Some? ==>
              PublishRelease in d.journal.effects && StageIdentity(d.journal.effects) == Some(d.release.value.id)
  {
    assert IsPlanned(p, Bind(0));
  }

  /** `pf install resume [--abandon]`: a fresh process reads the journal and goes on from there. */
  method Resume(p: Plan, h: Host, abandon: bool) returns (r: Report)
    requires h.Safe(p)
    modifies h
    ensures h.Safe(p)
    ensures r == CancelReported ==> CancelLeaves(h.disk.journal, h.lost)
    ensures r == OperatorReport ==> Stopped(h.disk.journal, h.lost) && h.met.Some?
    ensures h.met.Some? ==> r in {OperatorReport, Died} && h.disk.files == h.met.value
    ensures h.met.Some? && !h.lost && r == OperatorReport ==>
              exists e :: IsPlanned(p, e) && ObserveEffect(p, e, h.disk.journal.effects, h.disk) == Unknown
    ensures h.failed.Some? ==>
              Reject in old(h.faults) && EffectiveDirection(old(h.disk.journal), abandon) == GoForward
    ensures h.failed in {None, Some(Smoke), Some(PreBindVerify), Some(Verify)}
    ensures Calm(old(h.faults)) ==> r != Died
    ensures old(h.disturbed) ==> h.disturbed
    ensures Undisturbed(old(h.tampering), old(h.disturbed)) ==> Undisturbed(h.tampering, h.disturbed)
    ensures Terminal(old(h.disk.journal.phase)) ==>
              r == NothingPending && h.disk == old(h.disk) && h.writes == old(h.writes)
    ensures !Terminal(old(h.disk.journal.phase)) && Calm(old(h.faults)) && h.met.None? ==>
              Ends(p, old(h.disk.journal.effects), old(h.disk.staging), false,
                   EffectiveDirection(old(h.disk.journal), abandon), h.failed, h.disk.journal.phase)
    ensures !Terminal(old(h.disk.journal.phase)) && Calm(old(h.faults)) && Reject !in old(h.faults) && h.met.None? ==>
              Ends(p, old(h.disk.journal.effects), old(h.disk.staging), false,
                   EffectiveDirection(old(h.disk.journal), abandon), None, h.disk.journal.phase)
    ensures !Terminal(old(h.disk.journal.phase)) && Calm(old(h.faults)) && Terminal(h.disk.journal.phase)
            && (EffectiveDirection(old(h.disk.journal), abandon) == GoForward ==>
                  h.disk.journal.phase == Completed) ==>
              r == Finished
    ensures Undisturbed(old(h.tampering), old(h.disturbed)) ==> h.met.None?
    ensures !Terminal(old(h.disk.journal.phase)) && old(h.tampering) == [] ==>
              (h.met.Some? <==> ForeignTarget(p, old(h.disk), EffectiveDirection(old(h.disk.journal), abandon)))
    ensures Calm(old(h.faults)) && old(h.tampering) == [] ==>
              (Terminal(h.disk.journal.phase) <==>
               Terminal(old(h.disk.journal.phase))
               || !ForeignTarget(p, old(h.disk), EffectiveDirection(old(h.disk.journal), abandon)))
    ensures !Terminal(old(h.disk.journal.phase)) && old(h.tampering) == [] && r == Finished ==>
              Reaches(p, old(h.disk.journal.effects), EffectiveDirection(old(h.disk.journal), abandon), h.disk.files)
    ensures !Terminal(old(h.disk.journal.phase)) && Calm(old(h.faults)) && old(h.tampering) == []
            && ForeignTarget(p, old(h.disk), EffectiveDirection(old(h.disk.journal), abandon)) ==>
              && r == OperatorReport && h.writes == old(h.writes)
              && h.disk == old(h.disk).(journal := old(h.disk.journal).(phase := OperatorNeeded))
  {
    hide Consistent, Accounted, Behind, CancelLeaves, Stopped, TargetsKept, ForeignTarget, NoneForeign, Reaches, Ends;
    EndsTerminal(p, h.disk, EffectiveDirection(h.disk.journal, abandon));
    h.met, h.failed := None, None;
    if Terminal(h.disk.journal.phase) {
      return NothingPending;
    }
    var run := new Run.Load(p, h, false);
    OpenIsOrdinary(p, h.disk.journal, h.writes);
    var direction := EffectiveDirection(run.journal, abandon);
    var unknown := run.FirstUnknown(direction);
    if unknown {
      r := run.EnterNeedsOperator();
    } else if direction == GoForward && run.journal.phase == OperatorNeeded {
      r := run.ReopenForward();
    } else {
      r := run.Drive(direction);
    }
  }

  lemma EndsTerminal(p: Plan, d: Disk, action: Direction)
    ensures forall failed, ph :: Ends(p, d.journal.effects, d.staging, false, action, failed, ph) ==> Terminal(ph)
  {
  }

  lemma OpenIsOrdinary(p: Plan, j: Journal, writes: seq<Write>)
    requires Accounted(p, j, writes) && !Terminal(j.phase)
    ensures DirectionOf(j.effects) == GoForward ==> Ordinary(j.phase)
  {
  }

  function EffectiveDirection(j: Journal, abandon: bool): Direction {
    var direction := DirectionOf(j.effects);
    if abandon && direction == GoForward then GoAbandon else direction
  }

  /** Undisturbed, a target is never foreign, and a journaled restore has happened. */
  lemma TargetKnown(p: Plan, d: Disk, i: nat)
    requires WellFormed(p) && i < |p.bindings| && TargetsKept(p, d)
    ensures ObserveBinding(p.bindings[i], d.files) in {NotStarted, IsComplete}
    ensures Bind(i) in d.journal.effects && d.journal.effects[Bind(i)].state == Reversed ==>
              HoldsBefore(p.bindings[i], d.files)
  {
    assert TargetAccounted(p.bindings[i], EntryOf(d.journal.effects, Bind(i)), d.files);
  }

  lemma PhaseKeeps(p: Plan, d: Disk, ph: Phase)
    requires WellFormed(p) && Consistent(p, d)
    requires DirectionOf(d.journal.effects) == GoForward && Ordinary(d.journal.phase) && Ordinary(ph)
    ensures Consistent(p, d.(journal := d.journal.(phase := ph)))
    ensures TargetsKept(p, d) ==> TargetsKept(p, d.(journal := d.journal.(phase := ph)))
  {
  }

  lemma PutKeeps(p: Plan, d: Disk, i: nat)
    requires WellFormed(p) && i < |p.bindings| && Consistent(p, d)
    requires DirectionOf(d.journal.effects) == GoForward && Bind(i) in d.journal.effects
    requires d.journal.effects[Bind(i)].state == Intended && !Terminal(d.journal.phase)
    ensures var after := d.(files := FilesWith(p, d.files, i, Some(p.bindings[i].after)));
            Consistent(p, after) && (TargetsKept(p, d) ==> TargetsKept(p, after))
  {
  }

  lemma RestoreKeeps(p: Plan, d: Disk, i: nat)
    requires WellFormed(p) && i < |p.bindings| && Consistent(p, d)
    requires DirectionOf(d.journal.effects) != GoForward && !Terminal(d.journal.phase)
    ensures var after := d.(files := FilesWith(p, d.files, i, p.bindings[i].before));
            && Consistent(p, after) && (TargetsKept(p, d) ==> TargetsKept(p, after))
            && HoldsBefore(p.bindings[i], after.files) && KeepsBefore(p, d.files, after.files)
            && forall j :: 0 <= j < |p.bindings| && j != i ==>
                 ObserveBinding(p.bindings[j], after.files) == ObserveBinding(p.bindings[j], d.files)
  {
  }

  lemma ReverseKeeps(p: Plan, d: Disk, i: nat)
    requires WellFormed(p) && i < |p.bindings| && Consistent(p, d)
    requires DirectionOf(d.journal.effects) != GoForward && !Terminal(d.journal.phase)
    requires Bind(i) in d.journal.effects
    ensures var entry := Entry(Reversed, d.journal.effects[Bind(i)].identity);
            var after := d.(journal := d.journal.(effects := d.journal.effects[Bind(i) := entry]));
            Consistent(p, after) && (TargetsKept(p, d) && HoldsBefore(p.bindings[i], d.files) ==> TargetsKept(p, after))
  {
  }

  lemma TurnBackKeeps(p: Plan, d: Disk, mark: EffectId, ph: Phase)
    requires WellFormed(p) && Consistent(p, d)
    requires mark in {RollbackMark, AbandonMark} && !Terminal(ph)
    ensures var effects := if mark in d.journal.effects then d.journal.effects
                           else d.journal.effects[mark := Entry(Intended, None)];
            var after := d.(journal := Journal(ph, effects));
            Consistent(p, after) && (TargetsKept(p, d) ==> TargetsKept(p, after))
  {
  }

  lemma CloseKeeps(p: Plan, d: Disk, mark: EffectId, ph: Phase)
    requires WellFormed(p) && Consistent(p, d)
    requires mark in {RollbackMark, AbandonMark} && ph in {RolledBack, Abandoned}
    ensures var after := d.(journal := Journal(ph, d.journal.effects[mark := Entry(Complete, None)]));
            Consistent(p, after) && (TargetsKept(p, d) && AllBefore(p, d.files) ==> TargetsKept(p, after))
  {
  }

  ghost predicate Undisturbed(tampering: seq<map<Target, Option<File>>>, disturbed: bool) {
    tampering == [] && !disturbed
  }

  ghost predicate DoneBelow(p: Plan, effects: map<EffectId, Entry>, k: nat) {
    forall j :: 0 <= j < k && j < |PlannedEffects(p)| ==> IsDone(effects, PlannedEffects(p)[j])
  }

  lemma BeginsWithoutBinding(p: Plan)
    ensures PlannedEffects(p) != [] && !PlannedEffects(p)[0].Bind?
  {
  }

  lemma StagesFirst(p: Plan)
    ensures forall k :: 0 <= k < |PlannedEffects(p)| ==>
              (PlannedEffects(p)[k] == StageRelease <==> k == 0 && !p.selectedExisting)
  {
  }

  /** The bindings among the first `k` planned effects hold their after bytes. */
  ghost predicate AfterBelow(p: Plan, files: map<Target, File>, k: nat) {
    forall i :: 0 <= i < |p.bindings| && Place(p, Bind(i)) < k ==> HoldsAfter(p.bindings[i], files)
  }

  /** The bindings from `i` on hold their before bytes, but for those put back earlier. */
  ghost predicate BeforeFrom(p: Plan, effects: map<EffectId, Entry>, files: map<Target, File>, i: nat) {
    forall j :: i <= j < |p.bindings| ==> IsReversed(effects, j) || HoldsBefore(p.bindings[j], files)
  }

  ghost predicate KeepsAfter(p: Plan, files: map<Target, File>, now: map<Target, File>) {
    forall i :: 0 <= i < |p.bindings| && HoldsAfter(p.bindings[i], files) ==> HoldsAfter(p.bindings[i], now)
  }

  ghost predicate KeepsBefore(p: Plan, files: map<Target, File>, now: map<Target, File>) {
    forall i :: 0 <= i < |p.bindings| && HoldsBefore(p.bindings[i], files) ==> HoldsBefore(p.bindings[i], now)
  }

  ghost predicate AllKnown(p: Plan, files: map<Target, File>) {
    forall i :: 0 <= i < |p.bindings| ==> ObserveBinding(p.bindings[i], files) != Unknown
  }

  ghost predicate NoneForeign(p: Plan, effects: map<EffectId, Entry>, files: map<Target, File>) {
    forall i :: 0 <= i < |p.bindings| ==> ObserveBinding(p.bindings[i], files) != Unknown || IsReversed(effects, i)
  }

  /** Writing the after bytes of one target makes none foreign and keeps the others. */
  lemma AfterKnown(p: Plan, files: map<Target, File>, i: nat)
    requires WellFormed(p) && i < |p.bindings|
    ensures var now := FilesWith(p, files, i, Some(p.bindings[i].after));
            && HoldsAfter(p.bindings[i], now) && KeepsAfter(p, files, now)
            && (AllKnown(p, files) ==> AllKnown(p, now))
    ensures AllKnown(p, files) ==> ObserveBinding(p.bindings[i], files) != Unknown
    ensures ObserveBinding(p.bindings[i], files) == IsComplete ==> HoldsAfter(p.bindings[i], files)
  {
  }

  lemma KeptAsIs(p: Plan, files: map<Target, File>)
    ensures KeepsAfter(p, files, files)
  {
  }

  lemma NothingBelow(p: Plan, effects: map<EffectId, Entry>, files: map<Target, File>)
    ensures DoneBelow(p, effects, 0) && AfterBelow(p, files, 0)
  {
  }

  lemma BelowPrecedes(p: Plan, effects: map<EffectId, Entry>, k: nat)
    requires k < |PlannedEffects(p)| && DoneBelow(p, effects, k)
    ensures var e := PlannedEffects(p)[k];
            IsPlanned(p, e) && Place(p, e) == k && forall f | Precedes(p, f, e) :: IsDone(effects, f)
  {
    PlannedEffectsListed(p);
  }

  lemma OneMoreBelow(p: Plan, before: map<EffectId, Entry>, now: map<EffectId, Entry>, k: nat)
    requires k < |PlannedEffects(p)| && DoneBelow(p, before, k) && Extended(before, now, PlannedEffects(p)[k])
    ensures DoneBelow(p, now, k + 1)
  {
  }

  lemma OneMoreHeld(p: Plan, files: map<Target, File>, now: map<Target, File>, k: nat)
    requires k < |PlannedEffects(p)| && AfterBelow(p, files, k) && KeepsAfter(p, files, now)
    requires var e := PlannedEffects(p)[k]; e.Bind? ==> e.index < |p.bindings| && HoldsAfter(p.bindings[e.index], now)
    ensures AfterBelow(p, now, k + 1)
  {
    PlannedEffectsListed(p);
  }

  lemma AllBelow(p: Plan, effects: map<EffectId, Entry>, files: map<Target, File>)
    requires WellFormed(p) && DoneBelow(p, effects, |PlannedEffects(p)|)
    ensures (forall e | IsPlanned(p, e) :: IsDone(effects, e)) && Bind(0) in effects
    ensures AfterBelow(p, files, |PlannedEffects(p)|) ==> AllAfter(p, files)
  {
    PlannedEffectsListed(p);
    assert IsPlanned(p, Bind(0));
  }

  /** `e` is done now and everything done before still is. */
  ghost predicate Extended(before: map<EffectId, Entry>, now: map<EffectId, Entry>, e: EffectId) {
    IsDone(now, e) && before.Keys <= now.Keys && forall f | IsDone(before, f) :: IsDone(now, f)
  }

  function IdentityOf(effects: map<EffectId, Entry>, e: EffectId): Option<nat> {
    if e in effects then effects[e].identity else None
  }

  /** A phase of an open operation that no failure route has taken over. */
  predicate Ordinary(ph: Phase) {
    ph in {Planned, Prepared, Validated, Switching, Verifying, OperatorNeeded}
  }

  /** Going forward, only a target can be foreign: the release trees are seen as they are journaled. */
  lemma ObservationKnown(p: Plan, d: Disk, e: EffectId)
    requires WellFormed(p) && Consistent(p, d) && DirectionOf(d.journal.effects) == GoForward
    requires Ordinary(d.journal.phase) && IsPlanned(p, e)
    ensures !IsCheck(e) && !e.Bind? && !Consumed(e, d.journal.effects) ==>
              && ObserveEffect(p, e, d.journal.effects, d) != Unknown
              && (IsDone(d.journal.effects, e) ==> ObserveEffect(p, e, d.journal.effects, d) == IsComplete)
    ensures Consumed(e, d.journal.effects) ==> IsDone(d.journal.effects, e)
    ensures !IsDone(d.journal.effects, e) && e !in {PublishRelease, Verify} && !e.Bind? ==>
              Bind(0) !in d.journal.effects
  {
    var effects := d.journal.effects;
    assert e in {StageRelease, Smoke, PreBindVerify} ==> Precedes(p, e, Bind(0));
    assert e == StageRelease ==> Precedes(p, e, PublishRelease);
  }

  lemma IntendKeeps(p: Plan, d: Disk, e: EffectId, ph: Phase)
    requires WellFormed(p) && Consistent(p, d) && DirectionOf(d.journal.effects) == GoForward
    requires Ordinary(d.journal.phase) && Ordinary(ph)
    requires IsPlanned(p, e) && (e.Bind? || !IsDone(d.journal.effects, e))
    requires forall f | Precedes(p, f, e) :: IsDone(d.journal.effects, f)
    ensures var entry := Entry(Intended, IdentityOf(d.journal.effects, e));
            var after := d.(journal := Journal(ph, d.journal.effects[e := entry]));
            Consistent(p, after) && (TargetsKept(p, d) ==> TargetsKept(p, after))
  {
    var effects := d.journal.effects;
    var effects' := effects[e := Entry(Intended, IdentityOf(effects, e))];
    assert DirectionOf(effects') == GoForward;
    forall f, g | g in effects' && Precedes(p, f, g)
      ensures f in effects' && (f.Bind? || IsDone(effects', f))
    {
      if g != e {
        assert f in effects && (f.Bind? || IsDone(effects, f));
      }
    }
    if e == PublishRelease {
      assert Precedes(p, StageRelease, e);
    }
  }

  /** What must be true on disk before the effect may be journaled complete. */
  ghost predicate Accomplished(p: Plan, d: Disk, effects: map<EffectId, Entry>, e: EffectId, identity: Option<nat>) {
    match e
    case Bind(i) => i < |p.bindings| && HoldsAfter(p.bindings[i], d.files)
    case StageRelease =>
      && PublishRelease !in effects
      && d.staging.Some? && d.staging.value.whole && identity == Some(d.staging.value.id)
    case PublishRelease =>
      && d.staging.None?
      && d.release.Some? && d.release.value.whole && StageIdentity(effects) == Some(d.release.value.id)
    case _ => true
  }

  lemma CompleteKeeps(p: Plan, d: Disk, e: EffectId, kept: Option<nat>, ph: Phase)
    requires WellFormed(p) && Consistent(p, d) && DirectionOf(d.journal.effects) == GoForward
    requires Ordinary(d.journal.phase) && Ordinary(ph)
    requires e in d.journal.effects && Accomplished(p, d, d.journal.effects, e, kept)
    ensures var after := d.(journal := Journal(ph, d.journal.effects[e := Entry(Complete, kept)]));
            Consistent(p, after) && (TargetsKept(p, d) ==> TargetsKept(p, after))
  {
    var effects := d.journal.effects;
    var effects' := effects[e := Entry(Complete, kept)];
    assert DirectionOf(effects') == GoForward;
    forall f, g | g in effects' && Precedes(p, f, g)
      ensures f in effects' && (f.Bind? || IsDone(effects', f))
    {
      assert f in effects && (f.Bind? || IsDone(effects, f));
    }
  }

  // ---------------------------------------------------------------- whole lives

  /** `pf install control`, then any number of resumes, with a crash, an interrupt or another writer
      between any two disk actions of any of them. */
  method Lifetime(p: Plan, files: map<Target, File>, release: Option<Tree>, faults: seq<Fault>,
                  tampering: seq<map<Target, Option<File>>>, resumes: seq<bool>) returns (h: Host)
    requires WellFormed(p) && AllBefore(p, files) && (p.selectedExisting || release.None?)
    ensures fresh(h) && h.Safe(p)
    ensures tampering == [] ==> !h.disturbed
    ensures Calm(faults) && Reject !in faults && tampering == [] ==> h.disk.journal.phase == Completed
    ensures !h.disturbed && h.disk.journal.phase == Completed ==> AllAfter(p, h.disk.files)
    ensures !h.disturbed && h.disk.journal.phase in {RolledBack, Abandoned} ==> AllBefore(p, h.disk.files)
    ensures h.disk.journal.phase == Cancelled ==> h.writes == []
    ensures forall w <- h.writes :: OwnWrite(p, w)
  {
    hide Consistent, Accounted, AllBefore, AllAfter;
    h := new Host(p, files, release, faults, tampering);
    var run := new Run.Load(p, h, true);
    var _ := run.Drive(GoForward);
    for k := 0 to |resumes|
      invariant fresh(h) && h.Safe(p)
      invariant tampering == [] ==> Undisturbed(h.tampering, h.disturbed)
      invariant Calm(faults) && Reject !in faults && tampering == [] ==> h.disk.journal.phase == Completed
    {
      var _ := Resume(p, h, resumes[k]);
    }
    if !h.disturbed {
      TerminalPhaseTellsTargets(p, h.disk);
    }
    CancelledWroteNothing(p, h.disk, h.writes);
  }

  /** Whatever a whole life with crashes and other writers has left: when the files are put in order and one resume
      runs that nothing interrupts and nobody disturbs, the operation ends, unless a target it looks at is still
      foreign; then it stops for the operator again. */
  method Repaired(p: Plan, files: map<Target, File>, release: Option<Tree>, faults: seq<Fault>,
                  tampering: seq<map<Target, Option<File>>>, resumes: seq<bool>, repair: map<Target, Option<File>>,
                  checks: seq<Fault>, abandon: bool) returns (h: Host, stopped: Disk, repaired: Disk)
    requires WellFormed(p) && AllBefore(p, files) && (p.selectedExisting || release.None?) && Calm(checks)
    ensures repaired == stopped.(files := Changed(stopped.files, repair))
    ensures Terminal(h.disk.journal.phase) <==>
            Terminal(stopped.journal.phase)
            || !ForeignTarget(p, repaired, EffectiveDirection(stopped.journal, abandon))
    ensures !Terminal(stopped.journal.phase) && !Terminal(h.disk.journal.phase) ==>
              h.disk.journal.phase == OperatorNeeded && h.disk.files == repaired.files
    ensures var action := EffectiveDirection(stopped.journal, abandon);
            var effects := stopped.journal.effects;
            !Terminal(stopped.journal.phase) && !ForeignTarget(p, repaired, action) && Reject !in checks ==>
              && Ends(p, effects, stopped.staging, false, action, None, h.disk.journal.phase)
              && ((action == GoForward && StagingGone(p, effects, stopped.staging, false))
                  || Reaches(p, effects, action, h.disk.files))
  {
    hide Consistent, Accounted, TargetsKept, ForeignTarget, Reaches, StagingGone, NoneForeign;
    h := Lifetime(p, files, release, faults, tampering, resumes);
    stopped := h.disk;
    h.faults, h.tampering := checks, [repair];
    h.OthersWrite(p);
    repaired := h.disk;
    var _ := Resume(p, h, abandon);
  }

  lemma SeenForeign(p: Plan, d: Disk, i: nat)
    requires i < |p.bindings| && ObserveBinding(p.bindings[i], d.files) == Unknown
    ensures ForeignTarget(p, d, GoForward)
  {
  }

  lemma BeforeIsKnown(p: Plan, d: Disk)
    requires AllBefore(p, d.files)
    ensures !ForeignTarget(p, d, GoForward)
    ensures d.journal.effects == map[] && d.staging.None? ==>
              (StagingGone(p, d.journal.effects, d.staging, false) <==> !p.selectedExisting)
  {
  }

  lemma BackAgain(files: map<Target, File>, changes: map<Target, Option<File>>)
    ensures Changed(Changed(files, changes), map t | t in changes :: ContentOf(files, t)) == files
  {
  }

  /** A target turns foreign before a resume, which stops for the operator; the file is put back, and the next
      resume ends: forward, or cancelled where the candidate's tree was never staged. */
  method StoppedAndRepaired(p: Plan, files: map<Target, File>, foreign: map<Target, Option<File>>, i: nat)
    returns (h: Host, first: Report, stopped: Phase, second: Report)
    requires WellFormed(p) && AllBefore(p, files) && i < |p.bindings|
    requires ObserveBinding(p.bindings[i], Changed(files, foreign)) == Unknown
    ensures first == OperatorReport && stopped == OperatorNeeded
    ensures if p.selectedExisting then second == Finished && AllAfter(p, h.disk.files)
            else h.disk.journal.phase == Cancelled
  {
    hide Consistent, Accounted, TargetsKept, ForeignTarget, Changed, AllBefore, AllAfter, StagingGone;
    h := new Host(p, files, None, [], [foreign]);
    h.OthersWrite(p);
    SeenForeign(p, h.disk, i);
    first := Resume(p, h, false);
    stopped := h.disk.journal.phase;
    var back := map t | t in foreign :: ContentOf(files, t);
    BackAgain(files, foreign);
    BeforeIsKnown(p, h.disk.(files := files));
    h.faults, h.tampering := [], [back];
    h.OthersWrite(p);
    second := Resume(p, h, false);
  }

  /** `cancel` updates the journal in memory before it writes it: when the first journal write of an operation
      fails and then that one, the operator is told the operation is cancelled and the durable journal is still
      open, without an effect. */
  method CancelReportedButOpen(p: Plan, files: map<Target, File>) returns (h: Host, r: Report)
    requires WellFormed(p) && AllBefore(p, files)
    ensures r == CancelReported && h.disk.journal == Journal(Planned, map[]) && !Terminal(h.disk.journal.phase)
  {
    h := new Host(p, files, None, [FailBefore, FailBefore], []);
    var run := new Run.Load(p, h, true);
    r := run.Drive(GoForward);
  }

  // ---------------------------------------------------------------- the plan's bindings

  /** The binding of a wrapper the candidate carries, when its bytes are not already there. */
  function WrapperBinding(files: map<Target, File>, name: string, data: Option<string>): Option<Binding> {
    var now := ContentOf(files, Wrapper(name));
    if data.None? || now == Some(Unreadable) || now == AsFile(data) then None
    else Some(Binding(Wrapper(name), if now.None? then None else Some(now.value.data), data.value))
  }

  ghost predicate FromWrapper(files: map<Target, File>, wrappers: seq<(string, Option<string>)>, n: nat, b: Binding)
    requires n <= |wrappers|
  {
    exists i :: 0 <= i < n && WrapperBinding(files, wrappers[i].0, wrappers[i].1) == Some(b)
  }

  /** The bindings of a control plan: the bootstrap configuration first, then every record in instance
      order, then every wrapper whose bytes change. None when a file that must be read cannot be. */
  method ControlBindings(files: map<Target, File>, conf: string, records: seq<(string, string)>,
                         wrappers: seq<(string, Option<string>)>) returns (r: Option<seq<Binding>>)
    requires forall i, j :: 0 <= i < j < |records| ==> records[i].0 != records[j].0
    requires forall i, j :: 0 <= i < j < |wrappers| ==> wrappers[i].0 != wrappers[j].0
    ensures r.Some? ==> WellFormed(Plan(r.value, true)) && WellFormed(Plan(r.value, false))
    ensures r.Some? ==> AllBefore(Plan(r.value, true), files) && AllBefore(Plan(r.value, false), files)
    ensures r.Some? ==> r.value[0].after == conf && |r.value| >= 1 + |records|
    ensures r.Some? ==> forall j :: 1 <= j <= |records| ==>
              r.value[j].target == Record(records[j - 1].0) && r.value[j].after == records[j - 1].1
    ensures r.Some? ==> forall i :: 0 <= i < |wrappers| ==>
              var b := WrapperBinding(files, wrappers[i].0, wrappers[i].1);
              b.Some? ==> b.value in r.value
    ensures r.Some? ==> forall j :: 1 + |records| <= j < |r.value| ==>
              FromWrapper(files, wrappers, |wrappers|, r.value[j])
  {
    if BootstrapConf !in files || files[BootstrapConf].Unreadable? {
      return None;
    }
    var bindings := [Binding(BootstrapConf, Some(files[BootstrapConf].data), conf)];
    for k := 0 to |records|
      invariant |bindings| == 1 + k && WellFormed(Plan(bindings, false)) && AllBefore(Plan(bindings, false), files)
      invariant bindings[0].after == conf
      invariant forall j :: 1 <= j <= k ==>
                  bindings[j].target == Record(records[j - 1].0) && bindings[j].after == records[j - 1].1
    {
      var t := Record(records[k].0);
      if t !in files || files[t].Unreadable? {
        return None;
      }
      assert forall j :: 0 <= j < |bindings| ==> bindings[j].target != t;
      bindings := bindings + [Binding(t, Some(files[t].data), records[k].1)];
    }
    ghost var fixed := bindings;
    for k := 0 to |wrappers|
      invariant fixed <= bindings && WellFormed(Plan(bindings, false)) && AllBefore(Plan(bindings, false), files)
      invariant forall j :: |fixed| <= j < |bindings| ==>
                  FromWrapper(files, wrappers, k, bindings[j])
      invariant forall i :: 0 <= i < k ==>
                  var b := WrapperBinding(files, wrappers[i].0, wrappers[i].1); b.Some? ==> b.value in bindings
    {
      var t := Wrapper(wrappers[k].0);
      if wrappers[k].1.Some? && t in files && files[t].Unreadable? {
        return None;
      }
      var b := WrapperBinding(files, wrappers[k].0, wrappers[k].1);
      if b.Some? {
        ghost var was := bindings;
        forall j | 0 <= j < |bindings| ensures bindings[j].target != t {
          assert j >= |fixed| ==> FromWrapper(files, wrappers, k, bindings[j]);
          assert j < |fixed| ==> bindings[j] == fixed[j];
        }
        bindings := bindings + [b.value];
        assert bindings[|was|] == b.value && forall x <- was :: x in bindings;
      }
    }
    r := Some(bindings);
  }
}
