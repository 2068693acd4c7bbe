/** The files of one `pf install migrate-legacy` operation: private copies are staged, checked, linked into
    place without ever replacing anything, and removed again only where they are still this operation's own. */
module LegacyCopies {
  import opened InstallCore
  import opened Wrappers

  // ---------------------------------------------------------------- plan, journal, disk

  datatype Inode = Inode(data: string, modes: bool)

  /** The planned bytes of each legacy file, by role. */
  datatype Plan = Plan(copies: seq<string>)

  datatype EffectId = Stage(role: nat) | Validate | Publish(role: nat) | Register | Verify | Discard | AbandonMark

  datatype EffectState = Intended | Complete

  datatype Entry = Entry(state: EffectState, identity: Option<nat>)

  /** `Going` stands for the phases from planned to verifying. */
  datatype Phase = Going | Abandoning | OperatorNeeded | Completed | Cancelled | Abandoned

  datatype Journal = Journal(phase: Phase, effects: map<EffectId, Entry>)

  datatype Registration = Absent | Unfinished | Registered

  /** Two names per role, the private staged one and the target, each for an inode that may have both. */
  datatype Disk = Disk(journal: Journal, staged: map<nat, nat>, targets: map<nat, nat>, inodes: map<nat, Inode>,
                       registration: Registration, nextId: nat)

  predicate Terminal(ph: Phase) {
    ph in {Completed, Cancelled, Abandoned}
  }

  predicate IsCheck(e: EffectId) {
    e in {Validate, Verify}
  }

  predicate IsPlanned(p: Plan, e: EffectId) {
    match e
    case Stage(i) => i < |p.copies|
    case Publish(i) => i < |p.copies|
    case Validate | Register | Verify => true
    case Discard | AbandonMark => false
  }

  /** Stages, the validation, publications, the registration (the commit point), the verification. */
  function Place(p: Plan, e: EffectId): nat {
    match e
    case Stage(i) => i
    case Validate => |p.copies|
    case Publish(i) => |p.copies| + 1 + i
    case Register => 2 * |p.copies| + 1
    case _ => 2 * |p.copies| + 2
  }

  function EffectAt(p: Plan, k: nat): (e: EffectId)
    requires k < 2 * |p.copies| + 3
    ensures IsPlanned(p, e) && Place(p, e) == k
  {
    var n := |p.copies|;
    if k < n then Stage(k)
    else if k == n then Validate
    else if k < 2 * n + 1 then Publish(k - n - 1)
    else if k == 2 * n + 1 then Register
    else Verify
  }

  predicate Precedes(p: Plan, e: EffectId, f: EffectId) {
    IsPlanned(p, e) && IsPlanned(p, f) && Place(p, e) < Place(p, f)
  }

  predicate IsDone(effects: map<EffectId, Entry>, e: EffectId) {
    e in effects && effects[e].state == Complete
  }

  function IdentityOf(effects: map<EffectId, Entry>, e: EffectId): Option<nat> {
    if e in effects then effects[e].identity else None
  }

  predicate PublishBegun(effects: map<EffectId, Entry>) {
    exists f <- effects :: f.Publish?
  }

  /** Once any publication is journaled, staging is never looked at again. */
  predicate Consumed(e: EffectId, effects: map<EffectId, Entry>) {
    e.Stage? && PublishBegun(effects)
  }

  // ---------------------------------------------------------------- observation

  datatype Observed = NotStarted | IsComplete | Partial | Unknown

  /** The target is this operation's own copy, with the planned bytes. */
  predicate OwnCopyAt(p: Plan, effects: map<EffectId, Entry>, d: Disk, i: nat) {
    && i < |p.copies| && i in d.targets && d.targets[i] in d.inodes
    && IdentityOf(effects, Stage(i)) == Some(d.targets[i]) && d.inodes[d.targets[i]].data == p.copies[i]
  }

  function Observe(p: Plan, e: EffectId, effects: map<EffectId, Entry>, d: Disk): Observed {
    match e
    case Stage(i) =>
      if i in d.targets && IdentityOf(effects, e) == Some(d.targets[i]) then IsComplete
      else if i !in d.staged then NotStarted
      else if i < |p.copies| && d.staged[i] in d.inodes
          && d.inodes[d.staged[i]] == Inode(p.copies[i], true) then IsComplete
      else Partial
    case Publish(i) =>
      if i !in d.targets then NotStarted
      else if OwnCopyAt(p, effects, d, i) then IsComplete
      else Unknown
    case Register =>
      (match d.registration
       case Absent => NotStarted
       case Unfinished => Partial
       case Registered => IsComplete)
    case _ => NotStarted
  }

  // ---------------------------------------------------------------- invariants

  /** Neither abandoned nor cancelled. */
  predicate Forward(j: Journal) {
    AbandonMark !in j.effects && j.phase != Cancelled
  }

  /** The private copy of a role: recorded exactly when it is complete, and there with the planned bytes until
      the first publication. */
  ghost predicate RoleStaged(p: Plan, d: Disk, i: nat)
    requires i < |p.copies|
  {
    var effects := d.journal.effects;
    var id := IdentityOf(effects, Stage(i));
    && (i in d.staged ==> Stage(i) in effects)
    && (id.Some? <==> IsDone(effects, Stage(i)))
    && (i in d.staged && id.Some? ==> d.staged[i] == id.value)
    && (Forward(d.journal) && id.Some? && !PublishBegun(effects) ==>
          i in d.staged && d.staged[i] in d.inodes && d.inodes[d.staged[i]] == Inode(p.copies[i], true))
  }

  /** The target of a role, while nobody else touches it. */
  ghost predicate RoleKept(p: Plan, d: Disk, i: nat)
    requires i < |p.copies|
  {
    var effects := d.journal.effects;
    var id := IdentityOf(effects, Stage(i));
    && (id.Some? ==> id.value in d.inodes && d.inodes[id.value] == Inode(p.copies[i], true))
    && (i in d.targets ==> id == Some(d.targets[i]) && Publish(i) in effects)
    && (Forward(d.journal) && id.Some? ==> i in d.staged || i in d.targets)
    && (Forward(d.journal) && IsDone(effects, Publish(i)) ==> i in d.targets && i !in d.staged)
  }

  /** Effects are journaled in plan order; what is no publication is complete before the next. A publication whose
      target another process took away is intended again, whatever follows it. */
  ghost predicate InOrder(p: Plan, effects: map<EffectId, Entry>) {
    forall e, f | f in effects && Precedes(p, e, f) :: e in effects && (e.Publish? || IsDone(effects, e))
  }

  ghost predicate AllDone(p: Plan, effects: map<EffectId, Entry>) {
    forall e | IsPlanned(p, e) :: IsDone(effects, e)
  }

  /** What the journal says of itself, the private copies and the registration, whatever others do to the targets. */
  ghost predicate Consistent(p: Plan, d: Disk) {
    var j := d.journal;
    && InOrder(p, j.effects)
    && (forall e | e in j.effects && (e.Stage? || e.Publish?) :: IsPlanned(p, e))
    && (forall i | 0 <= i < |p.copies| :: RoleStaged(p, d, i))
    && (forall i | i in d.staged :: i < |p.copies|)
    && (d.registration != Absent ==> Register in j.effects)
    && (Forward(j) && IsDone(j.effects, Register) ==> d.registration == Registered)
    && (j.phase == Completed ==> AbandonMark !in j.effects && AllDone(p, j.effects))
    && (j.phase == Cancelled ==> AbandonMark !in j.effects && Register !in j.effects)
    && (j.phase == Abandoned ==> AbandonMark in j.effects && d.staged == map[] && d.registration == Absent)
  }

  /** What the journal says of the targets while nobody else touches them. */
  ghost predicate TargetsKept(p: Plan, d: Disk) {
    && (forall i | 0 <= i < |p.copies| :: RoleKept(p, d, i))
    && (forall i | i in d.targets :: i < |p.copies|)
    && (d.journal.phase == Abandoned ==> d.targets == map[])
  }

  /** An abandoning phase is journaled together with its mark. */
  predicate PhaseFits(j: Journal) {
    j.phase in {Abandoning, Abandoned} ==> AbandonMark in j.effects
  }

  datatype Removal = Removal(role: nat, id: nat, data: string)

  /** Identities in a journal are inodes that this operation created. */
  ghost predicate OwnIdentities(effects: map<EffectId, Entry>, own: set<nat>) {
    forall e | e in effects && effects[e].identity.Some? :: effects[e].identity.value in own
  }

  /** Holds whatever other writers do to the targets. */
  ghost predicate Mine(p: Plan, d: Disk, own: set<nat>, removed: seq<Removal>) {
    && (forall i | i in d.staged :: d.staged[i] in own)
    && (forall i | i in d.targets :: d.targets[i] in d.inodes)
    && own <= d.inodes.Keys && (forall id | id in d.inodes :: id < d.nextId)
    && OwnIdentities(d.journal.effects, own)
    && (!PublishBegun(d.journal.effects) ==> forall i | i in d.targets :: d.targets[i] !in own)
    && (forall w <- removed :: w.role < |p.copies| && w.id in own && w.data == p.copies[w.role])
  }

  // ---------------------------------------------------------------- other writers

  /** What another process does to the targets: it removes, creates or edits files, renames and links them. */
  datatype Change = Remove(at: nat) | Create(at: nat, inode: Inode) | Edit(at: nat, inode: Inode)
                  | Move(from: nat, at: nat) | Link(from: nat, at: nat)

  function Changed(d: Disk, c: Change): Disk {
    match c
    case Remove(i) => d.(targets := d.targets - {i})
    case Create(i, inode) =>
      d.(targets := d.targets[i := d.nextId], inodes := d.inodes[d.nextId := inode], nextId := d.nextId + 1)
    case Edit(i, inode) => if i in d.targets then d.(inodes := d.inodes[d.targets[i] := inode]) else d
    case Move(i, j) => if i in d.targets then d.(targets := (d.targets - {i})[j := d.targets[i]]) else d
    case Link(i, j) => if i in d.targets then d.(targets := d.targets[j := d.targets[i]]) else d
  }

  lemma ChangedIsMine(p: Plan, d: Disk, c: Change, own: set<nat>, removed: seq<Removal>)
    requires Mine(p, d, own, removed)
    ensures Mine(p, Changed(d, c), own, removed)
    ensures Changed(d, c).journal == d.journal && Changed(d, c).staged == d.staged
    ensures Changed(d, c).registration == d.registration && Changed(d, c).nextId >= d.nextId
  {
  }

  /** Before the first publication nobody else can reach a private copy. */
  lemma ChangedKeeps(p: Plan, d: Disk, c: Change, own: set<nat>, removed: seq<Removal>)
    requires Mine(p, d, own, removed) && Consistent(p, d)
    ensures Consistent(p, Changed(d, c))
  {
    forall i | 0 <= i < |p.copies| ensures RoleStaged(p, Changed(d, c), i) {
      assert RoleStaged(p, d, i);
    }
  }

  class Host {
    var disk: Disk
    var faults: seq<Fault>
    var tampering: seq<Option<Change>>
    ghost var disturbed: bool
    /** The inodes that this operation created, and every target name that it removed. */
    ghost var own: set<nat>
    ghost var removed: seq<Removal>
    /** The last journal write did not take effect. */
    ghost var lost: bool
    /** The check that found a problem in this run. */
    ghost var refused: Option<EffectId>

    ghost predicate Safe(p: Plan)
      reads this
    {
      && Mine(p, disk, own, removed) && PhaseFits(disk.journal)
      && Consistent(p, disk) && (!disturbed ==> TargetsKept(p, disk))
    }

    /** Nothing will interrupt the run or disturb it; its checks may still fail. */
    ghost predicate Quiet()
      reads this
    {
      Calm(faults) && tampering == [] && !disturbed
    }

    constructor (p: Plan, faults: seq<Fault>, tampering: seq<Option<Change>>)
      ensures Safe(p) && !disturbed && own == {} && removed == [] && !lost && refused.None?
      ensures this.faults == faults && this.tampering == tampering
      ensures disk == Disk(Journal(Going, map[]), map[], map[], map[], Absent, 0)
    {
      disk := Disk(Journal(Going, map[]), map[], map[], map[], Absent, 0);
      this.faults, this.tampering := faults, tampering;
      disturbed, own, removed, lost, refused := false, {}, [], false, None;
    }

    /** One atomic action, with what it adds to the history. */
    method Act(next: Disk, ghost own: set<nat>, ghost removed: seq<Removal>) returns (s: Status)
      modifies this`disk, this`faults, this`own, this`removed
      ensures s == Verdict(old(faults)) && faults == Rest(old(faults))
      ensures if Happens(old(faults)) then disk == next && this.own == own && this.removed == removed
              else disk == old(disk) && this.own == old(this.own) && this.removed == old(this.removed)
    {
      s := Verdict(faults);
      if Happens(faults) {
        disk := next;
        this.own, this.removed := own, removed;
      }
      faults := Rest(faults);
    }

    /** Reads and judges; `passed` is meaningful when it came to an end. */
    method Check() returns (s: Status, passed: bool)
      modifies this`faults
      ensures s == Verdict(old(faults)) && faults == Rest(old(faults))
      ensures passed == (Next(old(faults)) != Reject)
    {
      s, passed := Verdict(faults), Next(faults) != Reject;
      faults := Rest(faults);
    }

    /** Another process may change a target before the operation looks again. */
    method OthersWrite(ghost p: Plan)
      requires Safe(p)
      modifies this`disk, this`tampering, this`disturbed
      ensures Safe(p)
      ensures disk.journal == old(disk).journal && disk.staged == old(disk).staged
      ensures disk.registration == old(disk).registration
      ensures old(disturbed) ==> disturbed
      ensures !disturbed ==> disk == old(disk)
      ensures old(tampering) == [] ==> tampering == [] && disk == old(disk) && disturbed == old(disturbed)
      ensures old(tampering) != [] ==>
                && tampering == old(tampering)[1..]
                && disk == match old(tampering)[0] case None => old(disk) case Some(c) => Changed(old(disk), c)
    {
      if tampering != [] {
        var change := tampering[0];
        tampering := tampering[1..];
        if change.Some? {
          ChangedIsMine(p, disk, change.value, own, removed);
          ChangedKeeps(p, disk, change.value, own, removed);
          disturbed := true;
          disk := Changed(disk, change.value);
        }
      }
    }
  }

  /** Exclusive creation of the staged name: an empty private file with a new inode. */
  function Created(d: Disk, i: nat): Disk {
    d.(staged := d.staged[i := d.nextId], inodes := d.inodes[d.nextId := Inode("", false)], nextId := d.nextId + 1)
  }

  function Filled(d: Disk, i: nat, data: string): Disk
    requires i in d.staged
  {
    d.(inodes := d.inodes[d.staged[i] := Inode(data, true)])
  }

  /** The staged inode gets the target name, which must be free. */
  function Linked(d: Disk, i: nat): Disk
    requires i in d.staged && i !in d.targets
  {
    d.(targets := d.targets[i := d.staged[i]])
  }

  // ---------------------------------------------------------------- each step keeps the invariant

  predicate Ordinary(ph: Phase) {
    ph in {Going, OperatorNeeded}
  }

  lemma IntendKeeps(p: Plan, d: Disk, e: EffectId)
    requires Consistent(p, d) && Forward(d.journal) && Ordinary(d.journal.phase) && IsPlanned(p, e)
    requires e.Publish? || !IsDone(d.journal.effects, e)
    requires forall f | Precedes(p, f, e) :: IsDone(d.journal.effects, f)
    ensures var after := d.(journal := d.journal.(effects := Intending(d.journal.effects, e)));
            Consistent(p, after) && (TargetsKept(p, d) ==> TargetsKept(p, after))
  {
    var effects, after := d.journal.effects, Intending(d.journal.effects, e);
    forall f, g | g in after && Precedes(p, f, g) ensures f in after && (f.Publish? || IsDone(after, f)) {
      assert g != e ==> f in effects && (f.Publish? || IsDone(effects, f));
    }
    BegunIsKept(effects, after);
    forall i | 0 <= i < |p.copies|
      ensures RoleStaged(p, d.(journal := d.journal.(effects := after)), i)
      ensures TargetsKept(p, d) ==> RoleKept(p, d.(journal := d.journal.(effects := after)), i)
    {
      assert RoleStaged(p, d, i);
      assert TargetsKept(p, d) ==> RoleKept(p, d, i);
    }
  }

  lemma BegunIsKept(effects: map<EffectId, Entry>, after: map<EffectId, Entry>)
    requires effects.Keys <= after.Keys
    ensures PublishBegun(effects) ==> PublishBegun(after)
  {
    if PublishBegun(effects) {
      var f :| f in effects && f.Publish?;
      assert f in after.Keys;
    }
  }

  function Intending(effects: map<EffectId, Entry>, e: EffectId): map<EffectId, Entry> {
    effects[e := Entry(Intended, IdentityOf(effects, e))]
  }

  function Completing(effects: map<EffectId, Entry>, e: EffectId, identity: Option<nat>): map<EffectId, Entry> {
    effects[e := Entry(Complete, if identity.Some? then identity else IdentityOf(effects, e))]
  }

  /** Intent and completion journal the effect and leave every other entry alone. */
  lemma Journaled(effects: map<EffectId, Entry>, e: EffectId, identity: Option<nat>)
    ensures var intended := Intending(effects, e);
            && e in intended && !IsDone(intended, e) && effects.Keys <= intended.Keys
            && Extended(effects, Completing(intended, e, identity), e)
    ensures Register in Intending(effects, e) <==> Register in effects || e == Register
  {
  }

  /** What must be true on disk before the effect may be journaled complete. */
  ghost predicate Accomplished(p: Plan, d: Disk, effects: map<EffectId, Entry>, e: EffectId, identity: Option<nat>) {
    match e
    case Stage(i) =>
      && i < |p.copies| && i in d.staged && identity == Some(d.staged[i])
      && d.staged[i] in d.inodes && d.inodes[d.staged[i]] == Inode(p.copies[i], true)
    case Publish(i) => i < |p.copies| && i in d.targets && i !in d.staged
    case Register => d.registration == Registered
    case _ => true
  }

  lemma CompleteKeeps(p: Plan, d: Disk, e: EffectId, identity: Option<nat>)
    requires Consistent(p, d) && Forward(d.journal) && Ordinary(d.journal.phase) && IsPlanned(p, e)
    requires e in d.journal.effects && !IsDone(d.journal.effects, e)
    requires Accomplished(p, d, d.journal.effects, e, identity)
    ensures var after := d.(journal := d.journal.(effects := Completing(d.journal.effects, e, identity)));
            Consistent(p, after) && (TargetsKept(p, d) ==> TargetsKept(p, after))
  {
    var effects, after := d.journal.effects, Completing(d.journal.effects, e, identity);
    forall f, g | g in after && Precedes(p, f, g) ensures f in after && (f.Publish? || IsDone(after, f)) {
      assert f in effects && (f.Publish? || IsDone(effects, f));
    }
    BegunIsKept(after, effects);
    forall i | 0 <= i < |p.copies|
      ensures RoleStaged(p, d.(journal := d.journal.(effects := after)), i)
      ensures TargetsKept(p, d) ==> RoleKept(p, d.(journal := d.journal.(effects := after)), i)
    {
      assert RoleStaged(p, d, i);
      assert TargetsKept(p, d) ==> RoleKept(p, d, i);
    }
  }

  /** Going forward, only a target can be foreign: what is private is seen as it is journaled. */
  lemma ObservationKnown(p: Plan, d: Disk, e: EffectId)
    requires Consistent(p, d) && Forward(d.journal) && Ordinary(d.journal.phase) && IsPlanned(p, e)
    ensures !e.Publish? && !Consumed(e, d.journal.effects) ==>
              var seen := Observe(p, e, d.journal.effects, d);
              && seen != Unknown
              && (IsDone(d.journal.effects, e) && !IsCheck(e) ==> seen == IsComplete)
    ensures Consumed(e, d.journal.effects) ==> IsDone(d.journal.effects, e)
    ensures !IsDone(d.journal.effects, e) && (e.Stage? || e == Validate) ==> Register !in d.journal.effects
  {
    var effects := d.journal.effects;
    if e.Stage? {
      assert RoleStaged(p, d, e.role);
    }
    if Consumed(e, effects) {
      var f :| f in effects && f.Publish?;
      assert Precedes(p, e, f);
    }
    assert e != Verify && e != Register ==> Precedes(p, e, Register);
  }

  /** Undisturbed, no target is foreign, and a publication journaled complete is seen complete. */
  lemma TargetKnown(p: Plan, d: Disk, i: nat)
    requires Consistent(p, d) && TargetsKept(p, d) && i < |p.copies| && Forward(d.journal)
    ensures var seen := Observe(p, Publish(i), d.journal.effects, d);
            seen != Unknown && (IsDone(d.journal.effects, Publish(i)) ==> seen == IsComplete)
    ensures i in d.targets ==> IsDone(d.journal.effects, Stage(i)) && PublishBegun(d.journal.effects)
  {
    assert RoleKept(p, d, i) && RoleStaged(p, d, i);
    assert Publish(i) in d.journal.effects ==> Publish(i).Publish?;
  }

  lemma CreateKeeps(p: Plan, d: Disk, i: nat)
    requires Consistent(p, d) && i < |p.copies| && i !in d.staged && Stage(i) in d.journal.effects
    requires !IsDone(d.journal.effects, Stage(i)) && Ordinary(d.journal.phase)
    requires forall id | id in d.inodes :: id < d.nextId
    ensures Consistent(p, Created(d, i)) && (TargetsKept(p, d) ==> TargetsKept(p, Created(d, i)))
  {
    forall k | 0 <= k < |p.copies|
      ensures RoleStaged(p, Created(d, i), k) && (TargetsKept(p, d) ==> RoleKept(p, Created(d, i), k))
    {
      assert RoleStaged(p, d, k) && (TargetsKept(p, d) ==> RoleKept(p, d, k));
    }
  }

  lemma FillKeeps(p: Plan, d: Disk, i: nat, data: string)
    requires Consistent(p, d) && i in d.staged
    requires forall k | 0 <= k < |p.copies| :: IdentityOf(d.journal.effects, Stage(k)) != Some(d.staged[i])
    ensures Consistent(p, Filled(d, i, data)) && (TargetsKept(p, d) ==> TargetsKept(p, Filled(d, i, data)))
  {
    forall k | 0 <= k < |p.copies|
      ensures RoleStaged(p, Filled(d, i, data), k) && (TargetsKept(p, d) ==> RoleKept(p, Filled(d, i, data), k))
    {
      assert RoleStaged(p, d, k) && (TargetsKept(p, d) ==> RoleKept(p, d, k));
    }
  }

  lemma LinkKeeps(p: Plan, d: Disk, i: nat)
    requires Consistent(p, d) && i < |p.copies| && i in d.staged && i !in d.targets && Publish(i) in d.journal.effects
    requires !IsDone(d.journal.effects, Publish(i)) && Ordinary(d.journal.phase)
    ensures Consistent(p, Linked(d, i)) && (TargetsKept(p, d) ==> TargetsKept(p, Linked(d, i)))
  {
    assert Precedes(p, Stage(i), Publish(i));
    forall k | 0 <= k < |p.copies|
      ensures RoleStaged(p, Linked(d, i), k) && (TargetsKept(p, d) ==> RoleKept(p, Linked(d, i), k))
    {
      assert RoleStaged(p, d, k) && (TargetsKept(p, d) ==> RoleKept(p, d, k));
    }
  }

  lemma UnstageKeeps(p: Plan, d: Disk, i: nat)
    requires Consistent(p, d)
    requires !Forward(d.journal) || PublishBegun(d.journal.effects) || IdentityOf(d.journal.effects, Stage(i)).None?
    ensures var after := d.(staged := d.staged - {i});
            && Consistent(p, after)
            && (TargetsKept(p, d)
                && (!Forward(d.journal) || i in d.targets || IdentityOf(d.journal.effects, Stage(i)).None?) ==>
                  TargetsKept(p, after))
  {
    var after := d.(staged := d.staged - {i});
    forall k | 0 <= k < |p.copies|
      ensures RoleStaged(p, after, k)
      ensures TargetsKept(p, d)
              && (!Forward(d.journal) || i in d.targets || IdentityOf(d.journal.effects, Stage(i)).None?) ==>
                RoleKept(p, after, k)
    {
      assert RoleStaged(p, d, k) && (TargetsKept(p, d) ==> RoleKept(p, d, k));
    }
  }

  lemma RemoveKeeps(p: Plan, d: Disk, i: nat)
    requires Consistent(p, d) && !Forward(d.journal)
    ensures var after := d.(targets := d.targets - {i});
            Consistent(p, after) && (TargetsKept(p, d) ==> TargetsKept(p, after))
  {
    var after := d.(targets := d.targets - {i});
    forall k | 0 <= k < |p.copies| ensures RoleStaged(p, after, k) && (TargetsKept(p, d) ==> RoleKept(p, after, k)) {
      assert RoleStaged(p, d, k) && (TargetsKept(p, d) ==> RoleKept(p, d, k));
    }
  }

  lemma RegisterKeeps(p: Plan, d: Disk, registration: Registration)
    requires Consistent(p, d) && (registration != Absent ==> Register in d.journal.effects)
    requires d.journal.phase == Abandoned ==> registration == Absent
    requires Forward(d.journal) && IsDone(d.journal.effects, Register) ==> registration == Registered
    ensures var after := d.(registration := registration);
            Consistent(p, after) && (TargetsKept(p, d) ==> TargetsKept(p, after))
  {
    var after := d.(registration := registration);
    forall k | 0 <= k < |p.copies| ensures RoleStaged(p, after, k) && (TargetsKept(p, d) ==> RoleKept(p, after, k)) {
      assert RoleStaged(p, d, k) && (TargetsKept(p, d) ==> RoleKept(p, d, k));
    }
  }

  /** The phase changes that the protocol makes. */
  ghost predicate MayEnter(p: Plan, d: Disk, ph: Phase) {
    match ph
    case Going | OperatorNeeded | Abandoning => !Terminal(d.journal.phase)
    case Completed => AbandonMark !in d.journal.effects && AllDone(p, d.journal.effects) && Forward(d.journal)
    case Cancelled => AbandonMark !in d.journal.effects && Register !in d.journal.effects
    case Abandoned =>
      AbandonMark in d.journal.effects && d.staged == map[] && d.registration == Absent
  }

  lemma EnterKeeps(p: Plan, d: Disk, ph: Phase)
    requires Consistent(p, d) && MayEnter(p, d, ph)
    ensures var after := d.(journal := d.journal.(phase := ph));
            && Consistent(p, after)
            && (TargetsKept(p, d) && (ph == Abandoned ==> d.targets == map[]) ==> TargetsKept(p, after))
  {
    var after := d.(journal := d.journal.(phase := ph));
    forall k | 0 <= k < |p.copies| ensures RoleStaged(p, after, k) && (TargetsKept(p, d) ==> RoleKept(p, after, k)) {
      assert RoleStaged(p, d, k) && (TargetsKept(p, d) ==> RoleKept(p, d, k));
    }
  }

  /** Journaling the abandon or the discarded registration touches no planned effect. */
  lemma MarkKeeps(p: Plan, d: Disk, mark: EffectId, entry: Entry)
    requires Consistent(p, d) && mark in {AbandonMark, Discard} && !Terminal(d.journal.phase)
    ensures var after := d.(journal := d.journal.(effects := d.journal.effects[mark := entry]));
            Consistent(p, after) && (TargetsKept(p, d) ==> TargetsKept(p, after))
  {
    var effects, after := d.journal.effects, d.journal.effects[mark := entry];
    forall f, g | g in after && Precedes(p, f, g) ensures f in after && (f.Publish? || IsDone(after, f)) {
      assert f in effects && (f.Publish? || IsDone(effects, f));
    }
    BegunIsKept(effects, after);
    forall k | 0 <= k < |p.copies|
      ensures RoleStaged(p, d.(journal := d.journal.(effects := after)), k)
      ensures TargetsKept(p, d) ==> RoleKept(p, d.(journal := d.journal.(effects := after)), k)
    {
      assert RoleStaged(p, d, k) && (TargetsKept(p, d) ==> RoleKept(p, d, k));
    }
  }

  /** The disk steps of this operation keep what is its own and leave foreign targets alone. */
  lemma CreatedIsMine(p: Plan, d: Disk, i: nat, own: set<nat>, removed: seq<Removal>)
    requires Mine(p, d, own, removed)
    ensures Mine(p, Created(d, i), own + {d.nextId}, removed)
    ensures KeepsForeign(d, Created(d, i), own + {d.nextId})
    ensures d.nextId !in own
    ensures forall e | e in d.journal.effects :: d.journal.effects[e].identity != Some(d.nextId)
  {
  }

  lemma FilledIsMine(p: Plan, d: Disk, i: nat, data: string, own: set<nat>, removed: seq<Removal>)
    requires Mine(p, d, own, removed) && i in d.staged
    ensures Mine(p, Filled(d, i, data), own, removed) && KeepsForeign(d, Filled(d, i, data), own)
    ensures d.staged[i] in own
  {
  }

  lemma LinkedIsMine(p: Plan, d: Disk, i: nat, own: set<nat>, removed: seq<Removal>)
    requires Mine(p, d, own, removed) && i in d.staged && i !in d.targets && Publish(i) in d.journal.effects
    ensures Mine(p, Linked(d, i), own, removed) && KeepsForeign(d, Linked(d, i), own)
  {
  }

  lemma UnstagedIsMine(p: Plan, d: Disk, i: nat, own: set<nat>, removed: seq<Removal>)
    requires Mine(p, d, own, removed)
    ensures var after := d.(staged := d.staged - {i}); Mine(p, after, own, removed) && KeepsForeign(d, after, own)
  {
  }

  lemma RemovedIsMine(p: Plan, d: Disk, i: nat, own: set<nat>, removed: seq<Removal>)
    requires Mine(p, d, own, removed) && OwnCopyAt(p, d.journal.effects, d, i)
    ensures var after := d.(targets := d.targets - {i});
            && Mine(p, after, own, removed + [Removal(i, d.targets[i], d.inodes[d.targets[i]].data)])
            && KeepsForeign(d, after, own)
  {
  }

  lemma KeptTwice(a: Disk, b: Disk, c: Disk, own: set<nat>, more: set<nat>)
    requires KeepsForeign(a, b, own) && KeepsForeign(b, c, more) && own <= more
    ensures KeepsForeign(a, c, more)
  {
  }

  lemma KeptAsIs(d: Disk, own: set<nat>)
    requires forall i | i in d.targets :: d.targets[i] in d.inodes
    ensures KeepsForeign(d, d, own)
  {
  }

  // ---------------------------------------------------------------- one run

  datatype Report = NothingPending | Died | Finished | OperatorReport | StaysOpen | CancelReported | CancelDone

  /** A staged source that changed, or a staged set that does not validate. */
  predicate BeforeCommit(e: EffectId) {
    e.Stage? || e == Validate
  }

  lemma CancelledUnregistered(p: Plan, d: Disk)
    requires Consistent(p, d) && d.journal.phase == Cancelled
    ensures d.registration == Absent
  {
  }

  /** What a finished cancel leaves: no private name, no registration, and undisturbed no copy. */
  predicate Cleaned(d: Disk, disturbed: bool) {
    && d.journal.phase == Cancelled && d.staged == map[] && d.registration == Absent
    && (!disturbed ==> d.targets == map[])
  }

  /** What an operator report leaves: `needs_operator`, or still an open journal when that could not be written. */
  predicate Stopped(durable: Journal, lost: bool) {
    if lost then !Terminal(durable.phase) else durable.phase == OperatorNeeded
  }

  /** What a cancel report leaves: `cancelled` exactly when that was written, and otherwise the open journal
      before it; in both cases short of the registration. */
  predicate CancelLeaves(durable: Journal, lost: bool) {
    && AbandonMark !in durable.effects && Register !in durable.effects
    && (if lost then Ordinary(durable.phase) else durable.phase == Cancelled)
  }

  /** The durable journal knows no effect that the one in memory does not; a terminal one is the one in memory. */
  predicate Behind(durable: Journal, journal: Journal) {
    durable.effects.Keys <= journal.effects.Keys && (Terminal(durable.phase) ==> durable == journal)
  }

  lemma OpenBehind(durable: Journal, journal: Journal)
    requires Behind(durable, journal) && PhaseFits(durable) && Forward(journal) && Ordinary(journal.phase)
    requires Register !in journal.effects
    ensures CancelLeaves(durable, true)
  {
    assert AbandonMark !in durable.effects && Register !in durable.effects && !Terminal(durable.phase);
    OpenIsOrdinary(durable);
  }

  /** Where an uninterrupted, undisturbed run ends, by the check that failed. */
  function QuietEnd(abandon: bool, refused: Option<EffectId>): Phase {
    match refused
    case None => if abandon then Abandoned else Completed
    case Some(e) => if BeforeCommit(e) then Cancelled else OperatorNeeded
  }

  class Run {
    const plan: Plan
    const host: Host
    /** The journal in memory; `Save` makes it the durable one. */
    var journal: Journal

    /** The durable state is safe, and would stay safe if the journal in memory were saved now. */
    ghost predicate Sound()
      reads this, host
    {
      && host.Safe(plan)
      && OwnIdentities(journal.effects, host.own) && PhaseFits(journal)
      && Consistent(plan, host.disk.(journal := journal))
      && (!host.disturbed ==> TargetsKept(plan, host.disk.(journal := journal)))
      && Behind(host.disk.journal, journal)
    }

    /** Nobody else acts, and what is published has its staged copy. */
    ghost predicate Ready(e: EffectId)
      reads this, host
    {
      host.tampering == [] && (e.Publish? ==> e.role in host.disk.staged)
    }

    /** A failed check of the way forward is told by its exception. */
    ghost predicate TellsCheck(s: Status)
      reads host
    {
      && (s == Raised(VerifyFailed) <==> host.refused == Some(Verify))
      && (s == Raised(SmokeFailed) <==> host.refused.Some? && BeforeCommit(host.refused.value))
      && (host.refused.Some? ==> host.refused == Some(Verify) || BeforeCommit(host.refused.value))
    }

    ghost predicate GoingForward()
      reads this
    {
      Forward(journal) && Ordinary(journal.phase)
    }

    constructor Load(p: Plan, h: Host)
      requires h.Safe(p)
      ensures plan == p && host == h && journal == h.disk.journal && Sound()
    {
      plan, host, journal := p, h, h.disk.journal;
    }

    method Save() returns (s: Status)
      requires Sound()
      modifies host`disk, host`faults, host`lost, host`own, host`removed
      ensures host.lost == !Happens(old(host.faults))
      ensures Sound() && host.own == old(host.own) && host.removed == old(host.removed)
      ensures s == Verdict(old(host.faults)) && host.faults == Rest(old(host.faults))
      ensures host.disk == if Happens(old(host.faults)) then old(host.disk).(journal := journal) else old(host.disk)
      ensures Careful(host)
    {
      hide Consistent;
      host.lost := !Happens(host.faults);
      s := host.Act(host.disk.(journal := journal), host.own, host.removed);
    }

    /** One atomic step of this operation on the disk, that keeps what it must keep. */
    method Do(next: Disk, ghost own: set<nat>, ghost removed: seq<Removal>) returns (s: Status)
      requires Sound() && host.disk.journal == journal == next.journal
      requires host.own <= own && Mine(plan, next, own, removed) && KeepsForeign(host.disk, next, own)
      requires Consistent(plan, next) && (!host.disturbed ==> TargetsKept(plan, next))
      modifies host`disk, host`faults, host`own, host`removed
      ensures Sound() && host.disk.journal == journal && Careful(host)
      ensures s == Verdict(old(host.faults)) && host.faults == Rest(old(host.faults))
      ensures if Happens(old(host.faults)) then host.disk == next && host.own == own && host.removed == removed
              else host.disk == old(host.disk) && host.own == old(host.own) && host.removed == old(host.removed)
    {
      hide Consistent;
      s := host.Act(next, own, removed);
    }

    /** Write-ahead: the effect is journaled before anything of it happens. */
    method Intend(e: EffectId) returns (s: Status)
      requires Sound() && GoingForward() && IsPlanned(plan, e) && PredecessorsDone(e)
      requires e.Publish? || !IsDone(journal.effects, e)
      modifies this`journal, host`disk, host`faults, host`lost, host`own, host`removed
      ensures Sound() && GoingForward()
      ensures s == Verdict(old(host.faults)) && host.faults == Rest(old(host.faults))
      ensures s.Done? ==> host.disk.journal == journal
      ensures host.disk == old(host.disk).(journal := host.disk.journal)
      ensures journal == old(journal).(effects := Intending(old(journal).effects, e))
      ensures Careful(host) && host.own == old(host.own)
    {
      hide Consistent, TargetsKept, OnlyDisk, OnlyRole;
      IntendKeeps(plan, host.disk.(journal := journal), e);
      BegunIsKept(host.disk.journal.effects, Intending(journal.effects, e));
      journal := journal.(effects := Intending(journal.effects, e));
      s := Save();
    }

    ghost predicate PredecessorsDone(e: EffectId)
      reads this
    {
      forall f | Precedes(plan, f, e) :: IsDone(journal.effects, f)
    }

    method CompleteEffect(e: EffectId, identity: Option<nat>) returns (s: Status)
      requires Sound() && GoingForward() && IsPlanned(plan, e) && e in journal.effects && !IsDone(journal.effects, e)
      requires identity.Some? ==> identity.value in host.own
      requires Accomplished(plan, host.disk, journal.effects, e, identity)
      modifies this`journal, host`disk, host`faults, host`lost, host`own, host`removed
      ensures Sound() && GoingForward()
      ensures s == Verdict(old(host.faults)) && host.faults == Rest(old(host.faults))
      ensures s.Done? ==> host.disk.journal == journal
      ensures host.disk == old(host.disk).(journal := host.disk.journal)
      ensures journal == old(journal).(effects := Completing(old(journal).effects, e, identity))
      ensures Careful(host) && host.own == old(host.own)
    {
      hide Consistent, TargetsKept, OnlyDisk, OnlyRole;
      CompleteKeeps(plan, host.disk.(journal := journal), e, identity);
      journal := journal.(effects := Completing(journal.effects, e, identity));
      s := Save();
    }

    /** The copy itself: read the source, create the staged name exclusively, write it out. */
    method StageCopy(i: nat) returns (s: Status, identity: Option<nat>)
      requires Sound() && GoingForward() && host.disk.journal == journal && i < |plan.copies|
      requires Stage(i) in journal.effects && !IsDone(journal.effects, Stage(i)) && i !in host.disk.staged
      requires host.refused.None?
      modifies host`disk, host`faults, host`own, host`removed, host`refused
      ensures Sound() && host.disk.journal == journal && Careful(host)
      ensures s.Done? ==> Accomplished(plan, host.disk, journal.effects, Stage(i), identity)
      ensures s.Done? ==> identity.Some? && identity.value in host.own
      ensures s.Raised? ==> s.exn in {Interrupted, SmokeFailed}
      ensures TellsCheck(s)
      ensures s.Done? ==> OnlyDisk(Stage(i), old(host.disk), host.disk)
      ensures Calm(old(host.faults)) ==> s.Done? || s == Raised(SmokeFailed)
    {
      hide Consistent, Mine, KeepsForeign, TargetsKept, OnlyDisk, OnlyRole;
      identity := None;
      CareOf(host, plan);
      var same;
      s, same := host.Check();
      if s.IsFailure() { return; }
      if !same {
        host.refused := Some(Stage(i));
        return Raised(SmokeFailed), None;
      }
      s, identity := CreateAndFill(i);
    }

    method CreateAndFill(i: nat) returns (s: Status, identity: Option<nat>)
      requires Sound() && GoingForward() && host.disk.journal == journal && i < |plan.copies|
      requires Stage(i) in journal.effects && !IsDone(journal.effects, Stage(i)) && i !in host.disk.staged
      modifies host`disk, host`faults, host`own, host`removed
      ensures Sound() && host.disk.journal == journal && Careful(host)
      ensures s.Done? ==> Accomplished(plan, host.disk, journal.effects, Stage(i), identity)
      ensures s.Done? ==> identity.Some? && identity.value in host.own
      ensures s.Raised? ==> s.exn == Interrupted
      ensures s.Done? ==> OnlyDisk(Stage(i), old(host.disk), host.disk)
      ensures Calm(old(host.faults)) ==> s.Done?
    {
      hide Consistent, Mine, KeepsForeign, TargetsKept, OnlyDisk, OnlyRole;
      identity := None;
      CareOf(host, plan);
      CreateKeeps(plan, host.disk, i);
      CreatedIsMine(plan, host.disk, i, host.own, host.removed);
      StagedOnly(host.disk, i, plan.copies[i]);
      s := Do(Created(host.disk, i), host.own + {host.disk.nextId}, host.removed);
      if s.IsFailure() { return; }
      s, identity := FillCopy(i);
      if host.tampering == [] {
        KeptTwice(old(host.disk), Created(old(host.disk), i), host.disk, old(host.own) + {old(host.disk).nextId},
                  host.own);
      }
    }

    method FillCopy(i: nat) returns (s: Status, identity: Option<nat>)
      requires Sound() && host.disk.journal == journal && i < |plan.copies| && i in host.disk.staged
      requires forall k | 0 <= k < |plan.copies| :: IdentityOf(journal.effects, Stage(k)) != Some(host.disk.staged[i])
      modifies host`disk, host`faults, host`own, host`removed
      ensures Sound() && host.disk.journal == journal && Careful(host)
      ensures s == Verdict(old(host.faults)) && host.faults == Rest(old(host.faults))
      ensures s.Done? ==> Accomplished(plan, host.disk, journal.effects, Stage(i), identity)
      ensures s.Done? ==> host.disk == Filled(old(host.disk), i, plan.copies[i])
      ensures identity.Some? && identity.value in host.own
    {
      hide Consistent, Mine, KeepsForeign, TargetsKept, OnlyDisk, OnlyRole;
      FillKeeps(plan, host.disk, i, plan.copies[i]);
      FilledIsMine(plan, host.disk, i, plan.copies[i], host.own, host.removed);
      identity := Some(host.disk.staged[i]);
      s := Do(Filled(host.disk, i, plan.copies[i]), host.own, host.removed);
    }

    /** Publication: link, which never replaces a file, then drop the staged name. */
    method PublishCopy(i: nat) returns (s: Status)
      requires Sound() && GoingForward() && host.disk.journal == journal && i < |plan.copies|
      requires Publish(i) in journal.effects && !IsDone(journal.effects, Publish(i)) && i !in host.disk.targets
      modifies host`disk, host`faults, host`tampering, host`disturbed, host`own, host`removed
      ensures Sound() && host.disk.journal == journal && Careful(host)
      ensures s.Done? ==> Accomplished(plan, host.disk, journal.effects, Publish(i), None)
      ensures s.Raised? ==> s.exn in {Interrupted, NeedsOperator}
      ensures s == Raised(NeedsOperator) ==> host.disturbed
      ensures s.Done? && old(host.tampering) == [] ==> OnlyDisk(Publish(i), old(host.disk), host.disk)
      ensures s.Done? && old(host.tampering) == [] ==> i in old(host.disk.staged)
      ensures Calm(old(host.faults))
              && (!host.disturbed || (old(host.tampering) == [] && i in old(host.disk.staged))) ==>
                s.Done?
    {
      hide Consistent, TargetsKept, Mine, KeepsForeign, OnlyDisk, OnlyRole;
      CareOf(host, plan);
      host.OthersWrite(plan);
      if !host.disturbed {
        StagedBefore(plan, host.disk, i);
      }
      if i !in host.disk.staged {
        return Raised(Interrupted);
      }
      if i in host.disk.targets {
        if Observe(plan, Publish(i), journal.effects, host.disk) != IsComplete {
          return Raised(NeedsOperator);
        }
        s := DropStaged(i);
      } else {
        s := LinkAndDrop(i);
      }
    }

    method LinkAndDrop(i: nat) returns (s: Status)
      requires Sound() && GoingForward() && host.disk.journal == journal && i < |plan.copies|
      requires Publish(i) in journal.effects && !IsDone(journal.effects, Publish(i))
      requires i in host.disk.staged && i !in host.disk.targets
      modifies host`disk, host`faults, host`own, host`removed
      ensures Sound() && host.disk.journal == journal && Careful(host)
      ensures s.Done? ==> i in host.disk.targets && i !in host.disk.staged
      ensures s.Raised? ==> s.exn == Interrupted
      ensures s.Done? ==> OnlyDisk(Publish(i), old(host.disk), host.disk)
      ensures Calm(old(host.faults)) ==> s.Done?
    {
      hide Consistent, Mine, KeepsForeign, TargetsKept, OnlyDisk, OnlyRole;
      LinkKeeps(plan, host.disk, i);
      LinkedIsMine(plan, host.disk, i, host.own, host.removed);
      LinkedOnly(host.disk, i);
      s := Do(Linked(host.disk, i), host.own, host.removed);
      if s.IsFailure() { return; }
      s := DropStaged(i);
      KeptTwice(old(host.disk), Linked(old(host.disk), i), host.disk, old(host.own), host.own);
    }

    /** Unlinks a staged name: the copy is published, or is redone, or the operation goes back. */
    method DropStaged(i: nat) returns (s: Status)
      requires Sound() && host.disk.journal == journal
      requires !Forward(journal) || PublishBegun(journal.effects) || IdentityOf(journal.effects, Stage(i)).None?
      requires !host.disturbed ==>
                 !Forward(journal) || i in host.disk.targets || IdentityOf(journal.effects, Stage(i)).None?
      modifies host`disk, host`faults, host`own, host`removed
      ensures Sound() && host.disk.journal == journal && Careful(host)
      ensures host.own == old(host.own) && host.removed == old(host.removed)
      ensures s == Verdict(old(host.faults)) && host.faults == Rest(old(host.faults))
      ensures host.disk == if Happens(old(host.faults)) then old(host.disk).(staged := old(host.disk).staged - {i})
                           else old(host.disk)
    {
      hide Consistent, Mine, KeepsForeign, TargetsKept, OnlyDisk, OnlyRole;
      UnstageKeeps(plan, host.disk, i);
      UnstagedIsMine(plan, host.disk, i, host.own, host.removed);
      s := Do(host.disk.(staged := host.disk.staged - {i}), host.own, host.removed);
    }

    /** The registration, in two steps that converge when they are repeated. */
    method RegisterInstance() returns (s: Status)
      requires Sound() && GoingForward() && host.disk.journal == journal
      requires Register in journal.effects && !IsDone(journal.effects, Register)
      modifies host`disk, host`faults, host`own, host`removed
      ensures Sound() && host.disk.journal == journal && Careful(host)
      ensures s.Done? ==> host.disk.registration == Registered
      ensures s.Raised? ==> s.exn == Interrupted
      ensures s.Done? ==> OnlyDisk(Register, old(host.disk), host.disk)
      ensures Calm(old(host.faults)) ==> s.Done?
    {
      hide Consistent, KeepsForeign, TargetsKept, OnlyDisk, OnlyRole;
      CareOf(host, plan);
      SameTargets(host.disk, host.disk.(registration := Unfinished), host.own);
      SameTargets(host.disk, host.disk.(registration := Registered), host.own);
      RegisterKeeps(plan, host.disk, Unfinished);
      RegisterKeeps(plan, host.disk, Registered);
      s := Do(host.disk.(registration := Unfinished), host.own, host.removed);
      if s.IsFailure() { return; }
      SameTargets(host.disk, host.disk.(registration := Registered), host.own);
      s := Do(host.disk.(registration := Registered), host.own, host.removed);
      SameOnly(Register, old(host.disk), host.disk);
    }

    /** A check effect: journaled, run, journaled complete. */
    method RunCheck(e: EffectId) returns (s: Status)
      requires Sound() && GoingForward() && IsPlanned(plan, e) && IsCheck(e)
      requires PredecessorsDone(e) && !IsDone(journal.effects, e)
      requires host.disk.journal == journal
      requires host.refused.None?
      modifies this`journal, host`disk, host`faults, host`lost, host`own, host`removed, host`refused
      ensures s.Done? ==> host.disk.journal == journal
      ensures Sound() && GoingForward() && Careful(host)
      ensures s.Done? ==> Extended(old(journal.effects), journal.effects, e)
      ensures s.Raised? ==> s.exn in {Interrupted, SmokeFailed, VerifyFailed}
      ensures s == Raised(SmokeFailed) ==> Register !in journal.effects
      ensures TellsCheck(s)
      ensures s.Done? ==> OnlyRole(e, old(journal.effects), old(host.disk), journal.effects, host.disk)
      ensures Calm(old(host.faults)) ==> s.Done? || s in {Raised(SmokeFailed), Raised(VerifyFailed)}
    {
      hide Consistent, TargetsKept, Mine, Intending, Completing, Extended, IsDone, OwnIdentities, OnlyDisk, OnlyRole;
      CareOf(host, plan);
      ObservationKnown(plan, host.disk.(journal := journal), e);
      Journaled(journal.effects, e, None);
      s := Intend(e);
      if s.IsFailure() { return; }
      var passed;
      s, passed := host.Check();
      if s.IsFailure() { return; }
      if !passed {
        host.refused := Some(e);
        return Raised(if e == Verify then VerifyFailed else SmokeFailed);
      }
      s := CompleteEffect(e, None);
      SameOnly(e, old(host.disk), host.disk);
      ExecutedOnly(e, old(journal.effects), old(host.disk), None, host.disk);
    }

    /** The effect is already on disk: journal it intended and complete, adopting what is there. */
    method Adopt(e: EffectId) returns (s: Status)
      requires Sound() && GoingForward() && IsPlanned(plan, e) && !IsCheck(e)
      requires PredecessorsDone(e) && (e.Publish? || !IsDone(journal.effects, e))
      requires Observe(plan, e, journal.effects, host.disk) == IsComplete
      requires host.disk.journal == journal
      modifies this`journal, host`disk, host`faults, host`lost, host`own, host`removed
      ensures s.Done? ==> host.disk.journal == journal
      ensures Sound() && GoingForward() && Careful(host)
      ensures s.Done? ==> Extended(old(journal.effects), journal.effects, e)
      ensures s.Raised? ==> s.exn == Interrupted
      ensures s.Done? ==> OnlyRole(e, old(journal.effects), old(host.disk), journal.effects, host.disk)
      ensures Calm(old(host.faults)) ==> s.Done?
    {
      hide Consistent, Mine, Accomplished, Observe, Leftover, CreatedIdentity, Intending, Completing,
           Extended, IsDone, OwnIdentities, TargetsKept, OnlyDisk, OnlyRole;
      CareOf(host, plan);
      AdoptionFits(plan, host.disk, journal, e);
      AdoptedIsOwn(host, plan, journal, e);
      Journaled(journal.effects, e, CreatedIdentity(Adopting(host.disk, journal, e), e));
      s := Intend(e);
      if s.IsFailure() { return; }
      s := AfterObservedComplete(e);
      if s.IsFailure() { return; }
      AdoptedOnly(e, journal.effects, old(host.disk), host.disk);
      ghost var made, identity := host.disk, CreatedIdentity(host.disk, e);
      s := CompleteEffect(e, CreatedIdentity(host.disk, e));
      OnlyAgain(e, old(host.disk), made, old(host.disk), host.disk);
      ExecutedOnly(e, old(journal.effects), old(host.disk), identity, host.disk);
    }

    /** A published copy that is adopted may still have its staged name. */
    method AfterObservedComplete(e: EffectId) returns (s: Status)
      requires Sound() && host.disk.journal == journal
      requires e.Publish? ==> e in journal.effects && e.role in host.disk.targets
      modifies host`disk, host`faults, host`own, host`removed
      ensures Sound() && host.disk.journal == journal && Careful(host) && host.own == old(host.own)
      ensures s.Raised? ==> s.exn == Interrupted
      ensures Calm(old(host.faults)) ==> s.Done?
      ensures s.Done? ==> host.disk == WithoutLeftover(journal.effects, old(host.disk), e)
    {
      hide Consistent, Mine, TargetsKept, OnlyDisk, OnlyRole;
      CareOf(host, plan);
      if Leftover(journal.effects, host.disk, e) {
        s := DropStaged(e.role);
      } else {
        s := Done;
      }
    }

    /** Journal the intent, act, journal the completion. */
    method Execute(e: EffectId) returns (s: Status)
      requires Sound() && GoingForward() && IsPlanned(plan, e) && !IsCheck(e)
      requires PredecessorsDone(e) && (e.Publish? || !IsDone(journal.effects, e))
      requires e.Stage? ==> e.role !in host.disk.staged
      requires e.Publish? ==> e.role !in host.disk.targets
      requires host.disk.journal == journal
      requires host.refused.None?
      modifies this`journal, host
      ensures s.Done? ==> host.disk.journal == journal
      ensures Sound() && GoingForward() && Careful(host)
      ensures s.Done? ==> Extended(old(journal.effects), journal.effects, e)
      ensures s.Raised? ==> s.exn in {Interrupted, NeedsOperator, SmokeFailed}
      ensures s == Raised(NeedsOperator) ==> host.disturbed
      ensures s == Raised(SmokeFailed) ==> Register !in journal.effects
      ensures TellsCheck(s)
      ensures s.Done? && old(host.tampering) == [] ==>
                OnlyRole(e, old(journal.effects), old(host.disk), journal.effects, host.disk)
      ensures s.Done? && old(host.tampering) == [] && e.Publish? ==> e.role in old(host.disk.staged)
      ensures Calm(old(host.faults)) && (!host.disturbed || old(Ready(e))) ==> s.Done? || s == Raised(SmokeFailed)
    {
      hide Consistent, TargetsKept, Mine, Intending, Completing, Extended, IsDone, OwnIdentities, OnlyDisk, OnlyRole;
      CareOf(host, plan);
      ObservationKnown(plan, host.disk.(journal := journal), e);
      Journaled(journal.effects, e, None);
      s := Intend(e);
      if s.IsFailure() { return; }
      ghost var was := host.disk;
      var identity;
      s, identity := Apply(e);
      if s.IsFailure() { return; }
      ghost var made := host.disk;
      Journaled(old(journal.effects), e, identity);
      s := CompleteEffect(e, identity);
      if s.Done? && old(host.tampering) == [] {
        OnlyAgain(e, was, made, old(host.disk), host.disk);
        ExecutedOnly(e, old(journal.effects), old(host.disk), identity, host.disk);
      }
    }

    method Apply(e: EffectId) returns (s: Status, identity: Option<nat>)
      requires Sound() && GoingForward() && IsPlanned(plan, e) && !IsCheck(e) && host.disk.journal == journal
      requires e in journal.effects && !IsDone(journal.effects, e)
      requires e.Stage? ==> e.role !in host.disk.staged
      requires e.Publish? ==> e.role !in host.disk.targets
      requires host.refused.None?
      modifies host
      ensures Sound() && host.disk.journal == journal && Careful(host)
      ensures s.Done? ==> Accomplished(plan, host.disk, journal.effects, e, identity)
      ensures s.Done? && identity.Some? ==> identity.value in host.own
      ensures s.Raised? ==> s.exn in {Interrupted, NeedsOperator, SmokeFailed}
      ensures s == Raised(NeedsOperator) ==> host.disturbed
      ensures s == Raised(SmokeFailed) ==> e.Stage?
      ensures TellsCheck(s)
      ensures s.Done? && old(host.tampering) == [] ==> OnlyDisk(e, old(host.disk), host.disk)
      ensures s.Done? && !e.Stage? ==> identity.None?
      ensures s.Done? && old(host.tampering) == [] && e.Publish? ==> e.role in old(host.disk.staged)
      ensures Calm(old(host.faults)) && (!host.disturbed || old(Ready(e))) ==> s.Done? || s == Raised(SmokeFailed)
    {
      hide Consistent, TargetsKept, Mine, OwnIdentities, OnlyDisk, OnlyRole;
      identity := None;
      match e {
        case Stage(i) => s, identity := StageCopy(i);
        case Publish(i) => s := PublishCopy(i);
        case Register => s := RegisterInstance();
      }
    }

    /** One round of the forward loop: skip, adopt what is already on disk, refuse, redo, or execute. */
    method ForwardOne(e: EffectId) returns (s: Status)
      requires Sound() && GoingForward() && IsPlanned(plan, e) && PredecessorsDone(e)
      requires host.disk.journal == journal
      requires host.refused.None?
      modifies this`journal, host
      ensures s.Done? ==> host.disk.journal == journal
      ensures Sound() && GoingForward() && Careful(host)
      ensures s.Done? ==> Extended(old(journal.effects), journal.effects, e)
      ensures s.Raised? ==> s.exn in {Interrupted, NeedsOperator, SmokeFailed, VerifyFailed}
      ensures s == Raised(NeedsOperator) ==> host.disturbed
      ensures s == Raised(SmokeFailed) ==> Register !in journal.effects
      ensures TellsCheck(s)
      ensures s.Done? && old(host.tampering) == [] ==>
                OnlyRole(e, old(journal.effects), old(host.disk), journal.effects, host.disk)
      ensures Consumed(e, old(journal.effects)) ==> s.Done? && journal == old(journal) && host.disk == old(host.disk)
      ensures s.Done? && old(host.tampering) == [] ==> Served(plan, old(journal.effects), old(host.disk), e)
      ensures Calm(old(host.faults))
              && (!host.disturbed
                  || (old(host.tampering) == [] && Served(plan, old(journal.effects), old(host.disk), e))) ==>
                s.Done? || s in {Raised(SmokeFailed), Raised(VerifyFailed)}
    {
      hide Consistent, TargetsKept, Mine, OnlyDisk, OnlyRole;
      CareOf(host, plan);
      ObservationKnown(plan, host.disk, e);
      NothingTouched(e, journal.effects, host.disk);
      var known := e in journal.effects;
      var complete := IsDone(journal.effects, e);
      if complete && (IsCheck(e) || Consumed(e, journal.effects)) {
        return Done;
      }
      if IsCheck(e) {
        s := RunCheck(e);
        return;
      }
      if known && Consumed(e, journal.effects) {
        return Done;
      }
      host.OthersWrite(plan);
      s := Look(e);
    }

    method Look(e: EffectId) returns (s: Status)
      requires Sound() && GoingForward() && IsPlanned(plan, e) && !IsCheck(e) && PredecessorsDone(e)
      requires !Consumed(e, journal.effects)
      requires host.disk.journal == journal
      requires host.refused.None?
      modifies this`journal, host
      ensures s.Done? ==> host.disk.journal == journal
      ensures Sound() && GoingForward() && Careful(host)
      ensures s.Done? ==> Extended(old(journal.effects), journal.effects, e)
      ensures s.Raised? ==> s.exn in {Interrupted, NeedsOperator, SmokeFailed}
      ensures s == Raised(NeedsOperator) ==> host.disturbed
      ensures s == Raised(SmokeFailed) ==> Register !in journal.effects
      ensures TellsCheck(s)
      ensures s.Done? && old(host.tampering) == [] ==>
                OnlyRole(e, old(journal.effects), old(host.disk), journal.effects, host.disk)
      ensures s.Done? && old(host.tampering) == [] ==> Served(plan, old(journal.effects), old(host.disk), e)
      ensures Calm(old(host.faults))
              && (!host.disturbed
                  || (old(host.tampering) == [] && Served(plan, old(journal.effects), old(host.disk), e))) ==>
                s.Done? || s == Raised(SmokeFailed)
    {
      hide Consistent, TargetsKept, Mine, OnlyDisk, OnlyRole;
      CareOf(host, plan);
      ObservationKnown(plan, host.disk, e);
      NothingTouched(e, journal.effects, host.disk);
      if e.Publish? && !host.disturbed {
        TargetKnown(plan, host.disk, e.role);
      }
      var state := Observe(plan, e, journal.effects, host.disk);
      if state == IsComplete {
        if IsDone(journal.effects, e) {
          return Done;
        }
        s := Adopt(e);
      } else if state == Unknown {
        s := Raised(NeedsOperator);
      } else if state == Partial && e.Stage? {
        s := Redo(e.role);
      } else {
        s := Execute(e);
      }
    }

    /** A partial staged copy is removed and staged again. */
    method Redo(i: nat) returns (s: Status)
      requires Sound() && GoingForward() && i < |plan.copies| && PredecessorsDone(Stage(i))
      requires !PublishBegun(journal.effects) && Observe(plan, Stage(i), journal.effects, host.disk) == Partial
      requires host.disk.journal == journal
      requires host.refused.None?
      modifies this`journal, host
      ensures s.Done? ==> host.disk.journal == journal
      ensures Sound() && GoingForward() && Careful(host)
      ensures s.Done? ==> Extended(old(journal.effects), journal.effects, Stage(i))
      ensures s.Raised? ==> s.exn in {Interrupted, NeedsOperator, SmokeFailed}
      ensures s == Raised(NeedsOperator) ==> host.disturbed
      ensures s == Raised(SmokeFailed) ==> Register !in journal.effects
      ensures TellsCheck(s)
      ensures s.Done? && old(host.tampering) == [] ==>
                OnlyRole(Stage(i), old(journal.effects), old(host.disk), journal.effects, host.disk)
      ensures Calm(old(host.faults)) && (!host.disturbed || old(host.tampering) == []) ==>
                s.Done? || s == Raised(SmokeFailed)
    {
      hide Consistent, TargetsKept, Mine, OnlyDisk, OnlyRole;
      CareOf(host, plan);
      ObservationKnown(plan, host.disk, Stage(i));
      NotRecorded(plan, host.disk, i);
      s := DropStaged(i);
      if s.IsFailure() { return; }
      ghost var was := host.disk;
      s := Execute(Stage(i));
      if s.Done? && old(host.tampering) == [] {
        RedoneOnly(i, old(journal.effects), old(host.disk), was, journal.effects, host.disk);
      }
    }

    method Forwards() returns (s: Status)
      requires Sound() && GoingForward() && host.disk.journal == journal
      requires host.refused.None?
      modifies this`journal, host
      ensures Sound() && Careful(host) && Forward(journal)
      ensures s.Done? ==> host.disk.journal == journal && journal.phase == Completed
      ensures s.Raised? ==> s.exn in {Interrupted, NeedsOperator, SmokeFailed, VerifyFailed}
      ensures s.Raised? && s.exn != Interrupted ==> GoingForward()
      ensures Calm(old(host.faults)) && s.IsFailure() ==> GoingForward()
      ensures !GoingForward() ==> Register in journal.effects
      ensures s == Raised(NeedsOperator) ==> host.disturbed
      ensures s == Raised(SmokeFailed) ==> Register !in journal.effects
      ensures TellsCheck(s)
      ensures s.Done? && old(host.tampering) == [] ==> Recoverable(plan, old(journal.effects), old(host.disk))
      ensures Calm(old(host.faults))
              && (!host.disturbed
                  || (old(host.tampering) == [] && Recoverable(plan, old(journal.effects), old(host.disk)))) ==>
                s.Done? || s in {Raised(SmokeFailed), Raised(VerifyFailed)}
    {
      hide Consistent, TargetsKept, Mine, Extended, OnlyRole, OnlyDisk, Publishable, DoneBelow, SameFrom, Recoverable,
           OwnIdentities, PhaseFits;
      CareOf(host, plan);
      NothingBelow(plan, journal.effects, host.disk);
      var k := 0;
      while k < 2 * |plan.copies| + 3
        invariant k <= 2 * |plan.copies| + 3
        invariant Sound() && GoingForward() && host.disk.journal == journal && Careful(host) && host.refused.None?
        invariant DoneBelow(plan, journal.effects, k)
        invariant old(host.tampering) == [] ==>
                    SameFrom(plan, old(journal.effects), old(host.disk), journal.effects, host.disk, k)
        decreases 2 * |plan.copies| + 3 - k
      {
        var e := EffectAt(plan, k);
        BelowPrecedes(plan, journal.effects, k);
        ghost var before, was, own, removed := journal.effects, host.disk, host.own, host.removed;
        if e.Publish? {
          ServedExactly(plan, was, own, removed, e.role);
          if old(host.tampering) == [] {
            SameHere(plan, old(journal.effects), old(host.disk), was, k);
          }
        }
        s := ForwardOne(e);
        if s.IsFailure() { return; }
        OneMoreDone(plan, before, journal.effects, k);
        if old(host.tampering) == [] {
          if !Consumed(e, before) {
            RolesAside(plan, e, was, own, removed, host.disk, host.own, host.removed);
          }
          OneMoreSame(plan, old(journal.effects), old(host.disk), was, host.disk, k);
        }
        k := k + 1;
      }
      AllBelow(plan, old(journal.effects), old(host.disk), journal.effects, host.disk);
      s := Finish();
    }

    /** Journals `completed`. */
    method Finish() returns (s: Status)
      requires Sound() && GoingForward() && host.disk.journal == journal && Register in journal.effects
      requires DoneBelow(plan, journal.effects, 2 * |plan.copies| + 3)
      modifies this`journal, host`disk, host`faults, host`lost, host`own, host`removed
      ensures Sound() && Careful(host) && Forward(journal) && Register in journal.effects
      ensures s == Verdict(old(host.faults)) && host.faults == Rest(old(host.faults))
      ensures s.Done? ==> host.disk.journal == journal && journal.phase == Completed
    {
      hide Consistent, TargetsKept, Mine;
      EnterKeeps(plan, host.disk, Completed);
      journal := journal.(phase := Completed);
      s := Save();
    }

    /** Removes this operation's own copies: a target only where it still is the recorded copy with the
        planned bytes, a staged name always. */
    method RemoveCopies() returns (s: Status)
      requires Sound() && host.disk.journal == journal && !Forward(journal)
      modifies host`disk, host`faults, host`tampering, host`disturbed, host`own, host`removed
      ensures Sound() && host.disk.journal == journal && Careful(host)
      ensures s.Done? ==> host.disk.staged == map[] && (!host.disturbed ==> host.disk.targets == map[])
      ensures s.Done? && old(host.tampering) == [] ==>
                host.disk.targets == WithoutOwn(plan, journal.effects, old(host.disk), |plan.copies|)
      ensures host.disk.registration == old(host.disk).registration
      ensures s.Raised? ==> s.exn == Interrupted
      ensures Calm(old(host.faults)) ==> s.Done?
    {
      hide Consistent, Mine, OwnCopyAt, TargetsKept;
      CareOf(host, plan);
      NoneRemoved(plan, journal.effects, host.disk);
      for i := 0 to |plan.copies|
        invariant Sound() && host.disk.journal == journal && Careful(host)
        invariant forall k :: 0 <= k < i ==> k !in host.disk.staged
        invariant !host.disturbed ==> forall k :: 0 <= k < i ==> k !in host.disk.targets
        invariant old(host.tampering) == [] ==>
                    && host.disk.targets == WithoutOwn(plan, journal.effects, old(host.disk), i)
                    && host.disk.inodes == old(host.disk).inodes
        invariant host.disk.registration == old(host.disk).registration
      {
        host.OthersWrite(plan);
        if old(host.tampering) == [] {
          OneMoreRemoved(plan, journal.effects, old(host.disk), host.disk, i);
        }
        s := RemoveCopy(i);
        if s.IsFailure() { return; }
      }
      OnlyPlannedRoles(plan, host.disk);
      assert host.disk.staged == map[];
      assert !host.disturbed ==> host.disk.targets == map[];
      s := Done;
    }

    method RemoveCopy(i: nat) returns (s: Status)
      requires Sound() && host.disk.journal == journal && !Forward(journal) && i < |plan.copies|
      modifies host`disk, host`faults, host`own, host`removed
      ensures Sound() && host.disk.journal == journal && Careful(host)
      ensures host.disk == old(host.disk).(targets := host.disk.targets, staged := host.disk.staged)
      ensures s.Done? ==> host.disk.staged == old(host.disk).staged - {i}
      ensures s.Done? ==> host.disk.targets == if OwnCopyAt(plan, journal.effects, old(host.disk), i)
                                               then old(host.disk).targets - {i} else old(host.disk).targets
      ensures s.Done? && !host.disturbed ==> i !in host.disk.targets
      ensures s.Raised? ==> s.exn == Interrupted
      ensures Calm(old(host.faults)) ==> s.Done?
    {
      hide Consistent, Mine, TargetsKept;
      CareOf(host, plan);
      if !host.disturbed {
        OwnOrNothing(plan, host.disk, i);
      }
      if OwnCopyAt(plan, journal.effects, host.disk, i) {
        s := DropTarget(i);
        if s.IsFailure() { return; }
      }
      if i in host.disk.staged {
        s := DropStaged(i);
      } else {
        s := Done;
      }
    }

    /** Unlinks a target that is this operation's own copy. */
    method DropTarget(i: nat) returns (s: Status)
      requires Sound() && host.disk.journal == journal && !Forward(journal)
      requires OwnCopyAt(plan, journal.effects, host.disk, i)
      modifies host`disk, host`faults, host`own, host`removed
      ensures Sound() && host.disk.journal == journal && Careful(host)
      ensures s == Verdict(old(host.faults)) && host.faults == Rest(old(host.faults))
      ensures host.disk == if Happens(old(host.faults)) then old(host.disk).(targets := old(host.disk).targets - {i})
                           else old(host.disk)
    {
      hide Consistent, Mine, KeepsForeign, TargetsKept;
      RemoveKeeps(plan, host.disk, i);
      RemovedIsMine(plan, host.disk, i, host.own, host.removed);
      ghost var w := Removal(i, host.disk.targets[i], host.disk.inodes[host.disk.targets[i]].data);
      s := Do(host.disk.(targets := host.disk.targets - {i}), host.own, host.removed + [w]);
    }

    /** Before the commit point: journal `cancelled` first, then remove the own copies. */
    method Cancel() returns (s: Status)
      requires Sound() && GoingForward() && Register !in journal.effects
      modifies this`journal, host`disk, host`faults, host`lost, host`tampering, host`disturbed, host`own, host`removed
      ensures Sound() && Careful(host) && journal == old(journal).(phase := Cancelled)
      ensures s.Done? ==> host.disk.journal == journal
      ensures s.Done? ==> host.disk.staged == map[] && (!host.disturbed ==> host.disk.targets == map[])
      ensures s.Done? && old(host.tampering) == [] ==>
                host.disk.targets == WithoutOwn(plan, journal.effects, old(host.disk), |plan.copies|)
      ensures s.Done? ==> Cleaned(host.disk, host.disturbed)
      ensures host.lost == !Happens(old(host.faults)) && (s.Done? ==> !host.lost)
      ensures host.disk.journal == if host.lost then old(host.disk).journal else journal
      ensures s.Raised? ==> s.exn == Interrupted
      ensures Calm(old(host.faults)) ==> s.Done?
    {
      hide Consistent, Mine, OwnCopyAt, TargetsKept;
      CareOf(host, plan);
      EnterKeeps(plan, host.disk.(journal := journal), Cancelled);
      journal := journal.(phase := Cancelled);
      s := Save();
      if s.IsFailure() { return; }
      SameCopies(plan, journal.effects, old(host.disk), host.disk);
      s := RemoveCopies();
      if s.Done? {
        CancelledUnregistered(plan, host.disk);
      }
    }

    /** Journals the abandon before anything goes back. */
    method TurnBack() returns (s: Status)
      requires Sound() && !Terminal(journal.phase)
      modifies this`journal, host`disk, host`faults, host`lost, host`own, host`removed
      ensures Sound() && Careful(host) && journal.phase == Abandoning && AbandonMark in journal.effects
      ensures forall i :: IdentityOf(journal.effects, Stage(i)) == IdentityOf(old(journal.effects), Stage(i))
      ensures s == Verdict(old(host.faults)) && host.faults == Rest(old(host.faults))
      ensures s.Done? ==> host.disk.journal == journal
      ensures host.disk == old(host.disk).(journal := host.disk.journal)
    {
      hide Consistent, Mine, TargetsKept;
      var d := host.disk.(journal := journal);
      MarkKeeps(plan, d, AbandonMark, Entry(Intended, None));
      EnterKeeps(plan, d, Abandoning);
      EnterKeeps(plan, d.(journal := Marked(journal, AbandonMark, Intended)), Abandoning);
      if AbandonMark !in journal.effects {
        journal := Marked(journal, AbandonMark, Intended);
      }
      journal := journal.(phase := Abandoning);
      s := Save();
    }

    /** Discards the registration; a registration that is in use stays, for the operator to decide. */
    method DiscardRegistration() returns (s: Status)
      requires Sound() && host.disk.journal == journal
      requires journal.phase == Abandoning && AbandonMark in journal.effects
      requires host.refused.None?
      modifies this`journal, host`disk, host`faults, host`lost, host`own, host`removed, host`refused
      ensures Sound() && Careful(host) && journal.phase == Abandoning && AbandonMark in journal.effects
      ensures forall i :: IdentityOf(journal.effects, Stage(i)) == IdentityOf(old(journal.effects), Stage(i))
      ensures host.disk.targets == old(host.disk).targets && host.disk.inodes == old(host.disk).inodes
      ensures s.Done? ==> host.disk.journal == journal && host.disk.registration == Absent
      ensures s.Raised? ==> s.exn in {Interrupted, NeedsOperator}
      ensures host.refused == if s == Raised(NeedsOperator) then Some(Discard) else None
      ensures Calm(old(host.faults)) ==> s.Done? || s == Raised(NeedsOperator)
    {
      hide Consistent, Mine, TargetsKept;
      CareOf(host, plan);
      if host.disk.registration == Absent {
        return Done;
      }
      s := JournalDiscard(Intended);
      if s.IsFailure() { return; }
      var unused;
      s, unused := host.Check();
      if s.IsFailure() { return; }
      if !unused {
        host.refused := Some(Discard);
        return Raised(NeedsOperator);
      }
      s := DropRegistration();
      if s.IsFailure() { return; }
      s := JournalDiscard(Complete);
    }

    method DropRegistration() returns (s: Status)
      requires Sound() && host.disk.journal == journal && AbandonMark in journal.effects
      modifies host`disk, host`faults, host`own, host`removed
      ensures Sound() && host.disk.journal == journal && Careful(host)
      ensures s == Verdict(old(host.faults)) && host.faults == Rest(old(host.faults))
      ensures host.disk == old(host.disk).(registration := host.disk.registration)
      ensures s.Done? ==> host.disk.registration == Absent
    {
      hide Consistent, TargetsKept;
      CareOf(host, plan);
      SameTargets(host.disk, host.disk.(registration := Absent), host.own);
      RegisterKeeps(plan, host.disk, Absent);
      s := Do(host.disk.(registration := Absent), host.own, host.removed);
    }

    method JournalDiscard(state: EffectState) returns (s: Status)
      requires Sound() && journal.phase == Abandoning && AbandonMark in journal.effects
      modifies this`journal, host`disk, host`faults, host`lost, host`own, host`removed
      ensures Sound() && Careful(host)
      ensures journal == Marked(old(journal), Discard, state)
      ensures s == Verdict(old(host.faults)) && host.faults == Rest(old(host.faults))
      ensures s.Done? ==> host.disk.journal == journal
      ensures host.disk == old(host.disk).(journal := host.disk.journal)
    {
      hide Consistent, Mine, TargetsKept;
      MarkKeeps(plan, host.disk.(journal := journal), Discard, Entry(state, None));
      journal := Marked(journal, Discard, state);
      s := Save();
    }

    /** On request: journal the abandon, discard the registration, remove the own copies, close. */
    method Abandon() returns (s: Status)
      requires Sound() && !Terminal(journal.phase)
      requires host.refused.None?
      modifies this`journal, host
      ensures Sound() && Careful(host) && AbandonMark in journal.effects
      ensures s.Done? ==> host.disk.journal == journal && journal.phase == Abandoned
      ensures s.Done? ==> host.disk.staged == map[]
      ensures s.Done? && old(host.tampering) == [] ==>
                host.disk.targets == WithoutOwn(plan, old(journal.effects), old(host.disk), |plan.copies|)
      ensures s.Raised? ==> s.exn in {Interrupted, NeedsOperator} && journal.phase in {Abandoning, Abandoned}
      ensures s == Raised(NeedsOperator) ==> journal.phase == Abandoning
      ensures host.refused == if s == Raised(NeedsOperator) then Some(Discard) else None
      ensures Calm(old(host.faults)) ==> s.Done? || s == Raised(NeedsOperator)
    {
      hide Consistent, Mine, OwnCopyAt, TargetsKept;
      CareOf(host, plan);
      s := TurnBack();
      if s.IsFailure() { return; }
      s := DiscardRegistration();
      if s.IsFailure() { return; }
      SameCopies(plan, old(journal.effects), old(host.disk), host.disk);
      SameIdentities(plan, old(journal.effects), journal.effects, host.disk);
      s := RemoveCopies();
      if s.IsFailure() { return; }
      s := CloseAbandoned();
    }

    method CloseAbandoned() returns (s: Status)
      requires Sound() && journal.phase == Abandoning && AbandonMark in journal.effects
      requires host.disk.staged == map[] && host.disk.registration == Absent
      requires !host.disturbed ==> host.disk.targets == map[]
      modifies this`journal, host`disk, host`faults, host`lost, host`own, host`removed
      ensures Sound() && Careful(host) && AbandonMark in journal.effects
      ensures s == Verdict(old(host.faults)) && host.faults == Rest(old(host.faults))
      ensures journal.phase == Abandoned && (s.Done? ==> host.disk.journal == journal)
      ensures host.disk == old(host.disk).(journal := host.disk.journal)
    {
      hide Consistent, Mine, TargetsKept;
      var d := host.disk.(journal := journal);
      MarkKeeps(plan, d, AbandonMark, Entry(Complete, None));
      EnterKeeps(plan, d.(journal := Marked(journal, AbandonMark, Complete)), Abandoned);
      journal := Marked(journal, AbandonMark, Complete).(phase := Abandoned);
      s := Save();
    }

    /** Stops for an operator; the journal write is best effort. */
    method EnterNeedsOperator() returns (r: Report)
      requires Sound() && !Terminal(journal.phase)
      modifies this`journal, host`disk, host`faults, host`lost, host`own, host`removed
      ensures Sound() && Careful(host) && (r == Died || r == OperatorReport)
      ensures host.disk == old(host.disk).(journal := host.disk.journal)
      ensures r == OperatorReport ==> Stopped(host.disk.journal, host.lost)
      ensures Calm(old(host.faults)) ==> r == OperatorReport && host.disk.journal.phase == OperatorNeeded
    {
      hide Consistent, Mine, TargetsKept;
      EnterKeeps(plan, host.disk.(journal := journal), OperatorNeeded);
      journal := journal.(phase := OperatorNeeded);
      var s := Save();
      r := if s.Halted? then Died else OperatorReport;
    }

    /** What an open report leaves: the journal in memory, or one behind it when that could not be written; never
        short of the registration unless it goes back, and never a cancelled one. */
    ghost predicate LeftOpen()
      reads this, host
    {
      && (Register in journal.effects || AbandonMark in journal.effects) && journal.phase != Cancelled
      && (!host.lost ==> host.disk.journal == journal)
    }

    /** Runs forward or abandons, with the failure handling of a migration. */
    method Drive(abandon: bool, possible: bool) returns (r: Report)
      requires Sound() && host.disk.journal == journal && !Terminal(journal.phase)
      requires !abandon ==> GoingForward()
      requires host.refused.None?
      modifies this`journal, host
      ensures Sound() && Careful(host)
      ensures host.refused.Some? ==> Reject in old(host.faults)
      ensures abandon ==> host.refused in {None, Some(Discard)}
      ensures r == OperatorReport ==> Stopped(host.disk.journal, host.lost)
      ensures r in {CancelDone, CancelReported} ==>
                CancelLeaves(host.disk.journal, host.lost) && (r == CancelDone ==> !host.lost)
      ensures r == StaysOpen ==> LeftOpen() && host.disk.journal.phase != Cancelled
      ensures r == Finished ==> host.disk.journal.phase == if abandon then Abandoned else Completed
      ensures r == CancelDone ==> Cleaned(host.disk, host.disturbed)
      ensures !abandon && old(host.tampering) == [] && r == Finished ==>
                Recoverable(plan, old(journal.effects), old(host.disk))
      ensures Calm(old(host.faults)) && !abandon && host.disk.journal.phase == Completed ==> r == Finished
      ensures Calm(old(host.faults)) && old(host.tampering) == []
              && (if abandon then possible else Recoverable(plan, old(journal.effects), old(host.disk))) ==>
                host.disk.journal.phase == QuietEnd(abandon, host.refused) && (r == Finished <==> host.refused.None?)
    {
      hide Consistent, Mine, TargetsKept;
      var s;
      if !abandon {
        s := Forwards();
      } else if !possible && journal.phase != Abandoning {
        s := Raised(Interrupted);
        CareOf(host, plan);
      } else {
        s := Abandon();
      }
      if s.Done? {
        r := Finished;
      } else if s.Halted? {
        r := Died;
      } else {
        r := Fail(s.exn);
      }
    }

    /** Out of `needs_operator`, forward again. */
    method Reopen(possible: bool) returns (r: Report)
      requires Sound() && GoingForward() && host.disk.journal == journal
      requires host.refused.None?
      modifies this`journal, host
      ensures Sound() && Careful(host)
      ensures host.refused.Some? ==> Reject in old(host.faults)
      ensures r == OperatorReport ==> Stopped(host.disk.journal, host.lost)
      ensures r in {CancelDone, CancelReported} ==> CancelLeaves(host.disk.journal, host.lost)
      ensures r == CancelDone ==> Cleaned(host.disk, host.disturbed)
      ensures r == StaysOpen ==> host.disk.journal.phase != Cancelled
      ensures Calm(old(host.faults)) && old(host.tampering) == [] && host.disk.journal.phase == Completed ==>
                Recoverable(plan, old(journal.effects), old(host.disk))
      ensures Calm(old(host.faults)) && old(host.tampering) == []
              && Recoverable(plan, old(journal.effects), old(host.disk)) ==>
                host.disk.journal.phase == QuietEnd(false, host.refused)
    {
      hide Consistent, Mine, TargetsKept;
      CareOf(host, plan);
      EnterKeeps(plan, host.disk, Going);
      journal := journal.(phase := Going);
      var s := Save();
      SamePlace(plan, old(journal.effects), old(host.disk), host.disk);
      if s.IsFailure() {
        return if s.Halted? then Died else StaysOpen;
      }
      r := Drive(false, possible);
    }

    method Fail(exn: Exn) returns (r: Report)
      requires Sound() && (exn != Interrupted ==> !Terminal(journal.phase))
      requires exn == Interrupted && Forward(journal) && !GoingForward() ==> Register in journal.effects
      requires journal.phase != Cancelled
      modifies this`journal, host`disk, host`faults, host`lost, host`tampering, host`disturbed, host`own, host`removed
      ensures Sound() && Careful(host) && r != Finished
      ensures r == OperatorReport ==> exn in {NeedsOperator, VerifyFailed} && Stopped(host.disk.journal, host.lost)
      ensures r in {CancelDone, CancelReported} ==>
                && exn !in {NeedsOperator, VerifyFailed} && {Register, AbandonMark} !! old(journal.effects).Keys
                && CancelLeaves(host.disk.journal, host.lost) && (r == CancelDone ==> !host.lost)
      ensures r == StaysOpen ==> exn !in {NeedsOperator, VerifyFailed} && LeftOpen()
      ensures r == CancelDone ==> Cleaned(host.disk, host.disturbed)
      ensures Calm(old(host.faults)) && old(GoingForward()) ==> host.disk.journal.phase != Completed
      ensures Calm(old(host.faults)) && exn in {NeedsOperator, VerifyFailed} ==>
                host.disk.journal.phase == OperatorNeeded
      ensures Calm(old(host.faults)) && exn == SmokeFailed && old(GoingForward())
              && Register !in old(journal.effects) ==>
                host.disk.journal.phase == Cancelled
    {
      hide Consistent, Mine, TargetsKept;
      if exn == NeedsOperator || exn == VerifyFailed {
        r := EnterNeedsOperator();
      } else if Committed() || AbandonMark in journal.effects || !Forward(journal) {
        var s := Save();
        r := if s.Halted? then Died else StaysOpen;
      } else {
        OpenBehind(host.disk.journal, journal);
        var s := Cancel();
        r := if s.Done? then CancelDone else if s.Halted? then Died else CancelReported;
      }
    }

    /** The registration is journaled: from here on the way is forward, or an abandon on request. */
    predicate Committed()
      reads this
    {
      Register in journal.effects
    }

    /** The resume pre-pass: looks at every effect before anything is changed. */
    method FirstUnknown() returns (found: bool)
      requires Sound() && GoingForward() && host.disk.journal == journal
      modifies host`disk, host`tampering, host`disturbed
      ensures Sound() && host.disk.journal == journal && Careful(host)
      ensures found ==> host.disturbed
      ensures host.own == old(host.own) && host.removed == old(host.removed) && host.faults == old(host.faults)
      ensures old(host.tampering) == [] ==>
                host.disk == old(host.disk) && (found <==> ForeignTarget(plan, host.disk))
    {
      hide Consistent, Mine, TargetsKept;
      CareOf(host, plan);
      found := false;
      var k := 0;
      while k < 2 * |plan.copies| + 3
        invariant k <= 2 * |plan.copies| + 3
        invariant Sound() && host.disk.journal == journal && Careful(host)
        invariant old(host.tampering) == [] ==>
                    && host.disk == old(host.disk)
                    && forall e | IsPlanned(plan, e) && Place(plan, e) < k ::
                         Observe(plan, e, journal.effects, host.disk) != Unknown
        decreases 2 * |plan.copies| + 3 - k
      {
        var e := EffectAt(plan, k);
        if !IsCheck(e) && !(e in journal.effects && Consumed(e, journal.effects)) {
          if !host.disturbed && e.Publish? {
            TargetKnown(plan, host.disk, e.role);
          }
          host.OthersWrite(plan);
          ObservationKnown(plan, host.disk, e);
          if Observe(plan, e, journal.effects, host.disk) == Unknown {
            assert Unseen(plan, e, host.disk);
            return true;
          }
        }
        OnlyAt(plan, k);
        k := k + 1;
      }
    }
  }

  /** Some target holds a file that is not this operation's own published copy. */
  ghost predicate ForeignTarget(p: Plan, d: Disk) {
    exists e :: Unseen(p, e, d)
  }

  ghost predicate Unseen(p: Plan, e: EffectId, d: Disk) {
    IsPlanned(p, e) && Observe(p, e, d.journal.effects, d) == Unknown
  }

  lemma OnlyAt(p: Plan, k: nat)
    requires k < 2 * |p.copies| + 3
    ensures forall e | IsPlanned(p, e) && Place(p, e) == k :: e == EffectAt(p, k)
  {
  }

  /** `pf install resume [--abandon]`: a fresh process reads the journal and goes on from there. */
  method Resume(p: Plan, h: Host, abandon: bool, possible: bool) returns (r: Report)
    requires h.Safe(p)
    modifies h
    ensures h.Safe(p) && Careful(h)
    ensures Terminal(old(h.disk.journal.phase)) ==> r == NothingPending && h.disk == old(h.disk)
    ensures h.refused.Some? ==> Reject in old(h.faults)
    ensures Abandons(old(h.disk.journal), abandon) ==> h.refused in {None, Some(Discard)}
    ensures r == OperatorReport ==> Stopped(h.disk.journal, h.lost)
    ensures r in {CancelDone, CancelReported} ==> CancelLeaves(h.disk.journal, h.lost)
    ensures r == CancelDone ==> Cleaned(h.disk, h.disturbed)
    ensures r == StaysOpen ==> h.disk.journal.phase != Cancelled
    ensures Calm(old(h.faults)) && old(h.tampering) == [] && !Terminal(old(h.disk.journal.phase))
            && (if Abandons(old(h.disk.journal), abandon) then possible
                else Recoverable(p, old(h.disk.journal.effects), old(h.disk))) ==>
              h.disk.journal.phase == QuietEnd(Abandons(old(h.disk.journal), abandon), h.refused)
    ensures Calm(old(h.faults)) && old(h.tampering) == [] && !Terminal(old(h.disk.journal.phase))
            && !Abandons(old(h.disk.journal), abandon) && Reject !in old(h.faults) ==>
              (h.disk.journal.phase == Completed <==> Recoverable(p, old(h.disk.journal.effects), old(h.disk)))
    ensures old(h.Quiet()) && !Terminal(old(h.disk.journal.phase))
            && (Abandons(old(h.disk.journal), abandon) ==> possible) ==>
              h.disk.journal.phase == QuietEnd(Abandons(old(h.disk.journal), abandon), h.refused)
    ensures Calm(old(h.faults)) && old(h.tampering) == [] && !Terminal(old(h.disk.journal.phase))
            && !Abandons(old(h.disk.journal), abandon) && ForeignTarget(p, old(h.disk)) ==>
              && r == OperatorReport && h.disk.journal.phase == OperatorNeeded
              && h.disk == old(h.disk).(journal := h.disk.journal)
  {
    hide Consistent, TargetsKept, Mine, Behind, CancelLeaves, Stopped, Cleaned, Recoverable, ForeignTarget;
    h.refused := None;
    ForeignIsInTheWay(p, h.disk);
    if h.Quiet() && !Terminal(h.disk.journal.phase) && AbandonMark !in h.disk.journal.effects {
      OpenIsOrdinary(h.disk.journal);
      KeptIsRecoverable(p, h.disk);
    }
    if Terminal(h.disk.journal.phase) {
      CareOf(h, p);
      return NothingPending;
    }
    var run := new Run.Load(p, h);
    var direction := AbandonMark in run.journal.effects;
    if abandon && !direction && !possible {
      CareOf(h, p);
      return StaysOpen;
    }
    if direction || abandon {
      r := run.Drive(true, possible);
      return;
    }
    OpenIsOrdinary(run.journal);
    var unknown := run.FirstUnknown();
    if unknown {
      r := run.EnterNeedsOperator();
      return;
    }
    if run.journal.phase == OperatorNeeded {
      r := run.Reopen(possible);
      return;
    }
    r := run.Drive(false, possible);
  }

  lemma OpenIsOrdinary(j: Journal)
    requires PhaseFits(j) && !Terminal(j.phase) && AbandonMark !in j.effects
    ensures Forward(j) && Ordinary(j.phase)
  {
    assert j.phase.Going? || j.phase.OperatorNeeded?;
  }

  predicate Abandons(j: Journal, abandon: bool) {
    AbandonMark in j.effects || abandon
  }

  function Marked(j: Journal, mark: EffectId, state: EffectState): Journal {
    j.(effects := j.effects[mark := Entry(state, None)])
  }

  lemma SameCopies(p: Plan, effects: map<EffectId, Entry>, a: Disk, b: Disk)
    requires a.targets == b.targets && a.inodes == b.inodes
    ensures WithoutOwn(p, effects, a, |p.copies|) == WithoutOwn(p, effects, b, |p.copies|)
  {
  }

  lemma SameIdentities(p: Plan, effects: map<EffectId, Entry>, after: map<EffectId, Entry>, d: Disk)
    requires forall i :: IdentityOf(after, Stage(i)) == IdentityOf(effects, Stage(i))
    ensures WithoutOwn(p, effects, d, |p.copies|) == WithoutOwn(p, after, d, |p.copies|)
  {
  }

  /** The target is this operation's own copy, or free with the copy waiting for it. */
  predicate Served(p: Plan, effects: map<EffectId, Entry>, d: Disk, e: EffectId) {
    e.Publish? ==> OwnCopyAt(p, effects, d, e.role) || (e.role !in d.targets && e.role in d.staged)
  }

  /** Nothing foreign is in the way of a role, and once publication has begun its copy is not lost. */
  predicate Publishable(p: Plan, effects: map<EffectId, Entry>, d: Disk, i: nat) {
    && (i in d.targets ==> OwnCopyAt(p, effects, d, i))
    && (PublishBegun(effects) ==> i in d.targets || i in d.staged)
  }

  /** No target is foreign, and once publication has begun no copy is lost. */
  ghost predicate Recoverable(p: Plan, effects: map<EffectId, Entry>, d: Disk) {
    forall i :: 0 <= i < |p.copies| ==> Publishable(p, effects, d, i)
  }

  lemma ForeignIsInTheWay(p: Plan, d: Disk)
    ensures ForeignTarget(p, d) ==> !Recoverable(p, d.journal.effects, d)
  {
    if e :| Unseen(p, e, d) {
      assert !Publishable(p, d.journal.effects, d, e.role);
    }
  }

  /** Undisturbed, nothing is in the way and nothing is lost. */
  lemma KeptIsRecoverable(p: Plan, d: Disk)
    requires Consistent(p, d) && TargetsKept(p, d) && Forward(d.journal)
    ensures Recoverable(p, d.journal.effects, d)
  {
    forall i | 0 <= i < |p.copies| ensures Publishable(p, d.journal.effects, d, i) {
      assert RoleKept(p, d, i) && RoleStaged(p, d, i);
      if PublishBegun(d.journal.effects) {
        var f :| f in d.journal.effects && f.Publish?;
        assert Precedes(p, Stage(i), f);
      }
    }
  }

  lemma SamePlace(p: Plan, effects: map<EffectId, Entry>, d: Disk, now: Disk)
    requires now == d.(journal := now.journal)
    ensures Recoverable(p, effects, d) <==> Recoverable(p, effects, now)
  {
    forall i | 0 <= i < |p.copies| ensures Publishable(p, effects, d, i) <==> Publishable(p, effects, now, i) {
    }
  }

  /** An effect touches the names of its own role and no other. */
  ghost predicate OnlyDisk(e: EffectId, d: Disk, now: Disk) {
    && (forall k: nat :: e != Publish(k) ==>
          && (k in d.targets <==> k in now.targets)
          && (k in d.targets && d.targets[k] in d.inodes ==>
                && now.targets[k] == d.targets[k] && d.targets[k] in now.inodes
                && now.inodes[d.targets[k]] == d.inodes[d.targets[k]]))
    && (forall k: nat :: e !in {Stage(k), Publish(k)} ==> (k in d.staged <==> k in now.staged))
  }

  ghost predicate OnlyRole(e: EffectId, effects: map<EffectId, Entry>, d: Disk, after: map<EffectId, Entry>,
                           now: Disk) {
    && OnlyDisk(e, d, now) && effects.Keys <= after.Keys <= effects.Keys + {e}
    && (forall k: nat :: e != Stage(k) ==> IdentityOf(after, Stage(k)) == IdentityOf(effects, Stage(k)))
  }

  lemma StagedOnly(d: Disk, i: nat, data: string)
    requires forall id | id in d.inodes :: id < d.nextId
    ensures OnlyDisk(Stage(i), d, Filled(Created(d, i), i, data))
  {
  }

  lemma LinkedOnly(d: Disk, i: nat)
    requires i in d.staged && i !in d.targets
    ensures OnlyDisk(Publish(i), d, Linked(d, i).(staged := d.staged - {i}))
  {
  }

  lemma SameOnly(e: EffectId, d: Disk, now: Disk)
    requires now.staged == d.staged && now.targets == d.targets && now.inodes == d.inodes
    ensures OnlyDisk(e, d, now)
  {
  }

  lemma NothingTouched(e: EffectId, effects: map<EffectId, Entry>, d: Disk)
    ensures OnlyRole(e, effects, d, effects, d)
  {
  }

  /** The journal is not looked at. */
  lemma OnlyAgain(e: EffectId, was: Disk, made: Disk, d: Disk, now: Disk)
    requires OnlyDisk(e, was, made) && d == was.(journal := d.journal) && now == made.(journal := now.journal)
    ensures OnlyDisk(e, d, now)
  {
  }

  lemma AdoptedOnly(e: EffectId, effects: map<EffectId, Entry>, d: Disk, now: Disk)
    requires now == WithoutLeftover(effects, d.(journal := now.journal), e)
    ensures OnlyDisk(e, d, now) && (e.Stage? || CreatedIdentity(now, e).None?)
  {
  }

  lemma RedoneOnly(i: nat, effects: map<EffectId, Entry>, d: Disk, was: Disk, after: map<EffectId, Entry>, now: Disk)
    requires was == d.(staged := d.staged - {i}) && OnlyRole(Stage(i), effects, was, after, now)
    ensures OnlyRole(Stage(i), effects, d, after, now)
  {
  }

  /** The intent and the completion touch one entry. */
  lemma ExecutedOnly(e: EffectId, effects: map<EffectId, Entry>, d: Disk, identity: Option<nat>, now: Disk)
    requires OnlyDisk(e, d, now) && (e.Stage? || identity.None?)
    ensures OnlyRole(e, effects, d, Completing(Intending(effects, e), e, identity), now)
  {
  }

  /** Before the first publication no target is an own copy. */
  lemma NothingPublished(p: Plan, d: Disk, own: set<nat>, removed: seq<Removal>, i: nat)
    requires Mine(p, d, own, removed) && !PublishBegun(d.journal.effects)
    ensures Publishable(p, d.journal.effects, d, i) <==> i !in d.targets
  {
  }

  lemma ServedExactly(p: Plan, d: Disk, own: set<nat>, removed: seq<Removal>, i: nat)
    requires Mine(p, d, own, removed) && Consistent(p, d) && Forward(d.journal) && i < |p.copies|
    requires IsDone(d.journal.effects, Stage(i))
    ensures Served(p, d.journal.effects, d, Publish(i)) <==> Publishable(p, d.journal.effects, d, i)
  {
    assert RoleStaged(p, d, i);
    if !PublishBegun(d.journal.effects) {
      NothingPublished(p, d, own, removed, i);
    }
  }

  lemma BegunBy(e: EffectId, effects: map<EffectId, Entry>, after: map<EffectId, Entry>)
    requires effects.Keys <= after.Keys <= effects.Keys + {e}
    ensures PublishBegun(after) ==> PublishBegun(effects) || e.Publish?
  {
    if PublishBegun(after) {
      var f :| f in after && f.Publish?;
      assert f in effects.Keys || f == e;
    }
  }

  lemma OwnAside(p: Plan, e: EffectId, d: Disk, now: Disk, k: nat)
    requires OnlyRole(e, d.journal.effects, d, now.journal.effects, now) && e !in {Stage(k), Publish(k)}
    requires k in d.targets ==> d.targets[k] in d.inodes
    ensures k in d.targets <==> k in now.targets
    ensures k in d.staged <==> k in now.staged
    ensures OwnCopyAt(p, d.journal.effects, d, k) <==> OwnCopyAt(p, now.journal.effects, now, k)
  {
  }

  /** The first publication finds every copy staged. */
  lemma FirstPublication(p: Plan, d: Disk, own: set<nat>, removed: seq<Removal>, k: nat)
    requires Mine(p, d, own, removed) && Consistent(p, d) && Forward(d.journal) && k < |p.copies|
    requires !PublishBegun(d.journal.effects) && IsDone(d.journal.effects, Stage(k))
    ensures k in d.staged && (k in d.targets ==> !OwnCopyAt(p, d.journal.effects, d, k))
  {
    assert RoleStaged(p, d, k);
  }

  lemma RoleAside(p: Plan, e: EffectId, d: Disk, own: set<nat>, removed: seq<Removal>, now: Disk, more: set<nat>,
                  removed2: seq<Removal>, k: nat)
    requires Mine(p, d, own, removed) && Consistent(p, d) && Forward(d.journal)
    requires Mine(p, now, more, removed2)
    requires e.Publish? ==> IsDone(d.journal.effects, Stage(k))
    requires OnlyRole(e, d.journal.effects, d, now.journal.effects, now) && k < |p.copies| && e != Publish(k)
    requires PublishBegun(d.journal.effects) ==> !e.Stage?
    ensures Publishable(p, d.journal.effects, d, k) <==> Publishable(p, now.journal.effects, now, k)
  {
    hide Consistent, OwnCopyAt, PublishBegun, OwnIdentities;
    var effects, after := d.journal.effects, now.journal.effects;
    BegunIsKept(effects, after);
    BegunBy(e, effects, after);
    if e != Stage(k) {
      OwnAside(p, e, d, now, k);
    }
    if !PublishBegun(effects) {
      NothingPublished(p, d, own, removed, k);
      if PublishBegun(after) {
        FirstPublication(p, d, own, removed, k);
      } else {
        NothingPublished(p, now, more, removed2, k);
        assert k in d.targets <==> k in now.targets;
      }
    }
  }

  /** The other roles stay publishable, or not. */
  lemma RolesAside(p: Plan, e: EffectId, d: Disk, own: set<nat>, removed: seq<Removal>, now: Disk, more: set<nat>,
                   removed2: seq<Removal>)
    requires Mine(p, d, own, removed) && Consistent(p, d) && Forward(d.journal)
    requires Mine(p, now, more, removed2)
    requires e.Publish? ==> forall k | 0 <= k < |p.copies| :: IsDone(d.journal.effects, Stage(k))
    requires OnlyRole(e, d.journal.effects, d, now.journal.effects, now)
    requires PublishBegun(d.journal.effects) ==> !e.Stage?
    ensures forall k :: 0 <= k < |p.copies| && e != Publish(k) ==>
              (Publishable(p, d.journal.effects, d, k) <==> Publishable(p, now.journal.effects, now, k))
  {
    hide Mine, Consistent, OnlyRole, Publishable, PublishBegun, Forward;
    forall k | 0 <= k < |p.copies| && e != Publish(k)
      ensures Publishable(p, d.journal.effects, d, k) <==> Publishable(p, now.journal.effects, now, k)
    {
      RoleAside(p, e, d, own, removed, now, more, removed2, k);
    }
  }

  /** From place `k` on the roles are as publishable as they were at first; the roles before were. */
  ghost predicate SameFrom(p: Plan, effects: map<EffectId, Entry>, d: Disk, after: map<EffectId, Entry>, now: Disk,
                           k: nat) {
    forall i :: 0 <= i < |p.copies| ==>
      if Place(p, Publish(i)) < k then Publishable(p, effects, d, i)
      else (Publishable(p, effects, d, i) <==> Publishable(p, after, now, i))
  }

  lemma NothingBelow(p: Plan, effects: map<EffectId, Entry>, d: Disk)
    ensures DoneBelow(p, effects, 0) && SameFrom(p, effects, d, effects, d, 0)
  {
  }

  lemma SameHere(p: Plan, effects: map<EffectId, Entry>, d: Disk, was: Disk, k: nat)
    requires k < 2 * |p.copies| + 3 && SameFrom(p, effects, d, was.journal.effects, was, k)
    ensures var e := EffectAt(p, k);
            e.Publish? ==>
              && (Publishable(p, was.journal.effects, was, e.role) <==> Publishable(p, effects, d, e.role))
              && (Recoverable(p, effects, d) ==> Publishable(p, effects, d, e.role))
  {
  }

  lemma AllBelow(p: Plan, effects: map<EffectId, Entry>, d: Disk, after: map<EffectId, Entry>, now: Disk)
    ensures SameFrom(p, effects, d, after, now, 2 * |p.copies| + 3) ==> Recoverable(p, effects, d)
    ensures DoneBelow(p, after, 2 * |p.copies| + 3) ==> Register in after
  {
    assert IsPlanned(p, Register);
  }

  lemma OneMoreSame(p: Plan, effects: map<EffectId, Entry>, d: Disk, was: Disk, now: Disk, k: nat)
    requires k < 2 * |p.copies| + 3 && SameFrom(p, effects, d, was.journal.effects, was, k)
    requires var e := EffectAt(p, k);
             && (e.Publish? ==> Publishable(p, was.journal.effects, was, e.role))
             && forall i :: 0 <= i < |p.copies| && e != Publish(i) ==>
                  (Publishable(p, was.journal.effects, was, i) <==> Publishable(p, now.journal.effects, now, i))
    ensures SameFrom(p, effects, d, now.journal.effects, now, k + 1)
  {
    hide Publishable;
    forall i | 0 <= i < |p.copies|
      ensures if Place(p, Publish(i)) < k + 1 then Publishable(p, effects, d, i)
              else (Publishable(p, effects, d, i) <==> Publishable(p, now.journal.effects, now, i))
    {
      assert Place(p, Publish(i)) == k <==> EffectAt(p, k) == Publish(i);
    }
  }

  ghost predicate DoneBelow(p: Plan, effects: map<EffectId, Entry>, k: nat) {
    forall e | IsPlanned(p, e) && Place(p, e) < k :: IsDone(effects, e)
  }

  lemma BelowPrecedes(p: Plan, effects: map<EffectId, Entry>, k: nat)
    requires k < 2 * |p.copies| + 3
    ensures DoneBelow(p, effects, k) ==> forall f | Precedes(p, f, EffectAt(p, k)) :: IsDone(effects, f)
    ensures DoneBelow(p, effects, k) && EffectAt(p, k).Publish? ==>
              forall i | 0 <= i < |p.copies| :: IsDone(effects, Stage(i))
  {
  }

  lemma OneMoreDone(p: Plan, before: map<EffectId, Entry>, now: map<EffectId, Entry>, k: nat)
    requires k < 2 * |p.copies| + 3 && DoneBelow(p, before, k) && Extended(before, now, EffectAt(p, k))
    ensures DoneBelow(p, now, k + 1)
  {
    forall e | IsPlanned(p, e) && Place(p, e) < k + 1 ensures IsDone(now, e) {
      assert e == EffectAt(p, k) || IsDone(before, e);
    }
  }

  /** The targets when the own copies of the first `n` roles are gone. */
  function WithoutOwn(p: Plan, effects: map<EffectId, Entry>, d: Disk, n: nat): map<nat, nat> {
    map i | i in d.targets && !(i < n && OwnCopyAt(p, effects, d, i)) :: d.targets[i]
  }

  lemma NoneRemoved(p: Plan, effects: map<EffectId, Entry>, d: Disk)
    ensures WithoutOwn(p, effects, d, 0) == d.targets
  {
  }

  lemma OneMoreRemoved(p: Plan, effects: map<EffectId, Entry>, start: Disk, d: Disk, i: nat)
    requires d.targets == WithoutOwn(p, effects, start, i) && d.inodes == start.inodes
    ensures WithoutOwn(p, effects, start, i + 1)
         == if OwnCopyAt(p, effects, d, i) then d.targets - {i} else d.targets
  {
  }

  lemma OnlyPlannedRoles(p: Plan, d: Disk)
    requires Consistent(p, d)
    ensures forall i | i in d.staged :: i < |p.copies|
    ensures TargetsKept(p, d) ==> forall i | i in d.targets :: i < |p.copies|
  {
  }

  /** Undisturbed, whatever is at a target is the recorded copy. */
  lemma OwnOrNothing(p: Plan, d: Disk, i: nat)
    requires TargetsKept(p, d) && i < |p.copies|
    ensures i in d.targets ==> OwnCopyAt(p, d.journal.effects, d, i)
  {
    assert RoleKept(p, d, i);
  }

  lemma NotRecorded(p: Plan, d: Disk, i: nat)
    requires Consistent(p, d) && i < |p.copies| && !IsDone(d.journal.effects, Stage(i))
    ensures IdentityOf(d.journal.effects, Stage(i)).None?
  {
    assert RoleStaged(p, d, i);
  }

  /** The staged name of a published copy, left by a stop between link and unlink. */
  predicate Leftover(effects: map<EffectId, Entry>, d: Disk, e: EffectId) {
    e.Publish? && e.role in d.staged && IdentityOf(effects, Stage(e.role)) == Some(d.staged[e.role])
  }

  function WithoutLeftover(effects: map<EffectId, Entry>, d: Disk, e: EffectId): Disk {
    if Leftover(effects, d, e) then d.(staged := d.staged - {e.role}) else d
  }

  /** The identity journaled for what is adopted: the staged copy's, or the published one's. */
  function CreatedIdentity(d: Disk, e: EffectId): Option<nat> {
    if !e.Stage? then None
    else if e.role in d.staged then Some(d.staged[e.role])
    else if e.role in d.targets then Some(d.targets[e.role])
    else None
  }

  /** The disk when the intent is journaled and a leftover staged name is gone. */
  function Adopting(d: Disk, j: Journal, e: EffectId): Disk {
    var after := j.(effects := Intending(j.effects, e));
    WithoutLeftover(after.effects, d.(journal := after), e)
  }

  /** What is observed complete is what the journal may call complete. */
  lemma AdoptionFits(p: Plan, d: Disk, j: Journal, e: EffectId)
    requires Consistent(p, d.(journal := j)) && Forward(j) && Ordinary(j.phase) && IsPlanned(p, e) && !IsCheck(e)
    requires (e.Publish? || !IsDone(j.effects, e)) && Observe(p, e, j.effects, d) == IsComplete
    ensures e.Publish? ==> e.role in d.targets
    ensures Accomplished(p, Adopting(d, j, e), Intending(j.effects, e), e, CreatedIdentity(Adopting(d, j, e), e))
  {
    ObservationKnown(p, d.(journal := j), e);
    if e.Stage? || e.Publish? {
      assert RoleStaged(p, d.(journal := j), e.role);
    }
  }

  /** `e` is done now and everything done before still is. */
  ghost predicate Extended(before: map<EffectId, Entry>, now: map<EffectId, Entry>, e: EffectId) {
    IsDone(now, e) && before.Keys <= now.Keys && forall f | IsDone(before, f) :: IsDone(now, f)
  }

  /** What is observed complete for a stage is an inode of this operation. */
  lemma AdoptedIsOwn(h: Host, p: Plan, j: Journal, e: EffectId)
    requires h.Safe(p) && OwnIdentities(j.effects, h.own) && Observe(p, e, j.effects, h.disk) == IsComplete
    ensures var id := CreatedIdentity(Adopting(h.disk, j, e), e); id.Some? ==> id.value in h.own
  {
  }

  lemma SameTargets(a: Disk, b: Disk, own: set<nat>)
    requires a.targets == b.targets && a.inodes == b.inodes && KeepsForeign(a, a, own)
    ensures KeepsForeign(a, b, own)
  {
  }

  /** Foreign targets keep their inode and their bytes. */
  ghost predicate KeepsForeign(before: Disk, after: Disk, own: set<nat>) {
    forall i | i in before.targets && before.targets[i] !in own ::
      && i in after.targets && after.targets[i] == before.targets[i]
      && before.targets[i] in before.inodes && before.targets[i] in after.inodes
      && after.inodes[before.targets[i]] == before.inodes[before.targets[i]]
  }

  /** What every action of the operation keeps, whatever the state it finds. */
  twostate predicate Careful(h: Host)
    reads h
  {
    && old(h.own) <= h.own && (old(h.disturbed) ==> h.disturbed)
    && (Calm(old(h.faults)) ==> Calm(h.faults)) && (Reject in h.faults ==> Reject in old(h.faults))
    && (h.refused.Some? ==> old(h.refused).Some? || Reject in old(h.faults))
    && (old(h.tampering) == [] ==>
          h.tampering == [] && h.disturbed == old(h.disturbed) && KeepsForeign(old(h.disk), h.disk, h.own))
  }

  lemma CareOf(h: Host, p: Plan)
    requires h.Safe(p)
    ensures KeepsForeign(h.disk, h.disk, h.own) && forall id | id in h.disk.inodes :: id < h.disk.nextId
  {
    KeptAsIs(h.disk, h.own);
  }

  /** A copy that is journaled for publication and not yet there waits under its staged name. */
  lemma StagedBefore(p: Plan, d: Disk, i: nat)
    requires Consistent(p, d) && TargetsKept(p, d) && Forward(d.journal) && i < |p.copies|
    requires Publish(i) in d.journal.effects && i !in d.targets
    ensures i in d.staged && IsDone(d.journal.effects, Stage(i))
  {
    assert RoleKept(p, d, i) && RoleStaged(p, d, i);
    assert Precedes(p, Stage(i), Publish(i));
  }

  // ---------------------------------------------------------------- whole lives

  /** Every target is the staged inode with the planned bytes, and no private name is left. */
  ghost predicate Published(p: Plan, d: Disk) {
    && d.staged == map[] && d.registration == Registered
    && forall i | 0 <= i < |p.copies| ::
         && i in d.targets && d.targets[i] in d.inodes
         && IdentityOf(d.journal.effects, Stage(i)) == Some(d.targets[i])
         && d.inodes[d.targets[i]] == Inode(p.copies[i], true)
  }

  lemma CompletedIsPublished(p: Plan, d: Disk)
    requires Consistent(p, d) && TargetsKept(p, d) && d.journal.phase == Completed
    ensures Published(p, d)
  {
    forall i | 0 <= i < |p.copies|
      ensures i !in d.staged && i in d.targets && d.targets[i] in d.inodes
      ensures IdentityOf(d.journal.effects, Stage(i)) == Some(d.targets[i])
      ensures d.inodes[d.targets[i]] == Inode(p.copies[i], true)
    {
      assert RoleKept(p, d, i) && RoleStaged(p, d, i) && IsPlanned(p, Publish(i)) && IsPlanned(p, Stage(i));
    }
    assert IsPlanned(p, Register);
    assert forall i | i in d.staged :: i < |p.copies|;
    assert d.staged == map[];
  }

  /** `pf install migrate-legacy`, then any number of resumes, with a crash, an interrupt or another writer
      between any two disk actions of any of them. */
  method Lifetime(p: Plan, faults: seq<Fault>, tampering: seq<Option<Change>>, resumes: seq<(bool, bool)>)
    returns (h: Host, reports: seq<Report>)
    ensures fresh(h) && h.Safe(p) && |reports| == |resumes| + 1
    ensures tampering == [] ==> !h.disturbed
    ensures Calm(faults) && Reject !in faults && tampering == [] ==> h.disk.journal.phase == Completed
    ensures !h.disturbed && h.disk.journal.phase == Completed ==> Published(p, h.disk)
    ensures h.disk.journal.phase == Abandoned ==>
              h.disk.staged == map[] && h.disk.registration == Absent && (!h.disturbed ==> h.disk.targets == map[])
    ensures h.disk.journal.phase == Cancelled ==> h.disk.registration == Absent
    ensures CancelDone in reports ==> Cleaned(h.disk, h.disturbed)
    ensures forall w <- h.removed :: w.role < |p.copies| && w.id in h.own && w.data == p.copies[w.role]
  {
    hide Mine, RoleKept, InOrder, AllDone;
    h := new Host(p, faults, tampering);
    var run := new Run.Load(p, h);
    var report := run.Drive(false, true);
    reports := [report];
    for k := 0 to |resumes|
      invariant fresh(h) && h.Safe(p)
      invariant tampering == [] ==> h.tampering == [] && !h.disturbed
      invariant Calm(faults) && Reject !in faults && tampering == [] ==> h.disk.journal.phase == Completed
      invariant |reports| == k + 1 && (CancelDone in reports ==> Cleaned(h.disk, h.disturbed))
    {
      report := Resume(p, h, resumes[k].0, resumes[k].1);
      reports := reports + [report];
    }
    if !h.disturbed && h.disk.journal.phase == Completed {
      CompletedIsPublished(p, h.disk);
    }
    RemovalsAreOwn(p, h);
  }

  /** Whatever a whole life with crashes and other writers has left: another process puts one target in order (or
      out of it), and one resume runs that nothing interrupts, nobody disturbs and no check stops. It completes
      exactly when no target is foreign and no copy is lost. */
  method Repaired(p: Plan, faults: seq<Fault>, tampering: seq<Option<Change>>, resumes: seq<(bool, bool)>,
                  repair: Change) returns (h: Host, stopped: Disk, repaired: Disk)
    ensures repaired == Changed(stopped, repair)
    ensures !Terminal(stopped.journal.phase) && AbandonMark !in stopped.journal.effects ==>
              (h.disk.journal.phase == Completed <==> Recoverable(p, stopped.journal.effects, repaired))
    ensures !Terminal(stopped.journal.phase) && AbandonMark in stopped.journal.effects ==>
              h.disk.journal.phase == Abandoned
  {
    hide Consistent, TargetsKept, Mine, Recoverable, ForeignTarget, Changed;
    var reports;
    h, reports := Lifetime(p, faults, tampering, resumes);
    stopped := h.disk;
    h.faults, h.tampering := [], [Some(repair)];
    h.OthersWrite(p);
    repaired := h.disk;
    var _ := Resume(p, h, false, true);
  }

  lemma RemovalsAreOwn(p: Plan, h: Host)
    requires h.Safe(p)
    ensures forall w <- h.removed :: w.role < |p.copies| && w.id in h.own && w.data == p.copies[w.role]
  {
  }
}
