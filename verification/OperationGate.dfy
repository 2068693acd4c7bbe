/** The index of the operations of one instance and the gate that every mutating route passes: how the files
    are classified, what the gate answers, and what stays true over every run that obeys it. */
module OperationGate {

  import opened Wrappers
  import opened Operations

  // ---------------------------------------------------------------- files and classes

  /** One operation directory: unreadable records, a plan without a journal, or a plan and its journal. */
  datatype File =
    | Broken(id: Id)
    | PlanOnly(id: Id)
    | Recorded(id: Id, createdAt: nat, plan: Plan, journal: Journal)

  datatype Class = NoJournal | Invalid | Blocking | Superseded(taker: Id) | Closed

  predicate DistinctIds(files: seq<File>) {
    forall i, j :: 0 <= i < j < |files| ==> files[i].id != files[j].id
  }

  predicate IsValid(f: File) {
    f.Recorded? && ValidPair(f.plan, f.journal)
  }

  /** Not closed: the operation needs a resume, a recovery or an operator. */
  predicate IsOpen(f: File) {
    IsValid(f) && f.journal.phase !in CLOSED
  }

  /** `f` took over from operation `id` and was not cancelled. */
  predicate TakesOver(f: File, id: Id) {
    IsValid(f) && f.plan.supersedes == Some(id) && f.journal.phase != Cancelled
  }

  predicate IsSuperseded(files: seq<File>, id: Id) {
    exists j :: 0 <= j < |files| && TakesOver(files[j], id)
  }

  /** What keeps the gate closed: an operation that cannot be proven, or an open one nobody took over. */
  predicate IsBlocking(files: seq<File>, i: nat)
    requires i < |files|
  {
    || files[i].Broken?
    || (files[i].Recorded? && !IsValid(files[i]))
    || (IsOpen(files[i]) && !IsSuperseded(files, files[i].id))
  }

  /** The order of the takers-over: by creation stamp, then by identifier. */
  predicate After(a: File, b: File)
    requires a.Recorded? && b.Recorded?
  {
    a.createdAt > b.createdAt || (a.createdAt == b.createdAt && a.id > b.id)
  }

  ghost predicate IsLatest(files: seq<File>, id: Id, taker: Id) {
    exists j :: 0 <= j < |files| && TakesOver(files[j], id) && files[j].id == taker
                && forall k :: 0 <= k < |files| && TakesOver(files[k], id) ==> k == j || After(files[j], files[k])
  }

  ghost predicate IsClass(files: seq<File>, i: nat, class_: Class)
    requires i < |files|
  {
    match class_
    case NoJournal => files[i].PlanOnly?
    case Invalid => files[i].Broken? || (files[i].Recorded? && !IsValid(files[i]))
    case Closed => IsValid(files[i]) && !IsOpen(files[i])
    case Blocking => IsOpen(files[i]) && !IsSuperseded(files, files[i].id)
    case Superseded(taker) => IsOpen(files[i]) && IsLatest(files, files[i].id, taker)
  }

  ghost predicate AreClasses(files: seq<File>, classes: seq<Class>) {
    |classes| == |files| && forall i :: 0 <= i < |files| ==> IsClass(files, i, classes[i])
  }

  function ClassAlone(f: File): Class {
    if f.PlanOnly? then NoJournal
    else if !IsValid(f) then Invalid
    else if f.journal.phase in CLOSED then Closed
    else Blocking
  }

  /** The takers-over of every operation, as the first pass collects them. */
  ghost predicate AreTakers(files: seq<File>, takers: map<Id, seq<nat>>, n: nat)
    requires n <= |files|
  {
    && (forall id <- takers :: takers[id] != [] && forall k :: 0 <= k < |takers[id]| ==>
          takers[id][k] < n && TakesOver(files[takers[id][k]], id))
    && (forall j, id :: 0 <= j < n && TakesOver(files[j], id) ==> id in takers && j in takers[id])
  }

  lemma OneMoreTaker(files: seq<File>, takers: map<Id, seq<nat>>, n: nat, id: Id)
    requires n < |files| && AreTakers(files, takers, n) && TakesOver(files[n], id)
    ensures AreTakers(files, takers[id := (if id in takers then takers[id] else []) + [n]], n + 1)
  {
    hide IsValid;
  }

  method CollectTakers(files: seq<File>, classes: seq<Class>) returns (takers: map<Id, seq<nat>>)
    requires |classes| == |files| && forall i :: 0 <= i < |files| ==> classes[i] == ClassAlone(files[i])
    ensures AreTakers(files, takers, |files|)
  {
    hide ValidPair;
    takers := map[];
    for k := 0 to |files|
      invariant AreTakers(files, takers, k)
    {
      if classes[k] in {Blocking, Closed} && files[k].plan.supersedes.Some? && files[k].journal.phase != Cancelled {
        var id := files[k].plan.supersedes.value;
        OneMoreTaker(files, takers, k, id);
        takers := takers[id := (if id in takers then takers[id] else []) + [k]];
      }
    }
  }

  method Last(files: seq<File>, later: seq<nat>) returns (last: nat)
    requires later != [] && forall k :: 0 <= k < |later| ==> later[k] < |files| && files[later[k]].Recorded?
    requires DistinctIds(files)
    ensures last in later && last < |files|
    ensures forall k :: 0 <= k < |later| ==> later[k] == last || After(files[last], files[later[k]])
  {
    last := later[0];
    for j := 1 to |later|
      invariant last in later && last < |files| && files[last].Recorded?
      invariant forall k :: 0 <= k < j ==> later[k] == last || After(files[last], files[later[k]])
    {
      if After(files[later[j]], files[last]) {
        last := later[j];
      }
    }
  }

  /** Classification: each file alone, then the takers-over per operation, then the superseded ones. */
  method ClassifyOperations(files: seq<File>) returns (classes: seq<Class>)
    requires DistinctIds(files)
    ensures AreClasses(files, classes)
  {
    hide ValidPair, After;
    classes := seq(|files|, i requires 0 <= i < |files| => ClassAlone(files[i]));
    var takers := CollectTakers(files, classes);
    for k := 0 to |files|
      invariant |classes| == |files|
      invariant forall i :: 0 <= i < k ==> IsClass(files, i, classes[i])
      invariant forall i :: k <= i < |files| ==> classes[i] == ClassAlone(files[i])
    {
      var id := files[k].id;
      if id in takers && classes[k] == Blocking {
        var last := Last(files, takers[id]);
        LatestTaker(files, takers, id, last);
        classes := classes[k := Superseded(files[last].id)];
      } else {
        assert id !in takers ==> !IsSuperseded(files, id);
      }
    }
  }

  lemma LatestTaker(files: seq<File>, takers: map<Id, seq<nat>>, id: Id, last: nat)
    requires AreTakers(files, takers, |files|) && id in takers && last in takers[id] && last < |files|
    requires forall k :: 0 <= k < |takers[id]| && takers[id][k] != last ==> After(files[last], files[takers[id][k]])
    ensures IsLatest(files, id, files[last].id)
  {
    hide ValidPair, After;
    assert TakesOver(files[last], id);
  }

  function Record(f: File): File {
    if f.Recorded? then f.(createdAt := 0) else f
  }

  /** The records of all directories, without their creation stamps. */
  function Records(files: seq<File>): set<File> {
    set f <- files :: Record(f)
  }

  ghost predicate BlocksAs(files: seq<File>, id: Id) {
    exists i :: 0 <= i < |files| && files[i].id == id && IsBlocking(files, i)
  }

  lemma Counterpart(a: seq<File>, b: seq<File>, i: nat) returns (j: nat)
    requires Records(a) == Records(b) && i < |a|
    ensures j < |b| && Record(a[i]) == Record(b[j])
  {
    assert Record(a[i]) in Records(b);
    j :| 0 <= j < |b| && Record(a[i]) == Record(b[j]);
  }

  lemma BlocksInBoth(a: seq<File>, b: seq<File>, id: Id)
    requires Records(a) == Records(b) && BlocksAs(a, id)
    ensures BlocksAs(b, id)
  {
    hide ValidPair, Records;
    var i :| 0 <= i < |a| && a[i].id == id && IsBlocking(a, i);
    var j := Counterpart(a, b, i);
    if IsSuperseded(b, id) {
      var taker :| 0 <= taker < |b| && TakesOver(b[taker], id);
      var same := Counterpart(b, a, taker);
      assert TakesOver(a[same], id);
    }
    assert IsBlocking(b, j);
  }

  /** Which operations block depends only on which records there are: not on the clock and not on the order
      in which the directories are read. */
  lemma ClockAndOrderDoNotMatter(a: seq<File>, b: seq<File>, id: Id)
    requires Records(a) == Records(b)
    ensures BlocksAs(a, id) <==> BlocksAs(b, id)
  {
    if BlocksAs(a, id) {
      BlocksInBoth(a, b, id);
    }
    if BlocksAs(b, id) {
      BlocksInBoth(b, a, id);
    }
  }

  // ---------------------------------------------------------------- supersession chains

  /** The operation with this identifier. */
  function EntryOf(files: seq<File>, id: Id, from: nat): (r: Option<nat>)
    requires from <= |files|
    ensures r.Some? ==> from <= r.value < |files| && files[r.value].id == id
    ensures r.None? ==> forall i :: from <= i < |files| ==> files[i].id != id
    decreases |files| - from
  {
    if from == |files| then None
    else if files[from].id == id then Some(from)
    else EntryOf(files, id, from + 1)
  }

  function NextLink(files: seq<File>, classes: seq<Class>, i: nat): (r: Option<nat>)
    requires |classes| == |files| && i < |files| && classes[i].Superseded?
    ensures r.Some? ==> r.value < |files|
  {
    EntryOf(files, classes[i].taker, 0)
  }

  /** The entry after `n` links of the supersession chain that starts at `i`. */
  function Link(files: seq<File>, classes: seq<Class>, i: nat, n: nat): (r: Option<nat>)
    requires |classes| == |files| && i < |files|
    ensures r.Some? ==> r.value < |files|
  {
    if n == 0 then Some(i)
    else match Link(files, classes, i, n - 1)
      case None => None
      case Some(k) => if classes[k].Superseded? then NextLink(files, classes, k) else None
  }

  /** The chain from `i` ends in `end` after `n` links. */
  predicate EndsIn(files: seq<File>, classes: seq<Class>, i: nat, n: nat, end: nat)
    requires |classes| == |files| && i < |files|
  {
    Link(files, classes, i, n) == Some(end) && !classes[end].Superseded?
  }

  lemma {:induction false} ClosedChain(files: seq<File>, classes: seq<Class>, i: nat, n: nat, seen: set<nat>)
    requires |classes| == |files| && i < |files| && i in seen
    requires forall k <- seen :: k < |files| && classes[k].Superseded?
    requires forall k <- seen :: NextLink(files, classes, k).None? || NextLink(files, classes, k).value in seen
    ensures Link(files, classes, i, n).None? || Link(files, classes, i, n).value in seen
  {
    if n > 0 {
      ClosedChain(files, classes, i, n - 1, seen);
    }
  }

  function Below(n: nat): (r: set<nat>)
    ensures forall k: nat :: k in r <==> k < n
  {
    if n == 0 then {} else Below(n - 1) + {n - 1}
  }

  /** Follows the chain: ends on every index, cycles included, and finds the end exactly when there is one. */
  method FinalSuperseder(files: seq<File>, classes: seq<Class>, i: nat) returns (r: Option<nat>)
    requires |classes| == |files| && i < |files|
    ensures r.Some? ==> exists n :: EndsIn(files, classes, i, n, r.value)
    ensures r.None? ==> forall n, end :: !EndsIn(files, classes, i, n, end)
  {
    var seen: set<nat> := {};
    var entry := Some(i);
    ghost var n := 0;
    while entry.Some? && classes[entry.value].Superseded?
      invariant entry.Some? ==> entry.value < |files|
      invariant Link(files, classes, i, n) == entry
      invariant forall k <- seen :: k < |files| && classes[k].Superseded?
      invariant forall k <- seen :: NextLink(files, classes, k) == entry || NextLink(files, classes, k).None?
                                    || NextLink(files, classes, k).value in seen
      invariant i in seen || entry == Some(i)
      decreases Below(|files|) - seen
    {
      if entry.value in seen {
        forall m, end ensures !EndsIn(files, classes, i, m, end) {
          ClosedChain(files, classes, i, m, seen);
        }
        return None;
      }
      seen := seen + {entry.value};
      entry := NextLink(files, classes, entry.value);
      n := n + 1;
    }
    if entry.None? {
      forall m, end ensures !EndsIn(files, classes, i, m, end) {
        ClosedChain(files, classes, i, m, seen);
      }
    }
    assert entry.Some? ==> EndsIn(files, classes, i, n, entry.value);
    r := entry;
  }

  // ---------------------------------------------------------------- the gate

  datatype Route =
    | CleanupReport | ResumeAcknowledge | ResumeRoute | RollbackRoute | AbortDeployRoute | BackupRoute
    | EmergencyBackupRoute | PurgeRoute | RestoreInstanceRoute | CleanupApplyRoute | PermissionsApplyRoute
    | DeployRoute | UpdateRoute | ResetDbRoute | OtherRoute

  datatype Request = Request(operation: Option<Id>, bundle: Option<Id>, sideBySide: bool, selectors: set<Id>,
                             deleteBackups: Option<bool>, resetAdminConfig: bool)

  datatype Code =
    | IndexOverflow | FormatUnsupported | JournalInvalid | OperationConflict | OperationOpen | NotFound | NotOpen
    | NothingToResume | StoppedForOperator | InputsConflict

  datatype Decision = Observe | Admit | Reenter(at: nat) | Supersede(at: nat) | Refuse(code: Code)

  /** The classified operations of one instance, with the other journals that close the gate. */
  datatype Index = Index(files: seq<File>, classes: seq<Class>, permissions: bool, legacy: bool, overflow: bool) {

    ghost predicate Valid() {
      AreClasses(files, classes)
    }

    predicate Blocks(i: nat) {
      i < |classes| && classes[i] in {Blocking, Invalid}
    }
  }

  /** The blocking entries, in order. */
  function Blocked(index: Index, n: nat): (r: seq<nat>)
    requires n <= |index.classes|
    ensures forall k :: 0 <= k < |r| ==> r[k] < n && index.Blocks(r[k])
    ensures forall i :: 0 <= i < n && index.Blocks(i) ==> i in r
    ensures forall j, k :: 0 <= j < k < |r| ==> r[j] < r[k]
  {
    if n == 0 then []
    else Blocked(index, n - 1) + if index.Blocks(n - 1) then [n - 1] else []
  }

  predicate OpenBackup(index: Index, i: nat)
    requires index.Valid() && i < |index.files|
  {
    && index.classes[i] == Blocking && index.files[i].plan.kind == Backup
    && index.files[i].journal.phase !in TERMINAL
  }

  predicate WaitingSwitch(index: Index, i: nat)
    requires index.Valid() && i < |index.files|
  {
    index.classes[i] == Blocking && IsPendingSwitch(index.files[i].plan, index.files[i].journal)
  }

  /** The one allowed pair of blocking operations: a running backup and an untouched pending switch. */
  function Pair(index: Index): (r: Option<(nat, nat)>)
    requires index.Valid()
    ensures r.Some? ==>
              && r.value.0 < |index.files| && r.value.1 < |index.files|
              && OpenBackup(index, r.value.0) && WaitingSwitch(index, r.value.1)
  {
    var blocked := Blocked(index, |index.classes|);
    if |blocked| != 2 || index.permissions || index.legacy then None
    else if OpenBackup(index, blocked[0]) && WaitingSwitch(index, blocked[1]) then Some((blocked[0], blocked[1]))
    else if OpenBackup(index, blocked[1]) && WaitingSwitch(index, blocked[0]) then Some((blocked[1], blocked[0]))
    else None
  }

  predicate Conflict(index: Index)
    requires index.Valid()
  {
    var open := |Blocked(index, |index.classes|)| + (if index.permissions then 1 else 0)
                + if index.legacy then 1 else 0;
    open > 1 && Pair(index).None?
  }

  /** The decision about the one blocking operation, at `i`. */
  function DecideAlone(plan: Plan, journal: Journal, i: nat, route: Route, request: Request): Decision
    requires |journal.states| == |plan.effects|
  {
    var stopped := journal.phase == NeedsOperator;
    if InWorkspaceSwitch(plan, journal) && route != ResumeRoute then Refuse(OperationOpen)
    else match route
      case ResumeRoute => if stopped then Refuse(StoppedForOperator) else Reenter(i)
      case RollbackRoute => if ListsRollback(plan, journal) then Supersede(i) else Refuse(OperationOpen)
      case AbortDeployRoute =>
        if plan.kind == Deploy && !StartedRole(plan, journal, PointerRole) then Supersede(i)
        else if plan.kind == AbortDeploy && !stopped then Reenter(i)
        else Refuse(OperationOpen)
      case BackupRoute =>
        if plan.kind == Backup && !stopped then Reenter(i)
        else if IsPendingSwitch(plan, journal) then Admit
        else Refuse(OperationOpen)
      case EmergencyBackupRoute => if plan.kind in EMERGENCY_KINDS then Admit else Refuse(OperationOpen)
      case PurgeRoute =>
        if plan.kind != Purge || journal.phase !in {Deleting, Finalizing} then Refuse(OperationOpen)
        else if AsksOtherDeletion(request, journal.deletion) then Refuse(InputsConflict)
        else Reenter(i)
      case RestoreInstanceRoute =>
        if plan.kind == RestoreSideBySide && request.sideBySide then
          if request.bundle == plan.bundle then Reenter(i) else Refuse(InputsConflict)
        else if plan.kind == RestoreInstance then
          if request.bundle == plan.bundle && !request.sideBySide then Reenter(i) else Refuse(InputsConflict)
        else Refuse(OperationOpen)
      case CleanupApplyRoute =>
        if plan.kind != Cleanup then Refuse(OperationOpen)
        else if request.selectors == plan.selectors then Reenter(i)
        else Refuse(InputsConflict)
      case _ => Refuse(OperationOpen)
  }

  /** A purge that asks for more or less than the deletion that was approved. */
  predicate AsksOtherDeletion(request: Request, deletion: Option<Deletion>) {
    || (request.deleteBackups.Some?
        && (deletion.None? || request.deleteBackups.value != deletion.value.deleteBackups))
    || (request.resetAdminConfig && (deletion.None? || !deletion.value.resetAdminConfig))
  }

  function DecidePair(index: Index, backup: nat, route: Route, request: Request): Decision
    requires index.Valid() && backup < |index.files|
  {
    if route == ResumeRoute && request.operation == Some(index.files[backup].id) then Reenter(backup)
    else if route == ResumeRoute && request.operation.None? then Refuse(OperationConflict)
    else Refuse(OperationOpen)
  }

  /** The records of a blocking entry. */
  function OpenFile(index: Index, i: nat): (f: File)
    requires index.Valid() && i < |index.files| && index.classes[i] == Blocking
    ensures f == index.files[i] && f.Recorded? && |f.journal.states| == |f.plan.effects|
  {
    OpenEntry(index, i);
    index.files[i]
  }

  function DecideFirst(index: Index, i: nat, route: Route, request: Request): Decision
    requires index.Valid() && i < |index.files| && index.classes[i] == Blocking
  {
    var entry := OpenFile(index, i);
    DecideAlone(entry.plan, entry.journal, i, route, request)
  }

  /** Some blocking operation is inside its workspace switch. */
  predicate SwitchOpen(index: Index)
    requires index.Valid()
  {
    exists i :: 0 <= i < |index.files| && index.classes[i] == Blocking
                && var f := OpenFile(index, i); InWorkspaceSwitch(f.plan, f.journal)
  }

  predicate HoldsInvalid(index: Index) {
    Invalid in index.classes
  }

  function Decide(index: Index, route: Route, request: Request): Decision
    requires index.Valid()
  {
    var blocked := Blocked(index, |index.classes|);
    if route == CleanupReport then Observe
    else if index.overflow then Refuse(IndexOverflow)
    else if index.legacy then Refuse(FormatUnsupported)
    else if HoldsInvalid(index) then Refuse(JournalInvalid)
    else if Conflict(index) then Refuse(OperationConflict)
    else if route == ResumeAcknowledge then
      if SwitchOpen(index) then Refuse(OperationOpen) else Observe
    else if index.permissions then
      if route == PermissionsApplyRoute then Admit else Refuse(OperationOpen)
    else if route == ResumeRoute && request.operation.Some?
            && forall i <- blocked :: index.files[i].id != request.operation.value then
      match EntryOf(index.files, request.operation.value, 0)
      case None => Refuse(NotFound)
      case Some(i) => if index.classes[i] == NoJournal then Refuse(NotFound) else Refuse(NotOpen)
    else if blocked == [] then
      if route == ResumeRoute then Refuse(NothingToResume) else Admit
    else if Pair(index).Some? then DecidePair(index, Pair(index).value.0, route, request)
    else DecideFirst(index, blocked[0], route, request)
  }

  // ---------------------------------------------------------------- the listed routes and the gate agree

  function RouteOf(key: RouteKey): Route
    requires key != ManualRestore
  {
    match key
    case ResumeKey | KeepWorkspaceKey | AbandonKey => ResumeRoute
    case RollbackKey => RollbackRoute
    case AbortDeployKey => AbortDeployRoute
    case RestoreInstanceKey => RestoreInstanceRoute
    case CleanupKey => CleanupApplyRoute
    case EmergencyBackupKey => EmergencyBackupRoute
    case PurgeKey => PurgeRoute
    case BackupKey => BackupRoute
  }

  /** The request that the listed command line makes. */
  function RequestFor(f: File): Request
    requires f.Recorded?
  {
    Request(Some(f.id), f.plan.bundle, f.plan.kind == RestoreSideBySide, f.plan.selectors, None, false)
  }

  /** `i` is the only open operation. */
  predicate OnlyOpen(index: Index, i: nat) {
    && i < |index.files| == |index.classes| && !index.permissions && !index.legacy && !index.overflow
    && Blocked(index, |index.classes|) == [i] && index.classes[i] == Blocking
  }

  lemma OpenEntry(index: Index, i: nat)
    requires index.Valid() && i < |index.files| && index.classes[i] == Blocking
    ensures IsOpen(index.files[i]) && !IsSuperseded(index.files, index.files[i].id)
    ensures index.files[i].Recorded? && |index.files[i].journal.states| == |index.files[i].plan.effects|
  {
  }

  lemma DecidesAlone(index: Index, i: nat, route: Route, request: Request)
    requires index.Valid() && OnlyOpen(index, i) && request.operation == Some(index.files[i].id)
    requires route != CleanupReport && route != ResumeAcknowledge
    ensures IsOpen(index.files[i])
    ensures Decide(index, route, request)
         == DecideAlone(index.files[i].plan, index.files[i].journal, i, route, request)
  {
    hide Index.Valid, IsOpen, DecideAlone, DecidePair, Pair, Conflict, Blocked, EntryOf, HoldsInvalid, SwitchOpen;
    OpenEntry(index, i);
    OneBlocked(index, i);
    NothingInvalid(index, i);
  }

  lemma NothingInvalid(index: Index, i: nat)
    requires i < |index.classes| && Blocked(index, |index.classes|) == [i] && index.classes[i] == Blocking
    ensures !HoldsInvalid(index)
  {
    hide Blocked;
    forall j | 0 <= j < |index.classes| ensures index.classes[j] != Invalid {
      if index.Blocks(j) {
        assert j in Blocked(index, |index.classes|);
      }
    }
  }

  lemma OneBlocked(index: Index, i: nat)
    requires index.Valid() && Blocked(index, |index.classes|) == [i]
    ensures i in Blocked(index, |index.classes|) && i < |index.files| == |index.classes|
    ensures index.classes[i] in {Blocking, Invalid}
    ensures Pair(index).None? && (Conflict(index) <==> index.permissions || index.legacy)
  {
    hide Blocked, OpenBackup, WaitingSwitch;
    assert Blocked(index, |index.classes|)[0] == i && index.Blocks(i);
  }

  /** What the gate must answer for a listed key: resume and the aliases of a resume re-enter the operation,
      recoveries supersede it, captures run beside it. */
  predicate Serves(decision: Decision, key: RouteKey, plan: Plan, i: nat) {
    match key
    case RollbackKey => decision == Supersede(i)
    case AbortDeployKey => decision == if plan.kind == Deploy then Supersede(i) else Reenter(i)
    case EmergencyBackupKey => decision == Admit
    case BackupKey => decision == if plan.kind == Backup then Reenter(i) else Admit
    case _ => decision == Reenter(i)
  }

  predicate IsResumeKey(key: RouteKey) {
    key in {ResumeKey, AbandonKey, KeepWorkspaceKey}
  }

  /** Two aliases are listed for an operation that needs an operator, and the gate refuses them. */
  predicate StoppedAlias(plan: Plan, journal: Journal, key: RouteKey) {
    && journal.phase == NeedsOperator
    && ((plan.kind == Backup && key == BackupKey) || (plan.kind == AbortDeploy && key == AbortDeployKey))
  }

  lemma OnlyResumes(plan: Plan, journal: Journal, key: RouteKey)
    requires |journal.states| == |plan.effects| && key in ResumeRoutes(plan, journal)
    ensures IsResumeKey(key)
  {
    hide ResumeDecision;
  }

  /** Outside the two special lists, a command other than a resume is listed as its kind offers it. */
  lemma ListedKind(plan: Plan, journal: Journal, emergency: bool, key: RouteKey)
    requires |journal.states| == |plan.effects| && journal.phase !in CLOSED && !IsResumeKey(key)
    ensures key in OperationRoutes(plan, journal, emergency) <==>
            && !InWorkspaceSwitch(plan, journal) && !AbandonRecorded(plan, journal)
            && OffersKind(plan, journal, emergency, key)
  {
    KindKeys(plan, journal, emergency, key);
    if key in ResumeRoutes(plan, journal) {
      OnlyResumes(plan, journal, key);
    }
    hide InWorkspaceSwitch, AbandonRecorded, OffersKind, KindRoutes, ResumeRoutes, CLOSED;
  }

  /** The request asks for what the operation was approved with. */
  predicate AsksTheSame(request: Request, plan: Plan) {
    && request.bundle == plan.bundle && request.selectors == plan.selectors && request.deleteBackups.None?
    && !request.resetAdminConfig && request.sideBySide == (plan.kind == RestoreSideBySide)
  }

  /** What is offered is served, unless it is one of the two stopped aliases; the rest is refused. */
  predicate OfferMatches(plan: Plan, journal: Journal, i: nat, key: RouteKey, emergency: bool, d: Decision)
    requires |journal.states| == |plan.effects|
  {
    if OffersKind(plan, journal, emergency, key) && !StoppedAlias(plan, journal, key) then
      Serves(d, key, plan, i) && !d.Refuse?
    else
      d.Refuse? && !Serves(d, key, plan, i)
      && (StoppedAlias(plan, journal, key) ==> OffersKind(plan, journal, emergency, key))
  }

  /** What validity tells about bundles and pending switches. */
  predicate KindFacts(plan: Plan, journal: Journal)
    requires |journal.states| == |plan.effects|
  {
    && (plan.kind in {RestoreSideBySide, RestoreInstance} ==> plan.bundle.Some?)
    && (IsPendingSwitch(plan, journal) ==>
          plan.kind !in {Backup, AbortDeploy} && journal.phase == WorkspaceSyncPending)
  }

  lemma OfferedIsServed(plan: Plan, journal: Journal, i: nat, key: RouteKey, emergency: bool, request: Request)
    requires |journal.states| == |plan.effects| && KindFacts(plan, journal) && !InWorkspaceSwitch(plan, journal)
    requires !IsResumeKey(key) && key != ManualRestore && AsksTheSame(request, plan)
    ensures OfferMatches(plan, journal, i, key, emergency, DecideAlone(plan, journal, i, RouteOf(key), request))
  {
    hide KindFacts, InWorkspaceSwitch, DecideAlone, OfferMatches, AsksTheSame;
    match key
    case RollbackKey | CleanupKey | EmergencyBackupKey | PurgeKey =>
      PlainOffer(plan, journal, i, key, emergency, request);
    case RestoreInstanceKey =>
      RestoreOffer(plan, journal, i, emergency, request);
    case AbortDeployKey | BackupKey =>
      AliasOffer(plan, journal, i, key, emergency, request);
  }

  lemma PlainOffer(plan: Plan, journal: Journal, i: nat, key: RouteKey, emergency: bool, request: Request)
    requires |journal.states| == |plan.effects| && !InWorkspaceSwitch(plan, journal) && AsksTheSame(request, plan)
    requires key in {RollbackKey, CleanupKey, EmergencyBackupKey, PurgeKey}
    ensures OfferMatches(plan, journal, i, key, emergency, DecideAlone(plan, journal, i, RouteOf(key), request))
  {
    hide InWorkspaceSwitch, IsPendingSwitch, StartedRole, ListsRollback, EMERGENCY_KINDS;
  }

  lemma RestoreOffer(plan: Plan, journal: Journal, i: nat, emergency: bool, request: Request)
    requires |journal.states| == |plan.effects| && KindFacts(plan, journal) && !InWorkspaceSwitch(plan, journal)
    requires AsksTheSame(request, plan)
    ensures OfferMatches(plan, journal, i, RestoreInstanceKey, emergency,
                         DecideAlone(plan, journal, i, RestoreInstanceRoute, request))
  {
    hide InWorkspaceSwitch, IsPendingSwitch, StartedRole;
  }

  lemma AliasOffer(plan: Plan, journal: Journal, i: nat, key: RouteKey, emergency: bool, request: Request)
    requires |journal.states| == |plan.effects| && KindFacts(plan, journal) && !InWorkspaceSwitch(plan, journal)
    requires key in {AbortDeployKey, BackupKey}
    ensures OfferMatches(plan, journal, i, key, emergency, DecideAlone(plan, journal, i, RouteOf(key), request))
  {
    hide InWorkspaceSwitch, IsPendingSwitch, StartedRole;
  }

  lemma KindAgrees(plan: Plan, journal: Journal, i: nat, key: RouteKey, emergency: bool, request: Request)
    requires ValidPair(plan, journal) && journal.phase !in CLOSED
    requires !IsResumeKey(key) && key != ManualRestore && AsksTheSame(request, plan)
    ensures var decision := DecideAlone(plan, journal, i, RouteOf(key), request);
            var listed := key in OperationRoutes(plan, journal, emergency);
            && (listed && !Serves(decision, key, plan, i) <==> StoppedAlias(plan, journal, key))
            && (!listed && !decision.Refuse? <==>
                key == RestoreInstanceKey && AbandonRecorded(plan, journal) && !InWorkspaceSwitch(plan, journal))
  {
    ListedKind(plan, journal, emergency, key);
    if InWorkspaceSwitch(plan, journal) {
      SwitchIsActive(plan, journal);
    } else {
      FactsOf(plan, journal);
      OfferedIsServed(plan, journal, i, key, emergency, request);
      if AbandonRecorded(plan, journal) {
        RecordedPhase(plan, journal);
        RecordedOffers(plan, journal, emergency, key);
      }
    }
    hide ValidPair, InWorkspaceSwitch, AbandonRecorded, OffersKind, OperationRoutes, Serves, CLOSED;
  }

  lemma RecordedOffers(plan: Plan, journal: Journal, emergency: bool, key: RouteKey)
    requires |journal.states| == |plan.effects| && KindFacts(plan, journal)
    requires AbandonRecorded(plan, journal) && journal.phase == PreparingTarget
    requires !IsResumeKey(key) && key != ManualRestore
    ensures OffersKind(plan, journal, emergency, key) <==> key == RestoreInstanceKey
    ensures !StoppedAlias(plan, journal, key)
  {
    hide IsPendingSwitch, StartedRole, AdvisesManualRestore;
  }

  lemma FactsOf(plan: Plan, journal: Journal)
    requires ValidPair(plan, journal)
    ensures KindFacts(plan, journal)
  {
  }

  lemma SwitchIsActive(plan: Plan, journal: Journal)
    requires ValidPair(plan, journal) && InWorkspaceSwitch(plan, journal)
    ensures journal.phase != NeedsOperator && plan.kind !in UNTOUCHED_KINDS
  {
  }

  /** The listed routes and the gate are written separately; this is exactly where they agree. */
  lemma RoutesAgreeWithGate(index: Index, i: nat, key: RouteKey, emergency: bool)
    requires index.Valid() && OnlyOpen(index, i) && key != ManualRestore
    ensures var f := index.files[i];
            var decision := Decide(index, RouteOf(key), RequestFor(f));
            var listed := key in OperationRoutes(f.plan, f.journal, emergency);
            && (listed && !Serves(decision, key, f.plan, i) <==> StoppedAlias(f.plan, f.journal, key))
            && (!IsResumeKey(key) ==>
                  (!listed && !decision.Refuse? <==>
                   && key == RestoreInstanceKey && AbandonRecorded(f.plan, f.journal)
                   && !InWorkspaceSwitch(f.plan, f.journal)))
            && (Decide(index, ResumeRoute, RequestFor(f)).Refuse? <==> f.journal.phase == NeedsOperator)
  {
    hide Index.Valid, ValidPair, Decide, DecideAlone, OperationRoutes, InWorkspaceSwitch, StoppedAlias,
      AbandonRecorded, Blocked, IsSuperseded;
    OpenEntry(index, i);
    var f := index.files[i];
    DecidesAlone(index, i, RouteOf(key), RequestFor(f));
    DecidesAlone(index, i, ResumeRoute, RequestFor(f));
    if IsResumeKey(key) {
      ResumeAgrees(f.plan, f.journal, i, key, emergency, RequestFor(f));
    } else {
      KindAgrees(f.plan, f.journal, i, key, emergency, RequestFor(f));
      ResumeAgrees(f.plan, f.journal, i, ResumeKey, emergency, RequestFor(f));
    }
  }

  lemma ResumeAgrees(plan: Plan, journal: Journal, i: nat, key: RouteKey, emergency: bool, request: Request)
    requires ValidPair(plan, journal) && journal.phase !in CLOSED && IsResumeKey(key)
    ensures DecideAlone(plan, journal, i, ResumeRoute, request).Refuse? <==> journal.phase == NeedsOperator
    ensures key in OperationRoutes(plan, journal, emergency) ==>
              DecideAlone(plan, journal, i, ResumeRoute, request) == Reenter(i)
    ensures !StoppedAlias(plan, journal, key)
  {
    KindKeys(plan, journal, emergency, key);
    if AbandonRecorded(plan, journal) {
      RecordedPhase(plan, journal);
    }
    if InWorkspaceSwitch(plan, journal) {
      SwitchIsActive(plan, journal);
    }
    hide ValidPair, InWorkspaceSwitch, AbandonRecorded, KindRoutes, ResumeDecision;
  }

  // ---------------------------------------------------------------- runs that obey the gate

  datatype Instance = Instance(files: seq<File>, permissions: bool)

  /** One locked command: the index it read, what it asked for, and what it left behind. */
  datatype Event = Event(index: Index, route: Route, request: Request)

  ghost predicate Reads(inst: Instance, index: Index) {
    && index.Valid() && index.files == inst.files && index.permissions == inst.permissions
    && !index.legacy && !index.overflow
  }

  /** The kinds that a route may create. */
  function Creates(route: Route): set<Kind> {
    match route
    case DeployRoute => {Deploy}
    case UpdateRoute => {Update}
    case RollbackRoute => {Rollback}
    case ResetDbRoute => {ResetDb}
    case PurgeRoute => {Purge}
    case BackupRoute => {Backup}
    case RestoreInstanceRoute => {RestoreInstance, RestoreSideBySide}
    case AbortDeployRoute => {AbortDeploy}
    case CleanupApplyRoute => {Cleanup}
    case _ => {}
  }

  /** A new directory with valid records, however far its command came. */
  predicate NewFile(files: seq<File>, f: File, route: Route, supersedes: Option<Id>) {
    && IsValid(f) && (forall i :: 0 <= i < |files| ==> files[i].id != f.id)
    && f.plan.kind in Creates(route) && f.plan.supersedes == supersedes
  }

  /** The journal of a re-entered operation moves on; a terminal journal is never advanced. */
  predicate Advances(before: File, after: File) {
    && before.Recorded? && after.Recorded? && after == before.(journal := after.journal)
    && IsValid(after) && Later(before.plan, before.journal, after.journal)
    && (before.journal.phase in TERMINAL ==> after == before)
  }

  ghost predicate Step(before: Instance, e: Event, after: Instance) {
    && Reads(before, e.index)
    && match Decide(e.index, e.route, e.request)
       case Observe | Refuse(_) => after == before
       case Admit =>
         if e.route == PermissionsApplyRoute then after.files == before.files
         else
           && after.permissions == before.permissions
           && (|| after == before
               || (&& |after.files| == |before.files| + 1
                   && after.files[..|before.files|] == before.files
                   && NewFile(before.files, after.files[|before.files|], e.route, None)))
       case Reenter(i) =>
         && after.permissions == before.permissions && |after.files| == |before.files| && i < |before.files|
         && Advances(before.files[i], after.files[i])
         && forall k :: 0 <= k < |before.files| && k != i ==> after.files[k] == before.files[k]
       case Supersede(i) =>
         && after.permissions == before.permissions && i < |before.files|
         && (|| after == before
             || (&& |after.files| == |before.files| + 1
                 && after.files[..|before.files|] == before.files
                 && NewFile(before.files, after.files[|before.files|], e.route, Some(before.files[i].id))))
  }

  /** `w` waits for its workspace refresh while the backup `b` is open beside it. */
  predicate BackupBeside(files: seq<File>, b: nat, w: nat) {
    && b < |files| && w < |files| && b != w && IsBlocking(files, b) && IsBlocking(files, w)
    && IsValid(files[b]) && files[b].plan.kind == Backup
    && IsValid(files[w]) && IsPendingSwitch(files[w].plan, files[w].journal)
    && forall i :: 0 <= i < |files| && IsBlocking(files, i) ==> i == b || i == w
  }

  predicate AtMostOneBlocks(files: seq<File>) {
    forall i, j :: 0 <= i < |files| && 0 <= j < |files| && IsBlocking(files, i) && IsBlocking(files, j) ==> i == j
  }

  predicate NothingBlocks(files: seq<File>) {
    forall i :: 0 <= i < |files| ==> !IsBlocking(files, i)
  }

  /** Takers-over come after the open operation they took over, one for each. */
  ghost predicate Chained(files: seq<File>) {
    && DistinctIds(files) && (forall f <- files :: IsValid(f))
    && (forall j :: 0 <= j < |files| && files[j].Recorded? && files[j].plan.supersedes.Some? ==>
          exists i :: 0 <= i < j && files[i].id == files[j].plan.supersedes.value)
    && (forall i, j :: 0 <= i < |files| && 0 <= j < |files| && TakesOver(files[j], files[i].id) ==> IsOpen(files[i]))
    && (forall j, k, id :: 0 <= j < |files| && 0 <= k < |files| && TakesOver(files[j], id) && TakesOver(files[k], id)
          ==> j == k)
  }

  /** Nothing blocks, or one operation does, or a backup and one untouched pending switch. */
  ghost predicate Sound(inst: Instance) {
    && Chained(inst.files)
    && (AtMostOneBlocks(inst.files) || exists b, w :: BackupBeside(inst.files, b, w))
    && (inst.permissions ==> NothingBlocks(inst.files))
  }

  lemma BlocksIff(index: Index)
    requires index.Valid()
    ensures forall i :: 0 <= i < |index.files| ==> (index.Blocks(i) <==> IsBlocking(index.files, i))
  {
    hide ValidPair, After;
    forall i | 0 <= i < |index.files| ensures index.Blocks(i) <==> IsBlocking(index.files, i) {
      assert IsClass(index.files, i, index.classes[i]);
    }
  }

  lemma BlockedList(index: Index)
    requires index.Valid()
    ensures var blocked := Blocked(index, |index.classes|);
            && (forall i :: 0 <= i < |index.files| && IsBlocking(index.files, i) ==> i in blocked)
            && (forall k :: 0 <= k < |blocked| ==> blocked[k] < |index.files| && IsBlocking(index.files, blocked[k]))
            && (forall j, k :: 0 <= j < k < |blocked| ==> blocked[j] < blocked[k])
            && (AtMostOneBlocks(index.files) ==> |blocked| <= 1)
  {
    BlocksIff(index);
    hide IsBlocking, AreClasses;
    var blocked := Blocked(index, |index.classes|);
    if |blocked| > 1 {
      assert blocked[0] < blocked[1];
      assert IsBlocking(index.files, blocked[0]) && IsBlocking(index.files, blocked[1]);
      assert !AtMostOneBlocks(index.files);
    }
  }

  lemma TwoNumbers(s: seq<nat>, b: nat, w: nat)
    requires b != w && b in s && w in s
    requires forall k :: 0 <= k < |s| ==> s[k] == b || s[k] == w
    requires forall j, k :: 0 <= j < k < |s| ==> s[j] < s[k]
    ensures s == [b, w] || s == [w, b]
  {
    if |s| > 2 {
      FirstThree(s);
      assert false;
    }
  }

  lemma FirstThree(s: seq<nat>)
    requires |s| > 2 && forall j, k :: 0 <= j < k < |s| ==> s[j] < s[k]
    ensures s[0] < s[1] < s[2]
  {
  }

  lemma BlocksAsOpen(index: Index, i: nat)
    requires index.Valid() && i < |index.files| && IsBlocking(index.files, i) && IsValid(index.files[i])
    ensures index.classes[i] == Blocking && IsOpen(index.files[i])
  {
    assert IsClass(index.files, i, index.classes[i]);
    hide ValidPair, After;
  }

  lemma PairOf(index: Index, b: nat, w: nat)
    requires index.Valid() && BackupBeside(index.files, b, w)
    ensures OpenBackup(index, b) <==> index.files[b].journal.phase != NeedsOperator
    ensures WaitingSwitch(index, w) && !WaitingSwitch(index, b) && !OpenBackup(index, w)
  {
    hide ValidPair, Index.Valid, IsBlocking, IsPendingSwitch;
    var files := index.files;
    BlocksAsOpen(index, b);
    BlocksAsOpen(index, w);
    OpenEntry(index, b);
    OpenEntry(index, w);
    PendingKind(files[w].plan, files[w].journal);
    if IsPendingSwitch(files[b].plan, files[b].journal) {
      PendingKind(files[b].plan, files[b].journal);
    }
  }

  /** With a waiting switch beside a backup, the pair is recognised exactly while the backup is not stopped. */
  lemma PairRecognised(index: Index, b: nat, w: nat)
    requires index.Valid() && BackupBeside(index.files, b, w) && !index.permissions && !index.legacy
    ensures |Blocked(index, |index.classes|)| == 2
    ensures Pair(index) == if index.files[b].journal.phase == NeedsOperator then None else Some((b, w))
    ensures Conflict(index) <==> index.files[b].journal.phase == NeedsOperator
  {
    hide Index.Valid, OpenBackup, WaitingSwitch, IsValid, IsBlocking, IsPendingSwitch, Blocked, AtMostOneBlocks;
    BlockedList(index);
    PairOf(index, b, w);
    TwoNumbers(Blocked(index, |index.classes|), b, w);
  }

  lemma PendingKind(plan: Plan, journal: Journal)
    requires |journal.states| == |plan.effects| && IsPendingSwitch(plan, journal)
    ensures plan.kind != Backup && journal.phase == WorkspaceSyncPending
  {
  }

  // ---------------------------------------------------------------- what each kind of step does

  /** `more` is `files` with one new directory at the end. */
  predicate Extends(files: seq<File>, more: seq<File>, route: Route, supersedes: Option<Id>) {
    && |more| == |files| + 1 && more[..|files|] == files
    && NewFile(files, more[|files|], route, supersedes)
  }

  lemma ExtendsAt(files: seq<File>, more: seq<File>, route: Route, supersedes: Option<Id>)
    requires Extends(files, more, route, supersedes)
    ensures forall i :: 0 <= i < |files| ==> more[i] == files[i]
  {
    hide NewFile;
    assert forall i :: 0 <= i < |files| ==> more[..|files|][i] == more[i];
  }

  /** A new operation is not yet superseded, whatever it supersedes itself. */
  lemma NewIsNotSuperseded(files: seq<File>, more: seq<File>, route: Route, supersedes: Option<Id>)
    requires Chained(files) && Extends(files, more, route, supersedes)
    requires supersedes.Some? ==> exists i :: 0 <= i < |files| && files[i].id == supersedes.value
    ensures !IsSuperseded(more, more[|files|].id)
  {
    hide ValidPair;
    ExtendsAt(files, more, route, supersedes);
    var id := more[|files|].id;
    if IsSuperseded(more, id) {
      var j :| 0 <= j < |more| && TakesOver(more[j], id);
      assert false;
    }
  }

  /** With a new directory, an operation is superseded when it was, or when the new one takes it over. */
  lemma SupersededThen(files: seq<File>, more: seq<File>)
    requires |more| == |files| + 1 && forall i :: 0 <= i < |files| ==> more[i] == files[i]
    ensures forall id :: IsSuperseded(more, id) <==> IsSuperseded(files, id) || TakesOver(more[|files|], id)
  {
    hide TakesOver;
    forall id | IsSuperseded(files, id) ensures IsSuperseded(more, id) {
      var j :| 0 <= j < |files| && TakesOver(files[j], id);
      assert TakesOver(more[j], id);
    }
  }

  lemma NewPlain(files: seq<File>, more: seq<File>, route: Route)
    requires Chained(files) && Extends(files, more, route, None)
    ensures Chained(more)
    ensures forall i :: 0 <= i < |files| ==> (IsBlocking(more, i) <==> IsBlocking(files, i))
    ensures IsBlocking(more, |files|) <==> IsOpen(more[|files|])
  {
    hide ValidPair;
    ExtendsAt(files, more, route, None);
    SupersededThen(files, more);
    NewIsNotSuperseded(files, more, route, None);
    assert forall id :: !TakesOver(more[|files|], id);
    hide IsOpen, TakesOver, IsSuperseded;
  }

  lemma TakerChained(files: seq<File>, more: seq<File>, route: Route, i: nat)
    requires Chained(files) && i < |files| && IsOpen(files[i]) && !IsSuperseded(files, files[i].id)
    requires Extends(files, more, route, Some(files[i].id))
    ensures Chained(more)
  {
    hide ValidPair;
    ExtendsAt(files, more, route, Some(files[i].id));
    assert forall id :: TakesOver(more[|files|], id) ==> id == files[i].id;
    assert forall k :: 0 <= k < |files| ==> !TakesOver(files[k], files[i].id) && !TakesOver(files[k], more[|files|].id);
    assert IsValid(more[|files|]);
    hide IsOpen, IsValid, TakesOver, IsSuperseded;
  }

  /** The one blocking operation `i` is taken over: the new operation blocks instead, unless it is already
      cancelled, and then `i` blocks as before. */
  lemma NewTaker(files: seq<File>, more: seq<File>, route: Route, i: nat)
    requires Chained(files) && i < |files| && IsBlocking(files, i)
    requires Extends(files, more, route, Some(files[i].id))
    ensures Chained(more)
    ensures forall k :: 0 <= k < |files| && k != i ==> (IsBlocking(more, k) <==> IsBlocking(files, k))
    ensures IsBlocking(more, i) <==> more[|files|].journal.phase == Cancelled
    ensures IsBlocking(more, |files|) <==> IsOpen(more[|files|])
  {
    hide ValidPair;
    ExtendsAt(files, more, route, Some(files[i].id));
    SupersededThen(files, more);
    NewIsNotSuperseded(files, more, route, Some(files[i].id));
    assert IsValid(files[i]) && IsOpen(files[i]) && !IsSuperseded(files, files[i].id);
    TakerChained(files, more, route, i);
    assert forall id :: TakesOver(more[|files|], id) <==>
             id == files[i].id && more[|files|].journal.phase != Cancelled;
    assert IsValid(more[|files|]);
    hide Chained, IsOpen, IsValid, TakesOver, IsSuperseded;
  }

  /** Exactly one operation moved on. */
  ghost predicate MovesOn(files: seq<File>, after: seq<File>, i: nat) {
    && |after| == |files| && i < |files| && Advances(files[i], after[i])
    && forall k :: 0 <= k < |files| && k != i ==> after[k] == files[k]
  }

  /** The operation that `f` supersedes, when `f` ends cancelled, is what a withdrawal makes blocking again. */
  predicate Withdraws(before: File, after: File, id: Id) {
    TakesOver(before, id) && after.Recorded? && after.journal.phase == Cancelled
  }

  lemma SupersededAfter(files: seq<File>, after: seq<File>, i: nat)
    requires Chained(files) && MovesOn(files, after, i)
    ensures forall id :: IsSuperseded(after, id) <==>
              IsSuperseded(files, id) && !Withdraws(files[i], after[i], id)
  {
    hide ValidPair, Later;
    assert forall id :: TakesOver(after[i], id) <==> TakesOver(files[i], id) && !Withdraws(files[i], after[i], id);
    forall id | IsSuperseded(files, id) && !Withdraws(files[i], after[i], id) ensures IsSuperseded(after, id) {
      var j :| 0 <= j < |files| && TakesOver(files[j], id);
      assert TakesOver(after[j], id);
    }
    forall id | IsSuperseded(after, id) ensures IsSuperseded(files, id) && !Withdraws(files[i], after[i], id) {
      var j :| 0 <= j < |after| && TakesOver(after[j], id);
      assert TakesOver(files[j], id);
    }
  }

  lemma ChainedAfter(files: seq<File>, after: seq<File>, i: nat)
    requires Chained(files) && MovesOn(files, after, i) && !IsSuperseded(files, files[i].id)
    ensures Chained(after)
  {
    hide ValidPair, Later;
    assert forall j, id :: 0 <= j < |files| && TakesOver(after[j], id) ==> TakesOver(files[j], id);
    forall j | 0 <= j < |files|
      ensures after[j].Recorded? && IsValid(after[j]) && after[j].id == files[j].id && after[j].plan == files[j].plan
    {
      assert IsValid(files[j]);
    }
    assert forall j :: 0 <= j < |files| ==> !TakesOver(after[j], files[i].id);
    hide IsValid, TakesOver, Advances, IsSuperseded;
  }

  lemma OtherBlocks(files: seq<File>, after: seq<File>, i: nat, k: nat)
    requires Chained(files) && MovesOn(files, after, i) && k < |files| && k != i
    ensures IsBlocking(after, k) <==> IsBlocking(files, k) || Withdraws(files[i], after[i], files[k].id)
  {
    hide ValidPair, Advances;
    SupersededAfter(files, after, i);
    assert IsValid(files[k]) && IsValid(files[i]);
    assert Withdraws(files[i], after[i], files[k].id) ==> IsOpen(files[k]) && IsSuperseded(files, files[k].id);
    hide IsSuperseded, Chained, IsOpen, Withdraws;
  }

  /** A blocking operation moves on: nothing else changes, but a withdrawal makes the superseded operation
      blocking again. */
  lemma OneMovesOn(files: seq<File>, after: seq<File>, i: nat)
    requires Chained(files) && MovesOn(files, after, i) && IsBlocking(files, i)
    ensures Chained(after)
    ensures forall k :: 0 <= k < |files| && k != i ==>
              (IsBlocking(after, k) <==> IsBlocking(files, k) || Withdraws(files[i], after[i], files[k].id))
    ensures IsBlocking(after, i) <==> IsOpen(after[i])
  {
    hide ValidPair, Later;
    assert IsValid(files[i]) && IsOpen(files[i]) && !IsSuperseded(files, files[i].id);
    ChainedAfter(files, after, i);
    SupersededAfter(files, after, i);
    assert IsValid(after[i]) && after[i].id == files[i].id;
    hide Chained, IsValid, IsOpen, Advances, Withdraws, IsSuperseded;
    forall k | 0 <= k < |files| && k != i
      ensures IsBlocking(after, k) <==> IsBlocking(files, k) || Withdraws(files[i], after[i], files[k].id) {
      OtherBlocks(files, after, i, k);
    }
  }

  // ---------------------------------------------------------------- the whole-run invariant

  /** The gate lets a command act. */
  predicate Acts(d: Decision) {
    d.Admit? || d.Reenter? || d.Supersede?
  }

  lemma ActsOnNothing(index: Index, route: Route, request: Request)
    requires index.Valid() && Blocked(index, |index.classes|) == [] && Acts(Decide(index, route, request))
    ensures Decide(index, route, request) == Admit && (index.permissions ==> route == PermissionsApplyRoute)
  {
    hide Index.Valid, Blocked, Pair, DecideAlone, DecidePair, EntryOf;
  }

  lemma ActsOnOne(index: Index, route: Route, request: Request, i: nat)
    requires index.Valid() && Blocked(index, |index.classes|) == [i] && Acts(Decide(index, route, request))
    ensures !index.permissions && i < |index.files| && index.files[i].Recorded?
    ensures |index.files[i].journal.states| == |index.files[i].plan.effects|
    ensures index.classes[i] == Blocking
    ensures Decide(index, route, request)
         == DecideAlone(index.files[i].plan, index.files[i].journal, i, route, request)
  {
    hide Index.Valid, Blocked, Pair, Conflict, DecideAlone, DecidePair, EntryOf, IsOpen, IsSuperseded;
    OneBlocked(index, i);
    if index.classes[i] == Blocking {
      OpenEntry(index, i);
    }
  }

  lemma ActsOnPair(index: Index, route: Route, request: Request)
    requires index.Valid() && |Blocked(index, |index.classes|)| == 2 && Acts(Decide(index, route, request))
    ensures !index.permissions && !index.legacy && Pair(index).Some?
    ensures Decide(index, route, request) == Reenter(Pair(index).value.0)
  {
    hide Index.Valid, Blocked, DecideAlone, EntryOf, OpenBackup, WaitingSwitch;
  }

  /** Past its general refusals the gate looks at nothing, at one blocking operation, or at the pair. */
  ghost predicate Seen(inst: Instance, d: Decision, route: Route, request: Request) {
    || (d == Admit && NothingBlocks(inst.files) && (inst.permissions ==> route == PermissionsApplyRoute))
    || (!inst.permissions && AtMostOneBlocks(inst.files)
       && exists i: nat :: ActsAlone(inst.files, i, d, route, request))
    || (!inst.permissions && exists b, w :: BackupBeside(inst.files, b, w) && d == Reenter(b))
  }

  predicate ActsAlone(files: seq<File>, i: nat, d: Decision, route: Route, request: Request) {
    && i < |files| && IsBlocking(files, i) && IsOpen(files[i])
    && d == DecideAlone(files[i].plan, files[i].journal, i, route, request)
  }

  lemma GateSees(inst: Instance, index: Index, route: Route, request: Request)
    requires Sound(inst) && Reads(inst, index) && Acts(Decide(index, route, request))
    ensures Seen(inst, Decide(index, route, request), route, request)
  {
    hide BackupBeside, Index.Valid, Pair, DecideAlone, IsBlocking, Blocked, Decide, IsOpen, Chained, Conflict;
    BlockedList(index);
    var blocked := Blocked(index, |index.classes|);
    if !AtMostOneBlocks(inst.files) {
      var b, w :| BackupBeside(inst.files, b, w);
      assert !inst.permissions;
      PairRecognised(index, b, w);
      ActsOnPair(index, route, request);
    } else if blocked == [] {
      ActsOnNothing(index, route, request);
    } else {
      assert blocked == [blocked[0]];
      ActsOnOne(index, route, request, blocked[0]);
      OpenEntry(index, blocked[0]);
      assert ActsAlone(inst.files, blocked[0], Decide(index, route, request), route, request);
    }
  }

  /** Alone, the gate admits a second operation only as a backup beside a pending switch. */
  lemma AloneAdmits(plan: Plan, journal: Journal, i: nat, route: Route, request: Request)
    requires |journal.states| == |plan.effects|
    ensures var d := DecideAlone(plan, journal, i, route, request);
            && (d == Admit ==>
                  route == EmergencyBackupRoute || (route == BackupRoute && IsPendingSwitch(plan, journal)))
            && (d.Reenter? || d.Supersede? ==> d.at == i)
            && !d.Observe?
  {
    hide IsPendingSwitch, StartedRole, ListsRollback, InWorkspaceSwitch;
  }

  lemma Alone(files: seq<File>, d: Decision, route: Route, request: Request) returns (i: nat)
    requires exists k: nat :: ActsAlone(files, k, d, route, request)
    ensures i < |files| && IsBlocking(files, i) && IsValid(files[i]) && IsOpen(files[i])
    ensures d == Admit ==>
              || route == EmergencyBackupRoute
              || (route == BackupRoute && IsPendingSwitch(files[i].plan, files[i].journal))
    ensures d.Reenter? || d.Supersede? ==> d.at == i
  {
    hide DecideAlone, IsPendingSwitch, IsBlocking, ValidPlan, ValidDeletion;
    i :| ActsAlone(files, i, d, route, request);
    AloneAdmits(files[i].plan, files[i].journal, i, route, request);
  }

  lemma AdmitKeeps(before: Instance, after: Instance, route: Route, request: Request)
    requires Sound(before) && Seen(before, Admit, route, request) && route != PermissionsApplyRoute
    requires after.permissions == before.permissions && Extends(before.files, after.files, route, None)
    ensures Sound(after)
  {
    hide DecideAlone, IsPendingSwitch, IsOpen, ValidPair, Chained;
    var files, more := before.files, after.files;
    NewPlain(files, more, route);
    ExtendsAt(files, more, route, None);
    hide IsBlocking;
    assert !after.permissions;
    if NothingBlocks(files) {
      assert AtMostOneBlocks(more);
    } else {
      var i := Alone(files, Admit, route, request);
      if IsBlocking(more, |files|) {
        assert BackupBeside(more, |files|, i);
      } else {
        assert AtMostOneBlocks(more);
      }
    }
  }

  lemma SupersedeKeeps(before: Instance, after: Instance, route: Route, request: Request, i: nat)
    requires Sound(before) && Seen(before, Supersede(i), route, request)
    requires i < |before.files| && after.permissions == before.permissions
    requires Extends(before.files, after.files, route, Some(before.files[i].id))
    ensures Sound(after)
  {
    hide DecideAlone, IsPendingSwitch, ValidPair, Chained;
    var files, more := before.files, after.files;
    var k := Alone(files, Supersede(i), route, request);
    NewTaker(files, more, route, i);
    ExtendsAt(files, more, route, Some(files[i].id));
    assert AtMostOneBlocks(more);
  }

  lemma ReenterKeeps(before: Instance, after: Instance, route: Route, request: Request, i: nat)
    requires Sound(before) && Seen(before, Reenter(i), route, request)
    requires after.permissions == before.permissions && MovesOn(before.files, after.files, i)
    ensures Sound(after)
  {
    hide DecideAlone, IsPendingSwitch, ValidPair, IsOpen, Chained, Withdraws, Later;
    var files, moved := before.files, after.files;
    if exists w :: BackupBeside(files, i, w) {
      var w :| BackupBeside(files, i, w);
      OneMovesOn(files, moved, i);
      BackupTakesNothing(files, moved, i);
      hide IsBlocking;
      if IsBlocking(moved, i) {
        assert BackupBeside(moved, i, w);
      } else {
        assert AtMostOneBlocks(moved);
      }
    } else {
      assert AtMostOneBlocks(files);
      var k := Alone(files, Reenter(i), route, request);
      OneMovesOn(files, moved, i);
      OneTarget(files, moved, i);
      hide IsBlocking, Advances, Withdraws, Chained;
      assert AtMostOneBlocks(moved);
    }
  }

  lemma BackupTakesNothing(files: seq<File>, after: seq<File>, i: nat)
    requires MovesOn(files, after, i) && files[i].Recorded? && files[i].plan.kind == Backup
    ensures forall id :: !Withdraws(files[i], after[i], id)
  {
  }

  /** A withdrawal concerns one operation, and the withdrawn operation blocks no more. */
  lemma OneTarget(files: seq<File>, after: seq<File>, i: nat)
    requires Chained(files) && MovesOn(files, after, i)
    ensures forall j, k :: (0 <= j < |files| && 0 <= k < |files| && Withdraws(files[i], after[i], files[j].id)
                            && Withdraws(files[i], after[i], files[k].id)) ==> j == k
    ensures forall id :: Withdraws(files[i], after[i], id) ==> !IsOpen(after[i])
  {
    hide ValidPair, Later;
  }

  /** Every step that the gate allows keeps the instance sound. */
  lemma StepKeeps(before: Instance, e: Event, after: Instance)
    requires Sound(before) && Step(before, e, after)
    ensures Sound(after)
  {
    hide Decide, Chained, AtMostOneBlocks, BackupBeside, NewFile, Advances;
    var d := Decide(e.index, e.route, e.request);
    if Acts(d) && after != before {
      GateSees(before, e.index, e.route, e.request);
      match d
      case Admit =>
        if e.route == PermissionsApplyRoute {
          PermissionsKeep(before, after, e.request);
        } else {
          AdmitKeeps(before, after, e.route, e.request);
        }
      case Reenter(i) => ReenterKeeps(before, after, e.route, e.request, i);
      case Supersede(i) => SupersedeKeeps(before, after, e.route, e.request, i);
    }
  }

  lemma PermissionsKeep(before: Instance, after: Instance, request: Request)
    requires Sound(before) && Seen(before, Admit, PermissionsApplyRoute, request) && after.files == before.files
    ensures Sound(after)
  {
    hide DecideAlone, Chained, IsBlocking, BackupBeside, AtMostOneBlocks, ActsAlone;
    if !NothingBlocks(before.files) {
      var i := Alone(before.files, Admit, PermissionsApplyRoute, request);
    }
  }

  /** A run: the instance before the first command and after each one. */
  ghost predicate IsRun(states: seq<Instance>, events: seq<Event>) {
    && |states| == |events| + 1
    && states[0] == Instance([], false)
    && forall k :: 0 <= k < |events| ==> Step(states[k], events[k], states[k + 1])
  }

  /** At every moment of every run: nothing blocks, one operation does, or a backup and one pending switch. */
  lemma {:induction false} RunsStaySound(states: seq<Instance>, events: seq<Event>, n: nat)
    requires IsRun(states, events) && n <= |events|
    ensures Sound(states[n])
  {
    hide Step;
    if n == 0 {
      EmptyIsSound();
    } else {
      RunsStaySound(states, events, n - 1);
      StepKeeps(states[n - 1], events[n - 1], states[n]);
    }
  }

  lemma EmptyIsSound()
    ensures Sound(Instance([], false))
  {
    assert AtMostOneBlocks([]);
  }

  ghost predicate OnlyBlocks(files: seq<File>, k: nat) {
    k < |files| && forall j :: 0 <= j < |files| ==> (IsBlocking(files, j) <==> j == k)
  }

  lemma WithdrawnAlone(files: seq<File>, moved: seq<File>, i: nat) returns (k: nat)
    requires Chained(files) && MovesOn(files, moved, i) && IsBlocking(files, i) && AtMostOneBlocks(files)
    requires files[i].plan.supersedes.Some? && files[i].journal.phase != Cancelled
    requires moved[i].journal.phase == Cancelled
    ensures k < i && moved[k].id == files[i].plan.supersedes.value && OnlyBlocks(moved, k)
  {
    hide ValidPair, Later;
    assert IsValid(files[i]);
    assert Withdraws(files[i], moved[i], files[i].plan.supersedes.value);
    k :| 0 <= k < i && files[k].id == files[i].plan.supersedes.value;
    OneMovesOn(files, moved, i);
    OneTarget(files, moved, i);
    hide IsBlocking, Withdraws, IsOpen, Chained, IsValid;
  }

  /** Withdrawing a superseding operation makes exactly the superseded one blocking again. */
  lemma WithdrawUnblocks(before: Instance, e: Event, after: Instance, i: nat)
    requires Sound(before) && Step(before, e, after) && Decide(e.index, e.route, e.request) == Reenter(i)
    requires before.files[i].plan.supersedes.Some? && before.files[i].journal.phase != Cancelled
    requires after.files[i].journal.phase == Cancelled
    ensures exists k :: 0 <= k < i && after.files[k].id == before.files[i].plan.supersedes.value
                        && OnlyBlocks(after.files, k)
  {
    hide Decide, Advances, Chained, AtMostOneBlocks, IsBlocking, OnlyBlocks, DecideAlone, IsOpen;
    GateSees(before, e.index, e.route, e.request);
    if exists w :: BackupBeside(before.files, i, w) {
      BackupSupersedesNothing(before.files[i]);
      assert false;
    }
    var same := Alone(before.files, Reenter(i), e.route, e.request);
    var k := WithdrawnAlone(before.files, after.files, i);
  }

  lemma BackupSupersedesNothing(f: File)
    requires IsValid(f) && f.plan.kind == Backup
    ensures f.plan.supersedes.None?
  {
  }

  /** In every run the supersession chains end: the taker-over was created later. */
  lemma {:induction false} ChainsEnd(files: seq<File>, classes: seq<Class>, i: nat) returns (n: nat, end: nat)
    requires |classes| == |files| && Chained(files) && AreClasses(files, classes) && i < |files|
    ensures i <= end < |files| && EndsIn(files, classes, i, n, end)
    decreases |files| - i
  {
    hide Chained, AreClasses, NextLink, Link;
    if !classes[i].Superseded? {
      n, end := 0, i;
      NoLinks(files, classes, i);
    } else {
      var j := NextIsLater(files, classes, i);
      var m;
      m, end := ChainsEnd(files, classes, j);
      n := m + 1;
      LinkFront(files, classes, i, j, m);
    }
  }

  lemma NoLinks(files: seq<File>, classes: seq<Class>, i: nat)
    requires |classes| == |files| && i < |files|
    ensures Link(files, classes, i, 0) == Some(i)
  {
  }

  lemma NextIsLater(files: seq<File>, classes: seq<Class>, i: nat) returns (j: nat)
    requires Chained(files) && AreClasses(files, classes) && i < |files| && classes[i].Superseded?
    ensures i < j < |files| && NextLink(files, classes, i) == Some(j)
  {
    hide ValidPair, After;
    assert IsClass(files, i, classes[i]);
    j :| 0 <= j < |files| && TakesOver(files[j], files[i].id) && files[j].id == classes[i].taker;
    assert files[j].plan.supersedes == Some(files[i].id);
    hide IsOpen, IsClass, AreClasses;
  }

  lemma {:induction false} LinkFront(files: seq<File>, classes: seq<Class>, i: nat, j: nat, n: nat)
    requires |classes| == |files| && i < |files| && classes[i].Superseded?
    requires NextLink(files, classes, i) == Some(j) && j < |files|
    ensures Link(files, classes, i, n + 1) == Link(files, classes, j, n)
  {
    if n == 0 {
      assert Link(files, classes, i, 0) == Some(i);
    } else {
      LinkFront(files, classes, i, j, n - 1);
    }
  }

  /** The one way in which a run that obeys the gate ends up refused for good: the backup beside a pending
      switch stops for an operator. */
  lemma ConflictMeansStoppedBackup(inst: Instance, index: Index)
    requires Sound(inst) && Reads(inst, index)
    ensures Conflict(index) <==>
            exists b: nat, w: nat :: BackupBeside(inst.files, b, w) && inst.files[b].journal.phase == NeedsOperator
  {
    hide Conflict, Index.Valid, IsBlocking, ValidPair, Chained, IsPendingSwitch, Pair, Blocked;
    BlockedList(index);
    if b, w :| BackupBeside(inst.files, b, w) {
      assert !inst.permissions;
      PairRecognised(index, b, w);
      forall c, v | BackupBeside(inst.files, c, v) ensures c == b {
        SamePair(inst.files, b, w, c, v);
      }
    } else {
      AtMostOneIsCalm(inst, index);
    }
  }

  lemma SamePair(files: seq<File>, b: nat, w: nat, c: nat, v: nat)
    requires BackupBeside(files, b, w) && BackupBeside(files, c, v)
    ensures c == b && v == w
  {
    PendingKind(files[w].plan, files[w].journal);
    PendingKind(files[v].plan, files[v].journal);
  }

  lemma AtMostOneIsCalm(inst: Instance, index: Index)
    requires Sound(inst) && Reads(inst, index) && AtMostOneBlocks(inst.files)
    ensures !Conflict(index)
  {
    hide Index.Valid, IsBlocking, Chained, Blocked, OpenBackup, WaitingSwitch, AtMostOneBlocks, BackupBeside;
    BlockedList(index);
    var blocked := Blocked(index, |index.classes|);
    if |blocked| != 0 {
      assert IsBlocking(inst.files, blocked[0]);
    }
  }

  /** Then every mutating route is refused, for good. */
  lemma ConflictIsFinal(before: Instance, e: Event, after: Instance)
    requires Reads(before, e.index) && Conflict(e.index) && Step(before, e, after)
    ensures after == before
    ensures e.route != CleanupReport ==> Decide(e.index, e.route, e.request).Refuse?
  {
    hide Index.Valid, Pair, Blocked, DecideAlone, DecidePair;
  }

  function WaitingDeploy(): File {
    var effects := [Effect(SourceStage, WorkspaceStage, false, false, SyncingWorkspace),
                    Effect(SourceSwitch, WorkspaceRetain, false, false, SyncingWorkspace),
                    Effect(SourceSwitch, WorkspaceBind, false, false, SyncingWorkspace),
                    Effect(FileWrite, SourceManifest, false, false, SyncingWorkspace)];
    Recorded(1, 0, Plan(Deploy, None, None, PendingTree, {}, effects),
             Journal(WorkspaceSyncPending, [NotStarted, NotStarted, NotStarted, NotStarted], None))
  }

  /** A backup of a capture and its seal; the capture was started and its outcome is unknown. */
  function BackupIn(phase: Phase): File {
    var effects := [Effect(Capture, Elsewhere, false, false, Capturing),
                    Effect(ArtifactSeal, Elsewhere, false, false, Finalizing)];
    Recorded(2, 1, Plan(Backup, None, None, Untouched, {}, effects), Journal(phase, [Unknown, NotStarted], None))
  }

  lemma {:induction false} AllWorkspace(effects: seq<Effect>, n: nat)
    requires n <= |effects| && forall i :: 0 <= i < n ==> EffectRole(effects[i]) == WorkspaceRole
    ensures WorkspacePositions(effects, n) == seq(n, i requires 0 <= i < n => i)
  {
    hide EffectRole;
    if n > 0 {
      AllWorkspace(effects, n - 1);
    }
  }

  /** A plan of the four workspace effects alone, not started, is a valid pending switch. */
  lemma FourEffectsWait(plan: Plan, journal: Journal)
    requires plan.kind == Deploy && plan.supersedes.None? && plan.bundle.None? && plan.mode == PendingTree
    requires |plan.effects| == 4 && forall e <- plan.effects :: EffectRole(e) == WorkspaceRole
    requires forall i :: 0 <= i < 4 ==> EffectRole(plan.effects[i]) == WorkspaceRole
    requires forall e <- plan.effects :: e.phase == SyncingWorkspace
    requires plan.effects[0].etype == SourceStage && plan.effects[0].target == WorkspaceStage
    requires plan.effects[1].etype == SourceSwitch && plan.effects[1].target == WorkspaceRetain
    requires plan.effects[2].etype == SourceSwitch && plan.effects[2].target == WorkspaceBind
    requires plan.effects[3].etype == FileWrite && plan.effects[3].target == SourceManifest
    requires journal == Journal(WorkspaceSyncPending, seq(4, i => NotStarted), None)
    ensures ValidPair(plan, journal) && IsPendingSwitch(plan, journal) && !InWorkspaceSwitch(plan, journal)
  {
    hide WorkspacePositions, EffectRole, FourWorkspaceEffects, ValidPlan, UNTOUCHED_KINDS;
    FourPositions(plan);
    ValidFour(plan);
  }

  lemma FourPositions(plan: Plan)
    requires |plan.effects| == 4 && forall i :: 0 <= i < 4 ==> EffectRole(plan.effects[i]) == WorkspaceRole
    ensures WorkspacePositions(plan.effects, |plan.effects|) == [0, 1, 2, 3]
    ensures WorkspaceIds(plan) == Some([0, 1, 2, 3])
  {
    hide WorkspacePositions, EffectRole;
    AllWorkspace(plan.effects, |plan.effects|);
  }

  lemma ValidFour(plan: Plan)
    requires plan.kind == Deploy && plan.supersedes.None? && plan.bundle.None? && plan.mode == PendingTree
    requires |plan.effects| == 4 && forall e <- plan.effects :: EffectRole(e) == WorkspaceRole
    requires forall e <- plan.effects :: e.phase == SyncingWorkspace
    requires WorkspacePositions(plan.effects, |plan.effects|) == [0, 1, 2, 3]
    requires plan.effects[0].etype == SourceStage && plan.effects[0].target == WorkspaceStage
    requires plan.effects[1].etype == SourceSwitch && plan.effects[1].target == WorkspaceRetain
    requires plan.effects[2].etype == SourceSwitch && plan.effects[2].target == WorkspaceBind
    requires plan.effects[3].etype == FileWrite && plan.effects[3].target == SourceManifest
    ensures ValidPlan(plan)
  {
    hide WorkspacePositions, EffectRole;
  }

  lemma WaitingDeployWaits()
    ensures var f := WaitingDeploy(); IsValid(f) && IsPendingSwitch(f.plan, f.journal)
    ensures var f := WaitingDeploy(); f.Recorded? && f.id == 1 && f.plan.kind == Deploy && f.plan.supersedes.None?
    ensures var f := WaitingDeploy(); f.journal.phase == WorkspaceSyncPending && !InWorkspaceSwitch(f.plan, f.journal)
  {
    hide ValidPair, IsPendingSwitch, InWorkspaceSwitch;
    var f := WaitingDeploy();
    assert f.journal.states == seq(4, i => NotStarted);
    FourEffectsWait(f.plan, f.journal);
  }

  lemma {:induction false} NoWorkspace(effects: seq<Effect>, n: nat)
    requires n <= |effects| && forall i :: 0 <= i < n ==> EffectRole(effects[i]) != WorkspaceRole
    ensures WorkspacePositions(effects, n) == []
  {
    hide EffectRole;
    if n > 0 {
      NoWorkspace(effects, n - 1);
    }
  }

  lemma BackupIsValid(plan: Plan, journal: Journal)
    requires plan.kind == Backup && plan.supersedes.None? && plan.bundle.None? && plan.mode == Untouched
    requires |journal.states| == |plan.effects| && journal.deletion.None? && journal.phase != WorkspaceSyncPending
    requires forall i :: 0 <= i < |plan.effects| ==> EffectRole(plan.effects[i]) != WorkspaceRole
    ensures ValidPair(plan, journal)
  {
    hide EffectRole, WorkspacePositions;
    NoWorkspace(plan.effects, |plan.effects|);
    assert forall e <- plan.effects :: EffectRole(e) != WorkspaceRole;
  }

  /** The backup is open as it runs, and open and stopped. */
  ghost predicate IsOpenBackup(f: File, phase: Phase) {
    IsValid(f) && IsOpen(f) && f.id == 2 && f.plan.kind == Backup && f.plan.supersedes.None? && f.journal.phase == phase
  }

  lemma BackupIsOpen(phase: Phase)
    requires phase in {Capturing, NeedsOperator}
    ensures IsOpenBackup(BackupIn(phase), phase)
  {
    hide ValidPair, EffectRole;
    var f := BackupIn(phase);
    BackupRoles(f.plan.effects);
    BackupIsValid(f.plan, f.journal);
  }

  lemma BackupRoles(effects: seq<Effect>)
    requires |effects| == 2 && effects[0].etype == Capture && effects[1].etype == ArtifactSeal
    requires effects[0].target == effects[1].target == Elsewhere
    ensures forall i :: 0 <= i < 2 ==> EffectRole(effects[i]) != WorkspaceRole
  {
  }

  lemma BackupMovesOn()
    ensures Advances(BackupIn(Capturing), BackupIn(NeedsOperator))
  {
    hide ValidPair;
    BackupIsOpen(Capturing);
    BackupIsOpen(NeedsOperator);
  }

  lemma DeployStarts(request: Request)
    ensures var after := Instance([WaitingDeploy()], false);
            Step(Instance([], false), Event(Index([], [], false, false, false), DeployRoute, request), after)
  {
    WaitingDeployWaits();
    hide WaitingDeploy, IsPendingSwitch, InWorkspaceSwitch, ValidPair, IsValid;
  }

  lemma BackupStarts(request: Request, g: File)
    requires request.operation == Some(1) && IsOpenBackup(g, Capturing)
    ensures var f := WaitingDeploy();
            Step(Instance([f], false), Event(Index([f], [Blocking], false, false, false), BackupRoute, request),
                 Instance([f, g], false))
  {
    hide ValidPair;
    WaitingDeployWaits();
    var f := WaitingDeploy();
    var index := Index([f], [Blocking], false, false, false);
    hide WaitingDeploy, IsPendingSwitch, InWorkspaceSwitch, Decide;
    assert Reads(Instance([f], false), index);
    assert Blocked(index, 1) == [0] by {
      assert Blocked(index, 0) == [];
    }
    DecidesAlone(index, 0, BackupRoute, request);
    assert Decide(index, BackupRoute, request) == Admit by {
      hide Reads, Index.Valid, IsOpen, IsValid;
    }
    assert NewFile([f], g, BackupRoute, None);
    assert [f, g][..1] == [f];
    hide Reads, NewFile, Index.Valid, DecideAlone;
  }

  /** The deploy and the backup beside it, as the index reads them. */
  lemma BesideEachOther(g: File, phase: Phase)
    requires phase in {Capturing, NeedsOperator} && IsOpenBackup(g, phase)
    ensures var index := Index([WaitingDeploy(), g], [Blocking, Blocking], false, false, false);
            && Reads(Instance(index.files, false), index) && BackupBeside(index.files, 1, 0)
            && (Conflict(index) <==> phase == NeedsOperator)
            && (phase != NeedsOperator ==> Pair(index) == Some((1, 0)))
  {
    hide ValidPair;
    WaitingDeployWaits();
    var f := WaitingDeploy();
    var index := Index([f, g], [Blocking, Blocking], false, false, false);
    hide WaitingDeploy, IsPendingSwitch, InWorkspaceSwitch, Conflict, Blocked, Pair;
    assert forall id :: !TakesOver(f, id) && !TakesOver(g, id);
    assert IsOpen(f) && IsOpen(g);
    hide IsValid, TakesOver, IsOpen;
    assert index.Valid();
    PairRecognised(index, 1, 0);
  }

  lemma BothBlocked(index: Index)
    requires index.classes == [Blocking, Blocking]
    ensures Blocked(index, 2) == [0, 1] && !HoldsInvalid(index)
  {
    assert Blocked(index, 0) == [];
    assert Blocked(index, 1) == [0];
  }

  lemma PairResumes(index: Index, request: Request)
    requires index.Valid() && index.classes == [Blocking, Blocking] && |index.files| == 2
    requires !index.permissions && !index.legacy && !index.overflow && !Conflict(index) && Pair(index) == Some((1, 0))
    requires request.operation == Some(index.files[1].id)
    ensures Decide(index, ResumeRoute, request) == Reenter(1)
  {
    hide Index.Valid, Blocked, Pair, Conflict, DecideFirst, HoldsInvalid, SwitchOpen;
    BothBlocked(index);
  }

  /** The backup is taken up again and stops for an operator. */
  lemma BackupStops(request: Request, g: File, stopped: File)
    requires request.operation == Some(2) && IsOpenBackup(g, Capturing) && Advances(g, stopped)
    ensures var f := WaitingDeploy();
            Step(Instance([f, g], false),
                Event(Index([f, g], [Blocking, Blocking], false, false, false), ResumeRoute, request),
                 Instance([f, stopped], false))
  {
    hide ValidPair, WaitingDeploy, Advances, Conflict, Pair, Index.Valid, BackupBeside, IsOpen, IsValid, Decide;
    var f := WaitingDeploy();
    var index := Index([f, g], [Blocking, Blocking], false, false, false);
    BesideEachOther(g, Capturing);
    PairResumes(index, request);
  }

  /** A deploy waits for its workspace, a backup starts beside it, runs and stops for an operator: from then on
      the gate refuses every mutating route. */
  lemma StoppedBackupCloses() returns (states: seq<Instance>, events: seq<Event>, index: Index)
    ensures IsRun(states, events) && |events| == 3 && Reads(states[3], index) && Conflict(index)
    ensures index.files == [WaitingDeploy(), BackupIn(NeedsOperator)]
  {
    hide Step, Reads, Conflict, WaitingDeploy, BackupIn, Advances, IsOpenBackup, BackupBeside, Pair;
    var f, g, stopped := WaitingDeploy(), BackupIn(Capturing), BackupIn(NeedsOperator);
    var one, two := Request(Some(1), None, false, {}, None, false), Request(Some(2), None, false, {}, None, false);
    index := Index([f, stopped], [Blocking, Blocking], false, false, false);
    states := [Instance([], false), Instance([f], false), Instance([f, g], false), Instance([f, stopped], false)];
    events := [Event(Index([], [], false, false, false), DeployRoute, one),
               Event(Index([f], [Blocking], false, false, false), BackupRoute, one),
               Event(Index([f, g], [Blocking, Blocking], false, false, false), ResumeRoute, two)];
    BackupIsOpen(Capturing);
    BackupIsOpen(NeedsOperator);
    BackupMovesOn();
    DeployStarts(one);
    BackupStarts(one, g);
    BackupStops(two, g, stopped);
    BesideEachOther(stopped, NeedsOperator);
  }
}
