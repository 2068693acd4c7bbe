/** The records of the lifecycle operations of one instance: plans, journals, the roles of their effects,
    the decision of a resume, and the routes listed to the operator. */
module Operations {

  import opened Wrappers

  type Id = nat

  datatype Kind =
    | Deploy | Update | Backup | Rollback | ResetDb | Purge | RestoreInstance | AbortDeploy | RestoreSideBySide
    | Cleanup

  datatype Phase =
    | Planned | Preparing | Initializing | Activating | Preserving | Migrating | SyncingWorkspace
    | WorkspaceSyncPending | Capturing | Verifying | PreservingCurrent | RestoringCandidate | Switching | Deleting
    | Finalizing | PreparingTarget | RestoringData | Completed | FailedPreserved | NeedsOperator | Cancelled

  datatype EffectType =
    | SourceStage | SourceSwitch | ImageBuild | ImageTag | ImageLoad | ServiceChange | DatabaseCreate
    | DatabaseMigrate | DatabaseRestore | DatabaseSwitch | DatabaseDrop | DatabaseAlter | ResourceDelete
    | ArtifactSeal | Capture | Verification | FileWrite

  /** What an effect acts on, as far as its prefix tells. */
  datatype Target =
    | WorkspaceStage | WorkspaceRetain | WorkspaceBind | WorkspaceOther | Topology | Registry | Deployment
    | SourceManifest | ServicesStop | FrontendStart | BackendStart | DbStart | DeployedPointer | Elsewhere

  /** `candidate`: the target names an owned candidate database; `mismatch`: the effect carries the
      precondition of a reset that was planned on a schema and image mismatch. */
  datatype Effect = Effect(etype: EffectType, target: Target, candidate: bool, mismatch: bool, phase: Phase)

  datatype State = NotStarted | Complete | Partial | Unknown

  datatype WorkspaceMode = SwitchTree | KeepTree | PendingTree | RecordCurrent | Untouched

  datatype Plan = Plan(kind: Kind, supersedes: Option<Id>, bundle: Option<Id>, mode: WorkspaceMode,
                       selectors: set<Id>, effects: seq<Effect>)

  datatype Deletion = Deletion(deleteBackups: bool, resetAdminConfig: bool)

  /** The states stand in the order of the plan's effects. */
  datatype Journal = Journal(phase: Phase, states: seq<State>, deletion: Option<Deletion>)

  const TERMINAL := {Completed, FailedPreserved, NeedsOperator, Cancelled}

  const CLOSED := {Completed, Cancelled, FailedPreserved}

  const SWITCH_KINDS := {Deploy, Update, Rollback, RestoreInstance}

  const EMERGENCY_KINDS := {Deploy, Update, Rollback, ResetDb}

  const UNTOUCHED_KINDS := {Backup, ResetDb, Purge, AbortDeploy, RestoreSideBySide, Cleanup}

  // ---------------------------------------------------------------- roles

  datatype Role =
    | WorkspaceRole | TopologyRole | RegistryRole | StagingRole | StopRole | FrontendRole | BackendRole | DbStartRole
    | CaptureRole | VerificationRole | SealRole | DeletionRole | SwitchRole | ImageLoadRole | CandidateRole
    | MigrationRole | DataRole | PointerRole | FileRole

  function EffectRole(e: Effect): Role {
    if e.target in {WorkspaceStage, WorkspaceRetain, WorkspaceBind, WorkspaceOther} then WorkspaceRole
    else if e.etype == FileWrite && e.target == SourceManifest && e.phase == SyncingWorkspace then WorkspaceRole
    else if e.target == Topology then TopologyRole
    else if e.etype == FileWrite && e.target == Registry then RegistryRole
    else if e.etype == SourceStage && e.target == Deployment then StagingRole
    else if e.etype == FileWrite && e.target == SourceManifest then StagingRole
    else if e.etype == ServiceChange && e.target == ServicesStop then StopRole
    else if e.etype == ServiceChange && e.target == FrontendStart then FrontendRole
    else if e.etype == ServiceChange && e.target == BackendStart then BackendRole
    else if e.etype == ServiceChange && e.target == DbStart then DbStartRole
    else match e.etype
      case Capture => CaptureRole
      case Verification => VerificationRole
      case ArtifactSeal => SealRole
      case ResourceDelete => DeletionRole
      case DatabaseSwitch => SwitchRole
      case ImageLoad => ImageLoadRole
      case DatabaseMigrate => if e.candidate then CandidateRole else MigrationRole
      case DatabaseCreate | DatabaseRestore | DatabaseDrop | DatabaseAlter =>
        if e.candidate then CandidateRole else DataRole
      case FileWrite => if e.target == DeployedPointer then PointerRole else FileRole
      case _ => FileRole
  }

  /** The positions of the workspace effects among the first `n` effects. */
  function WorkspacePositions(effects: seq<Effect>, n: nat): (ids: seq<nat>)
    requires n <= |effects|
    ensures forall k :: 0 <= k < |ids| ==> ids[k] < n && EffectRole(effects[ids[k]]) == WorkspaceRole
    ensures forall i :: 0 <= i < n && EffectRole(effects[i]) == WorkspaceRole ==> i in ids
    ensures forall i, j :: 0 <= i < j < |ids| ==> ids[i] < ids[j]
  {
    if n == 0 then []
    else WorkspacePositions(effects, n - 1) + if EffectRole(effects[n - 1]) == WorkspaceRole then [n - 1] else []
  }

  /** The positions W1 to W4 of the stage, retain, bind and manifest effects. */
  function WorkspaceIds(plan: Plan): (r: Option<seq<nat>>)
    ensures r.Some? ==> |r.value| == 4 && forall k :: 0 <= k < 4 ==> r.value[k] < |plan.effects|
  {
    var ids := WorkspacePositions(plan.effects, |plan.effects|);
    if |ids| == 4 then Some(ids) else None
  }

  // ---------------------------------------------------------------- validity

  /** The four workspace effects, in order. */
  predicate FourWorkspaceEffects(plan: Plan) {
    var ids := WorkspacePositions(plan.effects, |plan.effects|);
    && |ids| == 4
    && plan.effects[ids[0]].etype == SourceStage && plan.effects[ids[0]].target == WorkspaceStage
    && plan.effects[ids[1]].etype == SourceSwitch && plan.effects[ids[1]].target == WorkspaceRetain
    && plan.effects[ids[2]].etype == SourceSwitch && plan.effects[ids[2]].target == WorkspaceBind
    && plan.effects[ids[3]].etype == FileWrite && plan.effects[ids[3]].target == SourceManifest
  }

  predicate ValidPlan(plan: Plan) {
    && (plan.supersedes.Some? ==> plan.kind in {Rollback, AbortDeploy})
    && (plan.kind == AbortDeploy ==> plan.supersedes.Some?)
    && (plan.bundle.Some? <==> plan.kind in {Rollback, RestoreInstance, RestoreSideBySide})
    && (plan.mode == Untouched <==> plan.kind in UNTOUCHED_KINDS)
    && (plan.mode == RecordCurrent ==> plan.kind == Deploy)
    && (forall e <- plan.effects :: EffectRole(e) == WorkspaceRole ==> e.phase == SyncingWorkspace)
    && (if plan.mode in {SwitchTree, PendingTree} then FourWorkspaceEffects(plan)
        else WorkspacePositions(plan.effects, |plan.effects|) == [])
  }

  predicate ValidDeletion(plan: Plan, journal: Journal)
    requires |journal.states| == |plan.effects|
  {
    match journal.deletion
    case None =>
      plan.kind == Purge ==>
        forall i :: 0 <= i < |plan.effects| && plan.effects[i].etype == ResourceDelete ==>
          journal.states[i] == NotStarted
    case Some(deletion) =>
      && plan.kind in {Purge, AbortDeploy, RestoreInstance}
      && (plan.kind == RestoreInstance ==>
            && journal.phase in {PreparingTarget, Cancelled}
            && !deletion.deleteBackups && !deletion.resetAdminConfig
            && forall i :: 0 <= i < |plan.effects| && plan.effects[i].phase == RestoringData ==>
                 journal.states[i] == NotStarted)
  }

  /** What the validator of the lifecycle records guarantees and the decisions rely on. */
  predicate ValidPair(plan: Plan, journal: Journal) {
    && ValidPlan(plan)
    && |journal.states| == |plan.effects|
    && (journal.phase == WorkspaceSyncPending ==> plan.mode in {SwitchTree, PendingTree})
    && ValidDeletion(plan, journal)
  }

  // ---------------------------------------------------------------- what a journal says

  /** The effect left its not-started state. */
  predicate Reached(plan: Plan, journal: Journal, i: nat) {
    i < |plan.effects| && i < |journal.states| && journal.states[i] != NotStarted
  }

  predicate StartedRole(plan: Plan, journal: Journal, role: Role) {
    exists i :: 0 <= i < |plan.effects| && EffectRole(plan.effects[i]) == role && Reached(plan, journal, i)
  }

  /** Every effect that was reached has one of these roles. */
  predicate OnlyRoles(plan: Plan, journal: Journal, roles: set<Role>) {
    forall i :: 0 <= i < |plan.effects| && Reached(plan, journal, i) ==> EffectRole(plan.effects[i]) in roles
  }

  predicate NothingReached(plan: Plan, journal: Journal) {
    forall i :: 0 <= i < |plan.effects| ==> !Reached(plan, journal, i)
  }

  predicate ReachedOutside(plan: Plan, journal: Journal, phases: set<Phase>) {
    exists i :: 0 <= i < |plan.effects| && plan.effects[i].phase !in phases && Reached(plan, journal, i)
  }

  predicate ReachedInside(plan: Plan, journal: Journal, phases: set<Phase>) {
    exists i :: 0 <= i < |plan.effects| && plan.effects[i].phase in phases && Reached(plan, journal, i)
  }

  predicate ResetNeverReopens(plan: Plan) {
    plan.kind == ResetDb && exists e <- plan.effects :: e.mismatch
  }

  /** Retain started and bind not complete: only then may the registered workspace path be absent. */
  predicate InWorkspaceSwitch(plan: Plan, journal: Journal)
    requires |journal.states| == |plan.effects|
  {
    var ids := WorkspaceIds(plan);
    && ids.Some? && journal.phase !in TERMINAL
    && journal.states[ids.value[1]] != NotStarted && journal.states[ids.value[2]] != Complete
  }

  /** An activated, recorded deployment that waits with its workspace effects untouched. */
  predicate IsPendingSwitch(plan: Plan, journal: Journal)
    requires |journal.states| == |plan.effects|
  {
    var ids := WorkspaceIds(plan);
    && plan.kind in SWITCH_KINDS && journal.phase == WorkspaceSyncPending
    && ids.Some? && (forall k :: 0 <= k < 4 ==> journal.states[ids.value[k]] == NotStarted)
    && forall i :: 0 <= i < |plan.effects| ==>
         && (EffectRole(plan.effects[i]) in {BackendRole, FrontendRole, PointerRole} ==> journal.states[i] == Complete)
         && (EffectRole(plan.effects[i]) == SealRole ==> journal.states[i] in {Complete, Partial})
  }

  // ---------------------------------------------------------------- the decision of a resume

  datatype Action = NoAction | Forward | Reopen | Withdraw | Close | StopForOperator

  datatype Resumption = Resumption(action: Action, outcome: Phase, abandonLegal: bool, keepLegal: bool)

  const PRE_DATA := {StagingRole, StopRole, CaptureRole, VerificationRole}

  /** `blocked`: the controller observed an outcome that no automatic continuation can follow. */
  function ResumeDecision(plan: Plan, journal: Journal, blocked: bool): Resumption
    requires |journal.states| == |plan.effects|
  {
    var ids := WorkspaceIds(plan);
    var workspace := StartedRole(plan, journal, WorkspaceRole);
    var keep := && ids.Some?
                && (journal.phase == WorkspaceSyncPending || (workspace && journal.states[ids.value[2]] != Complete));
    var back := if plan.supersedes.Some? then Withdraw else Reopen;
    if journal.phase in TERMINAL then Resumption(NoAction, journal.phase, false, false)
    else if blocked then Resumption(StopForOperator, NeedsOperator, false, false)
    else if journal.phase == WorkspaceSyncPending || workspace then Resumption(Forward, Completed, false, keep)
    else if NothingReached(plan, journal) then Resumption(Close, Cancelled, true, false)
    else if OnlyRoles(plan, journal, {StagingRole}) then Resumption(Close, Cancelled, true, false)
    else match plan.kind
      case AbortDeploy =>
        Resumption(Forward, Completed, !ReachedInside(plan, journal, {Deleting, Finalizing}), false)
      case Deploy => Resumption(Forward, Completed, false, false)
      case RestoreSideBySide => Resumption(Forward, Completed, true, false)
      case Cleanup => Resumption(Forward, Completed, true, false)
      case Backup => Resumption(Forward, Completed, true, false)
      case Purge =>
        if journal.deletion.None? then Resumption(Reopen, Cancelled, true, false)
        else Resumption(Forward, Completed, false, false)
      case RestoreInstance =>
        Resumption(Forward, Completed, !ReachedOutside(plan, journal, {PreparingTarget}), false)
      case Update | Rollback | ResetDb =>
        if OnlyRoles(plan, journal, PRE_DATA) then
          if ResetNeverReopens(plan) then Resumption(Forward, Completed, true, false)
          else Resumption(back, Cancelled, true, false)
        else if OnlyRoles(plan, journal, PRE_DATA + {CandidateRole}) then
          if plan.kind == Update then Resumption(back, Cancelled, true, false)
          else Resumption(Forward, Completed, true, false)
        else Resumption(Forward, Completed, false, false)
  }

  /** An abandon is legal: the declarative form, kind by kind. */
  predicate MayAbandon(plan: Plan, journal: Journal) {
    && journal.phase !in TERMINAL && journal.phase != WorkspaceSyncPending
    && !StartedRole(plan, journal, WorkspaceRole)
    && (|| OnlyRoles(plan, journal, {StagingRole})
        || match plan.kind
           case Backup | Cleanup | RestoreSideBySide => true
           case Deploy => false
           case AbortDeploy => !ReachedInside(plan, journal, {Deleting, Finalizing})
           case Purge => journal.deletion.None?
           case RestoreInstance => !ReachedOutside(plan, journal, {PreparingTarget})
           case Update | Rollback | ResetDb => OnlyRoles(plan, journal, PRE_DATA + {CandidateRole}))
  }

  /** Later in the same operation: effects leave not-started, an approval appears, pending stays or its
      workspace effects start. */
  predicate Later(plan: Plan, before: Journal, after: Journal) {
    && |before.states| == |plan.effects| == |after.states|
    && (forall i :: 0 <= i < |plan.effects| && before.states[i] != NotStarted ==> after.states[i] != NotStarted)
    && (before.deletion.Some? ==> after.deletion.Some?)
    && (before.phase == WorkspaceSyncPending && after.phase !in TERMINAL ==>
          after.phase == WorkspaceSyncPending || StartedRole(plan, after, WorkspaceRole))
    && (before.phase in TERMINAL ==> after.phase in TERMINAL)
  }

  lemma LaterReaches(plan: Plan, before: Journal, after: Journal)
    requires Later(plan, before, after)
    ensures forall i :: 0 <= i < |plan.effects| && Reached(plan, before, i) ==> Reached(plan, after, i)
    ensures forall role :: StartedRole(plan, before, role) ==> StartedRole(plan, after, role)
    ensures forall roles :: OnlyRoles(plan, after, roles) ==> OnlyRoles(plan, before, roles)
    ensures forall phases :: ReachedInside(plan, before, phases) ==> ReachedInside(plan, after, phases)
    ensures forall phases :: ReachedOutside(plan, before, phases) ==> ReachedOutside(plan, after, phases)
  {
  }

  lemma AbandonRule(plan: Plan, journal: Journal)
    requires |journal.states| == |plan.effects|
    ensures ResumeDecision(plan, journal, false).abandonLegal <==> MayAbandon(plan, journal)
  {
    if OnlyRoles(plan, journal, PRE_DATA) {
      assert OnlyRoles(plan, journal, PRE_DATA + {CandidateRole});
    }
    if NothingReached(plan, journal) {
      assert OnlyRoles(plan, journal, {StagingRole});
    }
  }

  /** Once an abandon is illegal it stays illegal, for every kind and plan. */
  lemma AbandonIsAntitone(plan: Plan, before: Journal, after: Journal)
    requires Later(plan, before, after)
    requires !ResumeDecision(plan, before, false).abandonLegal
    ensures !ResumeDecision(plan, after, false).abandonLegal
  {
    AbandonRule(plan, before);
    AbandonRule(plan, after);
    LaterReaches(plan, before, after);
  }

  /** What a resume that does not go forward proves about the deployment. */
  lemma BackwardsMeansUntouched(plan: Plan, journal: Journal)
    requires |journal.states| == |plan.effects|
    ensures var d := ResumeDecision(plan, journal, false);
            d.action in {Close, Reopen, Withdraw} ==>
              && d.abandonLegal && d.outcome == Cancelled
              && (d.action == Withdraw ==> plan.supersedes.Some?)
              && (d.action == Reopen ==> plan.supersedes.None? || plan.kind == Purge)
              && (d.action == Close <==> OnlyRoles(plan, journal, {StagingRole}))
              && (plan.kind in {Rollback, ResetDb} ==> OnlyRoles(plan, journal, PRE_DATA))
              && (plan.kind == Update ==> OnlyRoles(plan, journal, PRE_DATA + {CandidateRole}))
              && (plan.kind == Purge ==> OnlyRoles(plan, journal, {StagingRole}) || journal.deletion.None?)
              && (d.action != Close ==> plan.kind in {Update, Rollback, ResetDb, Purge})
  {
  }

  // ---------------------------------------------------------------- the listed routes

  /** The commands listed to the operator; `ManualRestore` is advice, not a route of the gate. */
  datatype RouteKey =
    | ResumeKey | KeepWorkspaceKey | AbandonKey | RollbackKey | ManualRestore | AbortDeployKey | RestoreInstanceKey
    | CleanupKey | EmergencyBackupKey | PurgeKey | BackupKey

  /** The retained database of a reset whose capture fell back to an emergency preservation is advised for
      a manual restore; `emergency` is what the evidence of the capture says. */
  predicate AdvisesManualRestore(plan: Plan, journal: Journal, emergency: bool) {
    && plan.kind == ResetDb && emergency
    && (exists e <- plan.effects :: e.etype == Capture)
    && exists i :: 0 <= i < |plan.effects| && plan.effects[i].etype == DatabaseSwitch && Reached(plan, journal, i)
                   && forall j :: 0 <= j < i ==> plan.effects[j].etype != DatabaseSwitch
  }

  function Add(routes: seq<RouteKey>, listed: bool, key: RouteKey): (r: seq<RouteKey>)
    ensures forall k :: k in r <==> k in routes || (listed && k == key)
  {
    if listed then routes + [key] else routes
  }

  /** The application was stopped, or the operation needs an operator. */
  predicate ListsRollback(plan: Plan, journal: Journal) {
    && plan.kind in {Update, Rollback, ResetDb}
    && (StartedRole(plan, journal, StopRole) || journal.phase == NeedsOperator)
  }

  function ResumeRoutes(plan: Plan, journal: Journal): seq<RouteKey>
    requires |journal.states| == |plan.effects|
  {
    if journal.phase == NeedsOperator then []
    else
      var decision := ResumeDecision(plan, journal, false);
      Add(Add([ResumeKey], decision.abandonLegal, AbandonKey), decision.keepLegal, KeepWorkspaceKey)
  }

  /** The routes that other commands offer for the kind, after the resume routes. */
  function KindRoutes(plan: Plan, journal: Journal, emergency: bool): seq<RouteKey>
    requires |journal.states| == |plan.effects|
  {
    var routes := Add(Add([], ListsRollback(plan, journal), RollbackKey),
                      AdvisesManualRestore(plan, journal, emergency), ManualRestore);
    var routes := Add(routes, plan.kind == Deploy && !StartedRole(plan, journal, PointerRole), AbortDeployKey);
    var routes := Add(routes, plan.kind == RestoreSideBySide && plan.bundle.Some?, RestoreInstanceKey);
    var routes := Add(routes, plan.kind == Cleanup, CleanupKey);
    var routes := Add(routes, plan.kind in EMERGENCY_KINDS, EmergencyBackupKey);
    var routes := Add(routes, plan.kind == Purge && journal.phase in {Deleting, Finalizing}, PurgeKey);
    var routes := Add(routes, plan.kind == RestoreInstance && plan.bundle.Some?, RestoreInstanceKey);
    var routes := Add(routes, plan.kind == Backup, BackupKey);
    var routes := Add(routes, plan.kind == AbortDeploy, AbortDeployKey);
    Add(routes, IsPendingSwitch(plan, journal), BackupKey)
  }

  function OperationRoutes(plan: Plan, journal: Journal, emergency: bool): seq<RouteKey>
    requires |journal.states| == |plan.effects|
  {
    if journal.phase in CLOSED then []
    else if InWorkspaceSwitch(plan, journal) then [ResumeKey, KeepWorkspaceKey]
    else if AbandonRecorded(plan, journal) then [AbandonKey]
    else ResumeRoutes(plan, journal) + KindRoutes(plan, journal, emergency)
  }

  /** The recorded abandon of a restore-instance is the one operation with a restricted list. */
  predicate AbandonRecorded(plan: Plan, journal: Journal) {
    plan.kind == RestoreInstance && journal.deletion.Some?
  }

  /** A command other than a resume is offered for the kind. */
  predicate OffersKind(plan: Plan, journal: Journal, emergency: bool, key: RouteKey)
    requires |journal.states| == |plan.effects|
  {
    match key
    case ResumeKey | AbandonKey | KeepWorkspaceKey => false
    case RollbackKey => ListsRollback(plan, journal)
    case ManualRestore => AdvisesManualRestore(plan, journal, emergency)
    case AbortDeployKey =>
      (plan.kind == Deploy && !StartedRole(plan, journal, PointerRole)) || plan.kind == AbortDeploy
    case RestoreInstanceKey => plan.kind in {RestoreSideBySide, RestoreInstance} && plan.bundle.Some?
    case CleanupKey => plan.kind == Cleanup
    case EmergencyBackupKey => plan.kind in EMERGENCY_KINDS
    case PurgeKey => plan.kind == Purge && journal.phase in {Deleting, Finalizing}
    case BackupKey => plan.kind == Backup || IsPendingSwitch(plan, journal)
  }

  lemma KindKeys(plan: Plan, journal: Journal, emergency: bool, key: RouteKey)
    requires |journal.states| == |plan.effects|
    ensures key in KindRoutes(plan, journal, emergency) <==> OffersKind(plan, journal, emergency, key)
  {
    hide Add, ListsRollback, EMERGENCY_KINDS, IsPendingSwitch, StartedRole, AdvisesManualRestore;
  }

  /** Inside the workspace switch a resume goes forward and may keep the workspace, and nothing else. */
  lemma SwitchGoesForward(plan: Plan, journal: Journal)
    requires |journal.states| == |plan.effects| && InWorkspaceSwitch(plan, journal)
    ensures ResumeDecision(plan, journal, false) == Resumption(Forward, Completed, false, true)
  {
    var ids := WorkspaceIds(plan).value;
    assert Reached(plan, journal, ids[1]) && EffectRole(plan.effects[ids[1]]) == WorkspaceRole;
  }

  lemma TerminalDecision(plan: Plan, journal: Journal)
    requires |journal.states| == |plan.effects| && journal.phase in TERMINAL
    ensures !ResumeDecision(plan, journal, false).abandonLegal && !ResumeDecision(plan, journal, false).keepLegal
    ensures !InWorkspaceSwitch(plan, journal)
  {
  }

  /** The listed resume commands are the ones that the re-entered operation accepts. */
  lemma ListedResumesAreLegal(plan: Plan, journal: Journal, emergency: bool)
    requires |journal.states| == |plan.effects| && journal.phase !in CLOSED
    requires !AbandonRecorded(plan, journal) || InWorkspaceSwitch(plan, journal)
    ensures AbandonKey in OperationRoutes(plan, journal, emergency) <==>
            ResumeDecision(plan, journal, false).abandonLegal
    ensures KeepWorkspaceKey in OperationRoutes(plan, journal, emergency) <==>
            ResumeDecision(plan, journal, false).keepLegal
    ensures ResumeKey in OperationRoutes(plan, journal, emergency) <==> journal.phase != NeedsOperator
  {
    KindKeys(plan, journal, emergency, AbandonKey);
    KindKeys(plan, journal, emergency, KeepWorkspaceKey);
    KindKeys(plan, journal, emergency, ResumeKey);
    if InWorkspaceSwitch(plan, journal) {
      SwitchGoesForward(plan, journal);
    }
    if journal.phase in TERMINAL {
      TerminalDecision(plan, journal);
    }
    hide ResumeDecision, InWorkspaceSwitch, StartedRole, KindRoutes, AbandonRecorded;
  }

  /** Only the recorded abandon of a restore-instance lists its abandon unconditionally: it is accepted unless
      effects outside the target preparation started. */
  lemma RecordedAbandonIsLegal(plan: Plan, journal: Journal, emergency: bool)
    requires ValidPair(plan, journal) && journal.phase !in CLOSED
    requires AbandonRecorded(plan, journal) && !InWorkspaceSwitch(plan, journal)
    ensures OperationRoutes(plan, journal, emergency) == [AbandonKey]
    ensures ReachedOutside(plan, journal, {PreparingTarget}) || ResumeDecision(plan, journal, false).abandonLegal
  {
    AbandonRule(plan, journal);
    if StartedRole(plan, journal, WorkspaceRole) {
      WorkspaceIsOutside(plan, journal);
    }
    RecordedPhase(plan, journal);
    hide ValidPair, ResumeDecision, InWorkspaceSwitch, StartedRole, KindRoutes, OnlyRoles, ReachedOutside;
  }

  lemma RecordedPhase(plan: Plan, journal: Journal)
    requires ValidPair(plan, journal) && AbandonRecorded(plan, journal) && journal.phase !in CLOSED
    ensures journal.phase == PreparingTarget
  {
  }

  lemma WorkspaceIsOutside(plan: Plan, journal: Journal)
    requires ValidPair(plan, journal) && StartedRole(plan, journal, WorkspaceRole)
    ensures ReachedOutside(plan, journal, {PreparingTarget})
  {
  }
}
