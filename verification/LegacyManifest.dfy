/** Old checkpoint manifests: the migration to the recovery manifest of schema 1, and the independent rules that
    every recovery manifest must meet. */
module LegacyManifest {
  import opened Wrappers

  // ---------------------------------------------------------------- the recovery manifest

  datatype PayloadType =
    | SourceArchive | WorkspaceArchive | DatabaseDump | DatabaseList | PostgresGlobals | CheckpointHistory
    | ImageArchive | ConfigEnv | AdminConfig | StateFile | DeploymentRecord | ComposeResolved

  /** The names that an old checksum map may list; any other name has no payload type. */
  datatype Path =
    | SourceTar | WorkspaceTar | DumpFile | ListFile | GlobalsSql | HistoryTar | ImagesTar | EnvFile | ConfigFile
    | DatabaseFile(name: string, isDump: bool) | StatePath(name: string) | OtherPath(text: string)

  datatype Payload = Payload(path: Path, ptype: PayloadType, size: int, digest: string, store: Option<string>,
                             sensitive: bool)

  datatype Role = Active | Retained

  /** `extras` stands for locale, extensions and row counts, which an old manifest never recorded. */
  datatype Store = Store(id: string, database: string, role: Role, owner: Option<string>, heads: set<string>,
                         dump: Path, list: Option<Path>, extras: Option<Extras>, group: string)

  datatype Extras = Extras(rowCounts: bool)

  datatype Claim = TransactionalSingleStore | WritersStopped | NoClaim

  datatype Group = Group(id: string, stores: seq<string>, claim: Claim)

  datatype Image = Image(platform: Option<string>, archived: bool)

  datatype Service = Backend | Frontend | Db

  datatype BundleKind = Checkpoint | PurgeBundle

  datatype CaptureClass = Healthy | Emergency | PartialCapture

  datatype Origin = DeploymentArtifact | ProtectedStore | WorkspaceProven | WorkspaceUnverified | LegacyClaim | NoOrigin

  datatype Source = Source(gitCommit: bool, commit: Option<string>, remote: Option<string>, origin: Origin,
                           payload: Option<Path>, entriesHashed: bool)

  datatype Quiescence = Quiescence(writersStopped: bool, bothStopped: bool)

  datatype Reason = LegacyReason | EmergencyReason | OtherReason

  datatype Excluded = ExcludedRecord | ExcludedImage(service: Service) | ExcludedSource | ExcludedMigrations
                    | ExcludedEnv
                    | ExcludedOther(text: string)

  datatype Limitation =
    | NoVerification | Provenance | SourceInstance | Producer | Quiescent | ServerVersion | Roles | LocaleExtensions
    | RetainedHeads | MigrationFiles | FormatOneEnv

  datatype LegacySection = LegacySection(format: int, limitations: seq<Limitation>)

  datatype Manifest = Manifest(
    kind: BundleKind, class_: CaptureClass, reason: Reason, instanceKnown: bool, producer: bool,
    quiescence: Option<Quiescence>, source: Source, deployment: bool, images: map<Service, Image>,
    serverVersion: bool, dbImage: bool, roles: nat, stores: seq<Store>, groups: seq<Group>, headsLive: set<string>,
    headsImage: Option<set<string>>, migrationFiles: map<string, string>, mismatch: bool, payloads: seq<Payload>,
    workspacePayload: Option<Path>, unsupported: nat, exclusions: seq<Excluded>, prerequisites: nat,
    derivedFrom: bool, purge: bool, legacy: Option<LegacySection>)

  const EMPTY_DIGEST := "e3b0c44298fc1c149afbf4c8996fb92427ae41e4649b934ca495991b7852b855"

  const SENSITIVE := {ConfigEnv, AdminConfig, PostgresGlobals, StateFile, DeploymentRecord, ComposeResolved}

  const FORBIDDEN_IN_CHECKPOINT := {ConfigEnv, AdminConfig, ComposeResolved, DeploymentRecord, PostgresGlobals}

  const REQUIRED_LIMITATIONS := {NoVerification, Provenance, Producer, Quiescent, ServerVersion, Roles,
      LocaleExtensions}

  // ---------------------------------------------------------------- the rules of every manifest

  predicate Excludes(m: Manifest, e: Excluded) {
    e in m.exclusions
  }

  predicate HasType(m: Manifest, t: PayloadType) {
    exists p <- m.payloads :: p.ptype == t
  }

  predicate Lists(m: Manifest, path: Path, t: PayloadType) {
    exists p <- m.payloads :: p.path == path && p.ptype == t
  }

  /** Rule 12: bounded arrays. */
  predicate Bounded(m: Manifest) {
    && |m.stores| <= 256 && m.roles <= 1024 && |m.exclusions| <= 256 && m.prerequisites <= 64 && |m.groups| <= 256
    && |m.payloads| <= 4096 && |m.migrationFiles| <= 20000 && |m.headsLive| <= 16 && m.unsupported <= 200
    && (forall s <- m.stores :: |s.heads| <= 16)
    && (m.headsImage.Some? ==> |m.headsImage.value| <= 16)
  }

  predicate PayloadOk(m: Manifest, p: Payload) {
    && (p.ptype != StateFile ==> p.size >= 1)
    && (p.ptype in {DatabaseDump, SourceArchive, ImageArchive} ==> p.digest != EMPTY_DIGEST)
    && (p.ptype in SENSITIVE || (m.legacy.Some? && m.legacy.value.format == 1 && p.ptype == SourceArchive) ==>
       p.sensitive)
  }

  /** Rule 1: the payload inventory. */
  predicate PayloadsOk(m: Manifest) {
    && m.payloads != []
    && (forall i, j :: 0 <= i < j < |m.payloads| ==> m.payloads[i].path != m.payloads[j].path)
    && forall p <- m.payloads :: PayloadOk(m, p)
  }

  predicate PayloadOfStore(m: Manifest, s: Store, path: Path, t: PayloadType) {
    exists p <- m.payloads :: p.path == path && p.ptype == t && p.store == Some(s.id)
  }

  predicate References(s: Store, path: Path) {
    s.dump == path || s.list == Some(path)
  }

  predicate StoreOk(m: Manifest, s: Store) {
    && s.id == "postgresql:" + s.database
    && PayloadOfStore(m, s, s.dump, DatabaseDump)
    && (s.list.Some? ==> PayloadOfStore(m, s, s.list.value, DatabaseList))
    && (s.extras.Some? && s.extras.value.rowCounts ==> m.quiescence.Some? && m.quiescence.value.writersStopped)
  }

  /** Rule 2: stores and their payloads name each other. */
  predicate StoresOk(m: Manifest) {
    && m.stores != []
    && (forall i, j :: 0 <= i < j < |m.stores| ==> m.stores[i].id != m.stores[j].id)
    && (forall s <- m.stores :: StoreOk(m, s))
    && (forall p <- m.payloads ::
          if p.ptype in {DatabaseDump, DatabaseList} then
            p.store.Some? && exists s <- m.stores :: s.id == p.store.value && References(s, p.path)
          else p.store.None?)
    && (m.source.payload.Some? ==> Lists(m, m.source.payload.value, SourceArchive))
    && (m.workspacePayload.Some? ==> Lists(m, m.workspacePayload.value, WorkspaceArchive))
  }

  /** Rules 3 and 9: one active store, one group for each store, and what the groups may claim. */
  predicate GroupsOk(m: Manifest) {
    && (exists i :: 0 <= i < |m.stores| && m.stores[i].role == Active
                    && forall j :: 0 <= j < |m.stores| && m.stores[j].role == Active ==> j == i)
    && (forall i, j :: 0 <= i < j < |m.groups| ==> m.groups[i].id != m.groups[j].id)
    && (forall g <- m.groups :: forall id <- g.stores :: exists s <- m.stores :: s.id == id)
    && (forall s <- m.stores ::
          && (exists g <- m.groups :: g.id == s.group && s.id in g.stores)
          && forall g <- m.groups :: s.id in g.stores ==> g.id == s.group)
    && (m.quiescence.Some? ==> m.quiescence.value.writersStopped == m.quiescence.value.bothStopped)
    && forall g <- m.groups ::
         && (g.claim == NoClaim <==> m.legacy.Some?)
         && (g.claim == TransactionalSingleStore ==> |g.stores| == 1)
         && (g.claim != NoClaim && |g.stores| > 1 ==> g.claim == WritersStopped)
         && (g.claim == WritersStopped ==> m.quiescence.Some? && m.quiescence.value.writersStopped)
  }

  /** A missing artifact is stood for by an exclusion. */
  predicate MissingOk(m: Manifest) {
    && (forall s: Service :: s !in m.images ==> Excludes(m, ExcludedImage(s)))
    && (m.source.payload.None? ==> Excludes(m, ExcludedSource))
  }

  /** Rules 4 to 6: what each capture class promises. */
  predicate ClassOk(m: Manifest) {
    match m.class_
    case Healthy =>
      && !m.mismatch && Backend in m.images && Frontend in m.images
      && if m.legacy.None? then
           && Db in m.images && (forall s <- m.images :: m.images[s].platform.Some?)
           && m.headsImage == Some(m.headsLive)
           && m.source.origin in {DeploymentArtifact, ProtectedStore, WorkspaceProven}
           && (m.deployment || Excludes(m, ExcludedRecord))
           && (m.kind == Checkpoint ==> m.migrationFiles != map[])
         else
           && Db !in m.images && Excludes(m, ExcludedImage(Db)) && m.headsImage.None?
           && m.source.origin == LegacyClaim && !m.deployment && Excludes(m, ExcludedRecord)
           && (m.kind == Checkpoint ==> m.migrationFiles != map[] && m.legacy.value.format == 2)
    case Emergency =>
      && m.kind == Checkpoint && (forall s <- m.stores :: s.list.Some?)
      && (m.legacy.None? ==> m.reason == EmergencyReason)
    case PartialCapture =>
      && m.kind != PurgeBundle
      && ((exists s: Service :: Excludes(m, ExcludedImage(s))) || Excludes(m, ExcludedSource)
          || Excludes(m, ExcludedMigrations))
  }

  /** Rules 7 and 8: what a bundle of each kind holds. */
  predicate KindOk(m: Manifest) {
    match m.kind
    case Checkpoint =>
      && !m.purge && !m.derivedFrom
      && (forall p <- m.payloads :: p.ptype !in FORBIDDEN_IN_CHECKPOINT)
      && forall s <- m.images :: !m.images[s].archived
    case PurgeBundle =>
      && m.class_ == Healthy && m.purge && m.derivedFrom
      && HasType(m, SourceArchive) && HasType(m, PostgresGlobals) && HasType(m, CheckpointHistory)
      && HasType(m, ImageArchive)
      && (forall s <- m.images :: s != Db ==> m.images[s].archived)
      && if m.legacy.None? then
           && HasType(m, ConfigEnv)
           && ((HasType(m, DeploymentRecord) && HasType(m, ComposeResolved)) || Excludes(m, ExcludedRecord))
           && (Db in m.images ==> m.images[Db].archived)
           && m.quiescence.Some? && m.quiescence.value.writersStopped
           && |m.groups| == 1 && m.groups[0].claim == WritersStopped
           && multiset(m.groups[0].stores)
              == multiset(seq(|m.stores|, i requires 0 <= i < |m.stores| => m.stores[i].id))
           && forall s <- m.stores :: s.extras.Some? && s.extras.value.rowCounts
         else
           && (HasType(m, ConfigEnv)
               || (m.legacy.value.format == 1 && Excludes(m, ExcludedEnv)
                  && FormatOneEnv in m.legacy.value.limitations))
           && !HasType(m, DeploymentRecord) && !HasType(m, ComposeResolved) && Excludes(m, ExcludedRecord)
           && Db !in m.images && Excludes(m, ExcludedImage(Db))
  }

  /** Rule 10: provenance and origin of the source. */
  predicate SourceOk(m: Manifest) {
    var s := m.source;
    && (s.gitCommit <==> s.commit.Some? && s.remote.Some?)
    && (!s.gitCommit ==> s.commit.None?)
    && (s.origin in {WorkspaceUnverified, LegacyClaim} ==> !s.gitCommit)
    && (s.origin == NoOrigin <==> s.payload.None?)
    && (s.origin == LegacyClaim <==> m.legacy.Some?)
    && (s.entriesHashed <==> s.origin in {DeploymentArtifact, ProtectedStore, WorkspaceProven, WorkspaceUnverified})
  }

  /** Rule 11: what an old manifest cannot know, and what a new one must. */
  predicate KnowledgeOk(m: Manifest) {
    && (m.legacy.Some? <==> m.reason == LegacyReason)
    && match m.legacy
       case Some(legacy) =>
         && (forall l <- REQUIRED_LIMITATIONS :: l in legacy.limitations)
         && (!m.instanceKnown ==> SourceInstance in legacy.limitations)
         && !m.source.gitCommit && !m.producer && m.quiescence.None? && !m.serverVersion && !m.dbImage && m.roles == 0
         && forall s <- m.stores :: s.extras.None?
       case None =>
         && m.producer && m.quiescence.Some? && m.serverVersion && m.dbImage && m.instanceKnown
         && forall s <- m.stores :: s.owner.Some? && s.extras.Some?
  }

  /** No rule has a finding. */
  predicate Valid(m: Manifest) {
    && Bounded(m) && PayloadsOk(m) && StoresOk(m) && GroupsOk(m) && MissingOk(m) && ClassOk(m) && KindOk(m)
    && SourceOk(m) && KnowledgeOk(m)
  }

  // ---------------------------------------------------------------- old checkpoint manifests

  function PayloadTypeFor(path: Path): Option<PayloadType> {
    match path
    case SourceTar => Some(SourceArchive)
    case WorkspaceTar => Some(WorkspaceArchive)
    case DumpFile => Some(DatabaseDump)
    case ListFile => Some(DatabaseList)
    case GlobalsSql => Some(PostgresGlobals)
    case HistoryTar => Some(CheckpointHistory)
    case ImagesTar => Some(ImageArchive)
    case EnvFile => Some(ConfigEnv)
    case ConfigFile => Some(AdminConfig)
    case DatabaseFile(_, isDump) => Some(if isDump then DatabaseDump else DatabaseList)
    case StatePath(_) => Some(StateFile)
    case OtherPath(_) => None
  }

  const PURGE_ONLY := {PostgresGlobals, CheckpointHistory, ImageArchive, ConfigEnv, AdminConfig, StateFile}

  /** One entry of the checksum map; no digest when it is malformed, no size when it was not verified. */
  datatype Sum = Sum(path: Path, digest: Option<string>, size: Option<nat>)

  /** An old checkpoint manifest as parsed: `wellFormed` stands for the fields whose grammar only is checked, an
      absent or malformed optional field is None. `verified` and `restored` say that the manifest claims a verified
      source and a passed restore test, `rescue` that it was taken before a rollback. */
  datatype Legacy = Legacy(format: int, wellFormed: bool, sums: seq<Sum>, database: string, owner: Option<string>,
                           heads: set<string>, images: map<Service, Image>, workspaceArchive: Option<Path>,
                           migrationFiles: Option<map<string, string>>, rescue: bool, verified: bool, restored: bool)

  predicate DistinctSums(l: Legacy) {
    forall i, j :: 0 <= i < j < |l.sums| ==> l.sums[i].path != l.sums[j].path
  }

  predicate HasPath(l: Legacy, path: Path) {
    exists s <- l.sums :: s.path == path
  }

  /** A sum that a checkpoint may list. */
  predicate SumOk(s: Sum) {
    && PayloadTypeFor(s.path).Some? && PayloadTypeFor(s.path).value !in PURGE_ONLY && s.digest.Some? && s.size.Some?
    && !s.path.DatabaseFile?
  }

  /** What the migration refuses is everything else. */
  predicate Migratable(l: Legacy) {
    && l.format in {1, 2} && l.wellFormed && l.sums != [] && (forall s <- l.sums :: SumOk(s))
    && HasPath(l, SourceTar) && HasPath(l, DumpFile) && |l.heads| <= 16
    && (l.workspaceArchive.Some? ==> l.workspaceArchive == Some(WorkspaceTar) && HasPath(l, WorkspaceTar))
    && (l.format == 2 ==> l.migrationFiles.Some?)
  }

  function StoreId(l: Legacy): string {
    "postgresql:" + l.database
  }

  function PayloadOf(l: Legacy, s: Sum): Payload
    requires SumOk(s)
  {
    var t := PayloadTypeFor(s.path).value;
    Payload(s.path, t, s.size.value, s.digest.value, if s.path in {DumpFile, ListFile} then Some(StoreId(l)) else None,
            t in SENSITIVE || (l.format == 1 && t == SourceArchive))
  }

  function StoreOf(l: Legacy): Store {
    Store(StoreId(l), l.database, Active, l.owner, l.heads, DumpFile,
          if HasPath(l, ListFile) then Some(ListFile) else None, None, "legacy")
  }

  function ImagesOf(l: Legacy): map<Service, Image> {
    map s | s in l.images && s != Db :: Image(None, false)
  }

  function ExclusionsOf(l: Legacy): seq<Excluded> {
    [ExcludedRecord, ExcludedImage(Db)]
    + (if Backend in l.images then [] else [ExcludedImage(Backend)])
    + (if Frontend in l.images then [] else [ExcludedImage(Frontend)])
    + if l.format == 2 then [] else [ExcludedMigrations]
  }

  function LimitationsOf(l: Legacy): seq<Limitation> {
    [NoVerification, Provenance, SourceInstance, Producer, Quiescent, ServerVersion, Roles, LocaleExtensions]
    + if l.format == 2 then [] else [MigrationFiles]
  }

  function MigrationOf(l: Legacy): map<string, string> {
    if l.format == 2 && l.migrationFiles.Some? then l.migrationFiles.value else map[]
  }

  function ClassOf(l: Legacy): CaptureClass {
    var listed, migration := HasPath(l, ListFile), MigrationOf(l) != map[];
    if l.format == 2 && !l.rescue && l.verified && l.restored && listed && Backend in l.images && Frontend in l.images
       && migration then Healthy
    else if listed && (l.rescue || !l.verified) && migration then Emergency
    else PartialCapture
  }

  function Migrated(l: Legacy, payloads: seq<Payload>): Manifest {
    Manifest(Checkpoint, ClassOf(l), LegacyReason, false, false, None,
             Source(false, None, None, LegacyClaim, Some(SourceTar), false), false, ImagesOf(l), false, false, 0,
             [StoreOf(l)], [Group("legacy", [StoreId(l)], NoClaim)], l.heads, None, MigrationOf(l), false, payloads,
             l.workspaceArchive, 0, ExclusionsOf(l), 2, false, false, Some(LegacySection(l.format, LimitationsOf(l))))
  }

  /** The migration as it runs: refuse what is missing or malformed, then build the payloads. */
  method MigrateCheckpoint(l: Legacy) returns (r: Result<Manifest>)
    ensures r.Ok? <==> Migratable(l)
    ensures r.Ok? ==> |r.value.payloads| == |l.sums| && r.value == Migrated(l, r.value.payloads)
    ensures r.Ok? ==> forall i :: 0 <= i < |l.sums| ==> r.value.payloads[i] == PayloadOf(l, l.sums[i])
  {
    if l.format !in {1, 2} || !l.wellFormed || l.sums == [] {
      return Error;
    }
    var payloads := [];
    for i := 0 to |l.sums|
      invariant forall k :: 0 <= k < i ==> SumOk(l.sums[k])
      invariant |payloads| == i && forall k :: 0 <= k < i ==> payloads[k] == PayloadOf(l, l.sums[k])
    {
      var sum := l.sums[i];
      assert sum in l.sums;
      if PayloadTypeFor(sum.path).None? || sum.digest.None? || sum.size.None? {
        return Error;
      }
      if PayloadTypeFor(sum.path).value in PURGE_ONLY || sum.path.DatabaseFile? {
        return Error;
      }
      payloads := payloads + [PayloadOf(l, sum)];
    }
    if !HasPath(l, SourceTar) || !HasPath(l, DumpFile) || |l.heads| > 16 {
      return Error;
    }
    if l.workspaceArchive.Some? && (l.workspaceArchive.value != WorkspaceTar || !HasPath(l, WorkspaceTar)) {
      return Error;
    }
    if l.format == 2 && l.migrationFiles.None? {
      return Error;
    }
    r := Ok(Migrated(l, payloads));
  }

  // ---------------------------------------------------------------- the migration meets the rules

  /** What the migration does not look at and the rules do. */
  predicate SoundSums(l: Legacy) {
    (forall s <- l.sums :: SumSound(s)) && |MigrationOf(l)| <= 20000
  }

  /** Not empty, and for the source and the dump not the digest of an empty file. */
  predicate SumSound(s: Sum) {
    s.size != Some(0) && (s.path in {SourceTar, DumpFile} ==> s.digest != Some(EMPTY_DIGEST))
  }

  predicate PayloadsFrom(l: Legacy, payloads: seq<Payload>) {
    && Migratable(l) && |payloads| == |l.sums|
    && forall i :: 0 <= i < |l.sums| ==> payloads[i] == PayloadOf(l, l.sums[i])
  }

  lemma FewSums(l: Legacy)
    requires DistinctSums(l) && forall s <- l.sums :: SumOk(s)
    ensures |l.sums| <= 4
  {
    var paths := set s <- l.sums :: s.path;
    assert paths <= {SourceTar, WorkspaceTar, DumpFile, ListFile} by {
      forall s | s in l.sums ensures s.path in {SourceTar, WorkspaceTar, DumpFile, ListFile} {
        assert SumOk(s);
      }
    }
    DistinctCount(l.sums);
    Subset(paths, {SourceTar, WorkspaceTar, DumpFile, ListFile});
  }

  lemma {:induction false} DistinctCount(sums: seq<Sum>)
    requires forall i, j :: 0 <= i < j < |sums| ==> sums[i].path != sums[j].path
    ensures |set s <- sums :: s.path| == |sums|
  {
    if sums != [] {
      var front, last := sums[..|sums| - 1], sums[|sums| - 1];
      DistinctCount(front);
      assert (set s <- sums :: s.path) == (set s <- front :: s.path) + {last.path};
    }
  }

  lemma {:induction false} Subset<T>(a: set<T>, b: set<T>)
    requires a <= b
    ensures |a| <= |b|
    decreases b
  {
    if a != {} {
      var x :| x in a;
      Subset(a - {x}, b - {x});
    }
  }

  lemma PayloadAt(l: Legacy, payloads: seq<Payload>, path: Path) returns (i: nat)
    requires PayloadsFrom(l, payloads) && HasPath(l, path)
    ensures i < |payloads| && payloads[i] in payloads && l.sums[i].path == path
    ensures payloads[i] == PayloadOf(l, l.sums[i])
  {
    i :| 0 <= i < |l.sums| && l.sums[i].path == path;
  }

  lemma PayloadRule(l: Legacy, payloads: seq<Payload>, i: nat)
    requires PayloadsFrom(l, payloads) && i < |payloads|
    ensures PayloadOk(Migrated(l, payloads), payloads[i]) <==> SumSound(l.sums[i])
    ensures payloads[i].ptype !in FORBIDDEN_IN_CHECKPOINT && payloads[i].path == l.sums[i].path
  {
    hide ClassOf, ExclusionsOf, LimitationsOf, MigrationOf, ImagesOf, StoreOf, EMPTY_DIGEST;
    assert SumOk(l.sums[i]) && payloads[i] == PayloadOf(l, l.sums[i]);
  }

  lemma PayloadRules(l: Legacy, payloads: seq<Payload>)
    requires PayloadsFrom(l, payloads) && DistinctSums(l)
    ensures PayloadsOk(Migrated(l, payloads)) && |MigrationOf(l)| <= 20000 <==> SoundSums(l)
    ensures forall p <- payloads :: p.ptype !in FORBIDDEN_IN_CHECKPOINT
  {
    assert |payloads| == |l.sums| && l.sums != [];
    hide PayloadOk, SumSound, PayloadsFrom, MigrationOf;
    var m := Migrated(l, payloads);
    forall i | 0 <= i < |payloads|
      ensures PayloadOk(m, payloads[i]) <==> SumSound(l.sums[i])
      ensures payloads[i].ptype !in FORBIDDEN_IN_CHECKPOINT && payloads[i].path == l.sums[i].path
    {
      PayloadRule(l, payloads, i);
    }
    if PayloadsOk(m) {
      forall s | s in l.sums ensures SumSound(s) {
        var i :| 0 <= i < |l.sums| && l.sums[i] == s;
        assert payloads[i] in m.payloads;
      }
    }
  }

  lemma StorePayloads(l: Legacy, payloads: seq<Payload>)
    requires PayloadsFrom(l, payloads)
    ensures var m, store := Migrated(l, payloads), StoreOf(l);
            && PayloadOfStore(m, store, DumpFile, DatabaseDump)
            && (store.list.Some? ==> PayloadOfStore(m, store, ListFile, DatabaseList))
            && Lists(m, SourceTar, SourceArchive)
            && (l.workspaceArchive.Some? ==> Lists(m, WorkspaceTar, WorkspaceArchive))
  {
    hide ClassOf, ExclusionsOf, LimitationsOf, MigrationOf, ImagesOf, EMPTY_DIGEST;
    var m, store := Migrated(l, payloads), StoreOf(l);
    var dump := PayloadAt(l, payloads, DumpFile);
    var source := PayloadAt(l, payloads, SourceTar);
    if HasPath(l, ListFile) {
      var list := PayloadAt(l, payloads, ListFile);
    }
    if l.workspaceArchive.Some? {
      var workspace := PayloadAt(l, payloads, WorkspaceTar);
    }
  }

  lemma PayloadReferenced(l: Legacy, payloads: seq<Payload>, p: Payload)
    requires PayloadsFrom(l, payloads) && p in payloads
    ensures if p.ptype in {DatabaseDump, DatabaseList} then p.store == Some(StoreId(l))
              && References(StoreOf(l), p.path)
            else p.store.None?
  {
    hide StoreId;
    var i :| 0 <= i < |payloads| && payloads[i] == p;
    assert SumOk(l.sums[i]) && l.sums[i] in l.sums;
  }

  lemma StoreRules(l: Legacy, payloads: seq<Payload>)
    requires PayloadsFrom(l, payloads)
    ensures StoresOk(Migrated(l, payloads))
  {
    hide PayloadsFrom, PayloadOfStore, Lists, References, ClassOf, ExclusionsOf, LimitationsOf, MigrationOf, ImagesOf;
    assert l.workspaceArchive.Some? ==> l.workspaceArchive.value == WorkspaceTar by {
      ArchiveIs(l, payloads);
    }
    var m, store := Migrated(l, payloads), StoreOf(l);
    StorePayloads(l, payloads);
    assert m.stores == [store] && store in m.stores;
    forall p | p in payloads
      ensures if p.ptype in {DatabaseDump, DatabaseList} then p.store == Some(store.id) && References(store, p.path)
              else p.store.None?
    {
      PayloadReferenced(l, payloads, p);
    }
  }

  lemma ArchiveIs(l: Legacy, payloads: seq<Payload>)
    requires PayloadsFrom(l, payloads)
    ensures l.workspaceArchive in {None, Some(WorkspaceTar)}
  {
  }

  lemma GroupRules(l: Legacy, payloads: seq<Payload>)
    ensures GroupsOk(Migrated(l, payloads))
  {
    hide ClassOf, ExclusionsOf, LimitationsOf, MigrationOf, ImagesOf;
    var m := Migrated(l, payloads);
    assert m.stores[0].role == Active && m.stores[0] in m.stores;
    assert m.groups[0].id == "legacy" && m.groups[0] in m.groups && StoreId(l) in m.groups[0].stores;
  }

  lemma ExclusionsAre(l: Legacy)
    ensures var excluded := ExclusionsOf(l);
            && |excluded| <= 5 && ExcludedRecord in excluded && ExcludedImage(Db) in excluded
            && (Backend !in l.images ==> ExcludedImage(Backend) in excluded)
            && (Frontend !in l.images ==> ExcludedImage(Frontend) in excluded)
  {
    assert ExclusionsOf(l)[0] == ExcludedRecord && ExclusionsOf(l)[1] == ExcludedImage(Db);
  }

  lemma MissingRules(l: Legacy, payloads: seq<Payload>)
    ensures MissingOk(Migrated(l, payloads))
  {
    hide ClassOf, ExclusionsOf, LimitationsOf, MigrationOf, StoreOf;
    ExclusionsAre(l);
    forall s: Service | s !in ImagesOf(l) ensures ExcludedImage(s) in ExclusionsOf(l) {
      assert s == Db || s == Backend || s == Frontend;
    }
  }

  lemma ClassRules(l: Legacy, payloads: seq<Payload>)
    ensures ClassOk(Migrated(l, payloads))
  {
    hide ExclusionsOf, LimitationsOf;
    ExclusionsAre(l);
    var m := Migrated(l, payloads);
    assert Excludes(m, ExcludedImage(Db)) && Excludes(m, ExcludedRecord);
  }

  lemma KindRules(l: Legacy, payloads: seq<Payload>)
    requires forall p <- payloads :: p.ptype !in FORBIDDEN_IN_CHECKPOINT
    ensures KindOk(Migrated(l, payloads)) && SourceOk(Migrated(l, payloads))
  {
    hide ClassOf, ExclusionsOf, LimitationsOf, MigrationOf, StoreOf;
  }

  lemma KnowledgeRules(l: Legacy, payloads: seq<Payload>)
    ensures KnowledgeOk(Migrated(l, payloads))
  {
    hide ClassOf, ExclusionsOf, MigrationOf, ImagesOf;
    var known := [NoVerification, Provenance, SourceInstance, Producer, Quiescent, ServerVersion, Roles,
        LocaleExtensions];
    assert known[0] == NoVerification && known[1] == Provenance && known[2] == SourceInstance && known[3] == Producer
        && known[4] == Quiescent && known[5] == ServerVersion && known[6] == Roles && known[7] == LocaleExtensions;
    assert forall x <- known :: x in LimitationsOf(l);
  }

  lemma BoundRules(l: Legacy, payloads: seq<Payload>)
    requires |payloads| <= 4 && |l.heads| <= 16
    ensures Bounded(Migrated(l, payloads)) <==> |MigrationOf(l)| <= 20000
  {
    hide ClassOf, ExclusionsOf, LimitationsOf, MigrationOf, ImagesOf;
    ExclusionsAre(l);
  }

  /** A migrated checkpoint manifest meets every rule exactly when its payloads are not empty, its source and its
      dump are not the empty file, and it lists at most 20000 migration files: for each of the three classes. */
  lemma MigrationMeetsRules(l: Legacy, payloads: seq<Payload>)
    requires PayloadsFrom(l, payloads) && DistinctSums(l)
    ensures Valid(Migrated(l, payloads)) <==> SoundSums(l)
  {
    FewSums(l);
    assert |l.heads| <= 16;
    hide Bounded, PayloadsOk, StoresOk, GroupsOk, MissingOk, ClassOk, KindOk, SourceOk, KnowledgeOk, SoundSums,
         Migratable, PayloadOf, Migrated;
    BoundRules(l, payloads);
    PayloadRules(l, payloads);
    StoreRules(l, payloads);
    GroupRules(l, payloads);
    MissingRules(l, payloads);
    ClassRules(l, payloads);
    KindRules(l, payloads);
    KnowledgeRules(l, payloads);
  }
}
