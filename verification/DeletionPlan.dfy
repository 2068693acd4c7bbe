/** What a purge may delete: the resources of the daemon are classified, the closed deletion plan is built from
    the classes, and a later plan is compared with it. */
module DeletionPlan {
  import opened Wrappers

  type Id = string

  datatype Mount = VolumeMount(name: string) | BindMount(source: string) | OtherMount

  /** A network that a container joined, by name and, when the daemon tells it, by identity. */
  datatype Join = Join(name: string, id: Option<Id>)

  /** `claim` and `project` are the instance and Compose project labels; `marked` says that the service label and
      the container markers are the ones of a Compose container of the topology. */
  datatype Container = Container(id: Id, claim: Option<string>, project: Option<string>, marked: bool,
                                 mounts: seq<Mount>, joins: seq<Join>, image: Id, configImage: string)

  /** A volume or a network; `key` is the Compose volume or network label. */
  datatype Store = Store(name: string, id: Id, claim: Option<string>, project: Option<string>, key: Option<string>,
                         local: bool)

  datatype Tag = Tag(reference: string, id: Id, claim: Option<string>, grammar: bool)

  datatype Host = Host(containers: seq<Container>, volumes: seq<Store>, networks: seq<Store>, tags: seq<Tag>)

  /** The instance and the names of its one volume and one network. */
  datatype Scope = Scope(project: string, instance: string, volume: string, network: string)

  datatype Kind = ContainerKind | VolumeKind | NetworkKind | ImageKind | BindKind

  datatype Class =
    | Owned | LabelConflict | LegacyUnlabeled | ForeignClaim | UnsupportedDriver | NameCollision | Shared
    | OutsideTopology | Reference | BindRetained | Unlabelled | Grammar | ForeignInUse

  predicate Blocks(c: Class) {
    c in {LabelConflict, LegacyUnlabeled, ForeignClaim, UnsupportedDriver, NameCollision, Shared}
  }

  datatype Resource = Resource(kind: Kind, key: string, cls: Class, users: set<Id>, image: Id)

  datatype Inventory = Inventory(owned: seq<Resource>, excluded: seq<Resource>, blockers: seq<Resource>)

  /** No two resources of one kind share their key. */
  predicate Distinct(h: Host) {
    && (forall i, j :: 0 <= i < j < |h.containers| ==> h.containers[i].id != h.containers[j].id)
    && (forall i, j :: 0 <= i < j < |h.volumes| ==> h.volumes[i].name != h.volumes[j].name)
    && (forall i, j :: 0 <= i < j < |h.networks| ==> h.networks[i].name != h.networks[j].name)
    && (forall i, j :: 0 <= i < j < |h.tags| ==> h.tags[i].reference != h.tags[j].reference)
  }

  // ---------------------------------------------------------------- classes

  function ContainerClass(s: Scope, c: Container): Option<Class> {
    if c.claim == Some(s.instance) then
      Some(if c.project == Some(s.project) && c.marked then Owned else LabelConflict)
    else if c.project == Some(s.project) then
      Some(if c.claim.None? then LegacyUnlabeled else ForeignClaim)
    else None
  }

  predicate OwnContainer(s: Scope, c: Container) {
    ContainerClass(s, c) == Some(Owned)
  }

  predicate Mounts(c: Container, name: string) {
    name != "" && VolumeMount(name) in c.mounts
  }

  predicate Joined(c: Container, n: Store) {
    exists j <- c.joins :: j.name == n.name || j.id == Some(n.id)
  }

  /** The volume and network rules: by topology name first, then by the instance label. */
  function StoreClass(s: Scope, topology: string, composeKey: string, v: Store, foreignUser: bool): Option<Class> {
    if v.name == topology then
      Some(if !v.local then UnsupportedDriver
           else if v.claim.None? then (if v.project == Some(s.project) then LegacyUnlabeled else NameCollision)
           else if v.claim != Some(s.instance) then ForeignClaim
           else if v.project != Some(s.project) || v.key != Some(composeKey) then LabelConflict
           else if foreignUser then Shared
           else Owned)
    else if v.claim == Some(s.instance) then Some(OutsideTopology)
    else None
  }

  function TagClass(s: Scope, t: Tag, foreignUse: bool): Class {
    if t.claim != Some(s.instance) then Unlabelled
    else if !t.grammar then Grammar
    else if foreignUse then ForeignInUse
    else Owned
  }

  // ---------------------------------------------------------------- who uses what

  function VolumeUsers(h: Host, name: string): set<Id> {
    set c <- h.containers | Mounts(c, name) :: c.id
  }

  function NetworkUsers(h: Host, n: Store): set<Id> {
    set c <- h.containers | Joined(c, n) :: c.id
  }

  function OwnIds(s: Scope, h: Host): set<Id> {
    set c <- h.containers | OwnContainer(s, c) :: c.id
  }

  /** A container that is not owned was created from the tag or runs its image. */
  predicate ForeignUse(s: Scope, h: Host, t: Tag) {
    exists c <- h.containers :: !OwnContainer(s, c) && (c.configImage == t.reference || c.image == t.id)
  }

  function VolumeResource(s: Scope, h: Host, v: Store): Option<Resource> {
    var users := VolumeUsers(h, v.name);
    match StoreClass(s, s.volume, "postgres_data", v, !(users <= OwnIds(s, h)))
    case None => None
    case Some(cls) => Some(Resource(VolumeKind, v.name, cls, users, ""))
  }

  function NetworkResource(s: Scope, h: Host, n: Store): Option<Resource> {
    var users := NetworkUsers(h, n);
    match StoreClass(s, s.network, "default", n, !(users <= OwnIds(s, h)))
    case None => None
    case Some(cls) => Some(Resource(NetworkKind, n.name, cls, users, ""))
  }

  function ContainerResource(s: Scope, c: Container): Option<Resource> {
    match ContainerClass(s, c)
    case None => None
    case Some(cls) => Some(Resource(ContainerKind, c.id, cls, {}, c.image))
  }

  function TagResource(s: Scope, h: Host, t: Tag): Resource {
    Resource(ImageKind, t.reference, TagClass(s, t, ForeignUse(s, h, t)), {}, t.id)
  }

  /** Every resource that some rule has a class for, but the retained mounts. */
  ghost predicate IsResource(s: Scope, h: Host, r: Resource) {
    || (exists c <- h.containers :: ContainerResource(s, c) == Some(r))
    || (exists v <- h.volumes :: VolumeResource(s, h, v) == Some(r))
    || (exists n <- h.networks :: NetworkResource(s, h, n) == Some(r))
    || (exists t <- h.tags :: TagResource(s, h, t) == r)
  }

  /** Filed by its class: owned, blocking, or excluded. */
  function Filed(inv: Inventory, r: Resource): Inventory {
    if r.cls == Owned then inv.(owned := inv.owned + [r])
    else if Blocks(r.cls) then inv.(blockers := inv.blockers + [r])
    else inv.(excluded := inv.excluded + [r])
  }

  ghost predicate Holds(inv: Inventory, r: Resource) {
    if r.cls == Owned then r in inv.owned
    else if Blocks(r.cls) then r in inv.blockers
    else r in inv.excluded
  }

  /** The lists hold exactly the classified resources, each by its class. */
  ghost predicate Classified(s: Scope, h: Host, inv: Inventory) {
    && (forall r :: IsResource(s, h, r) ==> Holds(inv, r))
    && (forall r <- inv.owned :: r.cls == Owned && IsResource(s, h, r))
    && (forall r <- inv.blockers :: Blocks(r.cls) && IsResource(s, h, r))
    && (forall r <- inv.excluded :: r.cls != Owned && !Blocks(r.cls)
                                    && (IsResource(s, h, r) || r.cls in {Reference, BindRetained}))
  }

  // ---------------------------------------------------------------- classification

  ghost predicate Listed(done: set<Resource>, inv: Inventory) {
    && (forall r <- done :: Holds(inv, r))
    && (forall r <- inv.owned :: r.cls == Owned && r in done)
    && (forall r <- inv.blockers :: Blocks(r.cls) && r in done)
    && (forall r <- inv.excluded ::
          r.cls != Owned && !Blocks(r.cls) && (r in done || r.cls in {Reference, BindRetained}))
  }

  lemma FiledIsListed(done: set<Resource>, inv: Inventory, r: Resource)
    requires Listed(done, inv)
    ensures Listed(done + {r}, Filed(inv, r))
  {
  }

  /** The resources that the rules have a class for, and no other. */
  method ClassifyInventory(s: Scope, h: Host) returns (inv: Inventory)
    ensures Classified(s, h, inv)
  {
    hide ContainerResource, VolumeResource, NetworkResource, TagResource, Filed, Holds;
    inv := Inventory([], [], []);
    ghost var done: set<Resource> := {};
    for i := 0 to |h.containers|
      invariant Listed(done, inv)
      invariant forall r <- done :: IsResource(s, h, r)
      invariant forall k :: 0 <= k < i ==> Covers(done, ContainerResource(s, h.containers[k]))
    {
      var found := ContainerResource(s, h.containers[i]);
      if found.Some? {
        assert h.containers[i] in h.containers;
        FiledIsListed(done, inv, found.value);
        inv, done := Filed(inv, found.value), done + {found.value};
      }
    }
    for i := 0 to |h.volumes|
      invariant Listed(done, inv)
      invariant forall r <- done :: IsResource(s, h, r)
      invariant forall k :: 0 <= k < |h.containers| ==> Covers(done, ContainerResource(s, h.containers[k]))
      invariant forall k :: 0 <= k < i ==> Covers(done, VolumeResource(s, h, h.volumes[k]))
    {
      var found := VolumeResource(s, h, h.volumes[i]);
      if found.Some? {
        assert h.volumes[i] in h.volumes;
        FiledIsListed(done, inv, found.value);
        inv, done := Filed(inv, found.value), done + {found.value};
      }
    }
    for i := 0 to |h.networks|
      invariant Listed(done, inv)
      invariant forall r <- done :: IsResource(s, h, r)
      invariant forall k :: 0 <= k < |h.containers| ==> Covers(done, ContainerResource(s, h.containers[k]))
      invariant forall k :: 0 <= k < |h.volumes| ==> Covers(done, VolumeResource(s, h, h.volumes[k]))
      invariant forall k :: 0 <= k < i ==> Covers(done, NetworkResource(s, h, h.networks[k]))
    {
      var found := NetworkResource(s, h, h.networks[i]);
      if found.Some? {
        assert h.networks[i] in h.networks;
        FiledIsListed(done, inv, found.value);
        inv, done := Filed(inv, found.value), done + {found.value};
      }
    }
    var kept := RetainedMounts(s, h);
    inv := inv.(excluded := inv.excluded + kept);
    RetainedAreListed(done, inv.(excluded := inv.excluded[..|inv.excluded| - |kept|]), kept);
    assert inv.excluded[..|inv.excluded| - |kept|] + kept == inv.excluded;
    for i := 0 to |h.tags|
      invariant Listed(done, inv)
      invariant forall r <- done :: IsResource(s, h, r)
      invariant forall k :: 0 <= k < |h.containers| ==> Covers(done, ContainerResource(s, h.containers[k]))
      invariant forall k :: 0 <= k < |h.volumes| ==> Covers(done, VolumeResource(s, h, h.volumes[k]))
      invariant forall k :: 0 <= k < |h.networks| ==> Covers(done, NetworkResource(s, h, h.networks[k]))
      invariant forall k :: 0 <= k < i ==> TagResource(s, h, h.tags[k]) in done
    {
      var found := TagResource(s, h, h.tags[i]);
      assert h.tags[i] in h.tags;
      FiledIsListed(done, inv, found);
      inv, done := Filed(inv, found), done + {found};
    }
    forall r | IsResource(s, h, r) ensures r in done {
    }
  }

  predicate Covers(done: set<Resource>, found: Option<Resource>) {
    found.Some? ==> found.value in done
  }

  lemma RetainedAreListed(done: set<Resource>, inv: Inventory, kept: seq<Resource>)
    requires Listed(done, inv) && forall r <- kept :: r.cls in {Reference, BindRetained}
    ensures Listed(done, inv.(excluded := inv.excluded + kept))
  {
  }

  /** The bind mounts of own containers, each path once, and the volumes they mount that were not inspected,
      each name once. */
  method RetainedMounts(s: Scope, h: Host) returns (kept: seq<Resource>)
    ensures forall r <- kept :: r.cls in {Reference, BindRetained}
    ensures forall c <- h.containers :: OwnContainer(s, c) ==> forall m <- c.mounts :: Retains(kept, h, m)
    ensures forall i, j :: 0 <= i < j < |kept| ==> kept[i].kind != kept[j].kind || kept[i].key != kept[j].key
  {
    kept := [];
    for i := 0 to |h.containers|
      invariant forall r <- kept :: r.cls == (if r.kind == BindKind then BindRetained else Reference)
      invariant forall k :: 0 <= k < i && OwnContainer(s, h.containers[k]) ==>
                  forall m <- h.containers[k].mounts :: Retains(kept, h, m)
      invariant forall a, b :: 0 <= a < b < |kept| ==> kept[a].kind != kept[b].kind || kept[a].key != kept[b].key
    {
      var c := h.containers[i];
      if OwnContainer(s, c) {
        for j := 0 to |c.mounts|
          invariant forall r <- kept :: r.cls == (if r.kind == BindKind then BindRetained else Reference)
          invariant forall k :: 0 <= k < i && OwnContainer(s, h.containers[k]) ==>
                      forall m <- h.containers[k].mounts :: Retains(kept, h, m)
          invariant forall k :: 0 <= k < j ==> Retains(kept, h, c.mounts[k])
          invariant forall a, b :: 0 <= a < b < |kept| ==> kept[a].kind != kept[b].kind || kept[a].key != kept[b].key
        {
          kept := KeepMount(h, kept, c.mounts[j]);
        }
      }
    }
  }

  function KeepMount(h: Host, kept: seq<Resource>, m: Mount): seq<Resource> {
    match m
    case BindMount(source) =>
      if exists r <- kept :: r.kind == BindKind && r.key == source then kept
      else kept + [Resource(BindKind, source, BindRetained, {}, "")]
    case VolumeMount(name) =>
      if name == "" || (exists v <- h.volumes :: v.name == name)
         || (exists r <- kept :: r.kind == VolumeKind && r.key == name) then kept
      else kept + [Resource(VolumeKind, name, Reference, VolumeUsers(h, name), "")]
    case OtherMount => kept
  }

  predicate Retains(kept: seq<Resource>, h: Host, m: Mount) {
    match m
    case BindMount(source) => exists r <- kept :: r.kind == BindKind && r.key == source
    case VolumeMount(name) =>
      || name == "" || (exists v <- h.volumes :: v.name == name)
      || (exists r <- kept :: r.kind == VolumeKind && r.key == name)
    case OtherMount => true
  }

  // ---------------------------------------------------------------- what an unblocked inventory means

  /** Without blockers, all that carries a mark of the instance is owned, what is owned is used by owned containers
      only, and no foreign container uses an owned tag. */
  lemma UnblockedIsClosed(s: Scope, h: Host, inv: Inventory)
    requires Classified(s, h, inv) && inv.blockers == []
    ensures forall c <- h.containers ::
              c.claim == Some(s.instance) || c.project == Some(s.project) ==> OwnContainer(s, c)
    ensures forall v <- h.volumes :: v.name == s.volume ==> VolumeUsers(h, v.name) <= OwnIds(s, h)
    ensures forall n <- h.networks :: n.name == s.network ==> NetworkUsers(h, n) <= OwnIds(s, h)
    ensures forall r <- inv.owned :: r.users <= OwnIds(s, h)
    ensures forall t <- h.tags :: TagResource(s, h, t) in inv.owned ==> !ForeignUse(s, h, t)
    ensures forall id <- OwnIds(s, h) :: exists r <- inv.owned :: r.kind == ContainerKind && r.key == id
  {
    forall c | c in h.containers && (c.claim == Some(s.instance) || c.project == Some(s.project))
      ensures OwnContainer(s, c)
    {
      var r := ContainerResource(s, c).value;
      assert IsResource(s, h, r) && Holds(inv, r);
    }
    forall v | v in h.volumes && v.name == s.volume ensures VolumeUsers(h, v.name) <= OwnIds(s, h) {
      var r := VolumeResource(s, h, v).value;
      assert IsResource(s, h, r) && Holds(inv, r);
    }
    forall n | n in h.networks && n.name == s.network ensures NetworkUsers(h, n) <= OwnIds(s, h) {
      var r := NetworkResource(s, h, n).value;
      assert IsResource(s, h, r) && Holds(inv, r);
    }
    forall r | r in inv.owned ensures r.users <= OwnIds(s, h) {
      assert IsResource(s, h, r);
    }
    forall id | id in OwnIds(s, h) ensures exists r <- inv.owned :: r.kind == ContainerKind && r.key == id {
      var c :| c in h.containers && OwnContainer(s, c) && c.id == id;
      var r := ContainerResource(s, c).value;
      assert IsResource(s, h, r) && Holds(inv, r);
    }
  }

  // ---------------------------------------------------------------- the closed deletion plan

  datatype PlanKind = Purge | AbortDeploy

  /** An exclusion; `retained` marks an owned tag that the plan leaves in place. */
  datatype Entry = Entry(kind: Kind, key: string, retained: bool)

  datatype Plan = Plan(candidates: seq<Resource>, pending: set<string>, exclusions: seq<Entry>)

  function OfKind(owned: seq<Resource>, kind: Kind): (r: seq<Resource>)
    ensures forall x :: x in r <==> x in owned && x.kind == kind
  {
    if owned == [] then []
    else (if owned[0].kind == kind then [owned[0]] else []) + OfKind(owned[1..], kind)
  }

  function NamedVolume(owned: seq<Resource>, name: string): (r: seq<Resource>)
    ensures forall x :: x in r <==> x in owned && x.kind == VolumeKind && x.key == name
  {
    if owned == [] then []
    else
      (if owned[0].kind == VolumeKind && owned[0].key == name then [owned[0]] else [])
      + NamedVolume(owned[1..], name)
  }

  function Entries(excluded: seq<Resource>): (r: seq<Entry>)
    ensures forall e <- r :: !e.retained
    ensures forall x <- excluded :: Entry(x.kind, x.key, false) in r
  {
    if excluded == [] then [] else [Entry(excluded[0].kind, excluded[0].key, false)] + Entries(excluded[1..])
  }

  /** The coverage reaches a tag by its reference, or by the image that a covered reference names. */
  predicate CoveredTag(owned: seq<Resource>, covered: set<string>, r: Resource) {
    r.key in covered || exists x <- owned :: x.kind == ImageKind && x.key in covered && x.image == r.image
  }

  /** The plan of an inventory: containers, the network, the one volume, and of the tags what the coverage
      reaches. A purge without coverage leaves its tags pending; an abort keeps them all. */
  method PlanDeletion(s: Scope, inv: Inventory, kind: PlanKind, coverage: Option<set<string>>) returns (r: Result<Plan>)
    ensures r.Ok? <==> inv.blockers == []
    ensures r.Ok? ==> PlansDeletion(s, inv, kind, coverage, r.value)
  {
    if inv.blockers != [] {
      return Error;
    }
    hide OfKind, NamedVolume, Entries, CoveredTag, PlansDeletion;
    var images := OfKind(inv.owned, ImageKind);
    var stores := OfKind(inv.owned, ContainerKind) + OfKind(inv.owned, NetworkKind) + NamedVolume(inv.owned, s.volume);
    var deleted, retained, pending: set<string> := [], [], {};
    if kind == AbortDeploy {
      retained := RetainTags(images);
    } else if coverage.None? {
      pending := set x <- images :: x.key;
    } else {
      deleted, retained := CoverTags(inv.owned, images, coverage.value);
    }
    TagsFit(inv, kind, coverage, images, deleted, retained, pending);
    PlanFits(s, inv, kind, coverage, deleted, retained, pending);
    r := Ok(Plan(stores + deleted, pending, Entries(inv.excluded) + retained));
  }

  /** The places of the owned tags, by kind and coverage. */
  ghost predicate TagsPlaced(inv: Inventory, kind: PlanKind, coverage: Option<set<string>>, deleted: seq<Resource>,
                             retained: seq<Entry>, pending: set<string>)
  {
    && (forall x :: x in deleted <==>
          x in inv.owned && x.kind == ImageKind && kind == Purge && coverage.Some?
          && CoveredTag(inv.owned, coverage.value, x))
    && (forall e :: e in retained <==>
          e.retained && e.kind == ImageKind && exists x <- inv.owned ::
            x.key == e.key && IsRetained(inv, kind, coverage, x))
    && (forall key :: key in pending <==>
          kind == Purge && coverage.None? && exists x <- inv.owned :: x.kind == ImageKind && x.key == key)
  }

  lemma TagsFit(inv: Inventory, kind: PlanKind, coverage: Option<set<string>>, images: seq<Resource>,
                deleted: seq<Resource>, retained: seq<Entry>, pending: set<string>)
    requires forall x :: x in images <==> x in inv.owned && x.kind == ImageKind
    requires forall x :: x in deleted <==>
               kind == Purge && coverage.Some? && x in images && CoveredTag(inv.owned, coverage.value, x)
    requires forall e :: e in retained <==>
               e.retained && e.kind == ImageKind && exists x <- images ::
                 x.key == e.key && IsRetained(inv, kind, coverage, x)
    requires pending == if kind == Purge && coverage.None? then set x <- images :: x.key else {}
    ensures TagsPlaced(inv, kind, coverage, deleted, retained, pending)
  {
    hide CoveredTag;
  }

  lemma PlanFits(s: Scope, inv: Inventory, kind: PlanKind, coverage: Option<set<string>>, deleted: seq<Resource>,
                 retained: seq<Entry>, pending: set<string>)
    requires TagsPlaced(inv, kind, coverage, deleted, retained, pending)
    ensures var stores := OfKind(inv.owned, ContainerKind) + OfKind(inv.owned, NetworkKind)
                          + NamedVolume(inv.owned, s.volume);
            PlansDeletion(s, inv, kind, coverage, Plan(stores + deleted, pending, Entries(inv.excluded) + retained))
  {
    hide OfKind, NamedVolume, Entries, CoveredTag;
  }

  method RetainTags(images: seq<Resource>) returns (retained: seq<Entry>)
    ensures forall e :: e in retained <==> e.retained && e.kind == ImageKind && exists x <- images :: x.key == e.key
  {
    retained := [];
    for i := 0 to |images|
      invariant forall e :: e in retained <==>
                  e.retained && e.kind == ImageKind && exists x <- images[..i] :: x.key == e.key
    {
      assert images[..i + 1] == images[..i] + [images[i]];
      retained := retained + [Entry(ImageKind, images[i].key, true)];
    }
    assert images[..|images|] == images;
  }

  method CoverTags(owned: seq<Resource>, images: seq<Resource>, covered: set<string>)
    returns (deleted: seq<Resource>, retained: seq<Entry>)
    requires forall x :: x in images <==> x in owned && x.kind == ImageKind
    ensures forall x :: x in deleted <==> x in images && CoveredTag(owned, covered, x)
    ensures forall e :: e in retained <==>
              e.retained && e.kind == ImageKind && exists x <- images ::
                x.key == e.key && !CoveredTag(owned, covered, x)
  {
    var ids := set x <- images | x.key in covered :: x.image;
    forall x | x in images ensures CoveredTag(owned, covered, x) <==> x.key in covered || x.image in ids {
    }
    hide CoveredTag;
    deleted, retained := [], [];
    for i := 0 to |images|
      invariant forall x :: x in deleted <==> x in images[..i] && CoveredTag(owned, covered, x)
      invariant forall e :: e in retained <==>
                  e.retained && e.kind == ImageKind
                  && exists x <- images[..i] :: x.key == e.key && !CoveredTag(owned, covered, x)
    {
      assert images[..i + 1] == images[..i] + [images[i]];
      if images[i].key in covered || images[i].image in ids {
        deleted := deleted + [images[i]];
      } else {
        retained := retained + [Entry(ImageKind, images[i].key, true)];
      }
    }
    assert images[..|images|] == images;
  }

  /** What the plan must hold, resource by resource. */
  ghost predicate PlansDeletion(s: Scope, inv: Inventory, kind: PlanKind, coverage: Option<set<string>>, p: Plan) {
    && (forall r :: r in p.candidates <==> r in inv.owned && IsCandidate(s, inv, kind, coverage, r))
    && (forall key :: key in p.pending <==>
          kind == Purge && coverage.None? && exists r <- inv.owned :: r.kind == ImageKind && r.key == key)
    && (forall e <- p.exclusions :: e.retained ==>
          exists r <- inv.owned :: r.kind == ImageKind && r.key == e.key && e.kind == ImageKind
                                   && IsRetained(inv, kind, coverage, r))
    && (forall r <- inv.owned :: IsRetained(inv, kind, coverage, r) ==> Entry(ImageKind, r.key, true) in p.exclusions)
    && (forall x <- inv.excluded :: Entry(x.kind, x.key, false) in p.exclusions)
  }

  predicate IsCandidate(s: Scope, inv: Inventory, kind: PlanKind, coverage: Option<set<string>>, r: Resource) {
    match r.kind
    case ContainerKind | NetworkKind => true
    case VolumeKind => r.key == s.volume
    case ImageKind => kind == Purge && coverage.Some? && CoveredTag(inv.owned, coverage.value, r)
    case BindKind => false
  }

  predicate IsRetained(inv: Inventory, kind: PlanKind, coverage: Option<set<string>>, r: Resource) {
    r.kind == ImageKind && (kind == AbortDeploy || (coverage.Some? && !CoveredTag(inv.owned, coverage.value, r)))
  }

  // ---------------------------------------------------------------- conservation

  /** The keys of owned resources are told apart within a kind. */
  predicate KeysApart(inv: Inventory) {
    forall a, b :: a in inv.owned && b in inv.owned && a.kind == b.kind && a.key == b.key ==> a == b
  }

  lemma ContainersApart(s: Scope, h: Host, a: Resource, b: Resource)
    requires Distinct(h) && IsResource(s, h, a) && IsResource(s, h, b) && a.key == b.key
    requires a.kind == b.kind == ContainerKind
    ensures a == b
  {
    hide ContainerClass, StoreClass, VolumeUsers, NetworkUsers, OwnIds;
    var i :| 0 <= i < |h.containers| && ContainerResource(s, h.containers[i]) == Some(a);
    var j :| 0 <= j < |h.containers| && ContainerResource(s, h.containers[j]) == Some(b);
  }

  lemma VolumesApart(s: Scope, h: Host, a: Resource, b: Resource)
    requires Distinct(h) && IsResource(s, h, a) && IsResource(s, h, b) && a.key == b.key
    requires a.kind == b.kind == VolumeKind
    ensures a == b
  {
    hide StoreClass, VolumeUsers, NetworkUsers, OwnIds;
    var i :| 0 <= i < |h.volumes| && VolumeResource(s, h, h.volumes[i]) == Some(a);
    var j :| 0 <= j < |h.volumes| && VolumeResource(s, h, h.volumes[j]) == Some(b);
  }

  lemma NetworksApart(s: Scope, h: Host, a: Resource, b: Resource)
    requires Distinct(h) && IsResource(s, h, a) && IsResource(s, h, b) && a.key == b.key
    requires a.kind == b.kind == NetworkKind
    ensures a == b
  {
    hide StoreClass, VolumeUsers, NetworkUsers, OwnIds;
    var i :| 0 <= i < |h.networks| && NetworkResource(s, h, h.networks[i]) == Some(a);
    var j :| 0 <= j < |h.networks| && NetworkResource(s, h, h.networks[j]) == Some(b);
  }

  lemma TagsApart(s: Scope, h: Host, a: Resource, b: Resource)
    requires Distinct(h) && IsResource(s, h, a) && IsResource(s, h, b) && a.key == b.key
    requires a.kind == b.kind == ImageKind
    ensures a == b
  {
    hide TagClass, ForeignUse, VolumeUsers, NetworkUsers, OwnIds;
    var i :| 0 <= i < |h.tags| && TagResource(s, h, h.tags[i]) == a;
    var j :| 0 <= j < |h.tags| && TagResource(s, h, h.tags[j]) == b;
  }

  lemma OwnedKeysApart(s: Scope, h: Host, inv: Inventory)
    requires Distinct(h) && Classified(s, h, inv)
    ensures KeysApart(inv)
  {
    hide Distinct;
    forall a, b | a in inv.owned && b in inv.owned && a.kind == b.kind && a.key == b.key ensures a == b {
      assert IsResource(s, h, a) && IsResource(s, h, b);
      OwnedVolumeIsNamed(s, h, inv, a);
      hide IsResource;
      match a.kind
      case ContainerKind => ContainersApart(s, h, a, b);
      case VolumeKind => VolumesApart(s, h, a, b);
      case NetworkKind => NetworksApart(s, h, a, b);
      case ImageKind => TagsApart(s, h, a, b);
    }
  }

  /** Every owned resource has exactly one place in the plan: candidate, pending or retained. */
  lemma OwnedIsConserved(s: Scope, h: Host, inv: Inventory, kind: PlanKind, coverage: Option<set<string>>, p: Plan,
                         r: Resource)
    requires Distinct(h) && Classified(s, h, inv) && PlansDeletion(s, inv, kind, coverage, p) && r in inv.owned
    ensures r.kind != ImageKind ==> r in p.candidates
    ensures r.kind == ImageKind ==>
              var candidate, pending, retained :=
                r in p.candidates, r.key in p.pending, Entry(ImageKind, r.key, true) in p.exclusions;
              (candidate && !pending && !retained) || (!candidate && pending && !retained)
              || (!candidate && !pending && retained)
  {
    OwnedKeysApart(s, h, inv);
    OwnedVolumeIsNamed(s, h, inv, r);
    hide Distinct, Classified, CoveredTag;
  }

  lemma OwnedVolumeIsNamed(s: Scope, h: Host, inv: Inventory, r: Resource)
    requires Classified(s, h, inv) && r in inv.owned
    ensures r.kind == VolumeKind ==> r.key == s.volume
    ensures r.kind != BindKind
  {
    assert IsResource(s, h, r);
  }

  /** No tag is deleted while another tag of its image is retained: candidates take whole images. */
  lemma CandidatesTakeWholeImages(s: Scope, inv: Inventory, coverage: Option<set<string>>, p: Plan,
                                  a: Resource, b: Resource)
    requires PlansDeletion(s, inv, Purge, coverage, p) && a in inv.owned && b in inv.owned
    requires a.kind == b.kind == ImageKind && a.image == b.image
    ensures a in p.candidates <==> b in p.candidates
  {
  }

  /** Users of a planned volume or network that the plan does not delete. */
  function Violations(p: Plan, observed: set<Id>): set<Id> {
    observed - set r <- p.candidates | r.kind == ContainerKind :: r.key
  }

  /** A fresh plan has no violation: whoever uses a planned store is a planned container. */
  lemma FreshPlanHasNoViolation(s: Scope, h: Host, inv: Inventory, kind: PlanKind, coverage: Option<set<string>>,
                                p: Plan, r: Resource)
    requires Classified(s, h, inv) && inv.blockers == [] && PlansDeletion(s, inv, kind, coverage, p)
    requires r in p.candidates
    ensures Violations(p, r.users) == {}
  {
    UnblockedIsClosed(s, h, inv);
    forall id | id in r.users ensures id in set x <- p.candidates | x.kind == ContainerKind :: x.key {
      var x :| x in inv.owned && x.kind == ContainerKind && x.key == id;
      assert x in p.candidates;
    }
  }

  // ---------------------------------------------------------------- comparing plans

  function NonImages(p: Plan): set<Resource> {
    set r <- p.candidates | r.kind != ImageKind
  }

  function OwnedTags(p: Plan): set<string> {
    (set r <- p.candidates | r.kind == ImageKind :: r.key) + p.pending
    + set e <- p.exclusions | e.kind == ImageKind && e.retained :: e.key
  }

  /** No finding: the same stores and containers, and the same tags but for the ones this operation created. */
  predicate ComparesClean(before: Plan, after: Plan, created: set<string>) {
    && NonImages(before) == NonImages(after)
    && OwnedTags(before) - created == OwnedTags(after) - created
  }

  lemma TagsOfPlan(s: Scope, inv: Inventory, kind: PlanKind, coverage: Option<set<string>>, p: Plan)
    requires PlansDeletion(s, inv, kind, coverage, p)
    ensures OwnedTags(p) == set r <- inv.owned | r.kind == ImageKind :: r.key
    ensures NonImages(p) == set r <- inv.owned | r.kind != ImageKind && IsCandidate(s, inv, kind, coverage, r)
  {
    hide CoveredTag;
    forall key | key in OwnedTags(p) ensures exists r <- inv.owned :: r.kind == ImageKind && r.key == key {
    }
    forall r | r in inv.owned && r.kind == ImageKind ensures r.key in OwnedTags(p) {
    }
  }

  /** Whatever the coverage, two plans of one inventory compare clean. */
  lemma CoverageDoesNotMatter(s: Scope, inv: Inventory, one: Option<set<string>>, other: Option<set<string>>,
                              p: Plan, q: Plan, created: set<string>)
    requires PlansDeletion(s, inv, Purge, one, p) && PlansDeletion(s, inv, Purge, other, q)
    ensures ComparesClean(p, q, created)
  {
    TagsOfPlan(s, inv, Purge, one, p);
    TagsOfPlan(s, inv, Purge, other, q);
  }
}
