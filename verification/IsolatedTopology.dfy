/** A verification or recovery topology: the installed Compose model, accepted by the envelope rules, is turned
    into an isolated one and validated again by an allowlist that was written independently. */
module IsolatedTopology {

  datatype Service = Db | Backend | Frontend

  /** The member names that the rules mention; any other name is `Other`. */
  datatype Key =
    | Name | Services | Volumes | Networks | Of(service: Service)
    | Image | Build | Restart | Environment | Healthcheck | Logging | DependsOn | Ports | Labels | Command | Entrypoint
    | Test | Driver | Internal | Ipam | Default | PostgresData | Type | Source | Target | Volume | ReadOnly | NoCopy
    | Condition | Required | InstanceLabel
    | PostgresUser | PostgresPassword | PostgresDb | DatabaseUrl | SiteTimezone | ProxyTarget | AllowedHosts
    | Other(text: string)

  datatype Json = Null | Bool(b: bool) | Num(n: int) | Str(s: string) | Arr(items: seq<Json>)
                | Obj(fields: map<Key, Json>)

  /** What the topology was rendered for; `values` holds the frozen environment of each service. */
  datatype Expectation = Expectation(project: string, instance: string, volumeName: string, networkName: string,
                                     values: map<Service, map<Key, string>>)

  const SERVICES := [Db, Backend, Frontend]

  const TOP_LEVEL := {Name, Services, Volumes, Networks}

  const SERVICE_KEYS := {Image, Build, Restart, Environment, Volumes, Healthcheck, Logging, DependsOn, Ports, Networks,
                         Labels, Command, Entrypoint}

  const HEALTHCHECK_LITERAL := Arr([Str("CMD-SHELL"), Str("pg_isready -U \"${POSTGRES_USER}\" -d \"${POSTGRES_DB}\"")])

  const HEALTHCHECK_DOUBLED := Arr([Str("CMD-SHELL"),
      Str("pg_isready -U \"$${POSTGRES_USER}\" -d \"$${POSTGRES_DB}\"")])

  function EnvironmentKeys(service: Service): set<Key> {
    match service
    case Db => {PostgresUser, PostgresPassword, PostgresDb}
    case Backend => {DatabaseUrl, SiteTimezone}
    case Frontend => {ProxyTarget, AllowedHosts}
  }

  predicate Fits(e: Expectation) {
    forall s <- SERVICES :: s in e.values && e.values[s].Keys == EnvironmentKeys(s)
  }

  /** A member, or null when there is none. */
  function Get(o: Json, k: Key): Json {
    if o.Obj? && k in o.fields then o.fields[k] else Null
  }

  function GetOr(o: Json, k: Key, default: Json): Json {
    if o.Obj? && k in o.fields then o.fields[k] else default
  }

  predicate Has(o: Json, k: Key) {
    o.Obj? && k in o.fields
  }

  /** Empty in a condition: null, false, zero, or nothing inside. */
  predicate Falsy(v: Json) {
    match v
    case Null => true
    case Bool(b) => !b
    case Num(n) => n == 0
    case Str(s) => s == ""
    case Arr(items) => items == []
    case Obj(fields) => fields == map[]
  }

  function InstanceLabels(e: Expectation): Json {
    Obj(map[InstanceLabel := Str(e.instance)])
  }

  // ---------------------------------------------------------------- rules that both validators have

  predicate DbVolumeOk(mount: Json) {
    && mount.Obj? && mount.fields.Keys <= {Type, Source, Target, Volume, ReadOnly}
    && Get(mount, Type) == Str("volume") && Get(mount, Source) == Str("postgres_data")
    && Get(mount, Target) == Str("/var/lib/postgresql/data")
    && GetOr(mount, Volume, Obj(map[])) in {Obj(map[]), Obj(map[NoCopy := Bool(false)])}
    && GetOr(mount, ReadOnly, Bool(false)) == Bool(false)
  }

  /** Only the database mounts, and only its one volume. */
  predicate MountsOk(service: Service, body: Json) {
    var volumes := GetOr(body, Volumes, Arr([]));
    && volumes.Arr?
    && (forall mount <- volumes.items :: service == Db && |volumes.items| == 1 && DbVolumeOk(mount))
    && (service == Db ==> volumes.items != [])
  }

  predicate OptionsOk(body: Json) {
    && Get(body, Logging).Obj? && Get(Get(body, Logging), Driver) == Str("json-file")
    && Get(body, Networks) in {Obj(map[Default := Null]), Obj(map[Default := Obj(map[])])}
    && Get(body, Command) == Null && Get(body, Entrypoint) == Null
    && Get(body, Healthcheck).Obj?
  }

  predicate TopVolumesOk(e: Expectation, volumes: Json) {
    && volumes.Obj? && volumes.fields.Keys == {PostgresData}
    && var body := volumes.fields[PostgresData];
    && body.Obj? && body.fields.Keys <= {Name, Labels, Driver}
    && Get(body, Name) == Str(e.volumeName) && GetOr(body, Driver, Str("local")) == Str("local")
    && Get(body, Labels) == InstanceLabels(e)
  }

  /** Network members outside the allowlist are refused, but for an empty `ipam`. */
  predicate NetworkKeysOk(body: Json, allowed: set<Key>)
    requires body.Obj?
  {
    forall k <- body.fields :: k in allowed || (k == Ipam && body.fields[k] == Obj(map[]))
  }

  // ---------------------------------------------------------------- the envelope rules

  datatype EscapeMode = Literal | Doubled

  /** A dollar sign written twice. */
  function Doubling(s: string): string {
    if s == "" then "" else (if s[0] == '$' then "$$" else [s[0]]) + Doubling(s[1..])
  }

  function Escaped(mode: EscapeMode, s: string): string {
    if mode == Doubled then Doubling(s) else s
  }

  predicate EnvironmentMatches(e: Expectation, service: Service, mode: EscapeMode, environment: Json)
    requires service in e.values && e.values[service].Keys == EnvironmentKeys(service)
  {
    && environment.Obj? && environment.fields.Keys == EnvironmentKeys(service)
    && forall k <- environment.fields :: environment.fields[k] == Str(Escaped(mode, e.values[service][k]))
  }

  predicate DependenciesOk(service: Service, body: Json) {
    var depends := GetOr(body, DependsOn, Obj(map[]));
    && depends.Obj?
    && forall k <- depends.fields ::
         && k.Of? && k.service != service && depends.fields[k].Obj?
         && depends.fields[k].fields.Keys <= {Condition, Required, Restart}
         && Get(depends.fields[k], Condition) == Str("service_healthy")
         && GetOr(depends.fields[k], Required, Bool(true)).Bool?
         && GetOr(depends.fields[k], Restart, Bool(false)).Bool?
  }

  predicate EnvelopeService(e: Expectation, service: Service, mode: EscapeMode, body: Json)
    requires service in e.values && e.values[service].Keys == EnvironmentKeys(service)
  {
    && body.Obj? && body.fields.Keys <= SERVICE_KEYS
    && (service == Db ==> Get(body, Image) == Str("postgres:16") && !Has(body, Build))
    && (service != Db ==> Get(body, Build).Obj?)
    && MountsOk(service, body)
    && (service != Frontend ==> Falsy(Get(body, Ports)))
    && (service == Frontend ==>
          Get(body, Ports).Arr? && |Get(body, Ports).items| == 1 && Get(body, Ports).items[0].Obj?)
    && EnvironmentMatches(e, service, mode, Get(body, Environment))
    && Get(body, Labels) == InstanceLabels(e)
    && Get(body, Restart) == Str("unless-stopped")
    && DependenciesOk(service, body) && OptionsOk(body)
  }

  predicate ModeIs(mode: EscapeMode, model: Json) {
    Get(Get(Get(Get(model, Services), Of(Db)), Healthcheck), Test)
      == if mode == Literal then HEALTHCHECK_LITERAL else HEALTHCHECK_DOUBLED
  }

  predicate EnvelopeNetwork(e: Expectation, network: Json) {
    && network.Obj? && NetworkKeysOk(network, {Name, Labels, Driver})
    && Get(network, Name) == Str(e.networkName) && GetOr(network, Driver, Str("bridge")) == Str("bridge")
    && Get(network, Labels) == InstanceLabels(e)
  }

  predicate Envelope(e: Expectation, mode: EscapeMode, model: Json)
    requires Fits(e)
  {
    && model.Obj? && model.fields.Keys <= TOP_LEVEL && Get(model, Name) == Str(e.project)
    && Get(model, Services).Obj? && Get(model, Services).fields.Keys == {Of(Db), Of(Backend), Of(Frontend)}
    && ModeIs(mode, model)
    && (forall s <- SERVICES :: EnvelopeService(e, s, mode, Get(Get(model, Services), Of(s))))
    && TopVolumesOk(e, Get(model, Volumes))
    && Get(model, Networks).Obj? && Get(model, Networks).fields.Keys == {Default}
    && EnvelopeNetwork(e, Get(Get(model, Networks), Default))
  }

  // ---------------------------------------------------------------- the transformation

  function Without(o: Json, k: Key): Json {
    if o.Obj? then Obj(o.fields - {k}) else o
  }

  function With(o: Json, k: Key, v: Json): Json {
    if o.Obj? then Obj(o.fields[k := v]) else o
  }

  function Unbuilt(service: Service, body: Json): Json {
    var unpublished := if service == Frontend then Without(body, Ports) else body;
    if service == Db then unpublished else Without(unpublished, Build)
  }

  function Started(body: Json, image: string): Json {
    With(With(body, Image, Str(image)), Restart, Str("no"))
  }

  function Calibrated(body: Json): Json {
    With(body, Healthcheck, With(Get(body, Healthcheck), Test, HEALTHCHECK_DOUBLED))
  }

  /** One service of the isolated model. */
  function IsolatedService(service: Service, body: Json, image: string): Json {
    var started := Started(Unbuilt(service, body), image);
    if service == Db then Calibrated(started) else started
  }

  /** The image ID that each service runs. */
  datatype Images = Images(db: string, backend: string, frontend: string) {
    function For(service: Service): string {
      match service
      case Db => db
      case Backend => backend
      case Frontend => frontend
    }
  }

  function IsolatedServices(services: Json, images: Images): Json
  {
    if !services.Obj? then services
    else Obj(map k | k in services.fields ::
               if k.Of? then IsolatedService(k.service, services.fields[k], images.For(k.service))
               else services.fields[k])
  }

  function Isolated(model: Json, images: Images): Json
  {
    var network := With(Get(Get(model, Networks), Default), Internal, Bool(true));
    With(With(model, Services, IsolatedServices(Get(model, Services), images)),
         Networks, With(Get(model, Networks), Default, network))
  }

  /** The transformation as it runs: a fresh copy is edited member by member. */
  method IsolateModel(model: Json, images: Images) returns (result: Json)
    requires model.Obj? && Services in model.fields && Networks in model.fields
    requires Get(model, Services).Obj? && Get(model, Services).fields.Keys == {Of(Db), Of(Backend), Of(Frontend)}
    requires forall k <- Get(model, Services).fields :: Get(model, Services).fields[k].Obj?
    requires Get(model, Networks).Obj? && Get(Get(model, Networks), Default).Obj?
    requires Get(Get(Get(model, Services), Of(Db)), Healthcheck).Obj?
    ensures result == Isolated(model, images)
  {
    hide With, Without, Started, Calibrated;
    var services := Get(model, Services).fields;
    ghost var before := services;
    services := services[Of(Frontend) := Without(services[Of(Frontend)], Ports)];
    for i := 1 to |SERVICES|
      invariant services.Keys == before.Keys && services[Of(Db)] == before[Of(Db)]
      invariant services[Of(Backend)] == if i > 1 then Without(before[Of(Backend)], Build) else before[Of(Backend)]
      invariant services[Of(Frontend)] == if i > 2 then Without(Without(before[Of(Frontend)], Ports), Build)
                                          else Without(before[Of(Frontend)], Ports)
    {
      var service := Of(SERVICES[i]);
      services := services[service := Without(services[service], Build)];
    }
    forall s: Service ensures Of(s) in services && services[Of(s)] == Unbuilt(s, before[Of(s)]) {
      assert s == Db || s == Backend || s == Frontend;
    }
    services := StartAll(services, images);
    services := services[Of(Db) := Calibrated(services[Of(Db)])];
    assert forall s: Service :: services[Of(s)] == IsolatedService(s, before[Of(s)], images.For(s));
    assert Obj(services) == IsolatedServices(Get(model, Services), images);
    var network := With(Get(Get(model, Networks), Default), Internal, Bool(true));
    result := With(With(model, Services, Obj(services)), Networks, With(Get(model, Networks), Default, network));
  }

  method StartAll(services: map<Key, Json>, images: Images) returns (started: map<Key, Json>)
    requires forall s: Service :: Of(s) in services
    ensures started.Keys == services.Keys
    ensures forall s: Service :: started[Of(s)] == Started(services[Of(s)], images.For(s))
  {
    hide Started;
    started := services;
    for i := 0 to |SERVICES|
      invariant started.Keys == services.Keys
      invariant forall s: Service ::
                  started[Of(s)] == if Rank(s) < i then Started(services[Of(s)], images.For(s)) else services[Of(s)]
    {
      var service := Of(SERVICES[i]);
      started := started[service := Started(started[service], images.For(SERVICES[i]))];
    }
  }

  function Rank(s: Service): nat {
    match s
    case Db => 0
    case Backend => 1
    case Frontend => 2
  }

  // ---------------------------------------------------------------- the isolated allowlist

  datatype Step = Member(key: Key) | Item(index: nat)

  /** Where a dollar sign stands in a text. */
  function DollarPaths(v: Json, path: seq<Step>): set<seq<Step>> {
    match v
    case Null | Bool(_) | Num(_) => {}
    case Str(s) => if '$' in s then {path} else {}
    case Arr(items) => set i, p | 0 <= i < |items| && p in DollarPaths(items[i], path + [Item(i)]) :: p
    case Obj(fields) => set k, p | k in fields && p in DollarPaths(fields[k], path + [Member(k)]) :: p
  }

  const TEST_ROUTE := [Services, Of(Db), Healthcheck, Test]

  function Members(route: seq<Key>): seq<Step> {
    seq(|route|, i requires 0 <= i < |route| => Member(route[i]))
  }

  /** The printed member is the step of the route, or goes on as an item of the test would: a member of the
      healthcheck whose own name begins with "test[". */
  predicate IsAlong(k: Key, step: Key) {
    k == step || (step == Test && k.Other? && "test[" <= k.text)
  }

  /** The printed path begins with the one of an item of the test. */
  predicate InTest(p: seq<Step>) {
    && |p| > 3 && p[..3] == Members(TEST_ROUTE[..3])
    && p[3].Member? && IsAlong(p[3].key, Test) && (p[3].key == Test ==> |p| > 4 && p[4].Item?)
  }

  /** Every dollar sign is inside the test of the database healthcheck. */
  predicate DollarsOk(model: Json) {
    forall p <- DollarPaths(model, []) :: InTest(p)
  }

  predicate IsImageId(s: string) {
    |s| == 71 && s[..7] == "sha256:" && forall i :: 7 <= i < 71 ==> '0' <= s[i] <= '9' || 'a' <= s[i] <= 'f'
  }

  predicate IsolatedDependenciesOk(service: Service, body: Json) {
    var depends := GetOr(body, DependsOn, Obj(map[]));
    && depends.Obj?
    && forall k <- depends.fields ::
         && k.Of? && k.service != service && depends.fields[k].Obj?
         && depends.fields[k].fields.Keys <= {Condition, Required, Restart}
         && Get(depends.fields[k], Condition) == Str("service_healthy")
  }

  predicate ValidService(e: Expectation, service: Service, body: Json, image: string)
    requires service in e.values
  {
    && body.Obj? && (forall k <- body.fields :: k in SERVICE_KEYS && k != Ports && k != Build)
    && Get(body, Image) == Str(image) && IsImageId(image)
    && MountsOk(service, body)
    && Get(body, Environment).Obj? && Get(body, Environment) == Obj(Texts(e.values[service]))
    && Get(body, Labels) == InstanceLabels(e)
    && Get(body, Restart) == Str("no")
    && IsolatedDependenciesOk(service, body) && OptionsOk(body)
  }

  function Texts(values: map<Key, string>): map<Key, Json> {
    map k | k in values :: Str(values[k])
  }

  predicate InternalNetwork(e: Expectation, network: Json) {
    && network.Obj? && NetworkKeysOk(network, {Name, Labels, Driver, Internal})
    && Get(network, Name) == Str(e.networkName) && GetOr(network, Driver, Str("bridge")) == Str("bridge")
    && Get(network, Internal) == Bool(true) && Get(network, Labels) == InstanceLabels(e)
  }

  predicate ValidIsolated(e: Expectation, model: Json, images: Images)
    requires Fits(e)
  {
    && model.Obj? && model.fields.Keys <= TOP_LEVEL && Get(model, Name) == Str(e.project)
    && Get(model, Services).Obj? && Get(model, Services).fields.Keys == {Of(Db), Of(Backend), Of(Frontend)}
    && (forall s <- SERVICES :: ValidService(e, s, Get(Get(model, Services), Of(s)), images.For(s)))
    && ModeIs(Doubled, model)
    && DollarsOk(model)
    && TopVolumesOk(e, Get(model, Volumes))
    && Get(model, Networks).Obj? && Get(model, Networks).fields.Keys == {Default}
    && InternalNetwork(e, Get(Get(model, Networks), Default))
  }

  // ---------------------------------------------------------------- what a caller can check before

  /** No text inside has a dollar sign. */
  predicate Clean(v: Json) {
    match v
    case Null | Bool(_) | Num(_) => true
    case Str(s) => '$' !in s
    case Arr(items) => forall i :: 0 <= i < |items| ==> Clean(items[i])
    case Obj(fields) => forall k <- fields :: Clean(fields[k])
  }

  /** The isolation drops or replaces the member, or it is free of dollar signs (but for the database test). */
  predicate KeptCleanAt(service: Service, body: Json, k: Key)
    requires Has(body, k)
  {
    if k in {Image, Restart} || (service != Db && k == Build) || (service == Frontend && k == Ports) then true
    else if service == Db && k == Healthcheck then CleanBut(body.fields[k], [Test])
    else Clean(body.fields[k])
  }

  predicate KeptClean(service: Service, body: Json)
    requires body.Obj?
  {
    forall k <- body.fields :: KeptCleanAt(service, body, k)
  }

  /** Exactly what the envelope rules do not promise. */
  predicate Isolable(model: Json, images: Images)
    requires ModelShape(model)
  {
    && (forall s <- SERVICES :: IsImageId(images.For(s)))
    && !Has(ServiceOf(model, Db), Ports) && !Has(ServiceOf(model, Backend), Ports)
    && KeptClean(Db, ServiceOf(model, Db)) && KeptClean(Backend, ServiceOf(model, Backend))
    && KeptClean(Frontend, ServiceOf(model, Frontend)) && Clean(Without(model, Services))
  }

  // ---------------------------------------------------------------- dollar paths

  lemma {:induction false} PathsUnder(v: Json, path: seq<Step>)
    ensures forall p <- DollarPaths(v, path) :: path <= p
  {
    match v
    case Null | Bool(_) | Num(_) | Str(_) =>
    case Arr(items) =>
      forall i | 0 <= i < |items| ensures forall p <- DollarPaths(items[i], path + [Item(i)]) :: path <= p {
        PathsUnder(items[i], path + [Item(i)]);
      }
    case Obj(fields) =>
      forall k | k in fields ensures forall p <- DollarPaths(fields[k], path + [Member(k)]) :: path <= p {
        PathsUnder(fields[k], path + [Member(k)]);
      }
  }

  lemma {:induction false} CleanHasNoPaths(v: Json, path: seq<Step>)
    ensures DollarPaths(v, path) == {} <==> Clean(v)
  {
    match v
    case Null | Bool(_) | Num(_) | Str(_) =>
    case Arr(items) =>
      forall i | 0 <= i < |items| ensures DollarPaths(items[i], path + [Item(i)]) == {} <==> Clean(items[i]) {
        CleanHasNoPaths(items[i], path + [Item(i)]);
      }
      if Clean(v) {
        assert DollarPaths(v, path) == {};
      } else {
        var i :| 0 <= i < |items| && !Clean(items[i]);
        var p :| p in DollarPaths(items[i], path + [Item(i)]);
        assert p in DollarPaths(v, path);
      }
    case Obj(fields) =>
      forall k | k in fields ensures DollarPaths(fields[k], path + [Member(k)]) == {} <==> Clean(fields[k]) {
        CleanHasNoPaths(fields[k], path + [Member(k)]);
      }
      if Clean(v) {
        assert DollarPaths(v, path) == {};
      } else {
        var k :| k in fields && !Clean(fields[k]);
        var p :| p in DollarPaths(fields[k], path + [Member(k)]);
        assert p in DollarPaths(v, path);
      }
  }

  /** No dollar sign but under the route. */
  predicate CleanBut(v: Json, route: seq<Key>) {
    if route == [] then true
    else if !v.Obj? then Clean(v)
    else forall k <- v.fields ::
      if IsAlong(k, route[0]) then CleanBut(v.fields[k], route[1..]) else Clean(v.fields[k])
  }

  /** The steps go along the members of the route. */
  predicate Goes(q: seq<Step>, route: seq<Key>) {
    route == [] || (q != [] && q[0].Member? && IsAlong(q[0].key, route[0]) && Goes(q[1..], route[1..]))
  }

  /** The path leaves `path` along the members of the route. */
  predicate Under(p: seq<Step>, path: seq<Step>, route: seq<Key>) {
    path <= p && Goes(p[|path|..], route)
  }

  /** Every dollar sign in `v`, which stands at `at`, is along the route from `path`. */
  predicate AllUnder(v: Json, at: seq<Step>, path: seq<Step>, route: seq<Key>) {
    forall p <- DollarPaths(v, at) :: Under(p, path, route)
  }

  lemma {:induction false} CleanButPaths(v: Json, path: seq<Step>, route: seq<Key>)
    ensures CleanBut(v, route) <==> AllUnder(v, path, path, route)
    decreases |route|
  {
    PathsUnder(v, path);
    if route == [] {
      assert AllUnder(v, path, path, route);
    } else if !v.Obj? {
      CleanHasNoPaths(v, path);
      NotThroughMember(v, path, route);
    } else {
      CleanButMember(v, path, route);
    }
  }

  lemma NotThroughMember(v: Json, path: seq<Step>, route: seq<Key>)
    requires route != [] && !v.Obj?
    ensures forall p <- DollarPaths(v, path) :: !Under(p, path, route)
  {
    forall p | p in DollarPaths(v, path) ensures !Under(p, path, route) {
      if v.Arr? {
        var i :| 0 <= i < |v.items| && p in DollarPaths(v.items[i], path + [Item(i)]);
        PathsUnder(v.items[i], path + [Item(i)]);
        assert p[|path|..][0] == p[|path|] == (path + [Item(i)])[|path|];
      } else {
        assert p == path;
      }
    }
  }

  /** The member of the route may hold dollar signs further along the route, the other members none. */
  predicate CleanMember(v: Json, route: seq<Key>, k: Key)
    requires route != [] && Has(v, k)
  {
    if IsAlong(k, route[0]) then CleanBut(v.fields[k], route[1..]) else Clean(v.fields[k])
  }

  lemma {:induction false} CleanButMember(v: Json, path: seq<Step>, route: seq<Key>)
    requires route != [] && v.Obj?
    ensures CleanBut(v, route) <==> AllUnder(v, path, path, route)
    decreases |route|, 1
  {
    forall k | k in v.fields
      ensures CleanMember(v, route, k) <==> AllUnder(v.fields[k], path + [Member(k)], path, route)
    {
      MemberPaths(v, path, route, k);
    }
    assert CleanBut(v, route) <==> forall k <- v.fields :: CleanMember(v, route, k);
    hide CleanMember, CleanBut, Under;
    MembersUnder(v, path, route);
  }

  /** An object has its dollar signs along the route when all its members have. */
  lemma MembersUnder(v: Json, path: seq<Step>, route: seq<Key>)
    requires v.Obj?
    ensures AllUnder(v, path, path, route) <==>
            forall k <- v.fields :: AllUnder(v.fields[k], path + [Member(k)], path, route)
  {
    hide Under;
    if AllUnder(v, path, path, route) {
      forall k, p | k in v.fields && p in DollarPaths(v.fields[k], path + [Member(k)]) ensures Under(p, path, route) {
        assert p in DollarPaths(v, path);
      }
    } else {
      var p :| p in DollarPaths(v, path) && !Under(p, path, route);
      var k :| k in v.fields && p in DollarPaths(v.fields[k], path + [Member(k)]);
      assert !AllUnder(v.fields[k], path + [Member(k)], path, route);
    }
  }

  lemma {:induction false} MemberPaths(v: Json, path: seq<Step>, route: seq<Key>, k: Key)
    requires route != [] && Has(v, k)
    ensures CleanMember(v, route, k) <==> AllUnder(v.fields[k], path + [Member(k)], path, route)
    decreases |route|, 0
  {
    var next := path + [Member(k)];
    PathsUnder(v.fields[k], next);
    forall p | p in DollarPaths(v.fields[k], next)
      ensures Under(p, path, route) <==> IsAlong(k, route[0]) && Under(p, next, route[1..])
    {
      OneStep(p, path, route, k);
    }
    if IsAlong(k, route[0]) {
      CleanButPaths(v.fields[k], next, route[1..]);
    } else {
      CleanHasNoPaths(v.fields[k], next);
    }
  }

  lemma OneStep(p: seq<Step>, path: seq<Step>, route: seq<Key>, k: Key)
    requires route != [] && path + [Member(k)] <= p
    ensures Under(p, path, route) <==> IsAlong(k, route[0]) && Under(p, path + [Member(k)], route[1..])
  {
    var next := path + [Member(k)];
    assert p[|path|..][0] == p[|path|] == next[|path|] == Member(k);
    assert p[|path|..][1..] == p[|next|..];
    assert path <= next;
  }

  // ---------------------------------------------------------------- the isolated model meets the allowlist

  lemma {:induction false} DoublingShows(s: string)
    ensures '$' in s ==> '$' in Doubling(s)
    ensures '$' !in s ==> Doubling(s) == s
  {
    if s != "" {
      DoublingShows(s[1..]);
      assert s == [s[0]] + s[1..];
    }
  }

  /** Without dollar signs the escape mode does not matter. */
  lemma CleanEnvironment(e: Expectation, service: Service, mode: EscapeMode, environment: Json)
    requires Fits(e) && EnvironmentMatches(e, service, mode, environment) && Clean(environment)
    ensures environment == Obj(Texts(e.values[service]))
  {
    forall k | k in environment.fields ensures environment.fields[k] == Str(e.values[service][k]) {
      assert Clean(environment.fields[k]);
      DoublingShows(e.values[service][k]);
    }
    assert environment.fields == Texts(e.values[service]);
  }

  lemma WithMember(o: Json, k: Key, v: Json, x: Key)
    requires o.Obj?
    ensures With(o, k, v).Obj? && (Has(With(o, k, v), x) <==> x == k || Has(o, x))
    ensures Get(With(o, k, v), x) == if x == k then v else Get(o, x)
  {
  }

  lemma WithoutMember(o: Json, k: Key, x: Key)
    requires o.Obj?
    ensures Without(o, k).Obj? && (Has(Without(o, k), x) <==> x != k && Has(o, x))
    ensures x != k ==> Get(Without(o, k), x) == Get(o, x)
  {
  }

  /** What is left of a service, member by member. */
  lemma IsolatedMembers(service: Service, body: Json, image: string, k: Key)
    requires body.Obj?
    ensures var after := IsolatedService(service, body, image);
            && after.Obj?
            && (k == Image ==> Get(after, k) == Str(image) && Has(after, k))
            && (k == Restart ==> Get(after, k) == Str("no") && Has(after, k))
            && (k == Build && service != Db ==> !Has(after, k))
            && (k == Ports && service == Frontend ==> !Has(after, k))
            && (k == Healthcheck && service == Db ==>
                  Has(after, k) && Get(after, k) == With(Get(body, k), Test, HEALTHCHECK_DOUBLED))
            && (k !in {Image, Restart} && !(k == Build && service != Db) && !(k == Ports && service == Frontend)
                && !(k == Healthcheck && service == Db) ==>
                  (Has(after, k) <==> Has(body, k)) && Get(after, k) == Get(body, k))
  {
    hide HEALTHCHECK_DOUBLED, With, Without, Get, Has;
    var unpublished := if service == Frontend then Without(body, Ports) else body;
    WithoutMember(body, Ports, k);
    WithoutMember(unpublished, Build, k);
    var unbuilt := Unbuilt(service, body);
    WithMember(unbuilt, Image, Str(image), k);
    WithMember(With(unbuilt, Image, Str(image)), Restart, Str("no"), k);
    WithoutMember(body, Ports, Healthcheck);
    WithoutMember(unpublished, Build, Healthcheck);
    WithMember(unbuilt, Image, Str(image), Healthcheck);
    WithMember(With(unbuilt, Image, Str(image)), Restart, Str("no"), Healthcheck);
    var started := Started(unbuilt, image);
    WithMember(started, Healthcheck, With(Get(started, Healthcheck), Test, HEALTHCHECK_DOUBLED), k);
  }

  predicate Publishes(service: Service, body: Json) {
    service != Frontend && Has(body, Ports)
  }

  lemma SameByGet(a: Json, b: Json, k: Key, default: Json)
    requires a.Obj? && b.Obj? && (Has(a, k) <==> Has(b, k)) && Get(a, k) == Get(b, k)
    ensures GetOr(a, k, default) == GetOr(b, k, default)
  {
  }

  predicate AllowedKeys(body: Json)
    requires body.Obj?
  {
    forall k <- body.fields :: k in SERVICE_KEYS && k != Ports && k != Build
  }

  lemma KeysMeet(service: Service, body: Json, image: string)
    requires body.Obj? && body.fields.Keys <= SERVICE_KEYS && (service == Db ==> !Has(body, Build))
    ensures IsolatedService(service, body, image).Obj?
    ensures AllowedKeys(IsolatedService(service, body, image)) <==> !Publishes(service, body)
  {
    hide IsolatedService, HEALTHCHECK_DOUBLED;
    var after := IsolatedService(service, body, image);
    IsolatedMembers(service, body, image, Ports);
    forall k | k in after.fields
      ensures k in SERVICE_KEYS && k != Build && (k == Ports ==> Publishes(service, body))
    {
      IsolatedMembers(service, body, image, k);
    }
    assert Publishes(service, body) ==> Ports in after.fields;
  }

  lemma SameMember(service: Service, body: Json, image: string, k: Key, default: Json)
    requires body.Obj? && k in {Volumes, Environment, Labels, DependsOn, Logging, Networks, Command, Entrypoint}
    ensures Get(IsolatedService(service, body, image), k) == Get(body, k)
    ensures GetOr(IsolatedService(service, body, image), k, default) == GetOr(body, k, default)
  {
    hide IsolatedService, HEALTHCHECK_DOUBLED;
    IsolatedMembers(service, body, image, k);
  }

  lemma PartsMeet(service: Service, body: Json, image: string)
    requires body.Obj? && MountsOk(service, body) && DependenciesOk(service, body) && OptionsOk(body)
    ensures var after := IsolatedService(service, body, image);
            && MountsOk(service, after) && IsolatedDependenciesOk(service, after) && OptionsOk(after)
            && Get(after, Environment) == Get(body, Environment) && Get(after, Labels) == Get(body, Labels)
            && Get(after, Image) == Str(image) && Get(after, Restart) == Str("no")
  {
    hide IsolatedService, HEALTHCHECK_DOUBLED, DbVolumeOk, SERVICE_KEYS;
    SameMember(service, body, image, Volumes, Arr([]));
    SameMember(service, body, image, DependsOn, Obj(map[]));
    SameMember(service, body, image, Environment, Null);
    SameMember(service, body, image, Labels, Null);
    SameMember(service, body, image, Logging, Null);
    SameMember(service, body, image, Networks, Null);
    SameMember(service, body, image, Command, Null);
    SameMember(service, body, image, Entrypoint, Null);
    IsolatedMembers(service, body, image, Healthcheck);
    IsolatedMembers(service, body, image, Image);
    IsolatedMembers(service, body, image, Restart);
  }

  /** A service of the isolated model is valid exactly when it kept no port list, runs an image ID and its
      environment needs no escape. */
  lemma ServiceMeets(e: Expectation, service: Service, mode: EscapeMode, body: Json, image: string)
    requires Fits(e) && EnvelopeService(e, service, mode, body)
    ensures ValidService(e, service, IsolatedService(service, body, image), image) <==>
            && IsImageId(image) && !Publishes(service, body)
            && Get(body, Environment) == Obj(Texts(e.values[service]))
  {
    hide IsolatedService, IsImageId, MountsOk, OptionsOk, DependenciesOk, IsolatedDependenciesOk, EnvironmentMatches,
      Texts, InstanceLabels, Publishes, SERVICE_KEYS;
    KeysMeet(service, body, image);
    PartsMeet(service, body, image);
  }

  // ---------------------------------------------------------------- dollar signs of the isolated model

  lemma ImageIdIsClean(s: string)
    requires IsImageId(s)
    ensures '$' !in s
  {
    forall i | 0 <= i < |s| ensures s[i] != '$' {
      if i < 7 {
        assert s[i] == s[..7][i];
      }
    }
  }

  lemma TextClean(s: string)
    requires '$' !in s
    ensures Clean(Str(s))
  {
  }

  lemma HealthcheckDollars(check: Json)
    requires check.Obj?
    ensures CleanBut(check, [Test]) <==> CleanBut(With(check, Test, HEALTHCHECK_DOUBLED), [Test])
  {
    hide HEALTHCHECK_DOUBLED;
    var more := check.fields[Test := HEALTHCHECK_DOUBLED];
    assert [Test][1..] == [];
    assert forall k <- check.fields :: k != Test ==> k in more && more[k] == check.fields[k];
  }

  predicate MemberClean(service: Service, body: Json, k: Key)
    requires Has(body, k)
  {
    if service == Db && k == Healthcheck then CleanBut(body.fields[k], [Test]) else Clean(body.fields[k])
  }

  lemma MemberDollars(service: Service, body: Json, image: string, k: Key)
    requires body.Obj? && IsImageId(image) && Get(body, Healthcheck).Obj?
    ensures var after := IsolatedService(service, body, image);
            (Has(body, k) ==> KeptCleanAt(service, body, k)) <==> (Has(after, k) ==> MemberClean(service, after, k))
  {
    hide IsolatedService, HEALTHCHECK_DOUBLED, Clean, CleanBut, IsImageId;
    IsolatedMembers(service, body, image, k);
    ImageIdIsClean(image);
    TextClean(image);
    TextClean("no");
    HealthcheckDollars(Get(body, Healthcheck));
  }

  lemma RouteMembers(service: Service, body: Json)
    requires body.Obj?
    ensures (if service == Db then CleanBut(body, [Healthcheck, Test]) else Clean(body)) <==>
            forall k <- body.fields :: MemberClean(service, body, k)
  {
    assert [Healthcheck, Test][1..] == [Test];
  }

  /** One service: its dollar signs outside the test are the ones of the kept parts. */
  lemma ServiceDollars(service: Service, body: Json, image: string)
    requires body.Obj? && IsImageId(image) && Get(body, Healthcheck).Obj?
    ensures var after := IsolatedService(service, body, image);
            KeptClean(service, body) <==>
            if service == Db then CleanBut(after, [Healthcheck, Test]) else Clean(after)
  {
    hide HEALTHCHECK_DOUBLED, Clean, CleanBut, IsImageId, KeptCleanAt, MemberClean;
    var after := IsolatedService(service, body, image);
    RouteMembers(service, after);
    hide IsolatedService;
    forall k: Key
      ensures (Has(body, k) ==> KeptCleanAt(service, body, k)) <==> (Has(after, k) ==> MemberClean(service, after, k))
    {
      MemberDollars(service, body, image, k);
    }
  }

  function Follow(v: Json, route: seq<Key>): Json
    decreases |route|
  {
    if route == [] then v else Follow(Get(v, route[0]), route[1..])
  }

  /** A dollar sign under a route that leads to a list is inside one of its items. */
  lemma {:induction false} RouteEndsInList(v: Json, path: seq<Step>, route: seq<Key>, p: seq<Step>)
    requires Follow(v, route).Arr? && p in DollarPaths(v, path) && path + Members(route) <= p
    ensures |p| > |path| + |route| && p[|path| + |route|].Item?
    decreases |route|
  {
    if route == [] {
      var i :| 0 <= i < |v.items| && p in DollarPaths(v.items[i], path + [Item(i)]);
      PathsUnder(v.items[i], path + [Item(i)]);
      assert p[|path|] == (path + [Item(i)])[|path|];
    } else {
      NotNull(v, route);
      var k :| k in v.fields && p in DollarPaths(v.fields[k], path + [Member(k)]);
      PathsUnder(v.fields[k], path + [Member(k)]);
      assert p[|path|] == (path + [Member(k)])[|path|] == (path + Members(route))[|path|];
      assert path + [Member(k)] + Members(route[1..]) == path + Members(route);
      RouteEndsInList(v.fields[k], path + [Member(k)], route[1..], p);
    }
  }

  lemma {:induction false} NotNull(v: Json, route: seq<Key>)
    requires route != [] && Follow(v, route).Arr?
    ensures v.Obj? && route[0] in v.fields
  {
    if !Has(v, route[0]) {
      NullLeadsNowhere(route[1..]);
    }
  }

  lemma {:induction false} NullLeadsNowhere(route: seq<Key>)
    ensures Follow(Null, route) == Null
  {
    if route != [] {
      NullLeadsNowhere(route[1..]);
    }
  }

  lemma TestIsList(model: Json)
    requires ModeIs(Doubled, model)
    ensures Follow(model, TEST_ROUTE).Arr?
  {
    var a, b, c := TEST_ROUTE[1..], TEST_ROUTE[2..], TEST_ROUTE[3..];
    assert a[1..] == b && b[1..] == c && c[1..] == [];
    var services := Get(model, Services);
    assert Follow(model, TEST_ROUTE) == Follow(services, a) == Follow(Get(services, Of(Db)), b);
    var check := Get(Get(services, Of(Db)), Healthcheck);
    assert Follow(Get(services, Of(Db)), b) == Follow(check, c) == Follow(Get(check, Test), []);
  }

  /** The whole model: dollar signs stand only inside the test exactly when there are none beside the route. */
  lemma ModelDollars(model: Json)
    requires ModeIs(Doubled, model)
    ensures DollarsOk(model) <==> CleanBut(model, TEST_ROUTE)
  {
    hide HEALTHCHECK_DOUBLED, ModeIs, DollarPaths, CleanBut, Follow;
    TestIsList(model);
    CleanButPaths(model, [], TEST_ROUTE);
    forall p | p in DollarPaths(model, []) ensures Under(p, [], TEST_ROUTE) <==> InTest(p) {
      FourSteps(p);
      if Members(TEST_ROUTE) <= p {
        assert [] + Members(TEST_ROUTE) == Members(TEST_ROUTE);
        RouteEndsInList(model, [], TEST_ROUTE, p);
      }
    }
  }

  lemma FourSteps(p: seq<Step>)
    ensures Under(p, [], TEST_ROUTE) <==>
            |p| > 3 && p[..3] == Members(TEST_ROUTE[..3]) && p[3].Member? && IsAlong(p[3].key, Test)
    ensures |p| > 3 && p[..3] == Members(TEST_ROUTE[..3]) && p[3] == Member(Test) ==> Members(TEST_ROUTE) <= p
  {
    var short, a, b, c := Members(TEST_ROUTE[..3]), TEST_ROUTE[1..], TEST_ROUTE[2..], TEST_ROUTE[3..];
    assert a[1..] == b && b[1..] == c && c[1..] == [] && a[0] == Of(Db) && b[0] == Healthcheck && c[0] == Test;
    assert short == [Member(Services), Member(Of(Db)), Member(Healthcheck)] && p[0..] == p;
    assert Goes(p, TEST_ROUTE) <==> p != [] && p[0] == Member(Services) && Goes(p[1..], a);
    assert p != [] ==> (Goes(p[1..], a) <==> |p| > 1 && p[1] == Member(Of(Db)) && Goes(p[1..][1..], b));
    assert |p| > 1 ==> p[1..][1..] == p[2..];
    assert |p| > 1 ==> (Goes(p[2..], b) <==> |p| > 2 && p[2] == Member(Healthcheck) && Goes(p[2..][1..], c));
    assert |p| > 2 ==> p[2..][1..] == p[3..];
    assert |p| > 2 ==>
             (Goes(p[3..], c) <==> |p| > 3 && p[3].Member? && IsAlong(p[3].key, Test) && Goes(p[3..][1..], []));
    if |p| > 3 {
      assert p[..3] == [p[0], p[1], p[2]];
      if p[..3] == short && p[3] == Member(Test) {
        assert p[..4] == Members(TEST_ROUTE);
      }
    }
  }

  lemma RouteHead(v: Json, route: seq<Key>)
    requires route != [] && Has(v, route[0]) && route[0] != Test
    ensures CleanBut(v, route) <==> CleanBut(v.fields[route[0]], route[1..]) && Clean(Without(v, route[0]))
  {
    var fewer := v.fields - {route[0]};
    assert forall k :: k in fewer <==> k in v.fields && k != route[0];
    assert forall k <- fewer :: fewer[k] == v.fields[k];
  }

  lemma OtherServices(services: map<Key, Json>)
    requires services.Keys == {Of(Db), Of(Backend), Of(Frontend)}
    ensures Clean(Without(Obj(services), Of(Db))) <==> Clean(services[Of(Backend)]) && Clean(services[Of(Frontend)])
  {
    var fewer := services - {Of(Db)};
    assert fewer.Keys == {Of(Backend), Of(Frontend)};
    assert forall k <- fewer :: fewer[k] == services[k];
  }

  /** The internal flag of the network has no dollar sign. */
  lemma NetworkDollars(model: Json, images: Images)
    requires model.Obj? && ModelShape(model) && Services in model.fields && Networks in model.fields
    ensures Clean(Without(Isolated(model, images), Services)) <==> Clean(Without(model, Services))
  {
    hide Clean, IsolatedServices;
    var network := Get(Get(model, Networks), Default);
    var changed := With(Get(model, Networks), Default, With(network, Internal, Bool(true)));
    TrueIsClean();
    CleanWith(network, Internal, Bool(true));
    CleanWithSame(Get(model, Networks), Default, With(network, Internal, Bool(true)));
    assert Without(Isolated(model, images), Services) == With(Without(model, Services), Networks, changed);
    CleanWithSame(Without(model, Services), Networks, changed);
  }

  lemma TrueIsClean()
    ensures Clean(Bool(true))
  {
  }

  lemma CleanWith(o: Json, k: Key, v: Json)
    requires o.Obj? && Clean(v) && (k in o.fields ==> Clean(o.fields[k]))
    ensures Clean(With(o, k, v)) <==> Clean(o)
  {
    var more := o.fields[k := v];
    assert forall x <- o.fields :: x != k ==> more[x] == o.fields[x];
  }

  lemma CleanWithSame(o: Json, k: Key, v: Json)
    requires Has(o, k) && (Clean(v) <==> Clean(o.fields[k]))
    ensures Clean(With(o, k, v)) <==> Clean(o)
  {
    var more := o.fields[k := v];
    assert more.Keys == o.fields.Keys && forall x <- o.fields :: x != k ==> more[x] == o.fields[x];
  }

  /** Beside the test, the isolated model has the dollar signs of the kept parts and no other. */
  lemma KeptDollars(model: Json, images: Images)
    requires model.Obj? && ModelShape(model) && Services in model.fields && Networks in model.fields
    requires forall s <- SERVICES :: IsImageId(images.For(s)) && Get(ServiceOf(model, s), Healthcheck).Obj?
    ensures CleanBut(Isolated(model, images), TEST_ROUTE) <==>
            && KeptClean(Db, ServiceOf(model, Db)) && KeptClean(Backend, ServiceOf(model, Backend))
            && KeptClean(Frontend, ServiceOf(model, Frontend)) && Clean(Without(model, Services))
  {
    hide HEALTHCHECK_DOUBLED, IsImageId, KeptClean, Clean, CleanBut, IsolatedService;
    var after := Isolated(model, images);
    var services := IsolatedServices(Get(model, Services), images).fields;
    assert Db in SERVICES && Backend in SERVICES && Frontend in SERVICES;
    ServiceDollars(Db, ServiceOf(model, Db), images.db);
    ServiceDollars(Backend, ServiceOf(model, Backend), images.backend);
    ServiceDollars(Frontend, ServiceOf(model, Frontend), images.frontend);
    assert TEST_ROUTE[1..] == [Of(Db), Healthcheck, Test] && TEST_ROUTE[1..][1..] == [Healthcheck, Test];
    RouteHead(after, TEST_ROUTE);
    RouteHead(Obj(services), TEST_ROUTE[1..]);
    OtherServices(services);
    NetworkDollars(model, images);
  }

  predicate ModelShape(model: Json) {
    && Get(model, Services).Obj? && Get(model, Services).fields.Keys == {Of(Db), Of(Backend), Of(Frontend)}
    && (forall k <- Get(model, Services).fields :: Get(model, Services).fields[k].Obj?)
    && Get(model, Networks).Obj? && Get(Get(model, Networks), Default).Obj?
    && Internal !in Get(Get(model, Networks), Default).fields
  }

  function ServiceOf(model: Json, s: Service): Json {
    Get(Get(model, Services), Of(s))
  }

  lemma EveryService(s: Service)
    ensures s in SERVICES
  {
    assert s == SERVICES[0] || s == SERVICES[1] || s == SERVICES[2];
  }

  lemma ServiceIsObject(e: Expectation, service: Service, mode: EscapeMode, body: Json)
    requires Fits(e) && service in SERVICES && EnvelopeService(e, service, mode, body)
    ensures body.Obj? && Get(body, Healthcheck).Obj?
  {
  }

  lemma NetworkMeets(e: Expectation, network: Json)
    requires EnvelopeNetwork(e, network)
    ensures Internal !in network.fields && InternalNetwork(e, With(network, Internal, Bool(true)))
  {
  }

  lemma EnvelopeShape(e: Expectation, mode: EscapeMode, model: Json)
    requires Fits(e) && Envelope(e, mode, model)
    ensures ModelShape(model) && Services in model.fields && Networks in model.fields
    ensures forall s: Service ::
              && s in SERVICES && s in e.values && e.values[s].Keys == EnvironmentKeys(s)
              && EnvelopeService(e, s, mode, ServiceOf(model, s))
              && Get(ServiceOf(model, s), Healthcheck).Obj?
  {
    hide EnvelopeService, EnvelopeNetwork, ModeIs, TopVolumesOk;
    forall s: Service
      ensures s in SERVICES && ServiceOf(model, s).Obj? && Get(ServiceOf(model, s), Healthcheck).Obj?
    {
      EveryService(s);
      ServiceIsObject(e, s, mode, ServiceOf(model, s));
    }
    NetworkMeets(e, Get(Get(model, Networks), Default));
    forall k | k in Get(model, Services).fields ensures Get(model, Services).fields[k].Obj? {
      assert Get(model, Services).fields[k] == ServiceOf(model, k.service);
    }
  }

  lemma DoubledAfter(body: Json, image: string)
    requires body.Obj? && Get(body, Healthcheck).Obj?
    ensures Get(Get(IsolatedService(Db, body, image), Healthcheck), Test) == HEALTHCHECK_DOUBLED
  {
    hide HEALTHCHECK_DOUBLED, IsolatedService;
    IsolatedMembers(Db, body, image, Healthcheck);
  }

  /** What the isolated model has outside its services. */
  lemma FrameMeets(e: Expectation, mode: EscapeMode, model: Json, images: Images)
    requires Fits(e) && Envelope(e, mode, model) && ModelShape(model)
    requires Services in model.fields && Networks in model.fields && Get(ServiceOf(model, Db), Healthcheck).Obj?
    ensures var after := Isolated(model, images);
            && after.Obj? && after.fields.Keys <= TOP_LEVEL && Get(after, Name) == Str(e.project)
            && Get(after, Services) == IsolatedServices(Get(model, Services), images)
            && ModeIs(Doubled, after) && TopVolumesOk(e, Get(after, Volumes))
            && Get(after, Networks).Obj? && Get(after, Networks).fields.Keys == {Default}
            && InternalNetwork(e, Get(Get(after, Networks), Default))
  {
    hide EnvelopeService, EnvelopeNetwork, InternalNetwork, HEALTHCHECK_LITERAL, HEALTHCHECK_DOUBLED, TopVolumesOk,
      IsolatedService;
    NetworkMeets(e, Get(Get(model, Networks), Default));
    DoubledAfter(ServiceOf(model, Db), images.db);
    assert Get(IsolatedServices(Get(model, Services), images), Of(Db))
        == IsolatedService(Db, ServiceOf(model, Db), images.db);
  }

  /** The isolation of an accepted model passes the independent allowlist exactly when neither database nor
      backend has a port list, the images are image IDs and the kept parts have no dollar sign. */
  lemma IsolationMeetsAllowlist(e: Expectation, mode: EscapeMode, model: Json, images: Images)
    requires Fits(e) && Envelope(e, mode, model) && ModelShape(model)
    ensures ValidIsolated(e, Isolated(model, images), images) <==> Isolable(model, images)
  {
    hide Envelope, EnvelopeService, ValidService, IsolatedService, HEALTHCHECK_DOUBLED, IsImageId, KeptClean, Clean,
      CleanBut, DollarsOk, ModeIs, TopVolumesOk, InternalNetwork, EnvironmentKeys, Isolated, Texts;
    var after := Isolated(model, images);
    EnvelopeShape(e, mode, model);
    FrameMeets(e, mode, model, images);
    ModelDollars(after);
    ServicesMeet(e, mode, model, images);
    if forall s <- SERVICES :: IsImageId(images.For(s)) {
      KeptDollars(model, images);
    }
  }

  lemma ServicesMeet(e: Expectation, mode: EscapeMode, model: Json, images: Images)
    requires Fits(e) && ModelShape(model)
    requires forall s: Service :: s in SERVICES && EnvelopeService(e, s, mode, ServiceOf(model, s))
    ensures forall s: Service ::
              var after := Get(IsolatedServices(Get(model, Services), images), Of(s));
              ValidService(e, s, after, images.For(s)) <==>
              && IsImageId(images.For(s)) && !Publishes(s, ServiceOf(model, s))
              && Get(ServiceOf(model, s), Environment) == Obj(Texts(e.values[s]))
    ensures forall s: Service ::
              KeptClean(s, ServiceOf(model, s)) ==> Get(ServiceOf(model, s), Environment) == Obj(Texts(e.values[s]))
  {
    hide EnvelopeService, ValidService, IsolatedService, IsImageId, KeptClean, Texts, Publishes;
    forall s: Service
      ensures var after := Get(IsolatedServices(Get(model, Services), images), Of(s));
              ValidService(e, s, after, images.For(s)) <==>
              && IsImageId(images.For(s)) && !Publishes(s, ServiceOf(model, s))
              && Get(ServiceOf(model, s), Environment) == Obj(Texts(e.values[s]))
      ensures KeptClean(s, ServiceOf(model, s)) ==>
                Get(ServiceOf(model, s), Environment) == Obj(Texts(e.values[s]))
    {
      assert s == Db || s == Backend || s == Frontend;
      ServiceMeets(e, s, mode, ServiceOf(model, s), images.For(s));
      if KeptClean(s, ServiceOf(model, s)) {
        KeptEnvironment(e, s, mode, ServiceOf(model, s));
      }
    }
  }

  lemma KeptEnvironment(e: Expectation, service: Service, mode: EscapeMode, body: Json)
    requires Fits(e) && EnvelopeService(e, service, mode, body) && KeptClean(service, body)
    ensures Get(body, Environment) == Obj(Texts(e.values[service]))
  {
    assert KeptCleanAt(service, body, Environment);
    CleanEnvironment(e, service, mode, Get(body, Environment));
  }
}
