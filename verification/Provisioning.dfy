/**
 `CreateVolume` against the modelled backend and file system: what one call does,
 as a function of the world, the request and what the environment answers.
 */
module Provisioning {
  import opened Options
  import opened GoStrings
  import opened Handles
  import opened AccessModes
  import opened ClientCache
  import opened Parameters
  import opened B = Backend
  import D = DirectoryMaker

  const NAMESPACE_KEY := "csi.storage.k8s.io/pvc/namespace"
  const SNAPSHOT_ID_KEY := "snapshot_id_key"

  datatype Config = Config(mount: string, name: string, namespaceAsTenant: bool, useDeleteFilesTask: bool)

  /**
   The backend, and the directories below the client mount point by path. A
   directory below an erased volume may stay listed; its UUID never comes back.
   */
  datatype World = World(backend: Backend, nodes: D.Nodes)

  ghost predicate ValidWorld(w: World) {
    Valid(w.backend) && D.Recorded(w.nodes)
  }

  datatype Capability = Block | Mount(flags: seq<string>) | NoAccessType

  datatype Source = NoSource | FromVolume | FromSnapshot(snapshotId: string)

  datatype CreateRequest = CreateRequest(name: string, capacity: Option<int>, params: Option<Params>,
                                         secrets: Secrets, capabilities: seq<Capability>, source: Source)

  datatype Login = Login(user: string, group: string)

  /**
   What a call meets: the iteration order of the parameter map, the answers of the
   API and the UUID it would hand out next, and the directory maker's faults.
   */
  datatype Env = Env(order: seq<string>, login: Option<Login>, tenantFault: bool,
                     create: Fault, uuid: string, resolveFault: bool,
                     quota: Fault, rollback: Fault, mkdir: D.Faults)

  datatype Response =
    | Created(volumeId: string, capacity: int, context: map<string, string>)
    | Failed

  /** The loop meets only keys of the map. */
  predicate Ordered(req: CreateRequest, env: Env) {
    req.params.Some? ==> forall k <- env.order :: k in req.params.value
  }

  ghost predicate EnvOk(w: World, req: CreateRequest, env: Env) {
    && Ordered(req, env)
    && (req.params.Some? ==> Iterates(env.order, req.params.value.Keys))
    && IsUuid(env.uuid) && env.uuid !in w.backend.issued
    && env.mkdir.initial.Dir?
  }

  predicate Acceptable(req: CreateRequest) {
    req.capacity.Some? && req.params.Some? && req.secrets != map[] && Block !in req.capabilities
  }

  /** A PV restored from a snapshot: nothing is created, the snapshot id travels in the volume context. */
  function SnapshotResponse(req: CreateRequest): Response
    requires req.capacity.Some? && req.source.FromSnapshot?
  {
    if |Split(req.source.snapshotId, SEP)| < 3 then Failed
    else Created(SNAPSHOT_PREFIX + req.name, req.capacity.value, map[SNAPSHOT_ID_KEY := req.source.snapshotId])
  }

  /** The request as the parameters leave it, with the tenant still as configured. */
  function Configured(cfg: Config, params: Params, pvName: string, order: seq<string>, login: Login): Option<Settings>
    requires forall k <- order :: k in params
  {
    match Fold(params, order, Initial(params, pvName, login.user, login.group))
    case None => None
    case Some(s) =>
      if s.group == "" then None
      else if s.tenant == "" && cfg.namespaceAsTenant then
        if NAMESPACE_KEY in params then Some(s.(tenant := params[NAMESPACE_KEY])) else None
      else Some(s)
  }

  /** Everything up to the first call that changes anything; the tenant is resolved. */
  function Prepared(cfg: Config, b: Backend, req: CreateRequest, env: Env): Option<Settings>
    requires req.params.Some? && Ordered(req, env)
  {
    if Choose(req.secrets).None? || env.login.None? then None
    else
      match Configured(cfg, req.params.value, req.name, env.order, env.login.value)
      case None => None
      case Some(s) =>
        if s.tenant == "" then Some(s)
        else if env.tenantFault || TenantUuid(b, s.tenant).None? then None
        else Some(s.(tenant := TenantUuid(b, s.tenant).value))
  }

  function KeyFor(s: Settings): VolumeKey {
    VolumeKey(s.tenant, s.name)
  }

  function SpecFor(s: Settings): VolumeSpec {
    VolumeSpec(s.user, s.group, s.labels, s.accessMode)
  }

  /** Create the volume, or find the one that already exists. */
  function Obtain(b: Backend, s: Settings, env: Env): (Backend, Option<string>) {
    var r := CreateVolume(b, KeyFor(s), SpecFor(s), env.create, env.uuid);
    match r.1
    case New(uuid) => (r.0, Some(uuid))
    case AlreadyExists => (r.0, if env.resolveFault then None else ResolveName(r.0, KeyFor(s)))
    case CreateFailed => (r.0, None)
  }

  /** Set the quota; when that fails, delete the volume and ignore whether it worked. */
  function Reserve(b: Backend, uuid: string, capacity: int, env: Env): (Backend, bool) {
    var r := SetVolumeQuota(b, uuid, capacity, env.quota);
    if r.1 then r else (RemoveVolume(r.0, uuid, env.rollback).0, false)
  }

  function DirectoryRequest(s: Settings): D.Request {
    D.Request(if s.configuredMode == 0 then DEFAULT_SUBDIRECTORY_MODE else s.configuredMode, s.user, s.group)
  }

  function MakeDirectory(acc: D.Accounts, nodes: D.Nodes, path: string, s: Settings, f: D.Faults): (D.Nodes, bool) {
    var r := D.Solo(DirectoryRequest(s), acc, D.At(nodes, path), f);
    (D.Put(nodes, path, r.0), r.1)
  }

  /** From the settings on. */
  function Provision(cfg: Config, acc: D.Accounts, w: World, shared: bool, pvName: string, capacity: int,
                     s: Settings, env: Env): (World, Option<string>)
  {
    var o := Obtain(w.backend, s, env);
    match o.1
    case None => (w.(backend := o.0), None)
    case Some(uuid) =>
      if shared then
        var m := MakeDirectory(acc, w.nodes, ClaimDirectory(cfg.mount, uuid, pvName), s, env.mkdir);
        (World(o.0, m.0), if m.1 then Some(ThreePart(s.tenant, uuid, pvName)) else None)
      else if s.createQuota then
        var q := Reserve(o.0, uuid, capacity, env);
        (w.(backend := q.0), if q.1 then Some(TwoPart(s.tenant, uuid)) else None)
      else
        (w.(backend := o.0), Some(TwoPart(s.tenant, uuid)))
  }

  function Create(cfg: Config, acc: D.Accounts, w: World, req: CreateRequest, env: Env): (World, Response)
    requires Ordered(req, env)
  {
    if !Acceptable(req) then (w, Failed)
    else if req.source.FromSnapshot? then (w, SnapshotResponse(req))
    else
      match Prepared(cfg, w.backend, req, env)
      case None => (w, Failed)
      case Some(s) =>
        var r := Provision(cfg, acc, w, IsShared(req.params.value), req.name, req.capacity.value, s, env);
        (r.0, if r.1.Some? then Created(r.1.value, req.capacity.value, map[]) else Failed)
  }

  /** The world a volume request works on, and the settings it reached; for the statements below. */
  ghost predicate Reaches(cfg: Config, b: Backend, req: CreateRequest, env: Env, s: Settings) {
    && Acceptable(req) && !req.source.FromSnapshot?
    && Ordered(req, env)
    && Prepared(cfg, b, req, env) == Some(s)
  }

  /** The tenant's UUID for a `quobyteTenant` parameter that may be empty. */
  function TenantFor(cfg: Config, tenants: map<string, string>, params: Params, configured: string): string {
    var tenant := if configured == "" && cfg.namespaceAsTenant && NAMESPACE_KEY in params
                  then params[NAMESPACE_KEY] else configured;
    if tenant == "" || TenantIn(tenants, tenant).None? then "" else TenantIn(tenants, tenant).value
  }

  /** What the settings owe to the parameter loop. */
  lemma PreparedFrom(cfg: Config, b: Backend, req: CreateRequest, env: Env, folded: Option<Settings>)
    requires req.params.Some? && Ordered(req, env) && Prepared(cfg, b, req, env).Some?
    requires env.login.Some? ==>
               folded == Fold(req.params.value, env.order,
                              Initial(req.params.value, req.name, env.login.value.user, env.login.value.group))
    ensures env.login.Some? && folded.Some? && folded.value.group != ""
    ensures Prepared(cfg, b, req, env).value ==
              folded.value.(tenant := TenantFor(cfg, b.tenants, req.params.value, folded.value.tenant))
  {
  }

  lemma PreparedTenant(cfg: Config, b: Backend, req: CreateRequest, env: Env)
    requires Valid(b) && req.params.Some? && Ordered(req, env)
    ensures Prepared(cfg, b, req, env).Some? ==> IsTenant(Prepared(cfg, b, req, env).value.tenant)
  {
  }

  /** What is there after the volume was created or found, whatever else goes wrong. */
  lemma ObtainKeeps(b: Backend, s: Settings, env: Env)
    requires Valid(b) && IsTenant(s.tenant) && IsUuid(env.uuid) && env.uuid !in b.issued
    ensures var o := Obtain(b, s, env);
            && AddsOnly(b, o.0, KeyFor(s))
            && (o.1.Some? ==> KeyFor(s) in o.0.names && o.0.names[KeyFor(s)] == o.1.value)
  {
    CreateKeeps(b, KeyFor(s), SpecFor(s), env.create, env.uuid);
    ObtainIs(b, s, env);
  }

  lemma ObtainIs(b: Backend, s: Settings, env: Env)
    ensures var o, r := Obtain(b, s, env), CreateVolume(b, KeyFor(s), SpecFor(s), env.create, env.uuid);
            && o.0 == r.0
            && (o.1.Some? ==> || r.1 == New(o.1.value)
                              || (r.1.AlreadyExists? && KeyFor(s) in r.0.names && r.0.names[KeyFor(s)] == o.1.value))
  {
  }

  lemma ReserveKeeps(b: Backend, uuid: string, capacity: int, env: Env)
    requires Valid(b) && uuid in b.volumes
    ensures var q := Reserve(b, uuid, capacity, env);
            && Valid(q.0) && Grows(b, q.0) && q.0.issued == b.issued && q.0.tasks == b.tasks
            && (forall u <- b.volumes :: u != uuid ==> u in q.0.volumes && q.0.volumes[u] == b.volumes[u])
            && q.0.volumes.Keys <= b.volumes.Keys
            && (q.1 ==> uuid in q.0.volumes && q.0.names == b.names &&
                        q.0.volumes[uuid] == b.volumes[uuid].(quota := Some(capacity)))
            && (!q.1 && !env.rollback.Refused? ==> uuid !in q.0.volumes && b.issued[uuid] !in q.0.names)
            && (!q.1 && env.rollback.Refused? ==> uuid in q.0.volumes)
  {
    QuotaKeeps(b, uuid, capacity, env.quota);
    RemoveKeeps(SetVolumeQuota(b, uuid, capacity, env.quota).0, uuid, env.rollback);
  }
}
