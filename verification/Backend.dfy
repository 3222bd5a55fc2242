/**
 What the driver relies on of the Quobyte API: names are unique within a tenant,
 UUIDs are never given out twice, and a UUID resolves to itself. A call may be
 refused, or take effect although its answer is lost.
 */
module Backend {
  import opened Options
  import opened GoStrings
  import opened Paths
  import opened Handles
  import opened Labels

  predicate IsHexOrDash(c: char) {
    '0' <= c <= '9' || 'a' <= c <= 'f' || 'A' <= c <= 'F' || c == '-'
  }

  /** The shape by which the client library tells a UUID from a name. */
  predicate IsUuid(s: string) {
    |s| == 36 && forall c <- s :: IsHexOrDash(c)
  }

  /** A tenant as handles carry it: its UUID, or nothing when none was configured. */
  predicate IsTenant(s: string) {
    s == "" || IsUuid(s)
  }

  /** UUIDs fit into handles and paths, and a tenant's is never taken for a snapshot PV. */
  lemma UuidShape(u: string)
    requires IsTenant(u)
    ensures NoSep(u) && '@' !in u && !HasPrefix(u, SNAPSHOT_PREFIX)
    ensures u != "" ==> Plain(u) && u[0] != '.'
  {
    assert SNAPSHOT_PREFIX[0] == 'S';
    assert u != "" ==> u[0] in u;
  }

  datatype VolumeKey = VolumeKey(tenant: string, name: string)

  datatype VolumeSpec = VolumeSpec(user: string, group: string, labels: seq<Label>, accessMode: int)

  /** Snapshots by name, each pinned or not. */
  datatype Volume = Volume(spec: VolumeSpec, quota: Option<int>, snapshots: map<string, bool>)

  datatype Task = DeleteFiles(volume: string, directory: string)

  /** `issued` is every volume UUID ever given out, and what it was given out for. */
  datatype Backend = Backend(tenants: map<string, string>, names: map<VolumeKey, string>,
                             volumes: map<string, Volume>, issued: map<string, VolumeKey>,
                             tasks: seq<Task>)

  ghost predicate Valid(b: Backend) {
    && (forall k <- b.names :: b.names[k] in b.volumes && b.names[k] in b.issued && b.issued[b.names[k]] == k)
    && (forall u <- b.volumes :: u in b.issued && b.issued[u] in b.names && b.names[b.issued[u]] == u)
    && (forall u <- b.issued :: IsUuid(u) && IsTenant(b.issued[u].tenant))
    && (forall t <- b.tenants :: IsUuid(b.tenants[t]))
  }

  /** Tenants stay, and a UUID is never given out for anything else. */
  ghost predicate Grows(b: Backend, b': Backend) {
    && b'.tenants == b.tenants
    && forall u <- b.issued :: u in b'.issued && b'.issued[u] == b.issued[u]
  }

  datatype Fault = Works | Refused | Lost

  function TenantIn(tenants: map<string, string>, tenant: string): Option<string> {
    if IsTenant(tenant) then Some(tenant)
    else if tenant in tenants then Some(tenants[tenant])
    else None
  }

  function TenantUuid(b: Backend, tenant: string): Option<string> {
    TenantIn(b.tenants, tenant)
  }

  function ResolveName(b: Backend, key: VolumeKey): Option<string> {
    if key in b.names then Some(b.names[key]) else None
  }

  /** Only a name is looked up. */
  function VolumeUuid(b: Backend, volume: string, tenant: string): Option<string> {
    if volume == "" || IsUuid(volume) then Some(volume)
    else
      match TenantUuid(b, tenant)
      case Some(t) => ResolveName(b, VolumeKey(t, volume))
      case None => None
  }

  datatype CreateResult = New(uuid: string) | AlreadyExists | CreateFailed

  function CreateVolume(b: Backend, key: VolumeKey, spec: VolumeSpec, fault: Fault, uuid: string):
    (Backend, CreateResult)
  {
    if fault.Refused? then (b, CreateFailed)
    else if key in b.names then (b, if fault.Works? then AlreadyExists else CreateFailed)
    else
      (b.(names := b.names[key := uuid],
          volumes := b.volumes[uuid := Volume(spec, None, map[])],
          issued := b.issued[uuid := key]),
       if fault.Works? then New(uuid) else CreateFailed)
  }

  function SetVolumeQuota(b: Backend, uuid: string, capacity: int, fault: Fault): (Backend, bool) {
    if fault.Refused? || uuid !in b.volumes then (b, false)
    else (b.(volumes := b.volumes[uuid := b.volumes[uuid].(quota := Some(capacity))]), fault.Works?)
  }

  /** Delete or erase. Whether removing a volume that is gone is an error is left to the API. */
  function RemoveVolume(b: Backend, uuid: string, fault: Fault): (Backend, bool) {
    if fault.Refused? then (b, false)
    else (if uuid in b.volumes && uuid in b.issued
          then b.(volumes := b.volumes - {uuid}, names := b.names - {b.issued[uuid]}) else b,
          fault.Works?)
  }

  function CreateTask(b: Backend, task: Task, fault: Fault): (Backend, bool) {
    if fault.Refused? then (b, false) else (b.(tasks := b.tasks + [task]), fault.Works?)
  }

  /** At most the one volume is added, and only if there was none of its name. */
  ghost predicate AddsOnly(b: Backend, b': Backend, key: VolumeKey) {
    && Valid(b') && Grows(b, b') && b'.tasks == b.tasks
    && (key in b.names ==> b' == b)
    && (forall u <- b.volumes :: u in b'.volumes && b'.volumes[u] == b.volumes[u])
    && (forall u <- b'.volumes :: u in b.volumes || b'.issued[u] == key)
  }

  lemma CreateKeeps(b: Backend, key: VolumeKey, spec: VolumeSpec, fault: Fault, uuid: string)
    requires Valid(b) && IsTenant(key.tenant) && IsUuid(uuid) && uuid !in b.issued
    ensures var r := CreateVolume(b, key, spec, fault, uuid);
            && AddsOnly(b, r.0, key)
            && (!r.1.CreateFailed? ==> key in r.0.names)
            && (r.1.New? ==> r.0.names[key] == r.1.uuid)
  {
    if !fault.Refused? && key !in b.names {
      AddKeeps(b, key, spec, uuid);
    }
  }

  lemma AddKeeps(b: Backend, key: VolumeKey, spec: VolumeSpec, uuid: string)
    requires Valid(b) && IsTenant(key.tenant) && IsUuid(uuid) && uuid !in b.issued && key !in b.names
    ensures var b' := b.(names := b.names[key := uuid], volumes := b.volumes[uuid := Volume(spec, None, map[])],
                         issued := b.issued[uuid := key]);
            Valid(b') && Grows(b, b') && uuid !in b.volumes
  {
    assert forall u <- b.volumes :: u in b.issued;
  }

  lemma QuotaKeeps(b: Backend, uuid: string, capacity: int, fault: Fault)
    requires Valid(b)
    ensures var r := SetVolumeQuota(b, uuid, capacity, fault);
            && Valid(r.0) && Grows(b, r.0) && r.0.names == b.names && r.0.volumes.Keys == b.volumes.Keys
            && r.0.issued == b.issued
            && (forall u <- b.volumes :: u != uuid ==> r.0.volumes[u] == b.volumes[u])
            && (r.1 ==> uuid in b.volumes && r.0.volumes[uuid] == b.volumes[uuid].(quota := Some(capacity)))
  {
  }

  lemma RemoveKeeps(b: Backend, uuid: string, fault: Fault)
    requires Valid(b)
    ensures var r := RemoveVolume(b, uuid, fault);
            && Valid(r.0) && Grows(b, r.0) && r.0.issued == b.issued
            && r.0.volumes == (if fault.Refused? then b.volumes else b.volumes - {uuid})
            && (!fault.Refused? && uuid in b.issued && uuid in b.volumes ==> b.issued[uuid] !in r.0.names)
  {
    if !fault.Refused? && uuid !in b.volumes {
      assert b.volumes - {uuid} == b.volumes;
    }
  }

  /** What a tenant is called in a handle or a StorageClass: its UUID, nothing, or its name. */
  ghost predicate MeansTenant(b: Backend, tenant: string, uuid: string) {
    if IsTenant(tenant) then uuid == tenant else tenant in b.tenants && uuid == b.tenants[tenant]
  }

  /** A volume's name is looked up in the tenant given with it, and in no other. */
  lemma NameLookup(b: Backend, tenant: string, volume: string, t: string)
    requires MeansTenant(b, tenant, t) && volume != "" && !IsUuid(volume)
    ensures TenantUuid(b, tenant) == Some(t)
    ensures VolumeUuid(b, volume, tenant) ==
              if VolumeKey(t, volume) in b.names then Some(b.names[VolumeKey(t, volume)]) else None
  {
  }

  lemma UnknownTenant(b: Backend, tenant: string, volume: string)
    requires !IsTenant(tenant) && tenant !in b.tenants && volume != "" && !IsUuid(volume)
    ensures TenantUuid(b, tenant).None? && VolumeUuid(b, volume, tenant).None?
  {
  }
}
