/**
 `DeleteVolume` and expansion on any handle, and what they do to the handles that
 `CreateVolume` hands out.
 */
module Lifecycle {
  import opened Options
  import opened GoStrings
  import opened Paths
  import opened Markers
  import opened Handles
  import opened ClientCache
  import opened B = Backend
  import opened Provisioning
  import D = DirectoryMaker

  /** How the calls of one `DeleteVolume` go. */
  datatype DeleteEnv = DeleteEnv(erase: Fault, rename: Option<D.Errno>, task: Fault)

  /** The world afterwards, and whether the call succeeded. A missing directory counts as deleted. */
  function Delete(cfg: Config, w: World, volumeId: string, secrets: Secrets, env: DeleteEnv): (World, bool) {
    match PlanDelete(volumeId)
    case Refuse => (w, false)
    case Ignore => (w, true)
    case Erase(tenant, volume) =>
      if Choose(secrets).None? || VolumeUuid(w.backend, volume, tenant).None? then (w, false)
      else
        var r := RemoveVolume(w.backend, VolumeUuid(w.backend, volume, tenant).value, env.erase);
        (w.(backend := r.0), r.1)
    case DropSubdirectory(volume, sub) =>
      if Choose(secrets).None? then (w, false)
      else if cfg.useDeleteFilesTask then
        var r := CreateTask(w.backend, DeleteFiles(volume, TaskPath(sub)), env.task);
        (w.(backend := r.0), r.1)
      else
        var r := D.RenameNode(w.nodes, ClaimDirectory(cfg.mount, volume, sub),
                              MarkerDirectory(cfg.mount, cfg.name, volume, sub), env.rename);
        (w.(nodes := r.0), r.1.None? || r.1 == Some(D.ENOENT))
  }

  function Expand(w: World, volumeId: string, secrets: Secrets, capacity: int, fault: Fault): (World, bool) {
    match PlanExpand(volumeId)
    case NotAHandle => (w, false)
    case NothingToExpand => (w, true)
    case Resize(tenant, volume) =>
      if Choose(secrets).None? || VolumeUuid(w.backend, volume, tenant).None? then (w, false)
      else
        var r := SetVolumeQuota(w.backend, VolumeUuid(w.backend, volume, tenant).value, capacity, fault);
        (w.(backend := r.0), r.1)
  }

  /** Deleting the PV of a restored snapshot changes nothing, and needs no secrets. */
  lemma DeleteRestoredPv(cfg: Config, acc: D.Accounts, w: World, req: CreateRequest, env: Env,
                         w': World, secrets: Secrets, denv: DeleteEnv)
    requires Ordered(req, env) && req.source.FromSnapshot? && Create(cfg, acc, w, req, env).1.Created?
    ensures Create(cfg, acc, w, req, env).0 == w
    ensures Delete(cfg, w', Create(cfg, acc, w, req, env).1.volumeId, secrets, denv) == (w', true)
  {
    assert HasPrefix(SNAPSHOT_PREFIX + req.name, SNAPSHOT_PREFIX);
  }

  /** Handles the driver hands out: which volume a two-part one erases. */
  ghost predicate WholeHandle(b: Backend, id: string, tenant: string, uuid: string) {
    id == TwoPart(tenant, uuid) && IsTenant(tenant) && uuid in b.issued && IsUuid(uuid)
  }

  ghost predicate SubHandle(id: string, tenant: string, uuid: string, pvName: string) {
    id == ThreePart(tenant, uuid, pvName) && IsTenant(tenant) && IsUuid(uuid) && NoSep(pvName) && Plain(pvName)
  }

  lemma WholePlans(b: Backend, id: string, tenant: string, uuid: string)
    requires WholeHandle(b, id, tenant, uuid)
    ensures PlanDelete(id) == Erase(tenant, uuid) && PlanExpand(id) == Resize(tenant, uuid)
    ensures VolumeUuid(b, uuid, tenant) == Some(uuid)
  {
    UuidShape(tenant);
    UuidShape(uuid);
    TwoPartRoundTrip(tenant, uuid);
  }

  lemma SubPlans(id: string, tenant: string, uuid: string, pvName: string)
    requires SubHandle(id, tenant, uuid, pvName)
    ensures PlanDelete(id) == DropSubdirectory(uuid, pvName) && PlanExpand(id) == NothingToExpand
  {
    UuidShape(tenant);
    UuidShape(uuid);
    ThreePartRoundTrip(tenant, uuid, pvName);
  }

  /** Deleting a whole volume: gone exactly if the call succeeds or its answer was lost; nothing else changes. */
  lemma DeleteErasesOne(cfg: Config, w: World, id: string, tenant: string, uuid: string, secrets: Secrets,
                        env: DeleteEnv)
    requires ValidWorld(w) && WholeHandle(w.backend, id, tenant, uuid)
    ensures var r := Delete(cfg, w, id, secrets, env);
            && ValidWorld(r.0) && Grows(w.backend, r.0.backend) && r.0.nodes == w.nodes
            && r.0.backend.volumes == (if Choose(secrets).Some? && !env.erase.Refused?
                                       then w.backend.volumes - {uuid} else w.backend.volumes)
            && (r.1 ==> uuid !in r.0.backend.volumes)
            && (r.1 <==> Choose(secrets).Some? && env.erase.Works?)
            && (r.1 && uuid in w.backend.volumes ==> w.backend.issued[uuid] !in r.0.backend.names)
            && r.0.backend.tasks == w.backend.tasks
  {
    WholePlans(w.backend, id, tenant, uuid);
    RemoveKeeps(w.backend, uuid, env.erase);
  }

  /** Deleting a subdirectory never touches a volume, its name or its quota. */
  lemma DeleteKeepsVolumes(cfg: Config, w: World, id: string, tenant: string, uuid: string, pvName: string,
                           secrets: Secrets, env: DeleteEnv)
    requires ValidWorld(w) && SubHandle(id, tenant, uuid, pvName)
    ensures var r := Delete(cfg, w, id, secrets, env);
            && ValidWorld(r.0) && r.0.backend == w.backend.(tasks := r.0.backend.tasks)
            && r.0.backend.tasks == w.backend.tasks +
                 (if cfg.useDeleteFilesTask && Choose(secrets).Some? && !env.task.Refused?
                  then [DeleteFiles(uuid, "/" + pvName)] else [])
            && (cfg.useDeleteFilesTask ==> r.0.nodes == w.nodes && (r.1 <==> Choose(secrets).Some? && env.task.Works?))
  {
    SubPlans(id, tenant, uuid, pvName);
  }

  lemma MarkerElsewhere(cfg: Config, uuid: string, pvName: string)
    requires cfg.mount != "" && '/' !in cfg.name && Plain(uuid) && Plain(pvName)
    ensures ClaimDirectory(cfg.mount, uuid, pvName) != MarkerDirectory(cfg.mount, cfg.name, uuid, pvName)
  {
    MarkerIsPlain(cfg.name, pvName);
    JoinThree(cfg.mount, uuid, pvName);
    JoinThree(cfg.mount, uuid, Marker(cfg.name, pvName));
    assert |Marker(cfg.name, pvName)| > |pvName|;
  }

  /**
   Deleting a claim's directory by renaming: it succeeds exactly when nothing is
   at the marker's path or nothing at the directory's. Then the directory, as it
   is, lies under the marker, and every other path is as before.
   */
  lemma DeleteMovesDirectory(cfg: Config, w: World, id: string, tenant: string, uuid: string, pvName: string,
                             secrets: Secrets, env: DeleteEnv)
    requires ValidWorld(w) && SubHandle(id, tenant, uuid, pvName)
    requires cfg.mount != "" && '/' !in cfg.name && !cfg.useDeleteFilesTask
    requires Choose(secrets).Some? && env.rename.None?
    requires !D.At(w.nodes, ClaimDirectory(cfg.mount, uuid, pvName)).File?
    ensures var r := Delete(cfg, w, id, secrets, env);
            var place := ClaimDirectory(cfg.mount, uuid, pvName);
            var marker := MarkerDirectory(cfg.mount, cfg.name, uuid, pvName);
            && r.0.backend == w.backend
            && (r.1 <==> D.At(w.nodes, marker).Absent? || D.At(w.nodes, place).Absent?)
            && (!r.1 ==> r.0 == w)
            && (r.1 ==> D.At(r.0.nodes, place).Absent?)
            && (r.1 && D.At(w.nodes, place).Dir? ==> D.At(r.0.nodes, marker) == D.At(w.nodes, place))
            && (D.At(w.nodes, place).Absent? ==> r.0 == w)
            && (forall p :: p != place && p != marker ==> D.At(r.0.nodes, p) == D.At(w.nodes, p))
  {
    SubPlans(id, tenant, uuid, pvName);
    UuidShape(uuid);
    MarkerElsewhere(cfg, uuid, pvName);
  }

  /**
   Exactly when a delete reports success although the claim's directory is still in
   place: when that is left to a task, or when the rename reports a missing entry
   that is not the directory, such as a missing parent of the marker.
   */
  lemma SuccessLeavesDirectory(cfg: Config, w: World, id: string, tenant: string, uuid: string, pvName: string,
                               secrets: Secrets, env: DeleteEnv)
    requires ValidWorld(w) && SubHandle(id, tenant, uuid, pvName) && cfg.mount != "" && '/' !in cfg.name
    requires D.At(w.nodes, ClaimDirectory(cfg.mount, uuid, pvName)).Dir?
    ensures var r := Delete(cfg, w, id, secrets, env);
            r.1 && D.At(r.0.nodes, ClaimDirectory(cfg.mount, uuid, pvName)).Dir? <==>
              && Choose(secrets).Some?
              && (if cfg.useDeleteFilesTask then env.task.Works? else env.rename == Some(D.ENOENT))
  {
    SubPlans(id, tenant, uuid, pvName);
    UuidShape(uuid);
    MarkerElsewhere(cfg, uuid, pvName);
  }

  /** The rename of a claim's directory, if it is tried and nothing else goes wrong. */
  predicate Renames(cfg: Config, w: World, uuid: string, pvName: string, env: DeleteEnv) {
    && !cfg.useDeleteFilesTask
    && D.RenameNode(w.nodes, ClaimDirectory(cfg.mount, uuid, pvName),
                    MarkerDirectory(cfg.mount, cfg.name, uuid, pvName), env.rename).1.None?
  }

  /**
   Repeating a delete that succeeded changes no volume; only by a task it is asked
   for again. It changes a directory exactly when the first call was told that
   nothing is there although it was, and the rename now works.
   */
  lemma RepeatedDelete(cfg: Config, w: World, id: string, tenant: string, uuid: string, pvName: string,
                       secrets: Secrets, env: DeleteEnv, env': DeleteEnv)
    requires ValidWorld(w) && cfg.mount != "" && '/' !in cfg.name
    requires WholeHandle(w.backend, id, tenant, uuid) || SubHandle(id, tenant, uuid, pvName)
    requires Delete(cfg, w, id, secrets, env).1
    ensures var w1 := Delete(cfg, w, id, secrets, env).0;
            var r := Delete(cfg, w1, id, secrets, env');
            && r.0.backend.(tasks := []) == w1.backend.(tasks := [])
            && (!cfg.useDeleteFilesTask ==> r.0.backend == w1.backend)
            && (r.0.nodes != w1.nodes <==>
                  && SubHandle(id, tenant, uuid, pvName) && env.rename == Some(D.ENOENT)
                  && Renames(cfg, w1, uuid, pvName, env'))
            && ((SubHandle(id, tenant, uuid, pvName) && !cfg.useDeleteFilesTask
                 && env.rename.None? && env'.rename.None?) ==> r.1)
  {
    UuidShape(uuid);
    if SubHandle(id, tenant, uuid, pvName) {
      RepeatedRename(cfg, w, id, tenant, uuid, pvName, secrets, env, env');
    } else {
      RepeatedErase(cfg, w, id, tenant, uuid, secrets, env, env');
    }
  }

  lemma RepeatedErase(cfg: Config, w: World, id: string, tenant: string, uuid: string, secrets: Secrets,
                      env: DeleteEnv, env': DeleteEnv)
    requires ValidWorld(w) && WholeHandle(w.backend, id, tenant, uuid) && Delete(cfg, w, id, secrets, env).1
    ensures Delete(cfg, Delete(cfg, w, id, secrets, env).0, id, secrets, env').0 == Delete(cfg, w, id, secrets, env).0
  {
    WholePlans(w.backend, id, tenant, uuid);
    RemoveKeeps(w.backend, uuid, env.erase);
    var w1 := Delete(cfg, w, id, secrets, env).0;
    assert uuid !in w1.backend.volumes && WholeHandle(w1.backend, id, tenant, uuid);
    WholePlans(w1.backend, id, tenant, uuid);
  }

  lemma RepeatedRename(cfg: Config, w: World, id: string, tenant: string, uuid: string, pvName: string,
                       secrets: Secrets, env: DeleteEnv, env': DeleteEnv)
    requires ValidWorld(w) && cfg.mount != "" && '/' !in cfg.name && SubHandle(id, tenant, uuid, pvName) && Plain(uuid)
    requires Delete(cfg, w, id, secrets, env).1
    ensures var w1 := Delete(cfg, w, id, secrets, env).0;
            var r := Delete(cfg, w1, id, secrets, env');
            && r.0.backend == w1.backend.(tasks := r.0.backend.tasks)
            && (!cfg.useDeleteFilesTask ==> r.0.backend == w1.backend)
            && (r.0.nodes != w1.nodes <==> env.rename == Some(D.ENOENT) && Renames(cfg, w1, uuid, pvName, env'))
            && (!cfg.useDeleteFilesTask && env.rename.None? && env'.rename.None? ==> r.1)
  {
    SubPlans(id, tenant, uuid, pvName);
    MarkerElsewhere(cfg, uuid, pvName);
  }

  /** Expanding a subdirectory's handle succeeds and does nothing. */
  lemma ExpandLeavesSubdirectory(w: World, id: string, tenant: string, uuid: string, pvName: string,
                                 secrets: Secrets, capacity: int, fault: Fault)
    requires SubHandle(id, tenant, uuid, pvName)
    ensures Expand(w, id, secrets, capacity, fault) == (w, true)
  {
    SubPlans(id, tenant, uuid, pvName);
  }

  /** Expanding a whole volume sets its quota and nothing else, exactly when the call works and the volume exists. */
  lemma ExpandSetsOneQuota(w: World, id: string, tenant: string, uuid: string, secrets: Secrets, capacity: int,
                           fault: Fault)
    requires ValidWorld(w) && WholeHandle(w.backend, id, tenant, uuid)
    ensures var r, b := Expand(w, id, secrets, capacity, fault), w.backend;
            && ValidWorld(r.0) && Grows(b, r.0.backend) && r.0.nodes == w.nodes
            && r.0.backend.names == b.names && r.0.backend.tasks == b.tasks
            && r.0.backend.volumes.Keys == b.volumes.Keys
            && (forall u <- b.volumes :: u != uuid ==> r.0.backend.volumes[u] == b.volumes[u])
            && (r.1 <==> Choose(secrets).Some? && fault.Works? && uuid in b.volumes)
            && (uuid in b.volumes ==>
                  r.0.backend.volumes[uuid] == if Choose(secrets).Some? && !fault.Refused?
                                               then b.volumes[uuid].(quota := Some(capacity)) else b.volumes[uuid])
  {
    WholePlans(w.backend, id, tenant, uuid);
    QuotaKeeps(w.backend, uuid, capacity, fault);
  }

  /** A handle written with a volume's name, as for volumes made by hand. */
  ghost predicate NamedHandle(id: string, tenant: string, volume: string) {
    && id == tenant + "|" + volume && '|' !in tenant && '|' !in volume && !("SnapshotVolumeHandle-" <= tenant)
    && volume != "" && !IsUuid(volume)
  }

  lemma NamedPlans(id: string, tenant: string, volume: string)
    requires NamedHandle(id, tenant, volume)
    ensures PlanDelete(id) == Erase(tenant, volume) && PlanExpand(id) == Resize(tenant, volume)
  {
    TwoPartRoundTrip(tenant, volume);
  }

  /**
   Deleting by name: the volume of that name in that tenant is erased, and no other;
   it succeeds exactly when there is one, the credentials suffice and the call works.
   */
  lemma DeleteByName(cfg: Config, w: World, id: string, tenant: string, volume: string, t: string,
                     secrets: Secrets, env: DeleteEnv)
    requires ValidWorld(w) && NamedHandle(id, tenant, volume) && MeansTenant(w.backend, tenant, t)
    ensures var r, b, key := Delete(cfg, w, id, secrets, env), w.backend, VolumeKey(t, volume);
            && (r.1 <==> Choose(secrets).Some? && key in b.names && env.erase.Works?)
            && r.0 == w.(backend := r.0.backend) && r.0.backend.tasks == b.tasks
            && (if Choose(secrets).Some? && key in b.names && !env.erase.Refused?
                then r.0.backend.volumes == b.volumes - {b.names[key]} && r.0.backend.names == b.names - {key}
                else r.0.backend == b)
  {
    NamedPlans(id, tenant, volume);
    NameLookup(w.backend, tenant, volume, t);
  }

  /** Expanding by name sets the quota of that volume, and of no other. */
  lemma ExpandByName(w: World, id: string, tenant: string, volume: string, t: string,
                     secrets: Secrets, capacity: int, fault: Fault)
    requires ValidWorld(w) && NamedHandle(id, tenant, volume) && MeansTenant(w.backend, tenant, t)
    ensures var r, b, key := Expand(w, id, secrets, capacity, fault), w.backend, VolumeKey(t, volume);
            && (r.1 <==> Choose(secrets).Some? && key in b.names && fault.Works?)
            && (if Choose(secrets).Some? && key in b.names && !fault.Refused?
                then r.0 == w.(backend := b.(volumes :=
                              b.volumes[b.names[key] := b.volumes[b.names[key]].(quota := Some(capacity))]))
                else r.0 == w)
  {
    NamedPlans(id, tenant, volume);
    NameLookup(w.backend, tenant, volume, t);
  }

  /** A tenant that nobody knows. */
  lemma UnknownTenantFails(cfg: Config, w: World, id: string, tenant: string, volume: string, secrets: Secrets,
                           env: DeleteEnv, capacity: int, fault: Fault)
    requires NamedHandle(id, tenant, volume) && !IsTenant(tenant) && tenant !in w.backend.tenants
    ensures Delete(cfg, w, id, secrets, env) == (w, false) && Expand(w, id, secrets, capacity, fault) == (w, false)
  {
    NamedPlans(id, tenant, volume);
    UnknownTenant(w.backend, tenant, volume);
  }

  lemma NothingToDelete(cfg: Config, w: World, id: string, secrets: Secrets, env: DeleteEnv)
    requires PlanDelete(id).Refuse? || PlanDelete(id).Ignore?
    ensures Delete(cfg, w, id, secrets, env) == (w, PlanDelete(id).Ignore?)
  {
  }

  lemma ExpandByPlan(w: World, id: string, id': string, secrets: Secrets, capacity: int, fault: Fault)
    requires PlanExpand(id) == PlanExpand(id')
    ensures Expand(w, id, secrets, capacity, fault) == Expand(w, id', secrets, capacity, fault)
    ensures PlanExpand(id).NotAHandle? ==> Expand(w, id, secrets, capacity, fault) == (w, false)
  {
  }

  /**
   Ids of any other number of parts: none are deleted but those of restored PVs, of
   which nothing is; expansion takes the first two parts of four and more.
   */
  lemma OtherIds(cfg: Config, w: World, parts: seq<string>, secrets: Secrets, env: DeleteEnv, capacity: int,
                 fault: Fault)
    requires parts != [] && (forall p <- parts :: '|' !in p) && |parts| != 2 && |parts| != 3
    ensures var id := Join(parts, '|');
            && Delete(cfg, w, id, secrets, env) == (w, "SnapshotVolumeHandle-" <= id)
            && (|parts| == 1 ==> Expand(w, id, secrets, capacity, fault) == (w, false))
            && (|parts| >= 4 ==>
                  Expand(w, id, secrets, capacity, fault) ==
                    Expand(w, parts[0] + "|" + parts[1], secrets, capacity, fault))
  {
    PlansExactly(parts);
    var id := Join(parts, '|');
    NothingToDelete(cfg, w, id, secrets, env);
    ExpandByPlan(w, id, id, secrets, capacity, fault);
    if |parts| >= 4 {
      SplitTwo(parts[0], parts[1], '|');
      ExpandByPlan(w, id, parts[0] + "|" + parts[1], secrets, capacity, fault);
    }
  }
}
