/**
 The controller service as the driver runs it: calls that change the backend and
 the file system one after the other. Each is proved to do what the functions say
 that the theorems are about.
 */
module Controller {
  import opened Options
  import opened GoStrings
  import opened Paths
  import opened Handles
  import opened Markers
  import opened AccessModes
  import opened ClientCache
  import opened Parameters
  import opened B = Backend
  import opened Provisioning
  import opened Lifecycle
  import opened Snapshots
  import D = DirectoryMaker

  class QuobyteDriver {
    const cfg: Config
    const mounter: D.Mounter
    var backend: Backend

    constructor (cfg: Config, mounter: D.Mounter, backend: Backend)
      ensures this.cfg == cfg && this.mounter == mounter && this.backend == backend
    {
      this.cfg := cfg;
      this.mounter := mounter;
      this.backend := backend;
    }

    ghost function Now(): World
      reads this, mounter
    {
      World(backend, mounter.nodes)
    }

    method ValidateCreateVolumeRequest(req: CreateRequest) returns (ok: bool)
      ensures ok == Acceptable(req)
    {
      if req.capacity.None? {
        return false;
      }
      if req.params.None? {
        return false;
      }
      if |req.secrets| == 0 {
        return false;
      }
      var i := 0;
      while i < |req.capabilities|
        invariant 0 <= i <= |req.capabilities|
        invariant Block !in req.capabilities[..i]
      {
        if req.capabilities[i].Block? {
          return false;
        }
        i := i + 1;
      }
      assert req.capabilities[..i] == req.capabilities;
      return true;
    }

    /** The part of `CreateVolume` that only reads: settings with the tenant resolved, or an error. */
    method Prepare(req: CreateRequest, env: Env) returns (volRequest: Option<Settings>)
      requires req.params.Some? && Ordered(req, env)
      ensures volRequest == Prepared(cfg, backend, req, env)
    {
      var params := req.params.value;
      var client := Choose(req.secrets);
      if client.None? {
        return None;
      }
      if env.login.None? {
        return None;
      }
      var login := env.login.value;
      volRequest := ReadParameters(params, env.order, Initial(params, req.name, login.user, login.group));
      if volRequest.None? {
        return None;
      }
      var s := volRequest.value;
      if s.group == "" {
        return None;
      }
      if s.tenant == "" && cfg.namespaceAsTenant {
        if NAMESPACE_KEY in params {
          s := s.(tenant := params[NAMESPACE_KEY]);
        } else {
          return None;
        }
      }
      if s.tenant != "" {
        if env.tenantFault {
          return None;
        }
        var tenant := TenantUuid(backend, s.tenant);
        if tenant.None? {
          return None;
        }
        s := s.(tenant := tenant.value);
      }
      return Some(s);
    }

    /** Create-or-resolve. */
    method ObtainVolume(s: Settings, env: Env) returns (volUUID: Option<string>)
      modifies `backend
      ensures (backend, volUUID) == Obtain(old(backend), s, env)
    {
      var r := B.CreateVolume(backend, KeyFor(s), SpecFor(s), env.create, env.uuid);
      backend := r.0;
      match r.1 {
        case New(uuid) => return Some(uuid);
        case CreateFailed => return None;
        case AlreadyExists =>
          if env.resolveFault {
            return None;
          }
          return ResolveName(backend, KeyFor(s));
      }
    }

    method SetQuotaOrRollBack(volUUID: string, capacity: int, env: Env) returns (ok: bool)
      modifies `backend
      ensures (backend, ok) == Reserve(old(backend), volUUID, capacity, env)
    {
      var r := SetVolumeQuota(backend, volUUID, capacity, env.quota);
      backend := r.0;
      if !r.1 {
        backend := RemoveVolume(backend, volUUID, env.rollback).0; // whether that worked is ignored
        return false;
      }
      return true;
    }

    method CreateVolume(req: CreateRequest, env: Env) returns (response: Response)
      requires D.Recorded(mounter.nodes) && EnvOk(Now(), req, env)
      modifies `backend, mounter
      ensures (Now(), response) == Create(cfg, mounter.accounts, old(Now()), req, env)
      ensures D.Recorded(mounter.nodes)
    {
      var valid := ValidateCreateVolumeRequest(req);
      if !valid {
        return Failed;
      }
      if req.source.FromSnapshot? {
        response := CreateSnapshotResponse(req);
        return;
      }
      var isSharedVolume, capacity := SHARED_VOLUME_KEY in req.params.value, req.capacity.value;
      var prepared := Prepare(req, env);
      if prepared.None? {
        return Failed;
      }
      var volRequest := prepared.value;
      var obtained := ObtainVolume(volRequest, env);
      if obtained.None? {
        return Failed;
      }
      var volUUID := obtained.value;
      if !isSharedVolume && volRequest.createQuota {
        var reserved := SetQuotaOrRollBack(volUUID, capacity, env);
        if !reserved {
          return Failed;
        }
      }
      var volumeId;
      if isSharedVolume {
        var mode := volRequest.configuredMode;
        if mode == 0 {
          mode := DEFAULT_SUBDIRECTORY_MODE;
        }
        var subdirPath := JoinPath([cfg.mount, volUUID, req.name]);
        var made := mounter.Mkdir(subdirPath, D.Request(mode, volRequest.user, volRequest.group), env.mkdir);
        if !made {
          return Failed;
        }
        volumeId := volRequest.tenant + [SEP] + volUUID + [SEP] + req.name;
      } else {
        volumeId := volRequest.tenant + [SEP] + volUUID;
      }
      return Created(volumeId, capacity, map[]);
    }

    method CreateSnapshotResponse(req: CreateRequest) returns (response: Response)
      requires req.capacity.Some? && req.source.FromSnapshot?
      ensures response == SnapshotResponse(req)
    {
      var snapshotIdParts := Split(req.source.snapshotId, SEP);
      if |snapshotIdParts| < 3 {
        return Failed;
      }
      return Created(SNAPSHOT_PREFIX + req.name, req.capacity.value, map[SNAPSHOT_ID_KEY := req.source.snapshotId]);
    }

    method DeleteVolume(volID: string, secrets: Secrets, env: DeleteEnv) returns (ok: bool)
      requires D.Recorded(mounter.nodes)
      modifies `backend, mounter
      ensures (Now(), ok) == Delete(cfg, old(Now()), volID, secrets, env)
      ensures D.Recorded(mounter.nodes)
    {
      if |volID| == 0 {
        return false;
      }
      if HasPrefix(volID, SNAPSHOT_PREFIX) {
        return true;
      }
      var parts := Split(volID, SEP);
      if |parts| < 2 || |parts| > 3 {
        return false;
      }
      if |secrets| == 0 {
        return false;
      }
      var client := Choose(secrets);
      if client.None? {
        return false;
      }
      if |parts| == 2 {
        var volUUID := VolumeUuid(backend, parts[1], parts[0]);
        if volUUID.None? {
          return false;
        }
        var erased := RemoveVolume(backend, volUUID.value, env.erase);
        backend, ok := erased.0, erased.1;
      } else if !cfg.useDeleteFilesTask {
        var subdirPath := JoinPath([cfg.mount, parts[1], parts[2]]);
        var renameTo := JoinPath([cfg.mount, parts[1], Marker(cfg.name, parts[2])]);
        var error := mounter.Rename(subdirPath, renameTo, env.rename);
        ok := error.None? || error == Some(D.ENOENT);
      } else {
        var created := CreateTask(backend, DeleteFiles(parts[1], "/" + parts[2]), env.task);
        backend, ok := created.0, created.1;
      }
    }

    method ExpandVolume(volumeId: string, secrets: Secrets, capacity: int, fault: Fault) returns (ok: bool)
      modifies `backend
      ensures (Now(), ok) == Expand(old(Now()), volumeId, secrets, capacity, fault)
    {
      var parts := Split(volumeId, SEP);
      if |parts| < 2 {
        return false;
      }
      if |parts| == 3 {
        return true;
      }
      if |secrets| == 0 || Choose(secrets).None? {
        return false;
      }
      var volUUID := VolumeUuid(backend, parts[1], parts[0]);
      if volUUID.None? {
        return false;
      }
      var r := SetVolumeQuota(backend, volUUID.value, capacity, fault);
      backend := r.0;
      return r.1;
    }

    method CreateSnapshot(req: SnapshotRequest, env: SnapshotEnv) returns (snapshotId: Option<string>)
      modifies `backend
      ensures (backend, snapshotId) == Snapshots.CreateSnapshot(old(backend), req, env)
    {
      var isPinned := false;
      if PINNED_KEY in req.params {
        var pinned := ParseBool(req.params[PINNED_KEY]);
        if pinned.None? {
          return None;
        }
        isPinned := pinned.value;
      }
      var volParts := Split(req.sourceVolumeId, SEP);
      if |volParts| < 2 || Choose(req.secrets).None? || env.lookupFault {
        return None;
      }
      var volUUID := VolumeUuid(backend, volParts[1], volParts[0]);
      if volUUID.None? {
        return None;
      }
      var tenantUUID := TenantUuid(backend, volParts[0]);
      if tenantUUID.None? {
        return None;
      }
      var taken := TakeSnapshot(backend, volUUID.value, req.name, isPinned, env.call);
      backend := taken.0;
      if taken.1.NotTaken? {
        return None;
      }
      return Some(tenantUUID.value + [SEP] + volUUID.value + [SEP] + req.name);
    }

    method DeleteSnapshot(snapshotId: string, secrets: Secrets, env: SnapshotEnv) returns (ok: bool)
      modifies `backend
      ensures (backend, ok) == Snapshots.DeleteSnapshot(old(backend), snapshotId, secrets, env)
    {
      var snapshotParts := Split(snapshotId, SEP);
      if |snapshotParts| < 3 || Choose(secrets).None? || env.lookupFault {
        return false;
      }
      var tenantUUID := TenantUuid(backend, snapshotParts[0]);
      if tenantUUID.None? {
        return false;
      }
      var volUUID := VolumeUuid(backend, snapshotParts[1], tenantUUID.value);
      if volUUID.None? {
        return false;
      }
      var dropped := DropSnapshot(backend, volUUID.value, snapshotParts[2], env.call);
      backend, ok := dropped.0, dropped.1;
    }

    /** `listing` is what the API answers. */
    method ListSnapshots(snapshotId: string, secrets: Secrets, env: SnapshotEnv, listing: seq<string>)
      returns (entries: Option<seq<Entry>>)
      ensures entries == Snapshots.ListSnapshots(backend, snapshotId, secrets, env, listing)
    {
      var snapshotParts := Split(snapshotId, SEP);
      if |snapshotParts| < 3 || Choose(secrets).None? || env.lookupFault {
        return None;
      }
      var tenantUUID := TenantUuid(backend, snapshotParts[0]);
      if tenantUUID.None? {
        return None;
      }
      var volUUID := VolumeUuid(backend, snapshotParts[1], tenantUUID.value);
      if volUUID.None? {
        return None;
      }
      if !env.call.Works? {
        return None;
      }
      var snapshotEntries: seq<Entry>, i := [], 0;
      while i < |listing|
        invariant 0 <= i <= |listing| && |snapshotEntries| == i
        invariant snapshotEntries == Entries(snapshotParts[0], snapshotParts[1], volUUID.value, listing)[..i]
      {
        var snapshotID := snapshotParts[0] + [SEP] + snapshotParts[1] + [SEP] + listing[i];
        snapshotEntries := snapshotEntries + [Entry(volUUID.value, snapshotID)];
        i := i + 1;
      }
      assert snapshotEntries == Entries(snapshotParts[0], snapshotParts[1], volUUID.value, listing);
      return Some(snapshotEntries);
    }
  }
}
