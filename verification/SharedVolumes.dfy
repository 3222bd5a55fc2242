/**
 Over every run, a volume that claims share is reached through three-part handles
 only, and so the driver never deletes or erases it and never sets its quota.
 */
module SharedVolumes {
  import opened GoStrings
  import opened Paths
  import opened Handles
  import opened ClientCache
  import opened Parameters
  import opened B = Backend
  import opened Provisioning
  import opened ProvisioningTheorems
  import opened VolumeIds
  import opened Lifecycle
  import D = DirectoryMaker

  datatype Op =
    | CreateOp(req: CreateRequest, env: Env)
    | DeleteOp(volumeId: string, secrets: Secrets, denv: DeleteEnv)
    | ExpandOp(volumeId: string, secrets: Secrets, capacity: int, fault: Fault)

  /** The world, and every handle handed out so far. */
  datatype History = History(world: World, handles: set<string>)

  function Perform(cfg: Config, acc: D.Accounts, h: History, op: Op): History
    requires op.CreateOp? ==> Ordered(op.req, op.env)
  {
    match op
    case CreateOp(req, env) =>
      var r := Create(cfg, acc, h.world, req, env);
      History(r.0, if r.1.Created? then h.handles + {r.1.volumeId} else h.handles)
    case DeleteOp(volumeId, secrets, denv) => h.(world := Delete(cfg, h.world, volumeId, secrets, denv).0)
    case ExpandOp(volumeId, secrets, capacity, fault) =>
      h.(world := Expand(h.world, volumeId, secrets, capacity, fault).0)
  }

  /**
   The discipline of the StorageClasses: the key for a shared volume is spelled
   exactly, it names a volume meant to be shared, and no PV has such a name. PV
   names are single path elements without the separator.
   */
  ghost predicate Disciplined(req: CreateRequest, shared: set<string>) {
    && Plain(req.name) && NoSep(req.name)
    && (req.params.Some? ==>
          var params := req.params.value;
          && (forall k <- params :: ToLower(k) == "sharedvolumename" ==> k == SHARED_VOLUME_KEY)
          && (if IsShared(params) then params[SHARED_VOLUME_KEY] in shared else req.name !in shared))
  }

  /** Deletions and expansions are of handles handed out before, perhaps long ago, perhaps repeatedly. */
  ghost predicate Allowed(cfg: Config, shared: set<string>, h: History, op: Op) {
    match op
    case CreateOp(req, env) => EnvOk(h.world, req, env) && Disciplined(req, shared)
    case DeleteOp(volumeId, _, _) => volumeId in h.handles
    case ExpandOp(volumeId, _, _, _) => volumeId in h.handles
  }

  lemma LowerSharedKey(key: string)
    requires key == SHARED_VOLUME_KEY
    ensures ToLower(key) == "sharedvolumename"
  {
    var t := "sharedvolumename";
    assert |key| == 16 && |t| == 16;
    forall i | 0 <= i < 16 ensures LowerChar(key[i]) == t[i] {
    }
    LowerIs(key, t);
  }

  lemma NamesVolume(key: string, value: string)
    requires ToLower(key) == "sharedvolumename"
    ensures EffectOf(key, value) == SetName(value)
  {
  }

  /** The only key that names a volume decides its name. */
  lemma FoldedName(params: Params, order: seq<string>, s0: Settings, key: string)
    requires key in params && ToLower(key) == "sharedvolumename" && Iterates(order, params.Keys)
    requires forall k <- params :: ToLower(k) == "sharedvolumename" ==> k == key
    requires Fold(params, order, s0).Some?
    ensures Fold(params, order, s0).value.name == params[key]
  {
    var shared, effects, e := IsShared(params), Effects(params), SetName(params[key]);
    FoldIsFoldEffects(params, order, s0);
    NamesVolume(key, params[key]);
    forall k | k in order ensures k in effects && (Sets(effects[k], Name) ==> effects[k] == e) {
      if Sets(EffectOf(k, params[k]), Name) {
        SetsOwnKey(k, params[k], Name);
      }
    }
    assert key in order && effects[key] == e && Sets(e, Name);
    FoldAgreed(shared, effects, order, s0, Name, e);
    assert Read(Fold(params, order, s0).value, Name) == e;
  }

  lemma SharedName(cfg: Config, b: Backend, req: CreateRequest, env: Env, key: string)
    requires key == SHARED_VOLUME_KEY && Ordered(req, env) && req.params.Some? && key in req.params.value
    requires forall k <- req.params.value :: ToLower(k) == "sharedvolumename" ==> k == key
    requires Iterates(env.order, req.params.value.Keys) && Prepared(cfg, b, req, env).Some?
    ensures Prepared(cfg, b, req, env).value.name == req.params.value[key]
  {
    var params, login := req.params.value, env.login.value;
    var s0 := Initial(params, req.name, login.user, login.group);
    var folded := Fold(params, env.order, s0);
    PreparedFrom(cfg, b, req, env, folded);
    LowerSharedKey(key);
    FoldedName(params, env.order, s0, key);
  }

  lemma EffectiveName(cfg: Config, b: Backend, req: CreateRequest, env: Env, shared: set<string>)
    requires Disciplined(req, shared) && Ordered(req, env) && req.params.Some?
    requires Iterates(env.order, req.params.value.Keys) && Prepared(cfg, b, req, env).Some?
    ensures Prepared(cfg, b, req, env).value.name in shared <==> IsShared(req.params.value)
  {
    if IsShared(req.params.value) {
      SharedName(cfg, b, req, env, SHARED_VOLUME_KEY);
    } else {
      OwnName(cfg, b, req, env);
    }
  }

  /** Every handle is a restored PV's, a whole volume's that is not shared, or a subdirectory's. */
  ghost predicate HandleOk(b: Backend, shared: set<string>, id: string) {
    || (exists p :: NoSep(p) && id == SNAPSHOT_PREFIX + p)
    || (exists t, u :: WholeHandle(b, id, t, u) && b.issued[u].name !in shared)
    || (exists t, u, p :: SubHandle(id, t, u, p))
  }

  ghost predicate HistoryOk(shared: set<string>, h: History) {
    ValidWorld(h.world) && forall id <- h.handles :: HandleOk(h.world.backend, shared, id)
  }

  /** Volumes with a shared name stay, and stay as they are; tasks name single directories of a volume. */
  ghost predicate Survive(shared: set<string>, b: Backend, b': Backend)
    requires Valid(b)
  {
    && (forall u <- b.volumes :: b.issued[u].name in shared ==> u in b'.volumes && b'.volumes[u] == b.volumes[u])
    && b.tasks <= b'.tasks
    && (forall i :: |b.tasks| <= i < |b'.tasks| ==>
          OneDirectory(b'.tasks[i]))
  }

  ghost predicate OneDirectory(task: Task) {
    exists p :: Plain(p) && NoSep(p) && task.directory == TaskPath(p)
  }

  lemma HandlesStayOk(b: Backend, b': Backend, shared: set<string>, id: string)
    requires Grows(b, b') && HandleOk(b, shared, id)
    ensures HandleOk(b', shared, id)
  {
    if t, u :| WholeHandle(b, id, t, u) && b.issued[u].name !in shared {
      assert WholeHandle(b', id, t, u) && b'.issued[u].name !in shared;
    }
  }

  lemma CreateSurvives(cfg: Config, acc: D.Accounts, shared: set<string>, w: World, req: CreateRequest, env: Env)
    requires ValidWorld(w) && EnvOk(w, req, env) && Disciplined(req, shared)
    ensures var r := Create(cfg, acc, w, req, env);
            && ValidWorld(r.0) && Grows(w.backend, r.0.backend) && Survive(shared, w.backend, r.0.backend)
            && (r.1.Created? ==> HandleOk(r.0.backend, shared, r.1.volumeId))
  {
    var r := Create(cfg, acc, w, req, env);
    if Acceptable(req) && !req.source.FromSnapshot? && Prepared(cfg, w.backend, req, env).Some? {
      var s := Prepared(cfg, w.backend, req, env).value;
      EffectiveName(cfg, w.backend, req, env, shared);
      CreatedMeans(cfg, acc, w, req, env, s);
      CreateFrame(cfg, acc, w, req, env, s);
      if r.1.Created? {
        PreparedTenant(cfg, w.backend, req, env);
        var uuid := r.0.backend.names[KeyFor(s)];
        assert IsUuid(uuid) && uuid in r.0.backend.issued;
        if IsShared(req.params.value) {
          assert SubHandle(r.1.volumeId, s.tenant, uuid, req.name);
        } else {
          assert WholeHandle(r.0.backend, r.1.volumeId, s.tenant, uuid);
          assert r.0.backend.issued[uuid].name !in shared;
        }
      }
    } else if r.1.Created? {
      assert NoSep(req.name) && r.1.volumeId == SNAPSHOT_PREFIX + req.name;
    }
  }

  /** A restored PV's handle is ignored by deletion and refused by expansion. */
  lemma RestoredPlans(id: string)
    requires exists p :: NoSep(p) && id == SNAPSHOT_PREFIX + p
    ensures PlanDelete(id) == Ignore && PlanExpand(id) == NotAHandle
  {
    var p :| NoSep(p) && id == SNAPSHOT_PREFIX + p;
    assert NoSep(SNAPSHOT_PREFIX);
    assert HasPrefix(id, SNAPSHOT_PREFIX);
    SplitAtom(id, SEP);
  }

  lemma DeleteSurvives(cfg: Config, shared: set<string>, w: World, id: string, secrets: Secrets, denv: DeleteEnv)
    requires ValidWorld(w) && HandleOk(w.backend, shared, id)
    ensures var r := Delete(cfg, w, id, secrets, denv);
            ValidWorld(r.0) && Grows(w.backend, r.0.backend) && Survive(shared, w.backend, r.0.backend)
  {
    if t, u :| WholeHandle(w.backend, id, t, u) && w.backend.issued[u].name !in shared {
      DeleteErasesOne(cfg, w, id, t, u, secrets, denv);
    } else if t, u, p :| SubHandle(id, t, u, p) {
      DeleteKeepsVolumes(cfg, w, id, t, u, p, secrets, denv);
      assert Plain(p) && NoSep(p) && TaskPath(p) == "/" + p;
      var b, b' := w.backend, Delete(cfg, w, id, secrets, denv).0.backend;
      forall i | |b.tasks| <= i < |b'.tasks|
        ensures OneDirectory(b'.tasks[i])
      {
        assert b'.tasks[i] == DeleteFiles(u, TaskPath(p));
      }
    } else {
      RestoredPlans(id);
    }
  }

  lemma ExpandSurvives(shared: set<string>, w: World, id: string, secrets: Secrets, capacity: int, fault: Fault)
    requires ValidWorld(w) && HandleOk(w.backend, shared, id)
    ensures var r := Expand(w, id, secrets, capacity, fault);
            ValidWorld(r.0) && Grows(w.backend, r.0.backend) && Survive(shared, w.backend, r.0.backend)
  {
    if t, u :| WholeHandle(w.backend, id, t, u) && w.backend.issued[u].name !in shared {
      ExpandSetsOneQuota(w, id, t, u, secrets, capacity, fault);
    } else if t, u, p :| SubHandle(id, t, u, p) {
      ExpandLeavesSubdirectory(w, id, t, u, p, secrets, capacity, fault);
    } else {
      RestoredPlans(id);
    }
  }

  lemma PerformKeeps(cfg: Config, acc: D.Accounts, shared: set<string>, h: History, op: Op)
    requires HistoryOk(shared, h) && Allowed(cfg, shared, h, op)
    ensures var h' := Perform(cfg, acc, h, op);
            && HistoryOk(shared, h') && Grows(h.world.backend, h'.world.backend)
            && Survive(shared, h.world.backend, h'.world.backend) && h.handles <= h'.handles
  {
    match op {
      case CreateOp(req, env) => CreateSurvives(cfg, acc, shared, h.world, req, env);
      case DeleteOp(id, secrets, denv) => DeleteSurvives(cfg, shared, h.world, id, secrets, denv);
      case ExpandOp(id, secrets, capacity, fault) => ExpandSurvives(shared, h.world, id, secrets, capacity, fault);
    }
    var h' := Perform(cfg, acc, h, op);
    forall id | id in h'.handles ensures HandleOk(h'.world.backend, shared, id) {
      if id in h.handles {
        HandlesStayOk(h.world.backend, h'.world.backend, shared, id);
      }
    }
  }

  ghost predicate ValidRun(cfg: Config, acc: D.Accounts, shared: set<string>, h: History, run: seq<Op>)
    decreases |run|
  {
    run == [] || (Allowed(cfg, shared, h, run[0]) && ValidRun(cfg, acc, shared, Perform(cfg, acc, h, run[0]), run[1..]))
  }

  ghost function After(cfg: Config, acc: D.Accounts, shared: set<string>, h: History, run: seq<Op>): History
    requires ValidRun(cfg, acc, shared, h, run)
    decreases |run|
  {
    if run == [] then h else After(cfg, acc, shared, Perform(cfg, acc, h, run[0]), run[1..])
  }

  lemma SurviveOn(shared: set<string>, b: Backend, b1: Backend, b2: Backend)
    requires Valid(b) && Valid(b1) && Grows(b, b1) && Survive(shared, b, b1) && Survive(shared, b1, b2)
    ensures Survive(shared, b, b2)
  {
    forall i | |b.tasks| <= i < |b2.tasks|
      ensures OneDirectory(b2.tasks[i])
    {
      if i < |b1.tasks| {
        assert b2.tasks[i] == b1.tasks[i];
      }
    }
  }

  /**
   Creates, failed creates, rollbacks, deletes in both modes and expansions, in any
   order and any number: a volume with a shared name is exactly as it was.
   */
  lemma {:induction false} SharedVolumesSurvive(cfg: Config, acc: D.Accounts, shared: set<string>, h: History,
                                                run: seq<Op>)
    requires HistoryOk(shared, h) && ValidRun(cfg, acc, shared, h, run)
    ensures var h' := After(cfg, acc, shared, h, run);
            && HistoryOk(shared, h') && Grows(h.world.backend, h'.world.backend)
            && Survive(shared, h.world.backend, h'.world.backend)
    decreases |run|
  {
    if run != [] {
      PerformKeeps(cfg, acc, shared, h, run[0]);
      var h1 := Perform(cfg, acc, h, run[0]);
      SharedVolumesSurvive(cfg, acc, shared, h1, run[1..]);
      SurviveOn(shared, h.world.backend, h1.world.backend, After(cfg, acc, shared, h1, run[1..]).world.backend);
    }
  }

  /**
   Why the spelling matters: in a class with the key spelled otherwise, two PVs
   live in one whole volume, and deleting either of them erases it.
   */
  lemma MisspelledKeyErases(cfg: Config, acc: D.Accounts, w: World, req: CreateRequest, env: Env,
                            pvName: string, env': Env, key: string, secrets: Secrets, denv: DeleteEnv)
    requires ValidWorld(w) && EnvOk(w, req, env) && Create(cfg, acc, w, req, env).1.Created?
    requires !req.source.FromSnapshot? && OneVolume(Effects(req.params.value))
    requires key in req.params.value && ToLower(key) == "sharedvolumename" && !IsShared(req.params.value)
    requires var r, req' := Create(cfg, acc, w, req, env), req.(name := pvName);
             EnvOk(r.0, req', env') && Create(cfg, acc, r.0, req', env').1.Created?
    requires Choose(secrets).Some? && denv.erase.Works?
    ensures var r, req' := Create(cfg, acc, w, req, env), req.(name := pvName);
            var r' := Create(cfg, acc, r.0, req', env');
            var s' := Prepared(cfg, r.0.backend, req', env').value;
            var d := Delete(cfg, r'.0, r.1.volumeId, secrets, denv);
            && InPlace(cfg, r'.0, req', s', r'.1.volumeId)
            && d.1 && r'.0.backend.names[KeyFor(s')] !in d.0.backend.volumes
  {
    MisspelledKeySharesId(cfg, acc, w, req, env, pvName, env', key);
    var r, req' := Create(cfg, acc, w, req, env), req.(name := pvName);
    CreatedMeans(cfg, acc, w, req, env, Prepared(cfg, w.backend, req, env).value);
    WholeErased(cfg, acc, r.0, req', env', r, secrets, denv);
  }

  lemma WholeErased(cfg: Config, acc: D.Accounts, w: World, req: CreateRequest, env: Env, r: (World, Response),
                    secrets: Secrets, denv: DeleteEnv)
    requires ValidWorld(w) && EnvOk(w, req, env) && r == Create(cfg, acc, w, req, env) && r.1.Created?
    requires !req.source.FromSnapshot? && !IsShared(req.params.value)
    requires Choose(secrets).Some? && denv.erase.Works?
    ensures var s := Prepared(cfg, w.backend, req, env).value;
            var d := Delete(cfg, r.0, r.1.volumeId, secrets, denv);
            && InPlace(cfg, r.0, req, s, r.1.volumeId)
            && d.1 && r.0.backend.names[KeyFor(s)] !in d.0.backend.volumes
  {
    var s := Prepared(cfg, w.backend, req, env).value;
    CreatedMeans(cfg, acc, w, req, env, s);
    PreparedTenant(cfg, w.backend, req, env);
    var uuid := r.0.backend.names[KeyFor(s)];
    WholePlans(r.0.backend, r.1.volumeId, s.tenant, uuid);
    DeleteErasesOne(cfg, r.0, r.1.volumeId, s.tenant, uuid, secrets, denv);
  }
}
