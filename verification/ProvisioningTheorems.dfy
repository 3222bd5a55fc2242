/** What the Container Storage Interface asks of `CreateVolume`, and what quotas and volume ids promise. */
module ProvisioningTheorems {
  import opened Options
  import opened GoStrings
  import opened Handles
  import opened AccessModes
  import opened Parameters
  import opened B = Backend
  import opened Provisioning
  import D = DirectoryMaker

  /** No two parameters conflict on which volume is meant or on whether it gets a quota. */
  ghost predicate OneVolume(effects: map<string, Effect>) {
    NoConflictOn(effects, Tenant) && NoConflictOn(effects, Name) && NoConflictOn(effects, Quota)
  }

  lemma VolumeAgrees(params: Params, a: seq<string>, i: Settings, b: seq<string>, i': Settings)
    requires Iterates(a, params.Keys) && Iterates(b, params.Keys) && OneVolume(Effects(params))
    requires Fold(params, a, i).Some? && Fold(params, b, i').Some?
    requires i.tenant == i'.tenant && i.createQuota == i'.createQuota
    requires i.name == i'.name || Overrides(Effects(params), Name)
    ensures var s, s' := Fold(params, a, i).value, Fold(params, b, i').value;
            s.tenant == s'.tenant && s.name == s'.name && s.createQuota == s'.createQuota
  {
    FieldAgrees(params, a, i, b, i', Tenant);
    FieldAgrees(params, a, i, b, i', Name);
    FieldAgrees(params, a, i, b, i', Quota);
    SameReads(Fold(params, a, i).value, Fold(params, b, i').value);
  }

  lemma SameReads(s: Settings, s': Settings)
    requires Read(s, Tenant) == Read(s', Tenant) && Read(s, Name) == Read(s', Name) && Read(s, Quota) == Read(s', Quota)
    ensures s.tenant == s'.tenant && s.name == s'.name && s.createQuota == s'.createQuota
  {
  }

  /** The settings a call works with, by what its loop makes of the parameters. */
  lemma PreparedFold(cfg: Config, b: Backend, req: CreateRequest, env: Env, s: Settings)
    returns (i: Settings, folded: Settings)
    requires req.params.Some? && Ordered(req, env) && Prepared(cfg, b, req, env) == Some(s)
    ensures env.login.Some? && i == Initial(req.params.value, req.name, env.login.value.user, env.login.value.group)
    ensures Fold(req.params.value, env.order, i) == Some(folded)
    ensures s == folded.(tenant := TenantFor(cfg, b.tenants, req.params.value, folded.tenant)) && s.group != ""
  {
    var params := req.params.value;
    i := Initial(params, req.name, env.login.value.user, env.login.value.group);
    PreparedFrom(cfg, b, req, env, Fold(params, env.order, i));
    folded := Fold(params, env.order, i).value;
  }

  /** Two calls with the same parameters agree on the volume, unless it has the PV's name, and on its quota. */
  lemma PreparedAgree(cfg: Config, b: Backend, req: CreateRequest, env: Env, s: Settings,
                      b': Backend, req': CreateRequest, env': Env, s': Settings)
    requires req.params.Some? && req'.params == req.params && OneVolume(Effects(req.params.value))
    requires req.name == req'.name || Overrides(Effects(req.params.value), Name)
    requires b.tenants == b'.tenants && Ordered(req, env) && Ordered(req', env')
    requires Iterates(env.order, req.params.value.Keys) && Iterates(env'.order, req.params.value.Keys)
    requires Prepared(cfg, b, req, env) == Some(s) && Prepared(cfg, b', req', env') == Some(s')
    ensures KeyFor(s) == KeyFor(s') && s.createQuota == s'.createQuota
  {
    var i, f := PreparedFold(cfg, b, req, env, s);
    var i', f' := PreparedFold(cfg, b', req', env', s');
    VolumeAgrees(req.params.value, env.order, i, env'.order, i');
  }

  /**
   A second call that gets its settings together means the same volume as the
   first, and agrees with it on the quota. Only conflicting parameters, read in
   another order, can make it mean another.
   */
  ghost predicate SameAsked(cfg: Config, b: Backend, req: CreateRequest, env: Env, env': Env) {
    && req.params.Some? && Ordered(req, env) && Ordered(req, env')
    && (req.source.FromSnapshot? ||
        (Prepared(cfg, b, req, env).Some? && Prepared(cfg, b, req, env').Some? ==>
           var s, s' := Prepared(cfg, b, req, env).value, Prepared(cfg, b, req, env').value;
           KeyFor(s) == KeyFor(s') && s.createQuota == s'.createQuota))
  }

  /** Without conflicts on the volume every two calls mean the same. */
  lemma UnconflictedSameAsked(cfg: Config, b: Backend, req: CreateRequest, env: Env, env': Env)
    requires req.params.Some? && OneVolume(Effects(req.params.value)) && Ordered(req, env) && Ordered(req, env')
    requires Iterates(env.order, req.params.value.Keys) && Iterates(env'.order, req.params.value.Keys)
    ensures SameAsked(cfg, b, req, env, env')
  {
    if Prepared(cfg, b, req, env).Some? && Prepared(cfg, b, req, env').Some? {
      var s, s' := Prepared(cfg, b, req, env).value, Prepared(cfg, b, req, env').value;
      PreparedAgree(cfg, b, req, env, s, b, req, env', s');
    }
  }

  /** What a successful call leaves behind. */
  ghost predicate InPlace(cfg: Config, w: World, req: CreateRequest, s: Settings, id: string)
    requires Acceptable(req)
  {
    && KeyFor(s) in w.backend.names
    && var uuid := w.backend.names[KeyFor(s)];
    && uuid in w.backend.volumes
    && id == (if IsShared(req.params.value) then ThreePart(s.tenant, uuid, req.name) else TwoPart(s.tenant, uuid))
    && (IsShared(req.params.value) ==> D.At(w.nodes, ClaimDirectory(cfg.mount, uuid, req.name)).Dir?)
    && (!IsShared(req.params.value) && s.createQuota ==> w.backend.volumes[uuid].quota == req.capacity)
  }

  lemma CreatedMeans(cfg: Config, acc: D.Accounts, w: World, req: CreateRequest, env: Env, s: Settings)
    requires ValidWorld(w) && EnvOk(w, req, env) && Reaches(cfg, w.backend, req, env, s)
    ensures var r := Create(cfg, acc, w, req, env);
            && ValidWorld(r.0) && Grows(w.backend, r.0.backend) && r.0.backend.tasks == w.backend.tasks
            && (r.1.Created? ==> InPlace(cfg, r.0, req, s, r.1.volumeId) && r.1.capacity == req.capacity.value)
  {
    PreparedTenant(cfg, w.backend, req, env);
    ObtainKeeps(w.backend, s, env);
    var o := Obtain(w.backend, s, env);
    if o.1.Some? {
      var uuid := o.1.value;
      ReserveKeeps(o.0, uuid, req.capacity.value, env);
      DirectoryMade(cfg, acc, w.nodes, ClaimDirectory(cfg.mount, uuid, req.name), s, env.mkdir);
    }
  }

  lemma DirectoryMade(cfg: Config, acc: D.Accounts, nodes: D.Nodes, path: string, s: Settings, f: D.Faults)
    requires D.Recorded(nodes) && f.initial.Dir?
    ensures var m := MakeDirectory(acc, nodes, path, s, f);
            && D.Recorded(m.0) && (m.1 ==> D.At(m.0, path).Dir?)
            && (D.At(nodes, path).Dir? ==> m.0 == nodes && m.1 == !f.stat)
            && (D.At(nodes, path).Absent? && m.1 ==> D.Wanted(DirectoryRequest(s), acc, D.At(m.0, path)))
            && (forall p :: p != path ==> D.At(m.0, p) == D.At(nodes, p))
  {
    D.SoloOutcome(DirectoryRequest(s), acc, D.At(nodes, path), f);
  }

  /**
   The one way a repeated call changes anything: it reaches the quota call, that
   fails, and the rollback then deletes the volume the earlier call had created.
   */
  ghost predicate RollsBack(cfg: Config, b: Backend, req: CreateRequest, env: Env)
  {
    && Acceptable(req) && !req.source.FromSnapshot? && !IsShared(req.params.value)
    && Ordered(req, env)
    && Prepared(cfg, b, req, env).Some? && Prepared(cfg, b, req, env).value.createQuota
    && env.create.Works? && !env.resolveFault
    && !env.quota.Works? && !env.rollback.Refused?
  }

  lemma ObtainAgain(b: Backend, s: Settings, env: Env)
    requires Valid(b) && KeyFor(s) in b.names
    ensures Obtain(b, s, env) ==
              (b, if env.create.Works? && !env.resolveFault then Some(b.names[KeyFor(s)]) else None)
  {
  }

  lemma QuotaAgain(b: Backend, uuid: string, capacity: int, fault: Fault)
    requires uuid in b.volumes && b.volumes[uuid].quota == Some(capacity)
    ensures SetVolumeQuota(b, uuid, capacity, fault) == (b, fault.Works?)
  {
    assert b.volumes[uuid := b.volumes[uuid].(quota := Some(capacity))] == b.volumes;
  }

  lemma ReserveAgain(b: Backend, uuid: string, capacity: int, env: Env)
    requires Valid(b) && uuid in b.volumes && b.volumes[uuid].quota == Some(capacity)
    ensures var q := Reserve(b, uuid, capacity, env);
            && (q.1 <==> env.quota.Works?)
            && (q.0 != b <==> !env.quota.Works? && !env.rollback.Refused?)
            && (q.0 != b ==> b.issued[uuid] !in q.0.names)
  {
    QuotaAgain(b, uuid, capacity, env.quota);
    RemoveKeeps(b, uuid, env.rollback);
    assert env.rollback.Refused? || uuid !in RemoveVolume(b, uuid, env.rollback).0.volumes;
  }

  /** A call for which everything is in place already. */
  lemma CreateInPlace(cfg: Config, acc: D.Accounts, w: World, req: CreateRequest, env: Env, s: Settings, id: string)
    requires ValidWorld(w) && EnvOk(w, req, env) && Reaches(cfg, w.backend, req, env, s)
    requires InPlace(cfg, w, req, s, id)
    ensures var r := Create(cfg, acc, w, req, env);
            && (r.1.Created? ==> r.1 == Created(id, req.capacity.value, map[]))
            && (r.1.Created? <==>
                  && env.create.Works? && !env.resolveFault
                  && (if IsShared(req.params.value) then !env.mkdir.stat else s.createQuota ==> env.quota.Works?))
            && (RollsBack(cfg, w.backend, req, env) <==> r.0 != w)
            && (r.0 != w ==> r.1.Failed? && KeyFor(s) !in r.0.backend.names && r.0.nodes == w.nodes)
  {
    var b, uuid := w.backend, w.backend.names[KeyFor(s)];
    ObtainAgain(b, s, env);
    if IsShared(req.params.value) {
      DirectoryMade(cfg, acc, w.nodes, ClaimDirectory(cfg.mount, uuid, req.name), s, env.mkdir);
    } else if s.createQuota {
      ReserveAgain(b, uuid, req.capacity.value, env);
    }
  }

  /**
   Idempotency: after a successful call, a call with the same request that means the
   same volume, whatever the environment does and in whatever order it iterates over
   the parameters, either returns the same volume id or fails, and changes the
   backend and the directories exactly when `RollsBack` says so. The volume is gone
   then.
   */
  lemma RepeatExactly(cfg: Config, acc: D.Accounts, w: World, req: CreateRequest, env: Env, env': Env)
    requires ValidWorld(w) && EnvOk(w, req, env) && Create(cfg, acc, w, req, env).1.Created?
    requires EnvOk(Create(cfg, acc, w, req, env).0, req, env')
    requires SameAsked(cfg, w.backend, req, env, env')
    ensures var r := Create(cfg, acc, w, req, env);
            var r' := Create(cfg, acc, r.0, req, env');
            && ValidWorld(r.0)
            && (r'.1.Created? ==> r'.1 == r.1)
            && (r'.0 != r.0 <==> RollsBack(cfg, r.0.backend, req, env'))
            && (r'.0 != r.0 ==> r'.1.Failed?)
  {
    if !req.source.FromSnapshot? {
      var s := Prepared(cfg, w.backend, req, env).value;
      CreatedMeans(cfg, acc, w, req, env, s);
      var r := Create(cfg, acc, w, req, env);
      PreparedByTenants(cfg, w.backend, r.0.backend, req, env');
      if Prepared(cfg, r.0.backend, req, env').Some? {
        CreateInPlace(cfg, acc, r.0, req, env', Prepared(cfg, r.0.backend, req, env').value, r.1.volumeId);
      }
    }
  }

  /** Exactly what is refused outright, and a volume as source is no different from none. */
  lemma RefusedOutright(cfg: Config, acc: D.Accounts, w: World, req: CreateRequest, env: Env)
    requires Ordered(req, env)
    ensures req.capacity.None? || req.params.None? || req.secrets == map[]
            || (exists c <- req.capabilities :: c.Block?) ==>
              Create(cfg, acc, w, req, env) == (w, Failed)
    ensures req.source == FromVolume ==>
              Create(cfg, acc, w, req, env) == Create(cfg, acc, w, req.(source := NoSource), env)
  {
  }

  /** A PV restored from a snapshot: refused for ids of fewer than three parts, and otherwise nothing is made. */
  lemma RestoredExactly(cfg: Config, acc: D.Accounts, w: World, req: CreateRequest, env: Env)
    requires Ordered(req, env) && req.source.FromSnapshot?
    requires req.capacity.Some? && req.params.Some? && req.secrets != map[] && Block !in req.capabilities
    ensures Create(cfg, acc, w, req, env) ==
              (w, if |Split(req.source.snapshotId, '|')| < 3 then Failed
                  else Created("SnapshotVolumeHandle-" + req.name, req.capacity.value,
                               map["snapshot_id_key" := req.source.snapshotId]))
  {
  }

  /** A volume's id, spelled out. */
  lemma IdSpelled(cfg: Config, acc: D.Accounts, w: World, req: CreateRequest, env: Env, s: Settings)
    requires ValidWorld(w) && EnvOk(w, req, env) && Reaches(cfg, w.backend, req, env, s)
    requires Create(cfg, acc, w, req, env).1.Created?
    ensures var r := Create(cfg, acc, w, req, env);
            && VolumeKey(s.tenant, s.name) in r.0.backend.names
            && var uuid := r.0.backend.names[VolumeKey(s.tenant, s.name)];
            r.1 == Created(if "sharedVolumeName" in req.params.value then s.tenant + "|" + uuid + "|" + req.name
                           else s.tenant + "|" + uuid, req.capacity.value, map[])
  {
    CreatedMeans(cfg, acc, w, req, env, s);
  }

  function Repeat(cfg: Config, acc: D.Accounts, w: World, req: CreateRequest, envs: seq<Env>): (World, seq<Response>)
    requires forall env <- envs :: Ordered(req, env)
    decreases |envs|
  {
    if envs == [] then (w, [])
    else
      assert envs[0] in envs;
      var first := Create(cfg, acc, w, req, envs[0]);
      var rest := Repeat(cfg, acc, first.0, req, envs[1..]);
      (rest.0, [first.1] + rest.1)
  }

  lemma {:induction false} RepeatSteady(cfg: Config, acc: D.Accounts, w: World, req: CreateRequest, envs: seq<Env>,
                                        response: Response)
    requires forall e <- envs :: Ordered(req, e) && Create(cfg, acc, w, req, e).0 == w
    requires forall e <- envs :: Create(cfg, acc, w, req, e).1 in {response, Failed}
    ensures var all := Repeat(cfg, acc, w, req, envs);
            all.0 == w && forall answer <- all.1 :: answer in {response, Failed}
    decreases |envs|
  {
    if envs != [] {
      assert envs[0] in envs && forall e <- envs[1..] :: e in envs;
      RepeatSteady(cfg, acc, w, req, envs[1..], response);
    }
  }

  /** Any number of repetitions that mean the same volume, as long as none of them rolls back. */
  lemma RepeatsChangeNothing(cfg: Config, acc: D.Accounts, w: World, req: CreateRequest, env: Env, w1: World,
                             response: Response, envs: seq<Env>)
    requires ValidWorld(w) && EnvOk(w, req, env) && Create(cfg, acc, w, req, env) == (w1, response) && response.Created?
    requires forall e <- envs :: Ordered(req, e) && EnvOk(w1, req, e) && SameAsked(cfg, w.backend, req, env, e)
    requires forall e <- envs :: !RollsBack(cfg, w1.backend, req, e)
    ensures var all := Repeat(cfg, acc, w1, req, envs);
            all.0 == w1 && forall answer <- all.1 :: answer in {response, Failed}
  {
    forall e | e in envs
      ensures Create(cfg, acc, w1, req, e).0 == w1 && Create(cfg, acc, w1, req, e).1 in {response, Failed}
    {
      RepeatExactly(cfg, acc, w, req, env, e);
    }
    RepeatSteady(cfg, acc, w1, req, envs, response);
  }

  /** Every volume but those of the given names is left alone, and no other is made. */
  ghost predicate OnlyFor(b: Backend, b': Backend, keys: set<VolumeKey>)
    requires Valid(b) && Valid(b')
  {
    && (forall u <- b.volumes :: b.issued[u] !in keys ==> u in b'.volumes && b'.volumes[u] == b.volumes[u])
    && (forall u <- b'.volumes :: u in b.volumes || b'.issued[u] in keys)
  }

  /** The quota call was made and failed. */
  ghost predicate QuotaFailed(b: Backend, req: CreateRequest, s: Settings, env: Env)
    requires req.capacity.Some?
  {
    var o := Obtain(b, s, env);
    o.1.Some? && !Reserve(o.0, o.1.value, req.capacity.value, env).1
  }

  lemma CreateFrame(cfg: Config, acc: D.Accounts, w: World, req: CreateRequest, env: Env, s: Settings)
    requires ValidWorld(w) && EnvOk(w, req, env) && Reaches(cfg, w.backend, req, env, s)
    ensures var r := Create(cfg, acc, w, req, env);
            && ValidWorld(r.0) && OnlyFor(w.backend, r.0.backend, {KeyFor(s)})
            && (IsShared(req.params.value) ==>
                  forall u <- w.backend.volumes ::
                    u in r.0.backend.volumes && r.0.backend.volumes[u] == w.backend.volumes[u])
            && ((!IsShared(req.params.value) && s.createQuota && QuotaFailed(w.backend, req, s, env)
                 && !env.rollback.Refused?) ==> r.1.Failed? && KeyFor(s) !in r.0.backend.names)
            && (!IsShared(req.params.value) ==> r.0.nodes == w.nodes)
            && (r.0.nodes == w.nodes || (KeyFor(s) in r.0.backend.names &&
                  OnlyAt(w.nodes, r.0.nodes, ClaimDirectory(cfg.mount, r.0.backend.names[KeyFor(s)], req.name))))
  {
    CreatedMeans(cfg, acc, w, req, env, s);
    PreparedTenant(cfg, w.backend, req, env);
    ObtainKeeps(w.backend, s, env);
    var o := Obtain(w.backend, s, env);
    if o.1.Some? {
      ReserveKeeps(o.0, o.1.value, req.capacity.value, env);
      DirectoryMade(cfg, acc, w.nodes, ClaimDirectory(cfg.mount, o.1.value, req.name), s, env.mkdir);
    }
  }

  ghost predicate OnlyAt(nodes: D.Nodes, nodes': D.Nodes, path: string) {
    forall p :: p != path ==> D.At(nodes', p) == D.At(nodes, p)
  }

  /** The directory can be made, or is there. */
  ghost predicate CanMake(acc: D.Accounts, node: D.Node, s: Settings, f: D.Faults) {
    && !f.stat
    && match node
       case File => false
       case Dir(_, _, _) => true
       case Absent =>
         && FileMode(DirectoryRequest(s).accessMode).Value? && s.user in acc.users && s.group in acc.groups
         && !f.mkdir && !f.chmod && !f.chown
  }

  /**
   Exactly when a call that got its settings together succeeds: the API creates the
   volume, or says that it exists and finds it; then the quota can be set if one is
   asked for, or the claim's directory can be made or is there.
   */
  lemma SucceedsExactly(cfg: Config, acc: D.Accounts, w: World, req: CreateRequest, env: Env, s: Settings)
    requires ValidWorld(w) && EnvOk(w, req, env) && Reaches(cfg, w.backend, req, env, s)
    ensures var existing := KeyFor(s) in w.backend.names;
            var uuid := if existing then w.backend.names[KeyFor(s)] else env.uuid;
            Create(cfg, acc, w, req, env).1.Created? <==>
              && env.create.Works? && (existing ==> !env.resolveFault)
              && (if IsShared(req.params.value)
                  then CanMake(acc, D.At(w.nodes, ClaimDirectory(cfg.mount, uuid, req.name)), s, env.mkdir)
                  else s.createQuota ==> env.quota.Works?)
  {
    PreparedTenant(cfg, w.backend, req, env);
    ObtainKeeps(w.backend, s, env);
    var o := Obtain(w.backend, s, env);
    if o.1.Some? {
      ReserveWorks(o.0, o.1.value, req.capacity.value, env);
      MakesExactly(acc, w.nodes, ClaimDirectory(cfg.mount, o.1.value, req.name), s, env.mkdir);
    }
  }

  lemma ReserveWorks(b: Backend, uuid: string, capacity: int, env: Env)
    requires uuid in b.volumes
    ensures Reserve(b, uuid, capacity, env).1 <==> env.quota.Works?
  {
  }

  lemma MakesExactly(acc: D.Accounts, nodes: D.Nodes, path: string, s: Settings, f: D.Faults)
    requires f.initial.Dir?
    ensures MakeDirectory(acc, nodes, path, s, f).1 <==> CanMake(acc, D.At(nodes, path), s, f)
  {
  }

  ghost predicate ValidAttempts(cfg: Config, acc: D.Accounts, w: World, req: CreateRequest, envs: seq<Env>)
    decreases |envs|
  {
    envs == [] ||
    (EnvOk(w, req, envs[0]) && ValidAttempts(cfg, acc, Create(cfg, acc, w, req, envs[0]).0, req, envs[1..]))
  }

  /** Attempt after attempt, whatever each of them meets. */
  ghost function Attempts(cfg: Config, acc: D.Accounts, w: World, req: CreateRequest, envs: seq<Env>): World
    requires ValidAttempts(cfg, acc, w, req, envs)
    decreases |envs|
  {
    if envs == [] then w else Attempts(cfg, acc, Create(cfg, acc, w, req, envs[0]).0, req, envs[1..])
  }

  /** The volumes that attempts ask for; more than one only with conflicting parameters. */
  ghost function AskedFor(cfg: Config, b: Backend, req: CreateRequest, envs: seq<Env>): set<VolumeKey>
    requires req.params.Some? && forall e <- envs :: Ordered(req, e)
  {
    set e | e in envs && Prepared(cfg, b, req, e).Some? :: KeyFor(Prepared(cfg, b, req, e).value)
  }

  lemma {:induction false} AttemptsFrame(cfg: Config, acc: D.Accounts, w: World, req: CreateRequest, envs: seq<Env>,
                                         keys: set<VolumeKey>)
    requires ValidWorld(w) && ValidAttempts(cfg, acc, w, req, envs)
    requires Acceptable(req) && !req.source.FromSnapshot?
    requires forall e <- envs :: Ordered(req, e) &&
               (Prepared(cfg, w.backend, req, e).Some? ==> KeyFor(Prepared(cfg, w.backend, req, e).value) in keys)
    ensures var w' := Attempts(cfg, acc, w, req, envs);
            ValidWorld(w') && Grows(w.backend, w'.backend) && OnlyFor(w.backend, w'.backend, keys)
    decreases |envs|
  {
    if envs != [] {
      assert envs[0] in envs && forall e <- envs[1..] :: e in envs;
      var w1 := Create(cfg, acc, w, req, envs[0]).0;
      if Prepared(cfg, w.backend, req, envs[0]).Some? {
        CreatedMeans(cfg, acc, w, req, envs[0], Prepared(cfg, w.backend, req, envs[0]).value);
        CreateFrame(cfg, acc, w, req, envs[0], Prepared(cfg, w.backend, req, envs[0]).value);
      }
      assert OnlyFor(w.backend, w1.backend, keys) && Grows(w.backend, w1.backend);
      forall e | e in envs ensures Prepared(cfg, w1.backend, req, e) == Prepared(cfg, w.backend, req, e) {
        PreparedByTenants(cfg, w.backend, w1.backend, req, e);
      }
      AttemptsFrame(cfg, acc, w1, req, envs[1..], keys);
      OnlyForBoth(w.backend, w1.backend, Attempts(cfg, acc, w1, req, envs[1..]).backend, keys);
    }
  }

  lemma OnlyForBoth(b: Backend, b1: Backend, b2: Backend, keys: set<VolumeKey>)
    requires Valid(b) && Valid(b1) && Valid(b2) && Grows(b, b1) && Grows(b1, b2)
    requires OnlyFor(b, b1, keys) && OnlyFor(b1, b2, keys)
    ensures Grows(b, b2) && OnlyFor(b, b2, keys)
  {
  }

  lemma PreparedByTenants(cfg: Config, b: Backend, b': Backend, req: CreateRequest, env: Env)
    requires req.params.Some? && Ordered(req, env) && b.tenants == b'.tenants
    ensures Prepared(cfg, b, req, env) == Prepared(cfg, b', req, env)
  {
  }

  /**
   Quotas, over any sequence of attempts at the same request followed by one more
   that gets as far as the API: if that one succeeds, the volume exists with
   exactly the requested quota; if its quota call fails and the rollback works, no
   volume of that name is left; and in all of this no volume is touched or made
   that none of the attempts asked for.
   */
  lemma QuotaHolds(cfg: Config, acc: D.Accounts, w: World, req: CreateRequest, envs: seq<Env>, last: Env, s: Settings)
    requires ValidWorld(w) && ValidAttempts(cfg, acc, w, req, envs)
    requires Acceptable(req) && !req.source.FromSnapshot? && !IsShared(req.params.value)
    requires forall e <- envs :: Ordered(req, e)
    requires EnvOk(Attempts(cfg, acc, w, req, envs), req, last)
    requires Reaches(cfg, w.backend, req, last, s) && s.createQuota
    ensures var w1 := Attempts(cfg, acc, w, req, envs);
            var r := Create(cfg, acc, w1, req, last);
            && ValidWorld(r.0)
            && OnlyFor(w.backend, r.0.backend, AskedFor(cfg, w.backend, req, envs) + {KeyFor(s)})
            && (r.1.Created? ==> InPlace(cfg, r.0, req, s, r.1.volumeId))
            && (QuotaFailed(w1.backend, req, s, last) && !last.rollback.Refused? ==>
                  r.1.Failed? && KeyFor(s) !in r.0.backend.names)
  {
    AttemptsFrame(cfg, acc, w, req, envs, AskedFor(cfg, w.backend, req, envs));
    var w1 := Attempts(cfg, acc, w, req, envs);
    PreparedByTenants(cfg, w.backend, w1.backend, req, last);
    CreatedMeans(cfg, acc, w1, req, last, s);
    CreateFrame(cfg, acc, w1, req, last, s);
  }

  /** Without conflicting parameters the attempts ask for one volume only. */
  lemma AskedForOne(cfg: Config, b: Backend, req: CreateRequest, envs: seq<Env>, last: Env, s: Settings)
    requires req.params.Some? && OneVolume(Effects(req.params.value)) && Ordered(req, last)
    requires forall e <- envs + [last] :: Ordered(req, e) && Iterates(e.order, req.params.value.Keys)
    requires Prepared(cfg, b, req, last) == Some(s)
    ensures AskedFor(cfg, b, req, envs) + {KeyFor(s)} == {KeyFor(s)}
  {
    assert last in envs + [last];
    forall e | e in envs && Prepared(cfg, b, req, e).Some? ensures KeyFor(Prepared(cfg, b, req, e).value) == KeyFor(s) {
      assert e in envs + [last];
      PreparedAgree(cfg, b, req, e, Prepared(cfg, b, req, e).value, b, req, last, s);
    }
  }

  /**
   Such a retry exists for every volume created with a quota: one refused quota
   call deletes what the first call had handed out. The specification's
   idempotency of CreateVolume does not survive it.
   */
  lemma RetryDestroys(cfg: Config, acc: D.Accounts, w: World, req: CreateRequest, env: Env, uuid: string)
    returns (env': Env)
    requires ValidWorld(w) && EnvOk(w, req, env) && Create(cfg, acc, w, req, env).1.Created?
    requires !req.source.FromSnapshot? && !IsShared(req.params.value)
    requires Prepared(cfg, w.backend, req, env).value.createQuota
    requires IsUuid(uuid) && uuid !in Create(cfg, acc, w, req, env).0.backend.issued
    ensures var w1 := Create(cfg, acc, w, req, env).0;
            var key := KeyFor(Prepared(cfg, w.backend, req, env).value);
            && EnvOk(w1, req, env') && key in w1.backend.names
            && Create(cfg, acc, w1, req, env').1.Failed?
            && w1.backend.names[key] !in Create(cfg, acc, w1, req, env').0.backend.volumes
  {
    var s, w1 := Prepared(cfg, w.backend, req, env).value, Create(cfg, acc, w, req, env).0;
    CreatedMeans(cfg, acc, w, req, env, s);
    env' := env.(create := Works, resolveFault := false, uuid := uuid, quota := Refused, rollback := Works);
    PreparedByTenants(cfg, w.backend, w1.backend, req, env);
    assert Prepared(cfg, w1.backend, req, env') == Some(s);
    CreateInPlace(cfg, acc, w1, req, env', s, Create(cfg, acc, w, req, env).1.volumeId);
    CreatedMeans(cfg, acc, w1, req, env', s);
    assert RollsBack(cfg, w1.backend, req, env');
  }
}
