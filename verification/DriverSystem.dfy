/**
 The driver as a whole: calls of the controller service that overlap one another in
 any way, interleaved with the sweep's own steps, the pods' writes, everything a
 second driver does, and restarts of the driver; and what each step of it keeps.
 */
module DriverSystem {
  import opened Options
  import opened Paths
  import opened Markers
  import opened Handles
  import opened Parameters
  import opened B = Backend
  import opened Provisioning
  import opened Lifecycle
  import opened SweepRefinement
  import opened CallSteps
  import ClientCache
  import D = DirectoryMaker
  import M = SweepModel
  import S = SweepSafety
  import V = SharedVolumes

  /** The driver as deployed: its settings, what its sweep works with, accounts, and names of shared volumes. */
  datatype Deployment = Deployment(cfg: Config, c: M.Config, acc: D.Accounts, shared: set<string>)

  /**
   The world, the calls in flight, every handle handed out, those handles of
   subdirectories not deleted since, and the sweep. The sweep's file system shadows
   the world's directories.
   */
  datatype System = System(world: World, calls: map<nat, Call>, handles: set<string>, undeleted: set<string>,
                           sweep: M.State)

  /** A call arrives, does one request or system call, or returns; or somebody else does something. */
  datatype Step =
    | BeginCreate(k: nat, req: CreateRequest, env: Env)
    | BeginDelete(k: nat, id: string, secrets: ClientCache.Secrets)
    | BeginExpand(k: nat, id: string, secrets: ClientCache.Secrets, capacity: int)
    | Proceed(k: nat, env: Env, denv: DeleteEnv)
    | Return(k: nat)
    | Crash
    | Other(action: M.Action)

  /** The subdirectory that a handle is of, if any. */
  function EntryOf(id: string): Option<M.Entry> {
    match PlanDelete(id)
    case DropSubdirectory(volume, sub) => Some(M.Entry(volume, sub))
    case _ => None
  }

  /** What a step of a call is to the sweep. */
  function CallAction(cfg: Config, call: Call, env: Env, denv: DeleteEnv): Option<M.Action> {
    match call
    case Making(claim, _, uuid, at) =>
      if at.ToMkdir? && !env.mkdir.mkdir then Some(M.Create(M.Entry(uuid, claim.name), false)) else None
    case Dropping(_, volume, sub) =>
      if !cfg.useDeleteFilesTask && denv.rename.None? then Some(M.Delete(M.Entry(volume, sub))) else None
    case _ => None
  }

  /** And a call that returns: a handle with its directory is one the sweep has to spare. */
  function ReturnAction(call: Call, fs: M.FileSystem): Option<M.Action> {
    match call
    case Answering(Issued(_, id)) =>
      if EntryOf(id).Some? && EntryOf(id).value in fs then Some(M.Create(EntryOf(id).value, true)) else None
    case _ => None
  }

  function ActionOf(d: Deployment, y: System, step: Step): Option<M.Action> {
    match step
    case Proceed(k, env, denv) => if k in y.calls then CallAction(d.cfg, y.calls[k], env, denv) else None
    case Return(k) => if k in y.calls then ReturnAction(y.calls[k], y.sweep.fs) else None
    case Crash => Some(M.Restart)
    case Other(a) => Some(a)
    case _ => None
  }

  /** The sweep after an action; `ActionEnabled` shows that the action is always possible. */
  ghost function SweepAfter(c: M.Config, s: M.State, a: Option<M.Action>): M.State {
    if a.Some? && M.Enabled(c, s, a.value) then M.Do(c, s, a.value) else s
  }

  /**
   Claims get names the sweep knows of; deletes and expansions are of handles handed
   out, deleted or not. A UUID that a request may be answered with is a new one.
   */
  ghost predicate Allowed(d: Deployment, y: System, step: Step) {
    match step
    case BeginCreate(k, req, env) =>
      && k !in y.calls && Ordered(req, env) && (req.params.Some? ==> Iterates(env.order, req.params.value.Keys))
      && V.Disciplined(req, d.shared) && req.name in d.c.claims
    case BeginDelete(k, id, _) => k !in y.calls && id in y.handles
    case BeginExpand(k, id, _, _) => k !in y.calls && id in y.handles
    case Proceed(k, env, _) =>
      k in y.calls && IsUuid(env.uuid) && env.uuid !in y.world.backend.issued && env.mkdir.initial.Dir?
    case Return(k) => k in y.calls && y.calls[k].Answering?
    case Crash => true
    case Other(a) => M.Enabled(d.c, y.sweep, a) && !a.Create? && !a.Delete? && !a.Restart?
  }

  function Dropped(call: Call, next: Call): set<string> {
    if call.Dropping? && next == Answering(Deleted(call.id)) then {call.id} else {}
  }

  function IssuedBy(call: Call): set<string> {
    match call
    case Answering(Issued(_, id)) => {id}
    case _ => {}
  }

  /** A handle counts as deleted once its deletion has taken effect, returned or not. A restart ends all calls. */
  ghost function Perform(d: Deployment, y: System, step: Step): System
    requires Allowed(d, y, step)
  {
    var sweep, b := SweepAfter(d.c, y.sweep, ActionOf(d, y, step)), y.world.backend;
    match step
    case BeginCreate(k, req, env) => y.(calls := y.calls[k := Accept(d.cfg, b, req, env)])
    case BeginDelete(k, id, secrets) => y.(calls := y.calls[k := AcceptDelete(b, id, secrets)])
    case BeginExpand(k, id, secrets, capacity) => y.(calls := y.calls[k := AcceptExpand(b, id, secrets, capacity)])
    case Proceed(k, env, denv) =>
      var r := Next(d.cfg, d.acc, y.world, y.calls[k], env, denv);
      System(r.0, y.calls[k := r.1], y.handles, y.undeleted - Dropped(y.calls[k], r.1), sweep)
    case Return(k) =>
      var ids := IssuedBy(y.calls[k]);
      System(y.world, y.calls - {k}, y.handles + ids,
             y.undeleted + (set id | id in ids && EntryOf(id).Some?), sweep)
    case Crash => y.(calls := map[], sweep := sweep)
    case Other(a) => y.(world := y.world.(nodes := NodesAfter(d.c, y.sweep, y.world.nodes, a)), sweep := sweep)
  }

  /** A subdirectory's handle: its claim and volume, which has one tenant only. */
  ghost predicate SubOf(d: Deployment, b: Backend, id: string, h: M.Entry) {
    && h.sub in d.c.claims && h.volume in b.issued && b.issued[h.volume].name in d.shared
    && SubHandle(id, b.issued[h.volume].tenant, h.volume, h.sub)
  }

  /** A handle the service may hand out. */
  ghost predicate IdOk(d: Deployment, b: Backend, id: string) {
    V.HandleOk(b, d.shared, id) && (EntryOf(id).Some? ==> SubOf(d, b, id, EntryOf(id).value))
  }

  /** A disciplined claim, whose volume is a shared one exactly if it asks for that. */
  ghost predicate ClaimOk(d: Deployment, claim: Claim, s: Settings) {
    && Plain(claim.name) && NoSep(claim.name) && claim.name in d.c.claims
    && IsTenant(s.tenant) && (s.name in d.shared <==> claim.shared)
  }

  ghost predicate Owns(b: Backend, uuid: string, s: Settings) {
    uuid in b.issued && b.issued[uuid] == KeyFor(s)
  }

  /** A handle on its way to the caller; a subdirectory's volume exists. */
  ghost predicate IssuedOk(d: Deployment, b: Backend, pvName: string, id: string) {
    && IdOk(d, b, id)
    && (EntryOf(id).Some? ==> EntryOf(id).value.sub == pvName && EntryOf(id).value.volume in b.volumes)
  }

  /** What a call in flight relies on. */
  ghost predicate CallOk(d: Deployment, b: Backend, call: Call) {
    match call
    case Creating(claim, s) => ClaimOk(d, claim, s)
    case Resolving(claim, s) => ClaimOk(d, claim, s)
    case Reserving(claim, s, uuid) => ClaimOk(d, claim, s) && !claim.shared && Owns(b, uuid, s)
    case RollingBack(claim, s, uuid) => ClaimOk(d, claim, s) && !claim.shared && Owns(b, uuid, s)
    case Making(claim, s, uuid, at) =>
      ClaimOk(d, claim, s) && claim.shared && Owns(b, uuid, s) && uuid in b.volumes && !at.Returned?
    case Erasing(_, uuid) => uuid in b.issued && b.issued[uuid].name !in d.shared
    case Dropping(id, volume, sub) => SubOf(d, b, id, M.Entry(volume, sub))
    case Resizing(uuid, _) => uuid in b.issued && b.issued[uuid].name !in d.shared
    case Answering(answer) => answer.Issued? ==> IssuedOk(d, b, answer.pvName, answer.id)
  }

  /** An undeleted handle is a subdirectory's, and its volume exists. */
  ghost predicate UndeletedOk(d: Deployment, b: Backend, id: string) {
    && IdOk(d, b, id)
    && EntryOf(id).Some? && EntryOf(id).value.volume in b.volumes
  }

  /** What every run keeps, however calls overlap and whatever claims are called. */
  ghost predicate SystemOk(d: Deployment, y: System) {
    var b := y.world.backend;
    && ValidWorld(y.world) && Related(d.c, y.sweep.fs, y.world.nodes) && S.Orderly(d.c, y.sweep)
    && (forall id <- y.handles :: IdOk(d, b, id))
    && (forall k <- y.calls :: CallOk(d, b, y.calls[k]))
    && (forall id <- y.undeleted :: UndeletedOk(d, b, id))
  }

  lemma SubPlansOf(d: Deployment, b: Backend, id: string, h: M.Entry)
    requires SubOf(d, b, id, h)
    ensures PlanDelete(id) == DropSubdirectory(h.volume, h.sub) && EntryOf(id) == Some(h)
    ensures PlanExpand(id) == NothingToExpand && Plain(h.volume) && Plain(h.sub)
  {
    SubPlans(id, b.issued[h.volume].tenant, h.volume, h.sub);
    UuidShape(h.volume);
  }

  lemma SubId(d: Deployment, b: Backend, claim: Claim, s: Settings, uuid: string)
    requires Valid(b) && ClaimOk(d, claim, s) && claim.shared && Owns(b, uuid, s)
    ensures var id := ThreePart(s.tenant, uuid, claim.name);
            IdOk(d, b, id) && EntryOf(id) == Some(M.Entry(uuid, claim.name))
  {
    var id, h := ThreePart(s.tenant, uuid, claim.name), M.Entry(uuid, claim.name);
    assert SubHandle(id, s.tenant, uuid, claim.name);
    assert SubOf(d, b, id, h);
    SubPlansOf(d, b, id, h);
  }

  lemma WholeId(d: Deployment, b: Backend, s: Settings, uuid: string)
    requires Valid(b) && IsTenant(s.tenant) && s.name !in d.shared && Owns(b, uuid, s)
    ensures var id := TwoPart(s.tenant, uuid); IdOk(d, b, id) && EntryOf(id).None?
  {
    var id := TwoPart(s.tenant, uuid);
    assert WholeHandle(b, id, s.tenant, uuid);
    WholePlans(b, id, s.tenant, uuid);
  }

  lemma IdStays(d: Deployment, b: Backend, b': Backend, id: string)
    requires Grows(b, b') && IdOk(d, b, id)
    ensures IdOk(d, b', id)
  {
    V.HandlesStayOk(b, b', d.shared, id);
  }

  /** What one call does to the backend leaves the others what they rely on. */
  lemma CallStays(d: Deployment, b: Backend, b': Backend, call: Call)
    requires Valid(b) && Grows(b, b') && V.Survive(d.shared, b, b') && CallOk(d, b, call)
    ensures CallOk(d, b', call)
  {
    if call.Answering? && call.answer.Issued? {
      IdStays(d, b, b', call.answer.id);
    }
  }

  lemma UndeletedStays(d: Deployment, b: Backend, b': Backend, id: string)
    requires Valid(b) && Grows(b, b') && V.Survive(d.shared, b, b') && UndeletedOk(d, b, id)
    ensures UndeletedOk(d, b', id)
  {
    IdStays(d, b, b', id);
  }

  /** A step of a call is fine with the backend: shared volumes survive, and the call goes on soundly. */
  ghost predicate StepOk(d: Deployment, b: Backend, b': Backend, next: Call)
    requires Valid(b)
  {
    Valid(b') && Grows(b, b') && V.Survive(d.shared, b, b') && CallOk(d, b', next)
  }

  lemma ObtainedOk(d: Deployment, b: Backend, claim: Claim, s: Settings, uuid: string)
    requires Valid(b) && ClaimOk(d, claim, s) && KeyFor(s) in b.names && b.names[KeyFor(s)] == uuid
    ensures CallOk(d, b, Obtained(claim, s, uuid))
  {
    if !claim.shared {
      WholeId(d, b, s, uuid);
    }
  }

  lemma CreatingOk(d: Deployment, w: World, call: Call, env: Env, denv: DeleteEnv)
    requires ValidWorld(w) && CallOk(d, w.backend, call) && (call.Creating? || call.Resolving?)
    requires IsUuid(env.uuid) && env.uuid !in w.backend.issued
    ensures var r := Next(d.cfg, d.acc, w, call, env, denv); StepOk(d, w.backend, r.0.backend, r.1)
  {
    var b, s := w.backend, call.settings;
    if call.Creating? {
      B.CreateKeeps(b, KeyFor(s), SpecFor(s), env.create, env.uuid);
      var r := CreateVolume(b, KeyFor(s), SpecFor(s), env.create, env.uuid);
      if r.1.New? {
        ObtainedOk(d, r.0, call.claim, s, r.1.uuid);
      }
    } else if KeyFor(s) in b.names {
      ObtainedOk(d, b, call.claim, s, b.names[KeyFor(s)]);
    }
  }

  lemma QuotaOk(d: Deployment, w: World, call: Call, env: Env, denv: DeleteEnv)
    requires ValidWorld(w) && CallOk(d, w.backend, call) && (call.Reserving? || call.Resizing?)
    ensures var r := Next(d.cfg, d.acc, w, call, env, denv); StepOk(d, w.backend, r.0.backend, r.1)
  {
    QuotaKeeps(w.backend, call.uuid, if call.Reserving? then call.claim.capacity else call.capacity, env.quota);
    if call.Reserving? {
      WholeId(d, Next(d.cfg, d.acc, w, call, env, denv).0.backend, call.settings, call.uuid);
    }
  }

  lemma RemovalOk(d: Deployment, w: World, call: Call, env: Env, denv: DeleteEnv)
    requires ValidWorld(w) && CallOk(d, w.backend, call) && (call.RollingBack? || call.Erasing?)
    ensures var r := Next(d.cfg, d.acc, w, call, env, denv); StepOk(d, w.backend, r.0.backend, r.1)
  {
    RemoveKeeps(w.backend, call.uuid, if call.RollingBack? then env.rollback else denv.erase);
  }

  lemma DroppingOk(d: Deployment, w: World, call: Call, env: Env, denv: DeleteEnv)
    requires ValidWorld(w) && CallOk(d, w.backend, call) && call.Dropping?
    ensures var r := Next(d.cfg, d.acc, w, call, env, denv); StepOk(d, w.backend, r.0.backend, r.1)
  {
    var b, b' := w.backend, Next(d.cfg, d.acc, w, call, env, denv).0.backend;
    assert Plain(call.sub) && NoSep(call.sub);
    forall i | |b.tasks| <= i < |b'.tasks| ensures V.OneDirectory(b'.tasks[i]) {
      assert b'.tasks[i] == DeleteFiles(call.volume, TaskPath(call.sub));
    }
  }

  lemma MakingOk(d: Deployment, w: World, call: Call, env: Env, denv: DeleteEnv)
    requires ValidWorld(w) && CallOk(d, w.backend, call) && call.Making?
    ensures var r := Next(d.cfg, d.acc, w, call, env, denv); StepOk(d, w.backend, r.0.backend, r.1)
  {
    SubId(d, w.backend, call.claim, call.settings, call.uuid);
  }

  lemma NextOk(d: Deployment, w: World, call: Call, env: Env, denv: DeleteEnv)
    requires ValidWorld(w) && CallOk(d, w.backend, call)
    requires IsUuid(env.uuid) && env.uuid !in w.backend.issued
    ensures var r := Next(d.cfg, d.acc, w, call, env, denv); StepOk(d, w.backend, r.0.backend, r.1)
  {
    match call
    case Creating(_, _) => CreatingOk(d, w, call, env, denv);
    case Resolving(_, _) => CreatingOk(d, w, call, env, denv);
    case Reserving(_, _, _) => QuotaOk(d, w, call, env, denv);
    case Resizing(_, _) => QuotaOk(d, w, call, env, denv);
    case RollingBack(_, _, _) => RemovalOk(d, w, call, env, denv);
    case Erasing(_, _) => RemovalOk(d, w, call, env, denv);
    case Dropping(_, _, _) => DroppingOk(d, w, call, env, denv);
    case Making(_, _, _, _) => MakingOk(d, w, call, env, denv);
    case Answering(_) =>
  }

  /** A creation is accepted soundly. */
  lemma AcceptOk(d: Deployment, b: Backend, req: CreateRequest, env: Env)
    requires Valid(b) && Ordered(req, env) && (req.params.Some? ==> Iterates(env.order, req.params.value.Keys))
    requires V.Disciplined(req, d.shared) && req.name in d.c.claims
    ensures CallOk(d, b, Accept(d.cfg, b, req, env))
  {
    if Acceptable(req) && req.source.FromSnapshot? {
      var id := SNAPSHOT_PREFIX + req.name;
      assert V.HandleOk(b, d.shared, id);
      V.RestoredPlans(id);
    } else if Acceptable(req) && Prepared(d.cfg, b, req, env).Some? {
      PreparedTenant(d.cfg, b, req, env);
      V.EffectiveName(d.cfg, b, req, env, d.shared);
    }
  }

  lemma WholeAccepted(d: Deployment, b: Backend, id: string, t: string, u: string, secrets: ClientCache.Secrets,
                      capacity: int)
    requires WholeHandle(b, id, t, u) && b.issued[u].name !in d.shared
    ensures CallOk(d, b, AcceptDelete(b, id, secrets)) && CallOk(d, b, AcceptExpand(b, id, secrets, capacity))
  {
    WholePlans(b, id, t, u);
  }

  lemma SubAccepted(d: Deployment, b: Backend, id: string, h: M.Entry, secrets: ClientCache.Secrets, capacity: int)
    requires Valid(b) && SubOf(d, b, id, h)
    ensures CallOk(d, b, AcceptDelete(b, id, secrets)) && CallOk(d, b, AcceptExpand(b, id, secrets, capacity))
  {
    SubPlansOf(d, b, id, h);
  }

  lemma RestoredAccepted(d: Deployment, b: Backend, id: string, secrets: ClientCache.Secrets, capacity: int)
    requires PlanDelete(id) == Ignore && PlanExpand(id) == NotAHandle
    ensures CallOk(d, b, AcceptDelete(b, id, secrets)) && CallOk(d, b, AcceptExpand(b, id, secrets, capacity))
  {
  }

  /** Deletions and expansions are accepted soundly: they name volumes that are not shared, or one directory. */
  lemma AcceptOthersOk(d: Deployment, b: Backend, id: string, secrets: ClientCache.Secrets, capacity: int)
    requires Valid(b) && IdOk(d, b, id)
    ensures CallOk(d, b, AcceptDelete(b, id, secrets)) && CallOk(d, b, AcceptExpand(b, id, secrets, capacity))
  {
    if t, u :| WholeHandle(b, id, t, u) && b.issued[u].name !in d.shared {
      WholeAccepted(d, b, id, t, u, secrets, capacity);
    } else if t, u, p :| SubHandle(id, t, u, p) {
      SubPlans(id, t, u, p);
      SubAccepted(d, b, id, EntryOf(id).value, secrets, capacity);
    } else {
      V.RestoredPlans(id);
      RestoredAccepted(d, b, id, secrets, capacity);
    }
  }

  lemma CallActionEnabled(d: Deployment, b: Backend, s: M.State, call: Call, env: Env, denv: DeleteEnv)
    requires Valid(b) && CallOk(d, b, call)
    ensures var a := CallAction(d.cfg, call, env, denv); a.Some? ==> M.Enabled(d.c, s, a.value)
  {
    if call.Making? {
      UuidShape(call.uuid);
    } else if call.Dropping? {
      UuidShape(call.volume);
    }
  }

  /** The sweep's machine can take every step that the driver takes. */
  lemma ActionEnabled(d: Deployment, y: System, step: Step)
    requires SystemOk(d, y) && Allowed(d, y, step)
    ensures var a := ActionOf(d, y, step); a.Some? ==> M.Enabled(d.c, y.sweep, a.value)
  {
    var b := y.world.backend;
    match step
    case Proceed(k, env, denv) => CallActionEnabled(d, b, y.sweep, y.calls[k], env, denv);
    case Return(k) =>
      if ReturnAction(y.calls[k], y.sweep.fs).Some? {
        var id := y.calls[k].answer.id;
        SubPlansOf(d, b, id, EntryOf(id).value);
      }
    case _ =>
  }

  lemma MakingRelated(d: Deployment, w: World, s: M.State, call: Call, env: Env, denv: DeleteEnv)
    requires SameDriver(d.c, d.cfg) && Related(d.c, s.fs, w.nodes) && ValidWorld(w)
    requires CallOk(d, w.backend, call) && call.Making? && env.mkdir.initial.Dir?
    ensures var r, s' := Next(d.cfg, d.acc, w, call, env, denv), SweepAfter(d.c, s, CallAction(d.cfg, call, env, denv));
            Related(d.c, s'.fs, r.0.nodes) && D.Recorded(r.0.nodes)
  {
    var h := M.Entry(call.uuid, call.claim.name);
    UuidShape(call.uuid);
    CallActionEnabled(d, w.backend, s, call, env, denv);
    var node := D.At(w.nodes, M.PathOf(d.c, M.Entry(h.volume, h.sub)));
    assert M.PathOf(d.c, h) == ClaimDirectory(d.cfg.mount, call.uuid, call.claim.name);
    var a := SystemCall(call.settings, d.acc, node, call.at, env.mkdir);
    assert !a.0.File? && (a.0.Dir? <==> node.Dir? || CallAction(d.cfg, call, env, denv).Some?);
    PutRelated(d.c, s.fs, SweepAfter(d.c, s, CallAction(d.cfg, call, env, denv)).fs, w.nodes, h, a.0);
  }

  /** A deletion's rename, and what the call answers to it. */
  lemma DroppingRelated(d: Deployment, w: World, s: M.State, call: Call, env: Env, denv: DeleteEnv)
    requires SameDriver(d.c, d.cfg) && Related(d.c, s.fs, w.nodes) && ValidWorld(w)
    requires CallOk(d, w.backend, call) && call.Dropping?
    ensures var r, s' := Next(d.cfg, d.acc, w, call, env, denv), SweepAfter(d.c, s, CallAction(d.cfg, call, env, denv));
            && Related(d.c, s'.fs, r.0.nodes) && D.Recorded(r.0.nodes)
            && (Dropped(call, r.1) == {} ==> s'.fs == s.fs)
  {
    var h := M.Entry(call.volume, call.sub);
    UuidShape(call.volume);
    MarkerIsPlain(d.cfg.name, call.sub);
    CallActionEnabled(d, w.backend, s, call, env, denv);
    assert |Marker(d.cfg.name, call.sub)| > |call.sub|;
    RenameRelated(d.c, s.fs, w.nodes, h, M.MarkerOf(d.c, h));
    assert M.PathOf(d.c, h) == ClaimDirectory(d.cfg.mount, call.volume, call.sub);
    assert M.PathOf(d.c, M.MarkerOf(d.c, h)) == MarkerDirectory(d.cfg.mount, d.cfg.name, call.volume, call.sub);
  }

  lemma NextRelated(d: Deployment, w: World, s: M.State, call: Call, env: Env, denv: DeleteEnv)
    requires SameDriver(d.c, d.cfg) && Related(d.c, s.fs, w.nodes) && ValidWorld(w)
    requires CallOk(d, w.backend, call) && env.mkdir.initial.Dir?
    ensures var r, s' := Next(d.cfg, d.acc, w, call, env, denv), SweepAfter(d.c, s, CallAction(d.cfg, call, env, denv));
            Related(d.c, s'.fs, r.0.nodes) && D.Recorded(r.0.nodes)
  {
    if call.Making? {
      MakingRelated(d, w, s, call, env, denv);
    } else if call.Dropping? {
      DroppingRelated(d, w, s, call, env, denv);
    }
  }

  lemma SweepOrderly(c: M.Config, s: M.State, a: Option<M.Action>)
    requires M.ValidConfig(c) && S.Orderly(c, s)
    ensures S.Orderly(c, SweepAfter(c, s, a))
  {
    if a.Some? && M.Enabled(c, s, a.value) {
      S.OrderlyKeeps(c, s, a.value);
    }
  }

  /** One more call in flight, and the backend as it was. */
  lemma BeginKeeps(d: Deployment, y: System, k: nat, call: Call)
    requires SystemOk(d, y) && CallOk(d, y.world.backend, call)
    ensures SystemOk(d, y.(calls := y.calls[k := call]))
  {
  }

  /** One call further, the backend changed, and no handle more. */
  lemma ProceedKeeps(d: Deployment, y: System, y': System, k: nat)
    requires SystemOk(d, y) && k in y'.calls && y'.calls == y.calls[k := y'.calls[k]]
    requires StepOk(d, y.world.backend, y'.world.backend, y'.calls[k])
    requires y'.handles == y.handles && y'.undeleted <= y.undeleted
    requires S.Orderly(d.c, y'.sweep) && Related(d.c, y'.sweep.fs, y'.world.nodes) && D.Recorded(y'.world.nodes)
    ensures SystemOk(d, y')
  {
    var b, b' := y.world.backend, y'.world.backend;
    forall id | id in y'.handles ensures IdOk(d, b', id) {
      IdStays(d, b, b', id);
    }
    forall j | j in y'.calls ensures CallOk(d, b', y'.calls[j]) {
      if j != k {
        CallStays(d, b, b', y.calls[j]);
      }
    }
    forall id | id in y'.undeleted ensures UndeletedOk(d, b', id) {
      UndeletedStays(d, b, b', id);
    }
  }

  /** Fewer calls in flight, and the directories as they were. */
  lemma EndKeeps(d: Deployment, y: System, calls: map<nat, Call>, sweep: M.State)
    requires SystemOk(d, y) && S.Orderly(d.c, sweep) && sweep.fs == y.sweep.fs
    requires forall k <- calls :: k in y.calls && calls[k] == y.calls[k]
    ensures SystemOk(d, y.(calls := calls, sweep := sweep))
  {
  }

  lemma ReturnSweep(c: M.Config, s: M.State, call: Call)
    ensures SweepAfter(c, s, ReturnAction(call, s.fs)).fs == s.fs
  {
  }

  lemma IssuedKeeps(d: Deployment, y: System, call: Call)
    requires SystemOk(d, y) && CallOk(d, y.world.backend, call)
    ensures var ids := IssuedBy(call);
            SystemOk(d, y.(handles := y.handles + ids,
                           undeleted := y.undeleted + (set id | id in ids && EntryOf(id).Some?)))
  {
  }

  lemma ReturnKeeps(d: Deployment, y: System, k: nat)
    requires M.ValidConfig(d.c) && SystemOk(d, y) && Allowed(d, y, Return(k))
    ensures SystemOk(d, Perform(d, y, Return(k)))
  {
    var a, call := ReturnAction(y.calls[k], y.sweep.fs), y.calls[k];
    SweepOrderly(d.c, y.sweep, a);
    ReturnSweep(d.c, y.sweep, call);
    EndKeeps(d, y, y.calls - {k}, SweepAfter(d.c, y.sweep, a));
    IssuedKeeps(d, y.(calls := y.calls - {k}, sweep := SweepAfter(d.c, y.sweep, a)), call);
  }

  lemma BeginStep(d: Deployment, y: System, step: Step)
    requires SystemOk(d, y) && Allowed(d, y, step) && (step.BeginCreate? || step.BeginDelete? || step.BeginExpand?)
    ensures SystemOk(d, Perform(d, y, step))
  {
    var b := y.world.backend;
    match step
    case BeginCreate(k, req, env) =>
      AcceptOk(d, b, req, env);
      BeginKeeps(d, y, k, Accept(d.cfg, b, req, env));
    case BeginDelete(k, id, secrets) =>
      AcceptOthersOk(d, b, id, secrets, 0);
      BeginKeeps(d, y, k, AcceptDelete(b, id, secrets));
    case BeginExpand(k, id, secrets, capacity) =>
      AcceptOthersOk(d, b, id, secrets, capacity);
      BeginKeeps(d, y, k, AcceptExpand(b, id, secrets, capacity));
  }

  lemma ProceedStep(d: Deployment, y: System, k: nat, env: Env, denv: DeleteEnv)
    requires SameDriver(d.c, d.cfg) && M.ValidConfig(d.c) && SystemOk(d, y) && Allowed(d, y, Proceed(k, env, denv))
    ensures SystemOk(d, Perform(d, y, Proceed(k, env, denv)))
  {
    NextOk(d, y.world, y.calls[k], env, denv);
    NextRelated(d, y.world, y.sweep, y.calls[k], env, denv);
    SweepOrderly(d.c, y.sweep, CallAction(d.cfg, y.calls[k], env, denv));
    ProceedKeeps(d, y, Perform(d, y, Proceed(k, env, denv)), k);
  }

  lemma OtherStep(d: Deployment, y: System, a: M.Action)
    requires M.ValidConfig(d.c) && SystemOk(d, y) && Allowed(d, y, Other(a))
    ensures SystemOk(d, Perform(d, y, Other(a)))
  {
    SweepOrderly(d.c, y.sweep, Some(a));
    OtherRelated(d.c, y.sweep, y.world.nodes, a);
  }

  lemma RestartSweep(c: M.Config, s: M.State)
    ensures SweepAfter(c, s, Some(M.Restart)).fs == s.fs
  {
  }

  lemma CrashStep(d: Deployment, y: System)
    requires M.ValidConfig(d.c) && SystemOk(d, y)
    ensures SystemOk(d, Perform(d, y, Crash))
  {
    var sweep := SweepAfter(d.c, y.sweep, Some(M.Restart));
    SweepOrderly(d.c, y.sweep, Some(M.Restart));
    RestartSweep(d.c, y.sweep);
    EndKeeps(d, y, map[], sweep);
    assert Perform(d, y, Crash) == y.(calls := map[], sweep := sweep);
  }

  /** The invariant of the whole system, with nothing asked of the calls' order or of the claims' names. */
  lemma StepKeeps(d: Deployment, y: System, step: Step)
    requires SameDriver(d.c, d.cfg) && M.ValidConfig(d.c) && SystemOk(d, y) && Allowed(d, y, step)
    ensures SystemOk(d, Perform(d, y, step))
  {
    match step
    case Proceed(k, env, denv) => ProceedStep(d, y, k, env, denv);
    case Return(k) => ReturnKeeps(d, y, k);
    case Crash => CrashStep(d, y);
    case Other(a) => OtherStep(d, y, a);
    case _ => BeginStep(d, y, step);
  }
}
