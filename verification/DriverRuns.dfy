/** Whole runs of the driver, and which handles stay usable while calls overlap. */
module DriverRuns {
  import opened Options
  import opened Paths
  import opened Handles
  import opened Parameters
  import opened B = Backend
  import opened Provisioning
  import opened Lifecycle
  import opened SweepRefinement
  import opened CallSteps
  import opened DriverSystem
  import ClientCache
  import D = DirectoryMaker
  import M = SweepModel
  import S = SweepSafety
  import T = SweepTheorems
  import V = SharedVolumes

  ghost predicate ValidRun(d: Deployment, y: System, run: seq<Step>)
    decreases |run|
  {
    run == [] || (Allowed(d, y, run[0]) && ValidRun(d, Perform(d, y, run[0]), run[1..]))
  }

  ghost function After(d: Deployment, y: System, run: seq<Step>): System
    requires ValidRun(d, y, run)
    decreases |run|
  {
    if run == [] then y else After(d, Perform(d, y, run[0]), run[1..])
  }

  lemma {:induction false} RunKeeps(d: Deployment, y: System, run: seq<Step>)
    requires SameDriver(d.c, d.cfg) && M.ValidConfig(d.c) && SystemOk(d, y) && ValidRun(d, y, run)
    ensures SystemOk(d, After(d, y, run))
    decreases |run|
  {
    if run != [] {
      StepKeeps(d, y, run[0]);
      RunKeeps(d, Perform(d, y, run[0]), run[1..]);
    }
  }

  /** What a run is to the sweep. */
  ghost function ActionsOf(d: Deployment, y: System, run: seq<Step>): seq<M.Action>
    requires ValidRun(d, y, run)
    decreases |run|
  {
    if run == [] then []
    else
      var rest := ActionsOf(d, Perform(d, y, run[0]), run[1..]);
      var a := ActionOf(d, y, run[0]);
      if a.Some? then [a.value] + rest else rest
  }

  /**
   Every run of the driver, however its calls overlap, is a run of the sweep's state
   machine on the directories that are there, so what holds of all its runs holds here.
   */
  lemma {:induction false} RunIsSweepRun(d: Deployment, y: System, run: seq<Step>)
    requires SameDriver(d.c, d.cfg) && M.ValidConfig(d.c) && SystemOk(d, y) && ValidRun(d, y, run)
    ensures var y', actions := After(d, y, run), ActionsOf(d, y, run);
            && M.ValidRun(d.c, y.sweep, actions) && M.After(d.c, y.sweep, actions) == y'.sweep
            && Related(d.c, y'.sweep.fs, y'.world.nodes)
    decreases |run|
  {
    if run != [] {
      var y1, a := Perform(d, y, run[0]), ActionOf(d, y, run[0]);
      StepKeeps(d, y, run[0]);
      ActionEnabled(d, y, run[0]);
      RunIsSweepRun(d, y1, run[1..]);
      if a.Some? {
        assert y1.sweep == M.Do(d.c, y.sweep, a.value);
        T.Prepend(d.c, y.sweep, a.value, ActionsOf(d, y1, run[1..]));
      } else {
        assert y1.sweep == y.sweep;
      }
    }
  }

  /** The node can mount a handle: its volume exists, and if it is of a subdirectory, that does too. */
  ghost predicate Usable(cfg: Config, w: World, id: string) {
    && ProcessVolumeHandle(id).Some?
    && var at := ProcessVolumeHandle(id).value;
    && at.volume in w.backend.volumes
    && (at.sub != "" ==> D.At(w.nodes, ClaimDirectory(cfg.mount, at.volume, at.sub)).Dir?)
  }

  lemma UsableSub(d: Deployment, w: World, fs: M.FileSystem, id: string, h: M.Entry)
    requires SameDriver(d.c, d.cfg) && ValidWorld(w) && Related(d.c, fs, w.nodes) && SubOf(d, w.backend, id, h)
    ensures Usable(d.cfg, w, id) <==> h.volume in w.backend.volumes && h in fs
    ensures ProcessVolumeHandle(id) == Some(Located(w.backend.issued[h.volume].tenant, h.volume, h.sub))
    ensures h.sub != "" && Plain(h.volume)
  {
    var tenant := w.backend.issued[h.volume].tenant;
    UuidShape(tenant);
    UuidShape(h.volume);
    ThreePartRoundTrip(tenant, h.volume, h.sub);
    assert M.Entry(h.volume, h.sub) in fs <==> D.At(w.nodes, M.PathOf(d.c, M.Entry(h.volume, h.sub))).Dir?;
    assert M.PathOf(d.c, h) == ClaimDirectory(d.cfg.mount, h.volume, h.sub);
  }

  /** A call that is a creation of this PV, or is about to return its id. */
  predicate Creates(call: Call, pvName: string) {
    match call
    case Creating(claim, _) => claim.name == pvName
    case Resolving(claim, _) => claim.name == pvName
    case Reserving(claim, _, _) => claim.name == pvName
    case RollingBack(claim, _, _) => claim.name == pvName
    case Making(claim, _, _, _) => claim.name == pvName
    case Answering(Issued(name, _)) => name == pvName
    case _ => false
  }

  ghost predicate NoOverlap(calls: map<nat, Call>) {
    forall k, j :: k in calls && j in calls && calls[k].Dropping? ==> !Creates(calls[j], calls[k].sub)
  }

  /** No deletion of a subdirectory begins while its PV is being created, and no creation while it is being deleted. */
  ghost predicate Separate(y: System, step: Step) {
    match step
    case BeginCreate(_, req, _) => forall j <- y.calls :: y.calls[j].Dropping? ==> y.calls[j].sub != req.name
    case BeginDelete(_, id, _) =>
      EntryOf(id).Some? ==> forall j <- y.calls :: !Creates(y.calls[j], EntryOf(id).value.sub)
    case _ => true
  }

  /** The directory that a creation has found or made. */
  function Found(call: Call): Option<M.Entry> {
    match call
    case Making(claim, _, uuid, at) => if at.ToChmod? || at.ToChown? then Some(M.Entry(uuid, claim.name)) else None
    case Answering(Issued(_, id)) => EntryOf(id)
    case _ => None
  }

  ghost predicate FoundThere(call: Call, fs: M.FileSystem) {
    Found(call).Some? ==> Found(call).value in fs
  }

  ghost predicate AllThere(ids: set<string>, fs: M.FileSystem) {
    forall id <- ids :: EntryOf(id).Some? && EntryOf(id).value in fs
  }

  /** What runs of separate calls keep besides: what was found or handed out is there. */
  ghost predicate Intact(d: Deployment, y: System) {
    && SystemOk(d, y) && NoOverlap(y.calls)
    && AllThere(y.undeleted, y.sweep.fs)
    && (forall k <- y.calls :: FoundThere(y.calls[k], y.sweep.fs))
  }

  /** Nothing but a deletion of the claim itself takes its directory away. */
  lemma EntryKept(c: M.Config, s: M.State, a: Option<M.Action>, h: M.Entry)
    requires S.Safe(c) && S.Orderly(c, s) && h in s.fs && h.sub in c.claims && a != Some(M.Delete(h))
    ensures h in SweepAfter(c, s, a).fs
  {
    if a.Some? && M.Enabled(c, s, a.value) {
      S.EntryStays(c, s, h, a.value);
    }
  }

  lemma FoundCreates(d: Deployment, b: Backend, call: Call)
    requires CallOk(d, b, call) && Found(call).Some?
    ensures Found(call).value.sub in d.c.claims && Creates(call, Found(call).value.sub)
  {
  }

  /** What the directory maker has found or made once it goes on to change it or succeeds. */
  lemma SystemCallFinds(s: Settings, acc: D.Accounts, node: D.Node, at: D.Call, f: D.Faults)
    ensures var a := SystemCall(s, acc, node, at, f);
            && (a.1.ToChmod? ==> at.ToMkdir? && !f.mkdir)
            && (a.1.ToChown? ==> at.ToChmod?)
            && (a.1.Returned? && a.1.ok && !at.Returned? ==> !node.Absent?)
  {
  }

  lemma FoundMade(claim: Claim, s: Settings, uuid: string, at: D.Call, fs: M.FileSystem)
    requires EntryOf(ThreePart(s.tenant, uuid, claim.name)) == Some(M.Entry(uuid, claim.name))
    requires at.ToChmod? || at.ToChown? || (at.Returned? && at.ok) ==> M.Entry(uuid, claim.name) in fs
    ensures FoundThere(if at.Returned? then AnswerOfMake(claim, s, uuid, at.ok) else Making(claim, s, uuid, at), fs)
  {
  }

  lemma MakingFound(d: Deployment, w: World, s: M.State, call: Call, env: Env, denv: DeleteEnv)
    requires SameDriver(d.c, d.cfg) && S.Safe(d.c) && S.Orderly(d.c, s) && Related(d.c, s.fs, w.nodes) && ValidWorld(w)
    requires CallOk(d, w.backend, call) && call.Making? && FoundThere(call, s.fs)
    ensures var a := CallAction(d.cfg, call, env, denv);
            FoundThere(Next(d.cfg, d.acc, w, call, env, denv).1, SweepAfter(d.c, s, a).fs)
  {
    var h, a := M.Entry(call.uuid, call.claim.name), CallAction(d.cfg, call, env, denv);
    UuidShape(call.uuid);
    CallActionEnabled(d, w.backend, s, call, env, denv);
    SubId(d, w.backend, call.claim, call.settings, call.uuid);
    var node := D.At(w.nodes, M.PathOf(d.c, M.Entry(h.volume, h.sub)));
    assert (h in s.fs <==> node.Dir?) && !node.File?;
    assert M.PathOf(d.c, h) == ClaimDirectory(d.cfg.mount, call.uuid, call.claim.name);
    SystemCallFinds(call.settings, d.acc, node, call.at, env.mkdir);
    if h in s.fs {
      EntryKept(d.c, s, a, h);
    }
    var next := SystemCall(call.settings, d.acc, node, call.at, env.mkdir).1;
    FoundMade(call.claim, call.settings, call.uuid, next, SweepAfter(d.c, s, a).fs);
  }

  /** A call that answers with a whole volume's handle has just seen or made that volume. */
  lemma WholeAnswer(d: Deployment, w: World, call: Call, env: Env, denv: DeleteEnv) returns (s: Settings, uuid: string)
    requires ValidWorld(w) && CallOk(d, w.backend, call) && !call.Making? && !call.Answering?
    requires IsUuid(env.uuid) && env.uuid !in w.backend.issued
    requires var next := Next(d.cfg, d.acc, w, call, env, denv).1; next.Answering? && next.answer.Issued?
    ensures var r := Next(d.cfg, d.acc, w, call, env, denv);
            && r.1.answer.id == TwoPart(s.tenant, uuid) && Owns(r.0.backend, uuid, s) && uuid in r.0.backend.volumes
            && IsTenant(s.tenant) && s.name !in d.shared && Valid(r.0.backend)
  {
    s := call.settings;
    uuid := if call.Creating? then env.uuid
            else if call.Resolving? then w.backend.names[KeyFor(s)] else call.uuid;
    NextOk(d, w, call, env, denv);
    if call.Creating? {
      B.CreateKeeps(w.backend, KeyFor(s), SpecFor(s), env.create, env.uuid);
    }
  }

  lemma OthersFound(d: Deployment, w: World, call: Call, env: Env, denv: DeleteEnv)
    requires ValidWorld(w) && CallOk(d, w.backend, call) && !call.Making? && !call.Answering?
    requires IsUuid(env.uuid) && env.uuid !in w.backend.issued
    ensures Found(Next(d.cfg, d.acc, w, call, env, denv).1).None?
  {
    var r := Next(d.cfg, d.acc, w, call, env, denv);
    if r.1.Answering? && r.1.answer.Issued? {
      var s, uuid := WholeAnswer(d, w, call, env, denv);
      WholeId(d, r.0.backend, s, uuid);
    }
  }

  lemma NextFound(d: Deployment, w: World, s: M.State, call: Call, env: Env, denv: DeleteEnv)
    requires SameDriver(d.c, d.cfg) && S.Safe(d.c) && S.Orderly(d.c, s) && Related(d.c, s.fs, w.nodes) && ValidWorld(w)
    requires CallOk(d, w.backend, call) && FoundThere(call, s.fs)
    requires IsUuid(env.uuid) && env.uuid !in w.backend.issued
    ensures var a := CallAction(d.cfg, call, env, denv);
            FoundThere(Next(d.cfg, d.acc, w, call, env, denv).1, SweepAfter(d.c, s, a).fs)
  {
    if call.Making? {
      MakingFound(d, w, s, call, env, denv);
    } else if !call.Answering? {
      OthersFound(d, w, call, env, denv);
    }
  }

  /** A call stays a creation of the PV it is of, and none becomes a deletion. */
  lemma NextCreates(cfg: Config, acc: D.Accounts, w: World, call: Call, env: Env, denv: DeleteEnv, pvName: string)
    ensures var next := Next(cfg, acc, w, call, env, denv).1;
            && (Creates(next, pvName) ==> Creates(call, pvName))
            && (next.Dropping? ==> next == call)
  {
  }

  lemma NoOverlapKept(calls: map<nat, Call>, k: nat, next: Call)
    requires NoOverlap(calls) && k in calls
    requires forall pvName :: Creates(next, pvName) ==> Creates(calls[k], pvName)
    requires next.Dropping? ==> next == calls[k]
    ensures NoOverlap(calls[k := next])
  {
  }

  /** Other calls' directories are untouched by a call's step, as no deletion overlaps a creation. */
  lemma OthersThere(d: Deployment, y: System, k: nat, j: nat, env: Env, denv: DeleteEnv)
    requires S.Safe(d.c) && Intact(d, y) && k in y.calls && j in y.calls
    requires Found(y.calls[j]).Some?
    ensures var a := CallAction(d.cfg, y.calls[k], env, denv);
            Found(y.calls[j]).value in SweepAfter(d.c, y.sweep, a).fs
  {
    FoundCreates(d, y.world.backend, y.calls[j]);
    EntryKept(d.c, y.sweep, CallAction(d.cfg, y.calls[k], env, denv), Found(y.calls[j]).value);
  }

  lemma UndeletedThere(d: Deployment, y: System, k: nat, env: Env, denv: DeleteEnv, id: string)
    requires SameDriver(d.c, d.cfg) && S.Safe(d.c) && Intact(d, y) && k in y.calls && id in y.undeleted
    requires id !in Dropped(y.calls[k], Next(d.cfg, d.acc, y.world, y.calls[k], env, denv).1)
    ensures EntryOf(id).value in SweepAfter(d.c, y.sweep, CallAction(d.cfg, y.calls[k], env, denv)).fs
  {
    var b, call, h := y.world.backend, y.calls[k], EntryOf(id).value;
    if CallAction(d.cfg, call, env, denv) == Some(M.Delete(h)) {
      SubPlansOf(d, b, call.id, h);
      assert SubOf(d, b, id, h) && id == call.id;
      DroppingRelated(d, y.world, y.sweep, call, env, denv);
    } else {
      EntryKept(d.c, y.sweep, CallAction(d.cfg, call, env, denv), h);
    }
  }

  lemma ProceedIntact(d: Deployment, y: System, k: nat, env: Env, denv: DeleteEnv)
    requires SameDriver(d.c, d.cfg) && S.Safe(d.c) && Intact(d, y) && Allowed(d, y, Proceed(k, env, denv))
    ensures Intact(d, Perform(d, y, Proceed(k, env, denv)))
  {
    var call, y' := y.calls[k], Perform(d, y, Proceed(k, env, denv));
    StepKeeps(d, y, Proceed(k, env, denv));
    forall pvName ensures Creates(y'.calls[k], pvName) ==> Creates(call, pvName) {
      NextCreates(d.cfg, d.acc, y.world, call, env, denv, pvName);
    }
    NextCreates(d.cfg, d.acc, y.world, call, env, denv, "");
    NoOverlapKept(y.calls, k, y'.calls[k]);
    forall j | j in y'.calls ensures FoundThere(y'.calls[j], y'.sweep.fs) {
      if j == k {
        NextFound(d, y.world, y.sweep, call, env, denv);
      } else if Found(y.calls[j]).Some? {
        OthersThere(d, y, k, j, env, denv);
      }
    }
    forall id | id in y'.undeleted ensures EntryOf(id).Some? && EntryOf(id).value in y'.sweep.fs {
      UndeletedThere(d, y, k, env, denv, id);
    }
  }

  /** One more call in flight that overlaps nothing it must not, and has found nothing yet. */
  lemma BeginIntact(d: Deployment, y: System, k: nat, call: Call)
    requires Intact(d, y) && CallOk(d, y.world.backend, call) && k !in y.calls && Found(call).None?
    requires call.Dropping? ==> forall j <- y.calls :: !Creates(y.calls[j], call.sub)
    requires forall j <- y.calls :: y.calls[j].Dropping? ==> !Creates(call, y.calls[j].sub)
    ensures Intact(d, y.(calls := y.calls[k := call]))
  {
    BeginKeeps(d, y, k, call);
  }

  lemma AcceptFinds(d: Deployment, b: Backend, req: CreateRequest, env: Env)
    requires Ordered(req, env) && V.Disciplined(req, d.shared)
    ensures var call := Accept(d.cfg, b, req, env);
            Found(call).None? && !call.Dropping? && forall pvName :: Creates(call, pvName) ==> pvName == req.name
  {
    if Acceptable(req) && req.source.FromSnapshot? {
      V.RestoredPlans(SNAPSHOT_PREFIX + req.name);
    }
  }

  /** A handle that is returned has its directory. */
  lemma IssuedThere(call: Call, undeleted: set<string>, fs: M.FileSystem)
    requires FoundThere(call, fs) && AllThere(undeleted, fs)
    ensures AllThere(undeleted + (set id | id in IssuedBy(call) && EntryOf(id).Some?), fs)
  {
    forall id | id in IssuedBy(call) && EntryOf(id).Some? ensures EntryOf(id).value in fs {
      assert Found(call) == EntryOf(id);
    }
  }

  lemma ReturnIntact(d: Deployment, y: System, k: nat)
    requires SameDriver(d.c, d.cfg) && S.Safe(d.c) && Intact(d, y) && Allowed(d, y, Return(k))
    ensures Intact(d, Perform(d, y, Return(k)))
  {
    ReturnKeeps(d, y, k);
    ReturnSweep(d.c, y.sweep, y.calls[k]);
    IssuedThere(y.calls[k], y.undeleted, y.sweep.fs);
  }

  /** Restarts, pods, sweeps and the second driver. */
  lemma OthersIntact(d: Deployment, y: System, step: Step)
    requires SameDriver(d.c, d.cfg) && S.Safe(d.c) && Intact(d, y) && Allowed(d, y, step)
    requires step.Crash? || step.Other?
    ensures Intact(d, Perform(d, y, step))
  {
    var y', a := Perform(d, y, step), ActionOf(d, y, step);
    StepKeeps(d, y, step);
    forall k | k in y'.calls ensures FoundThere(y'.calls[k], y'.sweep.fs) {
      if Found(y.calls[k]).Some? {
        FoundCreates(d, y.world.backend, y.calls[k]);
        EntryKept(d.c, y.sweep, a, Found(y.calls[k]).value);
      }
    }
    forall id | id in y'.undeleted ensures EntryOf(id).Some? && EntryOf(id).value in y'.sweep.fs {
      EntryKept(d.c, y.sweep, a, EntryOf(id).value);
    }
  }

  lemma BeginCreateIntact(d: Deployment, y: System, k: nat, req: CreateRequest, env: Env)
    requires Intact(d, y) && Allowed(d, y, BeginCreate(k, req, env)) && Separate(y, BeginCreate(k, req, env))
    ensures Intact(d, Perform(d, y, BeginCreate(k, req, env)))
  {
    AcceptOk(d, y.world.backend, req, env);
    AcceptFinds(d, y.world.backend, req, env);
    BeginIntact(d, y, k, Accept(d.cfg, y.world.backend, req, env));
  }

  /** Neither deletions nor expansions create anything, and only the deletion of a subdirectory drops one. */
  lemma OthersFind(b: Backend, id: string, secrets: ClientCache.Secrets, capacity: int)
    ensures var call := AcceptDelete(b, id, secrets);
            && Found(call).None? && (forall pvName :: !Creates(call, pvName))
            && (call.Dropping? ==> EntryOf(id) == Some(M.Entry(call.volume, call.sub)))
    ensures var call := AcceptExpand(b, id, secrets, capacity);
            Found(call).None? && !call.Dropping? && forall pvName :: !Creates(call, pvName)
  {
  }

  lemma BeginDeleteIntact(d: Deployment, y: System, k: nat, id: string, secrets: ClientCache.Secrets)
    requires Intact(d, y) && Allowed(d, y, BeginDelete(k, id, secrets)) && Separate(y, BeginDelete(k, id, secrets))
    ensures Intact(d, Perform(d, y, BeginDelete(k, id, secrets)))
  {
    AcceptOthersOk(d, y.world.backend, id, secrets, 0);
    OthersFind(y.world.backend, id, secrets, 0);
    BeginIntact(d, y, k, AcceptDelete(y.world.backend, id, secrets));
  }

  lemma BeginExpandIntact(d: Deployment, y: System, k: nat, id: string, secrets: ClientCache.Secrets, capacity: int)
    requires Intact(d, y) && Allowed(d, y, BeginExpand(k, id, secrets, capacity))
    ensures Intact(d, Perform(d, y, BeginExpand(k, id, secrets, capacity)))
  {
    AcceptOthersOk(d, y.world.backend, id, secrets, capacity);
    OthersFind(y.world.backend, id, secrets, capacity);
    BeginIntact(d, y, k, AcceptExpand(y.world.backend, id, secrets, capacity));
  }

  lemma StepIntact(d: Deployment, y: System, step: Step)
    requires SameDriver(d.c, d.cfg) && S.Safe(d.c) && Intact(d, y) && Allowed(d, y, step) && Separate(y, step)
    ensures Intact(d, Perform(d, y, step))
  {
    match step
    case BeginCreate(k, req, env) => BeginCreateIntact(d, y, k, req, env);
    case BeginDelete(k, id, secrets) => BeginDeleteIntact(d, y, k, id, secrets);
    case BeginExpand(k, id, secrets, capacity) => BeginExpandIntact(d, y, k, id, secrets, capacity);
    case Proceed(k, env, denv) => ProceedIntact(d, y, k, env, denv);
    case Return(k) => ReturnIntact(d, y, k);
    case _ => OthersIntact(d, y, step);
  }

  /** Runs in which no deletion of a subdirectory overlaps a creation of the same PV. */
  ghost predicate SeparateRun(d: Deployment, y: System, run: seq<Step>)
    requires ValidRun(d, y, run)
    decreases |run|
  {
    run == [] ||
    (Separate(y, run[0]) && SeparateRun(d, Perform(d, y, run[0]), run[1..]))
  }

  lemma {:induction false} RunIntact(d: Deployment, y: System, run: seq<Step>)
    requires SameDriver(d.c, d.cfg) && S.Safe(d.c) && Intact(d, y)
    requires ValidRun(d, y, run) && SeparateRun(d, y, run)
    ensures Intact(d, After(d, y, run))
    decreases |run|
  {
    if run != [] {
      StepIntact(d, y, run[0]);
      RunIntact(d, Perform(d, y, run[0]), run[1..]);
    }
  }

  /**
   A driver that just started: an earlier process may have handed out handles, those
   not deleted are usable, and the sweep sees the directories as they are.
   */
  ghost predicate Start(d: Deployment, y: System) {
    && ValidWorld(y.world) && M.Start(d.c, y.sweep) && Related(d.c, y.sweep.fs, y.world.nodes) && y.calls == map[]
    && (forall id <- y.handles :: IdOk(d, y.world.backend, id))
    && (forall id <- y.undeleted :: id in y.handles && EntryOf(id).Some? && Usable(d.cfg, y.world, id))
  }

  lemma StartIntact(d: Deployment, y: System)
    requires SameDriver(d.c, d.cfg) && M.ValidConfig(d.c) && Start(d, y)
    ensures Intact(d, y)
  {
    S.StartInv(d.c, y.sweep);
    forall id | id in y.undeleted ensures UndeletedOk(d, y.world.backend, id) && EntryOf(id).value in y.sweep.fs {
      UsableSub(d, y.world, y.sweep.fs, id, EntryOf(id).value);
    }
  }

  /**
   Over every run of calls that create, fail to create, delete in either mode and
   expand, whatever they meet, overlapping in any way except that no deletion of a
   subdirectory overlaps a creation of the same PV, interleaved in any way with the
   sweeps of two drivers, with the pods and with restarts: every handle of a
   subdirectory that was handed out and not deleted since has its volume and its
   directory.
   */
  lemma UndeletedHandlesUsable(d: Deployment, y: System, run: seq<Step>)
    requires SameDriver(d.c, d.cfg) && S.Safe(d.c) && Start(d, y)
    requires ValidRun(d, y, run) && SeparateRun(d, y, run)
    ensures var y' := After(d, y, run); forall id <- y'.undeleted :: Usable(d.cfg, y'.world, id)
  {
    StartIntact(d, y);
    RunIntact(d, y, run);
    var y' := After(d, y, run);
    forall id | id in y'.undeleted ensures Usable(d.cfg, y'.world, id) {
      UsableSub(d, y'.world, y'.sweep.fs, id, EntryOf(id).value);
    }
  }
}
