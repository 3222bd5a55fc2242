/** Exactly when a handle that a call returns, or returned, has lost its volume or its directory. */
module LostHandles {
  import opened Options
  import opened GoStrings
  import opened Paths
  import opened Markers
  import opened Handles
  import opened Parameters
  import opened B = Backend
  import opened Provisioning
  import opened Lifecycle
  import opened SweepRefinement
  import opened CallSteps
  import opened DriverRuns
  import opened DriverSystem
  import D = DirectoryMaker
  import M = SweepModel
  import S = SweepSafety
  import T = SweepTheorems

  /** A call's mkdir of a subdirectory that does not fail. */
  ghost predicate Makes(y: System, step: Step, h: M.Entry) {
    && step.Proceed? && step.k in y.calls && y.calls[step.k].Making?
    && var call := y.calls[step.k];
    M.Entry(call.uuid, call.claim.name) == h && call.at.ToMkdir? && !step.env.mkdir.mkdir
  }

  /** A deletion's rename of a subdirectory that does not fail and finds no marker in its way. */
  ghost predicate Moves(d: Deployment, y: System, step: Step, h: M.Entry) {
    && step.Proceed? && step.k in y.calls && y.calls[step.k].Dropping?
    && var call := y.calls[step.k];
    && M.Entry(call.volume, call.sub) == h && !d.cfg.useDeleteFilesTask && step.denv.rename.None?
    && D.At(y.world.nodes, MarkerDirectory(d.cfg.mount, d.cfg.name, call.volume, call.sub)).Absent?
  }

  /** Whether the last of the renames and mkdirs of a subdirectory in a run is a mkdir; as before if there is none. */
  ghost predicate Remains(d: Deployment, y: System, run: seq<Step>, h: M.Entry, now: bool)
    requires ValidRun(d, y, run)
    decreases |run|
  {
    if run == [] then now
    else Remains(d, Perform(d, y, run[0]), run[1..], h, Makes(y, run[0], h) || (now && !Moves(d, y, run[0], h)))
  }

  /** No claim has a name that a deletion by either driver gives. */
  ghost predicate ClaimsNoMarkers(c: M.Config) {
    && S.Safe(c) && S.ClaimsNotMarkers(c)
    && forall claim <- c.otherClaims :: Marker(c.other, claim) !in c.claims
  }

  /** Steps of everybody but the calls neither make nor move a claim's directory. */
  lemma OtherSpares(c: M.Config, s: M.State, a: M.Action, h: M.Entry)
    requires ClaimsNoMarkers(c) && S.Orderly(c, s) && M.Enabled(c, s, a) && h.sub in c.claims
    requires !a.Create? && !a.Delete?
    ensures h in M.Do(c, s, a).fs <==> h in s.fs
  {
    if h in s.fs {
      S.EntryStays(c, s, h, a);
    } else {
      T.StaysAwayStep(c, s, h, a);
    }
  }

  lemma DropSpares(d: Deployment, w: World, s: M.State, k: M.Entry, h: M.Entry)
    requires SameDriver(d.c, d.cfg) && ClaimsNoMarkers(d.c) && S.Orderly(d.c, s) && Related(d.c, s.fs, w.nodes)
    requires h.sub in d.c.claims && k.sub in d.c.claims && Plain(k.volume)
    ensures h in M.DoDelete(d.c, s, k).fs <==>
              && h in s.fs
              && !(h == k && D.At(w.nodes, MarkerDirectory(d.cfg.mount, d.cfg.name, k.volume, k.sub)).Absent?)
  {
    MarkerIsPlain(d.c.driver, k.sub);
    var m := Marker(d.c.driver, k.sub);
    assert |m| > |k.sub|;
    assert M.Entry(k.volume, m) in s.fs <==> D.At(w.nodes, M.PathOf(d.c, M.Entry(k.volume, m))).Dir?;
    assert D.At(w.nodes, M.PathOf(d.c, M.Entry(k.volume, m))) != D.File;
    assert M.PathOf(d.c, M.Entry(k.volume, m)) == MarkerDirectory(d.cfg.mount, d.cfg.name, k.volume, k.sub);
  }

  /** The sweep's part in each step. */
  lemma SweepIs(d: Deployment, y: System, step: Step)
    requires Allowed(d, y, step)
    ensures Perform(d, y, step).sweep == SweepAfter(d.c, y.sweep, ActionOf(d, y, step))
  {
  }

  /** Which steps create, which delete, and what that makes or moves. */
  lemma ActionIs(d: Deployment, y: System, step: Step, h: M.Entry)
    requires Allowed(d, y, step)
    ensures var a := ActionOf(d, y, step);
            && (Makes(y, step, h) <==> a.Some? && a.value.Create? && a.value.h == h && !a.value.issued)
            && (a.Some? && a.value.Create? && a.value.issued ==> a.value.h in y.sweep.fs)
            && (Moves(d, y, step, h) <==>
                  && a.Some? && a.value.Delete? && a.value.h == h
                  && D.At(y.world.nodes, MarkerDirectory(d.cfg.mount, d.cfg.name, h.volume, h.sub)).Absent?)
  {
  }

  lemma StepRemains(d: Deployment, y: System, step: Step, h: M.Entry)
    requires SameDriver(d.c, d.cfg) && ClaimsNoMarkers(d.c) && SystemOk(d, y) && Allowed(d, y, step)
    requires h.sub in d.c.claims
    ensures h in Perform(d, y, step).sweep.fs <==>
              Makes(y, step, h) || (h in y.sweep.fs && !Moves(d, y, step, h))
  {
    ActionEnabled(d, y, step);
    SweepIs(d, y, step);
    ActionIs(d, y, step, h);
    ActionRemains(d, y.world, y.sweep, ActionOf(d, y, step), h);
  }

  lemma ActionRemains(d: Deployment, w: World, s: M.State, a: Option<M.Action>, h: M.Entry)
    requires SameDriver(d.c, d.cfg) && ClaimsNoMarkers(d.c) && S.Orderly(d.c, s) && Related(d.c, s.fs, w.nodes)
    requires h.sub in d.c.claims && (a.Some? ==> M.Enabled(d.c, s, a.value))
    ensures h in SweepAfter(d.c, s, a).fs <==>
              if a.Some? && a.value.Create? then h in s.fs || a.value.h == h
              else && h in s.fs
                   && !(&& a.Some? && a.value.Delete? && a.value.h == h
                        && D.At(w.nodes, MarkerDirectory(d.cfg.mount, d.cfg.name, h.volume, h.sub)).Absent?)
  {
    if a.Some? {
      if a.value.Delete? {
        DropSpares(d, w, s, a.value.h, h);
      } else if !a.value.Create? {
        OtherSpares(d.c, s, a.value, h);
      }
    }
  }

  /**
   Exactly when a claim's directory is there after a run, however calls overlap: only
   mkdirs and renames of that claim count, and the last of them decides.
   */
  lemma {:induction false} DirectoryExactly(d: Deployment, y: System, run: seq<Step>, h: M.Entry)
    requires SameDriver(d.c, d.cfg) && ClaimsNoMarkers(d.c) && SystemOk(d, y) && ValidRun(d, y, run)
    requires h.sub in d.c.claims
    ensures h in After(d, y, run).sweep.fs <==> Remains(d, y, run, h, h in y.sweep.fs)
    decreases |run|
  {
    if run != [] {
      StepKeeps(d, y, run[0]);
      StepRemains(d, y, run[0], h);
      DirectoryExactly(d, Perform(d, y, run[0]), run[1..], h);
    }
  }

  /** A request that removes a volume: a rollback or an erasure that was not refused. */
  predicate CallRemoves(call: Call, env: Env, denv: DeleteEnv, uuid: string) {
    match call
    case RollingBack(_, _, u) => u == uuid && !env.rollback.Refused?
    case Erasing(_, u) => u == uuid && !denv.erase.Refused?
    case _ => false
  }

  predicate Removes(y: System, step: Step, uuid: string) {
    step.Proceed? && step.k in y.calls && CallRemoves(y.calls[step.k], step.env, step.denv, uuid)
  }

  ghost predicate Removed(d: Deployment, y: System, run: seq<Step>, uuid: string)
    requires ValidRun(d, y, run)
    decreases |run|
  {
    run != [] && (Removes(y, run[0], uuid) || Removed(d, Perform(d, y, run[0]), run[1..], uuid))
  }

  lemma BackendKept(cfg: Config, acc: D.Accounts, w: World, call: Call, env: Env, denv: DeleteEnv)
    requires call.Making? || call.Dropping?
    ensures var b' := Next(cfg, acc, w, call, env, denv).0.backend; b' == w.backend.(tasks := b'.tasks)
  {
  }

  lemma NextVolumes(cfg: Config, acc: D.Accounts, w: World, call: Call, env: Env, denv: DeleteEnv, uuid: string)
    requires Valid(w.backend) && uuid in w.backend.issued && env.uuid !in w.backend.issued
    ensures var b, b' := w.backend, Next(cfg, acc, w, call, env, denv).0.backend;
            && uuid in b'.issued && b'.issued[uuid] == b.issued[uuid]
            && (uuid in b'.volumes <==> uuid in b.volumes && !CallRemoves(call, env, denv, uuid))
  {
    if call.Making? || call.Dropping? {
      BackendKept(cfg, acc, w, call, env, denv);
    } else if call.Creating? {
      AddsNothingOld(w.backend, KeyFor(call.settings), SpecFor(call.settings), env.create, env.uuid, uuid);
    }
  }

  lemma AddsNothingOld(b: Backend, key: VolumeKey, spec: VolumeSpec, fault: Fault, next: string, uuid: string)
    requires uuid in b.issued && next !in b.issued
    ensures var b' := CreateVolume(b, key, spec, fault, next).0;
            && uuid in b'.issued && b'.issued[uuid] == b.issued[uuid] && (uuid in b'.volumes <==> uuid in b.volumes)
  {
  }

  lemma StepVolumes(d: Deployment, y: System, step: Step, uuid: string)
    requires SystemOk(d, y) && Allowed(d, y, step) && uuid in y.world.backend.issued
    ensures var b' := Perform(d, y, step).world.backend;
            && uuid in b'.issued && b'.issued[uuid] == y.world.backend.issued[uuid]
            && (uuid in b'.volumes <==> uuid in y.world.backend.volumes && !Removes(y, step, uuid))
  {
    if step.Proceed? {
      NextVolumes(d.cfg, d.acc, y.world, y.calls[step.k], step.env, step.denv, uuid);
    }
  }

  /** Exactly when a volume ever handed out is there after a run: nobody's rollback and nobody's erasure took it. */
  lemma {:induction false} VolumeExactly(d: Deployment, y: System, run: seq<Step>, uuid: string)
    requires SameDriver(d.c, d.cfg) && M.ValidConfig(d.c) && SystemOk(d, y) && ValidRun(d, y, run)
    requires uuid in y.world.backend.issued
    ensures var b, b' := y.world.backend, After(d, y, run).world.backend;
            && uuid in b'.issued && b'.issued[uuid] == b.issued[uuid]
            && (uuid in b'.volumes <==> uuid in b.volumes && !Removed(d, y, run, uuid))
            && (b.issued[uuid].name in d.shared ==> !Removed(d, y, run, uuid))
    decreases |run|
  {
    if run != [] {
      StepKeeps(d, y, run[0]);
      StepVolumes(d, y, run[0], uuid);
      VolumeExactly(d, Perform(d, y, run[0]), run[1..], uuid);
    }
  }

  /** What takes a usable handle's volume or directory away. */
  ghost predicate Loses(d: Deployment, y: System, run: seq<Step>, id: string)
    requires ValidRun(d, y, run) && ProcessVolumeHandle(id).Some?
  {
    var at := ProcessVolumeHandle(id).value;
    if at.sub == "" then Removed(d, y, run, at.volume)
    else !Remains(d, y, run, M.Entry(at.volume, at.sub), true)
  }

  /**
   Exactly when a usable id is of no use later, however calls overlap: a whole
   volume's if some call removed the volume in between, a subdirectory's if the last
   of the renames and mkdirs of it in between is a rename.
   */
  lemma LostExactly(d: Deployment, y: System, run: seq<Step>, id: string)
    requires SameDriver(d.c, d.cfg) && ClaimsNoMarkers(d.c) && SystemOk(d, y) && ValidRun(d, y, run)
    requires IdOk(d, y.world.backend, id) && Usable(d.cfg, y.world, id)
    ensures !Usable(d.cfg, After(d, y, run).world, id) <==> Loses(d, y, run, id)
  {
    var b, y' := y.world.backend, After(d, y, run);
    RunKeeps(d, y, run);
    if EntryOf(id).Some? {
      var h := EntryOf(id).value;
      UsableSub(d, y.world, y.sweep.fs, id, h);
      DirectoryExactly(d, y, run, h);
      VolumeExactly(d, y, run, h.volume);
      assert SubOf(d, y'.world.backend, id, h);
      UsableSub(d, y'.world, y'.sweep.fs, id, h);
    } else {
      var t, u := WholeParts(d, b, id);
      VolumeExactly(d, y, run, u);
    }
  }

  /** A usable handle that is of no subdirectory is of a whole volume. */
  lemma WholeParts(d: Deployment, b: Backend, id: string) returns (tenant: string, uuid: string)
    requires Valid(b) && IdOk(d, b, id) && EntryOf(id).None? && ProcessVolumeHandle(id).Some?
    ensures WholeHandle(b, id, tenant, uuid) && ProcessVolumeHandle(id) == Some(Located(tenant, uuid, ""))
  {
    if t, u :| WholeHandle(b, id, t, u) && b.issued[u].name !in d.shared {
      tenant, uuid := t, u;
      UuidShape(t);
      UuidShape(u);
      TwoPartRoundTrip(t, u);
    } else if t, u, p :| SubHandle(id, t, u, p) {
      SubPlans(id, t, u, p);
      assert false;
    } else {
      var p :| NoSep(p) && id == SNAPSHOT_PREFIX + p;
      assert NoSep(SNAPSHOT_PREFIX);
      SplitAtom(id, SEP);
      assert false;
    }
  }

  /** The step is a creation's last request: it now answers with this id. */
  ghost predicate Answers(d: Deployment, y: System, k: nat, env: Env, denv: DeleteEnv, id: string) {
    && k in y.calls && !y.calls[k].Answering?
    && var next := Next(d.cfg, d.acc, y.world, y.calls[k], env, denv).1;
    next.Answering? && next.answer.Issued? && next.answer.id == id
  }

  /** A system call after which the directory maker succeeds leaves a directory. */
  lemma SuccessMeansThere(s: Settings, acc: D.Accounts, node: D.Node, at: D.Call, f: D.Faults)
    requires !node.File? && !at.Returned?
    ensures var a := SystemCall(s, acc, node, at, f); a.1.Returned? && a.1.ok ==> a.0.Dir?
  {
  }

  lemma MakingUsable(d: Deployment, w: World, s: M.State, call: Call, id: string, env: Env, denv: DeleteEnv)
    requires SameDriver(d.c, d.cfg) && ValidWorld(w) && Related(d.c, s.fs, w.nodes)
    requires CallOk(d, w.backend, call) && call.Making? && env.mkdir.initial.Dir?
    requires Next(d.cfg, d.acc, w, call, env, denv).1 == Answering(Issued(call.claim.name, id))
    ensures Usable(d.cfg, Next(d.cfg, d.acc, w, call, env, denv).0, id)
  {
    var h, place := M.Entry(call.uuid, call.claim.name), ClaimDirectory(d.cfg.mount, call.uuid, call.claim.name);
    var w', fs' := Next(d.cfg, d.acc, w, call, env, denv).0, SweepAfter(d.c, s, CallAction(d.cfg, call, env, denv)).fs;
    UuidShape(call.uuid);
    MakingRelated(d, w, s, call, env, denv);
    assert D.At(w.nodes, M.PathOf(d.c, M.Entry(h.volume, h.sub))) != D.File;
    assert M.PathOf(d.c, h) == place;
    SuccessMeansThere(call.settings, d.acc, D.At(w.nodes, place), call.at, env.mkdir);
    SubId(d, w.backend, call.claim, call.settings, call.uuid);
    UsableSub(d, w', fs', id, h);
    assert D.At(w'.nodes, M.PathOf(d.c, M.Entry(h.volume, h.sub))).Dir?;
  }

  lemma WholeUsable(d: Deployment, w: World, call: Call, id: string, env: Env, denv: DeleteEnv)
    requires ValidWorld(w) && CallOk(d, w.backend, call) && !call.Making? && !call.Answering?
    requires IsUuid(env.uuid) && env.uuid !in w.backend.issued
    requires var next := Next(d.cfg, d.acc, w, call, env, denv).1;
             next.Answering? && next.answer.Issued? && next.answer.id == id
    ensures Usable(d.cfg, Next(d.cfg, d.acc, w, call, env, denv).0, id)
  {
    var s, uuid := WholeAnswer(d, w, call, env, denv);
    UuidShape(s.tenant);
    UuidShape(uuid);
    TwoPartRoundTrip(s.tenant, uuid);
  }

  lemma AnsweredOk(d: Deployment, w: World, call: Call, env: Env, denv: DeleteEnv, id: string)
    requires ValidWorld(w) && CallOk(d, w.backend, call) && IsUuid(env.uuid) && env.uuid !in w.backend.issued
    requires var next := Next(d.cfg, d.acc, w, call, env, denv).1;
             next.Answering? && next.answer.Issued? && next.answer.id == id
    ensures IdOk(d, Next(d.cfg, d.acc, w, call, env, denv).0.backend, id)
    ensures call.Making? ==> Next(d.cfg, d.acc, w, call, env, denv).1.answer.pvName == call.claim.name
  {
    NextOk(d, w, call, env, denv);
  }

  /** When a call that asked for something decides to answer with an id, the id is usable. */
  lemma AnsweredUsable(d: Deployment, y: System, k: nat, env: Env, denv: DeleteEnv, id: string)
    requires SameDriver(d.c, d.cfg) && M.ValidConfig(d.c) && SystemOk(d, y) && Allowed(d, y, Proceed(k, env, denv))
    requires Answers(d, y, k, env, denv, id)
    ensures var y' := Perform(d, y, Proceed(k, env, denv)); IdOk(d, y'.world.backend, id) && Usable(d.cfg, y'.world, id)
  {
    AnsweredOk(d, y.world, y.calls[k], env, denv, id);
    if y.calls[k].Making? {
      MakingUsable(d, y.world, y.sweep, y.calls[k], id, env, denv);
    } else {
      WholeUsable(d, y.world, y.calls[k], id, env, denv);
    }
  }

  /**
   Exactly when `CreateVolume` returns an id without its volume or directory, however
   calls overlap: when, after the call's last request, a run follows in which that
   volume is removed or that directory renamed (and not made again).
   */
  lemma ReturnedExactly(d: Deployment, y: System, k: nat, env: Env, denv: DeleteEnv, id: string, run: seq<Step>)
    requires SameDriver(d.c, d.cfg) && ClaimsNoMarkers(d.c) && SystemOk(d, y) && Allowed(d, y, Proceed(k, env, denv))
    requires Answers(d, y, k, env, denv, id)
    requires ValidRun(d, Perform(d, y, Proceed(k, env, denv)), run)
    ensures ProcessVolumeHandle(id).Some?
    ensures var y1 := Perform(d, y, Proceed(k, env, denv));
            !Usable(d.cfg, After(d, y1, run).world, id) <==> Loses(d, y1, run, id)
  {
    AnsweredUsable(d, y, k, env, denv, id);
    StepKeeps(d, y, Proceed(k, env, denv));
    LostExactly(d, Perform(d, y, Proceed(k, env, denv)), run, id);
  }

  /** A repeated creation, about to look for a directory that is there. */
  ghost predicate Finding(d: Deployment, y: System, k: nat) {
    && SystemOk(d, y) && k in y.calls && y.calls[k].Making? && y.calls[k].at.Entered?
    && D.At(y.world.nodes, ClaimDirectory(d.cfg.mount, y.calls[k].uuid, y.calls[k].claim.name)).Dir?
  }

  lemma Finds(d: Deployment, y: System, k: nat, env: Env, denv: DeleteEnv)
    requires Finding(d, y, k) && Allowed(d, y, Proceed(k, env, denv)) && !env.mkdir.stat
    ensures var call := y.calls[k];
            var next := AnswerOfMake(call.claim, call.settings, call.uuid, true);
            Perform(d, y, Proceed(k, env, denv)) == y.(calls := y.calls[k := next])
  {
    var call := y.calls[k];
    var place := ClaimDirectory(d.cfg.mount, call.uuid, call.claim.name);
    PutBack(y.world.nodes, place, D.Absent, D.Absent);
    assert SystemCall(call.settings, d.acc, D.At(y.world.nodes, place), call.at, env.mkdir) ==
             (D.At(y.world.nodes, place), D.Returned(true, false));
    assert y.undeleted - {} == y.undeleted;
  }

  /** The rename of a deletion that finds the directory and no marker. */
  lemma Drops(cfg: Config, acc: D.Accounts, w: World, call: Call, env: Env, denv: DeleteEnv)
    requires cfg.mount != "" && '/' !in cfg.name && ValidWorld(w)
    requires call.Dropping? && Plain(call.volume) && Plain(call.sub)
    requires !cfg.useDeleteFilesTask && denv.rename.None?
    requires D.At(w.nodes, MarkerDirectory(cfg.mount, cfg.name, call.volume, call.sub)).Absent?
    requires D.At(w.nodes, ClaimDirectory(cfg.mount, call.volume, call.sub)).Dir?
    ensures var r := Next(cfg, acc, w, call, env, denv);
            && D.At(r.0.nodes, ClaimDirectory(cfg.mount, call.volume, call.sub)).Absent?
            && r.1 == Answering(Deleted(call.id)) && r.0.backend == w.backend
  {
    MarkerElsewhere(cfg, call.volume, call.sub);
  }

  lemma DropStep(d: Deployment, y: System, j: nat, env: Env, denv: DeleteEnv)
    requires SameDriver(d.c, d.cfg) && SystemOk(d, y) && Allowed(d, y, Proceed(j, env, denv)) && y.calls[j].Dropping?
    requires Moves(d, y, Proceed(j, env, denv), M.Entry(y.calls[j].volume, y.calls[j].sub))
    requires D.At(y.world.nodes, ClaimDirectory(d.cfg.mount, y.calls[j].volume, y.calls[j].sub)).Dir?
    ensures var y', call := Perform(d, y, Proceed(j, env, denv)), y.calls[j];
            && D.At(y'.world.nodes, ClaimDirectory(d.cfg.mount, call.volume, call.sub)).Absent?
            && y'.calls == y.calls[j := Answering(Deleted(call.id))] && y'.world.backend == y.world.backend
  {
    assert SubOf(d, y.world.backend, y.calls[j].id, M.Entry(y.calls[j].volume, y.calls[j].sub));
    UuidShape(y.calls[j].volume);
    Drops(d.cfg, d.acc, y.world, y.calls[j], env, denv);
  }

  lemma Returns(d: Deployment, y: System, k: nat, pvName: string, id: string)
    requires k in y.calls && y.calls[k] == Answering(Issued(pvName, id))
    ensures var y' := Perform(d, y, Return(k));
            y'.world == y.world && id in y'.handles && (EntryOf(id).Some? ==> id in y'.undeleted)
  {
  }

  /** A creation that returns the handle of a directory that is gone. */
  lemma ReturnsLost(d: Deployment, y: System, k: nat, claim: Claim, s: Settings, uuid: string)
    requires SameDriver(d.c, d.cfg) && Valid(y.world.backend) && ClaimOk(d, claim, s) && claim.shared
    requires Owns(y.world.backend, uuid, s) && k in y.calls && y.calls[k] == AnswerOfMake(claim, s, uuid, true)
    requires D.At(y.world.nodes, ClaimDirectory(d.cfg.mount, uuid, claim.name)).Absent?
    ensures var y', id := Perform(d, y, Return(k)), ThreePart(s.tenant, uuid, claim.name);
            id in y'.undeleted && !Usable(d.cfg, y'.world, id)
  {
    SubId(d, y.world.backend, claim, s, uuid);
    Returns(d, y, k, claim.name, ThreePart(s.tenant, uuid, claim.name));
    UuidShape(s.tenant);
    UuidShape(uuid);
    ThreePartRoundTrip(s.tenant, uuid, claim.name);
  }

  lemma RunOfThree(d: Deployment, y: System, a: Step, b: Step, c: Step)
    requires Allowed(d, y, a) && Allowed(d, Perform(d, y, a), b) && Allowed(d, Perform(d, Perform(d, y, a), b), c)
    ensures ValidRun(d, y, [a, b, c])
    ensures After(d, y, [a, b, c]) == Perform(d, Perform(d, Perform(d, y, a), b), c)
  {
    var y1 := Perform(d, y, a);
    var y2 := Perform(d, y1, b);
    assert [a, b, c][1..] == [b, c] && [b, c][1..] == [c] && [c][1..] == [];
    assert After(d, y2, [c]) == Perform(d, y2, c);
    assert After(d, y1, [b, c]) == Perform(d, y2, c);
  }

  /**
   Why deletions must not overlap creations: a repeated creation finds the directory,
   a deletion of the same handle moves it, and then the creation returns the handle.
   */
  lemma OverlapLosesDirectory(d: Deployment, y: System, k: nat, j: nat, env: Env, denv: DeleteEnv)
    returns (run: seq<Step>)
    requires SameDriver(d.c, d.cfg) && M.ValidConfig(d.c) && Finding(d, y, k) && j in y.calls
    requires Allowed(d, y, Proceed(k, env, denv)) && !env.mkdir.stat
    requires Moves(d, y, Proceed(j, env, denv), M.Entry(y.calls[k].uuid, y.calls[k].claim.name))
    ensures ValidRun(d, y, run)
    ensures var y', id := After(d, y, run), y.calls[j].id; id in y'.undeleted && !Usable(d.cfg, y'.world, id)
  {
    var call := y.calls[k];
    run := [Proceed(k, env, denv), Proceed(j, env, denv), Return(k)];
    Finds(d, y, k, env, denv);
    var y1 := Perform(d, y, run[0]);
    StepKeeps(d, y, run[0]);
    DropStep(d, y1, j, env, denv);
    var y2 := Perform(d, y1, run[1]);
    assert y2.calls[k] == y1.calls[k];
    ReturnsLost(d, y2, k, call.claim, call.settings, call.uuid);
    assert SubOf(d, y.world.backend, y.calls[j].id, M.Entry(call.uuid, call.claim.name));
    RunOfThree(d, y, run[0], run[1], run[2]);
  }

  /** A quota that is refused, and the rollback that follows. */
  lemma RollsVolumeBack(d: Deployment, y: System, j: nat, env: Env, denv: DeleteEnv)
    requires SystemOk(d, y) && j in y.calls && y.calls[j].Reserving? && y.calls[j].uuid in y.world.backend.volumes
    requires Allowed(d, y, Proceed(j, env, denv)) && env.quota.Refused? && env.rollback.Works?
    ensures Allowed(d, Perform(d, y, Proceed(j, env, denv)), Proceed(j, env, denv))
    ensures var y2 := Perform(d, Perform(d, y, Proceed(j, env, denv)), Proceed(j, env, denv));
            && y2.calls == y.calls[j := Answering(Failure)] && y2.handles == y.handles
            && y.calls[j].uuid !in y2.world.backend.volumes
  {
    var call, y1 := y.calls[j], Perform(d, y, Proceed(j, env, denv));
    assert y1.calls[j] == RollingBack(call.claim, call.settings, call.uuid) && y1.world == y.world;
    assert y1.calls[j := Answering(Failure)] == y.calls[j := Answering(Failure)];
  }

  lemma WholeGone(cfg: Config, w: World, tenant: string, uuid: string)
    requires IsTenant(tenant) && IsUuid(uuid) && uuid !in w.backend.volumes
    ensures !Usable(cfg, w, TwoPart(tenant, uuid))
  {
    UuidShape(tenant);
    UuidShape(uuid);
    TwoPartRoundTrip(tenant, uuid);
  }

  /** The same with a whole volume: one creation's rollback removes what another is about to return. */
  lemma OverlapLosesVolume(d: Deployment, y: System, k: nat, j: nat, env: Env, denv: DeleteEnv)
    returns (run: seq<Step>)
    requires SystemOk(d, y) && k in y.calls && j in y.calls && y.calls[j].Reserving?
    requires var call := y.calls[j];
             && y.calls[k] == Answering(Issued(call.claim.name, TwoPart(call.settings.tenant, call.uuid)))
             && call.uuid in y.world.backend.volumes
    requires Allowed(d, y, Proceed(j, env, denv)) && env.quota.Refused? && env.rollback.Works?
    ensures ValidRun(d, y, run)
    ensures var y', id := After(d, y, run), y.calls[k].answer.id; id in y'.handles && !Usable(d.cfg, y'.world, id)
  {
    var call, id := y.calls[j], y.calls[k].answer.id;
    var fail := Proceed(j, env, denv);
    run := [fail, fail, Return(k)];
    RollsVolumeBack(d, y, j, env, denv);
    RunOfThree(d, y, fail, fail, Return(k));
    Returns(d, Perform(d, Perform(d, y, fail), fail), k, call.claim.name, id);
    WholeGone(d.cfg, After(d, y, run).world, call.settings.tenant, call.uuid);
  }
}
