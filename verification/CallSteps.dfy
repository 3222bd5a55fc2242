/**
 The controller's calls as they run: each request to the API and each system call
 is a step of its own, so that calls may overlap. Alone, a call's steps add up to
 what `Provisioning.Create`, `Lifecycle.Delete` and `Lifecycle.Expand` say.
 */
module CallSteps {
  import opened Options
  import opened Handles
  import opened ClientCache
  import opened Parameters
  import opened B = Backend
  import opened Provisioning
  import opened Lifecycle
  import D = DirectoryMaker

  /** What a call tells its caller. */
  datatype Answer = Issued(pvName: string, id: string) | Deleted(id: string) | Expanded | Failure

  /** What a creation is asked for, besides its settings. */
  datatype Claim = Claim(name: string, capacity: int, shared: bool)

  /** How far a call is: what it is about to do, and what it has found out so far. */
  datatype Call =
    | Creating(claim: Claim, settings: Settings)
    | Resolving(claim: Claim, settings: Settings)
    | Reserving(claim: Claim, settings: Settings, uuid: string)
    | RollingBack(claim: Claim, settings: Settings, uuid: string)
    | Making(claim: Claim, settings: Settings, uuid: string, at: D.Call)
    | Erasing(id: string, uuid: string)
    | Dropping(id: string, volume: string, sub: string)
    | Resizing(uuid: string, capacity: int)
    | Answering(answer: Answer)

  /** Everything before a creation's first request that changes anything. */
  function Accept(cfg: Config, b: Backend, req: CreateRequest, env: Env): Call
    requires Ordered(req, env)
  {
    if !Acceptable(req) then Answering(Failure)
    else if req.source.FromSnapshot? then
      match SnapshotResponse(req)
      case Created(id, _, _) => Answering(Issued(req.name, id))
      case Failed => Answering(Failure)
    else
      match Prepared(cfg, b, req, env)
      case None => Answering(Failure)
      case Some(s) => Creating(Claim(req.name, req.capacity.value, IsShared(req.params.value)), s)
  }

  function AcceptDelete(b: Backend, id: string, secrets: Secrets): Call {
    match PlanDelete(id)
    case Refuse => Answering(Failure)
    case Ignore => Answering(Deleted(id))
    case Erase(tenant, volume) =>
      if Choose(secrets).None? || VolumeUuid(b, volume, tenant).None? then Answering(Failure)
      else Erasing(id, VolumeUuid(b, volume, tenant).value)
    case DropSubdirectory(volume, sub) =>
      if Choose(secrets).None? then Answering(Failure) else Dropping(id, volume, sub)
  }

  function AcceptExpand(b: Backend, id: string, secrets: Secrets, capacity: int): Call {
    match PlanExpand(id)
    case NotAHandle => Answering(Failure)
    case NothingToExpand => Answering(Expanded)
    case Resize(tenant, volume) =>
      if Choose(secrets).None? || VolumeUuid(b, volume, tenant).None? then Answering(Failure)
      else Resizing(VolumeUuid(b, volume, tenant).value, capacity)
  }

  /** Where a creation goes on once it knows the volume's UUID. */
  function Obtained(claim: Claim, s: Settings, uuid: string): Call {
    if claim.shared then Making(claim, s, uuid, D.Entered)
    else if s.createQuota then Reserving(claim, s, uuid)
    else Answering(Issued(claim.name, TwoPart(s.tenant, uuid)))
  }

  /** The call after its first request. */
  function Answered(claim: Claim, s: Settings, answer: CreateResult): Call {
    match answer
    case New(uuid) => Obtained(claim, s, uuid)
    case AlreadyExists => Resolving(claim, s)
    case CreateFailed => Answering(Failure)
  }

  function FaultAt(at: D.Call, f: D.Faults): bool {
    match at
    case Entered => f.stat
    case ToMkdir => f.mkdir
    case ToChmod => f.chmod
    case ToChown => f.chown
    case Returned(_, _) => false
  }

  /** The next system call of the directory maker on a node. */
  function SystemCall(s: Settings, acc: D.Accounts, node: D.Node, at: D.Call, f: D.Faults): (D.Node, D.Call) {
    D.Advance(DirectoryRequest(s), acc, node, at, D.Step(0, FaultAt(at, f), f.initial))
  }

  function AnswerOfMake(claim: Claim, s: Settings, uuid: string, ok: bool): Call {
    Answering(if ok then Issued(claim.name, ThreePart(s.tenant, uuid, claim.name)) else Failure)
  }

  /** One step of a call. */
  function Next(cfg: Config, acc: D.Accounts, w: World, call: Call, env: Env, denv: DeleteEnv): (World, Call) {
    match call
    case Creating(claim, s) =>
      var r := CreateVolume(w.backend, KeyFor(s), SpecFor(s), env.create, env.uuid);
      (w.(backend := r.0), Answered(claim, s, r.1))
    case Resolving(claim, s) =>
      (w, if env.resolveFault || ResolveName(w.backend, KeyFor(s)).None? then Answering(Failure)
          else Obtained(claim, s, ResolveName(w.backend, KeyFor(s)).value))
    case Reserving(claim, s, uuid) =>
      var r := SetVolumeQuota(w.backend, uuid, claim.capacity, env.quota);
      (w.(backend := r.0),
       if r.1 then Answering(Issued(claim.name, TwoPart(s.tenant, uuid))) else RollingBack(claim, s, uuid))
    case RollingBack(_, _, uuid) =>
      (w.(backend := RemoveVolume(w.backend, uuid, env.rollback).0), Answering(Failure))
    case Making(claim, s, uuid, at) =>
      var place := ClaimDirectory(cfg.mount, uuid, claim.name);
      var r := SystemCall(s, acc, D.At(w.nodes, place), at, env.mkdir);
      (w.(nodes := D.Put(w.nodes, place, r.0)),
       if r.1.Returned? then AnswerOfMake(claim, s, uuid, r.1.ok) else Making(claim, s, uuid, r.1))
    case Erasing(id, uuid) =>
      var r := RemoveVolume(w.backend, uuid, denv.erase);
      (w.(backend := r.0), Answering(if r.1 then Deleted(id) else Failure))
    case Dropping(id, volume, sub) =>
      if cfg.useDeleteFilesTask then
        var r := CreateTask(w.backend, DeleteFiles(volume, TaskPath(sub)), denv.task);
        (w.(backend := r.0), Answering(if r.1 then Deleted(id) else Failure))
      else
        var r := D.RenameNode(w.nodes, ClaimDirectory(cfg.mount, volume, sub),
                              MarkerDirectory(cfg.mount, cfg.name, volume, sub), denv.rename);
        (w.(nodes := r.0), Answering(if r.1.None? || r.1 == Some(D.ENOENT) then Deleted(id) else Failure))
    case Resizing(uuid, capacity) =>
      var r := SetVolumeQuota(w.backend, uuid, capacity, env.quota);
      (w.(backend := r.0), Answering(if r.1 then Expanded else Failure))
    case Answering(_) => (w, call)
  }

  /** A call's steps with nobody else in between. */
  function Alone(cfg: Config, acc: D.Accounts, w: World, call: Call, env: Env, denv: DeleteEnv, steps: nat):
    (World, Call)
    decreases steps
  {
    if steps == 0 then (w, call)
    else var r := Next(cfg, acc, w, call, env, denv); Alone(cfg, acc, r.0, r.1, env, denv, steps - 1)
  }

  /** A call that has its answer does nothing more. */
  lemma {:induction false} AnswerStays(cfg: Config, acc: D.Accounts, w: World, call: Call, env: Env, denv: DeleteEnv,
                                       steps: nat, more: nat)
    requires Alone(cfg, acc, w, call, env, denv, steps).1.Answering?
    ensures Alone(cfg, acc, w, call, env, denv, steps + more) == Alone(cfg, acc, w, call, env, denv, steps)
    decreases steps, more
  {
    var r := Next(cfg, acc, w, call, env, denv);
    if steps > 0 {
      AnswerStays(cfg, acc, r.0, r.1, env, denv, steps - 1, more);
    } else if more > 0 {
      assert r == (w, call);
      AnswerStays(cfg, acc, w, call, env, denv, 0, more - 1);
    }
  }

  /** From a stage of the directory maker on, on a given node. */
  function Rest(s: Settings, acc: D.Accounts, node: D.Node, at: D.Call, f: D.Faults, steps: nat): (D.Node, D.Call)
    decreases steps
  {
    if steps == 0 || at.Returned? then (node, at)
    else var a := SystemCall(s, acc, node, at, f); Rest(s, acc, a.0, a.1, f, steps - 1)
  }

  /** Four system calls are enough, and they are what one call alone does. */
  lemma SoloIsRest(s: Settings, acc: D.Accounts, node: D.Node, f: D.Faults)
    ensures var rest := Rest(s, acc, node, D.Entered, f, 4);
            rest.1.Returned? && D.Solo(DirectoryRequest(s), acc, node, f) == (rest.0, rest.1.ok)
  {
    var a := SystemCall(s, acc, node, D.Entered, f);
    var b := SystemCall(s, acc, a.0, a.1, f);
    var c := SystemCall(s, acc, b.0, b.1, f);
    var d := SystemCall(s, acc, c.0, c.1, f);
    assert d.1.Returned?;
    assert Rest(s, acc, c.0, c.1, f, 1) == d;
    assert Rest(s, acc, b.0, b.1, f, 2) == d;
    assert Rest(s, acc, a.0, a.1, f, 3) == d;
    assert Rest(s, acc, node, D.Entered, f, 4) == d;
  }

  lemma PutBack(nodes: D.Nodes, path: string, a: D.Node, b: D.Node)
    requires D.Recorded(nodes)
    ensures D.Put(nodes, path, D.At(nodes, path)) == nodes
    ensures D.At(D.Put(nodes, path, a), path) == a && D.Recorded(D.Put(nodes, path, a))
    ensures D.Put(D.Put(nodes, path, a), path, b) == D.Put(nodes, path, b)
  {
  }

  /** A claim's system calls, alone, are the directory maker's on that claim's directory. */
  lemma {:induction false} MakingAlone(cfg: Config, acc: D.Accounts, w: World, claim: Claim, s: Settings, uuid: string,
                                       at: D.Call, env: Env, denv: DeleteEnv, steps: nat)
    requires D.Recorded(w.nodes) && !at.Returned?
    requires Rest(s, acc, D.At(w.nodes, ClaimDirectory(cfg.mount, uuid, claim.name)), at, env.mkdir, steps).1.Returned?
    ensures var place := ClaimDirectory(cfg.mount, uuid, claim.name);
            var r := Rest(s, acc, D.At(w.nodes, place), at, env.mkdir, steps);
            Alone(cfg, acc, w, Making(claim, s, uuid, at), env, denv, steps) ==
              (w.(nodes := D.Put(w.nodes, place, r.0)), AnswerOfMake(claim, s, uuid, r.1.ok))
    decreases steps
  {
    var place, call := ClaimDirectory(cfg.mount, uuid, claim.name), Making(claim, s, uuid, at);
    var node := D.At(w.nodes, place);
    var a := SystemCall(s, acc, node, at, env.mkdir);
    var w1 := w.(nodes := D.Put(w.nodes, place, a.0));
    PutBack(w.nodes, place, a.0, Rest(s, acc, node, at, env.mkdir, steps).0);
    if a.1.Returned? {
      var done := AnswerOfMake(claim, s, uuid, a.1.ok);
      assert Next(cfg, acc, w, call, env, denv) == (w1, done);
      AnswerStays(cfg, acc, w1, done, env, denv, 0, steps - 1);
    } else {
      MakingAlone(cfg, acc, w1, claim, s, uuid, a.1, env, denv, steps - 1);
    }
  }

  /** What is left of a creation once the volume is there. */
  function Finished(cfg: Config, acc: D.Accounts, w: World, claim: Claim, s: Settings, uuid: string, env: Env):
    (World, Call)
  {
    if claim.shared then
      var m := MakeDirectory(acc, w.nodes, ClaimDirectory(cfg.mount, uuid, claim.name), s, env.mkdir);
      (w.(nodes := m.0), AnswerOfMake(claim, s, uuid, m.1))
    else if s.createQuota then
      var q := Reserve(w.backend, uuid, claim.capacity, env);
      (w.(backend := q.0), Answering(if q.1 then Issued(claim.name, TwoPart(s.tenant, uuid)) else Failure))
    else
      (w, Answering(Issued(claim.name, TwoPart(s.tenant, uuid))))
  }

  lemma ObtainedAlone(cfg: Config, acc: D.Accounts, w: World, claim: Claim, s: Settings, uuid: string,
                      env: Env, denv: DeleteEnv)
    requires D.Recorded(w.nodes)
    ensures Alone(cfg, acc, w, Obtained(claim, s, uuid), env, denv, 4) == Finished(cfg, acc, w, claim, s, uuid, env)
  {
    if claim.shared {
      var place := ClaimDirectory(cfg.mount, uuid, claim.name);
      SoloIsRest(s, acc, D.At(w.nodes, place), env.mkdir);
      MakingAlone(cfg, acc, w, claim, s, uuid, D.Entered, env, denv, 4);
    } else if s.createQuota {
      ReservingAlone(cfg, acc, w, claim, s, uuid, env, denv);
    } else {
      AnswerStays(cfg, acc, w, Obtained(claim, s, uuid), env, denv, 0, 4);
    }
  }

  lemma ReservingAlone(cfg: Config, acc: D.Accounts, w: World, claim: Claim, s: Settings, uuid: string,
                       env: Env, denv: DeleteEnv)
    requires !claim.shared && s.createQuota
    ensures Alone(cfg, acc, w, Reserving(claim, s, uuid), env, denv, 4) == Finished(cfg, acc, w, claim, s, uuid, env)
  {
    var first := Next(cfg, acc, w, Reserving(claim, s, uuid), env, denv);
    var second := Next(cfg, acc, first.0, first.1, env, denv);
    assert second == Finished(cfg, acc, w, claim, s, uuid, env);
    assert Alone(cfg, acc, first.0, first.1, env, denv, 1) == second;
    assert Alone(cfg, acc, w, Reserving(claim, s, uuid), env, denv, 2) == second;
    AnswerStays(cfg, acc, w, Reserving(claim, s, uuid), env, denv, 2, 2);
  }

  lemma ResolvingAlone(cfg: Config, acc: D.Accounts, w: World, claim: Claim, s: Settings, env: Env, denv: DeleteEnv)
    requires D.Recorded(w.nodes)
    ensures var found := ResolveName(w.backend, KeyFor(s));
            Alone(cfg, acc, w, Resolving(claim, s), env, denv, 5) ==
              if env.resolveFault || found.None? then (w, Answering(Failure))
              else Finished(cfg, acc, w, claim, s, found.value, env)
  {
    var next := Next(cfg, acc, w, Resolving(claim, s), env, denv);
    assert Alone(cfg, acc, w, Resolving(claim, s), env, denv, 5) == Alone(cfg, acc, w, next.1, env, denv, 4);
    if next.1 == Answering(Failure) {
      AnswerStays(cfg, acc, w, next.1, env, denv, 0, 4);
    } else {
      ObtainedAlone(cfg, acc, w, claim, s, ResolveName(w.backend, KeyFor(s)).value, env, denv);
    }
  }

  /** What is left of a creation once the first request has been answered. */
  function Continued(cfg: Config, acc: D.Accounts, w: World, claim: Claim, s: Settings, answer: CreateResult, env: Env):
    (World, Call)
  {
    match answer
    case New(uuid) => Finished(cfg, acc, w, claim, s, uuid, env)
    case AlreadyExists =>
      if env.resolveFault || ResolveName(w.backend, KeyFor(s)).None? then (w, Answering(Failure))
      else Finished(cfg, acc, w, claim, s, ResolveName(w.backend, KeyFor(s)).value, env)
    case CreateFailed => (w, Answering(Failure))
  }

  lemma ContinuedAlone(cfg: Config, acc: D.Accounts, w: World, claim: Claim, s: Settings, answer: CreateResult,
                       env: Env, denv: DeleteEnv)
    requires D.Recorded(w.nodes)
    ensures Alone(cfg, acc, w, Answered(claim, s, answer), env, denv, 5) ==
              Continued(cfg, acc, w, claim, s, answer, env)
  {
    var call := Answered(claim, s, answer);
    if answer.New? {
      ObtainedAlone(cfg, acc, w, claim, s, answer.uuid, env, denv);
      AnswerStays(cfg, acc, w, call, env, denv, 4, 1);
    } else if answer.AlreadyExists? {
      ResolvingAlone(cfg, acc, w, claim, s, env, denv);
    } else {
      AnswerStays(cfg, acc, w, call, env, denv, 0, 5);
    }
  }

  /** A creation's steps, alone, from the first request on. */
  lemma CreatingAlone(cfg: Config, acc: D.Accounts, w: World, claim: Claim, s: Settings, env: Env, denv: DeleteEnv)
    requires D.Recorded(w.nodes)
    ensures var p := Provision(cfg, acc, w, claim.shared, claim.name, claim.capacity, s, env);
            Alone(cfg, acc, w, Creating(claim, s), env, denv, 6) ==
              (p.0, Answering(if p.1.Some? then Issued(claim.name, p.1.value) else Failure))
  {
    var r := CreateVolume(w.backend, KeyFor(s), SpecFor(s), env.create, env.uuid);
    var w1 := w.(backend := r.0);
    assert Next(cfg, acc, w, Creating(claim, s), env, denv) == (w1, Answered(claim, s, r.1));
    ContinuedAlone(cfg, acc, w1, claim, s, r.1, env, denv);
    ProvisionIs(cfg, acc, w, claim, s, env, r.0, r.1);
  }

  lemma ProvisionIs(cfg: Config, acc: D.Accounts, w: World, claim: Claim, s: Settings, env: Env, b: Backend,
                    answer: CreateResult)
    requires CreateVolume(w.backend, KeyFor(s), SpecFor(s), env.create, env.uuid) == (b, answer)
    ensures var p := Provision(cfg, acc, w, claim.shared, claim.name, claim.capacity, s, env);
            Continued(cfg, acc, w.(backend := b), claim, s, answer, env) ==
              (p.0, Answering(if p.1.Some? then Issued(claim.name, p.1.value) else Failure))
  {
  }

  function AnswerTo(pvName: string, response: Response): Call {
    Answering(if response.Created? then Issued(pvName, response.volumeId) else Failure)
  }

  /** Undisturbed, the steps of `CreateVolume` do and answer what `Create` says. */
  lemma CreateAlone(cfg: Config, acc: D.Accounts, w: World, req: CreateRequest, env: Env, denv: DeleteEnv)
    requires D.Recorded(w.nodes) && Ordered(req, env)
    ensures var r := Create(cfg, acc, w, req, env);
            Alone(cfg, acc, w, Accept(cfg, w.backend, req, env), env, denv, 6) == (r.0, AnswerTo(req.name, r.1))
  {
    var call := Accept(cfg, w.backend, req, env);
    if call.Creating? {
      CreatingAlone(cfg, acc, w, call.claim, call.settings, env, denv);
    } else {
      AnswerStays(cfg, acc, w, call, env, denv, 0, 6);
    }
  }

  /** And so for `DeleteVolume`, which has one step. */
  lemma DeleteAlone(cfg: Config, acc: D.Accounts, w: World, id: string, secrets: Secrets, env: Env, denv: DeleteEnv)
    ensures var r := Delete(cfg, w, id, secrets, denv);
            Alone(cfg, acc, w, AcceptDelete(w.backend, id, secrets), env, denv, 1) ==
              (r.0, Answering(if r.1 then Deleted(id) else Failure))
  {
    var call := AcceptDelete(w.backend, id, secrets);
    assert Alone(cfg, acc, w, call, env, denv, 1) == Next(cfg, acc, w, call, env, denv);
  }

  /** And for expansion. */
  lemma ExpandAlone(cfg: Config, acc: D.Accounts, w: World, id: string, secrets: Secrets, capacity: int,
                    env: Env, denv: DeleteEnv)
    ensures var r := Expand(w, id, secrets, capacity, env.quota);
            Alone(cfg, acc, w, AcceptExpand(w.backend, id, secrets, capacity), env, denv, 1) ==
              (r.0, Answering(if r.1 then Expanded else Failure))
  {
    var call := AcceptExpand(w.backend, id, secrets, capacity);
    assert Alone(cfg, acc, w, call, env, denv, 1) == Next(cfg, acc, w, call, env, denv);
  }
}
