/**
 The sweep machine and the driver talk about the same directories: `DeleteVolume`
 and `CreateVolume` on handles and paths do what the machine's steps do on entries,
 and so does everybody else who works on the directories.
 */
module SweepRefinement {
  import opened Options
  import opened GoStrings
  import opened Paths
  import opened Markers
  import opened Handles
  import opened ClientCache
  import opened Parameters
  import opened B = Backend
  import opened Provisioning
  import opened ProvisioningTheorems
  import opened Lifecycle
  import D = DirectoryMaker
  import M = SweepModel
  import S = SweepSafety

  /** The machine has an entry exactly where the driver's file system has a directory; claims are no files. */
  ghost predicate Related(c: M.Config, fs: M.FileSystem, nodes: D.Nodes) {
    forall v, n :: Plain(v) && Plain(n) ==>
      D.At(nodes, M.PathOf(c, M.Entry(v, n))) != D.File &&
      (M.Entry(v, n) in fs <==> D.At(nodes, M.PathOf(c, M.Entry(v, n))).Dir?)
  }

  ghost predicate SameDriver(c: M.Config, cfg: Config) {
    c.driver == cfg.name && c.mount == cfg.mount && cfg.mount != "" && '/' !in cfg.name
  }

  lemma PathsApart(c: M.Config, v: string, n: string, v': string, n': string)
    requires c.mount != "" && Plain(v) && Plain(n) && Plain(v') && Plain(n')
    ensures M.PathOf(c, M.Entry(v, n)) == M.PathOf(c, M.Entry(v', n')) <==> v == v' && n == n'
  {
    if M.PathOf(c, M.Entry(v, n)) == M.PathOf(c, M.Entry(v', n')) {
      JoinThreeInjective(c.mount, v, n, v', n');
    }
  }

  /** Deleting a claim by its handle is the machine's delete of the claim's entry, with the same outcome. */
  lemma DeleteRefines(c: M.Config, cfg: Config, s: M.State, w: World, id: string, tenant: string, uuid: string,
                      pvName: string, secrets: Secrets, env: DeleteEnv)
    requires SameDriver(c, cfg) && Related(c, s.fs, w.nodes) && ValidWorld(w)
    requires SubHandle(id, tenant, uuid, pvName) && !cfg.useDeleteFilesTask
    requires Choose(secrets).Some? && env.rename.None?
    ensures var r, h := Delete(cfg, w, id, secrets, env), M.Entry(uuid, pvName);
            && Related(c, M.DoDelete(c, s, h).fs, r.0.nodes)
            && r.1 == M.DeleteSucceeds(c, s, h) && r.0.backend == w.backend
  {
    UuidShape(uuid);
    MarkerIsPlain(cfg.name, pvName);
    var h, k := M.Entry(uuid, pvName), M.Entry(uuid, Marker(cfg.name, pvName));
    var place, marker := M.PathOf(c, h), M.PathOf(c, k);
    assert M.MarkerOf(c, h) == k;
    assert (h in s.fs <==> D.At(w.nodes, place).Dir?) && (k in s.fs <==> D.At(w.nodes, marker).Dir?);
    DeleteMovesDirectory(cfg, w, id, tenant, uuid, pvName, secrets, env);
    var r, fs' := Delete(cfg, w, id, secrets, env), M.DoDelete(c, s, h).fs;
    forall v, n | Plain(v) && Plain(n)
      ensures D.At(r.0.nodes, M.PathOf(c, M.Entry(v, n))) != D.File
      ensures M.Entry(v, n) in fs' <==> D.At(r.0.nodes, M.PathOf(c, M.Entry(v, n))).Dir?
    {
      PathsApart(c, v, n, uuid, pvName);
      PathsApart(c, v, n, uuid, Marker(cfg.name, pvName));
    }
  }

  /** A claim's creation is the machine's create, with the handle issued on success; or it left no trace. */
  lemma CreateRefines(c: M.Config, cfg: Config, acc: D.Accounts, s: M.State, w: World, req: CreateRequest, env: Env)
    requires SameDriver(c, cfg) && Related(c, s.fs, w.nodes) && ValidWorld(w) && EnvOk(w, req, env)
    requires Acceptable(req) && !req.source.FromSnapshot? && IsShared(req.params.value) && Plain(req.name)
    ensures var r := Create(cfg, acc, w, req, env);
            || (r.1.Failed? && Related(c, s.fs, r.0.nodes))
            || exists uuid :: IsUuid(uuid) &&
                 Related(c, M.DoCreate(s, M.Entry(uuid, req.name), r.1.Created?).fs, r.0.nodes) &&
                 (r.1.Created? ==> exists tenant :: r.1.volumeId == ThreePart(tenant, uuid, req.name))
  {
    if Prepared(cfg, w.backend, req, env).Some? {
      var t := Prepared(cfg, w.backend, req, env).value;
      PreparedTenant(cfg, w.backend, req, env);
      ObtainKeeps(w.backend, t, env);
      var o := Obtain(w.backend, t, env);
      if o.1.Some? {
        var uuid := o.1.value;
        assert IsUuid(uuid);
        MadeRefines(c, cfg, acc, s, w.nodes, uuid, req.name, t, env.mkdir);
        var m := MakeDirectory(acc, w.nodes, ClaimDirectory(cfg.mount, uuid, req.name), t, env.mkdir);
        assert Create(cfg, acc, w, req, env).0.nodes == m.0;
        assert M.DoCreate(s, M.Entry(uuid, req.name), true).fs == M.DoCreate(s, M.Entry(uuid, req.name), false).fs;
        if m.1 {
          assert Create(cfg, acc, w, req, env).1.volumeId == ThreePart(t.tenant, uuid, req.name);
        }
      }
    }
  }

  lemma MadeRefines(c: M.Config, cfg: Config, acc: D.Accounts, s: M.State, nodes: D.Nodes, uuid: string, pvName: string,
                    t: Settings, f: D.Faults)
    requires SameDriver(c, cfg) && Related(c, s.fs, nodes) && D.Recorded(nodes) && f.initial.Dir?
    requires IsUuid(uuid) && Plain(pvName)
    ensures var m := MakeDirectory(acc, nodes, ClaimDirectory(cfg.mount, uuid, pvName), t, f);
            var made := D.At(m.0, ClaimDirectory(cfg.mount, uuid, pvName)).Dir?;
            && (m.1 ==> made)
            && Related(c, if made then M.DoCreate(s, M.Entry(uuid, pvName), false).fs else s.fs, m.0)
  {
    UuidShape(uuid);
    var h := M.Entry(uuid, pvName);
    var place := ClaimDirectory(cfg.mount, uuid, pvName);
    assert place == M.PathOf(c, h);
    DirectoryMade(cfg, acc, nodes, place, t, f);
    D.SoloOutcome(DirectoryRequest(t), acc, D.At(nodes, place), f);
    var m := MakeDirectory(acc, nodes, place, t, f);
    var made := D.At(m.0, place).Dir?;
    var fs' := if made then M.DoCreate(s, h, false).fs else s.fs;
    assert (h in s.fs <==> D.At(nodes, place).Dir?) && D.At(nodes, place) != D.File;
    PutRelated(c, s.fs, fs', nodes, h, D.At(m.0, place));
    assert D.Put(nodes, place, D.At(m.0, place)) == m.0;
  }

  /** `os.RemoveAll` on the directories. */
  function RemoveTree(nodes: D.Nodes, path: string): D.Nodes {
    map p | p in nodes && p != path && !HasPrefix(p, path + "/") :: nodes[p]
  }

  /** What a step of anybody but the controller service does to the directories. */
  function NodesAfter(c: M.Config, s: M.State, nodes: D.Nodes, a: M.Action): D.Nodes
    requires M.Enabled(c, s, a)
  {
    match a
    case OtherCreate(h) =>
      var place := M.PathOf(c, h);
      D.Put(nodes, place, if D.At(nodes, place).Absent? then D.Dir(0, 0, 0) else D.At(nodes, place))
    case OtherDelete(h) =>
      D.RenameNode(nodes, M.PathOf(c, h), M.PathOf(c, M.Entry(h.volume, Marker(c.other, h.sub))), None).0
    case OtherRemove(h, complete, _) => if complete then RemoveTree(nodes, M.PathOf(c, h)) else nodes
    case Remove(w, complete, _) =>
      if complete && WorkerAccepts(c.driver, c.mount, s.workers[w].path) then RemoveTree(nodes, s.workers[w].path)
      else nodes
    case _ => nodes
  }

  lemma RemoveTreeRelated(c: M.Config, fs: M.FileSystem, nodes: D.Nodes, path: string)
    requires Related(c, fs, nodes) && D.Recorded(nodes)
    ensures Related(c, fs - M.Reached(c, fs, path), RemoveTree(nodes, path)) && D.Recorded(RemoveTree(nodes, path))
  {
    forall v, n | Plain(v) && Plain(n)
      ensures var p := M.PathOf(c, M.Entry(v, n));
              D.At(RemoveTree(nodes, path), p) == if M.Reaches(c, path, M.Entry(v, n)) then D.Absent else D.At(nodes, p)
    {
    }
  }

  lemma SpoilRelated(c: M.Config, fs: M.FileSystem, nodes: D.Nodes, hs: set<M.Entry>, left: string)
    requires Related(c, fs, nodes)
    ensures Related(c, M.Spoil(fs, hs, left), nodes)
  {
  }

  /** One directory made, changed or left as it is. */
  lemma PutRelated(c: M.Config, fs: M.FileSystem, fs': M.FileSystem, nodes: D.Nodes, h: M.Entry, node: D.Node)
    requires c.mount != "" && Related(c, fs, nodes) && D.Recorded(nodes) && Plain(h.volume) && Plain(h.sub)
    requires !node.File? && (h in fs' <==> node.Dir?) && forall k :: k != h ==> (k in fs' <==> k in fs)
    ensures var nodes' := D.Put(nodes, M.PathOf(c, h), node); Related(c, fs', nodes') && D.Recorded(nodes')
  {
    forall v, n | Plain(v) && Plain(n) ensures M.PathOf(c, M.Entry(v, n)) == M.PathOf(c, h) <==> M.Entry(v, n) == h {
      PathsApart(c, v, n, h.volume, h.sub);
    }
  }

  lemma RenameRelated(c: M.Config, fs: M.FileSystem, nodes: D.Nodes, from: M.Entry, to: M.Entry)
    requires c.mount != "" && Related(c, fs, nodes) && D.Recorded(nodes) && from != to
    requires Plain(from.volume) && Plain(from.sub) && Plain(to.volume) && Plain(to.sub)
    ensures var r := D.RenameNode(nodes, M.PathOf(c, from), M.PathOf(c, to), None);
            && D.Recorded(r.0) && (r.1.None? <==> M.Rename(fs, from, to).Moved?)
            && (r.1 == Some(D.ENOENT) <==> M.Rename(fs, from, to).NoEntry?)
            && Related(c, if M.Rename(fs, from, to).Moved? then M.Rename(fs, from, to).fs else fs, r.0)
  {
    assert from in fs <==> D.At(nodes, M.PathOf(c, M.Entry(from.volume, from.sub))).Dir?;
    assert to in fs <==> D.At(nodes, M.PathOf(c, M.Entry(to.volume, to.sub))).Dir?;
    forall v, n | Plain(v) && Plain(n)
      ensures M.PathOf(c, M.Entry(v, n)) == M.PathOf(c, from) <==> M.Entry(v, n) == from
      ensures M.PathOf(c, M.Entry(v, n)) == M.PathOf(c, to) <==> M.Entry(v, n) == to
    {
      PathsApart(c, v, n, from.volume, from.sub);
      PathsApart(c, v, n, to.volume, to.sub);
    }
  }

  lemma OtherCreateRelated(c: M.Config, s: M.State, nodes: D.Nodes, h: M.Entry)
    requires c.mount != "" && Related(c, s.fs, nodes) && D.Recorded(nodes) && Plain(h.volume) && Plain(h.sub)
    ensures var node := D.At(nodes, M.PathOf(c, h));
            var nodes' := D.Put(nodes, M.PathOf(c, h), if node.Absent? then D.Dir(0, 0, 0) else node);
            Related(c, M.DoCreate(s, h, false).fs, nodes') && D.Recorded(nodes')
  {
    var node := D.At(nodes, M.PathOf(c, M.Entry(h.volume, h.sub)));
    PutRelated(c, s.fs, M.DoCreate(s, h, false).fs, nodes, h, if node.Absent? then D.Dir(0, 0, 0) else node);
  }

  /** Steps of everybody but the service do to the directories what they do to the entries. */
  lemma OtherRelated(c: M.Config, s: M.State, nodes: D.Nodes, a: M.Action)
    requires M.ValidConfig(c) && S.Orderly(c, s) && M.Enabled(c, s, a) && !a.Create? && !a.Delete?
    requires Related(c, s.fs, nodes) && D.Recorded(nodes)
    ensures Related(c, M.Do(c, s, a).fs, NodesAfter(c, s, nodes, a)) && D.Recorded(NodesAfter(c, s, nodes, a))
  {
    match a
    case Write(h, content) => SpoilRelated(c, s.fs, nodes, {h}, content);
    case OtherCreate(h) => OtherCreateRelated(c, s, nodes, h);
    case OtherDelete(h) =>
      MarkerIsPlain(c.other, h.sub);
      assert |Marker(c.other, h.sub)| > |h.sub|;
      RenameRelated(c, s.fs, nodes, h, M.Entry(h.volume, Marker(c.other, h.sub)));
    case OtherRemove(h, complete, left) =>
      if complete {
        S.ReachesOne(c, s.fs, h);
        RemoveTreeRelated(c, s.fs, nodes, M.PathOf(c, h));
      } else {
        SpoilRelated(c, s.fs, nodes, {h}, left);
      }
    case Remove(w, complete, left) =>
      RemoveTreeRelated(c, s.fs, nodes, s.workers[w].path);
      SpoilRelated(c, s.fs, nodes, M.Reached(c, s.fs, s.workers[w].path), left);
    case _ =>
  }
}
