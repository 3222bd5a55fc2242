/**
 `DirectoryMaker.Mkdir`: a claim's subdirectory is made by stat, mkdir, chmod and
 chown, each a step of its own, and several controllers may do so at once.
 */
module DirectoryMaker {
  import opened Options
  import opened AccessModes

  /** What a path names on the file system. */
  datatype Node = Absent | File | Dir(mode: nat, uid: int, gid: int)

  datatype Request = Request(accessMode: int, user: string, group: string)

  /** Numeric ids the node resolves names to; a failed lookup or a non-numeric id is a missing entry. */
  datatype Accounts = Accounts(users: map<string, int>, groups: map<string, int>)

  /** How far one call is. A call that `made` went through the creating path and not the early return. */
  datatype Call = Entered | ToMkdir | ToChmod | ToChown | Returned(ok: bool, made: bool)

  /**
   One system call of one caller. `fault` makes it fail with an error other than
   the ones the state gives; `initial` is what mkdir leaves before chmod and chown
   (mode cut by the umask, owned by the driver).
   */
  datatype Step = Step(caller: nat, fault: bool, initial: Node)

  /** The directory the request asks for, with the mode as `os.Chmod` applies it. */
  predicate Wanted(req: Request, acc: Accounts, node: Node) {
    && node.Dir? && AppliedMode(req.accessMode) == Value(node.mode)
    && req.user in acc.users && node.uid == acc.users[req.user]
    && req.group in acc.groups && node.gid == acc.groups[req.group]
  }

  function Stat(req: Request, node: Node, fault: bool): Call {
    if fault then Returned(false, false)
    else match node
      case Absent => if FileMode(req.accessMode).Value? then ToMkdir else Returned(false, true)
      case File => Returned(false, false)
      case Dir(_, _, _) => Returned(true, false)
  }

  function Mkdir(node: Node, fault: bool, initial: Node): (Node, Call) {
    if fault then (node, Returned(false, true))
    else (if node.Absent? then initial else node, ToChmod)
  }

  function Chmod(req: Request, node: Node, fault: bool): (Node, Call) {
    if fault || node.Absent? || !FileMode(req.accessMode).Value? then (node, Returned(false, true))
    else (if node.Dir? then node.(mode := SyscallMode(FileMode(req.accessMode).n)) else node, ToChown)
  }

  function Chown(req: Request, acc: Accounts, node: Node, fault: bool): (Node, Call) {
    if fault || node.Absent? || req.user !in acc.users || req.group !in acc.groups
    then (node, Returned(false, true))
    else (if node.Dir? then node.(uid := acc.users[req.user], gid := acc.groups[req.group]) else node,
          Returned(true, true))
  }

  function Advance(req: Request, acc: Accounts, node: Node, call: Call, step: Step): (Node, Call) {
    match call
    case Entered => (node, Stat(req, node, step.fault))
    case ToMkdir => Mkdir(node, step.fault, step.initial)
    case ToChmod => Chmod(req, node, step.fault)
    case ToChown => Chown(req, acc, node, step.fault)
    case Returned(_, _) => (node, call)
  }

  datatype State = State(node: Node, calls: seq<Call>)

  function Do(req: Request, acc: Accounts, s: State, step: Step): State
    requires step.caller < |s.calls|
  {
    var r := Advance(req, acc, s.node, s.calls[step.caller], step);
    State(r.0, s.calls[step.caller := r.1])
  }

  /** Any interleaving of the callers' steps. */
  ghost predicate ValidRun(s: State, run: seq<Step>) {
    forall step <- run :: step.caller < |s.calls| && step.initial.Dir?
  }

  function After(req: Request, acc: Accounts, s: State, run: seq<Step>): State
    requires ValidRun(s, run)
    decreases |run|
  {
    if run == [] then s
    else
      assert run[0] in run && forall step <- run[1..] :: step in run;
      After(req, acc, Do(req, acc, s, run[0]), run[1..])
  }

  /** Callers of the same request on a path where nothing is yet. */
  ghost predicate Start(s: State) {
    s.node == Absent && forall call <- s.calls :: call == Entered
  }

  ghost predicate CallOk(req: Request, acc: Accounts, node: Node, call: Call) {
    match call
    case Entered => true
    case ToMkdir => FileMode(req.accessMode).Value?
    case ToChmod => node.Dir? && FileMode(req.accessMode).Value?
    case ToChown => node.Dir? && AppliedMode(req.accessMode) == Value(node.mode)
    case Returned(ok, made) => ok ==> if made then Wanted(req, acc, node) else node.Dir?
  }

  /** Past mkdir: the call found or made the directory on the creating path. */
  predicate Creating(call: Call) {
    call == ToChmod || call == ToChown || (call.Returned? && call.made)
  }

  ghost predicate Inv(req: Request, acc: Accounts, s: State) {
    && !s.node.File?
    && (forall call <- s.calls :: CallOk(req, acc, s.node, call))
    && (s.node.Dir? ==> exists i :: 0 <= i < |s.calls| && Creating(s.calls[i]))
  }

  lemma StepKeeps(req: Request, acc: Accounts, s: State, step: Step)
    requires Inv(req, acc, s) && step.caller < |s.calls| && step.initial.Dir?
    ensures Inv(req, acc, Do(req, acc, s, step))
  {
    var i, s' := step.caller, Do(req, acc, s, step);
    assert CallOk(req, acc, s.node, s.calls[i]) by { assert s.calls[i] in s.calls; }
    assert CallOk(req, acc, s'.node, s'.calls[i]);
    forall call | call in s'.calls ensures CallOk(req, acc, s'.node, call) {
      var k :| 0 <= k < |s'.calls| && s'.calls[k] == call;
      if k != i {
        assert s.calls[k] == call && call in s.calls;
      }
    }
    if s'.node.Dir? {
      if s.node.Dir? {
        var k :| 0 <= k < |s.calls| && Creating(s.calls[k]);
        assert Creating(s'.calls[k]);
      } else {
        assert Creating(s'.calls[i]);
      }
    }
  }

  lemma {:induction false} RunKeeps(req: Request, acc: Accounts, s: State, run: seq<Step>)
    requires Inv(req, acc, s) && ValidRun(s, run)
    ensures Inv(req, acc, After(req, acc, s, run)) && |After(req, acc, s, run).calls| == |s.calls|
    decreases |run|
  {
    if run != [] {
      assert run[0] in run && forall step <- run[1..] :: step in run;
      StepKeeps(req, acc, s, run[0]);
      RunKeeps(req, acc, Do(req, acc, s, run[0]), run[1..]);
    }
  }

  /**
   Convergence: when every caller returns without error, the directory is there
   with exactly the requested mode and owner, whatever the interleaving and
   however many callers met a directory somebody else had made.
   */
  lemma AllSucceedMeansWanted(req: Request, acc: Accounts, s: State, run: seq<Step>)
    requires Start(s) && s.calls != [] && ValidRun(s, run)
    requires forall call <- After(req, acc, s, run).calls :: call.Returned? && call.ok
    ensures Wanted(req, acc, After(req, acc, s, run).node)
  {
    RunKeeps(req, acc, s, run);
    var s' := After(req, acc, s, run);
    assert s'.calls[0] in s'.calls;
    assert s'.node.Dir?;
    var i :| 0 <= i < |s'.calls| && Creating(s'.calls[i]);
    assert s'.calls[i] in s'.calls;
  }

  ghost predicate NoneFailed(calls: seq<Call>) {
    forall call <- calls :: call.Returned? ==> call.ok
  }

  lemma FaultlessStep(req: Request, acc: Accounts, s: State, step: Step)
    requires Inv(req, acc, s) && NoneFailed(s.calls) && step.caller < |s.calls| && !step.fault && step.initial.Dir?
    requires FileMode(req.accessMode).Value? && req.user in acc.users && req.group in acc.groups
    ensures NoneFailed(Do(req, acc, s, step).calls)
  {
    var i, s' := step.caller, Do(req, acc, s, step);
    assert s.calls[i] in s.calls;
    forall call | call in s'.calls && call.Returned? ensures call.ok {
      var k :| 0 <= k < |s'.calls| && s'.calls[k] == call;
      if k != i {
        assert s.calls[k] in s.calls;
      }
    }
  }

  /**
   Concurrent calls never make one another fail: with a readable mode, a known owner
   and no error of their own, none of them fails, whatever the interleaving. An
   existing directory, met in stat or in mkdir, is no error.
   */
  lemma {:induction false} NoneFailsAnother(req: Request, acc: Accounts, s: State, run: seq<Step>)
    requires Inv(req, acc, s) && NoneFailed(s.calls) && ValidRun(s, run) && forall step <- run :: !step.fault
    requires FileMode(req.accessMode).Value? && req.user in acc.users && req.group in acc.groups
    ensures NoneFailed(After(req, acc, s, run).calls)
    decreases |run|
  {
    if run != [] {
      assert run[0] in run && forall step <- run[1..] :: step in run;
      StepKeeps(req, acc, s, run[0]);
      FaultlessStep(req, acc, s, run[0]);
      NoneFailsAnother(req, acc, Do(req, acc, s, run[0]), run[1..]);
    }
  }

  /** How many system calls a caller has at most ahead of it. */
  function Ahead(call: Call): nat {
    match call
    case Entered => 4
    case ToMkdir => 3
    case ToChmod => 2
    case ToChown => 1
    case Returned(_, _) => 0
  }

  /** Each system call of a caller brings it closer to its end, and nobody else's sets it back. */
  lemma StepEnds(req: Request, acc: Accounts, s: State, step: Step, k: nat)
    requires step.caller < |s.calls| && k < |s.calls|
    ensures var before, after := s.calls[k], Do(req, acc, s, step).calls[k];
            if k == step.caller && !before.Returned? then Ahead(after) < Ahead(before) else after == before
  {
  }

  predicate Owned(req: Request, acc: Accounts, node: Node) {
    && node.Dir?
    && req.user in acc.users && node.uid == acc.users[req.user]
    && req.group in acc.groups && node.gid == acc.groups[req.group]
  }

  /** The mode is the requested one, as applied. */
  predicate ModeRight(req: Request, node: Node) {
    node.Dir? && AppliedMode(req.accessMode) == Value(node.mode)
  }

  /** Some caller went through the whole creating path. */
  ghost predicate Finished(s: State) {
    exists i :: 0 <= i < |s.calls| && s.calls[i] == Returned(true, true)
  }

  /** What mkdir left when it made the directory during the run; absent if it did not. */
  ghost function Made(req: Request, acc: Accounts, s: State, run: seq<Step>): Node
    requires ValidRun(s, run)
    decreases |run|
  {
    if run == [] then Absent
    else
      assert run[0] in run && forall step <- run[1..] :: step in run;
      var s1 := Do(req, acc, s, run[0]);
      if s.node.Absent? && s1.node.Dir? then s1.node else Made(req, acc, s1, run[1..])
  }

  /** Some caller's chmod worked during the run. */
  ghost predicate Chmodded(req: Request, acc: Accounts, s: State, run: seq<Step>)
    requires ValidRun(s, run)
    decreases |run|
  {
    run != [] &&
    assert run[0] in run && forall step <- run[1..] :: step in run;
    var s1 := Do(req, acc, s, run[0]);
    (s.calls[run[0].caller] == ToChmod && s1.calls[run[0].caller] == ToChown) || Chmodded(req, acc, s1, run[1..])
  }

  lemma {:induction false} OwnedExactly(req: Request, acc: Accounts, s: State, run: seq<Step>)
    requires Inv(req, acc, s) && ValidRun(s, run)
    ensures Owned(req, acc, After(req, acc, s, run).node) <==>
              || Owned(req, acc, s.node) || Owned(req, acc, Made(req, acc, s, run))
              || Finished(After(req, acc, s, run))
    decreases |run|
  {
    if run == [] {
      FinishedMeansWanted(req, acc, s);
    } else {
      var step, s1 := run[0], Do(req, acc, s, run[0]);
      assert run[0] in run && forall b <- run[1..] :: b in run;
      StepKeeps(req, acc, s, step);
      RunKeeps(req, acc, s1, run[1..]);
      FinishedMeansWanted(req, acc, After(req, acc, s1, run[1..]));
      OwnedExactly(req, acc, s1, run[1..]);
      if Owned(req, acc, s1.node) && !Owned(req, acc, s.node) && !s.node.Absent? {
        assert s1.calls[step.caller] == Returned(true, true);
        FinishedStays(req, acc, s1, run[1..]);
      }
      if s1.node.Dir? {
        MadeOnce(req, acc, s1, run[1..]);
      }
    }
  }

  /** Once there, the directory is not made again. */
  lemma {:induction false} MadeOnce(req: Request, acc: Accounts, s: State, run: seq<Step>)
    requires ValidRun(s, run) && s.node.Dir?
    ensures Made(req, acc, s, run) == Absent
    decreases |run|
  {
    if run != [] {
      assert run[0] in run && forall b <- run[1..] :: b in run;
      MadeOnce(req, acc, Do(req, acc, s, run[0]), run[1..]);
    }
  }

  lemma FinishedMeansWanted(req: Request, acc: Accounts, s: State)
    requires Inv(req, acc, s)
    ensures Finished(s) ==> Wanted(req, acc, s.node)
  {
    if k :| 0 <= k < |s.calls| && s.calls[k] == Returned(true, true) {
      assert s.calls[k] in s.calls;
    }
  }

  lemma {:induction false} FinishedStays(req: Request, acc: Accounts, s: State, run: seq<Step>)
    requires ValidRun(s, run) && Finished(s)
    ensures Finished(After(req, acc, s, run))
    decreases |run|
  {
    if run != [] {
      assert run[0] in run && forall b <- run[1..] :: b in run;
      var k :| 0 <= k < |s.calls| && s.calls[k] == Returned(true, true);
      assert Do(req, acc, s, run[0]).calls[k] == Returned(true, true);
      FinishedStays(req, acc, Do(req, acc, s, run[0]), run[1..]);
    }
  }

  lemma {:induction false} ModeExactly(req: Request, acc: Accounts, s: State, run: seq<Step>)
    requires Inv(req, acc, s) && ValidRun(s, run)
    ensures ModeRight(req, After(req, acc, s, run).node) <==>
              || ModeRight(req, s.node) || ModeRight(req, Made(req, acc, s, run)) || Chmodded(req, acc, s, run)
    decreases |run|
  {
    if run != [] {
      var step, s1 := run[0], Do(req, acc, s, run[0]);
      assert run[0] in run && forall b <- run[1..] :: b in run;
      assert CallOk(req, acc, s.node, s.calls[step.caller]) by { assert s.calls[step.caller] in s.calls; }
      StepKeeps(req, acc, s, step);
      ModeExactly(req, acc, s1, run[1..]);
      if s1.node.Dir? {
        MadeOnce(req, acc, s1, run[1..]);
      }
    }
  }

  /**
   Exactly when the directory is as requested, at any point of any run: its owner
   is right when some caller has completed the creating path, or mkdir made it
   with that owner (a driver that runs as the requested owner); its mode when
   some caller's chmod worked, or mkdir made it with that mode. An early return on
   an existing directory never contributes.
   */
  lemma WantedExactly(req: Request, acc: Accounts, s: State, run: seq<Step>)
    requires Start(s) && ValidRun(s, run)
    ensures var made := Made(req, acc, s, run);
            Wanted(req, acc, After(req, acc, s, run).node) <==>
              && (Finished(After(req, acc, s, run)) || Owned(req, acc, made))
              && (Chmodded(req, acc, s, run) || ModeRight(req, made))
  {
    OwnedExactly(req, acc, s, run);
    ModeExactly(req, acc, s, run);
    var node := After(req, acc, s, run).node;
    assert Wanted(req, acc, node) <==> Owned(req, acc, node) && ModeRight(req, node);
  }

  /** A driver that is not the requested owner: the directory is as requested exactly when some caller is through. */
  lemma WantedWhenForeign(req: Request, acc: Accounts, s: State, run: seq<Step>)
    requires Start(s) && ValidRun(s, run) && !Owned(req, acc, Made(req, acc, s, run))
    ensures Wanted(req, acc, After(req, acc, s, run).node) <==> Finished(After(req, acc, s, run))
  {
    WantedExactly(req, acc, s, run);
    RunKeeps(req, acc, s, run);
    FinishedMeansWanted(req, acc, After(req, acc, s, run));
  }

  /** Exactly when the requested mode is met literally: when it is at most 777. The default of 1700 is not. */
  lemma LiteralModeExactly(req: Request, acc: Accounts, node: Node)
    requires Wanted(req, acc, node) && -INT32_LIMIT <= req.accessMode < INT32_LIMIT
    ensures FileMode(req.accessMode) == Value(node.mode) <==> req.accessMode <= 777
  {
    AppliedModeExact(req.accessMode);
  }

  /**
   A retry does not repair: when the first call fails in chown, a second call
   returns success although the directory still has the wrong owner.
   */
  lemma RetryDoesNotRepair(req: Request, acc: Accounts, initial: Node) returns (run: seq<Step>)
    requires FileMode(req.accessMode).Value? && initial.Dir?
    requires req.user in acc.users ==> initial.uid != acc.users[req.user]
    ensures var s := State(Absent, [Entered, Entered]);
            && Start(s) && ValidRun(s, run)
            && After(req, acc, s, run).calls == [Returned(false, true), Returned(true, false)]
            && !Wanted(req, acc, After(req, acc, s, run).node)
  {
    var s := State(Absent, [Entered, Entered]);
    var go, fail, retry := Step(0, false, initial), Step(0, true, initial), Step(1, false, initial);
    run := [go, go, go, fail, retry];
    assert run[1..] == [go, go, fail, retry] && run[1..][1..] == [go, fail, retry];
    assert [go, fail, retry][1..] == [fail, retry] && [fail, retry][1..] == [retry] && [retry][1..] == [];
    var s1 := Do(req, acc, s, go);
    var s2 := Do(req, acc, s1, go);
    var s3 := Do(req, acc, s2, go);
    var s4 := Do(req, acc, s3, fail);
    var s5 := Do(req, acc, s4, retry);
    assert s5.calls == [Returned(false, true), Returned(true, false)];
    assert After(req, acc, s4, [retry]) == s5;
    assert After(req, acc, s3, [fail, retry]) == s5;
    assert After(req, acc, s2, [go, fail, retry]) == s5;
    assert After(req, acc, s1, [go, go, fail, retry]) == s5;
  }

  /** Which of a call's own system calls fail, and what its mkdir would leave. */
  datatype Faults = Faults(stat: bool, mkdir: bool, chmod: bool, chown: bool, initial: Node)

  /** One call running alone, as four steps of the machine above. */
  function Solo(req: Request, acc: Accounts, node: Node, f: Faults): (Node, bool) {
    var a := Advance(req, acc, node, Entered, Step(0, f.stat, f.initial));
    if a.1.ToMkdir? then SoloCreate(req, acc, node, f) else (a.0, a.1 == Returned(true, false))
  }

  function SoloCreate(req: Request, acc: Accounts, node: Node, f: Faults): (Node, bool) {
    if !FileMode(req.accessMode).Value? then (node, false) else
    var b := Advance(req, acc, node, ToMkdir, Step(0, f.mkdir, f.initial));
    var c := Advance(req, acc, b.0, b.1, Step(0, f.chmod, f.initial));
    var d := Advance(req, acc, c.0, c.1, Step(0, f.chown, f.initial));
    (d.0, d.1 == Returned(true, true))
  }

  /** Alone, a successful call on a missing path makes what was asked for; on a directory it changes nothing. */
  lemma SoloOutcome(req: Request, acc: Accounts, node: Node, f: Faults)
    requires f.initial.Dir?
    ensures var r := Solo(req, acc, node, f);
            && (r.1 ==> r.0.Dir?)
            && (node.Absent? && r.1 ==> Wanted(req, acc, r.0))
            && (!node.Absent? ==> r.0 == node && r.1 == (node.Dir? && !f.stat))
            && (r.0.Absent? ==> node.Absent? && !r.1)
  {
  }

  /** Exactly when one call alone succeeds, and what it leaves either way. */
  lemma SoloExactly(req: Request, acc: Accounts, node: Node, f: Faults)
    requires f.initial.Dir?
    ensures var r, known := Solo(req, acc, node, f), req.user in acc.users && req.group in acc.groups;
            var makes := !f.stat && node.Absent? && AppliedMode(req.accessMode).Value? && !f.mkdir;
            && (r.1 <==> !f.stat && (node.Dir? || (makes && !f.chmod && known && !f.chown)))
            && r.0 == (if !makes then node
                       else if f.chmod then f.initial
                       else if known && !f.chown
                       then Dir(AppliedMode(req.accessMode).n, acc.users[req.user], acc.groups[req.group])
                       else f.initial.(mode := AppliedMode(req.accessMode).n))
  {
  }

  /** Directories and files by path; a missing path is absent. */
  type Nodes = map<string, Node>

  function At(nodes: Nodes, path: string): Node {
    if path in nodes then nodes[path] else Absent
  }

  function Put(nodes: Nodes, path: string, node: Node): Nodes {
    if node.Absent? then nodes - {path} else nodes[path := node]
  }

  ghost predicate Recorded(nodes: Nodes) {
    forall p <- nodes :: !nodes[p].Absent?
  }

  datatype Errno = ENOENT | EEXIST | OtherErrno

  /**
   `os.Rename`: a missing source is ENOENT, an existing target directory EEXIST, a
   directory onto a file another error; `fault` is an error the state does not give.
   */
  function RenameNode(nodes: Nodes, from: string, to: string, fault: Option<Errno>): (Nodes, Option<Errno>) {
    if fault.Some? then (nodes, fault)
    else if At(nodes, from).Absent? then (nodes, Some(ENOENT))
    else if At(nodes, to).Dir? then (nodes, Some(EEXIST))
    else if At(nodes, to).File? && At(nodes, from).Dir? then (nodes, Some(OtherErrno))
    else ((nodes - {from})[to := At(nodes, from)], None)
  }

  /** The node's file system, as far as claim directories go. */
  class Mounter {
    var nodes: Nodes
    const accounts: Accounts

    constructor (nodes: Nodes, accounts: Accounts)
      ensures this.nodes == nodes && this.accounts == accounts
    {
      this.nodes := nodes;
      this.accounts := accounts;
    }

    method Mkdir(path: string, req: Request, f: Faults) returns (ok: bool)
      requires Recorded(nodes) && f.initial.Dir?
      modifies this
      ensures var r := Solo(req, accounts, At(old(nodes), path), f);
              nodes == Put(old(nodes), path, r.0) && ok == r.1
      ensures Recorded(nodes)
    {
      if f.stat {
        return false;
      }
      if At(nodes, path).Absent? {
        ok := CreateDirectory(path, req, f);
        return;
      }
      return nodes[path].Dir?;
    }

    method CreateDirectory(path: string, req: Request, f: Faults) returns (ok: bool)
      requires Recorded(nodes) && f.initial.Dir?
      modifies this
      ensures var r := SoloCreate(req, accounts, At(old(nodes), path), f);
              nodes == Put(old(nodes), path, r.0) && ok == r.1
      ensures Recorded(nodes)
    {
      var modeVal := FileMode(req.accessMode);
      if !modeVal.Value? {
        return false;
      }
      if f.mkdir {
        return false;
      }
      if At(nodes, path).Absent? { // an existing entry is EEXIST, which is ignored
        nodes := nodes[path := f.initial];
      }
      if f.chmod {
        return false;
      }
      if nodes[path].Dir? {
        nodes := nodes[path := nodes[path].(mode := SyscallMode(modeVal.n))];
      }
      ok := ChownDirectory(path, req, f);
    }

    method ChownDirectory(path: string, req: Request, f: Faults) returns (ok: bool)
      requires Recorded(nodes) && path in nodes
      modifies this
      ensures var r := Chown(req, accounts, old(nodes)[path], f.chown);
              nodes == old(nodes)[path := r.0] && ok == r.1.ok
      ensures Recorded(nodes)
    {
      if req.user !in accounts.users || req.group !in accounts.groups {
        return false;
      }
      if f.chown {
        return false;
      }
      if nodes[path].Dir? {
        nodes := nodes[path := nodes[path].(uid := accounts.users[req.user], gid := accounts.groups[req.group])];
      }
      return true;
    }

    method Rename(from: string, to: string, fault: Option<Errno>) returns (error: Option<Errno>)
      requires Recorded(nodes)
      modifies this
      ensures (nodes, error) == RenameNode(old(nodes), from, to, fault)
      ensures Recorded(nodes)
    {
      if fault.Some? {
        return fault;
      }
      if from !in nodes {
        return Some(ENOENT);
      }
      if to in nodes && nodes[to].Dir? {
        return Some(EEXIST);
      }
      if to in nodes && nodes[from].Dir? {
        return Some(OtherErrno);
      }
      nodes := (nodes - {from})[to := nodes[from]];
      return None;
    }
  }
}
