/**
 Progress of the sweep: one full walk removes every marker that was there when it
 began, whatever else happens meanwhile, and walker and workers never get stuck.
 */
module SweepLiveness {
  import opened GoStrings
  import opened Paths
  import opened Markers
  import opened SweepModel
  import opened SweepSafety

  /** The walker sleeps, the channel is empty and no worker holds a path. */
  ghost predicate Quiet(s: State) {
    s.walker.Sleeping? && s.queue == [] && forall w <- s.workers :: w.Idle?
  }

  /** Listings are complete, removals succeed and the process goes on; the code itself tolerates none of it failing. */
  ghost predicate Faithful(c: Config, s: State, a: Action)
    requires Enabled(c, s, a)
  {
    match a
    case List(names) => forall n <- NamesIn(c, s.fs, VolumePath(c, s.walker.i)) :: n in names
    case Remove(_, complete, _) => complete
    case Restart => false
    case _ => true
  }

  ghost predicate FaithfulRun(c: Config, s: State, run: seq<Action>)
    decreases |run|
  {
    run == [] ||
    (Enabled(c, s, run[0]) && Faithful(c, s, run[0]) && FaithfulRun(c, Do(c, s, run[0]), run[1..]))
  }

  lemma {:induction false} FaithfulIsValid(c: Config, s: State, run: seq<Action>)
    requires FaithfulRun(c, s, run)
    ensures ValidRun(c, s, run)
    decreases |run|
  {
    if run != [] {
      FaithfulIsValid(c, Do(c, s, run[0]), run[1..]);
    }
  }

  /** A marker the sweep is responsible for. */
  ghost predicate Due(c: Config, h: Entry) {
    Plain(h.volume) && Plain(h.sub) && IsSwept(c.driver, h.sub) && ListedFrom(c, h.volume, 0)
  }

  /** The walker has yet to list the entry's volume in this round, or to reach the entry in its listing. */
  ghost predicate Ahead(c: Config, walker: Walker, h: Entry) {
    match walker
    case Sleeping => false
    case Opening(i) => ListedFrom(c, h.volume, i)
    case Listing(i, names) =>
      ListedFrom(c, h.volume, i + 1) ||
      (i < |c.sharedVolumes| && TrimSpace(c.sharedVolumes[i]) == h.volume && h.sub in names)
  }

  /** The tree was removed, by the other driver only if that queues the name too. */
  ghost predicate Gone(c: Config, s: State, h: Entry, id: nat) {
    id in s.removed || (IsSwept(c.other, h.sub) && id in s.otherRemoved)
  }

  /** The tree was removed, or still sits at the entry and somebody is going to get to it. */
  ghost predicate Covered(c: Config, s: State, h: Entry, id: nat) {
    || Gone(c, s, h, id)
    || (h in s.fs && s.fs[h].id == id &&
        (Ahead(c, s.walker, h) || PathOf(c, h) in s.queue || Holding(PathOf(c, h)) in s.workers))
  }

  /** Steps of the controllers and pods leave a due marker where it is. */
  lemma FileStepCovers(c: Config, s: State, h: Entry, a: Action)
    requires Apart(c) && Due(c, h) && h in s.fs && Enabled(c, s, a)
    requires a.Create? || a.Write? || a.Delete? || a.OtherCreate? || a.OtherDelete?
    ensures var s' := Do(c, s, a);
            && h in s'.fs && s'.fs[h].id == s.fs[h].id
            && s'.removed == s.removed && s'.otherRemoved == s.otherRemoved
            && s'.walker == s.walker && s'.queue == s.queue && s'.workers == s.workers
  {
    match a
    case Write(k, content) => SpoilIds(s.fs, {k}, content);
    case OtherDelete(k) => SweptIsMarker(c.driver, h.sub);
    case _ =>
  }

  /** The other driver's sweep removes a due marker, or leaves it where it is. */
  lemma OtherRemoveCovers(c: Config, s: State, h: Entry, a: Action)
    requires Due(c, h) && h in s.fs && a.OtherRemove? && Enabled(c, s, a)
    ensures var s' := Do(c, s, a);
            && s'.walker == s.walker && s'.queue == s.queue && s'.workers == s.workers
            && (Gone(c, s', h, s.fs[h].id) || (h in s'.fs && s'.fs[h].id == s.fs[h].id))
  {
    SpoilIds(s.fs, {a.h}, a.left);
  }

  /** Steps of the walker keep a due marker ahead of it, or put its path into the channel. */
  lemma WalkStepCovers(c: Config, s: State, h: Entry, a: Action)
    requires Apart(c) && Inv(c, s) && Due(c, h) && h in s.fs && Enabled(c, s, a) && Faithful(c, s, a)
    requires a.Wake? || a.SkipBlank? || a.List? || a.SkipName? || a.Send? || a.CloseVolume? || a.EndRound?
    ensures var s' := Do(c, s, a);
            && s'.fs == s.fs && s'.removed == s.removed && s'.otherRemoved == s.otherRemoved
            && s.queue <= s'.queue && s'.workers == s.workers
            && (Ahead(c, s.walker, h) ==> Ahead(c, s'.walker, h) || PathOf(c, h) in s'.queue)
  {
    match a
    case List(names) => ListCovers(c, s, h, names);
    case Send => SendCovers(c, s, h);
    case _ =>
  }

  lemma StepCovers(c: Config, s: State, h: Entry, id: nat, a: Action)
    requires Apart(c) && SweepableMount(c.mount) && Inv(c, s) && Due(c, h) && Covered(c, s, h, id)
    requires Enabled(c, s, a) && Faithful(c, s, a)
    ensures Covered(c, Do(c, s, a), h, id)
  {
    if !Gone(c, s, h, id) {
      if a.Receive? {
        ReceiveCovers(c, s, h, a.w);
      } else if a.Remove? {
        RemoveCovers(c, s, h, a.w, a.left);
      } else if a.OtherRemove? {
        OtherRemoveCovers(c, s, h, a);
      } else if IsWalking(a) {
        WalkStepCovers(c, s, h, a);
      } else {
        FileStepCovers(c, s, h, a);
      }
    } else {
      assert s.removed <= Do(c, s, a).removed && s.otherRemoved <= Do(c, s, a).otherRemoved;
    }
  }

  lemma ListCovers(c: Config, s: State, h: Entry, names: seq<string>)
    requires Apart(c) && Due(c, h) && h in s.fs
    requires Enabled(c, s, List(names)) && Faithful(c, s, List(names))
    ensures Ahead(c, s.walker, h) ==> Ahead(c, Listing(s.walker.i, names), h)
  {
    var i := s.walker.i;
    if TrimSpace(c.sharedVolumes[i]) == h.volume {
      ListedExactly(c, i, h);
      assert h.sub in NamesIn(c, s.fs, VolumePath(c, i));
    }
  }

  lemma SendCovers(c: Config, s: State, h: Entry)
    requires Apart(c) && Inv(c, s) && Due(c, h) && Enabled(c, s, Send)
    ensures var s' := Do(c, s, Send);
            && s.queue <= s'.queue
            && (Ahead(c, s.walker, h) ==> Ahead(c, s'.walker, h) || PathOf(c, h) in s'.queue)
  {
    var i, n, s' := s.walker.i, s.walker.names[0], Do(c, s, Send);
    assert n in s.walker.names;
    SentPath(c, i, n);
    var path := JoinPath([VolumePath(c, i), n]);
    assert s'.queue == s.queue + [path] && path in s'.queue;
    if TrimSpace(c.sharedVolumes[i]) == h.volume && n == h.sub {
      assert path == PathOf(c, h);
    }
  }

  lemma ReceiveCovers(c: Config, s: State, h: Entry, w: nat)
    requires Enabled(c, s, Receive(w))
    ensures var s' := Do(c, s, Receive(w)); var path := PathOf(c, h);
            path in s.queue || Holding(path) in s.workers ==> path in s'.queue || Holding(path) in s'.workers
  {
    var s', path := Do(c, s, Receive(w)), PathOf(c, h);
    assert s'.workers[w] == Holding(s.queue[0]);
    if path in s.queue && path != s.queue[0] {
      assert path in s.queue[1..];
    }
    if Holding(path) in s.workers {
      var k :| 0 <= k < |s.workers| && s.workers[k] == Holding(path);
      assert s'.workers[k] == Holding(path);
    }
  }

  lemma RemoveCovers(c: Config, s: State, h: Entry, w: nat, left: string)
    requires Apart(c) && SweepableMount(c.mount) && Inv(c, s) && Due(c, h) && h in s.fs
    requires Enabled(c, s, Remove(w, true, left))
    ensures var s', path := Do(c, s, Remove(w, true, left)), PathOf(c, h);
            || s.fs[h].id in s'.removed
            || (h in s'.fs && s'.fs[h] == s.fs[h] &&
                (Holding(path) in s.workers ==> Holding(path) in s'.workers))
  {
    var s', path := Do(c, s, Remove(w, true, left)), PathOf(c, h);
    assert s.workers[w] in s.workers;
    var k :| TargetEntry(c, s.workers[w].path, k);
    ReachesOne(c, s.fs, k);
    if k == h {
      MountIsPrefix(c.mount, h.volume, h.sub);
      JoinThree(c.mount, h.volume, h.sub);
      SweptIsMarker(c.driver, h.sub);
      assert h in Reached(c, s.fs, path);
    } else {
      if Holding(path) in s.workers {
        var j :| 0 <= j < |s.workers| && s.workers[j] == Holding(path);
        if j == w {
          JoinThreeInjective(c.mount, k.volume, k.sub, h.volume, h.sub);
        }
        assert s'.workers[j] == Holding(path);
      }
    }
  }

  lemma {:induction false} RunCovers(c: Config, s: State, h: Entry, id: nat, run: seq<Action>)
    requires Apart(c) && SweepableMount(c.mount) && Inv(c, s) && Due(c, h) && Covered(c, s, h, id)
    requires FaithfulRun(c, s, run)
    ensures ValidRun(c, s, run) && Covered(c, After(c, s, run), h, id)
    decreases |run|
  {
    if run != [] {
      StepKeeps(c, s, run[0]);
      StepCovers(c, s, h, id, run[0]);
      RunCovers(c, Do(c, s, run[0]), h, id, run[1..]);
    }
  }

  /**
   From the moment the walker starts a round, in every faithful run that comes
   to rest, every tree that was under a swept name in a listed volume has been
   removed, by the other driver only if its walker queues that name too. Claims
   may be created, deleted and recreated under their old names all the while, the
   channel and the workers may start with leftovers, and later rounds may begin
   before the run ends.
   */
  lemma FullWalkRemovesEveryMarker(c: Config, s: State, run: seq<Action>)
    requires Apart(c) && SweepableMount(c.mount) && Inv(c, s) && s.walker == Opening(0)
    requires FaithfulRun(c, s, run)
    ensures ValidRun(c, s, run)
    ensures Quiet(After(c, s, run)) ==>
              forall h <- s.fs :: Due(c, h) ==> Gone(c, After(c, s, run), h, s.fs[h].id)
  {
    FaithfulIsValid(c, s, run);
    forall h | h in s.fs && Due(c, h) ensures Covered(c, After(c, s, run), h, s.fs[h].id) {
      RunCovers(c, s, h, s.fs[h].id, run);
    }
  }

  /** Without deletes, no marker appears: every swept entry was there with the same tree. */
  lemma {:induction false} NoNewMarkers(c: Config, s: State, run: seq<Action>)
    requires Apart(c) && Inv(c, s) && ValidRun(c, s, run) && forall a <- run :: !a.Delete?
    ensures forall h <- After(c, s, run).fs :: IsSwept(c.driver, h.sub) ==>
              h in s.fs && s.fs[h].id == After(c, s, run).fs[h].id
    decreases |run|
  {
    if run != [] {
      assert run[0] in run && forall b <- run[1..] :: b in run;
      StepKeeps(c, s, run[0]);
      NoNewMarkers(c, Do(c, s, run[0]), run[1..]);
      NoNewMarker(c, s, run[0]);
    }
  }

  lemma NoNewMarker(c: Config, s: State, a: Action)
    requires Apart(c) && Inv(c, s) && Enabled(c, s, a) && !a.Delete?
    ensures var s' := Do(c, s, a);
            forall h <- s'.fs :: IsSwept(c.driver, h.sub) ==> h in s.fs && s.fs[h].id == s'.fs[h].id
  {
    var s' := Do(c, s, a);
    if a.Remove? {
      assert s.workers[a.w] in s.workers;
      var k := RemoveOutcome(c, s, s.workers[a.w].path, a.complete, a.left);
    } else if IsWalking(a) {
      WalkKeeps(c, s, a);
    } else {
      forall h | h in s'.fs && IsSwept(c.driver, h.sub) ensures h in s.fs && s.fs[h].id == s'.fs[h].id {
        SweptIsMarker(c.driver, h.sub);
      }
    }
  }

  /** Once deletes stop, one full walk brought to rest leaves nothing to sweep in the listed volumes. */
  lemma QuietMeansClean(c: Config, s: State, run: seq<Action>)
    requires Apart(c) && SweepableMount(c.mount) && Inv(c, s) && s.walker == Opening(0)
    requires FaithfulRun(c, s, run) && forall a <- run :: !a.Delete?
    ensures ValidRun(c, s, run)
    ensures Quiet(After(c, s, run)) ==> forall h <- After(c, s, run).fs :: !Due(c, h)
  {
    FullWalkRemovesEveryMarker(c, s, run);
    var s' := After(c, s, run);
    if Quiet(s') {
      RunKeeps(c, s, run);
      NoNewMarkers(c, s, run);
      forall h | h in s'.fs ensures !Due(c, h) {
        assert s'.fs[h].id in IdsOf(s'.fs);
      }
    }
  }

  function Busy(workers: seq<Worker>): nat {
    if workers == [] then 0 else Busy(workers[1..]) + if workers[0].Idle? then 0 else 1
  }

  lemma {:induction false} BusyUpdate(workers: seq<Worker>, w: nat, x: Worker)
    requires w < |workers|
    ensures Busy(workers[w := x]) ==
            Busy(workers) - (if workers[w].Idle? then 0 else 1) + (if x.Idle? then 0 else 1)
  {
    if w == 0 {
      assert workers[0 := x][1..] == workers[1..];
    } else {
      assert workers[w := x][1..] == workers[1..][w - 1 := x];
      BusyUpdate(workers[1..], w - 1, x);
    }
  }

  /** Steps of the walker and the workers, other than waking up for the next round. */
  predicate IsSweeping(a: Action) {
    a.SkipBlank? || a.List? || a.SkipName? || a.Send? || a.CloseVolume? || a.EndRound? || a.Receive? || a.Remove?
  }

  /** What is left to do: volumes, names of the current listing, queued paths, paths being removed. */
  function WalkLeft(c: Config, walker: Walker): int {
    match walker
    case Sleeping => 0
    case Opening(i) => 2 * (|c.sharedVolumes| - i) + 1
    case Listing(i, _) => 2 * (|c.sharedVolumes| - i)
  }

  function NamesLeft(walker: Walker): nat {
    if walker.Listing? then |walker.names| else 0
  }

  ghost predicate Closer(c: Config, s': State, s: State) {
    || 0 <= WalkLeft(c, s'.walker) < WalkLeft(c, s.walker)
    || (WalkLeft(c, s'.walker) == WalkLeft(c, s.walker) &&
        (|| NamesLeft(s'.walker) < NamesLeft(s.walker)
         || (NamesLeft(s'.walker) == NamesLeft(s.walker) &&
             (|| |s'.queue| < |s.queue|
              || (|s'.queue| == |s.queue| && Busy(s'.workers) < Busy(s.workers))))))
  }

  /**
   Every sweeping step brings the sweep closer to rest in a well-founded order,
   and no step of the controllers or the pods sets it back.
   */
  lemma SweepingDecreases(c: Config, s: State, a: Action)
    requires Apart(c) && Inv(c, s) && Enabled(c, s, a)
    ensures IsSweeping(a) ==> Closer(c, Do(c, s, a), s)
    ensures !IsSweeping(a) && !a.Wake? && !a.Restart? ==>
              var s' := Do(c, s, a); s'.walker == s.walker && s'.queue == s.queue && s'.workers == s.workers
  {
    if a.Receive? {
      ReceiveDecreases(c, s, a.w);
    } else if a.Remove? {
      RemoveDecreases(c, s, a.w, a.complete, a.left);
    } else if IsSweeping(a) {
      WalkDecreases(c, s, a);
    }
  }

  lemma ReceiveDecreases(c: Config, s: State, w: nat)
    requires Enabled(c, s, Receive(w))
    ensures Closer(c, Do(c, s, Receive(w)), s)
  {
    BusyUpdate(s.workers, w, Holding(s.queue[0]));
  }

  lemma RemoveDecreases(c: Config, s: State, w: nat, complete: bool, left: string)
    requires Enabled(c, s, Remove(w, complete, left))
    ensures Closer(c, Do(c, s, Remove(w, complete, left)), s)
  {
    BusyUpdate(s.workers, w, Idle);
    RemoveKeepsSweep(c, s, s.workers[w].path, complete, left);
  }

  lemma RemoveKeepsSweep(c: Config, s: State, path: string, complete: bool, left: string)
    ensures var s' := DoRemove(c, s, path, complete, left);
            s'.walker == s.walker && s'.queue == s.queue && s'.workers == s.workers
  {
  }

  lemma WalkDecreases(c: Config, s: State, a: Action)
    requires Work(c, s.queue, s.walker, s.workers) && Enabled(c, s, a)
    requires IsSweeping(a) && !a.Receive? && !a.Remove?
    ensures Closer(c, Do(c, s, a), s)
  {
  }

  lemma {:induction false} Enumerate(names: set<string>) returns (list: seq<string>)
    ensures forall n :: n in list <==> n in names
  {
    if names == {} {
      list := [];
    } else {
      var n :| n in names;
      list := Enumerate(names - {n});
      list := [n] + list;
    }
  }

  /** With at least one worker, a sweep that is not at rest can always take a faithful step. */
  lemma NeverStuck(c: Config, s: State) returns (a: Action)
    requires Apart(c) && Inv(c, s) && c.parallelDeletes > 0 && !Quiet(s)
    ensures IsSweeping(a) && Enabled(c, s, a) && Faithful(c, s, a)
  {
    if w :| 0 <= w < |s.workers| && s.workers[w].Holding? {
      a := Remove(w, true, "");
    } else {
      assert s.workers[0].Idle?;
      if s.queue != [] {
        a := Receive(0);
      } else if s.walker.Opening? {
        var i := s.walker.i;
        if i >= |c.sharedVolumes| {
          a := EndRound;
        } else if TrimSpace(c.sharedVolumes[i]) == "" {
          a := SkipBlank;
        } else {
          var names := Enumerate(NamesIn(c, s.fs, VolumePath(c, i)));
          a := List(names);
        }
      } else {
        assert s.walker.Listing?;
        a := if s.walker.names == [] then CloseVolume
             else if IsSwept(c.driver, s.walker.names[0]) then Send
             else SkipName;
      }
    }
  }

  /** Without workers the walker blocks for good on the first marker it meets. */
  lemma StuckWithoutWorkers(c: Config, s: State, a: Action)
    requires Inv(c, s) && c.parallelDeletes == 0
    requires s.walker.Listing? && s.walker.names != [] && IsSwept(c.driver, s.walker.names[0])
    requires Enabled(c, s, a)
    ensures !IsSweeping(a) && !a.Wake?
  {
  }

  /** Left to themselves, walker and workers finish the round from any state. */
  lemma {:induction false} SweepComesToRest(c: Config, s: State) returns (run: seq<Action>)
    requires Apart(c) && Inv(c, s) && c.parallelDeletes > 0
    ensures FaithfulRun(c, s, run) && ValidRun(c, s, run) && Quiet(After(c, s, run))
    ensures forall a <- run :: IsSweeping(a)
    decreases WalkLeft(c, s.walker), NamesLeft(s.walker), |s.queue|, Busy(s.workers)
  {
    if Quiet(s) {
      run := [];
    } else {
      var a := NeverStuck(c, s);
      SweepingDecreases(c, s, a);
      StepKeeps(c, s, a);
      var rest := SweepComesToRest(c, Do(c, s, a));
      run := [a] + rest;
      assert run[1..] == rest;
    }
  }

  /** So a round that begins can always be completed, and completing it cleans the listed volumes. */
  lemma RoundCanClean(c: Config, s: State) returns (run: seq<Action>)
    requires Apart(c) && SweepableMount(c.mount) && c.parallelDeletes > 0
    requires Inv(c, s) && s.walker == Opening(0)
    ensures ValidRun(c, s, run) && Quiet(After(c, s, run))
    ensures forall h <- After(c, s, run).fs :: !Due(c, h)
    ensures After(c, s, run).live == s.live
  {
    run := SweepComesToRest(c, s);
    QuietMeansClean(c, s, run);
    SweepingKeepsHandles(c, s, run);
  }

  lemma {:induction false} SweepingKeepsHandles(c: Config, s: State, run: seq<Action>)
    requires ValidRun(c, s, run) && forall a <- run :: IsSweeping(a)
    ensures After(c, s, run).live == s.live
    decreases |run|
  {
    if run != [] {
      assert IsSweeping(run[0]);
      assert forall b <- run[1..] :: b in run;
      SweepingKeepsHandles(c, Do(c, s, run[0]), run[1..]);
    }
  }

  /** The workers take nothing from any configured volume, for the way the mount path is spelled. */
  ghost predicate NoVolumeSweepable(c: Config) {
    forall v <- c.sharedVolumes :: TrimSpace(v) != "" ==> !Sweepable(c.mount, TrimSpace(v))
  }

  /**
   The mount path's spelling decides: on one that is not clean, up to one trailing
   slash, the workers drop everything they receive and no run removes anything.
   */
  lemma {:induction false} UncleanMountSweepsNothing(c: Config, s: State, run: seq<Action>)
    requires Apart(c) && Inv(c, s) && ValidRun(c, s, run) && NoVolumeSweepable(c)
    ensures After(c, s, run).removed == s.removed
    decreases |run|
  {
    if run != [] {
      var a := run[0];
      StepKeeps(c, s, a);
      if a.Remove? {
        assert s.workers[a.w] in s.workers;
        TargetDropped(c, s.workers[a.w].path);
      }
      UncleanMountSweepsNothing(c, Do(c, s, a), run[1..]);
    }
  }

  lemma TargetDropped(c: Config, path: string)
    requires ValidConfig(c) && NoVolumeSweepable(c) && Target(c, path)
    ensures !WorkerAccepts(c.driver, c.mount, path)
  {
    var h :| TargetEntry(c, path, h);
    var i :| 0 <= i < |c.sharedVolumes| && TrimSpace(c.sharedVolumes[i]) == h.volume;
    assert c.sharedVolumes[i] in c.sharedVolumes;
    MountPrefixExact(c.mount, h.volume, h.sub);
  }
}
