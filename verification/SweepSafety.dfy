/**
 What every interleaving keeps: handles keep their directories, only marked
 trees are removed, and no tree is lost or duplicated.
 */
module SweepSafety {
  import opened GoStrings
  import opened Paths
  import opened Markers
  import opened SweepModel

  /** No claim name is one that this driver's walker or the other's would queue. */
  ghost predicate ClaimsNotSwept(c: Config) {
    forall claim <- c.claims :: !IsSwept(c.driver, claim) && !IsSwept(c.other, claim)
  }

  /** The other driver's walker queues no marker of this driver. */
  ghost predicate MarkersApart(c: Config) {
    forall n :: IsMarker(c.driver, n) ==> !IsSwept(c.other, n)
  }

  /** Neither the other driver's claims nor its markers look like markers of this driver. */
  ghost predicate DriversApart(c: Config) {
    forall claim <- c.otherClaims ::
      && !IsMarker(c.driver, claim) && !IsMarker(c.driver, Marker(c.other, claim))
      && Marker(c.other, claim) !in c.claims
  }

  lemma NoMarkerWithoutUnderscore(driver: string, n: string)
    requires '_' !in n
    ensures !IsMarker(driver, n) && !IsSwept(driver, n)
  {
    var prefix := driver + DELETE_INFIX;
    assert prefix[|driver|] == '_';
    if IsSwept(driver, n) {
      SweptIsMarker(driver, n);
    }
  }

  /** No name is a marker of two drivers without underscores. */
  lemma NamesApart(driver: string, other: string, n: string)
    requires driver != other && '_' !in driver && '_' !in other && IsMarker(driver, n)
    ensures !IsMarker(other, n) && !IsSwept(other, n)
  {
    var d, o := driver + DELETE_INFIX, other + DELETE_INFIX;
    if IsMarker(other, n) {
      var x, y := n[|d|..], n[|o|..];
      assert n == driver + "_" + ("delete_" + x) && n == other + "_" + ("delete_" + y);
      FirstUnderscore(driver, "delete_" + x, other, "delete_" + y);
    }
    if IsSwept(other, n) {
      SweptIsMarker(other, n);
    }
  }

  /** Different driver names and claim names without underscores keep the drivers apart. */
  lemma UnderscoreFreeApart(c: Config)
    requires c.driver != c.other && '_' !in c.driver && '_' !in c.other
    requires forall claim <- c.claims + c.otherClaims :: '_' !in claim
    ensures DriversApart(c) && ClaimsNotSwept(c) && ClaimsNotMarkers(c) && MarkersApart(c)
  {
    forall claim | claim in c.claims + c.otherClaims
      ensures !IsMarker(c.driver, claim) && !IsSwept(c.driver, claim) && !IsSwept(c.other, claim)
    {
      NoMarkerWithoutUnderscore(c.driver, claim);
      NoMarkerWithoutUnderscore(c.other, claim);
    }
    forall n | IsMarker(c.driver, n) ensures !IsSwept(c.other, n) {
      NamesApart(c.driver, c.other, n);
    }
    forall claim | claim in c.otherClaims
      ensures !IsMarker(c.driver, Marker(c.other, claim)) && Marker(c.other, claim) !in c.claims
    {
      assert Marker(c.other, claim) == c.other + "_" + ("delete_" + claim);
      assert Marker(c.other, claim)[|c.other|] == '_';
      FirstUnderscore(c.driver, "delete_", c.other, "delete_" + claim);
    }
  }

  /** No claim name looks like a marker at all. */
  ghost predicate ClaimsNotMarkers(c: Config) {
    forall claim <- c.claims :: !IsMarker(c.driver, claim)
  }

  /** All that claims need to be safe from the sweeps. */
  ghost predicate Safe(c: Config) {
    ValidConfig(c) && ClaimsNotSwept(c)
  }

  /** Needed besides where it is counted which trees were marked. */
  ghost predicate Apart(c: Config) {
    Safe(c) && DriversApart(c)
  }

  ghost predicate PlainEntries(fs: FileSystem) {
    forall h <- fs :: Plain(h.volume) && Plain(h.sub)
  }

  /** Every tree ever created is still somewhere, or was removed by one driver, and sits in one place only. */
  ghost predicate Tally(fs: FileSystem, removed: set<nat>, otherRemoved: set<nat>, born: nat) {
    && Distinct(fs) && IdsOf(fs) !! removed !! otherRemoved
    && IdsOf(fs) + removed + otherRemoved == Below(born)
  }

  /** Only marked trees sit under swept names or were removed. */
  ghost predicate OnlyMarkedSwept(c: Config, fs: FileSystem, marked: set<nat>, removed: set<nat>) {
    && (forall h <- fs :: IsSwept(c.driver, h.sub) ==> fs[h].id in marked)
    && removed <= marked
  }

  /** Every handle handed out has its directory. */
  ghost predicate HandlesIntact(fs: FileSystem, live: set<Entry>) {
    live <= fs.Keys
  }

  /** What the walker may send: the path of an entry with a swept name in a listed volume. */
  ghost predicate Target(c: Config, path: string) {
    exists h :: TargetEntry(c, path, h)
  }

  ghost predicate TargetEntry(c: Config, path: string, h: Entry) {
    && Plain(h.volume) && Plain(h.sub) && path == PathOf(c, h)
    && IsSwept(c.driver, h.sub) && ListedFrom(c, h.volume, 0)
  }

  /** The volume is configured for sweeping, at or after the given position. */
  ghost predicate ListedFrom(c: Config, volume: string, from: nat) {
    exists i :: from <= i < |c.sharedVolumes| && TrimSpace(c.sharedVolumes[i]) == volume
  }

  /** The walker and the workers only hold what was listed and recognised. */
  ghost predicate Work(c: Config, queue: seq<string>, walker: Walker, workers: seq<Worker>) {
    && |workers| == c.parallelDeletes
    && |queue| <= c.parallelDeletes
    && (forall q <- queue :: Target(c, q))
    && (forall w <- workers :: w.Holding? ==> Target(c, w.path))
    && (walker.Opening? ==> walker.i <= |c.sharedVolumes|)
    && (walker.Listing? ==>
          && walker.i < |c.sharedVolumes| && TrimSpace(c.sharedVolumes[walker.i]) != ""
          && forall n <- walker.names :: Plain(n))
  }

  ghost predicate FilesOk(c: Config, s: State) {
    && PlainEntries(s.fs) && Tally(s.fs, s.removed, s.otherRemoved, s.born)
    && OnlyMarkedSwept(c, s.fs, s.marked, s.removed) && HandlesIntact(s.fs, s.live)
    && (forall h <- s.live :: h.sub in c.claims)
  }

  /** What every run keeps, whatever claims are called. */
  ghost predicate Orderly(c: Config, s: State) {
    PlainEntries(s.fs) && Work(c, s.queue, s.walker, s.workers)
  }

  /** What every run keeps as long as no claim is named like a swept marker. */
  ghost predicate Standing(c: Config, s: State) {
    Orderly(c, s) && HandlesIntact(s.fs, s.live) && forall h <- s.live :: h.sub in c.claims
  }

  ghost predicate Inv(c: Config, s: State) {
    FilesOk(c, s) && Work(c, s.queue, s.walker, s.workers)
  }

  /** What the walker sends for a listed name is the path of the shared volume's entry. */
  lemma SentPath(c: Config, i: nat, n: string)
    requires ValidConfig(c) && i < |c.sharedVolumes| && TrimSpace(c.sharedVolumes[i]) != "" && Plain(n)
    ensures JoinPath([VolumePath(c, i), n]) == PathOf(c, Entry(TrimSpace(c.sharedVolumes[i]), n))
  {
    var v := TrimSpace(c.sharedVolumes[i]);
    assert Plain(v);
    JoinNested(c.mount, v, n);
  }

  lemma UnderVolume(c: Config, i: nat)
    requires ValidConfig(c) && i < |c.sharedVolumes| && TrimSpace(c.sharedVolumes[i]) != ""
    ensures Under(VolumePath(c, i)) == Under(c.mount) + TrimSpace(c.sharedVolumes[i]) + "/"
  {
    var v := TrimSpace(c.sharedVolumes[i]);
    assert Plain(v);
    JoinTwo(c.mount, v);
    CleanAppend(c.mount, v);
    CleanIdempotent(c.mount + "/" + v);
  }

  lemma MiddleCancel(d: string, a: string, b: string)
    ensures d + a + "/" == d + b + "/" <==> a == b
  {
    assert (d + a + "/")[|d|..] == a + "/" && (d + b + "/")[|d|..] == b + "/";
    assert (a + "/")[..|a|] == a && (b + "/")[..|b|] == b;
  }

  /** Listing the i-th shared volume finds the entries of that volume. */
  lemma ListedExactly(c: Config, i: nat, h: Entry)
    requires ValidConfig(c) && i < |c.sharedVolumes| && TrimSpace(c.sharedVolumes[i]) != ""
    requires Plain(h.volume) && Plain(h.sub)
    ensures DirPart(PathOf(c, h)) == Under(VolumePath(c, i)) <==> h.volume == TrimSpace(c.sharedVolumes[i])
  {
    JoinThree(c.mount, h.volume, h.sub);
    UnderVolume(c, i);
    MiddleCancel(Under(c.mount), h.volume, TrimSpace(c.sharedVolumes[i]));
  }

  /** Removing an entry's path reaches that entry and nothing else. */
  lemma ReachesOne(c: Config, fs: FileSystem, k: Entry)
    requires c.mount != "" && Plain(k.volume) && Plain(k.sub) && PlainEntries(fs)
    ensures Reached(c, fs, PathOf(c, k)) == if k in fs then {k} else {}
  {
    forall h | h in fs ensures Reaches(c, PathOf(c, k), h) <==> h == k {
      NotNested(c.mount, k.volume, k.sub, h.volume, h.sub);
      if PathOf(c, h) == PathOf(c, k) {
        JoinThreeInjective(c.mount, k.volume, k.sub, h.volume, h.sub);
      }
    }
  }

  /** A rename carries the one tree over and leaves every other entry alone. */
  lemma RenameIds(fs: FileSystem, from: Entry, to: Entry)
    requires from in fs && to !in fs
    ensures IdsOf((fs - {from})[to := fs[from]]) == IdsOf(fs)
  {
    var fs' := (fs - {from})[to := fs[from]];
    forall h | h in fs ensures fs[h].id in IdsOf(fs') {
      if h == from { assert fs'[to] == fs[h]; } else { assert fs'[h] == fs[h]; }
    }
  }

  lemma CreateKeeps(c: Config, s: State, h: Entry, issued: bool)
    requires Apart(c) && FilesOk(c, s) && Plain(h.volume)
    requires h.sub in c.claims || (h.sub in c.otherClaims && !issued)
    ensures FilesOk(c, DoCreate(s, h, issued))
  {
    assert !IsSwept(c.driver, h.sub) by {
      if IsSwept(c.driver, h.sub) {
        SweptIsMarker(c.driver, h.sub);
      }
    }
    if h !in s.fs {
      BornIds(s.fs, s.removed, s.otherRemoved, s.born, h);
    }
  }

  /** A new tree joins the tally. */
  lemma BornIds(fs: FileSystem, removed: set<nat>, otherRemoved: set<nat>, born: nat, h: Entry)
    requires Tally(fs, removed, otherRemoved, born) && h !in fs
    ensures Tally(fs[h := Tree(born, "")], removed, otherRemoved, born + 1)
  {
    var fs' := fs[h := Tree(born, "")];
    forall k | k in fs ensures fs[k].id < born && fs[k].id in IdsOf(fs') {
      assert fs[k].id in IdsOf(fs) && fs'[k] == fs[k];
    }
    assert fs'[h].id == born;
    assert IdsOf(fs') == IdsOf(fs) + {born};
  }

  lemma DeleteKeeps(c: Config, s: State, h: Entry)
    requires Apart(c) && FilesOk(c, s) && Enabled(c, s, Delete(h))
    ensures FilesOk(c, DoDelete(c, s, h))
  {
    MarkerIsPlain(c.driver, h.sub);
    if h in s.fs && MarkerOf(c, h) !in s.fs {
      RenameIds(s.fs, h, MarkerOf(c, h));
    }
  }

  lemma OtherDeleteKeeps(c: Config, s: State, h: Entry)
    requires Apart(c) && FilesOk(c, s) && Enabled(c, s, OtherDelete(h))
    ensures FilesOk(c, DoOtherDelete(c, s, h))
  {
    var to := Entry(h.volume, Marker(c.other, h.sub));
    MarkerIsPlain(c.other, h.sub);
    if IsSwept(c.driver, to.sub) {
      SweptIsMarker(c.driver, to.sub);
    }
    if h in s.fs && to !in s.fs {
      RenameIds(s.fs, h, to);
    }
  }

  lemma SpoilIds(fs: FileSystem, hs: set<Entry>, left: string)
    ensures IdsOf(Spoil(fs, hs, left)) == IdsOf(fs)
    ensures forall h <- fs :: Spoil(fs, hs, left)[h].id == fs[h].id
  {
    var fs' := Spoil(fs, hs, left);
    forall h | h in fs ensures fs[h].id in IdsOf(fs') {
      assert fs'[h].id == fs[h].id;
    }
  }

  lemma SpoilKeeps(c: Config, s: State, hs: set<Entry>, left: string)
    requires FilesOk(c, s)
    ensures FilesOk(c, s.(fs := Spoil(s.fs, hs, left)))
  {
    SpoilIds(s.fs, hs, left);
  }

  lemma DropIds(fs: FileSystem, h: Entry)
    requires h in fs && Distinct(fs)
    ensures IdsOf(fs - {h}) == IdsOf(fs) - {fs[h].id}
  {
    var fs' := fs - {h};
    forall k | k in fs && k != h ensures fs[k].id in IdsOf(fs') {
      assert fs'[k] == fs[k];
    }
  }

  /** A worker's step removes one entry, spoils it half way, or does nothing; no other entry changes in any way. */
  lemma RemoveOutcome(c: Config, s: State, path: string, complete: bool, left: string) returns (h: Entry)
    requires ValidConfig(c) && PlainEntries(s.fs) && Target(c, path)
    ensures TargetEntry(c, path, h)
    ensures var s' := DoRemove(c, s, path, complete, left);
            || s' == s
            || (h in s.fs && s' == s.(fs := s.fs - {h}, removed := s.removed + {s.fs[h].id}))
            || s' == s.(fs := Spoil(s.fs, Reached(c, s.fs, path), left))
    ensures var s' := DoRemove(c, s, path, complete, left);
            forall k <- s.fs :: k != h ==> k in s'.fs && s'.fs[k] == s.fs[k]
  {
    h :| TargetEntry(c, path, h);
    ReachesOne(c, s.fs, h);
    RemovedIds(s.fs, h, Reached(c, s.fs, path));
    RemoveByReach(c, s, path, complete, left);
  }

  lemma RemovedIds(fs: FileSystem, h: Entry, hs: set<Entry>)
    requires hs == if h in fs then {h} else {}
    ensures h in fs ==> (set k | k in hs :: fs[k].id) == {fs[h].id}
    ensures h !in fs ==> hs == {} && fs - hs == fs
  {
  }

  /** A worker's step, by what the path reaches. */
  lemma RemoveByReach(c: Config, s: State, path: string, complete: bool, left: string)
    ensures var s', hs := DoRemove(c, s, path, complete, left), Reached(c, s.fs, path);
            || s' == s
            || (complete && s' == s.(fs := s.fs - hs, removed := s.removed + set k | k in hs :: s.fs[k].id))
            || (!complete && s' == s.(fs := Spoil(s.fs, hs, left)))
  {
  }

  /**
   What a worker does with an entry's path, exactly: if it accepts the path, the entry
   is gone, or holds whatever an interrupted removal left; nothing else changes.
   */
  lemma RemovalExactly(c: Config, s: State, h: Entry, complete: bool, left: string)
    requires ValidConfig(c) && PlainEntries(s.fs) && h in s.fs
    ensures var s', tree := DoRemove(c, s, PathOf(c, h), complete, left), s.fs[h];
            s' == if !WorkerAccepts(c.driver, c.mount, PathOf(c, h)) then s
                  else if complete then s.(fs := s.fs - {h}, removed := s.removed + {tree.id})
                  else s.(fs := s.fs[h := Tree(tree.id, left)])
  {
    ReachesOne(c, s.fs, h);
    RemovedIds(s.fs, h, {h});
    assert Spoil(s.fs, {h}, left) == s.fs[h := Tree(s.fs[h].id, left)];
  }

  lemma RemoveKeeps(c: Config, s: State, path: string, complete: bool, left: string)
    requires Apart(c) && FilesOk(c, s) && Target(c, path)
    ensures FilesOk(c, DoRemove(c, s, path, complete, left))
  {
    var h := RemoveOutcome(c, s, path, complete, left);
    SpoilKeeps(c, s, Reached(c, s.fs, path), left);
    if h in s.fs {
      DropIds(s.fs, h);
      assert s.fs[h].id in IdsOf(s.fs);
    }
  }

  lemma OtherRemoveKeeps(c: Config, s: State, h: Entry, complete: bool, left: string)
    requires Apart(c) && FilesOk(c, s) && Enabled(c, s, OtherRemove(h, complete, left))
    ensures FilesOk(c, DoOtherRemove(s, h, complete, left))
  {
    if complete {
      DropIds(s.fs, h);
      assert s.fs[h].id in IdsOf(s.fs);
      assert h !in s.live;
    } else {
      SpoilKeeps(c, s, {h}, left);
    }
  }

  /** Steps of the walker and the channel, and a restart. */
  predicate IsWalking(a: Action) {
    !a.Create? && !a.Write? && !a.Delete? && !a.OtherCreate? && !a.OtherDelete? && !a.OtherRemove? && !a.Remove?
  }

  lemma WalkKeeps(c: Config, s: State, a: Action)
    requires ValidConfig(c) && Orderly(c, s) && Enabled(c, s, a) && IsWalking(a)
    ensures Orderly(c, Do(c, s, a)) && Do(c, s, a).fs == s.fs && Do(c, s, a).live == s.live
    ensures FilesOk(c, s) ==> FilesOk(c, Do(c, s, a))
  {
    match a
    case Send =>
      var i, n := s.walker.i, s.walker.names[0];
      assert n in s.walker.names;
      SentPath(c, i, n);
      var h := Entry(TrimSpace(c.sharedVolumes[i]), n);
      assert TargetEntry(c, JoinPath([VolumePath(c, i), n]), h);
    case Receive(w) =>
      assert s.queue[0] in s.queue;
    case _ =>
  }

  /** Steps on files leave the sweep's work alone, but for a worker that is done. */
  lemma FileStepWork(c: Config, s: State, a: Action)
    requires Enabled(c, s, a) && !IsWalking(a) && Work(c, s.queue, s.walker, s.workers)
    ensures var s' := Do(c, s, a); Work(c, s'.queue, s'.walker, s'.workers)
  {
    if a.Remove? {
      RemoveLeavesWork(c, s, s.workers[a.w].path, a.complete, a.left);
    }
  }

  lemma RemoveLeavesWork(c: Config, s: State, path: string, complete: bool, left: string)
    ensures var s' := DoRemove(c, s, path, complete, left);
            && s'.walker == s.walker && s'.queue == s.queue && s'.workers == s.workers && s'.live == s.live
  {
  }

  lemma PlainKept(c: Config, s: State, a: Action)
    requires ValidConfig(c) && Orderly(c, s) && Enabled(c, s, a) && !IsWalking(a)
    ensures PlainEntries(Do(c, s, a).fs)
  {
    match a
    case Delete(h) => MarkerIsPlain(c.driver, h.sub);
    case OtherDelete(h) => MarkerIsPlain(c.other, h.sub);
    case Remove(w, complete, left) =>
      assert s.workers[w] in s.workers;
      var k := RemoveOutcome(c, s, s.workers[w].path, complete, left);
    case _ =>
  }

  lemma OrderlyKeeps(c: Config, s: State, a: Action)
    requires ValidConfig(c) && Orderly(c, s) && Enabled(c, s, a)
    ensures Orderly(c, Do(c, s, a))
  {
    if IsWalking(a) {
      WalkKeeps(c, s, a);
    } else {
      FileStepWork(c, s, a);
      PlainKept(c, s, a);
    }
  }

  /** One step: whatever is not under a swept name and is not deleted keeps its tree, which only writes change. */
  lemma EntryStays(c: Config, s: State, h: Entry, a: Action)
    requires ValidConfig(c) && Orderly(c, s) && Enabled(c, s, a) && h in s.fs
    requires !IsSwept(c.driver, h.sub) && !IsSwept(c.other, h.sub) && a != Delete(h) && a != OtherDelete(h)
    ensures h in Do(c, s, a).fs
    ensures Do(c, s, a).fs[h] == if a.Write? && a.h == h then s.fs[h].(content := a.content) else s.fs[h]
  {
    if a.Remove? {
      RemoveSpares(c, s, h, a.w, a.complete, a.left);
    } else if IsWalking(a) {
      WalkKeeps(c, s, a);
    }
  }

  lemma RemoveSpares(c: Config, s: State, h: Entry, w: nat, complete: bool, left: string)
    requires ValidConfig(c) && Orderly(c, s) && Enabled(c, s, Remove(w, complete, left))
    requires h in s.fs && !IsSwept(c.driver, h.sub)
    ensures var s' := Do(c, s, Remove(w, complete, left)); h in s'.fs && s'.fs[h] == s.fs[h]
  {
    assert s.workers[w] in s.workers;
    var k := RemoveOutcome(c, s, s.workers[w].path, complete, left);
  }

  /** Which handles are live after a step. */
  lemma LiveAfter(c: Config, s: State, a: Action)
    requires Enabled(c, s, a)
    ensures var s' := Do(c, s, a);
            && (forall h <- s'.live :: h in s.live || (a.Create? && a.h == h && h in s'.fs))
            && (a.Delete? && a.h in s'.live ==> a.h in s.live && s'.fs == s.fs)
  {
    if a.Remove? {
      RemoveLeavesWork(c, s, s.workers[a.w].path, a.complete, a.left);
    }
  }

  lemma StandingKeeps(c: Config, s: State, a: Action)
    requires Safe(c) && Standing(c, s) && Enabled(c, s, a)
    ensures Standing(c, Do(c, s, a))
  {
    OrderlyKeeps(c, s, a);
    LiveAfter(c, s, a);
    forall h | h in Do(c, s, a).live ensures h in Do(c, s, a).fs && h.sub in c.claims {
      if h in s.live && a != Delete(h) {
        EntryStays(c, s, h, a);
      }
    }
  }

  lemma {:induction false} RunStands(c: Config, s: State, run: seq<Action>)
    requires Safe(c) && Standing(c, s) && ValidRun(c, s, run)
    ensures Standing(c, After(c, s, run))
    decreases |run|
  {
    if run != [] {
      StandingKeeps(c, s, run[0]);
      RunStands(c, Do(c, s, run[0]), run[1..]);
    }
  }

  lemma StepKeeps(c: Config, s: State, a: Action)
    requires Apart(c) && Inv(c, s) && Enabled(c, s, a)
    ensures Inv(c, Do(c, s, a))
  {
    match a
    case Create(h, issued) => CreateKeeps(c, s, h, issued);
    case Write(h, content) => SpoilKeeps(c, s, {h}, content);
    case Delete(h) => DeleteKeeps(c, s, h);
    case OtherCreate(h) => CreateKeeps(c, s, h, false);
    case OtherDelete(h) => OtherDeleteKeeps(c, s, h);
    case OtherRemove(h, complete, left) => OtherRemoveKeeps(c, s, h, complete, left);
    case Remove(w, complete, left) =>
      assert s.workers[w] in s.workers;
      RemoveKeeps(c, s, s.workers[w].path, complete, left);
    case _ => WalkKeeps(c, s, a);
  }

  lemma StartInv(c: Config, s: State)
    requires ValidConfig(c) && Start(c, s)
    ensures Inv(c, s)
  {
    forall h | h in s.fs && IsSwept(c.driver, h.sub) ensures s.fs[h].id in s.marked {
      SweptIsMarker(c.driver, h.sub);
    }
  }

  lemma {:induction false} RunKeeps(c: Config, s: State, run: seq<Action>)
    requires Apart(c) && Inv(c, s) && ValidRun(c, s, run)
    ensures Inv(c, After(c, s, run))
    decreases |run|
  {
    if run != [] {
      StepKeeps(c, s, run[0]);
      RunKeeps(c, Do(c, s, run[0]), run[1..]);
    }
  }
}
