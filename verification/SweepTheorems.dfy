/**
 Safety of the sweep over whole runs: what is never removed, the exact condition
 on claim names, conservation of trees, and idempotent deletion.
 */
module SweepTheorems {
  import opened GoStrings
  import opened Paths
  import opened Markers
  import opened SweepModel
  import opened SweepSafety

  /**
   In every interleaving with the sweeps of both drivers, every handle still has
   its directory, every tree this driver removed had been renamed to a marker by a
   delete of this driver, and nothing it has queued or holds belongs to the other
   driver's claims or markers.
   */
  lemma SweepIsSafe(c: Config, s: State, run: seq<Action>)
    requires Apart(c) && Start(c, s) && ValidRun(c, s, run)
    ensures var s' := After(c, s, run);
            && HandlesIntact(s'.fs, s'.live)
            && s'.removed <= s'.marked
            && (forall q <- s'.queue :: NotForeign(c, q))
            && (forall w <- s'.workers :: w.Holding? ==> NotForeign(c, w.path))
  {
    StartInv(c, s);
    RunKeeps(c, s, run);
    var s' := After(c, s, run);
    forall q | q in s'.queue ensures NotForeign(c, q) {
      TargetNotForeign(c, q);
    }
    forall w | w in s'.workers && w.Holding? ensures NotForeign(c, w.path) {
      TargetNotForeign(c, w.path);
    }
  }

  /** A path that is neither a claim directory nor a marker of the other driver. */
  ghost predicate NotForeign(c: Config, path: string) {
    forall v, claim :: Plain(v) && claim in c.otherClaims ==>
      path != PathOf(c, Entry(v, claim)) && path != PathOf(c, Entry(v, Marker(c.other, claim)))
  }

  lemma TargetNotForeign(c: Config, path: string)
    requires Apart(c) && Target(c, path)
    ensures NotForeign(c, path)
  {
    var h :| TargetEntry(c, path, h);
    SweptIsMarker(c.driver, h.sub);
    forall v, claim | Plain(v) && claim in c.otherClaims
      ensures path != PathOf(c, Entry(v, claim)) && path != PathOf(c, Entry(v, Marker(c.other, claim)))
    {
      MarkerIsPlain(c.other, claim);
      if path == PathOf(c, Entry(v, claim)) {
        JoinThreeInjective(c.mount, h.volume, h.sub, v, claim);
      }
      if path == PathOf(c, Entry(v, Marker(c.other, claim))) {
        JoinThreeInjective(c.mount, h.volume, h.sub, v, Marker(c.other, claim));
      }
    }
  }

  /** The content a tree has after the pods' writes in a run. */
  function LastWritten(h: Entry, run: seq<Action>, content: string): string
    decreases |run|
  {
    if run == [] then content
    else LastWritten(h, run[1..], if run[0].Write? && run[0].h == h then run[0].content else content)
  }

  lemma ContentSteps(c: Config, s: State, h: Entry, a: Action)
    requires ValidConfig(c) && Orderly(c, s) && Enabled(c, s, a) && h in s.fs
    requires !IsSwept(c.driver, h.sub) && !IsSwept(c.other, h.sub) && a != Delete(h) && a != OtherDelete(h)
    ensures h in Do(c, s, a).fs
    ensures Do(c, s, a).fs[h] == Tree(s.fs[h].id, LastWritten(h, [a], s.fs[h].content))
  {
    assert [a][1..] == [];
    EntryStays(c, s, h, a);
  }

  /**
   No removal, complete or cut short, of this driver or the other, touches what a
   claim holds: through every run in which it is not deleted, a directory whose name
   is not swept keeps its tree, with exactly the content last written to it.
   */
  lemma {:induction false} ContentIsLastWritten(c: Config, s: State, h: Entry, run: seq<Action>)
    requires ValidConfig(c) && Orderly(c, s) && ValidRun(c, s, run) && h in s.fs
    requires !IsSwept(c.driver, h.sub) && !IsSwept(c.other, h.sub)
    requires forall a <- run :: a != Delete(h) && a != OtherDelete(h)
    ensures var fs' := After(c, s, run).fs;
            h in fs' && fs'[h] == Tree(s.fs[h].id, LastWritten(h, run, s.fs[h].content))
    decreases |run|
  {
    if run != [] {
      assert run[0] in run && forall a <- run[1..] :: a in run;
      assert [run[0]][1..] == [];
      ContentSteps(c, s, h, run[0]);
      OrderlyKeeps(c, s, run[0]);
      ContentIsLastWritten(c, Do(c, s, run[0]), h, run[1..]);
    }
  }

  /** So a handle's directory keeps what the pods wrote into it until the handle is deleted. */
  lemma ClaimKeepsItsContent(c: Config, s: State, h: Entry, run: seq<Action>)
    requires Safe(c) && Standing(c, s) && ValidRun(c, s, run) && h in s.live
    requires forall a <- run :: a != Delete(h)
    ensures var s' := After(c, s, run);
            h in s'.fs && s'.fs[h] == Tree(s.fs[h].id, LastWritten(h, run, s.fs[h].content))
  {
    OtherDeletesOthers(c, s, h, run);
    ContentIsLastWritten(c, s, h, run);
  }

  lemma {:induction false} OtherDeletesOthers(c: Config, s: State, h: Entry, run: seq<Action>)
    requires ValidConfig(c) && ValidRun(c, s, run) && h.sub in c.claims
    ensures forall a <- run :: a != OtherDelete(h)
    decreases |run|
  {
    if run != [] {
      OtherDeletesOthers(c, Do(c, s, run[0]), h, run[1..]);
      assert forall a <- run :: a == run[0] || a in run[1..];
    }
  }

  /** Some delete in the run moves the claim's directory away. */
  ghost predicate MovesAway(c: Config, s: State, h: Entry, run: seq<Action>)
    requires ValidRun(c, s, run)
    decreases |run|
  {
    run != [] &&
    ((run[0] == Delete(h) && Rename(s.fs, h, MarkerOf(c, h)).Moved?) || MovesAway(c, Do(c, s, run[0]), h, run[1..]))
  }

  /**
   A creation is not atomic: the call that finds or makes the directory returns its
   handle later, after a run of other steps. Exactly when the handle then comes
   without its directory: when a delete of the same claim moved it in between.
   */
  lemma {:induction false} LateHandle(c: Config, s: State, h: Entry, run: seq<Action>)
    requires Apart(c) && ClaimsNotMarkers(c) && Inv(c, s) && ValidRun(c, s, run)
    requires Plain(h.volume) && h.sub in c.claims && h in s.fs
    requires forall a <- run :: !(a.Create? && a.h == h)
    ensures h !in After(c, s, run).fs <==> MovesAway(c, s, h, run)
    decreases |run|
  {
    if run != [] {
      var a, s1 := run[0], Do(c, s, run[0]);
      assert a in run && forall b <- run[1..] :: b in run;
      StepKeeps(c, s, a);
      if a == Delete(h) && Rename(s.fs, h, MarkerOf(c, h)).Moved? {
        MarkerIsPlain(c.driver, h.sub);
        StaysAway(c, s1, h, run[1..]);
      } else {
        if a != Delete(h) {
          ContentSteps(c, s, h, a);
        }
        LateHandle(c, s1, h, run[1..]);
      }
    }
  }

  ghost predicate AlwaysIntact(c: Config) {
    forall s, run :: Start(c, s) && ValidRun(c, s, run) ==>
      HandlesIntact(After(c, s, run).fs, After(c, s, run).live)
  }

  /**
   Exactly when claims are safe from the sweeps: with the sweeper running on some
   volume below a clean mount path, handles always keep their directories if and
   only if no claim name starts with `<driver>_delete_pvc-`, for either driver.
   */
  lemma SafeExactlyWithoutSweptClaims(c: Config)
    requires ValidConfig(c) && c.parallelDeletes > 0 && SweepableMount(c.mount)
    requires exists i :: 0 <= i < |c.sharedVolumes| && TrimSpace(c.sharedVolumes[i]) != ""
    ensures AlwaysIntact(c) <==> ClaimsNotSwept(c)
  {
    if ClaimsNotSwept(c) {
      forall s, run | Start(c, s) && ValidRun(c, s, run)
        ensures HandlesIntact(After(c, s, run).fs, After(c, s, run).live)
      {
        StartInv(c, s);
        RunStands(c, s, run);
      }
    } else {
      var claim :| claim in c.claims && (IsSwept(c.driver, claim) || IsSwept(c.other, claim));
      if IsSwept(c.other, claim) {
        var s, run := OtherSweptClaimIsLost(c, claim);
      } else {
        var i :| 0 <= i < |c.sharedVolumes| && TrimSpace(c.sharedVolumes[i]) != "";
        var first := FirstVolume(c, i);
        var s, run := SweptClaimIsLost(c, claim, first);
      }
    }
  }

  lemma {:induction false} FirstVolume(c: Config, i: nat) returns (first: nat)
    requires i < |c.sharedVolumes| && TrimSpace(c.sharedVolumes[i]) != ""
    ensures IsFirstVolume(c, first)
  {
    if k :| 0 <= k < i && TrimSpace(c.sharedVolumes[k]) != "" {
      first := FirstVolume(c, k);
    } else {
      first := i;
    }
  }

  /** The first configured volume that is not blank. */
  ghost predicate IsFirstVolume(c: Config, first: nat) {
    && first < |c.sharedVolumes| && TrimSpace(c.sharedVolumes[first]) != ""
    && forall k :: 0 <= k < first ==> TrimSpace(c.sharedVolumes[k]) == ""
  }

  /** A driver that just started, on volumes with nothing in them. */
  ghost function Empty(c: Config): State {
    State(map[], {}, 0, {}, {}, {}, [], Sleeping, seq(c.parallelDeletes, _ => Idle))
  }

  lemma EmptyStarts(c: Config)
    ensures Start(c, Empty(c))
  {
    assert IdsOf(Empty(c).fs) == {} == Below(0) && MarkerIds(c, Empty(c).fs) == {};
  }

  /** Two steps in which the other driver's sweep takes a claim's directory for a marker of its own. */
  lemma OtherSweptClaimIsLost(c: Config, claim: string) returns (s: State, run: seq<Action>)
    requires ValidConfig(c) && claim in c.claims && IsSwept(c.other, claim)
    ensures Start(c, s) && ValidRun(c, s, run)
    ensures !HandlesIntact(After(c, s, run).fs, After(c, s, run).live)
  {
    var h := Entry("v", claim);
    s := Empty(c);
    EmptyStarts(c);
    var s1 := OneClaim(c, h);
    assert s1 == Do(c, s, Create(h, true));
    var remove := OtherRemove(h, true, "");
    assert h in Do(c, s1, remove).live && h !in Do(c, s1, remove).fs;
    Prepend(c, s1, remove, []);
    Prepend(c, s, Create(h, true), [remove] + []);
    run := [Create(h, true)] + ([remove] + []);
  }

  lemma Prepend(c: Config, s: State, a: Action, rest: seq<Action>)
    requires Enabled(c, s, a) && ValidRun(c, Do(c, s, a), rest)
    ensures ValidRun(c, s, [a] + rest) && After(c, s, [a] + rest) == After(c, Do(c, s, a), rest)
  {
    assert ([a] + rest)[1..] == rest;
  }

  /** One claim, created on a volume of a fresh driver. */
  ghost function OneClaim(c: Config, h: Entry): State {
    State(map[h := Tree(0, "")], {h}, 1, {}, {}, {}, [], Sleeping, seq(c.parallelDeletes, _ => Idle))
  }

  /** The steps in which the walker mistakes a claim's directory for a marker. */
  lemma SweptClaimIsLost(c: Config, claim: string, first: nat) returns (s: State, run: seq<Action>)
    requires ValidConfig(c) && c.parallelDeletes > 0 && SweepableMount(c.mount) && IsFirstVolume(c, first)
    requires claim in c.claims && IsSwept(c.driver, claim)
    ensures Start(c, s) && ValidRun(c, s, run)
    ensures !HandlesIntact(After(c, s, run).fs, After(c, s, run).live)
  {
    var h := Entry(TrimSpace(c.sharedVolumes[first]), claim);
    assert c.sharedVolumes[first] in c.sharedVolumes && Plain(h.volume);
    s := Empty(c);
    EmptyStarts(c);
    var s1 := OneClaim(c, h);
    assert s1 == Do(c, s, Create(h, true));
    run := SkipAndRemove(c, s1.(walker := Opening(0)), h, first);
    Prepend(c, s1, Wake, run);
    run := [Wake] + run;
    Prepend(c, s, Create(h, true), run);
    run := [Create(h, true)] + run;
  }

  /** A claim with a swept name on the first volume, and the walker on its way there. */
  ghost predicate Threatened(c: Config, s: State, h: Entry, first: nat) {
    && ValidConfig(c) && c.parallelDeletes > 0 && SweepableMount(c.mount) && PlainEntries(s.fs)
    && IsFirstVolume(c, first) && TrimSpace(c.sharedVolumes[first]) == h.volume
    && Plain(h.volume) && Plain(h.sub) && IsSwept(c.driver, h.sub) && h in s.fs && h in s.live
    && s.walker.Opening? && s.walker.i <= first && s.queue == [] && s.workers != [] && s.workers[0] == Idle
  }

  lemma {:induction false} SkipAndRemove(c: Config, s: State, h: Entry, first: nat) returns (run: seq<Action>)
    requires Threatened(c, s, h, first)
    ensures ValidRun(c, s, run)
    ensures var s' := After(c, s, run); h in s'.live && h !in s'.fs
    decreases first - s.walker.i
  {
    if s.walker.i == first {
      run := ListAndRemove(c, s, h, first);
    } else {
      SkipStep(c, s, h, first);
      run := SkipAndRemove(c, Do(c, s, SkipBlank), h, first);
      Prepend(c, s, SkipBlank, run);
      run := [SkipBlank] + run;
    }
  }

  lemma SkipStep(c: Config, s: State, h: Entry, first: nat)
    requires Threatened(c, s, h, first) && s.walker.i < first
    ensures Enabled(c, s, SkipBlank) && Threatened(c, Do(c, s, SkipBlank), h, first)
    ensures Do(c, s, SkipBlank).walker == Opening(s.walker.i + 1)
  {
  }

  lemma ListAndRemove(c: Config, s: State, h: Entry, first: nat) returns (run: seq<Action>)
    requires Threatened(c, s, h, first) && s.walker.i == first
    ensures ValidRun(c, s, run)
    ensures var s' := After(c, s, run); h in s'.live && h !in s'.fs
  {
    ListedExactly(c, first, h);
    assert h.sub in NamesIn(c, s.fs, VolumePath(c, first));
    var listed := s.(walker := Listing(first, [h.sub]));
    run := SendAndRemove(c, listed, h, first);
    assert Do(c, s, List([h.sub])) == listed;
    Prepend(c, s, List([h.sub]), run);
    run := [List([h.sub])] + run;
  }

  lemma SendAndRemove(c: Config, s: State, h: Entry, first: nat) returns (run: seq<Action>)
    requires ValidConfig(c) && c.parallelDeletes > 0 && SweepableMount(c.mount) && PlainEntries(s.fs)
    requires first < |c.sharedVolumes| && TrimSpace(c.sharedVolumes[first]) == h.volume
    requires Plain(h.volume) && Plain(h.sub) && IsSwept(c.driver, h.sub)
    requires s.walker == Listing(first, [h.sub]) && s.queue == [] && s.workers != [] && s.workers[0] == Idle
    requires h in s.live
    ensures ValidRun(c, s, run)
    ensures var s' := After(c, s, run); h in s'.live && h !in s'.fs
  {
    var path := PathOf(c, h);
    SentPath(c, first, h.sub);
    var sent := s.(walker := Listing(first, []), queue := [path]);
    var received := s.(walker := Listing(first, []), workers := s.workers[0 := Holding(path)]);
    assert [h.sub][1..] == [] && [path][1..] == [] && [] + [path] == [path];
    assert Do(c, s, Send) == sent;
    assert Do(c, sent, Receive(0)) == received;
    var last := Remove(0, true, "");
    RemoveLast(c, received, h);
    run := [];
    Prepend(c, received, last, run);
    run := [last] + run;
    Prepend(c, sent, Receive(0), run);
    run := [Receive(0)] + run;
    Prepend(c, s, Send, run);
    run := [Send] + run;
  }

  lemma RemoveLast(c: Config, s: State, h: Entry)
    requires ValidConfig(c) && SweepableMount(c.mount) && PlainEntries(s.fs)
    requires Plain(h.volume) && Plain(h.sub) && IsSwept(c.driver, h.sub)
    requires s.workers != [] && s.workers[0] == Holding(PathOf(c, h))
    ensures var s' := Do(c, s, Remove(0, true, "")); s'.live == s.live && h !in s'.fs
  {
    var path := PathOf(c, h);
    SweptIsTaken(c, h);
    assert h !in DoRemove(c, s, path, true, "").fs by {
      ReachesOne(c, s.fs, h);
    }
  }

  lemma SweptIsTaken(c: Config, h: Entry)
    requires ValidConfig(c) && SweepableMount(c.mount) && Plain(h.volume) && Plain(h.sub) && IsSwept(c.driver, h.sub)
    ensures WorkerAccepts(c.driver, c.mount, PathOf(c, h))
  {
    MountIsPrefix(c.mount, h.volume, h.sub);
    JoinThree(c.mount, h.volume, h.sub);
    SweptIsMarker(c.driver, h.sub);
  }

  /**
   Leaving aside what the other driver removed, a tree is marked exactly when it
   sits under a marker name or was removed; and the other driver removes none of
   them when it queues no marker of this driver.
   */
  ghost predicate MarksExact(c: Config, s: State) {
    && s.marked - s.otherRemoved == MarkerIds(c, s.fs) + s.removed
    && (MarkersApart(c) ==> s.marked !! s.otherRemoved)
  }

  lemma MoveMarks(c: Config, fs: FileSystem, from: Entry, to: Entry)
    requires from in fs && to !in fs && Distinct(fs) && !IsMarker(c.driver, from.sub)
    ensures MarkerIds(c, (fs - {from})[to := fs[from]]) ==
            MarkerIds(c, fs) + if IsMarker(c.driver, to.sub) then {fs[from].id} else {}
  {
    var fs' := (fs - {from})[to := fs[from]];
    forall h | h in fs && h != from ensures fs'[h] == fs[h] {
    }
    assert fs'[to] == fs[from];
    forall id | id in MarkerIds(c, fs) ensures id in MarkerIds(c, fs') {
      var h :| h in fs && IsMarker(c.driver, h.sub) && fs[h].id == id;
      assert fs'[h].id == id;
    }
  }

  lemma StepMarks(c: Config, s: State, a: Action)
    requires Apart(c) && ClaimsNotMarkers(c) && Inv(c, s) && MarksExact(c, s) && Enabled(c, s, a)
    ensures MarksExact(c, Do(c, s, a))
  {
    match a
    case Create(h, issued) =>
      if h !in s.fs { CreateMarks(c, s.fs, h, s.born); }
    case OtherCreate(h) =>
      if h !in s.fs { CreateMarks(c, s.fs, h, s.born); }
    case Write(h, content) => SpoilMarks(c, s.fs, {h}, content);
    case Delete(h) =>
      MarkerIsPlain(c.driver, h.sub);
      if h in s.fs && MarkerOf(c, h) !in s.fs {
        MoveMarks(c, s.fs, h, MarkerOf(c, h));
      }
    case OtherDelete(h) =>
      var to := Entry(h.volume, Marker(c.other, h.sub));
      if h in s.fs && to !in s.fs {
        MoveMarks(c, s.fs, h, to);
      }
    case OtherRemove(h, complete, left) => OtherRemoveMarks(c, s, h, complete, left);
    case Remove(w, complete, left) =>
      assert s.workers[w] in s.workers;
      RemoveMarks(c, s, s.workers[w].path, complete, left);
    case _ =>
  }

  lemma CreateMarks(c: Config, fs: FileSystem, h: Entry, born: nat)
    requires !IsMarker(c.driver, h.sub) && h !in fs
    ensures MarkerIds(c, fs[h := Tree(born, "")]) == MarkerIds(c, fs)
  {
    var fs' := fs[h := Tree(born, "")];
    forall id | id in MarkerIds(c, fs) ensures id in MarkerIds(c, fs') {
      var k :| k in fs && IsMarker(c.driver, k.sub) && fs[k].id == id;
      assert fs'[k].id == id;
    }
  }

  lemma SpoilMarks(c: Config, fs: FileSystem, hs: set<Entry>, left: string)
    ensures MarkerIds(c, Spoil(fs, hs, left)) == MarkerIds(c, fs)
  {
    var fs' := Spoil(fs, hs, left);
    forall id | id in MarkerIds(c, fs) ensures id in MarkerIds(c, fs') {
      var k :| k in fs && IsMarker(c.driver, k.sub) && fs[k].id == id;
      assert fs'[k].id == id;
    }
  }

  lemma DropMarks(c: Config, fs: FileSystem, h: Entry)
    requires h in fs && Distinct(fs) && IsMarker(c.driver, h.sub)
    ensures MarkerIds(c, fs - {h}) == MarkerIds(c, fs) - {fs[h].id}
  {
    var fs' := fs - {h};
    forall id | id in MarkerIds(c, fs) && id != fs[h].id ensures id in MarkerIds(c, fs') {
      var k :| k in fs && IsMarker(c.driver, k.sub) && fs[k].id == id;
      assert fs'[k].id == id;
    }
  }

  lemma RemoveMarks(c: Config, s: State, path: string, complete: bool, left: string)
    requires Apart(c) && FilesOk(c, s) && MarksExact(c, s) && Target(c, path)
    ensures MarksExact(c, DoRemove(c, s, path, complete, left))
  {
    var h := RemoveOutcome(c, s, path, complete, left);
    SpoilMarks(c, s.fs, Reached(c, s.fs, path), left);
    if h in s.fs {
      SweptIsMarker(c.driver, h.sub);
      DropMarks(c, s.fs, h);
      assert s.fs[h].id in MarkerIds(c, s.fs);
    }
  }

  lemma OtherRemoveMarks(c: Config, s: State, h: Entry, complete: bool, left: string)
    requires Apart(c) && FilesOk(c, s) && MarksExact(c, s) && Enabled(c, s, OtherRemove(h, complete, left))
    ensures MarksExact(c, DoOtherRemove(s, h, complete, left))
  {
    SpoilMarks(c, s.fs, {h}, left);
    assert s.fs[h].id in IdsOf(s.fs);
    if IsMarker(c.driver, h.sub) {
      DropMarks(c, s.fs, h);
      assert s.fs[h].id in MarkerIds(c, s.fs);
    } else {
      DropPlain(c, s.fs, h);
    }
  }

  lemma DropPlain(c: Config, fs: FileSystem, h: Entry)
    requires h in fs && Distinct(fs) && !IsMarker(c.driver, h.sub)
    ensures MarkerIds(c, fs - {h}) == MarkerIds(c, fs) && fs[h].id !in MarkerIds(c, fs)
  {
    var fs' := fs - {h};
    forall id | id in MarkerIds(c, fs) ensures id in MarkerIds(c, fs') {
      var k :| k in fs && IsMarker(c.driver, k.sub) && fs[k].id == id;
      assert fs'[k].id == id;
    }
  }

  lemma {:induction false} RunMarks(c: Config, s: State, run: seq<Action>)
    requires Apart(c) && ClaimsNotMarkers(c) && Inv(c, s) && MarksExact(c, s) && ValidRun(c, s, run)
    ensures Inv(c, After(c, s, run)) && MarksExact(c, After(c, s, run))
    decreases |run|
  {
    if run != [] {
      StepKeeps(c, s, run[0]);
      StepMarks(c, s, run[0]);
      RunMarks(c, Do(c, s, run[0]), run[1..]);
    }
  }

  /**
   Conservation over every run: each tree ever created is in exactly one of four
   places: under an ordinary name, under a marker name, removed, or removed by the
   other driver. The trees a delete renamed are those in the middle two, besides
   what the other driver took, which is none of them if it queues no marker of this
   driver; so no handle's tree is among them.
   */
  lemma TreesAreConserved(c: Config, s: State, run: seq<Action>)
    requires Apart(c) && ClaimsNotMarkers(c) && Start(c, s) && ValidRun(c, s, run)
    ensures var s' := After(c, s, run);
            && PlainIds(c, s'.fs) + MarkerIds(c, s'.fs) + s'.removed + s'.otherRemoved == Below(s'.born)
            && PlainIds(c, s'.fs) !! MarkerIds(c, s'.fs) !! s'.removed !! s'.otherRemoved
            && Distinct(s'.fs)
            && s'.marked - s'.otherRemoved == MarkerIds(c, s'.fs) + s'.removed
            && (MarkersApart(c) ==> s'.marked == MarkerIds(c, s'.fs) + s'.removed)
            && (forall h <- s'.live :: h in s'.fs && s'.fs[h].id !in s'.marked)
  {
    StartInv(c, s);
    RunMarks(c, s, run);
    var s' := After(c, s, run);
    PlainOrMarker(c, s'.fs);
    forall h | h in s'.live ensures h in s'.fs && s'.fs[h].id !in s'.marked {
      assert s'.fs[h].id in IdsOf(s'.fs) && s'.fs[h].id in PlainIds(c, s'.fs);
    }
  }

  /** A tree sits under an ordinary name or under a marker name, not both. */
  lemma PlainOrMarker(c: Config, fs: FileSystem)
    requires Distinct(fs)
    ensures PlainIds(c, fs) + MarkerIds(c, fs) == IdsOf(fs) && PlainIds(c, fs) !! MarkerIds(c, fs)
  {
    forall h | h in fs ensures fs[h].id in PlainIds(c, fs) + MarkerIds(c, fs) {
    }
  }

  /**
   One delete: a claim's directory moves, contents and all, to a marker that did
   not exist; an existing marker is never overwritten and the claim stays live;
   a missing directory counts as deleted. Nothing else changes.
   */
  lemma DeleteMovesOneTree(c: Config, s: State, h: Entry)
    requires Apart(c) && ClaimsNotMarkers(c) && Inv(c, s) && Enabled(c, s, Delete(h))
    ensures var s', m := DoDelete(c, s, h), MarkerOf(c, h);
            && m != h
            && (forall k <- s.fs :: k != h ==> k in s'.fs && s'.fs[k] == s.fs[k])
            && (forall k <- s'.fs :: k != m ==> k in s.fs)
            && (h in s.fs && m !in s.fs ==> h !in s'.fs && m in s'.fs && s'.fs[m] == s.fs[h])
            && (h !in s.fs || m in s.fs ==> s'.fs == s.fs)
            && (h in s'.live <==> h in s.live && !DeleteSucceeds(c, s, h))
  {
    MarkerIsPlain(c.driver, h.sub);
  }

  /**
   After a delete that succeeded, the claim's directory stays away through any
   run that does not create it again, so repeating the delete at any later time
   succeeds and changes nothing.
   */
  lemma RepeatedDeleteChangesNothing(c: Config, s: State, h: Entry, run: seq<Action>)
    requires Apart(c) && ClaimsNotMarkers(c) && Inv(c, s) && Enabled(c, s, Delete(h))
    requires DeleteSucceeds(c, s, h)
    requires ValidRun(c, DoDelete(c, s, h), run)
    requires forall a <- run :: !(a.Create? && a.h == h)
    ensures var s' := After(c, DoDelete(c, s, h), run); DeleteSucceeds(c, s', h) && DoDelete(c, s', h) == s'
  {
    DeleteMovesOneTree(c, s, h);
    var s1 := DoDelete(c, s, h);
    StepKeeps(c, s, Delete(h));
    StaysAway(c, s1, h, run);
    var s' := After(c, s1, run);
    assert s'.live - {h} == s'.live;
  }

  lemma {:induction false} StaysAway(c: Config, s: State, h: Entry, run: seq<Action>)
    requires Apart(c) && ClaimsNotMarkers(c) && Inv(c, s) && h.sub in c.claims && h !in s.fs
    requires ValidRun(c, s, run) && forall a <- run :: !(a.Create? && a.h == h)
    ensures h !in After(c, s, run).fs && h !in After(c, s, run).live
    decreases |run|
  {
    if run != [] {
      assert run[0] in run && forall b <- run[1..] :: b in run;
      StepKeeps(c, s, run[0]);
      StaysAwayStep(c, s, h, run[0]);
      StaysAway(c, Do(c, s, run[0]), h, run[1..]);
    }
  }

  lemma StaysAwayStep(c: Config, s: State, h: Entry, a: Action)
    requires ValidConfig(c) && ClaimsNotMarkers(c) && Orderly(c, s) && h.sub in c.claims && h !in s.fs
    requires forall claim <- c.otherClaims :: Marker(c.other, claim) !in c.claims
    requires Enabled(c, s, a) && !(a.Create? && a.h == h)
    ensures h !in Do(c, s, a).fs
  {
    if a.Remove? {
      RemoveByReach(c, s, s.workers[a.w].path, a.complete, a.left);
    } else if IsWalking(a) {
      WalkKeeps(c, s, a);
    } else if a.Delete? {
      MarkerIsPlain(c.driver, a.h.sub);
    }
  }
}
