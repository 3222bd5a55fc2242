/**
 The walker's and the worker's loops as the program runs them, one round and one
 channel's worth at a time, and their agreement with the state machine's steps.
 */
module SweepLoops {
  import opened GoStrings
  import opened Paths
  import opened Markers
  import opened SweepModel

  /** The paths sent for one listing: its swept names, in order. */
  function SentFor(c: Config, i: nat, names: seq<string>): seq<string>
    requires i < |c.sharedVolumes|
  {
    if names == [] then []
    else (if IsSwept(c.driver, names[0]) then [JoinPath([VolumePath(c, i), names[0]])] else [])
         + SentFor(c, i, names[1..])
  }

  /** The paths sent for one configured volume; a blank entry of the list is skipped. */
  function VolumeSends(c: Config, i: nat, names: seq<string>): seq<string>
    requires i < |c.sharedVolumes|
  {
    if TrimSpace(c.sharedVolumes[i]) == "" then [] else SentFor(c, i, names)
  }

  /** The paths sent from the i-th volume on, given what listing each volume returned. */
  function RoundFrom(c: Config, listings: seq<seq<string>>, i: nat): seq<string>
    requires |listings| == |c.sharedVolumes|
    decreases |listings| - i
  {
    if i >= |listings| then []
    else VolumeSends(c, i, listings[i]) + RoundFrom(c, listings, i + 1)
  }

  lemma Associative(a: seq<string>, b: seq<string>, c: seq<string>)
    ensures a + (b + c) == (a + b) + c
  {
  }

  /** One round of the walker over the configured volumes. */
  method WalkRound(c: Config, listings: seq<seq<string>>) returns (sent: seq<string>)
    requires |listings| == |c.sharedVolumes|
    ensures sent == RoundFrom(c, listings, 0)
  {
    sent := [];
    var i := 0;
    while i < |c.sharedVolumes|
      invariant 0 <= i <= |c.sharedVolumes|
      invariant sent + RoundFrom(c, listings, i) == RoundFrom(c, listings, 0)
    {
      var queued := VisitVolume(c, i, listings[i]);
      Associative(sent, queued, RoundFrom(c, listings, i + 1));
      sent := sent + queued;
      i := i + 1;
    }
  }

  /** A listing shows a deleted claim called `pvc-` and something, and where that lies. */
  ghost predicate ShowsAt(c: Config, files: seq<string>, i: nat, rest: string, path: string)
    requires i < |c.sharedVolumes|
  {
    var file := c.driver + "_delete_pvc-" + rest;
    TrimSpace(c.sharedVolumes[i]) != "" && file in files && path == JoinPath([VolumePath(c, i), file])
  }

  /** The walker in one volume: every name its directory listing showed. */
  method VisitVolume(c: Config, i: nat, files: seq<string>) returns (sent: seq<string>)
    requires i < |c.sharedVolumes|
    ensures sent == VolumeSends(c, i, files)
    ensures forall path :: path in sent <==> exists rest :: ShowsAt(c, files, i, rest, path)
  {
    sent := [];
    ShowsExactly(c, files, i);
    var sharedVolume := TrimSpace(c.sharedVolumes[i]);
    if sharedVolume == "" {
      return;
    }
    var volumePath := JoinPath([c.mount, sharedVolume]);
    var k := 0;
    while k < |files|
      invariant 0 <= k <= |files|
      invariant sent + SentFor(c, i, files[k..]) == SentFor(c, i, files)
    {
      var path := JoinPath([volumePath, files[k]]);
      assert files[k..][1..] == files[k + 1..];
      if HasPrefix(files[k], c.driver + "_delete_pvc-") {
        assert IsSwept(c.driver, files[k]);
        Associative(sent, [path], SentFor(c, i, files[k + 1..]));
        sent := sent + [path];
      }
      k := k + 1;
    }
  }

  lemma ShowsExactly(c: Config, files: seq<string>, i: nat)
    requires i < |c.sharedVolumes|
    ensures forall path :: path in VolumeSends(c, i, files) <==> exists rest :: ShowsAt(c, files, i, rest, path)
  {
    forall path ensures path in VolumeSends(c, i, files) <==> exists rest :: ShowsAt(c, files, i, rest, path) {
      VolumeExactly(c, i, files, path);
      if n :| SendsName(c, files, i, n, path) {
        SweptExactly(c.driver, n);
        var rest :| n == c.driver + "_delete_pvc-" + rest;
        assert ShowsAt(c, files, i, rest, path);
      }
      if rest :| ShowsAt(c, files, i, rest, path) {
        SweptExactly(c.driver, c.driver + "_delete_pvc-" + rest);
        assert SendsName(c, files, i, c.driver + "_delete_pvc-" + rest, path);
      }
    }
  }

  /** A path is sent exactly when it belongs to a swept name some non-blank volume's listing showed. */
  lemma {:induction false} SentExactly(c: Config, listings: seq<seq<string>>, from: nat, path: string)
    requires |listings| == |c.sharedVolumes|
    ensures path in RoundFrom(c, listings, from) <==>
            exists i, n :: from <= i < |listings| && SendsName(c, listings[i], i, n, path)
    decreases |listings| - from
  {
    if from < |listings| {
      SentExactly(c, listings, from + 1, path);
      var first, rest := VolumeSends(c, from, listings[from]), RoundFrom(c, listings, from + 1);
      assert path in first + rest <==> path in first || path in rest;
      VolumeExactly(c, from, listings[from], path);
      assert (exists i, n :: from <= i < |listings| && SendsName(c, listings[i], i, n, path)) <==>
             (exists n :: SendsName(c, listings[from], from, n, path)) ||
             (exists i, n :: from + 1 <= i < |listings| && SendsName(c, listings[i], i, n, path));
    }
  }

  ghost predicate SendsName(c: Config, names: seq<string>, i: nat, n: string, path: string) {
    && i < |c.sharedVolumes| && TrimSpace(c.sharedVolumes[i]) != ""
    && n in names && IsSwept(c.driver, n) && path == JoinPath([VolumePath(c, i), n])
  }

  lemma VolumeExactly(c: Config, i: nat, names: seq<string>, path: string)
    requires i < |c.sharedVolumes|
    ensures path in VolumeSends(c, i, names) <==> exists n :: SendsName(c, names, i, n, path)
  {
    if TrimSpace(c.sharedVolumes[i]) != "" {
      SentForExactly(c, i, names, path);
    }
  }

  lemma {:induction false} SentForExactly(c: Config, i: nat, names: seq<string>, path: string)
    requires i < |c.sharedVolumes| && TrimSpace(c.sharedVolumes[i]) != ""
    ensures path in SentFor(c, i, names) <==> exists n :: SendsName(c, names, i, n, path)
    decreases |names|
  {
    if names != [] {
      SentForExactly(c, i, names[1..], path);
      if n :| SendsName(c, names, i, n, path) {
        assert n == names[0] || SendsName(c, names[1..], i, n, path);
      }
      if n :| SendsName(c, names[1..], i, n, path) {
        assert SendsName(c, names, i, n, path);
      }
      if path in SentFor(c, i, names) && path !in SentFor(c, i, names[1..]) {
        assert SendsName(c, names, i, names[0], path);
      }
    }
  }

  /** The paths the walker sends during a run. */
  ghost function SentDuring(c: Config, s: State, run: seq<Action>): seq<string>
    requires ValidRun(c, s, run)
    decreases |run|
  {
    if run == [] then []
    else
      SentBy(c, s, run[0]) + SentDuring(c, Do(c, s, run[0]), run[1..])
  }

  /** What the walker will still send in this round when its listings turn out as given. */
  ghost function StillToSend(c: Config, walker: Walker, listings: seq<seq<string>>): seq<string>
    requires |listings| == |c.sharedVolumes|
  {
    match walker
    case Sleeping => []
    case Opening(i) => RoundFrom(c, listings, i)
    case Listing(i, names) => (if i < |listings| then SentFor(c, i, names) else []) + RoundFrom(c, listings, i + 1)
  }

  lemma {:induction false} RoundIgnoresEarlier(c: Config, a: seq<seq<string>>, b: seq<seq<string>>, i: nat)
    requires |a| == |b| == |c.sharedVolumes| && forall k :: i <= k < |a| ==> a[k] == b[k]
    ensures RoundFrom(c, a, i) == RoundFrom(c, b, i)
    decreases |a| - i
  {
    if i < |a| {
      RoundIgnoresEarlier(c, a, b, i + 1);
      RoundHead(c, a, i);
      RoundHead(c, b, i);
    }
  }

  lemma RoundHead(c: Config, listings: seq<seq<string>>, i: nat)
    requires i < |listings| == |c.sharedVolumes|
    ensures RoundFrom(c, listings, i) == VolumeSends(c, i, listings[i]) + RoundFrom(c, listings, i + 1)
  {
  }

  function SentBy(c: Config, s: State, a: Action): seq<string>
    requires Enabled(c, s, a)
  {
    if a.Send? then [JoinPath([VolumePath(c, s.walker.i), s.walker.names[0]])] else []
  }

  lemma HeadSent(c: Config, s: State, a: Action)
    requires Enabled(c, s, a) && (a.Send? || a.SkipName?) && s.walker.i < |c.sharedVolumes|
    ensures SentFor(c, s.walker.i, s.walker.names) == SentBy(c, s, a) + SentFor(c, s.walker.i, s.walker.names[1..])
    ensures Do(c, s, a).walker == Listing(s.walker.i, s.walker.names[1..])
  {
  }

  lemma NamesFollowLoop(c: Config, i: nat, names: seq<string>, rest: seq<string>,
                        sent: seq<string>, later: seq<seq<string>>)
    requires i < |c.sharedVolumes| == |later|
    requires SentFor(c, i, names) == sent + SentFor(c, i, rest)
    ensures StillToSend(c, Listing(i, names), later) == sent + StillToSend(c, Listing(i, rest), later)
  {
    StillListing(c, i, names, later);
    StillListing(c, i, rest, later);
    Associative(sent, SentFor(c, i, rest), RoundFrom(c, later, i + 1));
  }

  lemma StillListing(c: Config, i: nat, names: seq<string>, later: seq<seq<string>>)
    requires i < |c.sharedVolumes| == |later|
    ensures StillToSend(c, Listing(i, names), later) == SentFor(c, i, names) + RoundFrom(c, later, i + 1)
  {
  }

  lemma ListFollowsLoop(c: Config, s: State, names: seq<string>, later: seq<seq<string>>)
    requires Enabled(c, s, List(names)) && |later| == |c.sharedVolumes|
    ensures StillToSend(c, s.walker, later[s.walker.i := names]) == StillToSend(c, Listing(s.walker.i, names), later)
  {
    var i := s.walker.i;
    RoundIgnoresEarlier(c, later, later[i := names], i + 1);
  }

  /** What listing each volume returned during a run; nothing for a volume that was not listed. */
  ghost function ListingsOf(c: Config, s: State, run: seq<Action>): (listings: seq<seq<string>>)
    requires ValidRun(c, s, run)
    ensures |listings| == |c.sharedVolumes|
    decreases |run|
  {
    if run == [] then seq(|c.sharedVolumes|, _ => [])
    else
      var later := ListingsOf(c, Do(c, s, run[0]), run[1..]);
      if run[0].List? then later[s.walker.i := run[0].names] else later
  }

  /** A step that sends nothing and leaves the walker, or moves it to the next volume with nothing left in this one. */
  lemma QuietStep(c: Config, s: State, a: Action, later: seq<seq<string>>)
    requires Enabled(c, s, a) && |later| == |c.sharedVolumes| && (s.walker.Listing? ==> s.walker.i < |later|)
    requires !a.List? && !a.Send? && !a.SkipName? && !a.EndRound? && !a.Restart? && !a.Wake?
    ensures StillToSend(c, s.walker, later) == StillToSend(c, Do(c, s, a).walker, later)
  {
    if a.SkipBlank? {
      RoundHead(c, later, s.walker.i);
      assert VolumeSends(c, s.walker.i, later[s.walker.i]) == [];
    } else if a.CloseVolume? {
      StillListing(c, s.walker.i, [], later);
    } else {
      WalkerStays(c, s, a);
    }
  }

  lemma WalkerStays(c: Config, s: State, a: Action)
    requires Enabled(c, s, a) && !a.List? && !a.Send? && !a.SkipName? && !a.EndRound? && !a.Restart? && !a.Wake?
    requires !a.SkipBlank? && !a.CloseVolume?
    ensures Do(c, s, a).walker == s.walker
  {
  }

  /** One step: what it sends, followed by what is still to be sent. */
  lemma StepFollowsLoop(c: Config, s: State, a: Action, later: seq<seq<string>>)
    requires Enabled(c, s, a) && !a.EndRound? && !a.Restart? && !s.walker.Sleeping? && |later| == |c.sharedVolumes|
    requires s.walker.Listing? ==> s.walker.i < |c.sharedVolumes|
    ensures var listings := if a.List? then later[s.walker.i := a.names] else later;
            StillToSend(c, s.walker, listings) == SentBy(c, s, a) + StillToSend(c, Do(c, s, a).walker, later)
  {
    if a.List? {
      ListFollowsLoop(c, s, a.names, later);
    } else if a.Send? || a.SkipName? {
      HeadSent(c, s, a);
      NamesFollowLoop(c, s.walker.i, s.walker.names, s.walker.names[1..], SentBy(c, s, a), later);
    } else {
      QuietStep(c, s, a, later);
    }
  }

  /**
   The state machine's walker sends what the loop sends: whatever is interleaved,
   a round that runs through all volumes sends exactly what the loop makes of the
   listings taken in it.
   */
  lemma {:induction false} MachineFollowsLoop(c: Config, s: State, run: seq<Action>)
    requires ValidRun(c, s, run) && !s.walker.Sleeping?
    requires s.walker.Listing? ==> s.walker.i < |c.sharedVolumes|
    requires forall a <- run :: !a.EndRound? && !a.Restart?
    requires After(c, s, run).walker == Opening(|c.sharedVolumes|)
    ensures SentDuring(c, s, run) == StillToSend(c, s.walker, ListingsOf(c, s, run))
    decreases |run|
  {
    if run != [] {
      var a := run[0];
      assert a in run && forall b <- run[1..] :: b in run;
      MachineFollowsLoop(c, Do(c, s, a), run[1..]);
      StepFollowsLoop(c, s, a, ListingsOf(c, Do(c, s, a), run[1..]));
    }
  }

  /** So a whole round sends the loop's output for the listings it took. */
  lemma RoundFollowsLoop(c: Config, s: State, run: seq<Action>)
    requires ValidRun(c, s, run) && s.walker == Opening(0)
    requires forall a <- run :: !a.EndRound? && !a.Restart?
    requires After(c, s, run).walker == Opening(|c.sharedVolumes|)
    ensures SentDuring(c, s, run) == RoundFrom(c, ListingsOf(c, s, run), 0)
  {
    MachineFollowsLoop(c, s, run);
  }

  /** A round as it runs: the walker wakes, and by the end of the volume list it has sent the loop's output. */
  lemma WokenRoundFollowsLoop(c: Config, s: State, run: seq<Action>)
    requires s.walker == Sleeping && run != [] && run[0] == Wake && ValidRun(c, s, run)
    requires forall a <- run[1..] :: !a.EndRound? && !a.Restart?
    requires After(c, s, run).walker == Opening(|c.sharedVolumes|)
    ensures SentDuring(c, s, run) == RoundFrom(c, ListingsOf(c, Do(c, s, Wake), run[1..]), 0)
  {
    RoundFollowsLoop(c, Do(c, s, Wake), run[1..]);
  }

  /** The paths that workers take from the channel in a step, and in a run. */
  function TakenBy(c: Config, s: State, a: Action): seq<string>
    requires Enabled(c, s, a)
  {
    if a.Receive? && Do(c, s, a).workers[a.w].Holding? then [Do(c, s, a).workers[a.w].path] else []
  }

  ghost function TakenDuring(c: Config, s: State, run: seq<Action>): seq<string>
    requires ValidRun(c, s, run)
    decreases |run|
  {
    if run == [] then [] else TakenBy(c, s, run[0]) + TakenDuring(c, Do(c, s, run[0]), run[1..])
  }

  lemma StepInOrder(c: Config, s: State, a: Action)
    requires Enabled(c, s, a) && !a.Restart?
    ensures s.queue + SentBy(c, s, a) == TakenBy(c, s, a) + Do(c, s, a).queue
  {
    if a.Remove? {
      assert Do(c, s, a).queue == s.queue;
    }
  }

  /** The channel loses and doubles nothing: what workers take is what was sent, in that order. */
  lemma {:induction false} ChannelInOrder(c: Config, s: State, run: seq<Action>)
    requires ValidRun(c, s, run) && forall a <- run :: !a.Restart?
    ensures s.queue + SentDuring(c, s, run) == TakenDuring(c, s, run) + After(c, s, run).queue
    decreases |run|
  {
    if run == [] {
      assert s.queue + [] == [] + s.queue;
    } else {
      assert run[0] in run && forall a <- run[1..] :: a in run;
      var s1 := Do(c, s, run[0]);
      StepInOrder(c, s, run[0]);
      ChannelInOrder(c, s1, run[1..]);
      Associative(s.queue, SentBy(c, s, run[0]), SentDuring(c, s1, run[1..]));
      Associative(TakenBy(c, s, run[0]), s1.queue, SentDuring(c, s1, run[1..]));
      Associative(TakenBy(c, s, run[0]), TakenDuring(c, s1, run[1..]), After(c, s, run).queue);
    }
  }

  /** The client mount as the deletion workers see it. */
  class ClientMount {
    var fs: FileSystem

    constructor (fs: FileSystem)
      ensures this.fs == fs
    {
      this.fs := fs;
    }

    /** `mounter.RemoveAll`. */
    method RemoveAll(c: Config, path: string)
      modifies this
      ensures fs == old(fs) - Reached(c, old(fs), path)
    {
      fs := map h | h in fs && !Reaches(c, path, h) :: fs[h];
    }

    /** A worker going through what it receives: exactly what an accepted path reaches is gone. */
    method DeletionWorker(c: Config, received: seq<string>)
      modifies this
      ensures fs == Swept(c, old(fs), received)
    {
      var k := 0;
      while k < |received|
        invariant 0 <= k <= |received|
        invariant fs == Swept(c, old(fs), received[..k])
      {
        var directory := received[k];
        var dir, file := DirPart(directory), FilePart(directory);
        assert received[..k + 1] == received[..k] + [directory];
        KeepAppend(old(fs), received[..k], directory, Taker(c));
        RemovalIsSwept(c, State(fs, {}, 0, {}, {}, {}, [], Sleeping, []), directory, "");
        if HasPrefix(dir, c.mount) && HasPrefix(file, c.driver) {
          RemoveAll(c, directory);
        }
        k := k + 1;
      }
      assert received[..k] == received;
    }
  }

  /** What is left when everything the received paths take is gone. */
  function Keep(fs: FileSystem, received: seq<string>, takes: (string, Entry) -> bool): FileSystem {
    map h | h in fs && (forall path <- received :: !takes(path, h)) :: fs[h]
  }

  function Swept(c: Config, fs: FileSystem, received: seq<string>): FileSystem {
    Keep(fs, received, Taker(c))
  }

  function Taker(c: Config): (string, Entry) -> bool {
    (path, h) => WorkerAccepts(c.driver, c.mount, path) && Reaches(c, path, h)
  }

  /** Removing in sequence is removing all at once, so duplicates and order do not matter. */
  lemma KeepAppend(fs: FileSystem, received: seq<string>, path: string, takes: (string, Entry) -> bool)
    ensures Keep(Keep(fs, received, takes), [path], takes) == Keep(fs, received + [path], takes)
    ensures path in received ==> Keep(fs, received + [path], takes) == Keep(fs, received, takes)
  {
    assert path in [path] && path in received + [path];
    assert forall q <- received :: q in received + [path];
  }

  /** The state machine's complete removals are the worker's. */
  lemma RemovalIsSwept(c: Config, s: State, path: string, left: string)
    ensures DoRemove(c, s, path, true, left).fs == Swept(c, s.fs, [path])
  {
    var takes, accepted := Taker(c), WorkerAccepts(c.driver, c.mount, path);
    assert path in [path];
    assert forall h :: takes(path, h) <==> accepted && Reaches(c, path, h);
  }

  /** A marker of a claim called `pvc-` and something, below the mount path and a volume. */
  function DeletedPath(c: Config, volume: string, rest: string): string {
    JoinPath([c.mount, volume, c.driver + "_delete_pvc-" + rest])
  }

  ghost predicate ShowsDeleted(c: Config, listings: seq<seq<string>>, i: nat, rest: string)
    requires i < |listings| == |c.sharedVolumes|
  {
    TrimSpace(c.sharedVolumes[i]) != "" && c.driver + "_delete_pvc-" + rest in listings[i]
  }

  lemma SendsDeleted(c: Config, listings: seq<seq<string>>, i: nat, rest: string)
    requires ValidConfig(c) && i < |listings| == |c.sharedVolumes| && (forall n <- listings[i] :: Plain(n))
    requires ShowsDeleted(c, listings, i, rest)
    ensures SendsName(c, listings[i], i, c.driver + "_delete_pvc-" + rest,
                      DeletedPath(c, TrimSpace(c.sharedVolumes[i]), rest))
  {
    var v := TrimSpace(c.sharedVolumes[i]);
    SweptExactly(c.driver, c.driver + "_delete_pvc-" + rest);
    assert Plain(v);
    JoinNested(c.mount, v, c.driver + "_delete_pvc-" + rest);
  }

  /**
   A whole round, spelled out: what is sent are the paths of the names starting with
   `<driver>_delete_pvc-` that the listing of a volume showed whose configured name
   is not blank, and nothing else.
   */
  lemma RoundSendsExactly(c: Config, listings: seq<seq<string>>, path: string)
    requires ValidConfig(c) && |listings| == |c.sharedVolumes|
    requires forall i, n :: 0 <= i < |listings| && n in listings[i] ==> Plain(n)
    ensures path in RoundFrom(c, listings, 0) <==>
              exists i: nat, rest :: i < |listings| && ShowsDeleted(c, listings, i, rest) &&
                                     path == DeletedPath(c, TrimSpace(c.sharedVolumes[i]), rest)
  {
    SentExactly(c, listings, 0, path);
    if path in RoundFrom(c, listings, 0) {
      var i: nat, n :| i < |listings| && SendsName(c, listings[i], i, n, path);
      SweptExactly(c.driver, n);
      var rest :| n == c.driver + "_delete_pvc-" + rest;
      SendsDeleted(c, listings, i, rest);
    }
    if i: nat, rest :| i < |listings| && ShowsDeleted(c, listings, i, rest) &&
                       path == DeletedPath(c, TrimSpace(c.sharedVolumes[i]), rest) {
      SendsDeleted(c, listings, i, rest);
    }
  }
}
