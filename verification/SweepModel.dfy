/**
 The shared-volume protocol as a state machine. Controllers create claim
 subdirectories and rename deleted ones to markers, one walker lists the shared
 volumes and sends markers into a bounded channel, and `parallelDeletes`
 workers receive paths and remove them. Every action below is one atomic step;
 a run interleaves any number of them in any order.
 */
module SweepModel {
  import opened GoStrings
  import opened Paths
  import opened Markers

  /**
   `claims` holds the names the provisioner may give to volumes (and so to
   subdirectories). A second driver named `other`, with claims of its own, may
   work on the same volumes, and sweep them too.
   */
  datatype Config = Config(driver: string, mount: string, sharedVolumes: seq<string>,
                           parallelDeletes: nat, claims: set<string>,
                           other: string, otherClaims: set<string>)

  ghost predicate ValidConfig(c: Config) {
    && c.driver != "" && '/' !in c.driver && c.mount != ""
    && (forall v <- c.sharedVolumes :: TrimSpace(v) == "" || Plain(TrimSpace(v)))
    && (forall claim <- c.claims + c.otherClaims :: Plain(claim))
    && '/' !in c.other && c.claims !! c.otherClaims
  }

  /** A directory tree: which creation it stems from, and what it holds. */
  datatype Tree = Tree(id: nat, content: string)

  /** A directory entry of a volume; for a claim's subdirectory, the volume and subdirectory of its handle. */
  datatype Entry = Entry(volume: string, sub: string)

  type FileSystem = map<Entry, Tree>

  /** The walker between rounds, about to open a volume, or going through a listing it took. */
  datatype Walker = Sleeping | Opening(i: nat) | Listing(i: nat, names: seq<string>)

  datatype Worker = Idle | Holding(path: string)

  /**
   `live` are the handles handed out and not yet deleted. `born`, `marked`,
   `removed` and `otherRemoved` record which trees were created, renamed to a
   marker, removed by this driver's workers and removed by the other's so far.
   */
  datatype State = State(fs: FileSystem, live: set<Entry>,
                         born: nat, marked: set<nat>, removed: set<nat>, otherRemoved: set<nat>,
                         queue: seq<string>, walker: Walker, workers: seq<Worker>)

  datatype Action =
    | Create(h: Entry, issued: bool)
    | Write(h: Entry, content: string)
    | Delete(h: Entry)
    | OtherCreate(h: Entry)
    | OtherDelete(h: Entry)
    | OtherRemove(h: Entry, complete: bool, left: string)
    | Wake
    | SkipBlank
    | List(names: seq<string>)
    | SkipName
    | Send
    | CloseVolume
    | EndRound
    | Receive(w: nat)
    | Remove(w: nat, complete: bool, left: string)
    | Restart

  /** Where an entry lies below the client mount point. */
  function PathOf(c: Config, h: Entry): string {
    JoinPath([c.mount, h.volume, h.sub])
  }

  function MarkerOf(c: Config, h: Entry): Entry {
    Entry(h.volume, Marker(c.driver, h.sub))
  }

  /** The directory the walker opens for the i-th configured shared volume. */
  function VolumePath(c: Config, i: nat): string
    requires i < |c.sharedVolumes|
  {
    JoinPath([c.mount, TrimSpace(c.sharedVolumes[i])])
  }

  /** The names `Readdirnames` finds directly inside a directory. */
  function NamesIn(c: Config, fs: FileSystem, dir: string): set<string> {
    set h | h in fs && DirPart(PathOf(c, h)) == Under(dir) :: h.sub
  }

  /** `os.Rename` of a directory: a missing source is ENOENT, otherwise an existing target is EEXIST. */
  datatype RenameResult = Moved(fs: FileSystem) | NoEntry | Exists

  function Rename(fs: FileSystem, from: Entry, to: Entry): RenameResult {
    if from !in fs then NoEntry
    else if to in fs then Exists
    else Moved((fs - {from})[to := fs[from]])
  }

  /** `os.RemoveAll` takes whatever lies at the path or below it. */
  predicate Reaches(c: Config, path: string, h: Entry) {
    PathOf(c, h) == path || HasPrefix(PathOf(c, h), path + "/")
  }

  function Reached(c: Config, fs: FileSystem, path: string): set<Entry> {
    set h | h in fs && Reaches(c, path, h)
  }

  function IdsOf(fs: FileSystem): set<nat> {
    set h | h in fs :: fs[h].id
  }

  /** A removal that stops half way leaves every tree it reached with some other content. */
  function Spoil(fs: FileSystem, hs: set<Entry>, left: string): FileSystem {
    map h | h in fs :: if h in hs then fs[h].(content := left) else fs[h]
  }

  /** Create or adopt the claim's directory; `issued` tells whether the call then returned a handle. */
  function DoCreate(s: State, h: Entry, issued: bool): State {
    s.(fs := if h in s.fs then s.fs else s.fs[h := Tree(s.born, "")],
       born := if h in s.fs then s.born else s.born + 1,
       live := if issued then s.live + {h} else s.live)
  }

  /** Rename to the marker; a missing directory counts as deleted, an existing marker is an error. */
  function DoDelete(c: Config, s: State, h: Entry): State {
    match Rename(s.fs, h, MarkerOf(c, h))
    case Moved(fs) => s.(fs := fs, live := s.live - {h}, marked := s.marked + {s.fs[h].id})
    case NoEntry => s.(live := s.live - {h})
    case Exists => s
  }

  /** `DeleteVolume` returns an error only when the rename found an existing marker. */
  predicate DeleteSucceeds(c: Config, s: State, h: Entry) {
    !Rename(s.fs, h, MarkerOf(c, h)).Exists?
  }

  /** The same rename by the other driver, to a marker with that driver's name. */
  function DoOtherDelete(c: Config, s: State, h: Entry): State {
    match Rename(s.fs, h, Entry(h.volume, Marker(c.other, h.sub)))
    case Moved(fs) => s.(fs := fs)
    case _ => s
  }

  /** The other driver's worker at an entry; as for this driver's, the entry's path reaches nothing else. */
  function DoOtherRemove(s: State, h: Entry, complete: bool, left: string): State
    requires h in s.fs
  {
    if complete then s.(fs := s.fs - {h}, otherRemoved := s.otherRemoved + {s.fs[h].id})
    else s.(fs := Spoil(s.fs, {h}, left))
  }

  /** What a worker does with a path it received. */
  function DoRemove(c: Config, s: State, path: string, complete: bool, left: string): State {
    var hs := Reached(c, s.fs, path);
    if !WorkerAccepts(c.driver, c.mount, path) then s
    else if complete then s.(fs := s.fs - hs, removed := s.removed + set h | h in hs :: s.fs[h].id)
    else s.(fs := Spoil(s.fs, hs, left))
  }

  /**
   A claim may be deleted again after it is gone, and created again under its old
   name. The other driver's sweep takes, at any time, whatever sits under a name its
   walker queues: its volumes may be any, its listings as old as they like. The
   driver's process may end and start again at any time; its handles outlive it.
   */
  ghost predicate Enabled(c: Config, s: State, a: Action) {
    match a
    case Create(h, _) => Plain(h.volume) && h.sub in c.claims
    case Write(h, _) => h in s.fs
    case Delete(h) => Plain(h.volume) && h.sub in c.claims
    case OtherCreate(h) => Plain(h.volume) && h.sub in c.otherClaims
    case OtherDelete(h) => Plain(h.volume) && h.sub in c.otherClaims
    case OtherRemove(h, _, _) => h in s.fs && IsSwept(c.other, h.sub)
    case Wake => s.walker.Sleeping?
    case SkipBlank =>
      s.walker.Opening? && s.walker.i < |c.sharedVolumes| && TrimSpace(c.sharedVolumes[s.walker.i]) == ""
    case List(names) =>
      && s.walker.Opening? && s.walker.i < |c.sharedVolumes|
      && TrimSpace(c.sharedVolumes[s.walker.i]) != ""
      && (forall n <- names :: n in NamesIn(c, s.fs, VolumePath(c, s.walker.i)))
    case SkipName => s.walker.Listing? && s.walker.names != [] && !IsSwept(c.driver, s.walker.names[0])
    case Send =>
      && s.walker.Listing? && s.walker.names != [] && IsSwept(c.driver, s.walker.names[0])
      && s.walker.i < |c.sharedVolumes| && |s.queue| < c.parallelDeletes
    case CloseVolume => s.walker.Listing? && s.walker.names == []
    case EndRound => s.walker.Opening? && s.walker.i >= |c.sharedVolumes|
    case Receive(w) => w < |s.workers| && s.workers[w].Idle? && s.queue != []
    case Remove(w, _, _) => w < |s.workers| && s.workers[w].Holding?
    case Restart => true
  }

  function Do(c: Config, s: State, a: Action): State
    requires Enabled(c, s, a)
  {
    match a
    case Create(h, issued) => DoCreate(s, h, issued)
    case Write(h, content) => s.(fs := Spoil(s.fs, {h}, content))
    case Delete(h) => DoDelete(c, s, h)
    case OtherCreate(h) => DoCreate(s, h, false)
    case OtherDelete(h) => DoOtherDelete(c, s, h)
    case OtherRemove(h, complete, left) => DoOtherRemove(s, h, complete, left)
    case Wake => s.(walker := Opening(0))
    case SkipBlank => s.(walker := Opening(s.walker.i + 1))
    case List(names) => s.(walker := Listing(s.walker.i, names))
    case SkipName => s.(walker := s.walker.(names := s.walker.names[1..]))
    case Send =>
      s.(queue := s.queue + [JoinPath([VolumePath(c, s.walker.i), s.walker.names[0]])],
         walker := s.walker.(names := s.walker.names[1..]))
    case CloseVolume => s.(walker := Opening(s.walker.i + 1))
    case EndRound => s.(walker := Sleeping)
    case Receive(w) => s.(workers := s.workers[w := Holding(s.queue[0])], queue := s.queue[1..])
    case Remove(w, complete, left) =>
      DoRemove(c, s, s.workers[w].path, complete, left).(workers := s.workers[w := Idle])
    case Restart => s.(walker := Sleeping, queue := [], workers := seq<Worker>(|s.workers|, _ => Idle))
  }

  ghost predicate ValidRun(c: Config, s: State, run: seq<Action>)
    decreases |run|
  {
    run == [] || (Enabled(c, s, run[0]) && ValidRun(c, Do(c, s, run[0]), run[1..]))
  }

  ghost function After(c: Config, s: State, run: seq<Action>): State
    requires ValidRun(c, s, run)
    decreases |run|
  {
    if run == [] then s else After(c, Do(c, s, run[0]), run[1..])
  }

  function Below(n: nat): (ids: set<nat>)
    ensures forall i :: i in ids <==> 0 <= i < n
  {
    if n == 0 then {} else Below(n - 1) + {n - 1}
  }

  /** The trees that sit under a marker name, and those that do not. */
  function MarkerIds(c: Config, fs: FileSystem): set<nat> {
    set h | h in fs && IsMarker(c.driver, h.sub) :: fs[h].id
  }

  function PlainIds(c: Config, fs: FileSystem): set<nat> {
    set h | h in fs && !IsMarker(c.driver, h.sub) :: fs[h].id
  }

  /** No two entries share a tree. */
  ghost predicate Distinct(fs: FileSystem) {
    forall h, k :: h in fs && k in fs && h != k ==> fs[h].id != fs[k].id
  }

  /**
   A driver that just started: volumes may already hold entries of any kind. The
   markers among them were renamed by an earlier process, and so may claims have
   been handed out.
   */
  ghost predicate Start(c: Config, s: State) {
    && (forall h <- s.fs :: Plain(h.volume) && Plain(h.sub))
    && Distinct(s.fs) && IdsOf(s.fs) == Below(s.born)
    && s.marked == MarkerIds(c, s.fs)
    && s.live <= s.fs.Keys && (forall h <- s.live :: h.sub in c.claims)
    && s.removed == {} && s.otherRemoved == {} && s.queue == []
    && s.walker == Sleeping && |s.workers| == c.parallelDeletes
    && (forall w <- s.workers :: w == Idle)
  }
}
