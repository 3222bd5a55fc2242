# Quobyte CSI driver: a Dafny model

A model of the volume lifecycle of the Quobyte CSI driver and proofs about it. The driver
provisions Quobyte volumes for Kubernetes claims, either one volume per claim or one
subdirectory of a shared volume per claim, deletes them again, restores and lists snapshots,
and bind-mounts the result on the nodes. `dafny verify dfyconfig.toml` checks everything.

The parts, and the files they are in:

- **Shared-volume sweep.** Controllers create claim subdirectories and rename deleted ones to
  markers `<driver>_delete_<subdir>`; one walker lists the shared volumes and sends markers into a
  bounded channel; workers receive paths and remove them. `SweepModel` is the state machine of
  atomic steps, with stale listings, duplicate queue entries, names used again and a second driver
  that works on the same volumes and sweeps them, and restarts of the driver. `SweepSafety` holds the
  invariants, `SweepTheorems` the safety results, `SweepLiveness` what a full walk achieves and why it
  ends, `SweepLoops` the loops as written and their agreement with the machine, `SweepRefinement` the
  agreement of the machine with what everybody does to the directories by path.
- **The driver as a whole.** `CallSteps` takes the controller's calls apart into their requests and
  system calls. `DriverSystem` lets any number of such calls overlap, with the sweeps, the pods, a
  second driver and restarts in between; `DriverRuns` says which handles stay usable over whole runs,
  and `LostHandles` exactly when one does not.
- **Directory maker.** `DirectoryMaker`: stat, mkdir, chmod and chown as separate steps of any
  number of concurrent callers, and the same calls in sequence.
- **Strings.** `GoStrings`, `Paths`, `Markers`, `Handles`, `Snapshots`: Go's string and path
  functions, markers, volume handles, snapshot ids, and where they lead on both sides.
- **CreateVolume and DeleteVolume.** `Backend` is the contract of the Quobyte API, in which every
  call may also be refused or take effect although its answer is lost. `Parameters` is the loop over
  the StorageClass parameters, `Provisioning` one call of `CreateVolume` as a function of the world,
  `ProvisioningTheorems` idempotency and quotas, `VolumeIds` when ids are equal, `AsRequested` what
  a fresh volume or directory looks like, `StorageClasses` the same for parameters in their documented spelling, `Lifecycle` deletion and expansion, `SharedVolumes` whole
  runs. `Controller` is the service as a class whose methods change the backend and the file system
  call by call, each proved against those functions.
- **Node.** `NodePublish`: `NodePublishVolume` as a method, and the paths it mounts.
- **Numbers, labels, clients.** `AccessModes`, `Stats`, `Labels`, `ClientCache`.

What the environment does (iteration order of Go maps, answers of the API, random UUIDs, errors of
system calls, evicted cache entries, interleaving) is a parameter, and the results hold for all of it.

Results that are negative, each with the input that shows it: a claim named like a marker loses its
directory to the sweep (`SweptClaimIsLost`); a mount path that is not clean turns the sweep off
(`UncleanMountSweepsNothing`); a claim named like another driver's marker is removed by that driver
(`OtherSweptClaimIsLost`); the default mode of a claim's directory loses its sticky bit
(`DefaultModeLosesSticky`); parameters that name different volumes make a repeated call create a second
one (`ConflictingNamesBreak`); a retry after a failed chown reports success and leaves the wrong owner
(`RetryDoesNotRepair`); a retry whose quota call fails deletes the volume the first call had created
(`RetryDestroys`); a creation that overlaps a deletion of the same subdirectory, or another creation's
rollback, returns an id of something that is gone (`OverlapLosesDirectory`, `OverlapLosesVolume`); a shared volume's key in any spelling but `sharedVolumeName` gives all PVs one whole
volume, which the first deletion erases (`MisspelledKeySharesId`, `MisspelledKeyErases`); a snapshot
name with a `|` is restored and deleted as another one (`RestoredPathExact`, `DeleteSnapshotExactly`);
two users can share an API client (`KeyNotInjective`).

Where the code and what is written about it disagree, the model follows the code:

- The comment at `src/driver/shared_volume_directory_deleter.go:14` says that markers start with the
  node's name; they start with the driver's name (`src/driver/controller.go:284`, `src/cmd/main.go:82`).
- The comment at `src/driver/controller.go:165-167` says that the rolled-back volume has just been
  created; the rollback also runs for a volume that existed before.
- `src/driver/controller.go:30-34` sets the sticky bit on a claim's directory and says that it does not
  work; the model follows `os.Chmod`, which takes that bit from another place of the mode.
- `README.md:27` calls the list of shared volumes a list of UUIDs; the walker takes each entry,
  trimmed, as a directory name below the mount point.

## Model

| member | source | states |
|---|---|---|
| SweepTheorems.SweepIsSafe | src/driver/shared_volume_directory_deleter.go:17-67 | in every interleaving of creates, deletes, the walker, any number of workers, restarts and a second driver that creates, deletes and sweeps too, every handle that was issued, by this process or an earlier one, and not deleted has its directory, this driver removes only trees that its own deletes renamed, and nothing it has queued or holds belongs to the other driver |
| SweepTheorems.ClaimKeepsItsContent | src/driver/shared_volume_directory_deleter.go:60-65 | until its handle is deleted a claim's directory keeps its tree with exactly the content last written to it, whatever either driver removes, completely or half way |
| SweepTheorems.ContentIsLastWritten | src/driver/shared_volume_directory_deleter.go:60-65 | the same for every directory whose name is swept by neither driver and that is not deleted |
| SweepTheorems.LateHandle | src/driver/controller.go:182-187 | a creation that returns its handle some steps after it found or made the directory returns it without a directory if and only if a delete of the same claim moved that away in between (and no other call created it again) |
| SweepTheorems.SafeExactlyWithoutSweptClaims | src/driver/shared_volume_directory_deleter.go:39-40 | with a worker, a configured volume that is not blank and a clean mount path, handles always keep their directories, over all runs and restarts, if and only if no claim name starts with `<driver>_delete_pvc-`, for this driver or the other |
| SweepTheorems.SweptClaimIsLost | src/driver/shared_volume_directory_deleter.go:38-41 | a run in which this driver's walker takes a claim of such a name for a marker and its directory is removed |
| SweepTheorems.OtherSweptClaimIsLost | src/driver/shared_volume_directory_deleter.go:38-41 | a run in which the other driver's sweep removes a claim of this driver that is named like one of its markers |
| SweepTheorems.TreesAreConserved | src/driver/controller.go:282-289 | over every run each tree ever created is in exactly one of four places, ordinary name, marker name, removed, or removed by the other driver; no two entries share a tree; the trees renamed by deletes are exactly those under markers or removed, besides what the other driver took, which is none when it queues no marker of this driver |
| SweepTheorems.DeleteMovesOneTree | src/driver/controller.go:282-289 | a delete moves the tree with its contents to a marker that did not exist, never overwrites one, counts a missing directory as deleted, and changes no other entry |
| SweepTheorems.RepeatedDeleteChangesNothing | src/driver/controller.go:285-289 | after a successful delete, and any run that does not create the claim again, deleting again succeeds and changes nothing |
| SweepTheorems.StaysAway | src/driver/shared_volume_directory_deleter.go:56-67 | nothing but a create brings a deleted claim's directory back |
| SweepTheorems.TargetNotForeign | src/driver/shared_volume_directory_deleter.go:39-40 | a path a walker sends is neither a claim directory nor a marker of the other driver, on any volume |
| SweepSafety.UnderscoreFreeApart | src/driver/shared_volume_directory_deleter.go:15 | different driver names and claim names without `_` (domain names, section 2.3.1 of RFC 1035) satisfy every condition the safety results need, and neither driver queues a marker of the other |
| SweepSafety.StepKeeps | src/driver/shared_volume_directory_deleter.go:26-67 | the invariant (handles intact, only marked trees removed, everything in flight is a marker path of a listed volume) survives every step of every participant, the second driver's sweep included |
| SweepSafety.RunKeeps | src/driver/shared_volume_directory_deleter.go:26-67 | the same over every run |
| SweepSafety.StandingKeeps | src/driver/shared_volume_directory_deleter.go:26-67 | handles keep their directories, and what is in flight stays sound, through every step and restart as long as no claim is named like a swept marker, whatever the other driver calls its own |
| SweepSafety.ReachesOne | src/driver/shared_volume_directory_deleter.go:64 | removing everything at or below an entry's path reaches that entry alone, whatever else is on the volumes |
| SweepSafety.ListedExactly | src/driver/shared_volume_directory_deleter.go:35-36 | listing a configured volume's directory finds exactly the names of that volume's entries |
| SweepSafety.RemoveOutcome | src/driver/shared_volume_directory_deleter.go:60-65 | a removal, complete or cut short, leaves every entry but one exactly as it was, and that one is a marker of the sweeping driver |
| SweepSafety.RemovalExactly | src/driver/shared_volume_directory_deleter.go:60-65 | a worker that accepts an entry's path removes that entry, or leaves it with whatever an interrupted removal left; otherwise it does nothing |
| SweepLiveness.FullWalkRemovesEveryMarker | src/driver/shared_volume_directory_deleter.go:29-51 | with complete listings and removals that work, every run from the start of a round to rest removes every tree that was under a swept name in a listed volume when the round began, with creates and deletes going on meanwhile; by the other driver only if its walker queues that name too |
| SweepLiveness.QuietMeansClean | src/driver/shared_volume_directory_deleter.go:29-51 | once deletes stop, one full walk brought to rest leaves nothing to sweep |
| SweepLiveness.NoNewMarkers | src/driver/controller.go:284-285 | without deletes no marker appears, not even under a name used before |
| SweepLiveness.SweepingDecreases | src/driver/shared_volume_directory_deleter.go:29-66 | every step of walker and workers decreases a well-founded measure, and no step of controllers or pods changes what it measures; only a new round and a restart do |
| SweepLiveness.NeverStuck | src/driver/shared_volume_directory_deleter.go:18-24 | with at least one worker, a sweep that is not at rest has a step it can take, the bounded channel notwithstanding |
| SweepLiveness.SweepComesToRest | src/driver/shared_volume_directory_deleter.go:29-66 | from every reachable state walker and workers alone finish the round |
| SweepLiveness.RoundCanClean | src/driver/shared_volume_directory_deleter.go:29-66 | a round that begins can always be completed, leaves the listed volumes without markers and keeps every handle |
| SweepLiveness.StuckWithoutWorkers | src/cmd/main.go:77-82 | without workers no sweeping step is possible once a marker was met, which is why the program starts the sweep for a positive count only |
| SweepLiveness.UncleanMountSweepsNothing | src/driver/shared_volume_directory_deleter.go:61-62 | on a mount path spelled so that no configured volume passes the worker's test (`Paths.MountPrefixExact` says exactly which) no run removes anything |
| SweepLoops.WalkRound | src/driver/shared_volume_directory_deleter.go:29-52 | the outer loop sends, volume by volume, what the listings call for |
| SweepLoops.VisitVolume | src/driver/shared_volume_directory_deleter.go:30-51 | the inner loop sends the paths of the listed names that start with `<driver>_delete_pvc-`, those and no others, in order, and nothing for a blank entry of the volume list |
| SweepLoops.SentExactly | src/driver/shared_volume_directory_deleter.go:29-41 | a path is sent in a round if and only if it belongs to a swept name that the listing of a non-blank volume showed |
| SweepLoops.RoundSendsExactly | src/driver/shared_volume_directory_deleter.go:29-41 | a round sends, joined below the mount path, the listed names starting with `<driver>_delete_pvc-` of every volume that is not blank, and nothing else |
| SweepLoops.ChannelInOrder | src/driver/shared_volume_directory_deleter.go:18-24 | what workers take from the channel over any run is what was sent before, in that order, nothing lost or doubled |
| SweepLoops.MachineFollowsLoop | src/driver/shared_volume_directory_deleter.go:27-53 | whatever is interleaved short of a restart, the rest of a round sends exactly what the loop still sends for the listings taken in that run |
| SweepLoops.RoundFollowsLoop | src/driver/shared_volume_directory_deleter.go:27-53 | a whole round of the state machine without a restart sends exactly what the loop sends for the listings it took |
| SweepLoops.WokenRoundFollowsLoop | src/driver/shared_volume_directory_deleter.go:27-53 | the same from the moment the walker wakes |
| SweepLoops.ClientMount.DeletionWorker | src/driver/shared_volume_directory_deleter.go:56-67 | after the receiving loop exactly the entries are gone that lie at or below an accepted path, regardless of order and repetition |
| SweepLoops.ClientMount.RemoveAll | src/driver/shared_volume_directory_deleter.go:64 | everything at or below the path is gone and nothing else |
| SweepLoops.KeepAppend | src/driver/shared_volume_directory_deleter.go:60-65 | removing in sequence is removing at once, and a path queued twice is as good as once |
| SweepLoops.RemovalIsSwept | src/driver/shared_volume_directory_deleter.go:61-65 | a complete removal step of the machine is what the worker does with one path |
| SweepRefinement.DeleteRefines | src/driver/controller.go:281-289 | deleting a claim by its handle does to the directories what the machine's delete does to the entries, with the same success or failure |
| SweepRefinement.CreateRefines | src/driver/controller.go:174-187 | creating a claim does what the machine's create does, issuing the handle on success, or fails leaving the directories as they were |
| SweepRefinement.OtherRelated | src/driver/shared_volume_directory_deleter.go:26-67 | every step of walker, workers, pods and the second driver does to the directories by path what the machine does to its entries |
| DriverRuns.UndeletedHandlesUsable | src/driver/controller.go:45-308 | over every run of CreateVolume, DeleteVolume in both modes and expansion, taken apart into requests and system calls that overlap in any way except that no deletion of a subdirectory overlaps a creation of the same PV, whatever the calls meet, interleaved with the sweeps of two drivers, the pods and restarts: every handle of a subdirectory that was handed out and not deleted since has its volume and its directory |
| DriverRuns.RunIsSweepRun | src/driver/controller.go:174-187 | every run of the driver, however calls overlap, is a run of the sweep machine on the directories that are there, so that what holds of all runs of the machine holds of the driver |
| DriverRuns.StepIntact | src/driver/controller.go:45-308 | what a creation in flight has found or made, and what was handed out, stays through every step |
| DriverSystem.StepKeeps | src/driver/controller.go:45-308 | whatever overlaps: calls in flight and issued handles stay sound, volumes with a shared name survive, and the directories stay those the sweep machine sees |
| LostHandles.ReturnedExactly | src/driver/controller.go:141-197 | however calls overlap, CreateVolume returns an id without its volume or directory if and only if after its last request some call removed that volume, or renamed that directory and none made it again |
| LostHandles.LostExactly | src/driver/controller.go:279-289 | the same for any usable id and any later moment |
| LostHandles.AnsweredUsable | src/driver/controller.go:141-197 | at its last request a creation's id is usable, whatever overlaps |
| LostHandles.DirectoryExactly | src/driver/controller.go:182-186 | a claim's directory is there if and only if the last of the mkdirs and renames of it in the run is a mkdir, or there was none and it was there before; nothing else that anybody does counts |
| LostHandles.VolumeExactly | src/driver/controller.go:162-171 | a volume ever handed out is there if and only if it was and no rollback or erasure of it took effect in the run, and none ever does for a shared one |
| LostHandles.OverlapLosesDirectory | src/driver/controller.go:182-189 | whenever a repeated creation is about to look for its directory while a deletion of that is about to rename it, with no marker in the way, a run that ends with the creation returning a handle without its directory |
| LostHandles.OverlapLosesVolume | src/driver/controller.go:162-171 | whenever one creation is about to return a volume and another about to set its quota, a run in which the first returns after the second's rollback removed the volume |
| CallSteps.CreateAlone | src/driver/controller.go:45-198 | undisturbed, the requests and system calls of CreateVolume do and answer what the specification of the whole call says |
| CallSteps.DeleteAlone | src/driver/controller.go:254-308 | likewise for DeleteVolume |
| CallSteps.ExpandAlone | src/driver/controller.go:499-528 | likewise for expansion |
| CallSteps.MakingAlone | src/driver/shared_volume_mapper.go:22-85 | the system calls of a claim, undisturbed, are those of the directory maker on that claim's directory |
| Markers.MarkerInjective | src/driver/shared_volume_directory_deleter.go:15 | different subdirectories of one driver have different markers |
| Markers.RecognisedExactly | src/driver/shared_volume_directory_deleter.go:39 | among the names that deletion by any driver without `_` in its name gives, a walker queues exactly its own driver's for claims starting with `pvc-` |
| Markers.UnderscoreDriverIsSwept | src/driver/shared_volume_directory_deleter.go:39 | with `_` allowed, one driver's walker would queue every marker of another |
| Markers.OwnMarkerIsTaken | src/driver/shared_volume_directory_deleter.go:61-62 | what deletion renames a `pvc-` claim to below a clean mount path is recognised by walker and worker |
| Markers.SweptExactly | src/driver/shared_volume_directory_deleter.go:39 | the walker queues exactly the names `<driver>_delete_pvc-` and something |
| Markers.DeletedIsSwept | src/driver/controller.go:284 | of the names deletion gives, the walker queues exactly those of claims whose first four characters are `pvc-` |
| Markers.WorkerAcceptsExactly | src/driver/shared_volume_directory_deleter.go:61-62 | a worker accepts exactly the paths whose directory starts with the mount path and whose name starts with the driver's |
| DirectoryMaker.AllSucceedMeansWanted | src/driver/shared_volume_mapper.go:22-85 | when any number of concurrent calls with one request on a missing path all return without error, the directory has exactly the requested owner and the requested mode as `os.Chmod` applies it, whatever the interleaving |
| DirectoryMaker.LiteralModeExactly | src/driver/shared_volume_mapper.go:52 | that mode is the requested one literally if and only if the request is at most 777; the default of 1700 is not |
| DirectoryMaker.WantedExactly | src/driver/shared_volume_mapper.go:22-85 | at any point of any run the directory is as requested if and only if its owner is right (some call completed the creating path, or mkdir made it with that owner) and its mode is (some chmod worked, or mkdir made it with that mode) |
| DirectoryMaker.WantedWhenForeign | src/driver/shared_volume_mapper.go:22-85 | for a driver that does not run as the requested owner: if and only if some call has completed the creating path |
| DirectoryMaker.RetryDoesNotRepair | src/driver/shared_volume_mapper.go:35-38 | a run in which the first call fails in chown and the second returns success on the wrongly owned directory |
| DirectoryMaker.SoloOutcome | src/driver/shared_volume_mapper.go:22-39 | alone, success on a missing path makes what was asked for, an existing directory is success without any change, a file is an error |
| DirectoryMaker.SoloExactly | src/driver/shared_volume_mapper.go:22-85 | alone, exactly when a call succeeds and what it leaves otherwise: a mode that cannot be read or a failed mkdir leaves nothing, a failed chmod or owner lookup a directory not yet as requested |
| DirectoryMaker.NoneFailsAnother | src/driver/shared_volume_mapper.go:48-50 | concurrent calls never make one another fail: without errors of its own, and with a readable mode and a known owner, no call fails, in any interleaving |
| DirectoryMaker.StepEnds | src/driver/shared_volume_mapper.go:22-85 | every call ends after at most four system calls of its own, whatever the others do |
| DirectoryMaker.StepKeeps | src/driver/shared_volume_mapper.go:41-85 | the invariant behind convergence survives every system call of every caller |
| DirectoryMaker.Mounter.Mkdir | src/driver/shared_volume_mapper.go:22-39 | the method changes the one path as the single-call function says, and returns its outcome |
| DirectoryMaker.Mounter.CreateDirectory | src/driver/shared_volume_mapper.go:41-58 | likewise for mkdir, chmod and chown in order, with an existing directory ignored and the mode as `os.Chmod` applies it |
| DirectoryMaker.Mounter.ChownDirectory | src/driver/shared_volume_mapper.go:60-85 | only a user and a group that resolve change the owner |
| DirectoryMaker.Mounter.Rename | src/driver/mounter.go:60-62 | Go's rename contract: a missing source, an existing target directory, or the move of one entry |
| AccessModes.OctalReadingExact | src/driver/shared_volume_mapper.go:43-46 | an int32 reads as octal exactly when it is non-negative with all digits at most 7; the result is below 2^30, so the range error cannot occur, and never exceeds the input |
| AccessModes.OctalMonotone | src/driver/shared_volume_mapper.go:43 | the reading is strictly monotone |
| AccessModes.ConfiguredModeExact | src/driver/controller.go:104-112 | the chain from StorageClass string to file mode succeeds exactly for octal digit strings of decimal value 1 to 2^31-1, giving their octal value, and for spellings of zero, giving the default |
| AccessModes.ParseExactly | src/driver/controller.go:105 | unsigned parsing accepts exactly the digit strings below the limit and gives their positional value |
| AccessModes.ReadBack | src/driver/shared_volume_mapper.go:43 | printing in decimal and parsing in octal re-reads the number's digits |
| AccessModes.DecimalReadBack | src/driver/controller.go:105 | parsing in base ten undoes printing in base ten, up to the limit |
| AccessModes.Int32Exactly | src/driver/controller.go:109 | the conversion to int32 gives the one number in range that differs by a multiple of 2^32 |
| AccessModes.SyscallBits | src/driver/shared_volume_mapper.go:52 | bit by bit what `os.Chmod` applies: the permissions, and sticky, setgid and setuid from where Go keeps them |
| AccessModes.DefaultMode | src/driver/controller.go:34 | the default 1700 is read as the octal number 01700 |
| AccessModes.AppliedModeExact | src/driver/shared_volume_mapper.go:52 | what chmod leaves is what the request reads if and only if that is at most 777; the permission bits always arrive |
| AccessModes.DefaultModeLosesSticky | src/driver/controller.go:30-34 | the default 01700 leaves 0700 |
| AccessModes.ConfiguredModeApplied | src/driver/controller.go:104-112 | from the StorageClass string to the directory: an accepted octal string is applied as its value if and only if that is below 01000, and zero leaves 0700 |
| GoStrings.SplitJoin | src/driver/controller.go:265 | splitting undoes joining exactly when no part holds the separator |
| GoStrings.JoinSplit | src/driver/controller.go:265 | joining undoes splitting for every string |
| GoStrings.LowerExactly | src/driver/controller.go:86 | lower-casing moves the letters with codes 65 to 90 up by 32 and leaves the other characters |
| GoStrings.SpaceExactly | src/driver/utils.go:65 | trimming takes away exactly the white space of Go's `unicode.IsSpace`, by code point |
| Paths.CleanIdempotent | src/driver/controller.go:283 | a cleaned path is its own cleaning, with the same elements |
| Paths.CleanDrops | src/driver/controller.go:283 | cleaning takes repeated slashes as one, drops `.`, and `..` at the root |
| Paths.CleanStepsBack | src/driver/controller.go:283 | cleaning drops a name together with the `..` that follows it |
| Paths.CleanKeeps | src/driver/controller.go:283 | a path without any of these is clean |
| Paths.JoinThree | src/driver/controller.go:182 | joining mount, volume and name gives the path that cleaning their concatenation gives, with the name as its last part |
| Paths.JoinThreeInjective | src/driver/controller.go:182 | different volumes or names never share a directory |
| Paths.JoinNested | src/driver/shared_volume_directory_deleter.go:40 | joining a joined volume directory with a name is joining all three at once |
| Paths.NotNested | src/driver/shared_volume_directory_deleter.go:64 | no claim directory lies inside another |
| Paths.MountPrefixExact | src/driver/shared_volume_directory_deleter.go:62 | the worker's prefix test accepts the paths below a volume if and only if the mount path is clean up to one trailing slash, or ends in a dot or two with which the volume's name begins |
| Handles.TwoPartRoundTrip | src/driver/controller.go:279-280 | controller, expansion and node read back exactly tenant and volume |
| Handles.ThreePartRoundTrip | src/driver/controller.go:281-284 | they read back exactly tenant, volume and subdirectory, and expansion leaves it alone |
| Handles.HandlesInjective | src/driver/controller.go:187-189 | handles determine their parts and the two forms never coincide |
| Handles.PlansExactly | src/driver/controller.go:260-268 | what deletion, expansion and node make of a handle with any number of `|`-separated parts |
| Handles.MountPathSpelled | src/driver/node.go:132-148 | every form of the mounted path, spelled out |
| Handles.FormMountPath | src/driver/node.go:132-148 | the reassigned path is mount, context handle, volume, snapshot and subdirectory in this order, empty ones left out |
| Handles.OnePlace | src/driver/node.go:132-167 | the directory that was created, the one that deletion reads off the handle and renames, the place its delete-files task names and the cleaned path the node mounts for what it reads off are the same, the access key handle taken off, and the marker lies beside it |
| Handles.MountPathCleaned | src/driver/node.go:137-146 | what the node builds by concatenation cleans to what the controller builds by joining |
| Handles.StripsToVolume | src/driver/node.go:133-135 | taking off what precedes the last `@` gives the volume back |
| Parameters.ReadParameters | src/driver/controller.go:85-114 | the loop computes the fold over the iteration order, and stops at the first malformed parameter |
| Parameters.ReadParameter | src/driver/controller.go:86-113 | one turn of the loop applies one parameter's effect, the key without regard to case |
| Parameters.LoopMeetsLookup | src/driver/controller.go:85-114 | without conflicting parameters every order fails exactly when some parameter is malformed, and otherwise gives each setting what a parameter for it says or its default |
| Parameters.OrderIrrelevantExactly | src/driver/controller.go:85-114 | the order does not matter if and only if some parameter is malformed or no two conflict |
| Parameters.FieldIrrelevantExactly | src/driver/controller.go:85-114 | the same setting by setting: the order does not matter for one if and only if some parameter is malformed or no two conflict on it |
| Parameters.DistinctKeysNoConflict | src/driver/controller.go:86 | keys that stay different when lower-cased never conflict |
| Parameters.MeetsUnique | src/driver/controller.go:65-114 | the declarative reading determines the settings |
| Backend.CreateKeeps | src/driver/controller.go:141-153 | creating keeps names unique and touches no other volume; a name taken before changes nothing |
| Backend.RemoveKeeps | src/driver/controller.go:168 | removing takes one volume and frees its name, while its UUID stays used |
| Backend.QuotaKeeps | src/driver/controller.go:163 | setting a quota changes that of one volume |
| Backend.UuidShape | src/driver/controller.go:187-189 | UUIDs fit into handles and paths and are never taken for a snapshot PV |
| Backend.NameLookup | src/driver/controller.go:279-280 | a volume's name is looked up in the tenant it was given with, and in no other |
| ProvisioningTheorems.RepeatExactly | src/driver/controller.go:141-197 | repeating a successful CreateVolume under any faults and iteration order, as long as both calls mean the same volume and agree on its quota, returns the same id or an error, and changes backend and directories if and only if its quota call fails and the rollback takes effect |
| ProvisioningTheorems.RepeatsChangeNothing | src/driver/controller.go:143-149 | any number of repetitions that mean the same volume and do not roll back leave the world as it was and give the same id (section CreateVolume of the Container Storage Interface specification v1.11.0) |
| ProvisioningTheorems.UnconflictedSameAsked | src/driver/controller.go:85-114 | two calls with one request always mean the same volume when no two parameters conflict on tenant, name or quota |
| ProvisioningTheorems.RetryDestroys | src/driver/controller.go:162-171 | for every volume created with a quota there is a retry that deletes it |
| ProvisioningTheorems.QuotaHolds | src/driver/controller.go:141-171 | after any attempts, conflicting parameters or not, success means the volume exists with exactly the requested quota, a failed quota call with a working rollback leaves no volume of that name, and no volume is touched or made that none of the attempts asked for |
| ProvisioningTheorems.AskedForOne | src/driver/controller.go:141-171 | without conflicts on tenant, name or quota the attempts ask for that one volume only |
| ProvisioningTheorems.CreateInPlace | src/driver/controller.go:141-197 | exactly which faults make a call fail when everything it asks for is there, and exactly when it changes anything |
| ProvisioningTheorems.CreatedMeans | src/driver/controller.go:139-197 | after success the volume is registered under its tenant and name, the id spells tenant, UUID and for shared volumes the PV, the directory is there and so is the quota |
| ProvisioningTheorems.CreateFrame | src/driver/controller.go:141-190 | no call touches a volume of another name; one for a shared volume changes no existing volume at all and no path but the claim's, others no directory |
| ProvisioningTheorems.SucceedsExactly | src/driver/controller.go:141-197 | which answers of the API and of the directory maker make a call succeed, in both directions, for new and for existing volumes and directories |
| ProvisioningTheorems.RefusedOutright | src/driver/utils.go:36-60 | a request without capacity, parameters or secrets, or with a block capability at any position, fails and changes nothing; a volume as content source is ignored |
| ProvisioningTheorems.RestoredExactly | src/driver/controller.go:201-243 | a snapshot as source fails for ids of fewer than three parts and otherwise answers with the dummy PV and the id in its context, changing nothing |
| ProvisioningTheorems.IdSpelled | src/driver/controller.go:173-197 | a created volume's id is `<tenant>|<uuid>`, with `|<pv>` behind it for shared volumes |
| ProvisioningTheorems.PreparedAgree | src/driver/controller.go:65-137 | two calls with the same parameters, no two of which conflict on tenant, name or quota, mean the same volume and quota, whoever logs in and in whatever order the map is read |
| VolumeIds.SameIdExactly | src/driver/controller.go:187-189 | over any history two ids are equal if and only if they stand for the same PV of a snapshot, subdirectory or whole volume, and that volume was not deleted in between |
| VolumeIds.RepeatedIdExactly | src/driver/controller.go:141-197 | a repeated call that succeeds returns the same id if and only if it means the same volume, conflicts or not |
| VolumeIds.ConflictingNamesBreak | src/driver/controller.go:85-90 | with two parameters that name different volumes there is a repeated call, meeting no fault, that makes a second volume for the same PV |
| VolumeIds.DifferentPvsDifferentIds | src/driver/controller.go:173-190 | PVs of different names never get the same id when the shared volume's key is spelled exactly, over any history |
| VolumeIds.MisspelledKeySharesId | src/driver/controller.go:69-90 | with the key in another spelling, and no conflict on the volume, a second PV gets the first one's id and nothing is made for it |
| VolumeIds.FormsApart | src/driver/controller.go:187-230 | ids of snapshots, subdirectories and whole volumes never coincide and give their parts back, whatever the PV is called |
| SharedVolumes.SharedVolumesSurvive | src/driver/controller.go:162-190 | over every run of creates, failed creates, deletes in both modes and expansions on issued handles, volumes with a shared name are never deleted, erased or given a quota, and tasks name single directories |
| SharedVolumes.PerformKeeps | src/driver/controller.go:279-301 | the invariant on issued handles (restored PV, whole volume that is not shared, or subdirectory) survives every call |
| SharedVolumes.MisspelledKeyErases | src/driver/controller.go:279-280 | in a class with the key spelled otherwise (without conflicts on the volume), deleting one PV erases the volume of another |
| SharedVolumes.EffectiveName | src/driver/controller.go:67-90 | with disciplined StorageClasses a request is shared exactly when the volume it ends up naming is |
| AsRequested.FreshVolumeAsRequested | src/driver/controller.go:65-171 | a new volume has the owner, labels, mode, tenant and quota that some parameter asks for, or the defaults when none does (login user and group, mode 700 or 1777, no quota) |
| AsRequested.FreshDirectoryAsRequested | src/driver/controller.go:174-186 | a new claim directory has the owner asked for and as mode the octal reading of the StorageClass string as `os.Chmod` applies it, or 0700 without one |
| AsRequested.SettingsAsRequested | src/driver/controller.go:65-137 | the settings of a call, each read off the parameter map without a loop: what some parameter asks for it, or its default, in every iteration order |
| StorageClasses.DocumentedVolume | src/driver/controller.go:65-171 | a fresh volume of a class that writes `quobyteTenant`, `sharedVolumeName`, `user`, `group`, `labels`, `createQuota: "true"` or `accessMode: "750"` has that tenant, name, owner, these labels, the quota asked for and mode 750; with no parameters mode 700 and no quota |
| StorageClasses.DocumentedDirectory | src/driver/controller.go:174-186 | a fresh claim directory of such a class has that owner, and mode 0750 for `accessMode: "750"` |
| StorageClasses.PreparedExactly | src/driver/controller.go:73-137 | a call reaches its first request exactly with credentials, a login, well-formed labels and access modes, a group, and a tenant that resolves where one is named |
| StorageClasses.FailsExactly | src/driver/controller.go:100-108 | a parameter fails a call exactly if it is labels that do not parse, or an access mode that is no decimal number below 2^32, whatever the case of its key |
| StorageClasses.QuotaAsSpelled | src/driver/controller.go:98-99 | `createQuota` with `"true"` or `"false"` is read as such |
| StorageClasses.TenantAsSpelled | src/driver/controller.go:87-88 | `quobyteTenant` names the tenant that is resolved |
| StorageClasses.ModeAsSpelled | src/driver/controller.go:104-112 | `accessMode` with a digit string below 2^31 gives that number, for the volume or for the claim's directory |
| Lifecycle.DeleteErasesOne | src/driver/controller.go:279-280 | deleting an issued whole-volume handle removes that volume and nothing else, exactly when the API takes the call, and reports success exactly when the API does |
| Lifecycle.DeleteKeepsVolumes | src/driver/controller.go:281-301 | deleting an issued subdirectory handle changes no volume, name or quota; in task mode it asks for that subdirectory alone and moves nothing |
| Lifecycle.DeleteMovesDirectory | src/driver/controller.go:282-289 | the rename succeeds if and only if nothing is at the marker's path or nothing at the directory's; the directory then lies under the marker as it was and every other path is unchanged |
| Lifecycle.RepeatedDelete | src/driver/controller.go:254-308 | repeating a successful DeleteVolume changes no volume, and a directory if and only if the first rename was told that nothing is there and the second works; after a rename that worked it succeeds (section DeleteVolume of the Container Storage Interface specification v1.11.0) |
| Lifecycle.SuccessLeavesDirectory | src/driver/controller.go:282-301 | a delete reports success with the claim's directory still in place if and only if it has credentials and either a task took it over or the rename reported a missing entry |
| Lifecycle.DeleteRestoredPv | src/driver/controller.go:260-264 | the PV of a restored snapshot is created and deleted without changing anything |
| Lifecycle.ExpandSetsOneQuota | src/driver/controller.go:499-528 | expanding a whole volume sets its quota and nothing else, and succeeds exactly when that volume exists and the call works |
| Lifecycle.ExpandLeavesSubdirectory | src/driver/controller.go:504-511 | expanding a subdirectory succeeds and does nothing |
| Lifecycle.DeleteByName | src/driver/controller.go:279-280 | deleting `<tenant>|<name>` erases the volume of that name in that tenant and no other, and succeeds exactly if there is one, the credentials suffice and the call works |
| Lifecycle.ExpandByName | src/driver/controller.go:515-526 | expanding by name sets the quota of that volume and of no other, under the same conditions |
| Lifecycle.UnknownTenantFails | src/driver/controller.go:279-280 | with an unknown tenant both fail and change nothing |
| Lifecycle.OtherIds | src/driver/controller.go:260-268 | ids of one part or of four and more are not deleted; expansion takes the first two parts of four and more |
| Controller.QuobyteDriver.ValidateCreateVolumeRequest | src/driver/utils.go:36-60 | a request is accepted exactly with a capacity, parameters, secrets and no block capability at any position |
| Controller.QuobyteDriver.Prepare | src/driver/controller.go:65-137 | the method's early returns and overrides amount to the declarative settings |
| Controller.QuobyteDriver.ObtainVolume | src/driver/controller.go:141-153 | create or resolve, on the backend as it is after the failed create |
| Controller.QuobyteDriver.SetQuotaOrRollBack | src/driver/controller.go:162-171 | the quota, or the rollback whose own failure is ignored |
| Controller.QuobyteDriver.CreateVolume | src/driver/controller.go:45-198 | the new backend, the new directories and the response are those of the specification all theorems are about |
| Controller.QuobyteDriver.CreateSnapshotResponse | src/driver/controller.go:201-243 | the dummy PV of a restored snapshot |
| Controller.QuobyteDriver.DeleteVolume | src/driver/controller.go:254-308 | the new backend, the new directories and the outcome are those of the specification |
| Controller.QuobyteDriver.ExpandVolume | src/driver/controller.go:499-528 | likewise for expansion |
| Controller.QuobyteDriver.CreateSnapshot | src/driver/controller.go:374-422 | likewise for taking a snapshot |
| Controller.QuobyteDriver.DeleteSnapshot | src/driver/controller.go:424-450 | likewise for deleting one |
| Controller.QuobyteDriver.ListSnapshots | src/driver/controller.go:452-486 | the loop fills in one entry per listed snapshot, with tenant and volume of the request's id |
| Snapshots.SnapshotJourney | src/driver/controller.go:201-243 | an id from CreateSnapshot survives CreateVolume and the node's reading to `<mount>/<volume>/.snapshots/<name>`, and creating and deleting the restored PV changes nothing |
| Snapshots.RestoredPathExact | src/driver/node.go:104-148 | that path is mounted if and only if the snapshot's name is not empty and has no separator |
| Snapshots.FourPartPath | src/driver/node.go:122-124 | the four-part id decodes to the same path with its subdirectory |
| Snapshots.ListedExactly | src/driver/controller.go:473-485 | with credentials and no failing call, an id is listed exactly when its snapshot exists, for one source volume, one entry per snapshot |
| Snapshots.ListsExactly | src/driver/controller.go:452-486 | listing by id succeeds exactly with credentials and no failing call, and gives one entry per snapshot the API names, in order, under tenant and volume of the id |
| Snapshots.ListByName | src/driver/controller.go:459-485 | listing by names lists the volume of that name in that tenant, under the names asked for |
| Snapshots.SnapshotByName | src/driver/controller.go:386-418 | a snapshot by names is taken of the volume of that name in that tenant, whatever follows in the handle, and its id has the UUIDs |
| Snapshots.DropByName | src/driver/controller.go:424-450 | deleting a snapshot by names drops it from the volume of that name in that tenant alone |
| Snapshots.StoredAsPinned | src/driver/controller.go:375-384 | a new snapshot is stored as pinned with `pinned: "true"`, and not with `"false"` or without the parameter |
| Snapshots.PinnedExactly | src/driver/controller.go:375-384 | all spellings of `pinned` that are accepted, and what they mean |
| Snapshots.PublicationExactly | src/driver/node.go:104-130 | an id stands for itself unless it is a restored PV's, which needs a snapshot id of three parts or more in its context |
| Snapshots.DeleteSnapshotExactly | src/driver/controller.go:426-449 | one snapshot of the volume is dropped, exactly when the API takes the call; it is the one meant exactly when its name has no separator |
| Snapshots.DeleteSnapshotFrame | src/driver/controller.go:426-449 | no other volume and nothing else of the backend changes |
| Snapshots.SnapshotExactly | src/driver/controller.go:374-422 | taking a snapshot of an issued handle succeeds exactly when the volume exists, `pinned` is a boolean and no call fails; it adds that one snapshot, pinned as asked, unless it is there, and changes nothing else |
| Snapshots.SubdirectoryForgotten | src/driver/controller.go:417-418 | snapshots of different subdirectories of one volume under one name are one and the same |
| Snapshots.RepeatedSnapshot | src/driver/controller.go:411-418 | taking a snapshot again under its name gives the same id and changes nothing |
| NodePublish.NodeService.NodePublishVolume | src/driver/node.go:26-102 | targets, access keys and mounts after the call, and its outcome, are those of the specification |
| NodePublish.MountsOnceOrNot | src/driver/node.go:31-101 | success mounts exactly once onto the target it made, failure never; mount options always fail; the target is made exactly if it is named and can be |
| NodePublish.AccessKeySet | src/driver/node.go:77-92 | with access keys, `quobyte.access_key` is set once on the client mount point; read back it has id and secret of the request's key and the context handle that the mounted path starts with |
| NodePublish.KeySetExactly | src/driver/node.go:31-92 | exactly which calls set it, failed ones included |
| NodePublish.PublishesExactly | src/driver/node.go:31-101 | when publishing an issued handle succeeds, in both directions |
| NodePublish.PublishesByName | src/driver/node.go:50-68 | the same for volumes given by names |
| NodePublish.RefusedIds | src/driver/node.go:104-130 | ids without a separator, and restored PVs without their snapshot's id, are refused |
| NodePublish.PublishedSpelled | src/driver/node.go:132-148 | the mounted path of an issued handle, spelled out |
| NodePublish.PublishedPlace | src/driver/node.go:46-98 | the path mounted for a claim is its directory, whether or not the UUID was looked up again |
| NodePublish.PublishedSnapshot | src/driver/node.go:104-148 | a restored PV mounts its snapshot's directory under the volume's mounted name, which is its UUID once the access key handle, if any, is taken off |
| NodePublish.PublishedByName | src/driver/node.go:50-68 | a pre-provisioned volume given by names is looked up with API credentials, and mounted by its name without, behind the access key handle if there is one |
| NodePublish.CreatedThenPublished | src/driver/node.go:97-98 | the path NodePublishVolume mounts for a claim, the access key handle taken off if there is one, is the directory that CreateVolume made, and it is there |
| ClientCache.ClientFactory.NewQuobyteApiClient | src/driver/quobyte_api_client_factory.go:29-58 | the client and the cache after the call are those of the specification, whatever was evicted |
| ClientCache.CredentialsExactly | src/driver/quobyte_api_client_factory.go:29-39 | a client is built for the access key if the secrets have one, else for user and password, else not at all |
| ClientCache.CacheTransparentExactly | src/driver/quobyte_api_client_factory.go:45-55 | caching is invisible under every eviction schedule if and only if user and password run together determine the pair among the credentials seen |
| ClientCache.ChangedPasswordGetsNewClient | src/driver/quobyte_api_client_factory.go:42-45 | through any calls and evictions a client for the same user has the password just given |
| ClientCache.KeyNotInjective | src/driver/quobyte_api_client_factory.go:45 | two users whose names and passwords run together alike share one client |
| ClientCache.AllHonest | src/driver/quobyte_api_client_factory.go:47-55 | every client served was built for credentials seen before with the same key, and one is served exactly when credentials suffice |
| Labels.ParseLabels | src/driver/utils.go:62-86 | the loop appends the labels of all segments in order, or fails with the first bad one |
| Labels.ParseKV | src/driver/utils.go:66-78 | one segment gives its trimmed name and value, or an error when either is missing or empty |
| Labels.LabelExactly | src/driver/utils.go:65-78 | for every segment: without a colon it is refused; else its name is what precedes the first colon and its value what follows up to a second, trimmed, and refused if either is blank |
| Labels.LabelsExactly | src/driver/utils.go:62-86 | a list is refused exactly if a segment is, and otherwise gives one label per segment in order |
| Labels.ParsingUndoesPrinting | src/driver/utils.go:62-86 | printing any non-empty list of trimmed labels without separators, with any white space around the parts, and parsing it gives the list back |
| Labels.AcceptedRoundTrip | src/driver/utils.go:62-86 | every accepted text has one label per segment, all parts trimmed and non-empty, and survives printing |
| Stats.UsedPlusFreeIsTotal | src/driver/node.go:232-234 | used plus free bytes are the total modulo 2^64, for all inputs |
| Stats.UsedInodesPlusAvailableIsTotal | src/driver/node.go:236-238 | the same for inodes |
| Stats.BytesExactly | src/driver/node.go:232-234 | each figure is its exact value modulo 2^64, for all inputs |
| Stats.InodesExactly | src/driver/node.go:236-238 | the same for inodes |
| Stats.InodesInRange | src/driver/node.go:236-238 | counts that fit are reported as they are: used, then free |
| Stats.StatsInRange | src/driver/node.go:232-234 | when the volume's size fits, used, available and their sum lie between zero and the total, and the sum is the total exactly when nothing is reserved or blocks are empty |

## Left out

- A failed `os.Open` in the walker, which then dereferences a nil file (`src/driver/shared_volume_directory_deleter.go:48`): listings may be incomplete in the model, but opening succeeds.
- Real time: the five minutes between rounds and the timestamps of snapshots.
- The window between the check and the rename inside `os.Rename`, and the steps inside `os.RemoveAll`: each is one step, a removal that stops half way leaves the tree with some other content.
- The steps inside a creation, in the sweep machine: making the directory is one step there. `CallSteps` has the steps, and `DriverRuns.RunIsSweepRun` carries the machine's results over.
- What a call reads before its first request that changes anything (login, parameters, tenants) is one step: nothing that calls do changes it.
- The second driver's queue and workers one by one: its sweep may remove whatever is under a name it queues at any time, which is all that they can do.
- A rename or mkdir that fails for reasons outside the modelled paths (a missing parent directory, permissions): the error is a parameter of the call.
- SweepTheorems.SafeExactlyWithoutSweptClaims: does not speak about a driver without workers or configured volumes or with an unclean mount path, where its own sweep removes nothing.
- DriverRuns.UndeletedHandlesUsable: does not follow plain files in shared volumes, nor what a delete-files task removes later. Without the condition on overlaps it is false (`LostHandles.OverlapLosesDirectory`), and `LostHandles.ReturnedExactly` says exactly when.
- A second process of the same driver at the same time: a restart ends all calls of the first.
- SharedVolumes.SharedVolumesSurvive: does not cover pre-provisioned handles written by hand, which may name a shared volume as a whole, nor PV names with `|` or `/`, which Kubernetes does not allow.
- Controller.QuobyteDriver.CreateVolume: does not model a nil request, nor a client taken from the cache; the client is the one its credentials choose, and the cache has its own module.
- Handles.OnePlace: does not speak about an empty mount path, with which the driver refuses to start (`src/driver/driver.go:85-87`).
- Lifecycle.RepeatedDelete: does not say whether erasing a volume that is gone succeeds; that is the API's answer, and both are allowed.
- The files of an erased or deleted volume: directories below it stay in the model's map, where no later UUID leads to them.
- The Quobyte API beyond its contract (unique names per tenant, UUIDs never used twice, UUIDs and the empty tenant resolve to themselves), the force flag of erasing, the user a delete-files task runs as and what that task does.
- The umask: what mkdir leaves is a parameter. Chmod follows `os.Chmod`; what the kernel itself may refuse or clear beyond that is not modelled.
- Errors of other Go types than `os.PathError` and `os.LinkError` from mkdir and rename, which the driver would ignore; the functions of `os` never return them.
- A foreign process that creates a file at a claim's path between stat and mkdir.
- Lower-casing and white space beyond what can occur in a recognised key: `ToLower` acts on ASCII letters.
- Unpublishing, capabilities, identity, the unimplemented calls, the gRPC server, flags, logging and error texts: nothing hard to prove.
- The guards of ControllerExpandVolume against a missing capacity and of NodeGetVolumeStats against disabled metrics, an empty path and a failing statfs.
- The permissions of a target directory, which `os.MkdirAll` gives.
- Access control and secrets handling, which Quobyte decides.
