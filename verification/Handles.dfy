/**
 Volume handles and snapshot ids: `|`-separated strings that controller and node
 take apart and turn into directories, each in its own way.
 */
module Handles {
  import opened Options
  import opened GoStrings
  import opened Paths
  import opened Markers

  const SEP := '|'
  const SNAPSHOT_PREFIX := "SnapshotVolumeHandle-"
  const SNAPSHOTS_DIR := ".snapshots"

  function TwoPart(tenant: string, volume: string): string {
    tenant + [SEP] + volume
  }

  function ThreePart(tenant: string, volume: string, third: string): string {
    tenant + [SEP] + volume + [SEP] + third
  }

  predicate NoSep(s: string) {
    SEP !in s
  }

  /** What `DeleteVolume` makes of a handle, before it touches anything. */
  datatype DeletePlan =
    | Refuse
    | Ignore
    | Erase(tenant: string, volume: string)
    | DropSubdirectory(volume: string, sub: string)

  function PlanDelete(volumeId: string): DeletePlan {
    if volumeId == "" then Refuse
    else if HasPrefix(volumeId, SNAPSHOT_PREFIX) then Ignore
    else
      var parts := Split(volumeId, SEP);
      if |parts| == 2 then Erase(parts[0], parts[1])
      else if |parts| == 3 then DropSubdirectory(parts[1], parts[2])
      else Refuse
  }

  /** What `expandVolume` makes of it: nothing for a shared volume's subdirectory. */
  datatype ExpandPlan = NotAHandle | NothingToExpand | Resize(tenant: string, volume: string)

  function PlanExpand(volumeId: string): ExpandPlan {
    var parts := Split(volumeId, SEP);
    if |parts| < 2 then NotAHandle
    else if |parts| == 3 then NothingToExpand
    else Resize(parts[0], parts[1])
  }

  /** The node's reading of a handle. */
  datatype Located = Located(tenant: string, volume: string, sub: string)

  function ProcessVolumeHandle(volumeHandle: string): Option<Located> {
    var parts := Split(volumeHandle, SEP);
    if |parts| < 2 then None
    else if |parts| == 2 then Some(Located(parts[0], parts[1], ""))
    else Some(Located(parts[0], parts[1], parts[2]))
  }

  /** A claim's directory, as `CreateVolume` makes it and `DeleteVolume` renames it. */
  function ClaimDirectory(mount: string, volume: string, sub: string): string {
    JoinPath([mount, volume, sub])
  }

  /** The target of the rename. */
  function MarkerDirectory(mount: string, driver: string, volume: string, sub: string): string {
    JoinPath([mount, volume, Marker(driver, sub)])
  }

  /** The directory of a delete-files task: a path within its volume. */
  function TaskPath(sub: string): string {
    "/" + sub
  }

  /** The source `NodePublishVolume` bind-mounts. */
  function MountPath(mount: string, uuid: string, accessKeyHandle: string, snapshot: string, sub: string): string {
    mount + "/" + (if accessKeyHandle != "" then accessKeyHandle + "@" + uuid else uuid)
    + (if snapshot != "" then "/" + SNAPSHOTS_DIR + "/" + snapshot else "")
    + (if sub != "" then "/" + sub else "")
  }

  /** `formMountPath`, which reassigns its path piece by piece. */
  method FormMountPath(clientMountPoint: string, volume: string, accessKeyHandle: string,
                       snapshotName: string, subDirectory: string) returns (mountPath: string)
    ensures mountPath == MountPath(clientMountPoint, volume, accessKeyHandle, snapshotName, subDirectory)
  {
    var volumeUUID := volume;
    if |accessKeyHandle| > 0 {
      volumeUUID := accessKeyHandle + "@" + volumeUUID;
    }
    mountPath := clientMountPoint + "/" + volumeUUID;
    if |snapshotName| > 0 {
      var below := "/" + SNAPSHOTS_DIR + "/" + snapshotName;
      mountPath := mountPath + below;
    }
    if |subDirectory| > 0 {
      var below := "/" + subDirectory;
      mountPath := mountPath + below;
    }
  }

  /** The node's volume component with any access key context handle taken off. */
  function StripHandle(component: string): string {
    var parts := Split(component, '@');
    parts[|parts| - 1]
  }

  /** A handle has the snapshot prefix only if its tenant part has it. */
  lemma SnapshotPrefixOfTenant(tenant: string, rest: string)
    requires NoSep(tenant)
    ensures HasPrefix(tenant + [SEP] + rest, SNAPSHOT_PREFIX) <==> HasPrefix(tenant, SNAPSHOT_PREFIX)
  {
    var s, p := tenant + [SEP] + rest, SNAPSHOT_PREFIX;
    assert NoSep(p);
    if |p| <= |tenant| {
      assert s[..|p|] == tenant[..|p|];
    } else {
      assert s[|tenant|] == SEP && p[|tenant|] != SEP;
    }
  }

  /** The parts a controller puts into a handle, and a tenant that is not mistaken for a snapshot. */
  ghost predicate HandleParts(tenant: string, uuid: string) {
    NoSep(tenant) && NoSep(uuid) && !HasPrefix(tenant, SNAPSHOT_PREFIX)
  }

  /** Both sides read a two-part handle as the whole volume. */
  lemma TwoPartRoundTrip(tenant: string, uuid: string)
    requires HandleParts(tenant, uuid)
    ensures PlanDelete(TwoPart(tenant, uuid)) == Erase(tenant, uuid)
    ensures PlanExpand(TwoPart(tenant, uuid)) == Resize(tenant, uuid)
    ensures ProcessVolumeHandle(TwoPart(tenant, uuid)) == Some(Located(tenant, uuid, ""))
  {
    SplitTwo(tenant, uuid, SEP);
    SnapshotPrefixOfTenant(tenant, uuid);
  }

  /** Both sides read a three-part handle as the same subdirectory, and expansion leaves it alone. */
  lemma ThreePartRoundTrip(tenant: string, uuid: string, sub: string)
    requires HandleParts(tenant, uuid) && NoSep(sub)
    ensures PlanDelete(ThreePart(tenant, uuid, sub)) == DropSubdirectory(uuid, sub)
    ensures PlanExpand(ThreePart(tenant, uuid, sub)) == NothingToExpand
    ensures ProcessVolumeHandle(ThreePart(tenant, uuid, sub)) == Some(Located(tenant, uuid, sub))
  {
    SplitThree(tenant, uuid, sub, SEP);
    assert ThreePart(tenant, uuid, sub) == tenant + [SEP] + (uuid + [SEP] + sub);
    SnapshotPrefixOfTenant(tenant, uuid + [SEP] + sub);
  }

  /** Handles determine their parts, and the two forms never coincide. */
  lemma HandlesInjective(t: string, u: string, s: string, t': string, u': string, s': string)
    requires NoSep(t) && NoSep(u) && NoSep(s) && NoSep(t') && NoSep(u') && NoSep(s')
    ensures ThreePart(t, u, s) == ThreePart(t', u', s') <==> t == t' && u == u' && s == s'
    ensures TwoPart(t, u) == TwoPart(t', u') <==> t == t' && u == u'
    ensures TwoPart(t, u) != ThreePart(t', u', s')
  {
    SplitThree(t, u, s, SEP);
    SplitThree(t', u', s', SEP);
    SplitTwo(t, u, SEP);
    SplitTwo(t', u', SEP);
    if ThreePart(t, u, s) == ThreePart(t', u', s') {
      assert [t, u, s][0] == [t', u', s'][0] && [t, u, s][1] == [t', u', s'][1] && [t, u, s][2] == [t', u', s'][2];
    }
    if TwoPart(t, u) == TwoPart(t', u') {
      assert [t, u][0] == [t', u'][0] && [t, u][1] == [t', u'][1];
    }
  }

  lemma ComponentIsPlain(accessKeyHandle: string, uuid: string)
    requires Plain(uuid) && '/' !in accessKeyHandle
    ensures Plain(accessKeyHandle + "@" + uuid)
  {
    var component := accessKeyHandle + "@" + uuid;
    assert component[|accessKeyHandle|] == '@' && '@' in component;
  }

  lemma MountPathIs(mount: string, uuid: string, accessKeyHandle: string, sub: string, component: string)
    requires sub != "" && component == if accessKeyHandle != "" then accessKeyHandle + "@" + uuid else uuid
    ensures MountPath(mount, uuid, accessKeyHandle, "", sub) == mount + "/" + component + "/" + sub
  {
  }

  /** The path mounted for a subdirectory, cleaned: the created directory, under the volume's mounted name. */
  lemma MountPathCleaned(mount: string, uuid: string, accessKeyHandle: string, sub: string)
    requires mount != "" && Plain(uuid) && Plain(sub) && '/' !in accessKeyHandle
    ensures var component := if accessKeyHandle != "" then accessKeyHandle + "@" + uuid else uuid;
            Clean(MountPath(mount, uuid, accessKeyHandle, "", sub)) == JoinPath([mount, component, sub])
  {
    var component := if accessKeyHandle != "" then accessKeyHandle + "@" + uuid else uuid;
    ComponentIsPlain(accessKeyHandle, uuid);
    JoinThree(mount, component, sub);
    MountPathIs(mount, uuid, accessKeyHandle, sub, component);
  }

  lemma StripsToVolume(accessKeyHandle: string, uuid: string)
    requires '@' !in uuid
    ensures StripHandle(accessKeyHandle + "@" + uuid) == uuid && StripHandle(uuid) == uuid
  {
    SplitConcat(accessKeyHandle, uuid, '@');
    SplitAtom(uuid, '@');
  }

  /**
   Controller and node agree: for a handle of a claim in a shared volume, the
   directory that was created, what deletion reads off the handle and renames, the
   place its delete-files task names and the path the node mounts for what it reads
   off are one and the same, once the mounted path is cleaned and the access key
   handle, if any, is taken off the volume's name. The marker lies beside it.
   */
  lemma OnePlace(mount: string, driver: string, tenant: string, uuid: string, pvName: string, accessKeyHandle: string)
    requires mount != "" && HandleParts(tenant, uuid) && Plain(uuid) && '@' !in uuid
    requires NoSep(pvName) && Plain(pvName) && '/' !in driver && '/' !in accessKeyHandle
    ensures var id, place := ThreePart(tenant, uuid, pvName), ClaimDirectory(mount, uuid, pvName);
            && PlanDelete(id).DropSubdirectory? && ProcessVolumeHandle(id).Some?
            && var plan, located := PlanDelete(id), ProcessVolumeHandle(id).value;
            var marker := MarkerDirectory(mount, driver, plan.volume, plan.sub);
            && ClaimDirectory(mount, plan.volume, plan.sub) == place
            && Clean(mount + "/" + plan.volume + TaskPath(plan.sub)) == place
            && Clean(MountPath(mount, located.volume, "", "", located.sub)) == place
            && (accessKeyHandle != "" ==>
                  Clean(MountPath(mount, located.volume, accessKeyHandle, "", located.sub)) ==
                    JoinPath([mount, accessKeyHandle + "@" + uuid, pvName]) &&
                  StripHandle(accessKeyHandle + "@" + uuid) == uuid)
            && DirPart(marker) == DirPart(place)
            && FilePart(place) == pvName && FilePart(marker) == Marker(driver, pvName)
  {
    ThreePartRoundTrip(tenant, uuid, pvName);
    MountPathCleaned(mount, uuid, "", pvName);
    MountPathCleaned(mount, uuid, accessKeyHandle, pvName);
    StripsToVolume(accessKeyHandle, uuid);
    assert mount + "/" + uuid + TaskPath(pvName) == mount + "/" + uuid + "/" + pvName;
    JoinThree(mount, uuid, pvName);
    MarkerIsPlain(driver, pvName);
    JoinThree(mount, uuid, Marker(driver, pvName));
  }

  /** How handles are spelled. */
  lemma HandlesSpelled(tenant: string, volume: string, third: string)
    ensures TwoPart(tenant, volume) == tenant + "|" + volume
    ensures ThreePart(tenant, volume, third) == tenant + "|" + volume + "|" + third
  {
  }

  /** What each reader makes of a handle of any number of parts. */
  lemma PlansExactly(parts: seq<string>)
    requires parts != [] && forall p <- parts :: '|' !in p
    ensures var id := Join(parts, '|');
            && PlanDelete(id) == (if id == "" then Refuse
                                  else if "SnapshotVolumeHandle-" <= id then Ignore
                                  else if |parts| == 2 then Erase(parts[0], parts[1])
                                  else if |parts| == 3 then DropSubdirectory(parts[1], parts[2])
                                  else Refuse)
            && PlanExpand(id) == (if |parts| == 1 then NotAHandle
                                  else if |parts| == 3 then NothingToExpand
                                  else Resize(parts[0], parts[1]))
            && ProcessVolumeHandle(id) == (if |parts| == 1 then None
                                           else if |parts| == 2 then Some(Located(parts[0], parts[1], ""))
                                           else Some(Located(parts[0], parts[1], parts[2])))
  {
    SplitJoinAtoms(parts, '|');
  }

  /** The path mounted, spelled out by what there is to mount. */
  lemma MountPathSpelled(mount: string, uuid: string, handle: string, snapshot: string, sub: string)
    requires handle != "" && snapshot != "" && sub != ""
    ensures MountPath(mount, uuid, "", "", "") == mount + "/" + uuid
    ensures MountPath(mount, uuid, "", "", sub) == mount + "/" + uuid + "/" + sub
    ensures MountPath(mount, uuid, "", snapshot, "") == mount + "/" + uuid + "/.snapshots/" + snapshot
    ensures MountPath(mount, uuid, "", snapshot, sub) == mount + "/" + uuid + "/.snapshots/" + snapshot + "/" + sub
    ensures MountPath(mount, uuid, handle, "", "") == mount + "/" + handle + "@" + uuid
    ensures MountPath(mount, uuid, handle, "", sub) == mount + "/" + handle + "@" + uuid + "/" + sub
    ensures MountPath(mount, uuid, handle, snapshot, "") ==
              mount + "/" + handle + "@" + uuid + "/.snapshots/" + snapshot
    ensures MountPath(mount, uuid, handle, snapshot, sub) ==
              mount + "/" + handle + "@" + uuid + "/.snapshots/" + snapshot + "/" + sub
  {
    assert "/" + SNAPSHOTS_DIR + "/" == "/.snapshots/";
  }
}
