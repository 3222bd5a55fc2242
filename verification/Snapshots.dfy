/**
 Snapshots: ids of the form tenant|volume|name[|subdirectory], from their creation
 through a restored PV to the path a node mounts.
 */
module Snapshots {
  import opened Options
  import opened GoStrings
  import opened Paths
  import opened Handles
  import opened ClientCache
  import opened B = Backend
  import opened Provisioning
  import opened Lifecycle
  import D = DirectoryMaker

  const PINNED_KEY := "pinned"

  function ParseBool(s: string): Option<bool> {
    if s in ["1", "t", "T", "TRUE", "true", "True"] then Some(true)
    else if s in ["0", "f", "F", "FALSE", "false", "False"] then Some(false)
    else None
  }

  datatype SnapshotResult = Taken | TakenBefore | NotTaken

  /** The API's part: a name is taken once per volume. */
  function TakeSnapshot(b: Backend, uuid: string, name: string, pinned: bool, fault: Fault): (Backend, SnapshotResult) {
    if fault.Refused? || uuid !in b.volumes then (b, NotTaken)
    else
      var v := b.volumes[uuid];
      if name in v.snapshots then (b, if fault.Works? then TakenBefore else NotTaken)
      else (b.(volumes := b.volumes[uuid := v.(snapshots := v.snapshots[name := pinned])]),
            if fault.Works? then Taken else NotTaken)
  }

  /** Whether dropping a snapshot that is gone is an error is left to the API. */
  function DropSnapshot(b: Backend, uuid: string, name: string, fault: Fault): (Backend, bool) {
    if fault.Refused? then (b, false)
    else (if uuid in b.volumes
          then b.(volumes := b.volumes[uuid := b.volumes[uuid].(snapshots := b.volumes[uuid].snapshots - {name})])
          else b,
          fault.Works?)
  }

  datatype SnapshotRequest = SnapshotRequest(name: string, sourceVolumeId: string,
                                             params: map<string, string>, secrets: Secrets)

  /** Whether volume and tenant could be looked up, and how the call itself goes. */
  datatype SnapshotEnv = SnapshotEnv(lookupFault: bool, call: Fault)

  function Pinned(params: map<string, string>): Option<bool> {
    if PINNED_KEY in params then ParseBool(params[PINNED_KEY]) else Some(false)
  }

  /** `CreateSnapshot`: only the first two parts of the volume's handle go into the id. */
  function CreateSnapshot(b: Backend, req: SnapshotRequest, env: SnapshotEnv): (Backend, Option<string>) {
    var parts := Split(req.sourceVolumeId, SEP);
    if Pinned(req.params).None? || |parts| < 2 || Choose(req.secrets).None? || env.lookupFault then (b, None)
    else
      match (VolumeUuid(b, parts[1], parts[0]), TenantUuid(b, parts[0]))
      case (Some(uuid), Some(tenant)) =>
        var r := TakeSnapshot(b, uuid, req.name, Pinned(req.params).value, env.call);
        (r.0, if r.1.NotTaken? then None else Some(ThreePart(tenant, uuid, req.name)))
      case _ => (b, None)
  }

  /** The volume a snapshot id belongs to. */
  function VolumeOf(b: Backend, snapshotId: string, secrets: Secrets, env: SnapshotEnv): Option<string> {
    var parts := Split(snapshotId, SEP);
    if |parts| < 3 || Choose(secrets).None? || env.lookupFault then None
    else
      match TenantUuid(b, parts[0])
      case Some(tenant) => VolumeUuid(b, parts[1], tenant)
      case None => None
  }

  function DeleteSnapshot(b: Backend, snapshotId: string, secrets: Secrets, env: SnapshotEnv): (Backend, bool) {
    match VolumeOf(b, snapshotId, secrets, env)
    case None => (b, false)
    case Some(uuid) =>
      var parts := Split(snapshotId, SEP);
      DropSnapshot(b, uuid, if |parts| < 3 then "" else parts[2], env.call)
  }

  datatype Entry = Entry(sourceVolumeId: string, snapshotId: string)

  /** What `ListSnapshots` makes of the API's answer. */
  function Entries(tenant: string, volume: string, uuid: string, listing: seq<string>): (entries: seq<Entry>)
    ensures |entries| == |listing|
  {
    seq<Entry>(|listing|, i requires 0 <= i < |listing| => Entry(uuid, ThreePart(tenant, volume, listing[i])))
  }

  /** The API lists each snapshot of the volume, in any order. */
  ghost predicate Lists(b: Backend, uuid: string, listing: seq<string>) {
    uuid in b.volumes && forall n :: n in listing <==> n in b.volumes[uuid].snapshots
  }

  function ListSnapshots(b: Backend, snapshotId: string, secrets: Secrets, env: SnapshotEnv, listing: seq<string>):
    Option<seq<Entry>>
  {
    match VolumeOf(b, snapshotId, secrets, env)
    case None => None
    case Some(uuid) =>
      var parts := Split(snapshotId, SEP);
      if !env.call.Works? || |parts| < 3 then None else Some(Entries(parts[0], parts[1], uuid, listing))
  }

  /** What the node mounts: the handle and the snapshot within it, if any. */
  datatype Publication = Publication(volumeHandle: string, snapshot: string)

  function PublicationOf(volumeId: string, context: Option<map<string, string>>): Option<Publication> {
    if !HasPrefix(volumeId, SNAPSHOT_PREFIX) then Some(Publication(volumeId, ""))
    else if context.None? || SNAPSHOT_ID_KEY !in context.value then None
    else
      var parts := Split(context.value[SNAPSHOT_ID_KEY], SEP);
      if |parts| < 3 then None
      else if |parts| == 4 then Some(Publication(ThreePart(parts[0], parts[1], parts[3]), parts[2]))
      else Some(Publication(TwoPart(parts[0], parts[1]), parts[2]))
  }

  /** The path mounted for a PV restored from a snapshot id, when the handle's volume is a UUID. */
  function RestoredPath(mount: string, volumeId: string, context: map<string, string>): Option<string> {
    match PublicationOf(volumeId, Some(context))
    case None => None
    case Some(p) =>
      match ProcessVolumeHandle(p.volumeHandle)
      case None => None
      case Some(at) => Some(MountPath(mount, at.volume, "", p.snapshot, at.sub))
  }

  function SnapshotPath(mount: string, uuid: string, name: string): string {
    mount + "/" + uuid + "/" + SNAPSHOTS_DIR + "/" + name
  }

  lemma SnapshotPathSpelled(mount: string, volume: string, name: string)
    ensures SnapshotPath(mount, volume, name) == mount + "/" + volume + "/.snapshots/" + name
  {
    assert "/" + SNAPSHOTS_DIR + "/" == "/.snapshots/";
  }

  /** A snapshot id is split behind its tenant and volume, whatever the snapshot is called. */
  lemma SplitId(tenant: string, volume: string, rest: string)
    requires NoSep(tenant) && NoSep(volume)
    ensures Split(ThreePart(tenant, volume, rest), SEP) == [tenant, volume] + Split(rest, SEP)
  {
    SplitConcat(tenant + [SEP] + volume, rest, SEP);
    SplitTwo(tenant, volume, SEP);
  }

  /** A name in one, two, or three and more parts. */
  lemma NameParts(name: string)
    ensures var parts := Split(name, SEP);
            && (|parts| == 1 <==> NoSep(name))
            && (|parts| == 1 ==> parts[0] == name)
            && (|parts| == 2 ==> name == parts[0] + [SEP] + parts[1])
            && (|parts| >= 2 ==> |parts[0]| < |name| && name[|parts[0]|] == SEP)
  {
    var parts := Split(name, SEP);
    JoinSplit(name, SEP);
    if NoSep(name) {
      SplitAtom(name, SEP);
    }
    if |parts| == 2 {
      assert Join(parts[1..], SEP) == parts[1];
    }
  }

  lemma PublicationOfId(pvName: string, tenant: string, uuid: string, name: string)
    requires IsTenant(tenant) && IsUuid(uuid)
    ensures var parts := Split(name, SEP);
            PublicationOf(SNAPSHOT_PREFIX + pvName, Some(map[SNAPSHOT_ID_KEY := ThreePart(tenant, uuid, name)])) ==
              Some(Publication(if |parts| == 2 then ThreePart(tenant, uuid, parts[1]) else TwoPart(tenant, uuid),
                               parts[0]))
  {
    UuidShape(tenant);
    UuidShape(uuid);
    SplitId(tenant, uuid, name);
    assert HasPrefix(SNAPSHOT_PREFIX + pvName, SNAPSHOT_PREFIX);
  }

  /**
   What a volume id and its context stand for, exactly: any id but a restored PV's
   stands for itself; a restored PV's needs a snapshot id of three parts or more in
   its context.
   */
  lemma PublicationExactly(volumeId: string, context: Option<map<string, string>>)
    ensures !("SnapshotVolumeHandle-" <= volumeId) ==>
              PublicationOf(volumeId, context) == Some(Publication(volumeId, ""))
    ensures "SnapshotVolumeHandle-" <= volumeId ==>
              (PublicationOf(volumeId, context).Some? <==>
                 && context.Some? && "snapshot_id_key" in context.value
                 && |Split(context.value["snapshot_id_key"], '|')| >= 3)
  {
  }

  /** The mounted path by the parts of the name: a name with one separator is read as a snapshot and a subdirectory. */
  lemma RestoredPathOfId(mount: string, pvName: string, tenant: string, uuid: string, name: string)
    requires IsTenant(tenant) && IsUuid(uuid)
    ensures var parts := Split(name, SEP);
            RestoredPath(mount, SNAPSHOT_PREFIX + pvName, map[SNAPSHOT_ID_KEY := ThreePart(tenant, uuid, name)]) ==
              Some(MountPath(mount, uuid, "", parts[0], if |parts| == 2 then parts[1] else ""))
  {
    var parts := Split(name, SEP);
    PublicationOfId(pvName, tenant, uuid, name);
    UuidShape(tenant);
    UuidShape(uuid);
    TwoPartRoundTrip(tenant, uuid);
    if |parts| == 2 {
      assert parts[1] in parts;
      ThreePartRoundTrip(tenant, uuid, parts[1]);
    }
  }

  /** Below a directory, only the undivided name leads to itself. */
  lemma NoOtherPath(below: string, name: string, first: string, second: string)
    requires |first| < |name| && name[|first|] == SEP
    ensures below + first != below + name && below + (first + "/" + second) != below + name
  {
    var path := below + (first + "/" + second);
    assert |below + first| < |below + name|;
    assert path[|below| + |first|] == '/' && (below + name)[|below| + |first|] == SEP;
  }

  lemma SnapshotPathIs(mount: string, uuid: string, name: string)
    ensures SnapshotPath(mount, uuid, name) == SnapshotPath(mount, uuid, "") + name
    ensures |SnapshotPath(mount, uuid, "")| == |mount| + |uuid| + |SNAPSHOTS_DIR| + 3
  {
  }

  lemma MountPathBelow(mount: string, uuid: string, first: string, second: string)
    ensures first != "" ==> MountPath(mount, uuid, "", first, second) ==
                              SnapshotPath(mount, uuid, "") + (if second == "" then first else first + "/" + second)
    ensures first == "" ==> |MountPath(mount, uuid, "", first, second)| <= |mount| + |uuid| + 2 + |second|
  {
  }

  lemma MountPathParts(mount: string, uuid: string, name: string, first: string, second: string)
    requires if NoSep(name) then first == name && second == ""
             else |first| < |name| && name[|first|] == SEP && |second| < |name|
    ensures MountPath(mount, uuid, "", first, second) == SnapshotPath(mount, uuid, name) <==> name != "" && NoSep(name)
  {
    SnapshotPathIs(mount, uuid, name);
    MountPathBelow(mount, uuid, first, second);
    var below := SnapshotPath(mount, uuid, "");
    if first != "" && !NoSep(name) {
      NoOtherPath(below, name, first, second);
    } else if first == "" {
      assert |MountPath(mount, uuid, "", first, second)| < |below + name|;
    }
  }

  /**
   Exactly when a restored PV mounts `<mount>/<volume>/.snapshots/<name>`: when
   the snapshot's name is not empty and does not hold the separator.
   */
  lemma RestoredPathExact(mount: string, pvName: string, tenant: string, uuid: string, name: string)
    requires IsTenant(tenant) && IsUuid(uuid)
    ensures var context := map[SNAPSHOT_ID_KEY := ThreePart(tenant, uuid, name)];
            RestoredPath(mount, SNAPSHOT_PREFIX + pvName, context) == Some(SnapshotPath(mount, uuid, name)) <==>
              name != "" && NoSep(name)
  {
    RestoredPathOfId(mount, pvName, tenant, uuid, name);
    NameParts(name);
    var parts := Split(name, SEP);
    MountPathParts(mount, uuid, name, parts[0], if |parts| == 2 then parts[1] else "");
  }

  /** A four-part id, as for pre-provisioned snapshots, decodes to the same path with its subdirectory. */
  lemma FourPartPath(mount: string, pvName: string, tenant: string, uuid: string, name: string, sub: string)
    requires IsTenant(tenant) && IsUuid(uuid) && name != "" && NoSep(name) && sub != "" && NoSep(sub)
    ensures RestoredPath(mount, SNAPSHOT_PREFIX + pvName,
                         map[SNAPSHOT_ID_KEY := ThreePart(tenant, uuid, name) + [SEP] + sub]) ==
              Some(SnapshotPath(mount, uuid, name) + "/" + sub)
  {
    assert ThreePart(tenant, uuid, name) + [SEP] + sub == ThreePart(tenant, uuid, TwoPart(name, sub));
    SplitTwo(name, sub, SEP);
    RestoredPathOfId(mount, pvName, tenant, uuid, TwoPart(name, sub));
    assert MountPath(mount, uuid, "", name, sub) == SnapshotPath(mount, uuid, name) + "/" + sub;
  }

  /** A handle the driver issued, of a whole volume or of a subdirectory in it. */
  ghost predicate HandleOf(b: Backend, id: string, tenant: string, uuid: string, pvName: string) {
    WholeHandle(b, id, tenant, uuid) || SubHandle(id, tenant, uuid, pvName)
  }

  /** What `CreateSnapshot` reads off an issued handle. */
  lemma SnapshotParts(b: Backend, id: string, tenant: string, uuid: string, pvName: string)
    requires HandleOf(b, id, tenant, uuid, pvName)
    ensures var parts := Split(id, SEP); |parts| >= 2 && parts[0] == tenant && parts[1] == uuid
    ensures VolumeUuid(b, uuid, tenant) == Some(uuid) && TenantUuid(b, tenant) == Some(tenant)
  {
    UuidShape(tenant);
    UuidShape(uuid);
    SplitTwo(tenant, uuid, SEP);
    SplitId(tenant, uuid, pvName);
  }

  /** The call to the API that an issued handle leads to; which subdirectory it meant is forgotten. */
  lemma SnapshotCall(b: Backend, req: SnapshotRequest, env: SnapshotEnv, tenant: string, uuid: string, pvName: string)
    requires HandleOf(b, req.sourceVolumeId, tenant, uuid, pvName)
    ensures CreateSnapshot(b, req, env) ==
              if Pinned(req.params).None? || Choose(req.secrets).None? || env.lookupFault then (b, None)
              else
                var r := TakeSnapshot(b, uuid, req.name, Pinned(req.params).value, env.call);
                (r.0, if r.1.NotTaken? then None else Some(ThreePart(tenant, uuid, req.name)))
  {
    SnapshotParts(b, req.sourceVolumeId, tenant, uuid, pvName);
  }

  lemma TakeExactly(b: Backend, uuid: string, name: string, pinned: bool, fault: Fault)
    ensures var r := TakeSnapshot(b, uuid, name, pinned, fault);
            && (!r.1.NotTaken? <==> uuid in b.volumes && fault.Works?)
            && r.0 == b.(volumes := r.0.volumes) && r.0.volumes.Keys == b.volumes.Keys
            && (forall u <- b.volumes :: u != uuid ==> r.0.volumes[u] == b.volumes[u])
            && (!r.1.NotTaken? ==>
                  r.0.volumes[uuid] == if name in b.volumes[uuid].snapshots then b.volumes[uuid]
                                       else b.volumes[uuid].(snapshots := b.volumes[uuid].snapshots[name := pinned]))
  {
  }

  /**
   One call adds the named snapshot to the handle's volume, pinned as asked, unless
   it is there; it changes nothing else, and succeeds exactly when the volume exists,
   the pinned parameter is a boolean and no call fails.
   */
  lemma SnapshotExactly(b: Backend, req: SnapshotRequest, env: SnapshotEnv, tenant: string, uuid: string,
                        pvName: string)
    requires HandleOf(b, req.sourceVolumeId, tenant, uuid, pvName)
    ensures var r := CreateSnapshot(b, req, env);
            && (r.1.Some? <==> && Pinned(req.params).Some? && Choose(req.secrets).Some? && !env.lookupFault
                               && uuid in b.volumes && env.call.Works?)
            && r.0 == b.(volumes := r.0.volumes) && r.0.volumes.Keys == b.volumes.Keys
            && (forall u <- b.volumes :: u != uuid ==> r.0.volumes[u] == b.volumes[u])
            && (r.1.Some? ==>
                  && r.1.value == ThreePart(tenant, uuid, req.name)
                  && r.0.volumes[uuid] ==
                       if req.name in b.volumes[uuid].snapshots then b.volumes[uuid]
                       else b.volumes[uuid].(snapshots :=
                              b.volumes[uuid].snapshots[req.name := Pinned(req.params).value]))
  {
    SnapshotCall(b, req, env, tenant, uuid, pvName);
    if Pinned(req.params).Some? {
      TakeExactly(b, uuid, req.name, Pinned(req.params).value, env.call);
    }
  }

  /** Snapshots of subdirectories of one volume with one name are one and the same. */
  lemma SubdirectoryForgotten(b: Backend, req: SnapshotRequest, env: SnapshotEnv, tenant: string, uuid: string,
                              pvName: string, other: string)
    requires SubHandle(req.sourceVolumeId, tenant, uuid, pvName) && NoSep(other) && Plain(other)
    ensures CreateSnapshot(b, req, env) ==
              CreateSnapshot(b, req.(sourceVolumeId := ThreePart(tenant, uuid, other)), env)
  {
    assert HandleOf(b, req.sourceVolumeId, tenant, uuid, pvName);
    assert HandleOf(b, ThreePart(tenant, uuid, other), tenant, uuid, other);
    SnapshotCall(b, req, env, tenant, uuid, pvName);
    SnapshotCall(b, req.(sourceVolumeId := ThreePart(tenant, uuid, other)), env, tenant, uuid, other);
  }

  /** Taking a snapshot again under the same name gives the same id and changes nothing, pinned or not. */
  lemma RepeatedSnapshot(b: Backend, req: SnapshotRequest, env: SnapshotEnv, req': SnapshotRequest, env': SnapshotEnv,
                         tenant: string, uuid: string, pvName: string)
    requires HandleOf(b, req.sourceVolumeId, tenant, uuid, pvName) && req'.sourceVolumeId == req.sourceVolumeId
    requires req'.name == req.name && CreateSnapshot(b, req, env).1.Some?
    ensures var r := CreateSnapshot(b, req, env);
            var r' := CreateSnapshot(r.0, req', env');
            r'.0 == r.0 && (r'.1.Some? ==> r'.1 == r.1)
  {
    SnapshotExactly(b, req, env, tenant, uuid, pvName);
    var b' := CreateSnapshot(b, req, env).0;
    assert HandleOf(b', req.sourceVolumeId, tenant, uuid, pvName);
    SnapshotCall(b', req', env', tenant, uuid, pvName);
  }

  lemma VolumeOfId(b: Backend, tenant: string, uuid: string, name: string, secrets: Secrets, env: SnapshotEnv)
    requires IsTenant(tenant) && IsUuid(uuid)
    ensures Split(ThreePart(tenant, uuid, name), SEP) == [tenant, uuid] + Split(name, SEP)
    ensures VolumeOf(b, ThreePart(tenant, uuid, name), secrets, env) ==
              if Choose(secrets).None? || env.lookupFault then None else Some(uuid)
  {
    UuidShape(tenant);
    UuidShape(uuid);
    SplitId(tenant, uuid, name);
  }

  /**
   Exactly when listing by id succeeds, and what it returns: one entry per snapshot
   the API names, in that order, each under the tenant and volume of the id.
   */
  lemma ListsExactly(b: Backend, tenant: string, uuid: string, name: string, secrets: Secrets, env: SnapshotEnv,
                     listing: seq<string>)
    requires IsTenant(tenant) && IsUuid(uuid)
    ensures var r := ListSnapshots(b, tenant + "|" + uuid + "|" + name, secrets, env, listing);
            && (r.Some? <==> Choose(secrets).Some? && !env.lookupFault && env.call.Works?)
            && (r.Some? ==>
                  && |r.value| == |listing|
                  && forall i :: 0 <= i < |listing| ==>
                       r.value[i] == Entry(uuid, tenant + "|" + uuid + "|" + listing[i]))
  {
    VolumeOfId(b, tenant, uuid, name, secrets, env);
  }

  /** An id is in the list exactly when its snapshot exists, and once if the API names each snapshot once. */
  lemma ListedExactly(b: Backend, tenant: string, uuid: string, name: string, secrets: Secrets, env: SnapshotEnv,
                      listing: seq<string>)
    requires IsTenant(tenant) && IsUuid(uuid) && Lists(b, uuid, listing)
    requires Choose(secrets).Some? && !env.lookupFault && env.call.Works?
    ensures var id := ThreePart(tenant, uuid, name);
            && ListSnapshots(b, id, secrets, env, listing).Some?
            && var entries := ListSnapshots(b, id, secrets, env, listing).value;
            && (Entry(uuid, id) in entries <==> name in b.volumes[uuid].snapshots)
            && (forall e <- entries :: e.snapshotId == id ==> e == Entry(uuid, id))
            && |entries| == |listing|
  {
    VolumeOfId(b, tenant, uuid, name, secrets, env);
    var id, entries := ThreePart(tenant, uuid, name), Entries(tenant, uuid, uuid, listing);
    if name in listing {
      var i :| 0 <= i < |listing| && listing[i] == name;
      assert entries[i] == Entry(uuid, id);
    }
    forall e | e in entries && e.snapshotId == id ensures name in listing && e == Entry(uuid, id) {
      var i :| 0 <= i < |entries| && entries[i] == e;
      var prefix := tenant + [SEP] + uuid + [SEP];
      assert id[|prefix|..] == name && e.snapshotId[|prefix|..] == listing[i];
    }
  }

  lemma DropExactly(b: Backend, uuid: string, name: string, fault: Fault)
    requires Valid(b)
    ensures var r := DropSnapshot(b, uuid, name, fault);
            && Valid(r.0) && Grows(b, r.0) && r.0 == b.(volumes := r.0.volumes)
            && r.0.volumes.Keys == b.volumes.Keys && (r.1 <==> fault.Works?)
            && (forall u <- b.volumes :: u != uuid ==> r.0.volumes[u] == b.volumes[u])
            && (uuid in b.volumes ==>
                  r.0.volumes[uuid] == b.volumes[uuid].(snapshots := b.volumes[uuid].snapshots -
                                                                     (if fault.Refused? then {} else {name})))
  {
  }

  /** The call to the API that deleting by id leads to: for the first part of the snapshot's name. */
  lemma DeleteSnapshotCall(b: Backend, tenant: string, uuid: string, name: string, secrets: Secrets, env: SnapshotEnv)
    requires IsTenant(tenant) && IsUuid(uuid)
    ensures DeleteSnapshot(b, ThreePart(tenant, uuid, name), secrets, env) ==
              if Choose(secrets).None? || env.lookupFault then (b, false)
              else DropSnapshot(b, uuid, Split(name, SEP)[0], env.call)
  {
    VolumeOfId(b, tenant, uuid, name, secrets, env);
  }

  /**
   Deleting by id drops one snapshot of its volume: the one named by the first part
   of the name, which is the snapshot meant exactly when its name does not hold the
   separator.
   */
  lemma DeleteSnapshotExactly(b: Backend, tenant: string, uuid: string, name: string, secrets: Secrets,
                              env: SnapshotEnv)
    requires Valid(b) && IsTenant(tenant) && IsUuid(uuid)
    ensures var r := DeleteSnapshot(b, ThreePart(tenant, uuid, name), secrets, env);
            var dropped := Split(name, SEP)[0];
            && (dropped == name <==> NoSep(name))
            && (r.1 <==> Choose(secrets).Some? && !env.lookupFault && env.call.Works?)
            && (uuid in b.volumes ==>
                  && uuid in r.0.volumes
                  && r.0.volumes[uuid] == b.volumes[uuid].(snapshots := b.volumes[uuid].snapshots -
                       (if Choose(secrets).Some? && !env.lookupFault && !env.call.Refused? then {dropped} else {})))
  {
    DeleteSnapshotCall(b, tenant, uuid, name, secrets, env);
    NameParts(name);
    DropExactly(b, uuid, Split(name, SEP)[0], env.call);
  }

  /** And nothing else changes. */
  lemma DeleteSnapshotFrame(b: Backend, tenant: string, uuid: string, name: string, secrets: Secrets, env: SnapshotEnv)
    requires Valid(b) && IsTenant(tenant) && IsUuid(uuid)
    ensures var r := DeleteSnapshot(b, ThreePart(tenant, uuid, name), secrets, env);
            && Valid(r.0) && Grows(b, r.0) && r.0 == b.(volumes := r.0.volumes)
            && r.0.volumes.Keys == b.volumes.Keys
            && (forall u <- b.volumes :: u != uuid ==> r.0.volumes[u] == b.volumes[u])
  {
    DeleteSnapshotCall(b, tenant, uuid, name, secrets, env);
    DropExactly(b, uuid, Split(name, SEP)[0], env.call);
  }

  /**
   The whole way of a snapshot: taken of an issued handle, restored by
   `CreateVolume`, found by the node from the restored PV's id and context, and the
   restored PV deleted again. Neither creating nor deleting that PV changes anything.
   */
  lemma SnapshotJourney(cfg: Config, acc: D.Accounts, b: Backend, req: SnapshotRequest, env: SnapshotEnv,
                        tenant: string, uuid: string, pvName: string,
                        w: World, create: CreateRequest, cenv: Env, secrets: Secrets, denv: DeleteEnv)
    requires HandleOf(b, req.sourceVolumeId, tenant, uuid, pvName) && CreateSnapshot(b, req, env).1.Some?
    requires req.name != "" && NoSep(req.name)
    requires Acceptable(create) && create.source == FromSnapshot(CreateSnapshot(b, req, env).1.value)
    requires Ordered(create, cenv)
    ensures var r := Create(cfg, acc, w, create, cenv);
            && r.0 == w && r.1.Created?
            && RestoredPath(cfg.mount, r.1.volumeId, r.1.context) == Some(SnapshotPath(cfg.mount, uuid, req.name))
            && Delete(cfg, w, r.1.volumeId, secrets, denv) == (w, true)
  {
    SnapshotExactly(b, req, env, tenant, uuid, pvName);
    VolumeOfId(b, tenant, uuid, req.name, secrets, env);
    RestoredPathExact(cfg.mount, create.name, tenant, uuid, req.name);
    DeleteRestoredPv(cfg, acc, w, create, cenv, w, secrets, denv);
  }

  /** Whether a snapshot is pinned: as the class's `pinned` says, in any of Go's spellings; not, if it says nothing. */
  lemma PinnedExactly(params: map<string, string>)
    ensures "pinned" !in params ==> Pinned(params) == Some(false)
    ensures "pinned" in params && params["pinned"] in ["true", "True", "TRUE", "t", "T", "1"] ==>
              Pinned(params) == Some(true)
    ensures "pinned" in params && params["pinned"] in ["false", "False", "FALSE", "f", "F", "0"] ==>
              Pinned(params) == Some(false)
    ensures "pinned" in params && Pinned(params).Some? ==>
              params["pinned"] in ["true", "True", "TRUE", "t", "T", "1", "false", "False", "FALSE", "f", "F", "0"]
  {
  }

  /** The stored flag of a new snapshot, by the value of `pinned`. */
  lemma StoredAsPinned(b: Backend, req: SnapshotRequest, env: SnapshotEnv, tenant: string, uuid: string, pvName: string)
    requires HandleOf(b, req.sourceVolumeId, tenant, uuid, pvName)
    requires CreateSnapshot(b, req, env).1.Some? && (uuid in b.volumes ==> req.name !in b.volumes[uuid].snapshots)
    ensures uuid in CreateSnapshot(b, req, env).0.volumes
    ensures var taken := CreateSnapshot(b, req, env).0.volumes[uuid].snapshots;
            && req.name in taken
            && (req.params == map["pinned" := "true"] ==> taken[req.name])
            && (req.params == map["pinned" := "false"] || req.params == map[] ==> !taken[req.name])
  {
    SnapshotExactly(b, req, env, tenant, uuid, pvName);
    PinnedExactly(req.params);
  }

  /** A snapshot's id or a volume's handle that names tenant and volume, whatever follows. */
  ghost predicate Names(b: Backend, tenant: string, volume: string, t: string) {
    && '|' !in tenant && '|' !in volume && volume != "" && !IsUuid(volume) && MeansTenant(b, tenant, t)
  }

  lemma NamedParts(tenant: string, volume: string, rest: string)
    requires '|' !in tenant && '|' !in volume
    ensures Split(tenant + "|" + volume, '|') == [tenant, volume]
    ensures Split(tenant + "|" + volume + "|" + rest, '|') == [tenant, volume] + Split(rest, '|')
  {
    SplitTwo(tenant, volume, '|');
    SplitId(tenant, volume, rest);
  }

  lemma TakenOf(b: Backend, req: SnapshotRequest, env: SnapshotEnv, parts: seq<string>, uuid: Option<string>,
                tenant: Option<string>)
    requires parts == Split(req.sourceVolumeId, SEP) && |parts| >= 2
    requires uuid == VolumeUuid(b, parts[1], parts[0]) && tenant == TenantUuid(b, parts[0])
    ensures CreateSnapshot(b, req, env) ==
              if Pinned(req.params).None? || Choose(req.secrets).None? || env.lookupFault || uuid.None? || tenant.None?
              then (b, None)
              else
                var r := TakeSnapshot(b, uuid.value, req.name, Pinned(req.params).value, env.call);
                (r.0, if r.1.NotTaken? then None else Some(ThreePart(tenant.value, uuid.value, req.name)))
  {
  }

  /**
   A snapshot of a volume given by names: it is taken of the volume of that name in
   that tenant, whatever follows in the handle, and its id has the UUIDs.
   */
  lemma SnapshotByName(b: Backend, req: SnapshotRequest, env: SnapshotEnv, tenant: string, volume: string, rest: string,
                       t: string)
    requires Valid(b) && Names(b, tenant, volume, t)
    requires req.sourceVolumeId in [tenant + "|" + volume, tenant + "|" + volume + "|" + rest]
    ensures var r, key := CreateSnapshot(b, req, env), VolumeKey(t, volume);
            && (r.1.Some? <==> && Pinned(req.params).Some? && Choose(req.secrets).Some? && !env.lookupFault
                               && key in b.names && env.call.Works?)
            && (r.1.Some? ==> r.1.value == t + "|" + b.names[key] + "|" + req.name)
            && (r.1.Some? ==> req.name in r.0.volumes[b.names[key]].snapshots)
            && (key !in b.names ==> r.0 == b)
            && (forall u <- b.volumes :: key !in b.names || u != b.names[key] ==>
                  u in r.0.volumes && r.0.volumes[u] == b.volumes[u])
  {
    NamedParts(tenant, volume, rest);
    NameLookup(b, tenant, volume, t);
    var parts := Split(req.sourceVolumeId, SEP);
    assert |parts| >= 2 && parts[0] == tenant && parts[1] == volume;
    TakenOf(b, req, env, parts, VolumeUuid(b, volume, tenant), Some(t));
    if Pinned(req.params).Some? && VolumeKey(t, volume) in b.names {
      TakeExactly(b, b.names[VolumeKey(t, volume)], req.name, Pinned(req.params).value, env.call);
    }
  }

  lemma VolumeOfName(b: Backend, tenant: string, volume: string, name: string, t: string, secrets: Secrets,
                     env: SnapshotEnv)
    requires Valid(b) && Names(b, tenant, volume, t)
    ensures VolumeOf(b, tenant + "|" + volume + "|" + name, secrets, env) ==
              if Choose(secrets).Some? && !env.lookupFault && VolumeKey(t, volume) in b.names
              then Some(b.names[VolumeKey(t, volume)]) else None
  {
    NamedParts(tenant, volume, name);
    NameLookup(b, tenant, volume, t);
    if IsTenant(t) {
      NameLookup(b, t, volume, t);
    }
  }

  /** Deleting a snapshot by names: of the volume of that name in that tenant, and no other. */
  lemma DropByName(b: Backend, tenant: string, volume: string, name: string, t: string, secrets: Secrets,
                   env: SnapshotEnv)
    requires Valid(b) && Names(b, tenant, volume, t) && '|' !in name
    ensures var r, key := DeleteSnapshot(b, tenant + "|" + volume + "|" + name, secrets, env), VolumeKey(t, volume);
            && (r.1 <==> Choose(secrets).Some? && !env.lookupFault && key in b.names && env.call.Works?)
            && (if Choose(secrets).Some? && !env.lookupFault && key in b.names && !env.call.Refused?
                then r.0 == b.(volumes := b.volumes[b.names[key] :=
                              b.volumes[b.names[key]].(snapshots := b.volumes[b.names[key]].snapshots - {name})])
                else r.0 == b)
  {
    NamedParts(tenant, volume, name);
    SplitAtom(name, '|');
    VolumeOfName(b, tenant, volume, name, t, secrets, env);
  }

  /** Listing by names: the entries keep the names of the id that was asked for. */
  lemma ListByName(b: Backend, tenant: string, volume: string, name: string, t: string, secrets: Secrets,
                   env: SnapshotEnv, listing: seq<string>)
    requires Valid(b) && Names(b, tenant, volume, t)
    ensures var key := VolumeKey(t, volume);
            var r := ListSnapshots(b, tenant + "|" + volume + "|" + name, secrets, env, listing);
            && (r.Some? <==> Choose(secrets).Some? && !env.lookupFault && key in b.names && env.call.Works?)
            && (r.Some? ==>
                  && |r.value| == |listing|
                  && forall i :: 0 <= i < |listing| ==>
                       r.value[i] == Entry(b.names[key], tenant + "|" + volume + "|" + listing[i]))
  {
    NamedParts(tenant, volume, name);
    VolumeOfName(b, tenant, volume, name, t, secrets, env);
  }

  /** Ids of fewer parts: no snapshot is taken of a handle of one, and none is deleted or listed by an id of two. */
  lemma ShortIds(b: Backend, req: SnapshotRequest, env: SnapshotEnv, id: string, secrets: Secrets, listing: seq<string>)
    requires |Split(id, '|')| < 3 && '|' !in req.sourceVolumeId
    ensures CreateSnapshot(b, req, env) == (b, None)
    ensures DeleteSnapshot(b, id, secrets, env) == (b, false) && ListSnapshots(b, id, secrets, env, listing).None?
  {
    SplitAtom(req.sourceVolumeId, '|');
  }
}
