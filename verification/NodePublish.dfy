/**
 The node's side: `NodePublishVolume` makes the target, finds out what the volume
 id stands for, sets an access key where configured, and bind-mounts.
 */
module NodePublish {
  import opened Options
  import opened GoStrings
  import opened Paths
  import opened Handles
  import opened ClientCache
  import opened Parameters
  import opened B = Backend
  import opened Provisioning
  import opened ProvisioningTheorems
  import opened Lifecycle
  import opened Snapshots
  import D = DirectoryMaker

  datatype NodeConfig = NodeConfig(mount: string, accessKeyMounts: bool)

  datatype BindMount = BindMount(source: string, target: string)

  /** An extended attribute set on a path. */
  datatype Attribute = Attribute(path: string, name: string, value: string)

  /** Targets made so far, access keys set as attributes, and bind mounts, the newest last. */
  datatype NodeState = NodeState(targets: set<string>, accessKeys: seq<Attribute>, mounts: seq<BindMount>)

  datatype PublishRequest = PublishRequest(volumeId: string, targetPath: string, context: Option<map<string, string>>,
                                           secrets: Secrets, capability: Option<Capability>)

  /** Which system or API calls fail; `handle` is the random context handle. */
  datatype PublishEnv = PublishEnv(mkdirs: bool, resolve: bool, handle: string, setXAttr: bool, mount: bool)

  function MountOptions(capability: Option<Capability>): seq<string> {
    if capability.Some? && capability.value.Mount? then capability.value.flags else []
  }

  const XATTR_KEY := "quobyte.access_key"

  function AccessKeyValue(id: string, secret: string, handle: string): string {
    "{ \"access_key_id\": \"" + id + "\",\"access_key_secret\": \"" + secret
    + "\",\"access_context\": \"" + handle + "\",\"access_key_scope\": \"context\" }"
  }

  /** The volume's UUID, looked up only with credentials for the API; otherwise the part is taken for a UUID. */
  function Resolved(b: Backend, at: Located, secrets: Secrets, fault: bool): Option<string> {
    if !HasApiCredentials(secrets) then Some(at.volume)
    else if fault then None
    else VolumeUuid(b, at.volume, at.tenant)
  }

  /** What is to be mounted, before the target is attached to it. */
  datatype Target = Target(uuid: string, snapshot: string, sub: string)

  function TargetOf(b: Backend, req: PublishRequest, env: PublishEnv): Option<Target> {
    match PublicationOf(req.volumeId, req.context)
    case None => None
    case Some(p) =>
      match ProcessVolumeHandle(p.volumeHandle)
      case None => None
      case Some(at) =>
        match Resolved(b, at, req.secrets, env.resolve)
        case None => None
        case Some(uuid) => Some(Target(uuid, p.snapshot, at.sub))
  }

  function Attach(cfg: NodeConfig, n: NodeState, t: Target, handle: string, target: string, fault: bool):
    (NodeState, bool)
  {
    if fault then (n, false)
    else (n.(mounts := n.mounts + [BindMount(MountPath(cfg.mount, t.uuid, handle, t.snapshot, t.sub), target)]), true)
  }

  function Publish(cfg: NodeConfig, b: Backend, n: NodeState, req: PublishRequest, env: PublishEnv): (NodeState, bool) {
    if req.targetPath == "" || env.mkdirs then (n, false)
    else
      var n1 := n.(targets := n.targets + {req.targetPath});
      match TargetOf(b, req, env)
      case None => (n1, false)
      case Some(t) =>
        if MountOptions(req.capability) != [] then (n1, false)
        else if !cfg.accessKeyMounts then Attach(cfg, n1, t, "", req.targetPath, env.mount)
        else if !HasAccessKey(req.secrets) || env.setXAttr then (n1, false)
        else
          var value := AccessKeyValue(req.secrets["accessKeyId"], req.secrets["accessKeySecret"], env.handle);
          var n2 := n1.(accessKeys := n1.accessKeys + [Attribute(cfg.mount, XATTR_KEY, value)]);
          Attach(cfg, n2, t, env.handle, req.targetPath, env.mount)
  }

  /** The node service, its calls in order. */
  class NodeService {
    const cfg: NodeConfig
    var targets: set<string>
    var accessKeys: seq<Attribute>
    var mounts: seq<BindMount>

    constructor (cfg: NodeConfig)
      ensures this.cfg == cfg && Now() == NodeState({}, [], [])
    {
      this.cfg := cfg;
      targets, accessKeys, mounts := {}, [], [];
    }

    ghost function Now(): NodeState
      reads this
    {
      NodeState(targets, accessKeys, mounts)
    }

    method NodePublishVolume(b: Backend, req: PublishRequest, env: PublishEnv) returns (ok: bool)
      modifies this
      ensures (Now(), ok) == Publish(cfg, b, old(Now()), req, env)
    {
      if req.targetPath == "" {
        return false;
      }
      if env.mkdirs {
        return false;
      }
      targets := targets + {req.targetPath};
      var publication := PublicationOf(req.volumeId, req.context);
      if publication.None? {
        return false;
      }
      var located := ProcessVolumeHandle(publication.value.volumeHandle);
      if located.None? {
        return false;
      }
      var volumeUUID := located.value.volume;
      if HasApiCredentials(req.secrets) {
        if env.resolve {
          return false;
        }
        var resolved := VolumeUuid(b, located.value.volume, located.value.tenant);
        if resolved.None? {
          return false;
        }
        volumeUUID := resolved.value;
      }
      if |MountOptions(req.capability)| > 0 {
        return false;
      }
      var accessKeyHandle := "";
      if cfg.accessKeyMounts {
        accessKeyHandle := env.handle;
        if "accessKeyId" !in req.secrets {
          return false;
        }
        if "accessKeySecret" !in req.secrets {
          return false;
        }
        if env.setXAttr {
          return false;
        }
        var xAttrVal := AccessKeyValue(req.secrets["accessKeyId"], req.secrets["accessKeySecret"], accessKeyHandle);
        accessKeys := accessKeys + [Attribute(cfg.mount, XATTR_KEY, xAttrVal)];
      }
      var mountPath := FormMountPath(cfg.mount, volumeUUID, accessKeyHandle, publication.value.snapshot,
                                     located.value.sub);
      if env.mount {
        return false;
      }
      mounts := mounts + [BindMount(mountPath, req.targetPath)];
      return true;
    }
  }

  /** A call mounts once, onto the target it has made, or not at all; mount options always fail. */
  lemma MountsOnceOrNot(cfg: NodeConfig, b: Backend, n: NodeState, req: PublishRequest, env: PublishEnv)
    ensures var r := Publish(cfg, b, n, req, env);
            && (!r.1 ==> r.0.mounts == n.mounts)
            && (r.1 ==> |r.0.mounts| == |n.mounts| + 1 && r.0.mounts[..|n.mounts|] == n.mounts &&
                        r.0.mounts[|n.mounts|].target == req.targetPath && req.targetPath in r.0.targets &&
                        MountOptions(req.capability) == [])
            && r.0.targets == n.targets + (if req.targetPath != "" && !env.mkdirs then {req.targetPath} else {})
            && (!cfg.accessKeyMounts ==> r.0.accessKeys == n.accessKeys)
  {
    assert n.targets + {} == n.targets;
  }

  /** Up to a value: what precedes the name, the name in quotes, what stands between, and the value's opening quote. */
  function Opening(before: string, name: string, between: string): string {
    before + "\"" + name + "\"" + between + "\""
  }

  lemma FieldReads(before: string, name: string, between: string, value: string, rest: string)
    requires '"' !in before && '"' !in name && '"' !in between && '"' !in value
    ensures Split(Opening(before, name, between) + (value + ("\"" + rest)), '"') ==
              [before, name, between, value] + Split(rest, '"')
  {
    var field := value + ("\"" + rest);
    SplitHead(value, rest, '"');
    assert field == value + ['"'] + rest;
    SplitThree(before, name, between, '"');
    SplitConcat(before + ['"'] + name + ['"'] + between, field, '"');
  }

  lemma OpeningId()
    ensures "{ \"access_key_id\": \"" == Opening("{ ", "access_key_id", ": ")
  {
  }

  lemma OpeningSecret()
    ensures "\",\"access_key_secret\": \"" == "\"" + Opening(",", "access_key_secret", ": ")
  {
  }

  lemma OpeningContext()
    ensures "\",\"access_context\": \"" == "\"" + Opening(",", "access_context", ": ")
  {
  }

  lemma OpeningScope()
    ensures "\",\"access_key_scope\": \"context\" }" ==
              "\"" + (Opening(",", "access_key_scope", ": ") + ("context" + ("\"" + " }")))
  {
  }

  lemma Nested(q: string, a: string, x: string, b: string, y: string, c: string, z: string, d: string)
    ensures a + x + (q + b) + y + (q + c) + z + (q + d) ==
              a + (x + (q + (b + (y + (q + (c + (z + (q + d))))))))
  {
  }

  /** The quoted strings of the attribute's value, names and values in turn. */
  ghost predicate Attributes(value: string, id: string, secret: string, handle: string) {
    var parts := Split(value, '"');
    && |parts| == 17
    && parts[1] == "access_key_id" && parts[3] == id
    && parts[5] == "access_key_secret" && parts[7] == secret
    && parts[9] == "access_context" && parts[11] == handle
    && parts[13] == "access_key_scope" && parts[15] == "context"
  }

  lemma AccessKeyReads(id: string, secret: string, handle: string)
    requires '"' !in id && '"' !in secret && '"' !in handle
    ensures Attributes(AccessKeyValue(id, secret, handle), id, secret, handle)
  {
    var q := "\"";
    var a, b := Opening("{ ", "access_key_id", ": "), Opening(",", "access_key_secret", ": ");
    var c, d := Opening(",", "access_context", ": "), Opening(",", "access_key_scope", ": ") + ("context" + (q + " }"));
    ValueIs(id, secret, handle, q, a, b, c, d);
    Nested(q, a, id, b, secret, c, handle, d);
    ReadFour(id, secret, handle, q, a, b, c, d);
  }

  lemma ValueIs(id: string, secret: string, handle: string, q: string, a: string, b: string, c: string, d: string)
    requires q == "\"" && a == Opening("{ ", "access_key_id", ": ") && b == Opening(",", "access_key_secret", ": ")
    requires c == Opening(",", "access_context", ": ")
    requires d == Opening(",", "access_key_scope", ": ") + ("context" + (q + " }"))
    ensures AccessKeyValue(id, secret, handle) == a + id + (q + b) + secret + (q + c) + handle + (q + d)
  {
    OpeningId();
    OpeningSecret();
    OpeningContext();
    OpeningScope();
  }

  lemma ReadLast(handle: string, q: string, c: string, d: string)
    requires '"' !in handle && q == "\"" && c == Opening(",", "access_context", ": ")
    requires d == Opening(",", "access_key_scope", ": ") + ("context" + (q + " }"))
    ensures Split(c + (handle + (q + d)), '"') ==
              [",", "access_context", ": ", handle, ",", "access_key_scope", ": ", "context", " }"]
  {
    ReadScope(q, d);
    FieldReads(",", "access_context", ": ", handle, d);
  }

  lemma ReadScope(q: string, d: string)
    requires q == "\"" && d == Opening(",", "access_key_scope", ": ") + ("context" + (q + " }"))
    ensures Split(d, '"') == [",", "access_key_scope", ": ", "context", " }"]
  {
    SplitAtom(" }", '"');
    FieldReads(",", "access_key_scope", ": ", "context", " }");
  }

  lemma ReadFour(id: string, secret: string, handle: string, q: string, a: string, b: string, c: string, d: string)
    requires '"' !in id && '"' !in secret && '"' !in handle && q == "\""
    requires a == Opening("{ ", "access_key_id", ": ") && b == Opening(",", "access_key_secret", ": ")
    requires c == Opening(",", "access_context", ": ")
    requires d == Opening(",", "access_key_scope", ": ") + ("context" + (q + " }"))
    ensures Attributes(a + (id + (q + (b + (secret + (q + (c + (handle + (q + d)))))))), id, secret, handle)
  {
    var last := c + (handle + (q + d));
    ReadLast(handle, q, c, d);
    ReadFirst(id, secret, q, a, b, last);
  }

  lemma ReadFirst(id: string, secret: string, q: string, a: string, b: string, last: string)
    requires '"' !in id && '"' !in secret && q == "\""
    requires a == Opening("{ ", "access_key_id", ": ") && b == Opening(",", "access_key_secret", ": ")
    ensures Split(a + (id + (q + (b + (secret + (q + last))))), '"') ==
              ["{ ", "access_key_id", ": ", id, ",", "access_key_secret", ": ", secret] + Split(last, '"')
  {
    FieldReads(",", "access_key_secret", ": ", secret, last);
    FieldReads("{ ", "access_key_id", ": ", id, b + (secret + (q + last)));
  }

  /**
   The access key of a mount: set once, on the client mount point, before the mount;
   read back, it has the key's id and secret from the request, and the context handle
   that the mounted path starts with.
   */
  lemma AccessKeySet(cfg: NodeConfig, b: Backend, n: NodeState, req: PublishRequest, env: PublishEnv)
    requires cfg.accessKeyMounts && Publish(cfg, b, n, req, env).1
    ensures "accessKeyId" in req.secrets && "accessKeySecret" in req.secrets
    ensures var keys, id, secret := Publish(cfg, b, n, req, env).0.accessKeys,
                                    req.secrets["accessKeyId"], req.secrets["accessKeySecret"];
            && |keys| == |n.accessKeys| + 1 && keys[..|n.accessKeys|] == n.accessKeys
            && var key := keys[|n.accessKeys|];
            && key.path == cfg.mount && key.name == "quobyte.access_key"
            && ('"' !in id && '"' !in secret && '"' !in env.handle ==> Attributes(key.value, id, secret, env.handle))
    ensures env.handle != "" ==>
              HasPrefix(Source(Publish(cfg, b, n, req, env).0), cfg.mount + "/" + env.handle + "@")
  {
    var id, secret := req.secrets["accessKeyId"], req.secrets["accessKeySecret"];
    if '"' !in id && '"' !in secret && '"' !in env.handle {
      AccessKeyReads(id, secret, env.handle);
    }
    var t := TargetOf(b, req, env).value;
    SourceOf(cfg, b, n, req, env, t);
    if env.handle != "" {
      HandleFirst(cfg.mount, t.uuid, env.handle, t.snapshot, t.sub);
    }
  }

  lemma HandleFirst(mount: string, uuid: string, handle: string, snapshot: string, sub: string)
    requires handle != ""
    ensures HasPrefix(MountPath(mount, uuid, handle, snapshot, sub), mount + "/" + handle + "@")
  {
    var front := mount + "/" + handle + "@";
    var back := uuid + (if snapshot != "" then "/" + SNAPSHOTS_DIR + "/" + snapshot else "")
                + (if sub != "" then "/" + sub else "");
    assert MountPath(mount, uuid, handle, snapshot, sub) == front + back;
  }

  /** The last path mounted. */
  function Source(n: NodeState): string {
    if n.mounts == [] then "" else n.mounts[|n.mounts| - 1].source
  }

  /** The name under which a volume is mounted: with the context handle before it where access keys are used. */
  function Component(cfg: NodeConfig, uuid: string, env: PublishEnv): string {
    if cfg.accessKeyMounts && env.handle != "" then env.handle + "@" + uuid else uuid
  }

  lemma TargetOfIssued(b: Backend, req: PublishRequest, env: PublishEnv, tenant: string, uuid: string, pvName: string)
    requires HandleOf(b, req.volumeId, tenant, uuid, pvName)
    ensures TargetOf(b, req, env) ==
              if HasApiCredentials(req.secrets) && env.resolve then None
              else Some(Target(uuid, "", if WholeHandle(b, req.volumeId, tenant, uuid) then "" else pvName))
  {
    UuidShape(tenant);
    UuidShape(uuid);
    if WholeHandle(b, req.volumeId, tenant, uuid) {
      TwoPartRoundTrip(tenant, uuid);
      SnapshotPrefixOfTenant(tenant, uuid);
    } else {
      ThreePartRoundTrip(tenant, uuid, pvName);
      SnapshotPrefixOfTenant(tenant, uuid + [SEP] + pvName);
      assert req.volumeId == tenant + [SEP] + (uuid + [SEP] + pvName);
    }
  }

  /** Exactly when publishing a volume the driver handed out succeeds. */
  lemma PublishesExactly(cfg: NodeConfig, b: Backend, n: NodeState, req: PublishRequest, env: PublishEnv,
                         tenant: string, uuid: string, pvName: string)
    requires HandleOf(b, req.volumeId, tenant, uuid, pvName)
    ensures Publish(cfg, b, n, req, env).1 <==>
              && req.targetPath != "" && !env.mkdirs
              && (req.capability.Some? && req.capability.value.Mount? ==> req.capability.value.flags == [])
              && (HasApiCredentials(req.secrets) ==> !env.resolve)
              && (cfg.accessKeyMounts ==> HasAccessKey(req.secrets) && !env.setXAttr)
              && !env.mount
  {
    TargetOfIssued(b, req, env, tenant, uuid, pvName);
  }

  /**
   For a claim's handle, the path mounted is the claim's directory under the
   volume's mounted name, whether or not the UUID was looked up again, and that
   name is the volume's once the context handle is taken off.
   */
  lemma PublishedPlace(cfg: NodeConfig, b: Backend, n: NodeState, req: PublishRequest, env: PublishEnv,
                       tenant: string, uuid: string, pvName: string)
    requires SubHandle(req.volumeId, tenant, uuid, pvName)
    requires cfg.mount != "" && '/' !in env.handle && Publish(cfg, b, n, req, env).1
    ensures var source := Source(Publish(cfg, b, n, req, env).0);
            && Clean(source) == JoinPath([cfg.mount, Component(cfg, uuid, env), pvName])
            && StripHandle(Component(cfg, uuid, env)) == uuid
            && (!cfg.accessKeyMounts ==> Clean(source) == ClaimDirectory(cfg.mount, uuid, pvName))
  {
    UuidShape(uuid);
    assert HandleOf(b, req.volumeId, tenant, uuid, pvName);
    TargetOfIssued(b, req, env, tenant, uuid, pvName);
    UuidShape(tenant);
    HandlesInjective(tenant, uuid, "", tenant, uuid, pvName);
    assert !WholeHandle(b, req.volumeId, tenant, uuid);
    var handle := if cfg.accessKeyMounts then env.handle else "";
    assert Source(Publish(cfg, b, n, req, env).0) == MountPath(cfg.mount, uuid, handle, "", pvName);
    MountPathCleaned(cfg.mount, uuid, handle, pvName);
    StripsToVolume(env.handle, uuid);
  }

  lemma TargetOfSnapshot(b: Backend, req: PublishRequest, env: PublishEnv,
                         pvName: string, tenant: string, uuid: string, name: string)
    requires IsTenant(tenant) && IsUuid(uuid) && NoSep(name) && req.volumeId == SNAPSHOT_PREFIX + pvName
    requires req.context == Some(map[SNAPSHOT_ID_KEY := ThreePart(tenant, uuid, name)])
    ensures TargetOf(b, req, env) ==
              if HasApiCredentials(req.secrets) && env.resolve then None else Some(Target(uuid, name, ""))
  {
    PublicationOfId(pvName, tenant, uuid, name);
    SplitAtom(name, SEP);
    UuidShape(tenant);
    UuidShape(uuid);
    TwoPartRoundTrip(tenant, uuid);
  }

  /** What a successful call mounts, given what it found to be mounted. */
  lemma SourceOf(cfg: NodeConfig, b: Backend, n: NodeState, req: PublishRequest, env: PublishEnv, t: Target)
    requires Publish(cfg, b, n, req, env).1 && TargetOf(b, req, env) == Some(t)
    ensures Source(Publish(cfg, b, n, req, env).0) ==
              MountPath(cfg.mount, t.uuid, if cfg.accessKeyMounts then env.handle else "", t.snapshot, t.sub)
  {
  }

  lemma SnapshotMount(cfg: NodeConfig, uuid: string, name: string, env: PublishEnv)
    requires name != ""
    ensures MountPath(cfg.mount, uuid, if cfg.accessKeyMounts then env.handle else "", name, "") ==
              SnapshotPath(cfg.mount, Component(cfg, uuid, env), name)
  {
  }

  /** A PV restored from a snapshot mounts that snapshot's directory, under the volume's mounted name. */
  lemma PublishedSnapshot(cfg: NodeConfig, b: Backend, n: NodeState, req: PublishRequest, env: PublishEnv,
                          pvName: string, tenant: string, uuid: string, name: string)
    requires IsTenant(tenant) && IsUuid(uuid) && name != "" && NoSep(name)
    requires req.volumeId == "SnapshotVolumeHandle-" + pvName
    requires req.context == Some(map["snapshot_id_key" := tenant + "|" + uuid + "|" + name])
    requires Publish(cfg, b, n, req, env).1
    ensures Source(Publish(cfg, b, n, req, env).0) ==
              cfg.mount + "/" + Component(cfg, uuid, env) + "/.snapshots/" + name
    ensures StripHandle(Component(cfg, uuid, env)) == uuid
  {
    TargetOfSnapshot(b, req, env, pvName, tenant, uuid, name);
    SourceOf(cfg, b, n, req, env, Target(uuid, name, ""));
    SnapshotMount(cfg, uuid, name, env);
    SnapshotPathSpelled(cfg.mount, Component(cfg, uuid, env), name);
    HandlesSpelled(tenant, uuid, name);
    UuidShape(uuid);
    StripsToVolume(env.handle, uuid);
  }

  lemma PartsLocated(tenant: string, uuid: string, sub: string)
    requires IsTenant(tenant) && IsUuid(uuid) && NoSep(sub) && sub != ""
    ensures !HasPrefix(TwoPart(tenant, uuid), SNAPSHOT_PREFIX)
    ensures !HasPrefix(ThreePart(tenant, uuid, sub), SNAPSHOT_PREFIX)
    ensures ProcessVolumeHandle(TwoPart(tenant, uuid)) == Some(Located(tenant, uuid, ""))
    ensures ProcessVolumeHandle(ThreePart(tenant, uuid, sub)) == Some(Located(tenant, uuid, sub))
  {
    UuidShape(tenant);
    UuidShape(uuid);
    TwoPartRoundTrip(tenant, uuid);
    ThreePartRoundTrip(tenant, uuid, sub);
    SnapshotPrefixOfTenant(tenant, uuid);
    SnapshotPrefixOfTenant(tenant, uuid + [SEP] + sub);
    assert ThreePart(tenant, uuid, sub) == tenant + [SEP] + (uuid + [SEP] + sub);
  }

  lemma TargetOfLocated(b: Backend, req: PublishRequest, env: PublishEnv, tenant: string, uuid: string, sub: string)
    requires !HasPrefix(req.volumeId, SNAPSHOT_PREFIX) && IsUuid(uuid)
    requires ProcessVolumeHandle(req.volumeId) == Some(Located(tenant, uuid, sub))
    ensures TargetOf(b, req, env) ==
              if HasApiCredentials(req.secrets) && env.resolve then None else Some(Target(uuid, "", sub))
  {
  }

  /** A volume the driver handed out, and a subdirectory of one: the mounted path, spelled out. */
  lemma PublishedSpelled(cfg: NodeConfig, b: Backend, n: NodeState, req: PublishRequest, env: PublishEnv,
                         tenant: string, uuid: string, pvName: string)
    requires IsTenant(tenant) && IsUuid(uuid) && NoSep(pvName) && pvName != ""
    requires req.volumeId in [tenant + "|" + uuid, tenant + "|" + uuid + "|" + pvName] && Publish(cfg, b, n, req, env).1
    ensures var key := if cfg.accessKeyMounts && env.handle != "" then env.handle + "@" else "";
            Source(Publish(cfg, b, n, req, env).0) ==
              cfg.mount + "/" + key + uuid + (if req.volumeId == tenant + "|" + uuid then "" else "/" + pvName)
  {
    var sub := if req.volumeId == tenant + "|" + uuid then "" else pvName;
    PartsLocated(tenant, uuid, pvName);
    HandlesSpelled(tenant, uuid, pvName);
    TargetOfLocated(b, req, env, tenant, uuid, sub);
    SourceOf(cfg, b, n, req, env, Target(uuid, "", sub));
    MountIs(cfg.mount, uuid, if cfg.accessKeyMounts then env.handle else "", sub);
  }

  lemma MountIs(mount: string, uuid: string, handle: string, sub: string)
    ensures MountPath(mount, uuid, handle, "", sub) ==
              mount + "/" + (if handle != "" then handle + "@" else "") + uuid + (if sub != "" then "/" + sub else "")
  {
  }

  /** A pre-provisioned volume given by names: looked up with API credentials, mounted by its name without. */
  lemma PublishedByName(cfg: NodeConfig, b: Backend, n: NodeState, req: PublishRequest, env: PublishEnv,
                        tenant: string, volume: string)
    requires Valid(b) && tenant in b.tenants && !IsTenant(tenant)
    requires NoSep(tenant) && !HasPrefix(tenant, SNAPSHOT_PREFIX)
    requires volume != "" && !IsUuid(volume) && NoSep(volume) && req.volumeId == TwoPart(tenant, volume)
    requires Publish(cfg, b, n, req, env).1
    ensures var key, source := VolumeKey(b.tenants[tenant], volume), Source(Publish(cfg, b, n, req, env).0);
            if HasApiCredentials(req.secrets)
            then key in b.names && b.names[key] in b.volumes &&
                 source == cfg.mount + "/" + Component(cfg, b.names[key], env)
            else source == cfg.mount + "/" + Component(cfg, volume, env)
  {
    SplitTwo(tenant, volume, SEP);
    SnapshotPrefixOfTenant(tenant, volume);
  }

  /** Exactly when publishing by names succeeds: with API credentials only if there is such a volume. */
  lemma PublishesByName(cfg: NodeConfig, b: Backend, n: NodeState, req: PublishRequest, env: PublishEnv,
                        tenant: string, volume: string, t: string)
    requires NamedHandle(req.volumeId, tenant, volume) && MeansTenant(b, tenant, t)
    ensures Publish(cfg, b, n, req, env).1 <==>
              && req.targetPath != "" && !env.mkdirs
              && (req.capability.Some? && req.capability.value.Mount? ==> req.capability.value.flags == [])
              && (HasApiCredentials(req.secrets) ==> !env.resolve && VolumeKey(t, volume) in b.names)
              && (cfg.accessKeyMounts ==> HasAccessKey(req.secrets) && !env.setXAttr)
              && !env.mount
  {
    TwoPartRoundTrip(tenant, volume);
    SnapshotPrefixOfTenant(tenant, volume);
    NameLookup(b, tenant, volume, t);
  }

  /** Ids without a separator are refused, and so are restored PVs without their snapshot's id. */
  lemma RefusedIds(cfg: NodeConfig, b: Backend, n: NodeState, req: PublishRequest, env: PublishEnv)
    requires if "SnapshotVolumeHandle-" <= req.volumeId
             then req.context.None? || "snapshot_id_key" !in req.context.value
                  || |Split(req.context.value["snapshot_id_key"], '|')| < 3
             else '|' !in req.volumeId
    ensures !Publish(cfg, b, n, req, env).1
  {
    PublicationExactly(req.volumeId, req.context);
    if !("SnapshotVolumeHandle-" <= req.volumeId) {
      SplitAtom(req.volumeId, '|');
    }
  }

  /** What a call leaves whether or not it succeeds: the access key is set exactly if the call gets that far. */
  lemma KeySetExactly(cfg: NodeConfig, b: Backend, n: NodeState, req: PublishRequest, env: PublishEnv)
    ensures Publish(cfg, b, n, req, env).0.accessKeys != n.accessKeys <==>
              && cfg.accessKeyMounts && req.targetPath != "" && !env.mkdirs && TargetOf(b, req, env).Some?
              && (req.capability.Some? && req.capability.value.Mount? ==> req.capability.value.flags == [])
              && "accessKeyId" in req.secrets && "accessKeySecret" in req.secrets && !env.setXAttr
  {
  }

  /**
   From the controller to the node: a claim created in a shared volume is mounted
   from the very directory `CreateVolume` made for it, and that directory is there.
   Where access keys are used, its volume is named with the context handle before it.
   */
  lemma CreatedThenPublished(cfg: Config, acc: D.Accounts, w: World, create: CreateRequest, cenv: Env,
                             node: NodeConfig, n: NodeState, req: PublishRequest, env: PublishEnv)
    requires ValidWorld(w) && EnvOk(w, create, cenv) && Create(cfg, acc, w, create, cenv).1.Created?
    requires !create.source.FromSnapshot? && IsShared(create.params.value) && Plain(create.name) && NoSep(create.name)
    requires node.mount == cfg.mount != "" && '/' !in env.handle
    requires req.volumeId == Create(cfg, acc, w, create, cenv).1.volumeId
    requires Publish(node, Create(cfg, acc, w, create, cenv).0.backend, n, req, env).1
    ensures var w' := Create(cfg, acc, w, create, cenv).0;
            var source := Source(Publish(node, w'.backend, n, req, env).0);
            exists mounted ::
              && Clean(source) == JoinPath([cfg.mount, mounted, create.name])
              && D.At(w'.nodes, JoinPath([cfg.mount, StripHandle(mounted), create.name])).Dir?
              && (!node.accessKeyMounts ==> mounted == StripHandle(mounted))
  {
    var s, w' := Prepared(cfg, w.backend, create, cenv).value, Create(cfg, acc, w, create, cenv).0;
    CreatedMeans(cfg, acc, w, create, cenv, s);
    PreparedTenant(cfg, w.backend, create, cenv);
    var uuid := w'.backend.names[KeyFor(s)];
    assert SubHandle(req.volumeId, s.tenant, uuid, create.name);
    PublishedPlace(node, w'.backend, n, req, env, s.tenant, uuid, create.name);
    var mounted := Component(node, uuid, env);
    assert ClaimDirectory(cfg.mount, uuid, create.name) == JoinPath([cfg.mount, StripHandle(mounted), create.name]);
  }
}
