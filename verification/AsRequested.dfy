/**
 From the StorageClass to what is made: the owner, labels and modes of a fresh
 volume or directory, read off the parameters without any loop.
 */
module AsRequested {
  import opened Options
  import opened GoStrings
  import opened Handles
  import opened AccessModes
  import opened Labels
  import opened Parameters
  import opened B = Backend
  import opened Provisioning
  import opened ProvisioningTheorems
  import D = DirectoryMaker

  /** No parameter has this key, in any spelling. */
  ghost predicate Missing(params: Params, key: string) {
    forall k <- params :: ToLower(k) != key
  }

  /** Some parameter names it, or it is the PV's. With keys that differ in more than case there is one at most. */
  ghost predicate NameAsked(params: Params, pvName: string, name: string) {
    || (exists k :: k in params && ToLower(k) == "sharedvolumename" && name == params[k])
    || (Missing(params, "sharedvolumename") && name == pvName)
  }

  /** A blank user counts as missing. */
  ghost predicate UserAsked(params: Params, login: Login, user: string) {
    || (exists k :: k in params && ToLower(k) == "user" && TrimSpace(params[k]) != "" && user == params[k])
    || ((forall k <- params :: ToLower(k) == "user" ==> TrimSpace(params[k]) == "") && user == login.user)
  }

  ghost predicate GroupAsked(params: Params, login: Login, group: string) {
    && group != ""
    && (|| (exists k :: k in params && ToLower(k) == "group" && group == params[k])
        || (Missing(params, "group") && group == login.group))
  }

  ghost predicate LabelsAsked(params: Params, labels: seq<Label>) {
    || (exists k :: k in params && ToLower(k) == "labels" && LabelsOf(params[k]) == Some(labels))
    || (Missing(params, "labels") && labels == [])
  }

  ghost predicate QuotaAsked(params: Params, createQuota: bool) {
    || (exists k :: k in params && ToLower(k) == "createquota" && createQuota == (ToLower(params[k]) == "true"))
    || (Missing(params, "createquota") && !createQuota)
  }

  /** The number an access mode parameter gives. */
  predicate GivesMode(value: string, mode: int) {
    ParseUint(value, 10, 0x1_0000_0000).Value? && mode == Int32(ParseUint(value, 10, 0x1_0000_0000).n)
  }

  ghost predicate ModeAsked(params: Params, mode: int) {
    || (exists k :: k in params && ToLower(k) == "accessmode" && GivesMode(params[k], mode))
    || (Missing(params, "accessmode") && mode == 0)
  }

  /** No tenant is configured, or an empty one. */
  ghost predicate TenantOpen(params: Params) {
    Missing(params, "quobytetenant") || exists k :: k in params && ToLower(k) == "quobytetenant" && params[k] == ""
  }

  /** The tenant of the class, else the claim's namespace where that is the tenant, else none. */
  ghost predicate TenantAsked(cfg: Config, b: Backend, params: Params, tenant: string) {
    || (exists k :: k in params && ToLower(k) == "quobytetenant" && params[k] != "" &&
                    TenantUuid(b, params[k]) == Some(tenant))
    || (TenantOpen(params) &&
        if cfg.namespaceAsTenant
        then "csi.storage.k8s.io/pvc/namespace" in params &&
             TenantUuid(b, params["csi.storage.k8s.io/pvc/namespace"]) == Some(tenant)
        else tenant == "")
  }

  lemma EffectsByKey(k: string, v: string)
    ensures ToLower(k) == "sharedvolumename" ==> EffectOf(k, v) == SetName(v)
    ensures ToLower(k) == "quobytetenant" ==> EffectOf(k, v) == SetTenant(v)
    ensures ToLower(k) == "group" ==> EffectOf(k, v) == SetGroup(v)
    ensures ToLower(k) == "createquota" ==> EffectOf(k, v) == SetQuota(ToLower(v) == "true")
    ensures ToLower(k) == "user" && TrimSpace(v) != "" ==> EffectOf(k, v) == SetUser(v)
    ensures ToLower(k) == "labels" && !EffectOf(k, v).Fails? ==>
              LabelsOf(v).Some? && EffectOf(k, v) == SetLabels(LabelsOf(v).value)
    ensures ToLower(k) == "accessmode" && !EffectOf(k, v).Fails? ==>
              ParseUint(v, 10, UINT32_LIMIT).Value? &&
              EffectOf(k, v) == SetMode(Int32(ParseUint(v, 10, UINT32_LIMIT).n))
  {
  }

  /** What a loop over the parameters made of a setting: what some parameter asks, or its default. */
  ghost predicate FoundFor(params: Params, i: Settings, s: Settings, f: Field) {
    || (exists k :: k in params && Sets(EffectOf(k, params[k]), f) && Read(s, f) == EffectOf(k, params[k]))
    || ((forall k <- params :: !Sets(EffectOf(k, params[k]), f)) && Read(s, f) == Read(i, f))
  }

  lemma Found(params: Params, order: seq<string>, i: Settings, f: Field)
    requires Iterates(order, params.Keys) && Fold(params, order, i).Some?
    ensures FoundFor(params, i, Fold(params, order, i).value, f) && !AnyFails(Effects(params))
  {
    FoldIsFoldEffects(params, order, i);
    FoldFails(IsShared(params), Effects(params), order, i);
    FoldFrom(IsShared(params), Effects(params), order, i, f);
  }

  lemma NameFound(params: Params, i: Settings, s: Settings)
    requires FoundFor(params, i, s, Name)
    ensures NameAsked(params, i.name, s.name)
  {
    if k :| k in params && Sets(EffectOf(k, params[k]), Name) && Read(s, Name) == EffectOf(k, params[k]) {
      SetsOwnKey(k, params[k], Name);
      EffectsByKey(k, params[k]);
    } else {
      forall k | k in params ensures ToLower(k) != "sharedvolumename" {
        EffectsByKey(k, params[k]);
      }
    }
  }

  lemma UserFound(params: Params, i: Settings, s: Settings, login: Login)
    requires FoundFor(params, i, s, User) && i.user == login.user
    ensures UserAsked(params, login, s.user)
  {
    if k :| k in params && Sets(EffectOf(k, params[k]), User) && Read(s, User) == EffectOf(k, params[k]) {
      SetsOwnKey(k, params[k], User);
      EffectsByKey(k, params[k]);
      BlankSetsNoUser(k, params[k]);
    } else {
      forall k | k in params && ToLower(k) == "user" ensures TrimSpace(params[k]) == "" {
        EffectsByKey(k, params[k]);
      }
    }
  }

  lemma BlankSetsNoUser(k: string, v: string)
    requires Sets(EffectOf(k, v), User)
    ensures TrimSpace(v) != "" && EffectOf(k, v) == SetUser(v)
  {
  }

  lemma GroupFound(params: Params, i: Settings, s: Settings, login: Login)
    requires FoundFor(params, i, s, Group) && i.group == login.group && s.group != ""
    ensures GroupAsked(params, login, s.group)
  {
    if k :| k in params && Sets(EffectOf(k, params[k]), Group) && Read(s, Group) == EffectOf(k, params[k]) {
      SetsOwnKey(k, params[k], Group);
      EffectsByKey(k, params[k]);
    } else {
      forall k | k in params ensures ToLower(k) != "group" {
        EffectsByKey(k, params[k]);
      }
    }
  }

  lemma LabelsFound(params: Params, i: Settings, s: Settings)
    requires FoundFor(params, i, s, VolumeLabels) && !AnyFails(Effects(params)) && i.labels == []
    ensures LabelsAsked(params, s.labels)
  {
    if k :| k in params && Sets(EffectOf(k, params[k]), VolumeLabels)
            && Read(s, VolumeLabels) == EffectOf(k, params[k]) {
      SetsOwnKey(k, params[k], VolumeLabels);
      EffectsByKey(k, params[k]);
    } else {
      forall k | k in params ensures ToLower(k) != "labels" {
        assert !Effects(params)[k].Fails?;
        EffectsByKey(k, params[k]);
      }
    }
  }

  lemma QuotaFound(params: Params, i: Settings, s: Settings)
    requires FoundFor(params, i, s, Quota) && !i.createQuota
    ensures QuotaAsked(params, s.createQuota)
  {
    if k :| k in params && Sets(EffectOf(k, params[k]), Quota) && Read(s, Quota) == EffectOf(k, params[k]) {
      SetsOwnKey(k, params[k], Quota);
      EffectsByKey(k, params[k]);
    } else {
      forall k | k in params ensures ToLower(k) != "createquota" {
        EffectsByKey(k, params[k]);
      }
    }
  }

  lemma ModeFound(params: Params, i: Settings, s: Settings)
    requires FoundFor(params, i, s, Mode) && !AnyFails(Effects(params)) && i.configuredMode == 0
    ensures ModeAsked(params, s.configuredMode)
  {
    if k :| k in params && Sets(EffectOf(k, params[k]), Mode) && Read(s, Mode) == EffectOf(k, params[k]) {
      SetsOwnKey(k, params[k], Mode);
      EffectsByKey(k, params[k]);
    } else {
      forall k | k in params ensures ToLower(k) != "accessmode" {
        assert !Effects(params)[k].Fails?;
        EffectsByKey(k, params[k]);
      }
    }
  }

  /** The mode of the volume itself. */
  lemma VolumeModeFound(params: Params, order: seq<string>, i: Settings)
    requires Iterates(order, params.Keys) && Fold(params, order, i).Some?
    ensures var s := Fold(params, order, i).value;
            s.accessMode == if IsShared(params) || Missing(params, "accessmode") then i.accessMode else s.configuredMode
  {
    FoldIsFoldEffects(params, order, i);
    FoldFails(IsShared(params), Effects(params), order, i);
    FoldAccessMode(IsShared(params), Effects(params), order, i);
    forall k | k in params ensures ToLower(k) == "accessmode" <==> Effects(params)[k].SetMode? {
      assert !Effects(params)[k].Fails?;
      EffectsByKey(k, params[k]);
      if Effects(params)[k].SetMode? {
        SetsOwnKey(k, params[k], Mode);
      }
    }
  }

  lemma TenantConfigured(params: Params, i: Settings, s: Settings)
    requires FoundFor(params, i, s, Tenant) && i.tenant == ""
    ensures || (s.tenant == "" && TenantOpen(params))
            || (exists k :: k in params && ToLower(k) == "quobytetenant" && s.tenant == params[k] != "")
  {
    if k :| k in params && Sets(EffectOf(k, params[k]), Tenant) && Read(s, Tenant) == EffectOf(k, params[k]) {
      SetsOwnKey(k, params[k], Tenant);
      EffectsByKey(k, params[k]);
    } else {
      forall k | k in params ensures ToLower(k) != "quobytetenant" {
        EffectsByKey(k, params[k]);
      }
    }
  }

  /** How the tenant in use comes from the one the parameters give. */
  lemma TenantOfFold(cfg: Config, b: Backend, req: CreateRequest, env: Env, s: Settings, configured: string)
    requires req.params.Some? && Ordered(req, env) && Prepared(cfg, b, req, env) == Some(s) && env.login.Some?
    requires var f := Fold(req.params.value, env.order,
                           Initial(req.params.value, req.name, env.login.value.user, env.login.value.group));
             f.Some? && f.value.tenant == configured
    ensures if configured != "" then TenantUuid(b, configured) == Some(s.tenant)
            else if cfg.namespaceAsTenant
            then NAMESPACE_KEY in req.params.value && TenantUuid(b, req.params.value[NAMESPACE_KEY]) == Some(s.tenant)
            else s.tenant == ""
  {
  }

  lemma TenantFound(cfg: Config, b: Backend, req: CreateRequest, env: Env, s: Settings, i: Settings, folded: Settings)
    requires req.params.Some? && Ordered(req, env) && Prepared(cfg, b, req, env) == Some(s) && env.login.Some?
    requires i == Initial(req.params.value, req.name, env.login.value.user, env.login.value.group)
    requires Fold(req.params.value, env.order, i) == Some(folded) && FoundFor(req.params.value, i, folded, Tenant)
    ensures TenantAsked(cfg, b, req.params.value, s.tenant)
  {
    TenantConfigured(req.params.value, i, folded);
    TenantOfFold(cfg, b, req, env, s, folded.tenant);
  }

  /** Everything but the tenant, which is still to be resolved. */
  ghost predicate SettingsAsked(params: Params, pvName: string, login: Login, s: Settings) {
    && NameAsked(params, pvName, s.name)
    && UserAsked(params, login, s.user) && GroupAsked(params, login, s.group)
    && LabelsAsked(params, s.labels) && QuotaAsked(params, s.createQuota) && ModeAsked(params, s.configuredMode)
    && s.accessMode == if IsShared(params) then 1777
                       else if Missing(params, "accessmode") then 700 else s.configuredMode
  }

  lemma SettingsFound(params: Params, order: seq<string>, pvName: string, login: Login, s: Settings)
    requires Iterates(order, params.Keys) && s.group != ""
    requires Fold(params, order, Initial(params, pvName, login.user, login.group)) == Some(s)
    ensures SettingsAsked(params, pvName, login, s)
  {
    var i := Initial(params, pvName, login.user, login.group);
    forall f: Field ensures FoundFor(params, i, s, f) {
      Found(params, order, i, f);
    }
    Found(params, order, i, Name);
    NameFound(params, i, s);
    UserFound(params, i, s, login);
    GroupFound(params, i, s, login);
    LabelsFound(params, i, s);
    QuotaFound(params, i, s);
    ModeFound(params, i, s);
    VolumeModeFound(params, order, i);
  }

  lemma TenantElsewhere(params: Params, pvName: string, login: Login, s: Settings, tenant: string)
    requires SettingsAsked(params, pvName, login, s)
    ensures SettingsAsked(params, pvName, login, s.(tenant := tenant))
  {
  }

  /** The settings a call works with are those asked for, in whatever order the parameters come, conflicts or not. */
  lemma SettingsAsRequested(cfg: Config, b: Backend, req: CreateRequest, env: Env, s: Settings)
    requires Acceptable(req) && Ordered(req, env)
    requires Iterates(env.order, req.params.value.Keys) && Prepared(cfg, b, req, env) == Some(s)
    ensures env.login.Some?
    ensures SettingsAsked(req.params.value, req.name, env.login.value, s)
    ensures TenantAsked(cfg, b, req.params.value, s.tenant)
  {
    var i, folded := PreparedFold(cfg, b, req, env, s);
    SettingsFound(req.params.value, env.order, req.name, env.login.value, folded);
    Found(req.params.value, env.order, i, Tenant);
    TenantElsewhere(req.params.value, req.name, env.login.value, folded, s.tenant);
    TenantFound(cfg, b, req, env, s, i, folded);
  }

  /** A volume that did not exist is created as the StorageClass asks, with the quota exactly when one is asked for. */
  lemma FreshVolumeAsRequested(cfg: Config, acc: D.Accounts, w: World, req: CreateRequest, env: Env, s: Settings)
    requires ValidWorld(w) && EnvOk(w, req, env) && Reaches(cfg, w.backend, req, env, s)
    requires KeyFor(s) !in w.backend.names
    requires Create(cfg, acc, w, req, env).1.Created?
    ensures env.login.Some?
    ensures var b', params, login := Create(cfg, acc, w, req, env).0.backend, req.params.value, env.login.value;
            && KeyFor(s) in b'.names && b'.names[KeyFor(s)] in b'.volumes
            && var v := b'.volumes[b'.names[KeyFor(s)]];
            && NameAsked(params, req.name, s.name) && TenantAsked(cfg, w.backend, params, s.tenant)
            && UserAsked(params, login, v.spec.user) && GroupAsked(params, login, v.spec.group)
            && LabelsAsked(params, v.spec.labels)
            && (if IsShared(params) then v.spec.accessMode == 1777
                else if Missing(params, "accessmode") then v.spec.accessMode == 700
                else ModeAsked(params, v.spec.accessMode))
            && QuotaAsked(params, s.createQuota)
            && v.quota == (if !IsShared(params) && s.createQuota then req.capacity else None)
            && v.snapshots == map[]
  {
    SettingsAsRequested(cfg, w.backend, req, env, s);
    FreshVolume(cfg, acc, w, req, env, s);
  }

  lemma ObtainFresh(b: Backend, s: Settings, env: Env)
    requires KeyFor(s) !in b.names && Obtain(b, s, env).1.Some?
    ensures var o := Obtain(b, s, env);
            && o.1 == Some(env.uuid) && KeyFor(s) in o.0.names && o.0.names[KeyFor(s)] == env.uuid
            && env.uuid in o.0.volumes && o.0.volumes[env.uuid] == Volume(SpecFor(s), None, map[])
  {
  }

  lemma FreshVolume(cfg: Config, acc: D.Accounts, w: World, req: CreateRequest, env: Env, s: Settings)
    requires ValidWorld(w) && EnvOk(w, req, env) && Reaches(cfg, w.backend, req, env, s)
    requires KeyFor(s) !in w.backend.names && Create(cfg, acc, w, req, env).1.Created?
    ensures var b' := Create(cfg, acc, w, req, env).0.backend;
            && KeyFor(s) in b'.names && b'.names[KeyFor(s)] in b'.volumes
            && b'.volumes[b'.names[KeyFor(s)]] ==
                 Volume(SpecFor(s), if !IsShared(req.params.value) && s.createQuota then req.capacity else None, map[])
  {
    PreparedTenant(cfg, w.backend, req, env);
    ObtainKeeps(w.backend, s, env);
    ObtainFresh(w.backend, s, env);
    ReserveKeeps(Obtain(w.backend, s, env).0, env.uuid, req.capacity.value, env);
  }

  lemma DirectoryOf(cfg: Config, acc: D.Accounts, w: World, req: CreateRequest, env: Env, s: Settings, uuid: string)
    requires ValidWorld(w) && EnvOk(w, req, env) && Reaches(cfg, w.backend, req, env, s) && IsShared(req.params.value)
    requires Create(cfg, acc, w, req, env).1.Created? && Obtain(w.backend, s, env).1 == Some(uuid)
    requires D.At(w.nodes, ClaimDirectory(cfg.mount, uuid, req.name)).Absent?
    ensures D.Wanted(DirectoryRequest(s), acc,
                     D.At(Create(cfg, acc, w, req, env).0.nodes, ClaimDirectory(cfg.mount, uuid, req.name)))
  {
    DirectoryMade(cfg, acc, w.nodes, ClaimDirectory(cfg.mount, uuid, req.name), s, env.mkdir);
  }

  /** What the StorageClass's access mode leaves on a directory, or 0700 without one. */
  ghost predicate DirectoryModeAsked(params: Params, mode: nat) {
    || (exists k :: k in params && ToLower(k) == "accessmode" && AppliedSubdirectoryMode(params[k]) == Value(mode))
    || (Missing(params, "accessmode") && mode == 448)
  }

  lemma ModeOfDirectory(params: Params, s: Settings, mode: nat)
    requires ModeAsked(params, s.configuredMode) && AppliedMode(DirectoryRequest(s).accessMode) == Value(mode)
    ensures DirectoryModeAsked(params, mode)
  {
    DefaultModeLosesSticky();
    if k :| k in params && ToLower(k) == "accessmode" && GivesMode(params[k], s.configuredMode) {
      assert AppliedSubdirectoryMode(params[k]) == Value(mode);
    }
  }

  /**
   A claim's directory that did not exist is made with the owner that the
   StorageClass asks for, and with the octal reading of its access mode as `os.Chmod`
   applies it. Without an access mode that is 0700: the sticky bit of the default
   01700 is lost.
   */
  lemma FreshDirectoryAsRequested(cfg: Config, acc: D.Accounts, w: World, req: CreateRequest, env: Env, s: Settings,
                                  uuid: string)
    requires ValidWorld(w) && EnvOk(w, req, env) && Reaches(cfg, w.backend, req, env, s)
    requires IsShared(req.params.value)
    requires Create(cfg, acc, w, req, env).1.Created?
    requires Obtain(w.backend, s, env).1 == Some(uuid)
    requires D.At(w.nodes, ClaimDirectory(cfg.mount, uuid, req.name)).Absent?
    ensures env.login.Some?
    ensures var params, login := req.params.value, env.login.value;
            var node := D.At(Create(cfg, acc, w, req, env).0.nodes, ClaimDirectory(cfg.mount, uuid, req.name));
            && node.Dir?
            && UserAsked(params, login, s.user) && s.user in acc.users && node.uid == acc.users[s.user]
            && GroupAsked(params, login, s.group) && s.group in acc.groups && node.gid == acc.groups[s.group]
            && DirectoryModeAsked(params, node.mode)
  {
    SettingsAsRequested(cfg, w.backend, req, env, s);
    DirectoryOf(cfg, acc, w, req, env, s, uuid);
    var node := D.At(Create(cfg, acc, w, req, env).0.nodes, ClaimDirectory(cfg.mount, uuid, req.name));
    ModeOfDirectory(req.params.value, s, node.mode);
  }
}
