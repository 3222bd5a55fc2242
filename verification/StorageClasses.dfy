/** StorageClasses with their parameters spelled as documented, and what a volume or directory of theirs is like. */
module StorageClasses {
  import opened Options
  import opened GoStrings
  import opened Handles
  import opened AccessModes
  import opened ClientCache
  import opened Labels
  import opened Parameters
  import opened B = Backend
  import opened Provisioning
  import opened ProvisioningTheorems
  import opened AsRequested
  import D = DirectoryMaker

  lemma LowersTo(s: string, t: string)
    requires |s| == |t|
    requires forall i :: 0 <= i < |s| ==>
               t[i] as int == if 65 <= s[i] as int <= 90 then s[i] as int + 32 else s[i] as int
    ensures ToLower(s) == t
  {
    LowerIs(s, t);
  }

  /** The documented keys, whose capital letters the loop does not mind. */
  lemma TenantKey()
    ensures ToLower("quobyteTenant") == "quobytetenant"
  {
    LowersTo("quobyteTenant", "quobytetenant");
  }

  lemma NameKey()
    ensures ToLower("sharedVolumeName") == "sharedvolumename"
  {
    LowersTo("sharedVolumeName", "sharedvolumename");
  }

  lemma QuotaKey()
    ensures ToLower("createQuota") == "createquota"
  {
    LowersTo("createQuota", "createquota");
  }

  lemma ModeKey()
    ensures ToLower("accessMode") == "accessmode"
  {
    LowersTo("accessMode", "accessmode");
  }

  /** A string without capitals stays as it is. */
  lemma Lowered(s: string)
    requires forall i :: 0 <= i < |s| ==> !(65 <= s[i] as int <= 90)
    ensures ToLower(s) == s
  {
    LowersTo(s, s);
  }

  lemma TrueAndFalse()
    ensures ToLower("true") == "true" && ToLower("false") == "false"
  {
    Lowered("true");
    Lowered("false");
  }

  /** What a documented parameter asks for, by its key. */
  lemma QuotaEffect(value: string)
    ensures value == "true" ==> EffectOf("createQuota", value) == SetQuota(true)
    ensures value == "false" ==> EffectOf("createQuota", value) == SetQuota(false)
  {
    QuotaKey();
    TrueAndFalse();
    EffectsByKey("createQuota", value);
  }

  lemma TenantEffect(value: string)
    ensures EffectOf("quobyteTenant", value) == SetTenant(value)
  {
    TenantKey();
    EffectsByKey("quobyteTenant", value);
  }

  lemma NameEffect(value: string)
    ensures EffectOf("sharedVolumeName", value) == SetName(value)
  {
    NameKey();
    EffectsByKey("sharedVolumeName", value);
  }

  lemma UserEffect(value: string)
    requires !AllSpace(value)
    ensures EffectOf("user", value) == SetUser(value)
  {
    Lowered("user");
    TrimmedAway(value);
    EffectsByKey("user", value);
  }

  lemma GroupEffect(value: string)
    ensures EffectOf("group", value) == SetGroup(value)
  {
    Lowered("group");
    EffectsByKey("group", value);
  }

  lemma LabelsByKey(key: string, value: string, parsed: Option<seq<Label>>)
    requires ToLower(key) == "labels" && parsed == LabelsOf(value)
    ensures EffectOf(key, value) == if parsed.Some? then SetLabels(parsed.value) else Fails
  {
  }

  lemma LabelsEffect(value: string)
    ensures EffectOf("labels", value) ==
              if LabelsOf(value).Some? then SetLabels(LabelsOf(value).value) else Fails
  {
    Lowered("labels");
    LabelsByKey("labels", value, LabelsOf(value));
  }

  lemma ModeByKey(key: string, value: string, parsed: UintResult)
    requires ToLower(key) == "accessmode" && parsed == ParseUint(value, 10, 0x1_0000_0000)
    ensures EffectOf(key, value) == if parsed.Value? then SetMode(Int32(parsed.n)) else Fails
  {
  }

  /** An access mode is a number below 2^32 in decimal digits, kept as an int32. */
  lemma ModeEffect(value: string)
    ensures EffectOf("accessMode", value) ==
              if value != "" && AllDigits(value, 10) && ValueOf(value, 10) < 0x1_0000_0000
              then SetMode(Int32(ValueOf(value, 10))) else Fails
  {
    ModeKey();
    ModeByKey("accessMode", value, ParseUint(value, 10, 0x1_0000_0000));
    Parsed(value);
  }

  lemma Parsed(value: string)
    ensures var r := ParseUint(value, 10, 0x1_0000_0000);
            && (r.Value? <==> value != "" && AllDigits(value, 10) && ValueOf(value, 10) < 0x1_0000_0000)
            && (r.Value? ==> r.n == ValueOf(value, 10))
  {
    ParseExactly(value, 10, 0x1_0000_0000, 0);
  }

  /** An access mode as the loop accepts it. */
  predicate Numeric(value: string) {
    value != "" && AllDigits(value, 10) && ValueOf(value, 10) < 0x1_0000_0000
  }

  lemma OtherKeysWork(key: string, value: string)
    requires ToLower(key) != "labels" && ToLower(key) != "accessmode"
    ensures !EffectOf(key, value).Fails?
  {
  }

  /** Exactly which parameters make a call fail: malformed labels, and access modes that are no such numbers. */
  lemma FailsExactly(key: string, value: string)
    ensures EffectOf(key, value).Fails? <==>
              || (ToLower(key) == "labels" && LabelsOf(value).None?)
              || (ToLower(key) == "accessmode" && !Numeric(value))
  {
    if ToLower(key) == "labels" {
      LabelsByKey(key, value, LabelsOf(value));
    } else if ToLower(key) == "accessmode" {
      ModeByKey(key, value, ParseUint(value, 10, 0x1_0000_0000));
      Parsed(value);
    } else {
      OtherKeysWork(key, value);
    }
  }

  /** The tenant of the parameters, or the namespace in its place, can be found. */
  ghost predicate TenantReachable(cfg: Config, b: Backend, params: Params, configured: string, fault: bool) {
    if configured == "" && cfg.namespaceAsTenant
    then "csi.storage.k8s.io/pvc/namespace" in params
         && var namespace := params["csi.storage.k8s.io/pvc/namespace"];
         namespace == "" || (!fault && TenantUuid(b, namespace).Some?)
    else configured == "" || (!fault && TenantUuid(b, configured).Some?)
  }

  lemma PreparedByFold(cfg: Config, b: Backend, req: CreateRequest, env: Env, folded: Option<Settings>)
    requires req.params.Some? && Ordered(req, env) && env.login.Some?
    requires folded == Fold(req.params.value, env.order,
                            Initial(req.params.value, req.name, env.login.value.user, env.login.value.group))
    ensures Prepared(cfg, b, req, env).Some? <==>
              && Choose(req.secrets).Some? && folded.Some? && folded.value.group != ""
              && TenantReachable(cfg, b, req.params.value, folded.value.tenant, env.tenantFault)
  {
  }

  /**
   Exactly when a call gets its settings together: credentials, a login, no malformed
   parameter, a group, and a tenant that can be found where one is asked for.
   */
  lemma PreparedExactly(cfg: Config, b: Backend, req: CreateRequest, env: Env)
    requires req.params.Some? && Ordered(req, env) && Iterates(env.order, req.params.value.Keys)
    ensures var params := req.params.value;
            Prepared(cfg, b, req, env).Some? <==>
              && Choose(req.secrets).Some? && env.login.Some?
              && (forall k <- params :: && (ToLower(k) == "labels" ==> LabelsOf(params[k]).Some?)
                                        && (ToLower(k) == "accessmode" ==> Numeric(params[k])))
              && var login := env.login.value;
              var folded := Fold(params, env.order, Initial(params, req.name, login.user, login.group));
              folded.Some? && folded.value.group != "" &&
              TenantReachable(cfg, b, params, folded.value.tenant, env.tenantFault)
  {
    if env.login.Some? {
      var params, login := req.params.value, env.login.value;
      var i := Initial(params, req.name, login.user, login.group);
      var folded := Fold(params, env.order, i);
      PreparedByFold(cfg, b, req, env, folded);
      FoldIsFoldEffects(params, env.order, i);
      FoldFails(IsShared(params), Effects(params), env.order, i);
      forall k | k in params
        ensures Effects(params)[k].Fails? <==> || (ToLower(k) == "labels" && LabelsOf(params[k]).None?)
                                               || (ToLower(k) == "accessmode" && !Numeric(params[k]))
      {
        FailsExactly(k, params[k]);
      }
    }
  }

  lemma ValueOf750()
    ensures ValueOf("750", 10) == 750 && ValueOf("750", 8) == 488 && AllDigits("750", 8) && AllDigits("750", 10)
  {
    assert ValueFrom("", 10, 0) == 0 && ValueFrom("", 8, 0) == 0;
    ValueSnoc("", '7', 10, 0);
    ValueSnoc("7", '5', 10, 0);
    ValueSnoc("75", '0', 10, 0);
    ValueSnoc("", '7', 8, 0);
    ValueSnoc("7", '5', 8, 0);
    ValueSnoc("75", '0', 8, 0);
    assert "" + ['7'] == "7" && "7" + ['5'] == "75" && "75" + ['0'] == "750";
  }

  /** A setting that one parameter asks for, with none in conflict, is what that parameter asks. */
  lemma ReadAsAsked(params: Params, order: seq<string>, i: Settings, key: string, f: Field)
    requires Iterates(order, params.Keys) && Fold(params, order, i).Some?
    requires key in params && Sets(EffectOf(key, params[key]), f) && NoConflictOn(Effects(params), f)
    ensures Read(Fold(params, order, i).value, f) == EffectOf(key, params[key])
  {
    var e := Effects(params)[key];
    FoldIsFoldEffects(params, order, i);
    assert key in order;
    FoldAgreed(IsShared(params), Effects(params), order, i, f, e);
  }

  /** The same of the settings a call works with; the tenant is resolved on the way. */
  lemma PreparedAsAsked(cfg: Config, b: Backend, req: CreateRequest, env: Env, s: Settings, key: string, f: Field)
    requires req.params.Some? && Ordered(req, env) && Iterates(env.order, req.params.value.Keys)
    requires Prepared(cfg, b, req, env) == Some(s)
    requires var params := req.params.value;
             key in params && Sets(EffectOf(key, params[key]), f) && NoConflictOn(Effects(params), f)
    ensures var e := EffectOf(key, req.params.value[key]);
            && (f != Tenant ==> Read(s, f) == e)
            && (f == Tenant && e.tenant != "" ==> TenantUuid(b, e.tenant) == Some(s.tenant))
  {
    var i, folded := PreparedFold(cfg, b, req, env, s);
    ReadAsAsked(req.params.value, env.order, i, key, f);
    if f == Tenant {
      TenantOfFold(cfg, b, req, env, s, folded.tenant);
    }
  }

  lemma QuotaAsSpelled(cfg: Config, b: Backend, req: CreateRequest, env: Env, s: Settings, value: string)
    requires req.params.Some? && Ordered(req, env) && Iterates(env.order, req.params.value.Keys)
    requires Prepared(cfg, b, req, env) == Some(s)
    requires "createQuota" in req.params.value && req.params.value["createQuota"] == value
    requires NoConflictOn(Effects(req.params.value), Quota)
    ensures value == "true" ==> s.createQuota
    ensures value == "false" ==> !s.createQuota
  {
    QuotaEffect(value);
    if EffectOf("createQuota", value).SetQuota? {
      PreparedAsAsked(cfg, b, req, env, s, "createQuota", Quota);
    }
  }

  lemma TenantAsSpelled(cfg: Config, b: Backend, req: CreateRequest, env: Env, s: Settings)
    requires req.params.Some? && Ordered(req, env) && Iterates(env.order, req.params.value.Keys)
    requires Prepared(cfg, b, req, env) == Some(s)
    requires "quobyteTenant" in req.params.value && NoConflictOn(Effects(req.params.value), Tenant)
    requires req.params.value["quobyteTenant"] != ""
    ensures TenantUuid(b, req.params.value["quobyteTenant"]) == Some(s.tenant)
  {
    TenantEffect(req.params.value["quobyteTenant"]);
    PreparedAsAsked(cfg, b, req, env, s, "quobyteTenant", Tenant);
  }

  lemma NameAsSpelled(cfg: Config, b: Backend, req: CreateRequest, env: Env, s: Settings)
    requires req.params.Some? && Ordered(req, env) && Iterates(env.order, req.params.value.Keys)
    requires Prepared(cfg, b, req, env) == Some(s)
    requires "sharedVolumeName" in req.params.value && NoConflictOn(Effects(req.params.value), Name)
    ensures s.name == req.params.value["sharedVolumeName"] && IsShared(req.params.value)
  {
    NameEffect(req.params.value["sharedVolumeName"]);
    PreparedAsAsked(cfg, b, req, env, s, "sharedVolumeName", Name);
  }

  lemma OwnerAsSpelled(cfg: Config, b: Backend, req: CreateRequest, env: Env, s: Settings)
    requires req.params.Some? && Ordered(req, env) && Iterates(env.order, req.params.value.Keys)
    requires Prepared(cfg, b, req, env) == Some(s)
    ensures var params := req.params.value;
            && ("user" in params && !AllSpace(params["user"]) && NoConflictOn(Effects(params), User) ==>
                  s.user == params["user"])
            && ("group" in params && NoConflictOn(Effects(params), Group) ==> s.group == params["group"])
  {
    var params := req.params.value;
    if "user" in params && !AllSpace(params["user"]) && NoConflictOn(Effects(params), User) {
      UserEffect(params["user"]);
      PreparedAsAsked(cfg, b, req, env, s, "user", User);
    }
    if "group" in params && NoConflictOn(Effects(params), Group) {
      GroupEffect(params["group"]);
      PreparedAsAsked(cfg, b, req, env, s, "group", Group);
    }
  }

  lemma LabelsAsSpelled(cfg: Config, b: Backend, req: CreateRequest, env: Env, s: Settings)
    requires req.params.Some? && Ordered(req, env) && Iterates(env.order, req.params.value.Keys)
    requires Prepared(cfg, b, req, env) == Some(s)
    requires "labels" in req.params.value && NoConflictOn(Effects(req.params.value), VolumeLabels)
    ensures LabelsOf(req.params.value["labels"]) == Some(s.labels)
  {
    var i, folded := PreparedFold(cfg, b, req, env, s);
    LabelsEffect(req.params.value["labels"]);
    Found(req.params.value, env.order, i, VolumeLabels);
    assert !Effects(req.params.value)["labels"].Fails?;
    PreparedAsAsked(cfg, b, req, env, s, "labels", VolumeLabels);
  }

  lemma Small(u: nat)
    requires u < 0x8000_0000
    ensures Int32(u) == u
  {
  }

  /** What an access mode that was accepted is kept as. */
  lemma ModeRead(cfg: Config, b: Backend, req: CreateRequest, env: Env, s: Settings, value: string)
    requires req.params.Some? && Ordered(req, env) && Iterates(env.order, req.params.value.Keys)
    requires Prepared(cfg, b, req, env) == Some(s)
    requires "accessMode" in req.params.value && req.params.value["accessMode"] == value
    requires NoConflictOn(Effects(req.params.value), Mode)
    ensures value != "" && AllDigits(value, 10) && s.configuredMode == Int32(ValueOf(value, 10))
  {
    var i, folded := PreparedFold(cfg, b, req, env, s);
    Found(req.params.value, env.order, i, Mode);
    assert !Effects(req.params.value)["accessMode"].Fails?;
    ModeEffect(value);
    PreparedAsAsked(cfg, b, req, env, s, "accessMode", Mode);
  }

  lemma VolumeMode(params: Params, pvName: string, login: Login, s: Settings, key: string)
    requires SettingsAsked(params, pvName, login, s) && key in params && ToLower(key) == "accessmode"
    ensures s.accessMode == if "sharedVolumeName" in params then 1777 else s.configuredMode
  {
  }

  /** A digit string is the mode of a volume of its own and, kept aside, of a claim's directory. */
  lemma ModeAsSpelled(cfg: Config, b: Backend, req: CreateRequest, env: Env, s: Settings, value: string)
    requires Acceptable(req) && Ordered(req, env) && Iterates(env.order, req.params.value.Keys)
    requires Prepared(cfg, b, req, env) == Some(s)
    requires "accessMode" in req.params.value && req.params.value["accessMode"] == value
    requires NoConflictOn(Effects(req.params.value), Mode)
    ensures value != "" && AllDigits(value, 10)
    ensures ValueOf(value, 10) < 0x8000_0000 ==> s.configuredMode == ValueOf(value, 10)
    ensures value == "750" ==> s.configuredMode == 750
    ensures s.accessMode == if "sharedVolumeName" in req.params.value then 1777 else s.configuredMode
  {
    ModeRead(cfg, b, req, env, s, value);
    ValueOf750();
    if ValueOf(value, 10) < 0x8000_0000 {
      Small(ValueOf(value, 10));
    }
    ModeKey();
    SettingsAsRequested(cfg, b, req, env, s);
    VolumeMode(req.params.value, req.name, env.login.value, s, "accessMode");
  }

  /** The tenant and the name as written in a StorageClass with documented keys. */
  ghost predicate PlaceDocumented(b: Backend, params: Params, s: Settings) {
    && ("quobyteTenant" in params && params["quobyteTenant"] != "" ==>
          TenantUuid(b, params["quobyteTenant"]) == Some(s.tenant))
    && ("sharedVolumeName" in params ==> s.name == params["sharedVolumeName"])
  }

  ghost predicate LabelsDocumented(params: Params, s: Settings) {
    && ("user" in params && !AllSpace(params["user"]) ==> s.user == params["user"])
    && ("group" in params ==> s.group == params["group"])
    && ("labels" in params ==> LabelsOf(params["labels"]) == Some(s.labels))
  }

  ghost predicate QuotaDocumented(params: Params, s: Settings) {
    && ("createQuota" in params && params["createQuota"] == "true" ==> s.createQuota)
    && ("createQuota" in params && params["createQuota"] == "false" ==> !s.createQuota)
  }

  ghost predicate ModeDocumented(params: Params, s: Settings) {
    && ("sharedVolumeName" in params ==> s.accessMode == 1777)
    && ("accessMode" in params && params["accessMode"] == "750" ==>
          s.configuredMode == 750 && ("sharedVolumeName" !in params ==> s.accessMode == 750))
  }

  /** And what is used where nothing is written. */
  ghost predicate DefaultsDocumented(req: CreateRequest, s: Settings) {
    req.params == Some(map[]) ==> s.name == req.name && s.accessMode == 700 && !s.createQuota && s.labels == []
  }

  ghost predicate AsDocumented(b: Backend, req: CreateRequest, s: Settings)
    requires req.params.Some?
  {
    var params := req.params.value;
    && PlaceDocumented(b, params, s) && LabelsDocumented(params, s) && QuotaDocumented(params, s)
    && ModeDocumented(params, s) && DefaultsDocumented(req, s)
  }

  lemma DefaultsAsDocumented(req: CreateRequest, login: Login, s: Settings)
    requires req.params.Some? && SettingsAsked(req.params.value, req.name, login, s)
    ensures DefaultsDocumented(req, s)
    ensures "sharedVolumeName" in req.params.value ==> s.accessMode == 1777
  {
  }

  lemma PlaceAsDocumented(cfg: Config, b: Backend, req: CreateRequest, env: Env, s: Settings)
    requires Acceptable(req) && Ordered(req, env) && Iterates(env.order, req.params.value.Keys)
    requires Prepared(cfg, b, req, env) == Some(s)
    requires forall f: Field :: NoConflictOn(Effects(req.params.value), f)
    ensures PlaceDocumented(b, req.params.value, s)
  {
    if "quobyteTenant" in req.params.value && req.params.value["quobyteTenant"] != "" {
      TenantAsSpelled(cfg, b, req, env, s);
    }
    if "sharedVolumeName" in req.params.value {
      NameAsSpelled(cfg, b, req, env, s);
    }
  }

  lemma LabelsAsDocumented(cfg: Config, b: Backend, req: CreateRequest, env: Env, s: Settings)
    requires Acceptable(req) && Ordered(req, env) && Iterates(env.order, req.params.value.Keys)
    requires Prepared(cfg, b, req, env) == Some(s)
    requires forall f: Field :: NoConflictOn(Effects(req.params.value), f)
    ensures LabelsDocumented(req.params.value, s)
  {
    OwnerAsSpelled(cfg, b, req, env, s);
    if "labels" in req.params.value {
      LabelsAsSpelled(cfg, b, req, env, s);
    }
  }

  lemma QuotaAsDocumented(cfg: Config, b: Backend, req: CreateRequest, env: Env, s: Settings)
    requires Acceptable(req) && Ordered(req, env) && Iterates(env.order, req.params.value.Keys)
    requires Prepared(cfg, b, req, env) == Some(s)
    requires forall f: Field :: NoConflictOn(Effects(req.params.value), f)
    ensures QuotaDocumented(req.params.value, s)
  {
    if "createQuota" in req.params.value {
      QuotaAsSpelled(cfg, b, req, env, s, req.params.value["createQuota"]);
    }
  }

  lemma ModeAsDocumented(cfg: Config, b: Backend, req: CreateRequest, env: Env, s: Settings)
    requires Acceptable(req) && Ordered(req, env) && Iterates(env.order, req.params.value.Keys)
    requires Prepared(cfg, b, req, env) == Some(s)
    requires forall f: Field :: NoConflictOn(Effects(req.params.value), f)
    ensures ModeDocumented(req.params.value, s)
  {
    SettingsAsRequested(cfg, b, req, env, s);
    DefaultsAsDocumented(req, env.login.value, s);
    if "accessMode" in req.params.value {
      ModeAsSpelled(cfg, b, req, env, s, req.params.value["accessMode"]);
    }
  }

  /** The settings of a StorageClass with documented keys, none in conflict with another spelling, are those written. */
  lemma DocumentedSettings(cfg: Config, b: Backend, req: CreateRequest, env: Env, s: Settings)
    requires Acceptable(req) && Ordered(req, env) && Iterates(env.order, req.params.value.Keys)
    requires Prepared(cfg, b, req, env) == Some(s)
    requires forall f: Field :: NoConflictOn(Effects(req.params.value), f)
    ensures AsDocumented(b, req, s)
  {
    PlaceAsDocumented(cfg, b, req, env, s);
    LabelsAsDocumented(cfg, b, req, env, s);
    QuotaAsDocumented(cfg, b, req, env, s);
    ModeAsDocumented(cfg, b, req, env, s);
    SettingsAsRequested(cfg, b, req, env, s);
    DefaultsAsDocumented(req, env.login.value, s);
  }

  /**
   A fresh volume of a StorageClass with documented keys, none of them in conflict
   with another spelling: its tenant, name, owner, labels, mode and quota are those
   written there; and the defaults where nothing is written.
   */
  lemma DocumentedVolume(cfg: Config, acc: D.Accounts, w: World, req: CreateRequest, env: Env, s: Settings)
    requires ValidWorld(w) && EnvOk(w, req, env) && Reaches(cfg, w.backend, req, env, s)
    requires KeyFor(s) !in w.backend.names && Create(cfg, acc, w, req, env).1.Created?
    requires forall f: Field :: NoConflictOn(Effects(req.params.value), f)
    ensures AsDocumented(w.backend, req, s)
    ensures var b', key := Create(cfg, acc, w, req, env).0.backend, VolumeKey(s.tenant, s.name);
            && key in b'.names && b'.names[key] in b'.volumes
            && b'.volumes[b'.names[key]] ==
                 Volume(VolumeSpec(s.user, s.group, s.labels, s.accessMode),
                        if "sharedVolumeName" !in req.params.value && s.createQuota then req.capacity else None, map[])
  {
    FreshVolume(cfg, acc, w, req, env, s);
    DocumentedSettings(cfg, w.backend, req, env, s);
  }

  /** The mode of a fresh claim directory, in octal. */
  lemma DirectoryMode750(cfg: Config, acc: D.Accounts, w: World, req: CreateRequest, env: Env, s: Settings,
                         uuid: string)
    requires ValidWorld(w) && EnvOk(w, req, env) && Reaches(cfg, w.backend, req, env, s) && IsShared(req.params.value)
    requires Create(cfg, acc, w, req, env).1.Created? && Obtain(w.backend, s, env).1 == Some(uuid)
    requires D.At(w.nodes, ClaimDirectory(cfg.mount, uuid, req.name)).Absent? && s.configuredMode == 750
    ensures D.At(Create(cfg, acc, w, req, env).0.nodes, ClaimDirectory(cfg.mount, uuid, req.name)).Dir?
    ensures D.At(Create(cfg, acc, w, req, env).0.nodes, ClaimDirectory(cfg.mount, uuid, req.name)).mode == 488
  {
    DirectoryOf(cfg, acc, w, req, env, s, uuid);
    Applied750();
  }

  lemma Applied750()
    ensures AppliedMode(750) == Value(488)
  {
    ValueOf750();
    ConfiguredModeApplied("750");
    ParseExactly("750", 10, 0x1_0000_0000, 0);
    Small(750);
  }

  /** A fresh claim directory of such a class: the owner written there, and 750 is read as octal. */
  lemma DocumentedDirectory(cfg: Config, acc: D.Accounts, w: World, req: CreateRequest, env: Env, s: Settings,
                            uuid: string)
    requires ValidWorld(w) && EnvOk(w, req, env) && Reaches(cfg, w.backend, req, env, s)
    requires "sharedVolumeName" in req.params.value && forall f: Field :: NoConflictOn(Effects(req.params.value), f)
    requires Create(cfg, acc, w, req, env).1.Created? && Obtain(w.backend, s, env).1 == Some(uuid)
    requires D.At(w.nodes, ClaimDirectory(cfg.mount, uuid, req.name)).Absent?
    ensures var params := req.params.value;
            var node := D.At(Create(cfg, acc, w, req, env).0.nodes, ClaimDirectory(cfg.mount, uuid, req.name));
            && node.Dir?
            && ("user" in params && !AllSpace(params["user"]) ==>
                  params["user"] in acc.users && node.uid == acc.users[params["user"]])
            && ("group" in params ==> params["group"] in acc.groups && node.gid == acc.groups[params["group"]])
            && ("accessMode" in params && params["accessMode"] == "750" ==> node.mode == 488)
  {
    DirectoryOf(cfg, acc, w, req, env, s, uuid);
    OwnerAsSpelled(cfg, w.backend, req, env, s);
    if "accessMode" in req.params.value && req.params.value["accessMode"] == "750" {
      ModeAsSpelled(cfg, w.backend, req, env, s, "750");
      DirectoryMode750(cfg, acc, w, req, env, s, uuid);
    }
  }
}
