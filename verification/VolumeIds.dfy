/** When two `CreateVolume` calls, however far apart, return the same volume id. */
module VolumeIds {
  import opened Options
  import opened GoStrings
  import opened Handles
  import opened Parameters
  import opened B = Backend
  import opened Provisioning
  import opened ProvisioningTheorems
  import D = DirectoryMaker

  /** What an id stands for. */
  datatype Identity =
    | Restored(pvName: string)
    | Subdirectory(volume: VolumeKey, pvName: string)
    | Whole(volume: VolumeKey)

  function IdentityOf(cfg: Config, b: Backend, req: CreateRequest, env: Env): Identity
    requires Acceptable(req) && Ordered(req, env)
    requires !req.source.FromSnapshot? ==> Prepared(cfg, b, req, env).Some?
  {
    if req.source.FromSnapshot? then Restored(req.name)
    else
      var key := KeyFor(Prepared(cfg, b, req, env).value);
      if IsShared(req.params.value) then Subdirectory(key, req.name) else Whole(key)
  }

  lemma FirstPart(a: string, x: string, b: string, y: string)
    requires NoSep(a) && NoSep(b)
    ensures a + [SEP] + x == b + [SEP] + y <==> a == b && x == y
  {
    SplitConcat(a, x, SEP);
    SplitConcat(b, y, SEP);
    SplitAtom(a, SEP);
    SplitAtom(b, SEP);
    if a + [SEP] + x == b + [SEP] + y {
      assert ([a] + Split(x, SEP))[0] == ([b] + Split(y, SEP))[0];
      assert (a + [SEP] + x)[|a| + 1..] == x && (b + [SEP] + y)[|b| + 1..] == y;
    }
  }

  /** The three forms never coincide, and each gives its parts back, whatever the PV is called. */
  lemma FormsApart(t: string, u: string, t': string, u': string, p: string, p': string)
    requires NoSep(t) && NoSep(u) && NoSep(t') && NoSep(u')
    requires !HasPrefix(t, SNAPSHOT_PREFIX)
    ensures TwoPart(t, u) == TwoPart(t', u') <==> t == t' && u == u'
    ensures ThreePart(t, u, p) == ThreePart(t', u', p') <==> t == t' && u == u' && p == p'
    ensures TwoPart(t', u') != ThreePart(t, u, p)
    ensures SNAPSHOT_PREFIX + p' != TwoPart(t, u) && SNAPSHOT_PREFIX + p' != ThreePart(t, u, p)
    ensures SNAPSHOT_PREFIX + p == SNAPSHOT_PREFIX + p' <==> p == p'
  {
    var rest := u + [SEP] + p;
    FirstPart(t, u, t', u');
    FirstPart(t, rest, t', u' + [SEP] + p');
    FirstPart(u, p, u', p');
    assert ThreePart(t, u, p) == t + [SEP] + rest;
    assert ThreePart(t', u', p') == t' + [SEP] + (u' + [SEP] + p');
    FirstPart(t', u', t, rest);
    assert rest[|u|] == SEP;
    SnapshotPrefixOfTenant(t, u);
    SnapshotPrefixOfTenant(t, rest);
    assert (SNAPSHOT_PREFIX + p)[|SNAPSHOT_PREFIX|..] == p && (SNAPSHOT_PREFIX + p')[|SNAPSHOT_PREFIX|..] == p';
  }

  /** The id of a successful call, spelled out. */
  lemma IdOf(cfg: Config, acc: D.Accounts, w: World, req: CreateRequest, env: Env)
    requires ValidWorld(w) && EnvOk(w, req, env) && Create(cfg, acc, w, req, env).1.Created?
    ensures var r := Create(cfg, acc, w, req, env);
            && ValidWorld(r.0) && Grows(w.backend, r.0.backend)
            && match IdentityOf(cfg, w.backend, req, env)
               case Restored(pv) => r.1.volumeId == SNAPSHOT_PREFIX + pv
               case Subdirectory(key, pv) =>
                 && key in r.0.backend.names && IsTenant(key.tenant)
                 && r.1.volumeId == ThreePart(key.tenant, r.0.backend.names[key], pv)
               case Whole(key) =>
                 && key in r.0.backend.names && IsTenant(key.tenant)
                 && r.1.volumeId == TwoPart(key.tenant, r.0.backend.names[key])
  {
    if !req.source.FromSnapshot? {
      CreatedMeans(cfg, acc, w, req, env, Prepared(cfg, w.backend, req, env).value);
      PreparedTenant(cfg, w.backend, req, env);
    }
  }

  /** The volume of an identity, when it is the same one after both calls. */
  ghost predicate SameVolume(b: Backend, b': Backend, i: Identity) {
    match i
    case Restored(_) => true
    case Subdirectory(key, _) => key in b.names && key in b'.names && b.names[key] == b'.names[key]
    case Whole(key) => key in b.names && key in b'.names && b.names[key] == b'.names[key]
  }

  /**
   Two successful calls with any history in between, deletions and new volumes
   of old names included, return the same id exactly when they stand for the same
   thing and, if that is a volume, it was not deleted in between.
   */
  lemma SameIdExactly(cfg: Config, acc: D.Accounts, w: World, req: CreateRequest, env: Env,
                      w': World, req': CreateRequest, env': Env)
    requires ValidWorld(w) && EnvOk(w, req, env) && Create(cfg, acc, w, req, env).1.Created?
    requires ValidWorld(w') && EnvOk(w', req', env') && Create(cfg, acc, w', req', env').1.Created?
    requires Grows(Create(cfg, acc, w, req, env).0.backend, w'.backend)
    ensures var r, r' := Create(cfg, acc, w, req, env), Create(cfg, acc, w', req', env');
            var i, i' := IdentityOf(cfg, w.backend, req, env), IdentityOf(cfg, w'.backend, req', env');
            r.1.volumeId == r'.1.volumeId <==> i == i' && SameVolume(r.0.backend, r'.0.backend, i)
  {
    IdOf(cfg, acc, w, req, env);
    IdOf(cfg, acc, w', req', env');
    var b, b' := Create(cfg, acc, w, req, env).0.backend, Create(cfg, acc, w', req', env').0.backend;
    var i, i' := IdentityOf(cfg, w.backend, req, env), IdentityOf(cfg, w'.backend, req', env');
    var u, t, p := UuidIn(b, i), TenantOf(i), if i.Whole? then "" else i.pvName;
    var u', t', p' := UuidIn(b', i'), TenantOf(i'), if i'.Whole? then "" else i'.pvName;
    assert Grows(b, b');
    UuidShape(u);
    UuidShape(t);
    UuidShape(u');
    UuidShape(t');
    FormsApart(t, u, t', u', p, p');
    FormsApart(t', u', t, u, p', p);
  }

  function UuidIn(b: Backend, i: Identity): string {
    if i.Restored? || i.volume !in b.names then "" else b.names[i.volume]
  }

  function TenantOf(i: Identity): string {
    if i.Restored? then "" else i.volume.tenant
  }

  /** No key but the exactly spelled one names a shared volume. */
  ghost predicate SpelledExactly(params: Params) {
    forall k <- params :: ToLower(k) == "sharedvolumename" ==> IsShared(params)
  }

  lemma OwnName(cfg: Config, b: Backend, req: CreateRequest, env: Env)
    requires req.params.Some? && Iterates(env.order, req.params.value.Keys) && Ordered(req, env)
    requires Prepared(cfg, b, req, env).Some? && SpelledExactly(req.params.value) && !IsShared(req.params.value)
    ensures Prepared(cfg, b, req, env).value.name == req.name
  {
    var params := req.params.value;
    var s0 := Initial(params, req.name, env.login.value.user, env.login.value.group);
    PreparedFrom(cfg, b, req, env, Fold(params, env.order, s0));
    FoldIsFoldEffects(params, env.order, s0);
    forall k | k in env.order ensures k in Effects(params) && !Sets(Effects(params)[k], Name) {
      if Sets(EffectOf(k, params[k]), Name) {
        SetsOwnKey(k, params[k], Name);
      }
    }
    FoldUntouched(false, Effects(params), env.order, s0, Name);
    assert Read(Fold(params, env.order, s0).value, Name) == Read(s0, Name);
  }

  /** Different PVs never get the same id, over any history, when the shared volume's key is spelled exactly. */
  lemma DifferentPvsDifferentIds(cfg: Config, acc: D.Accounts, w: World, req: CreateRequest, env: Env,
                                 w': World, req': CreateRequest, env': Env)
    requires ValidWorld(w) && EnvOk(w, req, env) && Create(cfg, acc, w, req, env).1.Created?
    requires ValidWorld(w') && EnvOk(w', req', env') && Create(cfg, acc, w', req', env').1.Created?
    requires Grows(Create(cfg, acc, w, req, env).0.backend, w'.backend)
    requires SpelledExactly(req.params.value) && SpelledExactly(req'.params.value)
    requires req.name != req'.name
    ensures Create(cfg, acc, w, req, env).1.volumeId != Create(cfg, acc, w', req', env').1.volumeId
  {
    SameIdExactly(cfg, acc, w, req, env, w', req', env');
    if IdentityOf(cfg, w.backend, req, env).Whole? {
      OwnName(cfg, w.backend, req, env);
    }
    if IdentityOf(cfg, w'.backend, req', env').Whole? {
      OwnName(cfg, w'.backend, req', env');
    }
  }

  /** A repeated call that succeeds returns the same id exactly when it means the same volume. */
  lemma RepeatedIdExactly(cfg: Config, acc: D.Accounts, w: World, req: CreateRequest, env: Env, env': Env)
    requires ValidWorld(w) && EnvOk(w, req, env) && Create(cfg, acc, w, req, env).1.Created?
    requires EnvOk(Create(cfg, acc, w, req, env).0, req, env')
    requires Create(cfg, acc, Create(cfg, acc, w, req, env).0, req, env').1.Created?
    ensures var r := Create(cfg, acc, w, req, env);
            var r' := Create(cfg, acc, r.0, req, env');
            r'.1.volumeId == r.1.volumeId <==>
              IdentityOf(cfg, w.backend, req, env) == IdentityOf(cfg, r.0.backend, req, env')
  {
    var r := Create(cfg, acc, w, req, env);
    IdOf(cfg, acc, w, req, env);
    IdOf(cfg, acc, r.0, req, env');
    SameIdExactly(cfg, acc, w, req, env, r.0, req, env');
    if !req.source.FromSnapshot? {
      NamesStay(cfg, acc, r.0, req, env', Prepared(cfg, r.0.backend, req, env').value);
    }
  }

  /** A call that succeeds frees no name. */
  lemma NamesStay(cfg: Config, acc: D.Accounts, w: World, req: CreateRequest, env: Env, s: Settings)
    requires ValidWorld(w) && EnvOk(w, req, env) && Reaches(cfg, w.backend, req, env, s)
    requires Create(cfg, acc, w, req, env).1.Created?
    ensures KeyFor(s) in w.backend.names ==>
              && KeyFor(s) in Create(cfg, acc, w, req, env).0.backend.names
              && Create(cfg, acc, w, req, env).0.backend.names[KeyFor(s)] == w.backend.names[KeyFor(s)]
  {
    PreparedTenant(cfg, w.backend, req, env);
    ObtainKeeps(w.backend, s, env);
    var o := Obtain(w.backend, s, env);
    ReserveKeeps(o.0, o.1.value, req.capacity.value, env);
  }

  /**
   Conflicting parameters do break idempotency: when two of them name different
   volumes and nothing else conflicts on what the API is asked, a repeated call that
   meets no fault makes a second volume for the same PV.
   */
  lemma ConflictingNamesBreak(cfg: Config, acc: D.Accounts, w: World, req: CreateRequest, env: Env,
                              j: string, k: string, uuid: string) returns (env': Env)
    requires ValidWorld(w) && EnvOk(w, req, env) && Create(cfg, acc, w, req, env).1.Created?
    requires !req.source.FromSnapshot? && !IsShared(req.params.value)
    requires j in req.params.value && k in req.params.value
    requires Sets(Effects(req.params.value)[j], Name) && Sets(Effects(req.params.value)[k], Name)
    requires Effects(req.params.value)[j] != Effects(req.params.value)[k]
    requires NoConflictOn(Effects(req.params.value), Tenant) && NoConflictOn(Effects(req.params.value), Group)
    requires IsUuid(uuid) && uuid !in Create(cfg, acc, w, req, env).0.backend.issued
    ensures var r := Create(cfg, acc, w, req, env);
            && EnvOk(r.0, req, env') && Create(cfg, acc, r.0, req, env').1.Created?
            && Create(cfg, acc, r.0, req, env').1.volumeId != r.1.volumeId
  {
    var params, r := req.params.value, Create(cfg, acc, w, req, env);
    var s := Prepared(cfg, w.backend, req, env).value;
    CreatedMeans(cfg, acc, w, req, env, s);
    var order := OtherName(cfg, w.backend, req, env, s, j, k);
    env' := env.(order := order, tenantFault := false, create := Works, uuid := uuid, resolveFault := false,
                 quota := Works);
    PreparedByTenants(cfg, w.backend, r.0.backend, req, env');
    var s' := PreparedAgain(cfg, w.backend, req, env, s, env');
    SucceedsExactly(cfg, acc, r.0, req, env', s');
    RepeatedIdExactly(cfg, acc, w, req, env, env');
  }

  /** An order in which the other of two conflicting names wins. */
  lemma OtherName(cfg: Config, b: Backend, req: CreateRequest, env: Env, s: Settings, j: string, k: string)
    returns (order: seq<string>)
    requires req.params.Some? && Ordered(req, env) && Prepared(cfg, b, req, env) == Some(s)
    requires Iterates(env.order, req.params.value.Keys)
    requires j in req.params.value && k in req.params.value
    requires Sets(Effects(req.params.value)[j], Name) && Sets(Effects(req.params.value)[k], Name)
    requires Effects(req.params.value)[j] != Effects(req.params.value)[k]
    ensures Iterates(order, req.params.value.Keys) && env.login.Some?
    ensures var i := Initial(req.params.value, req.name, env.login.value.user, env.login.value.group);
            Fold(req.params.value, order, i).Some? && Fold(req.params.value, order, i).value.name != s.name
  {
    var params := req.params.value;
    var i, folded := PreparedFold(cfg, b, req, env, s);
    FoldIsFoldEffects(params, env.order, i);
    FoldFails(IsShared(params), Effects(params), env.order, i);
    var a, c := ConflictShows(params, i, j, k, Name);
    order := if Effects(params)[j] != SetName(s.name) then a else c;
    assert FoldedField(params, order, i, Name) != Some(SetName(s.name));
  }

  /** In another order, with tenant and group as before, the settings still come together. */
  lemma PreparedAgain(cfg: Config, b: Backend, req: CreateRequest, env: Env, s: Settings, env': Env)
    returns (s': Settings)
    requires req.params.Some? && Ordered(req, env) && Prepared(cfg, b, req, env) == Some(s)
    requires Ordered(req, env') && env'.login == env.login && !env'.tenantFault && env.login.Some?
    requires Iterates(env.order, req.params.value.Keys) && Iterates(env'.order, req.params.value.Keys)
    requires NoConflictOn(Effects(req.params.value), Tenant) && NoConflictOn(Effects(req.params.value), Group)
    requires var i := Initial(req.params.value, req.name, env.login.value.user, env.login.value.group);
             Fold(req.params.value, env'.order, i).Some?
    ensures Prepared(cfg, b, req, env') == Some(s')
    ensures var i := Initial(req.params.value, req.name, env.login.value.user, env.login.value.group);
            s'.name == Fold(req.params.value, env'.order, i).value.name
  {
    var i, folded := PreparedFold(cfg, b, req, env, s);
    SameTenantAndGroup(req.params.value, env.order, env'.order, i);
    s' := PreparedAlike(cfg, b, req, env, env', folded, Fold(req.params.value, env'.order, i).value);
  }

  lemma SameTenantAndGroup(params: Params, a: seq<string>, b: seq<string>, i: Settings)
    requires Iterates(a, params.Keys) && Iterates(b, params.Keys)
    requires Fold(params, a, i).Some? && Fold(params, b, i).Some?
    requires NoConflictOn(Effects(params), Tenant) && NoConflictOn(Effects(params), Group)
    ensures Fold(params, a, i).value.tenant == Fold(params, b, i).value.tenant
    ensures Fold(params, a, i).value.group == Fold(params, b, i).value.group
  {
    FieldAgrees(params, a, i, b, i, Tenant);
    FieldAgrees(params, a, i, b, i, Group);
    SameRead(Fold(params, a, i).value, Fold(params, b, i).value);
  }

  lemma SameRead(s: Settings, s': Settings)
    requires Read(s, Tenant) == Read(s', Tenant) && Read(s, Group) == Read(s', Group)
    ensures s.tenant == s'.tenant && s.group == s'.group
  {
  }

  lemma PreparedAlike(cfg: Config, b: Backend, req: CreateRequest, env: Env, env': Env, folded: Settings,
                      folded': Settings)
    returns (s': Settings)
    requires req.params.Some? && Ordered(req, env) && Ordered(req, env') && Prepared(cfg, b, req, env).Some?
    requires env.login.Some? && env'.login == env.login && !env'.tenantFault
    requires var i := Initial(req.params.value, req.name, env.login.value.user, env.login.value.group);
             && Fold(req.params.value, env.order, i) == Some(folded)
             && Fold(req.params.value, env'.order, i) == Some(folded')
    requires folded.tenant == folded'.tenant && folded.group == folded'.group
    ensures Prepared(cfg, b, req, env') == Some(s') && s'.name == folded'.name
  {
    s' := Prepared(cfg, b, req, env').value;
  }

  /**
   With the key in any other spelling the name is still overridden, but the volume
   is not shared: another PV of the class gets the same whole volume.
   */
  lemma MisspelledKeySharesId(cfg: Config, acc: D.Accounts, w: World, req: CreateRequest, env: Env,
                              pvName: string, env': Env, key: string)
    requires ValidWorld(w) && EnvOk(w, req, env) && Create(cfg, acc, w, req, env).1.Created?
    requires !req.source.FromSnapshot? && OneVolume(Effects(req.params.value))
    requires key in req.params.value && ToLower(key) == "sharedvolumename" && !IsShared(req.params.value)
    requires var r, req' := Create(cfg, acc, w, req, env), req.(name := pvName);
             EnvOk(r.0, req', env') && Create(cfg, acc, r.0, req', env').1.Created?
    ensures var r, req' := Create(cfg, acc, w, req, env), req.(name := pvName);
            Create(cfg, acc, r.0, req', env') == r
  {
    var r, req' := Create(cfg, acc, w, req, env), req.(name := pvName);
    var s, s' := Prepared(cfg, w.backend, req, env).value, Prepared(cfg, r.0.backend, req', env').value;
    assert Sets(Effects(req.params.value)[key], Name);
    CreatedMeans(cfg, acc, w, req, env, s);
    PreparedAgree(cfg, w.backend, req, env, s, r.0.backend, req', env', s');
    CreateInPlace(cfg, acc, r.0, req', env', s', r.1.volumeId);
  }
}
