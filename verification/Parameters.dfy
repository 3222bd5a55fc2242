/**
 The StorageClass parameters of a volume: a Go map, read in whatever order its
 iteration takes, each key matched without regard to case.
 */
module Parameters {
  import opened Options
  import opened GoStrings
  import opened AccessModes
  import opened Labels

  const SHARED_VOLUME_KEY := "sharedVolumeName"
  const DEFAULT_MODE := 700
  const DEFAULT_SHARED_MODE := 1777

  type Params = map<string, string>

  /** Only the exact spelling makes a volume shared; the loop below accepts any. */
  predicate IsShared(params: Params) {
    SHARED_VOLUME_KEY in params
  }

  /** The volume request, with the two settings kept beside it. */
  datatype Settings = Settings(name: string, tenant: string, user: string, group: string,
                               labels: seq<Label>, accessMode: int,
                               createQuota: bool, configuredMode: int)

  /** What one parameter asks for. */
  datatype Effect =
    | Nothing
    | SetTenant(tenant: string)
    | SetName(name: string)
    | SetUser(user: string)
    | SetGroup(group: string)
    | SetQuota(quota: bool)
    | SetLabels(labels: seq<Label>)
    | SetMode(mode: int)
    | Fails

  function EffectOf(key: string, value: string): Effect {
    var k := ToLower(key);
    if k == "quobytetenant" then SetTenant(value)
    else if k == "sharedvolumename" then SetName(value)
    else if k == "user" then (if TrimSpace(value) != "" then SetUser(value) else Nothing)
    else if k == "group" then SetGroup(value)
    else if k == "createquota" then SetQuota(ToLower(value) == "true")
    else if k == "labels" then
      match LabelsOf(value)
      case Some(labels) => SetLabels(labels)
      case None => Fails
    else if k == "accessmode" then
      match ParseUint(value, 10, UINT32_LIMIT)
      case Value(u) => SetMode(Int32(u))
      case _ => Fails
    else Nothing
  }

  function Apply(shared: bool, s: Settings, e: Effect): Settings {
    match e
    case SetTenant(tenant) => s.(tenant := tenant)
    case SetName(name) => s.(name := name)
    case SetUser(user) => s.(user := user)
    case SetGroup(group) => s.(group := group)
    case SetQuota(quota) => s.(createQuota := quota)
    case SetLabels(labels) => s.(labels := labels)
    case SetMode(mode) => s.(configuredMode := mode, accessMode := if shared then s.accessMode else mode)
    case _ => s
  }

  /** Before the loop: the PV's name, and the user and group of the API login. */
  function Initial(params: Params, pvName: string, user: string, group: string): Settings {
    Settings(pvName, "", user, group, [], if IsShared(params) then DEFAULT_SHARED_MODE else DEFAULT_MODE, false, 0)
  }

  function Fold(params: Params, order: seq<string>, s: Settings): Option<Settings>
    requires forall k <- order :: k in params
    decreases |order|
  {
    if order == [] then Some(s)
    else
      var e := EffectOf(order[0], params[order[0]]);
      if e.Fails? then None
      else Fold(params, order[1..], Apply(IsShared(params), s, e))
  }

  /** The loop itself. */
  method ReadParameters(params: Params, order: seq<string>, initial: Settings) returns (result: Option<Settings>)
    requires forall k <- order :: k in params
    ensures result == Fold(params, order, initial)
  {
    var isSharedVolume := SHARED_VOLUME_KEY in params;
    var volRequest := initial;
    var i := 0;
    while i < |order|
      invariant 0 <= i <= |order|
      invariant Fold(params, order[i..], volRequest) == Fold(params, order, initial)
    {
      var k, v := order[i], params[order[i]];
      assert order[i..][0] == k && order[i..][1..] == order[i + 1..];
      var failed;
      volRequest, failed := ReadParameter(isSharedVolume, volRequest, k, v);
      if failed {
        return None;
      }
      i := i + 1;
    }
    return Some(volRequest);
  }

  /** The switch in the loop's body. */
  method ReadParameter(isSharedVolume: bool, before: Settings, k: string, v: string)
    returns (volRequest: Settings, failed: bool)
    ensures failed == EffectOf(k, v).Fails?
    ensures !failed ==> volRequest == Apply(isSharedVolume, before, EffectOf(k, v))
  {
    volRequest, failed := before, false;
    var key := ToLower(k);
    if key == "quobytetenant" {
      volRequest := volRequest.(tenant := v);
    } else if key == "sharedvolumename" {
      volRequest := volRequest.(name := v);
    } else if key == "user" {
      if TrimSpace(v) != "" {
        volRequest := volRequest.(user := v);
      }
    } else if key == "group" {
      volRequest := volRequest.(group := v);
    } else if key == "createquota" {
      volRequest := volRequest.(createQuota := ToLower(v) == "true");
    } else if key == "labels" {
      var parsed := ParseLabels(v);
      if parsed.None? {
        failed := true;
      } else {
        volRequest := volRequest.(labels := parsed.value);
      }
    } else if key == "accessmode" {
      var u64 := ParseUint(v, 10, UINT32_LIMIT);
      if !u64.Value? {
        failed := true;
      } else {
        volRequest := volRequest.(configuredMode := Int32(u64.n));
        if !isSharedVolume {
          volRequest := volRequest.(accessMode := Int32(u64.n));
        }
      }
    }
  }

  /** The effects of a parameter map, key by key. */
  function Effects(params: Params): map<string, Effect> {
    map k | k in params :: EffectOf(k, params[k])
  }

  /** The settings a parameter can change. */
  datatype Field = Tenant | Name | User | Group | Quota | VolumeLabels | Mode

  predicate Sets(e: Effect, f: Field) {
    match f
    case Tenant => e.SetTenant?
    case Name => e.SetName?
    case User => e.SetUser?
    case Group => e.SetGroup?
    case Quota => e.SetQuota?
    case VolumeLabels => e.SetLabels?
    case Mode => e.SetMode?
  }

  /** A setting, written as the effect that would produce it. */
  function Read(s: Settings, f: Field): Effect {
    match f
    case Tenant => SetTenant(s.tenant)
    case Name => SetName(s.name)
    case User => SetUser(s.user)
    case Group => SetGroup(s.group)
    case Quota => SetQuota(s.createQuota)
    case VolumeLabels => SetLabels(s.labels)
    case Mode => SetMode(s.configuredMode)
  }

  /** Two parameters want the same setting, but differently. */
  ghost predicate Conflict(a: Effect, b: Effect) {
    a != b && exists f :: Sets(a, f) && Sets(b, f)
  }

  ghost predicate AnyFails(effects: map<string, Effect>) {
    exists k :: k in effects && effects[k].Fails?
  }

  ghost predicate NoConflict(effects: map<string, Effect>) {
    forall a, b :: a in effects && b in effects ==> !Conflict(effects[a], effects[b])
  }

  /** Folding over effects that were read before. */
  function FoldEffects(shared: bool, effects: map<string, Effect>, order: seq<string>, s: Settings): Option<Settings>
    requires forall k <- order :: k in effects
    decreases |order|
  {
    if order == [] then Some(s)
    else
      var e := effects[order[0]];
      if e.Fails? then None else FoldEffects(shared, effects, order[1..], Apply(shared, s, e))
  }

  lemma {:induction false} FoldIsFoldEffects(params: Params, order: seq<string>, s: Settings)
    requires forall k <- order :: k in params
    ensures Fold(params, order, s) == FoldEffects(IsShared(params), Effects(params), order, s)
    decreases |order|
  {
    if order != [] {
      assert order[0] in order && forall k <- order[1..] :: k in order;
      var e := EffectOf(order[0], params[order[0]]);
      FoldIsFoldEffects(params, order[1..], Apply(IsShared(params), s, e));
    }
  }

  lemma ApplyReads(shared: bool, s: Settings, e: Effect, f: Field)
    ensures Read(Apply(shared, s, e), f) == if Sets(e, f) then e else Read(s, f)
  {
  }

  /** A fold fails exactly when it meets a parameter that fails. */
  lemma {:induction false} FoldFails(shared: bool, effects: map<string, Effect>, order: seq<string>, s: Settings)
    requires forall k <- order :: k in effects
    ensures FoldEffects(shared, effects, order, s).None? <==> exists k :: k in order && effects[k].Fails?
    decreases |order|
  {
    if order != [] {
      var k0 := order[0];
      assert k0 in order && forall k <- order[1..] :: k in order;
      assert forall k <- order :: k == k0 || k in order[1..];
      if !effects[k0].Fails? {
        FoldFails(shared, effects, order[1..], Apply(shared, s, effects[k0]));
      }
    }
  }

  /** A setting nobody asked for is as it was. */
  lemma {:induction false} FoldUntouched(shared: bool, effects: map<string, Effect>, order: seq<string>,
                                         s: Settings, f: Field)
    requires forall k <- order :: k in effects && !Sets(effects[k], f)
    requires FoldEffects(shared, effects, order, s).Some?
    ensures Read(FoldEffects(shared, effects, order, s).value, f) == Read(s, f)
    decreases |order|
  {
    if order != [] {
      assert order[0] in order && forall k <- order[1..] :: k in order;
      ApplyReads(shared, s, effects[order[0]], f);
      FoldUntouched(shared, effects, order[1..], Apply(shared, s, effects[order[0]]), f);
    }
  }

  /** A setting that all who set it agree on is what they asked for, wherever in the order they come. */
  lemma {:induction false} FoldAgreed(shared: bool, effects: map<string, Effect>, order: seq<string>,
                                      s: Settings, f: Field, e: Effect)
    requires forall k <- order :: k in effects && (Sets(effects[k], f) ==> effects[k] == e)
    requires Read(s, f) == e || exists k :: k in order && Sets(effects[k], f)
    requires FoldEffects(shared, effects, order, s).Some?
    ensures Read(FoldEffects(shared, effects, order, s).value, f) == e
    decreases |order|
  {
    if order != [] {
      var k0 := order[0];
      assert k0 in order && forall k <- order[1..] :: k in order;
      assert forall k <- order :: k == k0 || k in order[1..];
      ApplyReads(shared, s, effects[k0], f);
      FoldAgreed(shared, effects, order[1..], Apply(shared, s, effects[k0]), f, e);
    }
  }

  /** In any order, conflicts or not: a setting is what some parameter for it asks, or untouched when there is none. */
  lemma {:induction false} FoldFrom(shared: bool, effects: map<string, Effect>, order: seq<string>, s: Settings,
                                    f: Field)
    requires (forall k <- order :: k in effects) && FoldEffects(shared, effects, order, s).Some?
    ensures var r := FoldEffects(shared, effects, order, s).value;
            || (exists k :: k in order && Sets(effects[k], f) && Read(r, f) == effects[k])
            || ((forall k <- order :: !Sets(effects[k], f)) && Read(r, f) == Read(s, f))
    decreases |order|
  {
    if order != [] {
      var k0 := order[0];
      assert k0 in order && forall k <- order[1..] :: k in order;
      assert forall k <- order :: k == k0 || k in order[1..];
      ApplyReads(shared, s, effects[k0], f);
      FoldFrom(shared, effects, order[1..], Apply(shared, s, effects[k0]), f);
    }
  }

  /** The mode of the volume itself follows the configured one, unless the volume is shared. */
  lemma {:induction false} FoldAccessMode(shared: bool, effects: map<string, Effect>, order: seq<string>, s: Settings)
    requires (forall k <- order :: k in effects) && FoldEffects(shared, effects, order, s).Some?
    ensures var r := FoldEffects(shared, effects, order, s).value;
            r.accessMode == if shared || (forall k <- order :: !effects[k].SetMode?) then s.accessMode
                            else r.configuredMode
    decreases |order|
  {
    if order != [] {
      var k0 := order[0];
      assert k0 in order && forall k <- order[1..] :: k in order;
      assert forall k <- order :: k == k0 || k in order[1..];
      FoldAccessMode(shared, effects, order[1..], Apply(shared, s, effects[k0]));
      if forall k <- order[1..] :: !effects[k].SetMode? {
        FoldUntouched(shared, effects, order[1..], Apply(shared, s, effects[k0]), Mode);
      }
    }
  }

  /** An iteration over a map: every key once. */
  ghost predicate Iterates(order: seq<string>, keys: set<string>) {
    && (forall i, j :: 0 <= i < j < |order| ==> order[i] != order[j])
    && (forall k :: k in order <==> k in keys)
  }

  /**
   The declarative reading of the parameters: a setting is what any parameter for
   it says, and its default when there is none.
   */
  ghost predicate Meets(shared: bool, effects: map<string, Effect>, s0: Settings, s: Settings) {
    && (forall f: Field, k :: k in effects && Sets(effects[k], f) ==> Read(s, f) == effects[k])
    && (forall f: Field :: (forall k <- effects :: !Sets(effects[k], f)) ==> Read(s, f) == Read(s0, f))
    && s.accessMode == if shared || (forall k <- effects :: !effects[k].SetMode?)
                       then s0.accessMode else s.configuredMode
  }

  /** The declarative reading leaves no choice. */
  lemma MeetsUnique(shared: bool, effects: map<string, Effect>, s0: Settings, a: Settings, b: Settings)
    requires Meets(shared, effects, s0, a) && Meets(shared, effects, s0, b)
    ensures a == b
  {
    forall f: Field ensures Read(a, f) == Read(b, f) {
      if k :| k in effects && Sets(effects[k], f) {
        assert Read(a, f) == effects[k] == Read(b, f);
      } else {
        assert Read(a, f) == Read(s0, f) == Read(b, f);
      }
    }
    assert Read(a, Mode) == Read(b, Mode);
    ReadsDetermine(a, b);
  }

  lemma ReadsDetermine(a: Settings, b: Settings)
    requires (forall f: Field :: Read(a, f) == Read(b, f)) && a.accessMode == b.accessMode
    ensures a == b
  {
    assert Read(a, Tenant) == Read(b, Tenant) && Read(a, Name) == Read(b, Name) && Read(a, User) == Read(b, User);
    assert Read(a, Group) == Read(b, Group) && Read(a, Quota) == Read(b, Quota);
    assert Read(a, VolumeLabels) == Read(b, VolumeLabels) && Read(a, Mode) == Read(b, Mode);
  }

  /**
   Without conflicting parameters the loop fails exactly when some parameter is
   malformed, and otherwise computes the declarative reading, in every order.
   */
  lemma LoopMeetsLookup(params: Params, order: seq<string>, s0: Settings)
    requires Iterates(order, params.Keys) && NoConflict(Effects(params))
    ensures Fold(params, order, s0).None? <==> AnyFails(Effects(params))
    ensures Fold(params, order, s0).Some? ==>
            Meets(IsShared(params), Effects(params), s0, Fold(params, order, s0).value)
  {
    var shared, effects := IsShared(params), Effects(params);
    FoldIsFoldEffects(params, order, s0);
    FoldFails(shared, effects, order, s0);
    if FoldEffects(shared, effects, order, s0).Some? {
      forall f: Field, k | k in effects && Sets(effects[k], f)
        ensures Read(FoldEffects(shared, effects, order, s0).value, f) == effects[k]
      {
        forall j | j in order && Sets(effects[j], f) ensures effects[j] == effects[k] {
          assert !Conflict(effects[j], effects[k]);
        }
        FoldAgreed(shared, effects, order, s0, f, effects[k]);
      }
      forall f: Field | forall k <- effects :: !Sets(effects[k], f)
        ensures Read(FoldEffects(shared, effects, order, s0).value, f) == Read(s0, f)
      {
        FoldUntouched(shared, effects, order, s0, f);
      }
      FoldAccessMode(shared, effects, order, s0);
    }
  }

  ghost predicate OrderIrrelevant(params: Params, s0: Settings) {
    forall a, b :: Iterates(a, params.Keys) && Iterates(b, params.Keys) ==> Fold(params, a, s0) == Fold(params, b, s0)
  }

  /**
   Exactly when the iteration order does not matter: when some parameter is
   malformed (every order then fails), or no two parameters conflict. Keys that
   stay different when lower-cased never conflict.
   */
  lemma OrderIrrelevantExactly(params: Params, s0: Settings)
    ensures OrderIrrelevant(params, s0) <==> AnyFails(Effects(params)) || NoConflict(Effects(params))
  {
    if AnyFails(Effects(params)) || NoConflict(Effects(params)) {
      forall a, b | Iterates(a, params.Keys) && Iterates(b, params.Keys)
        ensures Fold(params, a, s0) == Fold(params, b, s0)
      {
        SameResult(params, a, b, s0);
      }
    } else {
      var j, k :| j in params && k in params && Conflict(Effects(params)[j], Effects(params)[k]);
      var f :| Sets(Effects(params)[j], f) && Sets(Effects(params)[k], f);
      var a, b := ConflictShows(params, s0, j, k, f);
    }
  }

  /** No two parameters want this one setting differently. */
  ghost predicate NoConflictOn(effects: map<string, Effect>, f: Field) {
    forall a, b :: a in effects && b in effects && Sets(effects[a], f) && Sets(effects[b], f) ==>
      effects[a] == effects[b]
  }

  function FoldedField(params: Params, order: seq<string>, s0: Settings, f: Field): Option<Effect>
    requires forall k <- order :: k in params
  {
    match Fold(params, order, s0)
    case None => None
    case Some(s) => Some(Read(s, f))
  }

  ghost predicate FieldIrrelevant(params: Params, s0: Settings, f: Field) {
    forall a, b :: Iterates(a, params.Keys) && Iterates(b, params.Keys) ==>
      FoldedField(params, a, s0, f) == FoldedField(params, b, s0, f)
  }

  /** Setting by setting: the order does not matter for one exactly when no two parameters conflict on it. */
  lemma FieldIrrelevantExactly(params: Params, s0: Settings, f: Field)
    ensures FieldIrrelevant(params, s0, f) <==> AnyFails(Effects(params)) || NoConflictOn(Effects(params), f)
  {
    var effects := Effects(params);
    if AnyFails(effects) || NoConflictOn(effects, f) {
      forall a, b | Iterates(a, params.Keys) && Iterates(b, params.Keys)
        ensures FoldedField(params, a, s0, f) == FoldedField(params, b, s0, f)
      {
        SameField(params, a, b, s0, f);
      }
    } else {
      var j, k :| && j in effects && k in effects
                  && Sets(effects[j], f) && Sets(effects[k], f) && effects[j] != effects[k];
      var a, b := ConflictShows(params, s0, j, k, f);
    }
  }

  lemma SameField(params: Params, a: seq<string>, b: seq<string>, s0: Settings, f: Field)
    requires Iterates(a, params.Keys) && Iterates(b, params.Keys)
    requires AnyFails(Effects(params)) || NoConflictOn(Effects(params), f)
    ensures FoldedField(params, a, s0, f) == FoldedField(params, b, s0, f)
  {
    FailsAlike(params, a, b, s0);
    if Fold(params, a, s0).Some? {
      FieldAgrees(params, a, s0, b, s0, f);
    }
  }

  /** Every order fails, or none does. */
  lemma FailsAlike(params: Params, a: seq<string>, b: seq<string>, s0: Settings)
    requires Iterates(a, params.Keys) && Iterates(b, params.Keys)
    ensures Fold(params, a, s0).None? <==> AnyFails(Effects(params))
    ensures Fold(params, b, s0).None? <==> AnyFails(Effects(params))
  {
    FoldIsFoldEffects(params, a, s0);
    FoldIsFoldEffects(params, b, s0);
    FoldFails(IsShared(params), Effects(params), a, s0);
    FoldFails(IsShared(params), Effects(params), b, s0);
  }

  ghost predicate Overrides(effects: map<string, Effect>, f: Field) {
    exists k :: k in effects && Sets(effects[k], f)
  }

  /** Two readings agree on a setting without conflicts, when its defaults agree or some parameter sets it. */
  lemma FieldAgrees(params: Params, a: seq<string>, i: Settings, b: seq<string>, i': Settings, f: Field)
    requires Iterates(a, params.Keys) && Iterates(b, params.Keys)
    requires Fold(params, a, i).Some? && Fold(params, b, i').Some?
    requires NoConflictOn(Effects(params), f)
    requires Read(i, f) == Read(i', f) || Overrides(Effects(params), f)
    ensures Read(Fold(params, a, i).value, f) == Read(Fold(params, b, i').value, f)
  {
    FoldIsFoldEffects(params, a, i);
    FoldIsFoldEffects(params, b, i');
    FoldFrom(IsShared(params), Effects(params), a, i, f);
    FoldFrom(IsShared(params), Effects(params), b, i', f);
  }

  lemma SameResult(params: Params, a: seq<string>, b: seq<string>, s0: Settings)
    requires Iterates(a, params.Keys) && Iterates(b, params.Keys)
    requires AnyFails(Effects(params)) || NoConflict(Effects(params))
    ensures Fold(params, a, s0) == Fold(params, b, s0)
  {
    FoldIsFoldEffects(params, a, s0);
    FoldIsFoldEffects(params, b, s0);
    FoldFails(IsShared(params), Effects(params), a, s0);
    FoldFails(IsShared(params), Effects(params), b, s0);
    if !AnyFails(Effects(params)) {
      LoopMeetsLookup(params, a, s0);
      LoopMeetsLookup(params, b, s0);
      MeetsUnique(IsShared(params), Effects(params), s0, Fold(params, a, s0).value, Fold(params, b, s0).value);
    }
  }

  lemma {:induction false} Enumerate(keys: set<string>) returns (order: seq<string>)
    ensures Iterates(order, keys)
  {
    if keys == {} {
      order := [];
    } else {
      var k :| k in keys;
      order := Enumerate(keys - {k});
      order := order + [k];
    }
  }

  lemma {:induction false} LastWins(shared: bool, effects: map<string, Effect>, order: seq<string>, k: string,
                                    s: Settings, f: Field)
    requires (forall j <- order :: j in effects) && k in effects && Sets(effects[k], f)
    requires FoldEffects(shared, effects, order + [k], s).Some?
    ensures Read(FoldEffects(shared, effects, order + [k], s).value, f) == effects[k]
    decreases |order|
  {
    if order == [] {
      assert order + [k] == [k] && [k][1..] == [];
    } else {
      assert order[0] in order && forall j <- order[1..] :: j in order;
      assert (order + [k])[1..] == order[1..] + [k];
      LastWins(shared, effects, order[1..], k, Apply(shared, s, effects[order[0]]), f);
    }
  }

  lemma IteratesEnding(rest: seq<string>, keys: set<string>, j: string, k: string)
    requires j in keys && k in keys && j != k && Iterates(rest, keys - {j, k})
    ensures Iterates(rest + [k] + [j], keys)
  {
    var order := rest + [k] + [j];
    forall x | x in keys ensures x in order {
      assert x == j || x == k || x in rest;
    }
  }

  /** Two orders that end in the conflicting keys, one way round and the other. */
  lemma ConflictShows(params: Params, s0: Settings, j: string, k: string, f: Field)
    returns (a: seq<string>, b: seq<string>)
    requires j in params && k in params && Effects(params)[j] != Effects(params)[k]
    requires Sets(Effects(params)[j], f) && Sets(Effects(params)[k], f) && !AnyFails(Effects(params))
    ensures Iterates(a, params.Keys) && Iterates(b, params.Keys)
    ensures FoldedField(params, a, s0, f) == Some(Effects(params)[j])
    ensures FoldedField(params, b, s0, f) == Some(Effects(params)[k])
  {
    var shared, effects := IsShared(params), Effects(params);
    var rest := Enumerate(params.Keys - {j, k});
    a, b := rest + [k] + [j], rest + [j] + [k];
    IteratesEnding(rest, params.Keys, j, k);
    assert params.Keys - {j, k} == params.Keys - {k, j};
    IteratesEnding(rest, params.Keys, k, j);
    FoldIsFoldEffects(params, a, s0);
    FoldIsFoldEffects(params, b, s0);
    FoldFails(shared, effects, a, s0);
    FoldFails(shared, effects, b, s0);
    LastWins(shared, effects, rest + [k], j, s0, f);
    LastWins(shared, effects, rest + [j], k, s0, f);
  }

  /** The lower-cased key that a setting is read from. */
  function KeyOf(f: Field): string {
    match f
    case Tenant => "quobytetenant"
    case Name => "sharedvolumename"
    case User => "user"
    case Group => "group"
    case Quota => "createquota"
    case VolumeLabels => "labels"
    case Mode => "accessmode"
  }

  lemma SetsOwnKey(key: string, value: string, f: Field)
    requires Sets(EffectOf(key, value), f)
    ensures ToLower(key) == KeyOf(f)
  {
  }

  /** Keys that differ in more than case never conflict. */
  lemma DistinctKeysNoConflict(params: Params)
    requires forall j, k :: j in params && k in params && j != k ==> ToLower(j) != ToLower(k)
    ensures NoConflict(Effects(params))
  {
    forall j, k | j in params && k in params ensures !Conflict(Effects(params)[j], Effects(params)[k]) {
      forall f: Field ensures !(j != k && Sets(EffectOf(j, params[j]), f) && Sets(EffectOf(k, params[k]), f)) {
        if Sets(EffectOf(j, params[j]), f) && Sets(EffectOf(k, params[k]), f) {
          SetsOwnKey(j, params[j], f);
          SetsOwnKey(k, params[k], f);
        }
      }
    }
  }
}
