/** The cached factory of Quobyte API clients, against building a new client for every call. */
module ClientCache {
  import opened Options

  /** A user and password, or an access key id and its secret. */
  datatype Credentials = Credentials(user: string, password: string)

  /** An API client logs in with the credentials it was built for. */
  datatype Client = Client(credentials: Credentials)

  type Secrets = map<string, string>
  type Cache = map<string, Client>

  predicate HasAccessKey(secrets: Secrets) {
    "accessKeyId" in secrets && "accessKeySecret" in secrets
  }

  predicate HasUserAndPassword(secrets: Secrets) {
    "user" in secrets && "password" in secrets
  }

  /** Whether the secrets suffice for the Quobyte API at all. */
  predicate HasApiCredentials(secrets: Secrets) {
    HasUserAndPassword(secrets) || HasAccessKey(secrets)
  }

  /** The uncached choice: an access key goes before a user and password. */
  function Choose(secrets: Secrets): Option<Credentials> {
    if HasAccessKey(secrets) then Some(Credentials(secrets["accessKeyId"], secrets["accessKeySecret"]))
    else if HasUserAndPassword(secrets) then Some(Credentials(secrets["user"], secrets["password"]))
    else None
  }

  function Uncached(secrets: Secrets): Option<Client> {
    match Choose(secrets)
    case Some(credentials) => Some(Client(credentials))
    case None => None
  }

  /** Plain concatenation. */
  function Key(c: Credentials): string {
    c.user + c.password
  }

  /** One call, after which the cache may have dropped any of its entries. */
  function Serve(cache: Cache, secrets: Secrets, evicted: set<string>): (Option<Client>, Cache) {
    match Choose(secrets)
    case None => (None, cache - evicted)
    case Some(c) =>
      if Key(c) in cache then (Some(cache[Key(c)]), cache - evicted)
      else (Some(Client(c)), cache[Key(c) := Client(c)] - evicted)
  }

  class ClientFactory {
    var clientCache: Cache

    constructor ()
      ensures clientCache == map[]
    {
      clientCache := map[];
    }

    method NewQuobyteApiClient(secrets: Secrets, evicted: set<string>) returns (client: Option<Client>)
      modifies this
      ensures (client, clientCache) == Serve(old(clientCache), secrets, evicted)
    {
      var apiUser, apiPass;
      if HasAccessKey(secrets) {
        apiUser, apiPass := secrets["accessKeyId"], secrets["accessKeySecret"];
      } else if HasUserAndPassword(secrets) {
        apiUser, apiPass := secrets["user"], secrets["password"];
      } else {
        clientCache := clientCache - evicted;
        return None;
      }
      var cacheKey := apiUser + apiPass;
      if cacheKey in clientCache {
        client := Some(clientCache[cacheKey]);
        clientCache := clientCache - evicted;
        return;
      }
      var apiClient := Client(Credentials(apiUser, apiPass));
      clientCache := clientCache[cacheKey := apiClient] - evicted;
      return Some(apiClient);
    }
  }

  /** A call's secrets, and the entries lost after it. */
  datatype Call = Call(secrets: Secrets, evicted: set<string>)

  function ServeAll(cache: Cache, calls: seq<Call>): (results: seq<Option<Client>>)
    ensures |results| == |calls|
    decreases |calls|
  {
    if calls == [] then []
    else
      var r := Serve(cache, calls[0].secrets, calls[0].evicted);
      [r.0] + ServeAll(r.1, calls[1..])
  }

  /** The credentials the calls choose. */
  function Seen(calls: seq<Call>): set<Credentials> {
    set call | call in calls && Choose(call.secrets).Some? :: Choose(call.secrets).value
  }

  ghost predicate KeyDetermines(seen: set<Credentials>) {
    forall a, b :: a in seen && b in seen && Key(a) == Key(b) ==> a == b
  }

  /** Every cached client sits under the key of its own credentials, which were seen before. */
  ghost predicate Honest(cache: Cache, seen: set<Credentials>) {
    forall k <- cache :: Key(cache[k].credentials) == k && cache[k].credentials in seen
  }

  lemma ServeHonest(cache: Cache, call: Call, seen: set<Credentials>)
    requires Honest(cache, seen) && (Choose(call.secrets).Some? ==> Choose(call.secrets).value in seen)
    ensures var r := Serve(cache, call.secrets, call.evicted);
            && Honest(r.1, seen)
            && (r.0.Some? <==> Choose(call.secrets).Some?)
            && (r.0.Some? ==> Key(r.0.value.credentials) == Key(Choose(call.secrets).value)
                              && r.0.value.credentials in seen)
  {
  }

  lemma {:induction false} AllHonest(cache: Cache, calls: seq<Call>, seen: set<Credentials>, i: nat)
    requires Honest(cache, seen) && Seen(calls) <= seen && i < |calls|
    ensures var r := ServeAll(cache, calls)[i];
            && (r.Some? <==> Choose(calls[i].secrets).Some?)
            && (r.Some? ==> Key(r.value.credentials) == Key(Choose(calls[i].secrets).value)
                            && r.value.credentials in seen)
    decreases |calls|
  {
    assert calls[0] in calls;
    assert Choose(calls[0].secrets).Some? ==> Choose(calls[0].secrets).value in Seen(calls);
    ServeHonest(cache, calls[0], seen);
    if i > 0 {
      assert Seen(calls[1..]) <= Seen(calls);
      AllHonest(Serve(cache, calls[0].secrets, calls[0].evicted).1, calls[1..], seen, i - 1);
    }
  }

  /**
   Through any calls and evictions, a client for the same user always has the
   password just given: a changed password never yields the old client.
   */
  lemma ChangedPasswordGetsNewClient(calls: seq<Call>, i: nat)
    requires i < |calls|
    ensures var r := ServeAll(map[], calls)[i];
            && (r.Some? <==> Choose(calls[i].secrets).Some?)
            && (r.Some? && r.value.credentials.user == Choose(calls[i].secrets).value.user ==>
                r == Uncached(calls[i].secrets))
  {
    AllHonest(map[], calls, Seen(calls), i);
    var r := ServeAll(map[], calls)[i];
    if r.Some? {
      var got, want := r.value.credentials, Choose(calls[i].secrets).value;
      if got.user == want.user {
        assert Key(got)[|got.user|..] == got.password && Key(want)[|got.user|..] == want.password;
      }
    }
  }

  ghost predicate Transparent(calls: seq<Call>) {
    forall i :: 0 <= i < |calls| ==> ServeAll(map[], calls)[i] == Uncached(calls[i].secrets)
  }

  /** The same calls, whatever the cache drops in between. */
  predicate SameSecrets(a: seq<Call>, b: seq<Call>) {
    |a| == |b| && forall i :: 0 <= i < |a| ==> a[i].secrets == b[i].secrets
  }

  /** With no evictions, a cached entry is what every later call with its key gets. */
  lemma {:induction false} EntrySticks(cache: Cache, calls: seq<Call>, key: string, i: nat)
    requires key in cache && (forall call <- calls :: call.evicted == {}) && i < |calls|
    requires Choose(calls[i].secrets).Some? && Key(Choose(calls[i].secrets).value) == key
    ensures ServeAll(cache, calls)[i] == Some(cache[key])
    decreases |calls|
  {
    assert calls[0] in calls && forall call <- calls[1..] :: call in calls;
    if i > 0 {
      EntrySticks(Serve(cache, calls[0].secrets, calls[0].evicted).1, calls[1..], key, i - 1);
    }
  }

  lemma {:induction false} SameKeySameClient(cache: Cache, calls: seq<Call>, i: nat, j: nat)
    requires (forall call <- calls :: call.evicted == {}) && i < j < |calls|
    requires Choose(calls[i].secrets).Some? && Choose(calls[j].secrets).Some?
    requires Key(Choose(calls[i].secrets).value) == Key(Choose(calls[j].secrets).value)
    ensures ServeAll(cache, calls)[i] == ServeAll(cache, calls)[j]
    decreases |calls|
  {
    assert calls[0] in calls && forall call <- calls[1..] :: call in calls;
    var r := Serve(cache, calls[0].secrets, calls[0].evicted);
    if i == 0 {
      EntrySticks(r.1, calls[1..], Key(Choose(calls[0].secrets).value), j - 1);
    } else {
      SameKeySameClient(r.1, calls[1..], i - 1, j - 1);
    }
  }

  lemma DeterminedIsTransparent(calls: seq<Call>)
    requires KeyDetermines(Seen(calls))
    ensures Transparent(calls)
  {
    forall i | 0 <= i < |calls| ensures ServeAll(map[], calls)[i] == Uncached(calls[i].secrets) {
      AllHonest(map[], calls, Seen(calls), i);
      assert calls[i] in calls;
      assert Choose(calls[i].secrets).Some? ==> Choose(calls[i].secrets).value in Seen(calls);
    }
  }

  lemma CollisionIsVisible(calls: seq<Call>, i: nat, j: nat)
    requires (forall call <- calls :: call.evicted == {}) && i < |calls| && j < |calls|
    requires Choose(calls[i].secrets).Some? && Choose(calls[j].secrets).Some?
    requires Key(Choose(calls[i].secrets).value) == Key(Choose(calls[j].secrets).value)
    requires Choose(calls[i].secrets) != Choose(calls[j].secrets)
    ensures !Transparent(calls)
  {
    var results := ServeAll(map[], calls);
    if i < j {
      SameKeySameClient(map[], calls, i, j);
    } else {
      SameKeySameClient(map[], calls, j, i);
    }
    assert results[i] != Uncached(calls[i].secrets) || results[j] != Uncached(calls[j].secrets);
  }

  /**
   Exactly when caching is invisible: under every eviction schedule each call gets
   the client it would get uncached if and only if user and password concatenated
   determine the pair among the credentials seen.
   */
  lemma CacheTransparentExactly(calls: seq<Call>)
    ensures (forall run: seq<Call> :: SameSecrets(calls, run) ==> Transparent(run)) <==> KeyDetermines(Seen(calls))
  {
    if KeyDetermines(Seen(calls)) {
      forall run: seq<Call> | SameSecrets(calls, run) ensures Transparent(run) {
        SeenSame(calls, run);
        DeterminedIsTransparent(run);
      }
    } else {
      CollisionShows(calls);
    }
  }

  lemma SeenAt(calls: seq<Call>, c: Credentials) returns (i: nat)
    requires c in Seen(calls)
    ensures i < |calls| && Choose(calls[i].secrets) == Some(c)
  {
    i :| 0 <= i < |calls| && Choose(calls[i].secrets) == Some(c);
  }

  /** The same calls with nothing evicted. */
  function WithoutEvictions(calls: seq<Call>): (run: seq<Call>)
    ensures SameSecrets(calls, run) && forall call <- run :: call.evicted == {}
  {
    seq<Call>(|calls|, k requires 0 <= k < |calls| => Call(calls[k].secrets, {}))
  }

  lemma CollisionShows(calls: seq<Call>)
    requires !KeyDetermines(Seen(calls))
    ensures exists run: seq<Call> :: SameSecrets(calls, run) && !Transparent(run)
  {
    var a, b :| a in Seen(calls) && b in Seen(calls) && Key(a) == Key(b) && a != b;
    var i := SeenAt(calls, a);
    var j := SeenAt(calls, b);
    CollisionIsVisible(WithoutEvictions(calls), i, j);
  }

  lemma SeenSame(a: seq<Call>, b: seq<Call>)
    requires SameSecrets(a, b)
    ensures Seen(a) == Seen(b)
  {
    forall c | c in Seen(a) ensures c in Seen(b) {
      var i :| 0 <= i < |a| && Choose(a[i].secrets) == Some(c);
      assert b[i] in b;
    }
    forall c | c in Seen(b) ensures c in Seen(a) {
      var i :| 0 <= i < |b| && Choose(b[i].secrets) == Some(c);
      assert a[i] in a;
    }
  }

  /** Two users whose names and passwords run together to the same string share one client. */
  lemma KeyNotInjective()
    ensures var a, b := map["user" := "ab", "password" := "c"], map["user" := "a", "password" := "bc"];
            ServeAll(map[], [Call(a, {}), Call(b, {})])[1] == Some(Client(Credentials("ab", "c")))
  {
    var a, b := map["user" := "ab", "password" := "c"], map["user" := "a", "password" := "bc"];
    var calls := [Call(a, {}), Call(b, {})];
    assert Choose(a) == Some(Credentials("ab", "c")) && Choose(b) == Some(Credentials("a", "bc"));
    assert "ab" + "c" == "a" + "bc" == "abc";
    SameKeySameClient(map[], calls, 0, 1);
  }

  /**
   Which credentials a client is built with, on an empty cache: the access key before
   the user, and none without one of the pairs.
   */
  lemma CredentialsExactly(secrets: Secrets, evicted: set<string>)
    ensures var client := Serve(map[], secrets, evicted).0;
            client == if "accessKeyId" in secrets && "accessKeySecret" in secrets
                      then Some(Client(Credentials(secrets["accessKeyId"], secrets["accessKeySecret"])))
                      else if "user" in secrets && "password" in secrets
                      then Some(Client(Credentials(secrets["user"], secrets["password"])))
                      else None
    ensures HasApiCredentials(secrets) <==> Serve(map[], secrets, evicted).0.Some?
  {
  }
}
