/** pkg/plugin/circleci/project/env/circleci.go: the CircleCI
    environment-variable storage. The HTTP exchanges become parameters (what
    each request answers) and a record of the requests made. Go's cached
    name set is a map shared by reference: SaveKeys adds to the cached set
    itself, which the model shows by writing the set back into the cache at
    every addition. */
module CircleEnv {
  import opened Common
  import opened ObjectCache

  /** The plugin's display name. */
  const ClientName: string := "CircleCI environment variables"

  /** One item of the envvar listing. */
  datatype EnvVar = EnvVar(name: string, value: string)

  /** How the listing request is answered: a transport failure, or a status
      and a body that either decodes to items or does not. */
  datatype ListAnswer =
    | ListTransportFailed(message: string)
    | ListStatus(code: int, items: Option<seq<EnvVar>>)

  /** How the POST of each name is answered: a transport failure with its
      message, or a status. */
  type PostAnswers = string -> Result<int, string>

  datatype CircleError =
    | TransportFailed(message: string)
    | UnexpectedStatus(code: int)
    | DecodeFailed
    | KeyNotFound

  /** A request made to CircleCI. */
  datatype CircleCall =
    | ListVars(store: string)
    | PostVar(store: string, name: string, value: string)

  /** getCachedEnvVars: the cached set of names, found only when the cached
      value is a name set. */
  function GetCachedEnvVars(c: Cache): (r: (set<string>, bool))
    reads c
    ensures r.1 <==> c.CacheGet(EnvVarsSeen).1 && c.CacheGet(EnvVarsSeen).0.NameSet?
    ensures r.1 ==> NameSet(r.0) == c.CacheGet(EnvVarsSeen).0
    ensures !r.1 ==> r.0 == {}
  {
    var got := c.CacheGet(EnvVarsSeen);
    if got.1 && got.0.NameSet? then (got.0.names, true) else ({}, false)
  }

  /** setCachedEnvVars: cache the set of names, nothing else. */
  method SetCachedEnvVars(c: Cache, vars: set<string>)
    requires c.table.Some?
    modifies c
    ensures c.table == Some(old(c.table).value[EnvVarsSeen := NameSet(vars)])
    ensures GetCachedEnvVars(c) == (vars, true)
  {
    c.CacheSet(EnvVarsSeen, NameSet(vars));
  }

  /** LastSaved's answer from a set of known names: CircleCI keeps no dates,
      so a known name was saved "now"; an unknown one is ErrKeyNotFound. */
  function Answer(found: set<string>, key: string, now: Time): (r: Result<Time, CircleError>)
    ensures r.Ok? <==> key in found
    ensures r.Ok? ==> r.value == now
    ensures r.Err? ==> r.error == CircleError.KeyNotFound
  {
    if key in found then Ok(now) else Err(CircleError.KeyNotFound)
  }

  /** The names of the listed items. */
  function NamesOf(items: seq<EnvVar>): (r: set<string>)
    ensures forall n :: n in r <==> exists i :: 0 <= i < |items| && items[i].name == n
  {
    if |items| == 0 then {}
    else
      var init := items[..|items| - 1];
      assert forall i | 0 <= i < |init| :: init[i] == items[i];
      NamesOf(init) + {items[|items| - 1].name}
  }

  /** The POST calls for `names`, in order. */
  function Posts(store: string, names: seq<string>, ss: SecretMap): seq<CircleCall>
    requires forall i | 0 <= i < |names| :: names[i] in ss
  {
    if |names| == 0 then []
    else Posts(store, names[..|names| - 1], ss) + [PostVar(store, names[|names| - 1], ss[names[|names| - 1]])]
  }

  /** A POST answered with a transport failure or a status outside 2xx. */
  predicate PostFails(a: Result<int, string>)
  {
    a.Err? || a.value < 200 || a.value >= 300
  }

  /** The position of the first key whose POST fails, |order| when none does. */
  function FirstRejected(order: seq<string>, post: PostAnswers): (k: nat)
    ensures k <= |order|
    ensures forall i | 0 <= i < k :: !PostFails(post(order[i]))
    ensures k < |order| ==> PostFails(post(order[k]))
  {
    if |order| == 0 then 0
    else if PostFails(post(order[0])) then 0
    else 1 + FirstRejected(order[1..], post)
  }

  /** The error of a failing POST answer. */
  function PostError(a: Result<int, string>): CircleError
  {
    if a.Err? then TransportFailed(a.error) else UnexpectedStatus(a.value)
  }

  /** `order` lists the keys of `ss`, each once: Go's iteration over the map. */
  predicate Enumerates(order: seq<string>, ss: SecretMap)
  {
    && (forall i | 0 <= i < |order| :: order[i] in ss)
    && (forall k | k in ss :: k in order)
    && (forall i, j | 0 <= i < j < |order| :: order[i] != order[j])
  }

  /** The set of the names in a sequence. */
  function Elements(names: seq<string>): (r: set<string>)
    ensures forall n :: n in r <==> n in names
  {
    set i | 0 <= i < |names| :: names[i]
  }

  /** One more name of `order`: its prefix grows by that name, in the set
      of elements and in the posts made. */
  lemma PrefixStep(store: string, order: seq<string>, i: nat, ss: SecretMap)
    requires i < |order|
    requires forall j | 0 <= j < |order| :: order[j] in ss
    ensures Elements(order[..i + 1]) == Elements(order[..i]) + {order[i]}
    ensures Posts(store, order[..i + 1], ss) == Posts(store, order[..i], ss) + [PostVar(store, order[i], ss[order[i]])]
  {
    assert order[..i + 1][..i] == order[..i];
  }

  /** The CircleCI client: the requests made. */
  class Client {
    ghost var calls: seq<CircleCall>

    constructor ()
      ensures calls == []
    {
      calls := [];
    }

    /** LastSaved: with a cached name set, answer from it and make no
        request; otherwise list the project's variables, cache exactly the
        listed names and answer from them. A failed request, a status other
        than 200 or an undecodable body is an error and caches nothing. Only
        the first page of the listing is read. */
    method LastSaved(store: string, cache: Cache, key: string, now: Time, answer: ListAnswer)
      returns (r: Result<Time, CircleError>)
      requires cache.table.Some?
      modifies this, cache
      ensures cache.table.Some?
      ensures old(GetCachedEnvVars(cache)).1 ==>
        r == Answer(old(GetCachedEnvVars(cache)).0, key, now) && calls == old(calls) && cache.table == old(cache.table)
      ensures !old(GetCachedEnvVars(cache)).1 ==> calls == old(calls) + [ListVars(store)]
      ensures !old(GetCachedEnvVars(cache)).1 && answer.ListTransportFailed? ==>
        r == Err(TransportFailed(answer.message)) && cache.table == old(cache.table)
      ensures !old(GetCachedEnvVars(cache)).1 && answer.ListStatus? && answer.code != 200 ==>
        r == Err(UnexpectedStatus(answer.code)) && cache.table == old(cache.table)
      ensures !old(GetCachedEnvVars(cache)).1 && answer.ListStatus? && answer.code == 200 && answer.items.None? ==>
        r == Err(DecodeFailed) && cache.table == old(cache.table)
      ensures !old(GetCachedEnvVars(cache)).1 && answer.ListStatus? && answer.code == 200 && answer.items.Some? ==>
        && r == Answer(NamesOf(answer.items.value), key, now)
        && cache.table == Some(old(cache.table).value[EnvVarsSeen := NameSet(NamesOf(answer.items.value))])
    {
      var cached := GetCachedEnvVars(cache);
      if cached.1 {
        return Answer(cached.0, key, now);
      }
      calls := calls + [ListVars(store)];
      if answer.ListTransportFailed? {
        return Err(TransportFailed(answer.message));
      }
      if answer.code != 200 {
        return Err(UnexpectedStatus(answer.code));
      }
      if answer.items.None? {
        return Err(DecodeFailed);
      }
      var evs := answer.items.value;
      var found: set<string> := {};
      for i := 0 to |evs|
        invariant found == NamesOf(evs[..i])
      {
        assert evs[..i + 1][..i] == evs[..i];
        found := found + {evs[i].name};
      }
      assert evs[..|evs|] == evs;
      SetCachedEnvVars(cache, found);
      return Answer(found, key, now);
    }

    /** SaveKeys: post each secret in `order`, adding its name to the seen
        set first. On success the cache holds the prior set (or an empty one)
        plus every saved name. The first failed POST ends the call with an
        error: a set that was cached already holds the names handled so far,
        the failing one included, since it is the same map; without one,
        nothing is cached. */
    method SaveKeys(store: string, cache: Cache, order: seq<string>, ss: SecretMap, post: PostAnswers)
      returns (err: Option<CircleError>)
      requires Enumerates(order, ss)
      requires cache.table.Some?
      modifies this, cache
      ensures cache.table.Some?
      ensures var k := FirstRejected(order, post);
        var prior := old(GetCachedEnvVars(cache));
        && err == (if k < |order| then Some(PostError(post(order[k]))) else None)
        && calls == old(calls) + Posts(store, order[..if k < |order| then k + 1 else k], ss)
        && (k == |order| ==> cache.table == Some(old(cache.table).value[EnvVarsSeen := NameSet(prior.0 + Elements(order))]))
        && (k < |order| && prior.1 ==> cache.table == Some(old(cache.table).value[EnvVarsSeen := NameSet(prior.0 + Elements(order[..k + 1]))]))
        && (k < |order| && !prior.1 ==> cache.table == old(cache.table))
    {
      var found, isCached := GetCachedEnvVars(cache).0, GetCachedEnvVars(cache).1;
      var seen;
      seen, err := PostAll(store, cache, order, ss, post, found, isCached);
      if err.None? {
        assert order[..|order|] == order;
        ghost var mid := cache.table.value;
        SetCachedEnvVars(cache, seen);
        assert mid[EnvVarsSeen := NameSet(seen)] == old(cache.table).value[EnvVarsSeen := NameSet(seen)];
      }
    }

    /** SaveKeys' loop: add each name to `found`, the cached set itself when
        `isCached`, then post it; stop at the first failed POST. */
    method PostAll(store: string, cache: Cache, order: seq<string>, ss: SecretMap, post: PostAnswers,
                   found: set<string>, isCached: bool)
      returns (seen: set<string>, err: Option<CircleError>)
      requires forall i | 0 <= i < |order| :: order[i] in ss
      requires cache.table.Some?
      requires isCached ==> GetCachedEnvVars(cache) == (found, true)
      modifies this, cache
      ensures cache.table.Some?
      ensures var k := FirstRejected(order, post);
        var handled := order[..if k < |order| then k + 1 else k];
        && err == (if k < |order| then Some(PostError(post(order[k]))) else None)
        && seen == found + Elements(handled)
        && calls == old(calls) + Posts(store, handled, ss)
        && (isCached && |handled| > 0 ==> cache.table == Some(old(cache.table).value[EnvVarsSeen := NameSet(seen)]))
        && (!(isCached && |handled| > 0) ==> cache.table == old(cache.table))
    {
      ghost var t0 := cache.table.value;
      ghost var calls0 := calls;
      ghost var k := FirstRejected(order, post);
      seen := found;
      for i := 0 to |order|
        invariant i <= k
        invariant seen == found + Elements(order[..i])
        invariant calls == calls0 + Posts(store, order[..i], ss)
        invariant isCached && i > 0 ==> cache.table == Some(t0[EnvVarsSeen := NameSet(seen)])
        invariant !(isCached && i > 0) ==> cache.table == Some(t0)
      {
        var key := order[i];
        PrefixStep(store, order, i, ss);
        seen := seen + {key};
        if isCached {
          // the cached set is the map being added to
          ghost var before := cache.table.value;
          SetCachedEnvVars(cache, seen);
          assert before[EnvVarsSeen := NameSet(seen)] == t0[EnvVarsSeen := NameSet(seen)];
        }
        calls := calls + [PostVar(store, key, ss[key])];
        SeqAssoc(calls0, Posts(store, order[..i], ss), [PostVar(store, key, ss[key])]);
        var a := post(key);
        if PostFails(a) {
          assert i == k;
          assert seen == found + Elements(order[..i + 1]);
          assert calls == calls0 + Posts(store, order[..i + 1], ss);
          assert cache.table == Some(t0[EnvVarsSeen := NameSet(seen)]) <== isCached;
          return seen, Some(PostError(a));
        }
      }
      assert order[..|order|] == order;
      return seen, None;
    }
  }

  /** A listing caches the names it returns, and a later lookup of another
      name is answered from them, without a request. */
  method ListingScenario(now: Time)
  {
    var cache := new Cache();
    cache.InitCache();
    var client := new Client();
    var items := [EnvVar("A", "1"), EnvVar("B", "2")];
    assert NamesOf(items) == {"A", "B"};
    var r := client.LastSaved("gh/o/r", cache, "A", now, ListStatus(200, Some(items)));
    assert r == Ok(now);
    assert GetCachedEnvVars(cache) == ({"A", "B"}, true);
    r := client.LastSaved("gh/o/r", cache, "C", now, ListTransportFailed("unreachable"));
    assert r == Err(CircleError.KeyNotFound);
    assert client.calls == [ListVars("gh/o/r")];
  }

  /** A successful save adds the saved name to the cached set. */
  method SaveScenario(now: Time)
  {
    var cache := new Cache();
    cache.InitCache();
    cache.CacheSet(EnvVarsSeen, NameSet({"A"}));
    var client := new Client();
    var ok: PostAnswers := (name: string) => Ok(201);
    assert FirstRejected(["C"], ok) == 1;
    var err := client.SaveKeys("gh/o/r", cache, ["C"], map["C" := "3"], ok);
    assert err == None;
    assert GetCachedEnvVars(cache).0 == {"A"} + Elements(["C"]);
  }

  /** A failed save with nothing cached caches nothing. */
  method FailedSaveScenario(now: Time)
  {
    var client := new Client();
    var empty := new Cache();
    empty.InitCache();
    var down: PostAnswers := (name: string) => Ok(500);
    assert FirstRejected(["C"], down) == 0;
    var err := client.SaveKeys("gh/o/r", empty, ["C"], map["C" := "3"], down);
    assert err == Some(UnexpectedStatus(500));
    assert !GetCachedEnvVars(empty).1;
  }
}
