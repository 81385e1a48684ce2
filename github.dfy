/** pkg/plugin/github/github.go: the GitHub action-secret storage. The
    repository's secrets become a list held by the client together with a
    record of the calls made; the public key, its decoding and which writes
    fail are parameters. Sealing a value is kept symbolic: the stored value
    records the key it was sealed for and the plain text. */
module GithubStore {
  import opened Common
  import opened ObjectCache
  import Strings

  /** The plugin's display name. */
  const ClientName: string := "github action secrets"

  /** parts: owner and repository of a storage name, split at the first
      "/"; without a "/" the repository is empty. */
  function Parts(name: string): (r: (string, string))
    ensures '/' in name ==> r.0 + "/" + r.1 == name && '/' !in r.0
    ensures '/' !in name ==> r == (name, "")
  {
    var cut := Strings.Cut(name, '/');
    (cut.0, cut.1)
  }

  /** getCachedKeyTime: the time cached under the secret's name, found only
      when the cached value is a time. */
  function GetCachedKeyTime(c: Cache, secret: string): (r: (Time, bool))
    reads c
    ensures r.1 <==> c.CacheGet(SecretUpdatedAt(secret)).1 && c.CacheGet(SecretUpdatedAt(secret)).0.Instant?
    ensures r.1 ==> Instant(r.0) == c.CacheGet(SecretUpdatedAt(secret)).0
    ensures !r.1 ==> r.0 == ZeroTime
  {
    var got := c.CacheGet(SecretUpdatedAt(secret));
    if got.1 && got.0.Instant? then (got.0.at, true) else (ZeroTime, false)
  }

  /** setCachedKeyTime: cache `upd` under the secret's name, nothing else. */
  method SetCachedKeyTime(c: Cache, secret: string, upd: Time)
    requires c.table.Some?
    modifies c
    ensures c.table == Some(old(c.table).value[SecretUpdatedAt(secret) := Instant(upd)])
    ensures GetCachedKeyTime(c, secret) == (upd, true)
  {
    c.CacheSet(SecretUpdatedAt(secret), Instant(upd));
  }

  /** touchCachedKeyTime: cache the current time under the secret's name. */
  method TouchCachedKeyTime(c: Cache, secret: string, now: Time)
    requires c.table.Some?
    modifies c
    ensures c.table == Some(old(c.table).value[SecretUpdatedAt(secret) := Instant(now)])
    ensures GetCachedKeyTime(c, secret) == (now, true)
  {
    SetCachedKeyTime(c, secret, now);
  }

  /** A sealed-box encryption of `plain` for the repository key `keyId`. */
  datatype Sealed = SealedBox(keyId: string, publicKey: string, plain: string)

  /** One action secret as GitHub lists it. */
  datatype RepoSecret = RepoSecret(name: string, updatedAt: Time, value: Sealed)

  /** The repository's public key as GetRepoPublicKey answers it. */
  datatype PublicKey = PublicKey(keyId: string, encoded: string)

  /** How GitHub answers the calls of one client operation: whether the
      listing fails, the public key (None when fetching it fails), its
      base64 decoding (None when decoding fails), and the secrets whose
      write fails. */
  datatype Remote = Remote(listFails: bool, publicKey: Option<PublicKey>, decoded: Option<string>, writeFails: set<string>)

  datatype GithubError =
    | PublicKeyFailed(store: string)
    | DecodeFailed(store: string)
    | WriteFailed(secret: string, store: string)

  /** A call on the GitHub API. */
  datatype GithubCall =
    | ListSecrets(owner: string, repo: string)
    | GetPublicKey(owner: string, repo: string)
    | WriteSecret(owner: string, repo: string, name: string)

  /** The UpdatedAt of the last listed secret named `key`, or the zero time
      when none is: what LastSaved's loop leaves in `upd`. */
  function LastMatch(list: seq<RepoSecret>, key: string): Time
  {
    if |list| == 0 then ZeroTime
    else if list[|list| - 1].name == key then list[|list| - 1].updatedAt
    else LastMatch(list[..|list| - 1], key)
  }

  /** The cache table after LastSaved's loop has cached every listed
      secret's UpdatedAt under its name, in list order. */
  function Listed(t: map<Key, Value>, list: seq<RepoSecret>): map<Key, Value>
  {
    if |list| == 0 then t
    else Listed(t, list[..|list| - 1])[SecretUpdatedAt(list[|list| - 1].name) := Instant(list[|list| - 1].updatedAt)]
  }

  /** The cache table after SaveKeys has touched each written name. */
  function Touched(t: map<Key, Value>, names: seq<string>, now: Time): map<Key, Value>
  {
    if |names| == 0 then t
    else Touched(t, names[..|names| - 1], now)[SecretUpdatedAt(names[|names| - 1]) := Instant(now)]
  }

  /** A secret named `key` is listed. */
  predicate IsListed(list: seq<RepoSecret>, key: string)
  {
    exists i :: 0 <= i < |list| && list[i].name == key
  }

  /** LastMatch answers the zero time exactly for an unlisted name, and
      otherwise the time of the last secret by that name. */
  lemma {:induction false} LastMatchSpec(list: seq<RepoSecret>, key: string)
    ensures !IsListed(list, key) ==> LastMatch(list, key) == ZeroTime
    ensures IsListed(list, key) ==>
      exists i :: 0 <= i < |list| && list[i].name == key &&
        LastMatch(list, key) == list[i].updatedAt && forall j | i < j < |list| :: list[j].name != key
    decreases |list|
  {
    if |list| > 0 {
      var n := |list| - 1;
      var init := list[..n];
      LastMatchSpec(init, key);
      assert forall i | 0 <= i < n :: init[i] == list[i];
      if list[n].name != key {
        if IsListed(list, key) {
          var i :| 0 <= i < |list| && list[i].name == key;
          assert init[i].name == key;
        }
      }
    }
  }

  /** After the listing loop, each listed name's cache entry is that
      secret's time (the last by that name), and every other entry is as it
      was. */
  lemma {:induction false} ListedSpec(t: map<Key, Value>, list: seq<RepoSecret>, k: Key)
    ensures k.SecretUpdatedAt? && IsListed(list, k.name) ==>
      k in Listed(t, list) && Listed(t, list)[k] == Instant(LastMatch(list, k.name))
    ensures !(k.SecretUpdatedAt? && IsListed(list, k.name)) ==>
      (k in Listed(t, list) <==> k in t) && (k in t ==> Listed(t, list)[k] == t[k])
    decreases |list|
  {
    if |list| > 0 {
      var n := |list| - 1;
      var init := list[..n];
      ListedSpec(t, init, k);
      assert forall i | 0 <= i < n :: init[i] == list[i];
      if k.SecretUpdatedAt? && k.name != list[n].name {
        assert IsListed(list, k.name) <==> IsListed(init, k.name) by {
          if IsListed(list, k.name) {
            var i :| 0 <= i < |list| && list[i].name == k.name;
            assert init[i].name == k.name;
          }
          if IsListed(init, k.name) {
            var i :| 0 <= i < n && init[i].name == k.name;
            assert list[i].name == k.name;
          }
        }
      }
    }
  }

  /** After SaveKeys, each written name's cache entry is now, and every
      other entry is as it was. */
  lemma {:induction false} TouchedSpec(t: map<Key, Value>, names: seq<string>, now: Time, k: Key)
    ensures k.SecretUpdatedAt? && k.name in names ==> k in Touched(t, names, now) && Touched(t, names, now)[k] == Instant(now)
    ensures !(k.SecretUpdatedAt? && k.name in names) ==>
      (k in Touched(t, names, now) <==> k in t) && (k in t ==> Touched(t, names, now)[k] == t[k])
    decreases |names|
  {
    if |names| > 0 {
      var n := |names| - 1;
      TouchedSpec(t, names[..n], now, k);
      assert names == names[..n] + [names[n]];
    }
  }

  /** CreateOrUpdateRepoSecret's effect on the listing: the secret replaces
      every secret of its name in place, or is appended when there is none. */
  function Upsert(list: seq<RepoSecret>, s: RepoSecret): (r: seq<RepoSecret>)
  {
    if IsListed(list, s.name) then seq(|list|, i requires 0 <= i < |list| => if list[i].name == s.name then s else list[i])
    else list + [s]
  }

  /** After a write the secret is listed with its new time and value, and
      every other name lists as before. */
  lemma {:induction false} UpsertSpec(list: seq<RepoSecret>, s: RepoSecret, key: string)
    ensures IsListed(Upsert(list, s), s.name) && LastMatch(Upsert(list, s), s.name) == s.updatedAt
    ensures s in Upsert(list, s)
    ensures key != s.name ==> LastMatch(Upsert(list, s), key) == LastMatch(list, key)
    ensures key != s.name ==> (IsListed(Upsert(list, s), key) <==> IsListed(list, key))
  {
    var r := Upsert(list, s);
    if IsListed(list, s.name) {
      var i :| 0 <= i < |list| && list[i].name == s.name;
      assert r[i] == s;
      LastMatchSpec(r, s.name);
      var j :| 0 <= j < |r| && r[j].name == s.name && LastMatch(r, s.name) == r[j].updatedAt && forall m | j < m < |r| :: r[m].name != s.name;
      assert r[j] == s;
      if key != s.name {
        SameMatch(list, r, key);
      }
    } else {
      assert r[|list|] == s;
      assert r[..|r| - 1] == list;
      if key != s.name {
        assert IsListed(r, key) ==> IsListed(list, key) by {
          if IsListed(r, key) {
            var i :| 0 <= i < |r| && r[i].name == key;
            assert i < |list| && list[i].name == key;
          }
        }
      }
    }
  }

  /** Two listings that agree on every position holding `key`, and on which
      positions those are, give the same LastMatch for `key`. */
  lemma {:induction false} SameMatch(a: seq<RepoSecret>, b: seq<RepoSecret>, key: string)
    requires |a| == |b|
    requires forall i | 0 <= i < |a| :: (a[i].name == key <==> b[i].name == key)
    requires forall i | 0 <= i < |a| && a[i].name == key :: a[i] == b[i]
    ensures LastMatch(a, key) == LastMatch(b, key)
    ensures IsListed(a, key) <==> IsListed(b, key)
    decreases |a|
  {
    if |a| > 0 {
      var n := |a| - 1;
      SameMatch(a[..n], b[..n], key);
      if IsListed(a, key) {
        var i :| 0 <= i < |a| && a[i].name == key;
        assert b[i].name == key;
      }
      if IsListed(b, key) {
        var i :| 0 <= i < |b| && b[i].name == key;
        assert a[i].name == key;
      }
    }
  }

  /** The listing after writing `names` in order, each at `now`. */
  function UpsertAll(list: seq<RepoSecret>, names: seq<string>, ss: SecretMap, keyId: string, key: string, now: Time)
    : seq<RepoSecret>
    requires forall n | n in names :: n in ss
  {
    if |names| == 0 then list
    else
      var last := names[|names| - 1];
      Upsert(UpsertAll(list, names[..|names| - 1], ss, keyId, key, now), RepoSecret(last, now, SealedBox(keyId, key, ss[last])))
  }

  /** Every written name is listed afterwards, saved at `now`. */
  lemma {:induction false} UpsertAllSaved(list: seq<RepoSecret>, names: seq<string>, ss: SecretMap, keyId: string, key: string, now: Time, n: string)
    requires forall m | m in names :: m in ss
    ensures n in names ==>
      IsListed(UpsertAll(list, names, ss, keyId, key, now), n) && LastMatch(UpsertAll(list, names, ss, keyId, key, now), n) == now
    ensures n !in names ==> LastMatch(UpsertAll(list, names, ss, keyId, key, now), n) == LastMatch(list, n)
    decreases |names|
  {
    if |names| > 0 {
      var init := names[..|names| - 1];
      var last := names[|names| - 1];
      assert names == init + [last];
      UpsertAllSaved(list, init, ss, keyId, key, now, n);
      UpsertSpec(UpsertAll(list, init, ss, keyId, key, now), RepoSecret(last, now, SealedBox(keyId, key, ss[last])), n);
    }
  }

  /** The position of the first name whose write fails, |order| when none
      does. */
  function FirstFailing(order: seq<string>, fails: set<string>): (k: nat)
    ensures k <= |order|
    ensures forall i | 0 <= i < k :: order[i] !in fails
    ensures k < |order| ==> order[k] in fails
  {
    if |order| == 0 then 0
    else if order[0] in fails then 0
    else 1 + FirstFailing(order[1..], fails)
  }

  /** The write calls for `names`, in order. */
  function Writes(owner: string, repo: string, names: seq<string>): seq<GithubCall>
  {
    if |names| == 0 then []
    else Writes(owner, repo, names[..|names| - 1]) + [WriteSecret(owner, repo, names[|names| - 1])]
  }

  /** Two repository maps agree everywhere except possibly at `p`. */
  ghost predicate SameElsewhere(a: map<(string, string), seq<RepoSecret>>, b: map<(string, string), seq<RepoSecret>>, p: (string, string))
  {
    forall q | q != p :: (q in a <==> q in b) && (q in a ==> a[q] == b[q])
  }

  /** `order` lists the keys of `ss`, each once: Go's iteration over the map. */
  predicate Enumerates(order: seq<string>, ss: SecretMap)
  {
    && (forall i | 0 <= i < |order| :: order[i] in ss)
    && (forall k | k in ss :: k in order)
    && (forall i, j | 0 <= i < j < |order| :: order[i] != order[j])
  }

  /** The GitHub client: the repositories' secrets and the calls made. */
  class Client {
    var repos: map<(string, string), seq<RepoSecret>>
    ghost var calls: seq<GithubCall>

    constructor (repos: map<(string, string), seq<RepoSecret>>)
      ensures this.repos == repos && calls == []
    {
      this.repos := repos;
      calls := [];
    }

    /** The repository's secrets; an unknown repository has none. */
    function SecretsOf(owner: string, repo: string): seq<RepoSecret>
      reads this`repos
    {
      if (owner, repo) in repos then repos[(owner, repo)] else []
    }

    /** LastSaved: the cached time when there is one, with no remote call;
        otherwise list the repository's secrets, cache each one's time under
        its name and answer the key's time, the zero time when it is not
        listed. A failed listing answers the zero time, caches nothing and
        is no error. */
    method LastSaved(store: string, cache: Cache, key: string, listFails: bool) returns (t: Time)
      requires cache.table.Some?
      modifies this`calls, cache
      ensures cache.table.Some?
      ensures old(GetCachedKeyTime(cache, key)).1 ==>
        t == old(GetCachedKeyTime(cache, key)).0 && calls == old(calls) && cache.table == old(cache.table)
      ensures !old(GetCachedKeyTime(cache, key)).1 ==> calls == old(calls) + [ListSecrets(Parts(store).0, Parts(store).1)]
      ensures !old(GetCachedKeyTime(cache, key)).1 && listFails ==> t == ZeroTime && cache.table == old(cache.table)
      ensures !old(GetCachedKeyTime(cache, key)).1 && !listFails ==>
        var list := SecretsOf(Parts(store).0, Parts(store).1);
        t == LastMatch(list, key) && cache.table == Some(Listed(old(cache.table).value, list))
    {
      var hit := GetCachedKeyTime(cache, key);
      if hit.1 {
        return hit.0;
      }
      var (owner, repo) := Parts(store);
      calls := calls + [ListSecrets(owner, repo)];
      if listFails {
        return ZeroTime;
      }
      var list := SecretsOf(owner, repo);
      ghost var t0 := cache.table.value;
      var upd := ZeroTime;
      for i := 0 to |list|
        invariant cache.table == Some(Listed(t0, list[..i]))
        invariant upd == LastMatch(list[..i], key)
        invariant calls == old(calls) + [ListSecrets(owner, repo)]
      {
        assert list[..i + 1][..i] == list[..i];
        SetCachedKeyTime(cache, list[i].name, list[i].updatedAt);
        if list[i].name == key {
          upd := list[i].updatedAt;
        }
      }
      assert list[..|list|] == list;
      return upd;
    }

    /** SaveKeys: fetch and decode the repository's public key, then write
        each secret in `order`, touching its cached time; the first failing
        write ends the call with an error. A public-key or decoding failure
        ends it before any write. */
    method SaveKeys(store: string, cache: Cache, order: seq<string>, ss: SecretMap, now: Time, remote: Remote)
      returns (err: Option<GithubError>)
      requires Enumerates(order, ss)
      requires cache.table.Some?
      modifies this, cache
      ensures cache.table.Some?
      ensures SameElsewhere(repos, old(repos), Parts(store))
      ensures remote.publicKey.None? || remote.decoded.None? ==>
        && err == Some(if remote.publicKey.None? then PublicKeyFailed(store) else DecodeFailed(store))
        && calls == old(calls) + [GetPublicKey(Parts(store).0, Parts(store).1)]
        && repos == old(repos) && cache.table == old(cache.table)
      ensures remote.publicKey.Some? && remote.decoded.Some? ==>
        var k := FirstFailing(order, remote.writeFails);
        && err == (if k < |order| then Some(WriteFailed(order[k], store)) else None)
        && cache.table == Some(Touched(old(cache.table).value, order[..k], now))
        && SecretsOf(Parts(store).0, Parts(store).1) ==
          UpsertAll(old(SecretsOf(Parts(store).0, Parts(store).1)), order[..k], ss, remote.publicKey.value.keyId, remote.decoded.value, now)
        && calls == old(calls) + [GetPublicKey(Parts(store).0, Parts(store).1)] +
          Writes(Parts(store).0, Parts(store).1, order[..if k < |order| then k + 1 else k])
    {
      var (owner, repo) := Parts(store);
      calls := calls + [GetPublicKey(owner, repo)];
      if remote.publicKey.None? {
        return Some(PublicKeyFailed(store));
      }
      if remote.decoded.None? {
        return Some(DecodeFailed(store));
      }
      err := WriteSecrets(owner, repo, store, cache, order, ss, remote.publicKey.value.keyId, remote.decoded.value, now, remote.writeFails);
    }

    /** SaveKeys' loop: write each secret in order, sealed for the key, and
        touch its cached time; stop at the first failing write. */
    method WriteSecrets(owner: string, repo: string, store: string, cache: Cache, order: seq<string>, ss: SecretMap,
                        keyId: string, key: string, now: Time, fails: set<string>)
      returns (err: Option<GithubError>)
      requires forall i | 0 <= i < |order| :: order[i] in ss
      requires cache.table.Some?
      modifies this, cache
      ensures cache.table.Some?
      ensures SameElsewhere(repos, old(repos), (owner, repo))
      ensures var k := FirstFailing(order, fails);
        && err == (if k < |order| then Some(WriteFailed(order[k], store)) else None)
        && cache.table == Some(Touched(old(cache.table).value, order[..k], now))
        && SecretsOf(owner, repo) == UpsertAll(old(SecretsOf(owner, repo)), order[..k], ss, keyId, key, now)
        && calls == old(calls) + Writes(owner, repo, order[..if k < |order| then k + 1 else k])
    {
      ghost var t0 := cache.table.value;
      ghost var list0 := SecretsOf(owner, repo);
      ghost var calls0 := calls;
      ghost var k := FirstFailing(order, fails);
      for i := 0 to |order|
        invariant i <= k
        invariant cache.table == Some(Touched(t0, order[..i], now))
        invariant SecretsOf(owner, repo) == UpsertAll(list0, order[..i], ss, keyId, key, now)
        invariant SameElsewhere(repos, old(repos), (owner, repo))
        invariant calls == calls0 + Writes(owner, repo, order[..i])
      {
        WriteStep(owner, repo, order, i, ss, keyId, key, now, list0, t0);
        var name := order[i];
        calls := calls + [WriteSecret(owner, repo, name)];
        SeqAssoc(calls0, Writes(owner, repo, order[..i]), [WriteSecret(owner, repo, name)]);
        if name in fails {
          return Some(WriteFailed(name, store));
        }
        ghost var before := repos;
        repos := repos[(owner, repo) := Upsert(SecretsOf(owner, repo), RepoSecret(name, now, SealedBox(keyId, key, ss[name])))];
        assert SameElsewhere(repos, before, (owner, repo));
        TouchCachedKeyTime(cache, name, now);
      }
      assert order[..|order|] == order;
      return None;
    }
  }

  /** One more name of `order` written: each prefix function grows by it. */
  lemma WriteStep(owner: string, repo: string, order: seq<string>, i: nat, ss: SecretMap,
                  keyId: string, key: string, now: Time, list: seq<RepoSecret>, t: map<Key, Value>)
    requires i < |order|
    requires forall j | 0 <= j < |order| :: order[j] in ss
    ensures forall n | n in order[..i + 1] :: n in ss
    ensures Touched(t, order[..i + 1], now) == Touched(t, order[..i], now)[SecretUpdatedAt(order[i]) := Instant(now)]
    ensures UpsertAll(list, order[..i + 1], ss, keyId, key, now) ==
      Upsert(UpsertAll(list, order[..i], ss, keyId, key, now), RepoSecret(order[i], now, SealedBox(keyId, key, ss[order[i]])))
    ensures Writes(owner, repo, order[..i + 1]) == Writes(owner, repo, order[..i]) + [WriteSecret(owner, repo, order[i])]
  {
    assert order[..i + 1][..i] == order[..i];
  }

  /** After a SaveKeys call that wrote every key, a fresh listing answers
      now for each of them. */
  lemma SavedKeysListNow(list: seq<RepoSecret>, order: seq<string>, ss: SecretMap, keyId: string, key: string, now: Time, n: string)
    requires Enumerates(order, ss)
    requires n in ss
    ensures LastMatch(UpsertAll(list, order, ss, keyId, key, now), n) == now
  {
    UpsertAllSaved(list, order, ss, keyId, key, now, n);
  }
}
