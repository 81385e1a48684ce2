/** pkg/plugin/iam/iam.go: the AWS IAM rotation and disablement client. The
    IAM service becomes a map from user name to that user's key list together
    with a record of the calls made on it; what each remote call answers
    (failure, the minted key) is a parameter. The secret's cache is the
    per-object cache of pkg/config/cache.go. */
module Iam {
  import opened Common
  import opened ObjectCache

  /** The names RotateSecret stores the new key under. */
  const AccessKeyName: string := "AWS_ACCESS_KEY_ID"
  const SecretKeyName: string := "AWS_SECRET_ACCESS_KEY"

  /** aws.TimeValue: the date, or the zero time when the key has none. */
  function TimeValue(d: Option<Time>): Time
  {
    if d.Some? then d.value else ZeroTime
  }

  /** The keys examineKeys may pick as oldest: dated strictly before now. */
  predicate BeforeNow(k: AccessKey, now: Time)
  {
    k.created.Some? && k.created.value < now
  }

  /** The keys examineKeys may pick as newest: dated after the zero time. */
  predicate AfterZero(k: AccessKey)
  {
    k.created.Some? && k.created.value > ZeroTime
  }

  /** The oldest-key half of examineKeys' loop after the keys `keys`: the
      running oldest time (initially now) and key. */
  function ScanOldest(keys: seq<AccessKey>, now: Time): (Time, Option<AccessKey>)
  {
    if |keys| == 0 then (now, None)
    else
      var prev := ScanOldest(keys[..|keys| - 1], now);
      var k := keys[|keys| - 1];
      if k.created.Some? && k.created.value < prev.0 then (k.created.value, Some(k)) else prev
  }

  /** The newest-key half of examineKeys' loop: the running newest time
      (initially the zero time) and key. */
  function ScanNewest(keys: seq<AccessKey>): (Time, Option<AccessKey>)
  {
    if |keys| == 0 then (ZeroTime, None)
    else
      var prev := ScanNewest(keys[..|keys| - 1]);
      var k := keys[|keys| - 1];
      if k.created.Some? && k.created.value > prev.0 then (k.created.value, Some(k)) else prev
  }

  /** examineKeys' answer: (oldest, newest). */
  function Examine(keys: seq<AccessKey>, now: Time): (Option<AccessKey>, Option<AccessKey>)
  {
    (ScanOldest(keys, now).1, ScanNewest(keys).1)
  }

  /** keys[j] is dated before now, no such key is older, and every earlier
      such key is strictly younger (ties go to the earlier key). */
  ghost predicate IsOldest(keys: seq<AccessKey>, now: Time, j: int)
  {
    && 0 <= j < |keys| && BeforeNow(keys[j], now)
    && forall i | 0 <= i < |keys| && BeforeNow(keys[i], now) ::
      keys[j].created.value <= keys[i].created.value && (i < j ==> keys[j].created.value < keys[i].created.value)
  }

  /** keys[j] is dated after the zero time, no such key is newer, and every
      earlier such key is strictly older. */
  ghost predicate IsNewest(keys: seq<AccessKey>, j: int)
  {
    && 0 <= j < |keys| && AfterZero(keys[j])
    && forall i | 0 <= i < |keys| && AfterZero(keys[i]) ::
      keys[i].created.value <= keys[j].created.value && (i < j ==> keys[i].created.value < keys[j].created.value)
  }

  /** examineKeys: one pass over the keys keeping the oldest and the newest. */
  method ExamineKeys(keys: seq<AccessKey>, now: Time) returns (oldest: Option<AccessKey>, newest: Option<AccessKey>)
    ensures (oldest, newest) == Examine(keys, now)
  {
    var oldestTime := now;
    var newestTime := ZeroTime;
    oldest, newest := None, None;
    for i := 0 to |keys|
      invariant (oldestTime, oldest) == ScanOldest(keys[..i], now)
      invariant (newestTime, newest) == ScanNewest(keys[..i])
    {
      assert keys[..i + 1][..i] == keys[..i];
      var k := keys[i];
      if k.created.Some? && k.created.value < oldestTime {
        oldestTime := k.created.value;
        oldest := Some(k);
      }
      if k.created.Some? && k.created.value > newestTime {
        newestTime := k.created.value;
        newest := Some(k);
      }
    }
    assert keys[..|keys|] == keys;
  }

  /** The oldest key examineKeys finds is the earliest dated key before now,
      the first of equals; none when no key is dated before now. */
  lemma {:induction false} ScanOldestSpec(keys: seq<AccessKey>, now: Time)
    ensures var r := ScanOldest(keys, now);
      && (r.1.None? <==> forall i | 0 <= i < |keys| :: !BeforeNow(keys[i], now))
      && (r.1.None? ==> r.0 == now)
      && (r.1.Some? ==> exists j :: IsOldest(keys, now, j) && keys[j] == r.1.value && r.0 == keys[j].created.value)
    decreases |keys|
  {
    if |keys| > 0 {
      var n := |keys| - 1;
      var init := keys[..n];
      ScanOldestSpec(init, now);
      assert forall i | 0 <= i < n :: init[i] == keys[i];
      var prev := ScanOldest(init, now);
      var k := keys[n];
      if k.created.Some? && k.created.value < prev.0 {
        if prev.1.Some? {
          var j :| IsOldest(init, now, j) && init[j] == prev.1.value && prev.0 == init[j].created.value;
          assert IsOldest(keys, now, n) by {
            forall i | 0 <= i < |keys| && BeforeNow(keys[i], now)
              ensures keys[n].created.value <= keys[i].created.value && (i < n ==> keys[n].created.value < keys[i].created.value)
            {
              if i < n {
                assert BeforeNow(init[i], now);
              }
            }
          }
        } else {
          assert forall i | 0 <= i < n :: !BeforeNow(keys[i], now);
          assert IsOldest(keys, now, n);
        }
      } else if prev.1.Some? {
        var j :| IsOldest(init, now, j) && init[j] == prev.1.value && prev.0 == init[j].created.value;
        assert IsOldest(keys, now, j) by {
          forall i | 0 <= i < |keys| && BeforeNow(keys[i], now)
            ensures keys[j].created.value <= keys[i].created.value && (i < j ==> keys[j].created.value < keys[i].created.value)
          {
            if i < n {
              assert BeforeNow(init[i], now);
            }
          }
        }
      } else {
        forall i | 0 <= i < |keys| ensures !BeforeNow(keys[i], now) {
          if i < n {
            assert !BeforeNow(init[i], now);
          }
        }
      }
    }
  }

  /** The newest key examineKeys finds is the latest dated key, the first of
      equals; none when no key is dated after the zero time. */
  lemma {:induction false} ScanNewestSpec(keys: seq<AccessKey>)
    ensures var r := ScanNewest(keys);
      && (r.1.None? <==> forall i | 0 <= i < |keys| :: !AfterZero(keys[i]))
      && (r.1.None? ==> r.0 == ZeroTime)
      && (r.1.Some? ==> exists j :: IsNewest(keys, j) && keys[j] == r.1.value && r.0 == keys[j].created.value)
    decreases |keys|
  {
    if |keys| > 0 {
      var n := |keys| - 1;
      var init := keys[..n];
      ScanNewestSpec(init);
      assert forall i | 0 <= i < n :: init[i] == keys[i];
      var prev := ScanNewest(init);
      var k := keys[n];
      if k.created.Some? && k.created.value > prev.0 {
        if prev.1.Some? {
          var j :| IsNewest(init, j) && init[j] == prev.1.value && prev.0 == init[j].created.value;
          assert IsNewest(keys, n) by {
            forall i | 0 <= i < |keys| && AfterZero(keys[i])
              ensures keys[i].created.value <= keys[n].created.value && (i < n ==> keys[i].created.value < keys[n].created.value)
            {
              if i < n {
                assert AfterZero(init[i]);
              }
            }
          }
        } else {
          assert forall i | 0 <= i < n :: !AfterZero(keys[i]);
          assert IsNewest(keys, n);
        }
      } else if prev.1.Some? {
        var j :| IsNewest(init, j) && init[j] == prev.1.value && prev.0 == init[j].created.value;
        assert IsNewest(keys, j) by {
          forall i | 0 <= i < |keys| && AfterZero(keys[i])
            ensures keys[i].created.value <= keys[j].created.value && (i < j ==> keys[i].created.value < keys[j].created.value)
          {
            if i < n {
              assert AfterZero(init[i]);
            }
          }
        }
      } else {
        forall i | 0 <= i < |keys| ensures !AfterZero(keys[i]) {
          if i < n {
            assert !AfterZero(init[i]);
          }
        }
      }
    }
  }

  /** At most one position is the oldest, and at most one the newest. */
  lemma ExtremesUnique(keys: seq<AccessKey>, now: Time, a: int, b: int)
    ensures IsOldest(keys, now, a) && IsOldest(keys, now, b) ==> a == b
    ensures IsNewest(keys, a) && IsNewest(keys, b) ==> a == b
  {
  }

  /** With a single dated key, before now, examineKeys answers that key both
      as the oldest and as the newest. */
  lemma SingleDatedKey(keys: seq<AccessKey>, now: Time, j: int)
    requires 0 <= j < |keys| && BeforeNow(keys[j], now) && AfterZero(keys[j])
    requires forall i | 0 <= i < |keys| && i != j :: keys[i].created.None?
    ensures Examine(keys, now) == (Some(keys[j]), Some(keys[j]))
  {
    ScanOldestSpec(keys, now);
    ScanNewestSpec(keys);
    assert IsOldest(keys, now, j) && IsNewest(keys, j);
    var o :| IsOldest(keys, now, o) && keys[o] == ScanOldest(keys, now).1.value && ScanOldest(keys, now).0 == keys[o].created.value;
    var n :| IsNewest(keys, n) && keys[n] == ScanNewest(keys).1.value && ScanNewest(keys).0 == keys[n].created.value;
    ExtremesUnique(keys, now, o, j);
    ExtremesUnique(keys, now, n, j);
  }

  /** With no dated key, examineKeys answers two nils. */
  lemma NoDatedKey(keys: seq<AccessKey>, now: Time)
    requires forall i | 0 <= i < |keys| :: keys[i].created.None?
    ensures Examine(keys, now) == (None, None)
  {
    ScanOldestSpec(keys, now);
    ScanNewestSpec(keys);
  }

  /** getCache: the cached (oldest, newest) pair, found only when the value
      under GotKeys is a list of exactly two keys. */
  function GetCache(c: Cache): (r: (Option<AccessKey>, Option<AccessKey>, bool))
    reads c
    ensures r.2 <==> c.CacheGet(GotKeys).1 && c.CacheGet(GotKeys).0.KeyList? && |c.CacheGet(GotKeys).0.keys| == 2
    ensures !r.2 ==> r.0.None? && r.1.None?
  {
    var got := c.CacheGet(GotKeys);
    if got.1 && got.0.KeyList? && |got.0.keys| == 2 then (got.0.keys[0], got.0.keys[1], true) else (None, None, false)
  }

  /** setCache: remember the pair; nothing else in the cache changes. */
  method SetCache(c: Cache, oldKey: Option<AccessKey>, newKey: Option<AccessKey>)
    requires c.table.Some?
    modifies c
    ensures c.table.Some?
    ensures GetCache(c) == (oldKey, newKey, true)
    ensures forall k | k != GotKeys :: c.CacheGet(k) == old(c.CacheGet(k))
  {
    c.CacheSet(GotKeys, KeyList([oldKey, newKey]));
  }

  /** clearCache: forget the pair; nothing else in the cache changes. */
  method ClearCache(c: Cache)
    modifies c
    ensures !GetCache(c).2
    ensures old(c.table).Some? ==> c.table.Some?
    ensures forall k | k != GotKeys :: c.CacheGet(k) == old(c.CacheGet(k))
  {
    c.CacheClear(GotKeys);
  }

  /** The errors the client reports. RetrieveFailed wraps a failed
      getAccessKeys; NoAccessKey is the corrected answer where the source
      dereferences a missing key. */
  datatype IamError =
    | ListFailed(user: string)
    | RetrieveFailed(user: string, cause: IamError)
    | DeleteFailed(user: string)
    | CreateFailed(user: string)
    | UpdateFailed(user: string)
    | NoAccessKey(user: string)

  /** How the IAM service answers the calls of one client operation. */
  datatype Remote = Remote(listFails: bool, deleteFails: bool, minted: Option<(string, string)>, updateFails: bool)

  /** A call on the IAM service; a mutating call records whether the
      secret's key cache still held a pair when it was made. */
  datatype IamCall =
    | ListKeys(user: string)
    | DeleteKey(user: string, id: string, cached: bool)
    | CreateKey(user: string, cached: bool)
    | DeactivateKey(user: string, id: string, cached: bool)

  /** Every mutating call was made with the key cache cleared. */
  predicate ClearedBeforeMutation(calls: seq<IamCall>)
  {
    forall i | 0 <= i < |calls| :: !calls[i].ListKeys? ==> !calls[i].cached
  }

  /** Appending a call made with the cache cleared keeps the calls since
      `log0` cleared before mutation. */
  lemma ClearedExtend(log0: seq<IamCall>, log: seq<IamCall>, e: IamCall)
    requires |log0| <= |log| && ClearedBeforeMutation(log[|log0|..])
    requires !e.ListKeys? ==> !e.cached
    ensures ClearedBeforeMutation((log + [e])[|log0|..])
  {
    assert (log + [e])[|log0|..] == log[|log0|..] + [e];
  }

  /** DeleteAccessKey's effect: the key with that id is gone, the others
      stay in order. */
  function Without(keys: seq<AccessKey>, id: string): (r: seq<AccessKey>)
    ensures forall k | k in r :: k in keys && k.id != id
    ensures forall k | k in keys && k.id != id :: k in r
  {
    if |keys| == 0 then []
    else (if keys[0].id == id then [] else [keys[0]]) + Without(keys[1..], id)
  }

  /** UpdateAccessKey(Inactive)'s effect: the key with that id is inactive,
      everything else is as it was. */
  function Deactivated(keys: seq<AccessKey>, id: string): (r: seq<AccessKey>)
    ensures |r| == |keys|
    ensures forall i | 0 <= i < |keys| :: r[i].id == keys[i].id && r[i].created == keys[i].created
    ensures forall i | 0 <= i < |keys| :: r[i].active <==> keys[i].active && keys[i].id != id
  {
    seq(|keys|, i requires 0 <= i < |keys| => if keys[i].id == id then keys[i].(active := false) else keys[i])
  }

  /** getAccessKeys as a function of the cache's pair, the user's listed keys
      and whether the listing fails. */
  function Fetched(hit: (Option<AccessKey>, Option<AccessKey>, bool), user: string, keys: seq<AccessKey>, now: Time, listFails: bool)
    : Result<(Option<AccessKey>, Option<AccessKey>), IamError>
  {
    if hit.2 then Ok((hit.0, hit.1))
    else if listFails then Err(ListFailed(user))
    else Ok(Examine(keys, now))
  }

  /** LastRotated, corrected: the newest key's date; a failed lookup is passed
      through and a missing newest key is NoAccessKey. */
  function RotatedAt(f: Result<(Option<AccessKey>, Option<AccessKey>), IamError>, user: string): Result<Time, IamError>
  {
    match f
    case Err(e) => Err(e)
    case Ok(pair) => if pair.1.None? then Err(NoAccessKey(user)) else Ok(TimeValue(pair.1.value.created))
  }

  /** LastUpdated, corrected: the oldest key's date; a failed lookup or a
      missing oldest key is the zero time. */
  function UpdatedAt(f: Result<(Option<AccessKey>, Option<AccessKey>), IamError>): Time
  {
    match f
    case Err(_) => ZeroTime
    case Ok(pair) => if pair.0.None? then ZeroTime else TimeValue(pair.0.value.created)
  }

  /** The outcome of following a possibly nil key pointer. */
  datatype Deref<T> = Value(value: T) | NilDereference

  /** LastRotated as written (line 67): newKey.CreateDate is read even when
      newKey is nil. */
  function RotatedAtAsWritten(f: Result<(Option<AccessKey>, Option<AccessKey>), IamError>): Result<Deref<Time>, IamError>
  {
    match f
    case Err(e) => Err(e)
    case Ok(pair) => Ok(if pair.1.None? then NilDereference else Value(TimeValue(pair.1.value.created)))
  }

  /** LastUpdated as written (line 144): oldKey.CreateDate is read even when
      oldKey is nil. */
  function UpdatedAtAsWritten(f: Result<(Option<AccessKey>, Option<AccessKey>), IamError>): Deref<Time>
  {
    match f
    case Err(_) => Value(ZeroTime)
    case Ok(pair) => if pair.0.None? then NilDereference else Value(TimeValue(pair.0.value.created))
  }

  /** The key DisableSecret deactivates, as written (line 166):
      okey.AccessKeyId is read even when okey is nil. */
  function DisableTargetAsWritten(f: Result<(Option<AccessKey>, Option<AccessKey>), IamError>): Result<Deref<string>, IamError>
  {
    match f
    case Err(e) => Err(e)
    case Ok(pair) => Ok(if pair.0.None? then NilDereference else Value(pair.0.value.id))
  }

  /** A user with no access key, nothing cached: all three readers follow a
      nil pointer. */
  lemma NoKeysDereferenceNil(user: string, now: Time)
    ensures var f := Fetched((None, None, false), user, [], now, false);
      && RotatedAtAsWritten(f) == Ok(NilDereference)
      && UpdatedAtAsWritten(f) == NilDereference
      && DisableTargetAsWritten(f) == Ok(NilDereference)
  {
  }

  /** A user whose only key is dated in the future has a newest but no
      oldest key, so LastUpdated as written follows a nil pointer. */
  lemma FutureKeyDereferencesNil(user: string, now: Time)
    requires now > ZeroTime
    ensures var f := Fetched((None, None, false), user, [AccessKey("A", Some(now + 1), true)], now, false);
      && UpdatedAtAsWritten(f) == NilDereference
      && RotatedAtAsWritten(f) == Ok(Value(now + 1))
  {
    var keys := [AccessKey("A", Some(now + 1), true)];
    assert keys[..|keys| - 1] == [];
    assert ScanOldest(keys, now) == (now, None);
    assert ScanNewest(keys) == (now + 1, Some(keys[0]));
  }

  /** The corrected readers agree with the source wherever it does not
      follow a nil pointer, and always answer. */
  lemma CorrectedReadersAgree(f: Result<(Option<AccessKey>, Option<AccessKey>), IamError>, user: string)
    ensures RotatedAtAsWritten(f) == Ok(NilDereference) <==> RotatedAt(f, user) == Err(NoAccessKey(user)) && f.Ok?
    ensures (forall t :: RotatedAtAsWritten(f) == Ok(Value(t)) <==> RotatedAt(f, user) == Ok(t))
    ensures (forall e :: RotatedAtAsWritten(f) == Err(e) <==> f == Err(e))
    ensures (forall t :: UpdatedAtAsWritten(f) == Value(t) ==> UpdatedAt(f) == t)
    ensures UpdatedAtAsWritten(f) == NilDereference ==> UpdatedAt(f) == ZeroTime
  {
  }

  /** When the keys are listed afresh, LastRotated answers the date of the
      latest dated key; a failed listing is passed through. */
  lemma RotatedAtIsNewest(user: string, keys: seq<AccessKey>, now: Time)
    ensures Fetched((None, None, false), user, keys, now, true) == Err(ListFailed(user))
    ensures var r := RotatedAt(Fetched((None, None, false), user, keys, now, false), user);
      && (r.Ok? <==> exists i :: 0 <= i < |keys| && AfterZero(keys[i]))
      && (r.Ok? ==> exists j :: IsNewest(keys, j) && r.value == keys[j].created.value)
      && (r.Err? ==> r.error == NoAccessKey(user))
  {
    ScanNewestSpec(keys);
  }

  /** When the keys are listed afresh, LastUpdated answers the date of the
      earliest key dated before now, and the zero time when the listing
      fails. */
  lemma UpdatedAtIsOldest(user: string, keys: seq<AccessKey>, now: Time)
    ensures UpdatedAt(Fetched((None, None, false), user, keys, now, true)) == ZeroTime
    ensures (exists i :: 0 <= i < |keys| && BeforeNow(keys[i], now)) ==>
      exists j :: IsOldest(keys, now, j) && UpdatedAt(Fetched((None, None, false), user, keys, now, false)) == keys[j].created.value
  {
    ScanOldestSpec(keys, now);
  }

  /** What a rotation answers and leaves behind: the new values, the error,
      and the user's keys afterwards. */
  datatype Rotated = Rotated(values: SecretMap, err: Option<IamError>, keys: seq<AccessKey>)

  /** Whether RotateSecret deletes the old key before creating a new one:
      there is an old key and its id differs from the newest key's (an
      absent newest key counting as the empty id). */
  predicate DeletesOld(pair: (Option<AccessKey>, Option<AccessKey>))
  {
    pair.0.Some? && pair.0.value.id != (if pair.1.Some? then pair.1.value.id else "")
  }

  /** RotateSecret given getAccessKeys' answer `f` and the user's keys. */
  function Rotation(f: Result<(Option<AccessKey>, Option<AccessKey>), IamError>, user: string, keys: seq<AccessKey>, now: Time, remote: Remote)
    : Rotated
  {
    match f
    case Err(e) => Rotated(map[], Some(RetrieveFailed(user, e)), keys)
    case Ok(pair) =>
      if DeletesOld(pair) && remote.deleteFails then Rotated(map[], Some(DeleteFailed(user)), keys)
      else
        var kept := if DeletesOld(pair) then Without(keys, pair.0.value.id) else keys;
        if remote.minted.None? then Rotated(map[], Some(CreateFailed(user)), kept)
        else Rotated(map[AccessKeyName := remote.minted.value.0, SecretKeyName := remote.minted.value.1], None,
                     kept + [AccessKey(remote.minted.value.0, Some(now), true)])
  }

  /** A rotation either fails with nothing to store, or answers the minted
      id and secret under exactly the two AWS names and leaves the new key,
      active and dated now, last in the user's list; the deleted old key is
      gone and no other key is lost or invented. */
  lemma RotationSpec(f: Result<(Option<AccessKey>, Option<AccessKey>), IamError>, user: string, keys: seq<AccessKey>, now: Time, remote: Remote)
    ensures var r := Rotation(f, user, keys, now, remote);
      && (r.err.Some? <==> r.values == map[])
      && (r.err.None? <==>
        f.Ok? && remote.minted.Some? && !(DeletesOld(f.value) && remote.deleteFails))
      && (r.err.None? ==>
        && r.values.Keys == {AccessKeyName, SecretKeyName}
        && r.values[AccessKeyName] == remote.minted.value.0
        && r.values[SecretKeyName] == remote.minted.value.1
        && |r.keys| > 0 && r.keys[|r.keys| - 1] == AccessKey(remote.minted.value.0, Some(now), true))
      && (remote.minted.None? ==> forall k | k in r.keys :: k in keys)
      && (remote.minted.Some? ==> forall k | k in r.keys && k != AccessKey(remote.minted.value.0, Some(now), true) :: k in keys)
      && (f.Ok? && DeletesOld(f.value) && r.err.None? ==>
        forall k | k in r.keys && k.id == f.value.0.value.id :: k == r.keys[|r.keys| - 1])
  {
    var r := Rotation(f, user, keys, now, remote);
    if r.err.None? {
      assert AccessKeyName in r.values;
    }
  }

  /** A user whose oldest and newest key are the same keeps it: the new key
      is added beside it, as IAM allows two keys. */
  lemma SingleKeyKept(k: AccessKey, user: string, keys: seq<AccessKey>, now: Time, remote: Remote)
    requires remote.minted.Some?
    ensures Rotation(Ok((Some(k), Some(k))), user, keys, now, remote).keys == keys + [AccessKey(remote.minted.value.0, Some(now), true)]
  {
  }

  /** DisableSecret given getAccessKeys' answer `f` and the user's keys: the
      error and the user's keys afterwards. */
  function Disablement(f: Result<(Option<AccessKey>, Option<AccessKey>), IamError>, user: string, keys: seq<AccessKey>, remote: Remote)
    : (Option<IamError>, seq<AccessKey>)
  {
    match f
    case Err(e) => (Some(RetrieveFailed(user, e)), keys)
    case Ok(pair) =>
      if pair.0.None? then (Some(NoAccessKey(user)), keys)
      else if remote.updateFails then (Some(UpdateFailed(user)), keys)
      else (None, Deactivated(keys, pair.0.value.id))
  }

  /** The listing getAccessKeys makes: none when the pair was cached. */
  function Listing(hit: bool, user: string): (calls: seq<IamCall>)
  {
    if hit then [] else [ListKeys(user)]
  }

  /** The mutating calls RotateSecret makes once getAccessKeys answered `f`:
      the delete of the old key when it goes, then the create unless the
      delete failed; each made with the cache cleared. */
  function RotationCalls(f: Result<(Option<AccessKey>, Option<AccessKey>), IamError>, user: string, remote: Remote): seq<IamCall>
  {
    match f
    case Err(_) => []
    case Ok(pair) =>
      if DeletesOld(pair) then
        [DeleteKey(user, pair.0.value.id, false)] + (if remote.deleteFails then [] else [CreateKey(user, false)])
      else [CreateKey(user, false)]
  }

  /** The mutating call DisableSecret makes once getAccessKeys answered `f`:
      the deactivation of the oldest key, made with the cache cleared. */
  function DisablementCalls(f: Result<(Option<AccessKey>, Option<AccessKey>), IamError>, user: string): seq<IamCall>
  {
    match f
    case Err(_) => []
    case Ok(pair) => if pair.0.None? then [] else [DeactivateKey(user, pair.0.value.id, false)]
  }

  /** Disabling changes the user's keys only on success, and then only the
      oldest key's activity: it becomes inactive, every other key keeps its
      state. */
  lemma DisablementSpec(f: Result<(Option<AccessKey>, Option<AccessKey>), IamError>, user: string, keys: seq<AccessKey>, remote: Remote)
    ensures var r := Disablement(f, user, keys, remote);
      && (r.0.None? <==> f.Ok? && f.value.0.Some? && !remote.updateFails)
      && (r.0.Some? ==> r.1 == keys)
      && |r.1| == |keys|
      && (r.0.None? ==> forall i | 0 <= i < |keys| ::
        && r.1[i].id == keys[i].id && r.1[i].created == keys[i].created
        && (keys[i].id == f.value.0.value.id ==> !r.1[i].active)
        && (keys[i].id != f.value.0.value.id ==> r.1[i].active == keys[i].active))
  {
  }

  /** The IAM client: the remote key lists and the calls made on them. */
  class Client {
    /** IAM's key list of each user. */
    var accounts: map<string, seq<AccessKey>>
    /** Every call made on the IAM service, in order. */
    ghost var log: seq<IamCall>

    constructor (accounts: map<string, seq<AccessKey>>)
      ensures this.accounts == accounts && log == []
    {
      this.accounts := accounts;
      log := [];
    }

    /** The user's keys; a user IAM does not know has none. */
    function KeysOf(user: string): seq<AccessKey>
      reads this
    {
      if user in accounts then accounts[user] else []
    }

    /** getAccessKeys: the cached pair if there is one (no remote call);
        otherwise list the keys, examine them and cache the pair. A failed
        listing caches nothing. */
    method GetAccessKeys(user: string, cache: Cache, now: Time, listFails: bool)
      returns (r: Result<(Option<AccessKey>, Option<AccessKey>), IamError>)
      requires cache.table.Some?
      modifies this`log, cache
      ensures cache.table.Some?
      ensures r == Fetched(old(GetCache(cache)), user, KeysOf(user), now, listFails)
      ensures old(GetCache(cache)).2 ==> log == old(log) && cache.table == old(cache.table)
      ensures !old(GetCache(cache)).2 ==> log == old(log) + [ListKeys(user)]
      ensures !old(GetCache(cache)).2 && listFails ==> cache.table == old(cache.table)
      ensures r.Ok? ==> GetCache(cache) == (r.value.0, r.value.1, true)
      ensures forall k | k != GotKeys :: cache.CacheGet(k) == old(cache.CacheGet(k))
    {
      var hit := GetCache(cache);
      if hit.2 {
        return Ok((hit.0, hit.1));
      }
      log := log + [ListKeys(user)];
      if listFails {
        return Err(ListFailed(user));
      }
      var oldKey, newKey := ExamineKeys(KeysOf(user), now);
      SetCache(cache, oldKey, newKey);
      return Ok((oldKey, newKey));
    }

    /** LastRotated: the date of the newest key, errors passed through. */
    method LastRotated(user: string, cache: Cache, now: Time, listFails: bool) returns (r: Result<Time, IamError>)
      requires cache.table.Some?
      modifies this`log, cache
      ensures cache.table.Some?
      ensures r == RotatedAt(Fetched(old(GetCache(cache)), user, old(KeysOf(user)), now, listFails), user)
      ensures log == old(log) + Listing(old(GetCache(cache)).2, user)
      ensures var f := Fetched(old(GetCache(cache)), user, old(KeysOf(user)), now, listFails);
        && (f.Ok? ==> GetCache(cache) == (f.value.0, f.value.1, true))
        && (f.Err? || old(GetCache(cache)).2 ==> cache.table == old(cache.table))
      ensures forall k | k != GotKeys :: cache.CacheGet(k) == old(cache.CacheGet(k))
    {
      var keys := GetAccessKeys(user, cache, now, listFails);
      if keys.Err? {
        return Err(keys.error);
      }
      if keys.value.1.None? {
        return Err(NoAccessKey(user));
      }
      return Ok(TimeValue(keys.value.1.value.created));
    }

    /** LastUpdated: the date of the oldest key; a failed lookup is the zero
        time and no error. */
    method LastUpdated(user: string, cache: Cache, now: Time, listFails: bool) returns (t: Time)
      requires cache.table.Some?
      modifies this`log, cache
      ensures cache.table.Some?
      ensures t == UpdatedAt(Fetched(old(GetCache(cache)), user, old(KeysOf(user)), now, listFails))
      ensures log == old(log) + Listing(old(GetCache(cache)).2, user)
      ensures var f := Fetched(old(GetCache(cache)), user, old(KeysOf(user)), now, listFails);
        && (f.Ok? ==> GetCache(cache) == (f.value.0, f.value.1, true))
        && (f.Err? || old(GetCache(cache)).2 ==> cache.table == old(cache.table))
      ensures forall k | k != GotKeys :: cache.CacheGet(k) == old(cache.CacheGet(k))
    {
      var keys := GetAccessKeys(user, cache, now, listFails);
      if keys.Err? || keys.value.0.None? {
        return ZeroTime;
      }
      return TimeValue(keys.value.0.value.created);
    }

    /** RotateSecret: delete the old key when there is one distinct from the
        newest, then create a key and answer its id and secret under
        AccessKeyName and SecretKeyName. The cache is cleared before each
        mutation; any failure answers the empty map. */
    method RotateSecret(user: string, cache: Cache, now: Time, remote: Remote) returns (values: SecretMap, err: Option<IamError>)
      requires cache.table.Some?
      modifies this, cache
      ensures cache.table.Some?
      ensures |old(log)| <= |log|
      ensures ClearedBeforeMutation(log[|old(log)|..])
      ensures forall u | u != user :: KeysOf(u) == old(KeysOf(u))
      ensures Rotated(values, err, KeysOf(user)) ==
        Rotation(Fetched(old(GetCache(cache)), user, old(KeysOf(user)), now, remote.listFails), user, old(KeysOf(user)), now, remote)
      ensures var f := Fetched(old(GetCache(cache)), user, old(KeysOf(user)), now, remote.listFails);
        && log == old(log) + Listing(old(GetCache(cache)).2, user) + RotationCalls(f, user, remote)
        && (f.Ok? ==> !GetCache(cache).2)
        && (f.Err? ==> cache.table == old(cache.table))
      ensures forall k | k != GotKeys :: cache.CacheGet(k) == old(cache.CacheGet(k))
    {
      ghost var log0 := log;
      ghost var before := KeysOf(user);
      var keys := GetAccessKeys(user, cache, now, remote.listFails);
      if keys.Err? {
        return map[], Some(RetrieveFailed(user, keys.error));
      }
      assert before == KeysOf(user);
      values, err := ReplaceKeys(user, cache, now, remote, keys.value, log0);
    }

    /** RotateSecret once getAccessKeys answered `pair`: delete the old key
        when it is not also the newest, then create a key. */
    method ReplaceKeys(user: string, cache: Cache, now: Time, remote: Remote,
                       pair: (Option<AccessKey>, Option<AccessKey>), ghost log0: seq<IamCall>)
      returns (values: SecretMap, err: Option<IamError>)
      requires cache.table.Some?
      requires |log0| <= |log| && ClearedBeforeMutation(log[|log0|..])
      modifies this, cache
      ensures cache.table.Some?
      ensures |log0| <= |log| && ClearedBeforeMutation(log[|log0|..])
      ensures forall u | u != user :: KeysOf(u) == old(KeysOf(u))
      ensures Rotated(values, err, KeysOf(user)) == Rotation(Ok(pair), user, old(KeysOf(user)), now, remote)
      ensures log == old(log) + RotationCalls(Ok(pair), user, remote)
      ensures !GetCache(cache).2
      ensures forall k | k != GotKeys :: cache.CacheGet(k) == old(cache.CacheGet(k))
    {
      var oldKey, newKey := pair.0, pair.1;
      var oak := if oldKey.Some? then oldKey.value.id else "";
      var nak := if newKey.Some? then newKey.value.id else "";
      assert DeletesOld(pair) <==> oldKey.Some? && oak != nak;
      if oldKey.Some? && oak != nak {
        var deleted := DeleteOldKey(user, cache, oak, remote.deleteFails, log0);
        if !deleted {
          return map[], Some(DeleteFailed(user));
        }
      }
      values, err := CreateNewKey(user, cache, now, remote.minted, log0);
    }

    /** RotateSecret's delete step: clear the cache, then delete the old key;
        a failed delete changes no key. */
    method DeleteOldKey(user: string, cache: Cache, oak: string, fails: bool, ghost log0: seq<IamCall>) returns (deleted: bool)
      requires cache.table.Some?
      requires |log0| <= |log| && ClearedBeforeMutation(log[|log0|..])
      modifies this, cache
      ensures cache.table.Some?
      ensures |log0| <= |log| && ClearedBeforeMutation(log[|log0|..])
      ensures deleted == !fails
      ensures KeysOf(user) == if fails then old(KeysOf(user)) else Without(old(KeysOf(user)), oak)
      ensures forall u | u != user :: KeysOf(u) == old(KeysOf(u))
      ensures log == old(log) + [DeleteKey(user, oak, false)]
      ensures !GetCache(cache).2
      ensures forall k | k != GotKeys :: cache.CacheGet(k) == old(cache.CacheGet(k))
    {
      ClearCache(cache);
      ghost var e := DeleteKey(user, oak, GetCache(cache).2);
      ClearedExtend(log0, log, e);
      log := log + [e];
      if fails {
        return false;
      }
      accounts := accounts[user := Without(KeysOf(user), oak)];
      return true;
    }

    /** RotateSecret's create step: clear the cache, then create a key; the
        minted id and secret answer under the two AWS names, and the new key,
        active and dated now, goes last in the user's list. */
    method CreateNewKey(user: string, cache: Cache, now: Time, minted: Option<(string, string)>, ghost log0: seq<IamCall>)
      returns (values: SecretMap, err: Option<IamError>)
      requires cache.table.Some?
      requires |log0| <= |log| && ClearedBeforeMutation(log[|log0|..])
      modifies this, cache
      ensures cache.table.Some?
      ensures |log0| <= |log| && ClearedBeforeMutation(log[|log0|..])
      ensures minted.None? ==> values == map[] && err == Some(CreateFailed(user)) && KeysOf(user) == old(KeysOf(user))
      ensures minted.Some? ==>
        && values == map[AccessKeyName := minted.value.0, SecretKeyName := minted.value.1] && err == None
        && KeysOf(user) == old(KeysOf(user)) + [AccessKey(minted.value.0, Some(now), true)]
      ensures forall u | u != user :: KeysOf(u) == old(KeysOf(u))
      ensures log == old(log) + [CreateKey(user, false)]
      ensures !GetCache(cache).2
      ensures forall k | k != GotKeys :: cache.CacheGet(k) == old(cache.CacheGet(k))
    {
      ClearCache(cache);
      ghost var e := CreateKey(user, GetCache(cache).2);
      ClearedExtend(log0, log, e);
      log := log + [e];
      if minted.None? {
        return map[], Some(CreateFailed(user));
      }
      var accessKey, secretKey := minted.value.0, minted.value.1;
      accounts := accounts[user := KeysOf(user) + [AccessKey(accessKey, Some(now), true)]];
      return map[AccessKeyName := accessKey, SecretKeyName := secretKey], None;
    }

    /** DisableSecret: make the oldest key inactive, clearing the cache
        first. */
    method DisableSecret(user: string, cache: Cache, now: Time, remote: Remote) returns (err: Option<IamError>)
      requires cache.table.Some?
      modifies this, cache
      ensures cache.table.Some?
      ensures |old(log)| <= |log|
      ensures ClearedBeforeMutation(log[|old(log)|..])
      ensures forall u | u != user :: KeysOf(u) == old(KeysOf(u))
      ensures (err, KeysOf(user)) ==
        Disablement(Fetched(old(GetCache(cache)), user, old(KeysOf(user)), now, remote.listFails), user, old(KeysOf(user)), remote)
      ensures var f := Fetched(old(GetCache(cache)), user, old(KeysOf(user)), now, remote.listFails);
        && log == old(log) + Listing(old(GetCache(cache)).2, user) + DisablementCalls(f, user)
        && (f.Ok? && f.value.0.Some? ==> !GetCache(cache).2)
        && (f.Ok? && f.value.0.None? ==> GetCache(cache) == (None, f.value.1, true))
        && (f.Err? ==> cache.table == old(cache.table))
      ensures forall k | k != GotKeys :: cache.CacheGet(k) == old(cache.CacheGet(k))
    {
      var keys := GetAccessKeys(user, cache, now, remote.listFails);
      if keys.Err? {
        return Some(RetrieveFailed(user, keys.error));
      }
      var okey := keys.value.0;
      if okey.None? {
        return Some(NoAccessKey(user));
      }
      ClearCache(cache);
      log := log + [DeactivateKey(user, okey.value.id, GetCache(cache).2)];
      if remote.updateFails {
        return Some(UpdateFailed(user));
      }
      accounts := accounts[user := Deactivated(KeysOf(user), okey.value.id)];
      return None;
    }
  }

  /** What the key cache is for: LastRotated lists the keys and leaves the
      pair cached, so the RotateSecret that follows lists nothing, deletes
      nothing for a single key, creates one key, and leaves the pair
      cleared. */
  method ReadThenRotateListsOnce()
  {
    var cache := new Cache();
    cache.InitCache();
    var key := AccessKey("AKOLD", Some(50), true);
    var client := new Client(map["u" := [key]]);
    SingleDatedKey([key], 100, 0);
    var r := client.LastRotated("u", cache, 100, false);
    assert r == Ok(50);
    assert client.log == [ListKeys("u")];
    assert GetCache(cache) == (Some(key), Some(key), true);
    var values, err := client.RotateSecret("u", cache, 100, Remote(false, false, Some(("AKNEW", "s3cr3t")), false));
    assert err == None && values == map[AccessKeyName := "AKNEW", SecretKeyName := "s3cr3t"];
    assert client.log == [ListKeys("u"), CreateKey("u", false)];
    assert !GetCache(cache).2;
  }
}
