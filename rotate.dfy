/** pkg/rotate/manager.go: the rotation manager. Its methods are the loops of
    the source; each is proved to make exactly the calls, and return exactly
    the answer, of its counterpart in RotateSpec. */
module Rotate {
  import opened Common
  import opened Capability
  import opened Config
  import opened RotateKeys
  import opened RotateSpec
  import Plugin

  /** The storage clients the secrets' storage mappings name. */
  function AllClients(secrets: seq<Secret>): set<string>
  {
    set i, j | 0 <= i < |secrets| && 0 <= j < |secrets[i].storages| :: secrets[i].storages[j].client
  }

  class Manager {
    const plugins: Plugin.Manager
    const client: RotationFacet
    const rotateAfter: int
    const dryRun: bool
    const secrets: seq<Secret>
    /** What findStorage yields for each storage client the secrets name. */
    ghost const find: map<string, Result<StorageFacet, FindError>>
    /** Every call made so far, in order. */
    ghost var trace: seq<Event>

    /** New: a manager over the given client, settings, plugins and secrets,
        having made no call. */
    constructor (rc: RotationFacet, rotateAfter: int, dryRun: bool, plugins: Plugin.Manager, secrets: seq<Secret>)
      ensures client == rc && this.rotateAfter == rotateAfter && this.dryRun == dryRun
      ensures this.plugins == plugins && this.secrets == secrets
      ensures trace == []
      ensures Valid()
    {
      client := rc;
      this.rotateAfter := rotateAfter;
      this.dryRun := dryRun;
      this.plugins := plugins;
      this.secrets := secrets;
      find := map n | n in AllClients(secrets) :: Classify(n, plugins.Resolve(n));
      trace := [];
    }

    /** Valid: `find` is still what findStorage yields for each storage
        client the secrets name (the plugin manager resolves every name as it
        did when this manager was made). */
    ghost predicate Valid()
      reads plugins, plugins.registry
    {
      && find.Keys == AllClients(secrets)
      && forall n | n in find :: find[n] == Classify(n, plugins.Resolve(n))
    }

    /** The environment the specification functions decide in, at time `now`. */
    ghost function Env(now: Time): (e: RotateSpec.Env)
      requires find.Keys == AllClients(secrets)
      ensures CoversAll(e, secrets)
    {
      assert forall i, j | 0 <= i < |secrets| && 0 <= j < |secrets[i].storages| ::
        secrets[i].storages[j].client in AllClients(secrets);
      RotateSpec.Env(now, rotateAfter, dryRun, client, find)
    }

    /** findStorage: the instance the plugin manager yields for `name`, if it
        is a storage. */
    method FindStorage(name: string) returns (r: Result<StorageFacet, FindError>)
      requires Valid() && name in find
      modifies plugins
      ensures Valid()
      ensures r == find[name]
    {
      var inst := plugins.Instance(name);
      assert forall n :: plugins.Resolve(n) == old(plugins.Resolve(n));
      if inst.Err? {
        return Err(PluginError(inst.error));
      }
      match inst.value.spec.storage
      case Some(st) =>
        return Ok(st);
      case None =>
        return Err(NotAStorage(name));
    }

    /** needsRotation for the i-th configured secret. */
    method NeedsRotation(i: nat, now: Time) returns (b: bool)
      requires Valid() && i < |secrets|
      modifies this, plugins
      ensures Valid()
      ensures b <==> Decide(Env(now), secrets[i]).verdict == Behind
      ensures trace == old(trace) + Decide(Env(now), secrets[i]).events
    {
      ghost var env := Env(now);
      var s := secrets[i];
      assert Covers(env, s.storages);
      ghost var ev := LastRotatedCall(s.name);
      var last := client.lastRotated(s.name);
      if last.Err? {
        trace := trace + [ev];
        return false;
      }
      var rotated := last.value;
      if now - rotated > rotateAfter {
        trace := trace + [ev];
        return true;
      }
      var v, calls := WalkStorages(env, s, rotated);
      assert Decide(env, s).events == [ev] + calls;
      trace := trace + ([ev] + calls);
      return v == Behind;
    }

    /** The outer loop of needsRotation: the storages in configured order,
        until one is not current. */
    method WalkStorages(ghost env: RotateSpec.Env, s: Secret, rotated: Time) returns (v: Verdict, ghost calls: seq<Event>)
      requires Valid() && env.find == find
      requires Covers(env, s.storages)
      modifies plugins
      ensures Valid()
      ensures v == Walk(env, s.storages, rotated).verdict
      ensures calls == Walk(env, s.storages, rotated).events
    {
      calls := [];
      var k := 0;
      assert s.storages[k..] == s.storages;
      while k < |s.storages|
        invariant 0 <= k <= |s.storages|
        invariant Valid()
        invariant WalkedSoFar(env, s.storages, k, rotated, calls)
      {
        var c;
        c, calls := VisitStorage(env, s.storages, k, rotated, calls);
        if c != Current {
          return c, calls;
        }
        k := k + 1;
      }
      assert s.storages[k..] == [];
      return Current, calls;
    }

    /** The save loop of rotateSecret: every storage in order is resolved
        and, unless in a dry run, handed the values renamed for it; a failing
        SaveKeys is only logged. */
    method SaveStorages(ghost env: RotateSpec.Env, s: Secret, values: SecretMap) returns (err: Option<RotateError>, ghost calls: seq<Event>)
      requires Valid() && env.find == find && env.dryRun == dryRun
      requires Covers(env, s.storages)
      modifies plugins
      ensures Valid()
      ensures err == SaveAll(env, s.storages, values).error
      ensures calls == SaveAll(env, s.storages, values).events
    {
      calls := [];
      var k := 0;
      assert s.storages[k..] == s.storages;
      while k < |s.storages|
        invariant 0 <= k <= |s.storages|
        invariant Valid()
        invariant SavedSoFar(env, s.storages, k, values, calls)
      {
        var e;
        e, calls := SaveStorage(env, s.storages, k, values, calls);
        if e.Some? {
          return e, calls;
        }
        k := k + 1;
      }
      assert s.storages[k..] == [];
      return None, calls;
    }

    /** One storage of needsRotation's loop: resolve it, then check its
        keys; a storage that cannot be resolved leaves the secret in doubt. */
    method VisitStorage(ghost env: RotateSpec.Env, storages: seq<StorageMap>, k: nat, rotated: Time, ghost evs: seq<Event>)
      returns (v: Verdict, ghost evs': seq<Event>)
      requires Valid() && env.find == find
      requires WalkedSoFar(env, storages, k, rotated, evs) && k < |storages|
      modifies plugins
      ensures Valid()
      ensures v != Current ==> Walk(env, storages, rotated) == Walked(evs', v)
      ensures v == Current ==> WalkedSoFar(env, storages, k + 1, rotated, evs')
    {
      var sm := storages[k];
      var store := FindStorage(sm.client);
      if store.Err? {
        WalkStopsAtMissing(env, storages, k, rotated, evs);
        return Doubt, evs + [FindStorageCall(sm.client)];
      }
      v, evs' := VisitStore(env, storages, k, rotated, evs, store.value);
    }

    /** One storage of rotateSecret's save loop: resolve it and, unless in a
        dry run, save the renamed values; only a failed lookup stops. */
    method SaveStorage(ghost env: RotateSpec.Env, storages: seq<StorageMap>, k: nat, values: SecretMap, ghost evs: seq<Event>)
      returns (err: Option<RotateError>, ghost evs': seq<Event>)
      requires Valid() && env.find == find && env.dryRun == dryRun
      requires SavedSoFar(env, storages, k, values, evs) && k < |storages|
      modifies plugins
      ensures Valid()
      ensures err.Some? ==> SaveAll(env, storages, values) == Run(evs', err)
      ensures err.None? ==> SavedSoFar(env, storages, k + 1, values, evs')
    {
      var sm := storages[k];
      var store := FindStorage(sm.client);
      if store.Err? {
        SaveStopsAtMissing(env, storages, k, values, evs);
        return Some(StorageLoadFailed(sm.client, store.error)), evs + [FindStorageCall(sm.client)];
      }
      var remapped := RemapKeys(sm.keys, values);
      ghost var save: seq<Event> := [];
      if !dryRun {
        var failure := store.value.saveKeys(sm.name, remapped);
        save := [SaveKeysCall(sm.client, sm.name, remapped)];
      }
      SaveAdvances(env, storages, k, values, evs);
      assert save == SaveOf(env, sm, values);
      return None, evs + [FindStorageCall(sm.client)] + save;
    }

    /** rotateSecret for the i-th configured secret. */
    method RotateSecret(i: nat, now: Time) returns (err: Option<RotateError>)
      requires Valid() && i < |secrets|
      modifies this, plugins
      ensures Valid()
      ensures err == RotateOne(Env(now), secrets[i]).error
      ensures trace == old(trace) + RotateOne(Env(now), secrets[i]).events
    {
      ghost var env := Env(now);
      var s := secrets[i];
      assert Covers(env, s.storages);
      var needs := NeedsRotation(i, now);
      if !needs {
        return None;
      }
      ghost var decided := Decide(env, s).events;
      ghost var rot: seq<Event> := [];
      var newSecrets: SecretMap := map[];
      if !dryRun {
        var rotated := client.rotateSecret(s.name);
        rot := [RotateSecretCall(s.name)];
        if rotated.Err? {
          RotateOneFails(env, s);
          trace := trace + rot;
          return Some(RotateFailed(rotated.error));
        }
        newSecrets := rotated.value;
      }
      RotateOneSaves(env, s, newSecrets, decided + rot);
      var e, calls := SaveStorages(env, s, newSecrets);
      SeqAssoc(old(trace), decided, rot + calls);
      SeqAssoc(decided, rot, calls);
      trace := trace + (rot + calls);
      return e;
    }

    /** RotateSecrets: rotateSecret for each secret in order, stopping at the
        first error, which is returned wrapped. */
    method RotateSecrets(now: Time) returns (err: Option<RotateError>)
      requires Valid()
      modifies this, plugins
      ensures Valid()
      ensures err == RotateAll(Env(now), secrets).error
      ensures trace == old(trace) + RotateAll(Env(now), secrets).events
    {
      ghost var env := Env(now);
      ghost var evs: seq<Event> := [];
      var i := 0;
      assert secrets[i..] == secrets;
      while i < |secrets|
        invariant 0 <= i <= |secrets|
        invariant Valid()
        invariant RotatedSoFar(env, secrets, i, evs)
        invariant trace == old(trace) + evs
      {
        var e := RotateSecret(i, now);
        SeqAssoc(old(trace), evs, RotateOne(env, secrets[i]).events);
        RotateAdvances(env, secrets, i, evs);
        if e.Some? {
          return Some(BatchFailed(e.value));
        }
        evs := evs + RotateOne(env, secrets[i]).events;
        i := i + 1;
      }
      assert secrets[i..] == [];
      return None;
    }
  }

  /** The inner loop of needsRotation: the storage's target key names in
      order, until one is not current. The calls made are returned for the
      manager's record. */
  method CheckStore(f: StorageFacet, sm: StorageMap, rotated: Time) returns (v: Verdict, ghost calls: seq<Event>)
    ensures v == CheckKeys(f, sm, Targets(sm.keys), rotated).verdict
    ensures calls == CheckKeys(f, sm, Targets(sm.keys), rotated).events
  {
    var keys := Targets(sm.keys);
    calls := [];
    var j := 0;
    while j < |keys|
      invariant 0 <= j <= |keys|
      invariant CheckKeys(f, sm, keys, rotated).events == calls + CheckKeys(f, sm, keys[j..], rotated).events
      invariant CheckKeys(f, sm, keys, rotated).verdict == CheckKeys(f, sm, keys[j..], rotated).verdict
    {
      CheckKeysStep(f, sm, keys, j, rotated);
      ghost var ev := LastSavedCall(sm.client, sm.name, keys[j]);
      var saved := f.lastSaved(sm.name, keys[j]);
      if saved.Err? {
        return Doubt, calls + [ev];
      }
      if saved.value < rotated {
        return Behind, calls + [ev];
      }
      SeqAssoc(calls, [ev], CheckKeys(f, sm, keys[j + 1..], rotated).events);
      calls := calls + [ev];
      j := j + 1;
    }
    return Current, calls;
  }

  /** The key loop at its j-th key: one LastSaved call, which either
      decides or passes on to the keys after it. */
  lemma CheckKeysStep(f: StorageFacet, sm: StorageMap, keys: seq<string>, j: nat, rotated: Time)
    requires j < |keys|
    ensures var ev := LastSavedCall(sm.client, sm.name, keys[j]);
      var w := CheckKeys(f, sm, keys[j..], rotated);
      var rest := CheckKeys(f, sm, keys[j + 1..], rotated);
      var saved := f.lastSaved(sm.name, keys[j]);
      && (saved.Err? ==> w == Walked([ev], Doubt))
      && (saved.Ok? && saved.value < rotated ==> w == Walked([ev], Behind))
      && (saved.Ok? && saved.value >= rotated ==> w == Walked([ev] + rest.events, rest.verdict))
  {
    assert keys[j..][0] == keys[j] && keys[j..][1..] == keys[j + 1..];
  }

  /** One step of the storage walk: the key checks of the k-th storage, which
      findStorage resolved to `f`; this is the found-storage branch of
      Manager.VisitStorage. */
  method VisitStore(ghost env: RotateSpec.Env, storages: seq<StorageMap>, k: nat, rotated: Time, ghost evs: seq<Event>, f: StorageFacet)
    returns (v: Verdict, ghost evs': seq<Event>)
    requires WalkedSoFar(env, storages, k, rotated, evs) && k < |storages|
    requires env.find[storages[k].client] == Ok(f)
    ensures v != Current ==> Walk(env, storages, rotated) == Walked(evs', v)
    ensures v == Current ==> WalkedSoFar(env, storages, k + 1, rotated, evs')
  {
    WalkAdvances(env, storages, k, rotated, evs);
    ghost var ce;
    v, ce := CheckStore(f, storages[k], rotated);
    evs' := evs + [FindStorageCall(storages[k].client)] + ce;
  }

  /** The save loop after k storages, all resolved, made calls evs. */
  ghost predicate SavedSoFar(env: RotateSpec.Env, storages: seq<StorageMap>, k: nat, values: SecretMap, evs: seq<Event>)
  {
    && k <= |storages|
    && Covers(env, storages)
    && SaveAll(env, storages, values).events == evs + SaveAll(env, storages[k..], values).events
    && SaveAll(env, storages, values).error == SaveAll(env, storages[k..], values).error
  }

  lemma SaveStopsAtMissing(env: RotateSpec.Env, storages: seq<StorageMap>, k: nat, values: SecretMap, evs: seq<Event>)
    requires SavedSoFar(env, storages, k, values, evs) && k < |storages|
    requires env.find[storages[k].client].Err?
    ensures SaveAll(env, storages, values) ==
      Run(evs + [FindStorageCall(storages[k].client)], Some(StorageLoadFailed(storages[k].client, env.find[storages[k].client].error)))
  {
    assert storages[k..][0] == storages[k];
  }

  lemma SaveAdvances(env: RotateSpec.Env, storages: seq<StorageMap>, k: nat, values: SecretMap, evs: seq<Event>)
    requires SavedSoFar(env, storages, k, values, evs) && k < |storages|
    requires env.find[storages[k].client].Ok?
    ensures var sm := storages[k];
      SavedSoFar(env, storages, k + 1, values, evs + [FindStorageCall(sm.client)] + SaveOf(env, sm, values))
  {
    var sm := storages[k];
    assert storages[k..][0] == sm && storages[k..][1..] == storages[k + 1..];
  }

  /** The batch after i secrets, none failing, made calls evs. */
  ghost predicate RotatedSoFar(env: RotateSpec.Env, secrets: seq<Secret>, i: nat, evs: seq<Event>)
  {
    && i <= |secrets|
    && CoversAll(env, secrets)
    && RotateAll(env, secrets).events == evs + RotateAll(env, secrets[i..]).events
    && RotateAll(env, secrets).error == RotateAll(env, secrets[i..]).error
  }

  lemma RotateAdvances(env: RotateSpec.Env, secrets: seq<Secret>, i: nat, evs: seq<Event>)
    requires RotatedSoFar(env, secrets, i, evs) && i < |secrets|
    ensures var one := RotateOne(env, secrets[i]);
      && (one.error.Some? ==> RotateAll(env, secrets) == Run(evs + one.events, Some(BatchFailed(one.error.value))))
      && (one.error.None? ==> RotatedSoFar(env, secrets, i + 1, evs + one.events))
  {
    assert secrets[i..][0] == secrets[i] && secrets[i..][1..] == secrets[i + 1..];
  }

  /** rotateSecret, once rotation is needed and the client has answered with
      `values` (the empty map in a dry run), is the save loop after the calls
      `done`. */
  lemma RotateOneSaves(env: RotateSpec.Env, s: Secret, values: SecretMap, done: seq<Event>)
    requires Covers(env, s.storages) && Decide(env, s).verdict == Behind
    requires env.dryRun ==> values == map[] && done == Decide(env, s).events
    requires !env.dryRun ==>
      env.client.rotateSecret(s.name) == Ok(values) && done == Decide(env, s).events + [RotateSecretCall(s.name)]
    ensures RotateOne(env, s) == Run(done + SaveAll(env, s.storages, values).events, SaveAll(env, s.storages, values).error)
  {
  }

  lemma RotateOneFails(env: RotateSpec.Env, s: Secret)
    requires Covers(env, s.storages) && Decide(env, s).verdict == Behind
    requires !env.dryRun && env.client.rotateSecret(s.name).Err?
    ensures RotateOne(env, s) ==
      Run(Decide(env, s).events + [RotateSecretCall(s.name)], Some(RotateFailed(env.client.rotateSecret(s.name).error)))
  {
  }

  /** The storage walk after k storages (all current) made calls evs. */
  ghost predicate WalkedSoFar(env: RotateSpec.Env, storages: seq<StorageMap>, k: nat, rotated: Time, evs: seq<Event>)
  {
    && k <= |storages|
    && Covers(env, storages)
    && Walk(env, storages, rotated).events == evs + Walk(env, storages[k..], rotated).events
    && Walk(env, storages, rotated).verdict == Walk(env, storages[k..], rotated).verdict
  }

  lemma WalkStopsAtMissing(env: RotateSpec.Env, storages: seq<StorageMap>, k: nat, rotated: Time, evs: seq<Event>)
    requires WalkedSoFar(env, storages, k, rotated, evs) && k < |storages|
    requires env.find[storages[k].client].Err?
    ensures Walk(env, storages, rotated) == Walked(evs + [FindStorageCall(storages[k].client)], Doubt)
  {
    assert storages[k..][0] == storages[k];
  }

  lemma WalkAdvances(env: RotateSpec.Env, storages: seq<StorageMap>, k: nat, rotated: Time, evs: seq<Event>)
    requires WalkedSoFar(env, storages, k, rotated, evs) && k < |storages|
    requires env.find[storages[k].client].Ok?
    ensures var sm := storages[k];
      var c := CheckKeys(env.find[sm.client].value, sm, Targets(sm.keys), rotated);
      var evs' := evs + [FindStorageCall(sm.client)] + c.events;
      && (c.verdict != Current ==> Walk(env, storages, rotated) == Walked(evs', c.verdict))
      && (c.verdict == Current ==> WalkedSoFar(env, storages, k + 1, rotated, evs'))
  {
    var sm := storages[k];
    var t := storages[k..];
    assert t[0] == sm && t[1..] == storages[k + 1..];
    var ev := FindStorageCall(sm.client);
    var c := CheckKeys(env.find[sm.client].value, sm, Targets(sm.keys), rotated);
    if c.verdict != Current {
      assert Walk(env, t, rotated) == Walked([ev] + c.events, c.verdict);
      SeqAssoc(evs, [ev], c.events);
    } else {
      var rest := Walk(env, storages[k + 1..], rotated);
      assert Walk(env, t, rotated) == Walked([ev] + c.events + rest.events, rest.verdict);
      SeqAssoc(evs + [ev], c.events, rest.events);
      SeqAssoc(evs, [ev], c.events + rest.events);
      SeqAssoc([ev], c.events, rest.events);
    }
  }

}
