/** Properties of the rotation decisions of pkg/rotate/manager.go. */
module RotateLemmas {
  import opened Common
  import opened Capability
  import opened Config
  import opened RotateKeys
  import opened RotateSpec

  /** The calls of a run that reach the rotation client, which is what the
      tests' client records. */
  function ClientCalls(es: seq<Event>): (r: seq<Event>)
    ensures |r| <= |es|
  {
    if |es| == 0 then []
    else (if es[0].LastRotatedCall? || es[0].RotateSecretCall? then [es[0]] else []) + ClientCalls(es[1..])
  }

  /** The SaveKeys calls of a run, in order. */
  function Saves(es: seq<Event>): (r: seq<Event>)
    ensures |r| <= |es|
  {
    if |es| == 0 then []
    else (if es[0].SaveKeysCall? then [es[0]] else []) + Saves(es[1..])
  }

  /** The storage clients findStorage was asked for, in order. */
  function Resolved(es: seq<Event>): (r: seq<string>)
    ensures |r| <= |es|
  {
    if |es| == 0 then []
    else (if es[0].FindStorageCall? then [es[0].client] else []) + Resolved(es[1..])
  }

  lemma {:induction false} ClientCallsAppend(a: seq<Event>, b: seq<Event>)
    ensures ClientCalls(a + b) == ClientCalls(a) + ClientCalls(b)
  {
    if |a| > 0 {
      assert (a + b)[1..] == a[1..] + b;
      ClientCallsAppend(a[1..], b);
    } else {
      assert a + b == b;
    }
  }

  lemma {:induction false} SavesAppend(a: seq<Event>, b: seq<Event>)
    ensures Saves(a + b) == Saves(a) + Saves(b)
  {
    if |a| > 0 {
      assert (a + b)[1..] == a[1..] + b;
      SavesAppend(a[1..], b);
    } else {
      assert a + b == b;
    }
  }

  lemma {:induction false} ResolvedAppend(a: seq<Event>, b: seq<Event>)
    ensures Resolved(a + b) == Resolved(a) + Resolved(b)
  {
    if |a| > 0 {
      assert (a + b)[1..] == a[1..] + b;
      ResolvedAppend(a[1..], b);
    } else {
      assert a + b == b;
    }
  }

  /** The storage clients of a list of storage mappings. */
  function Clients(storages: seq<StorageMap>): (r: seq<string>)
    ensures |r| == |storages|
    ensures forall i | 0 <= i < |storages| :: r[i] == storages[i].client
  {
    if |storages| == 0 then [] else [storages[0].client] + Clients(storages[1..])
  }

  /** The SaveKeys calls that saving `values` to each storage in turn makes. */
  function SaveCalls(storages: seq<StorageMap>, values: SecretMap): (r: seq<Event>)
    ensures |r| == |storages|
  {
    if |storages| == 0 then []
    else
      [SaveKeysCall(storages[0].client, storages[0].name, RemapKeys(storages[0].keys, values))]
        + SaveCalls(storages[1..], values)
  }

  /** The position of the first storage findStorage cannot resolve, or the
      number of storages when it resolves them all. */
  function FirstUnresolved(env: Env, storages: seq<StorageMap>): (n: nat)
    requires Covers(env, storages)
    ensures n <= |storages|
    ensures forall j | 0 <= j < n :: env.find[storages[j].client].Ok?
    ensures n < |storages| ==> env.find[storages[n].client].Err?
  {
    if |storages| == 0 then 0
    else if env.find[storages[0].client].Err? then 0
    else
      var n := FirstUnresolved(env, storages[1..]);
      assert forall j | 0 <= j < n :: storages[1..][j] == storages[j + 1];
      1 + n
  }

  /** The save loop ends with an error exactly when some storage cannot be
      resolved, and then with the first such storage's error. */
  lemma {:induction false} SaveAllError(env: Env, storages: seq<StorageMap>, values: SecretMap)
    requires Covers(env, storages)
    ensures var n := FirstUnresolved(env, storages);
      var r := SaveAll(env, storages, values);
      && (r.error.None? <==> n == |storages|)
      && (n < |storages| ==> r.error == Some(StorageLoadFailed(storages[n].client, env.find[storages[n].client].error)))
  {
    if |storages| > 0 && env.find[storages[0].client].Ok? {
      SaveAllError(env, storages[1..], values);
    }
  }

  /** The prefix of the storages that the save loop gets through: up to and
      including the first it cannot resolve. */
  function Reached(env: Env, storages: seq<StorageMap>): (r: seq<StorageMap>)
    requires Covers(env, storages)
    ensures r <= storages
  {
    var n := FirstUnresolved(env, storages);
    storages[..if n < |storages| then n + 1 else n]
  }

  /** One step of the save loop: a storage lookup, then at most one SaveKeys
      call, then the rest. */
  lemma SaveStep(ev: Event, save: seq<Event>, rest: seq<Event>)
    requires ev.FindStorageCall?
    requires save == [] || (|save| == 1 && save[0].SaveKeysCall?)
    ensures Resolved([ev] + save + rest) == [ev.client] + Resolved(rest)
    ensures ClientCalls([ev] + save + rest) == ClientCalls(rest)
    ensures Saves([ev] + save + rest) == save + Saves(rest)
  {
    var tail := save + rest;
    assert [ev] + save + rest == [ev] + tail;
    assert ([ev] + tail)[1..] == tail;
    if save != [] {
      assert tail[1..] == rest;
    } else {
      assert tail == rest;
    }
  }

  /** The save loop at a first storage that resolves: its lookup, its
      SaveKeys call and the loop over the rest. */
  lemma SaveAllHead(env: Env, storages: seq<StorageMap>, values: SecretMap)
    requires Covers(env, storages) && |storages| > 0
    requires env.find[storages[0].client].Ok?
    ensures Covers(env, storages[1..])
    ensures SaveAll(env, storages, values).events ==
      [FindStorageCall(storages[0].client)] + SaveOf(env, storages[0], values) + SaveAll(env, storages[1..], values).events
  {
    assert forall j | 0 <= j < |storages| - 1 :: storages[1..][j] == storages[j + 1];
  }

  /** Past a first storage that resolves, the loop reaches one storage
      fewer, and resolves one fewer before its first failure. */
  lemma ReachedHead(env: Env, storages: seq<StorageMap>)
    requires Covers(env, storages) && |storages| > 0
    requires env.find[storages[0].client].Ok?
    ensures Covers(env, storages[1..])
    ensures Reached(env, storages) == [storages[0]] + Reached(env, storages[1..])
    ensures storages[..FirstUnresolved(env, storages)] ==
      [storages[0]] + storages[1..][..FirstUnresolved(env, storages[1..])]
  {
    var tail := storages[1..];
    assert forall j | 0 <= j < |storages| - 1 :: tail[j] == storages[j + 1];
    var m := FirstUnresolved(env, tail);
    assert FirstUnresolved(env, storages) == 1 + m;
    PrefixCons(storages, if m < |tail| then m + 1 else m);
    PrefixCons(storages, m);
  }

  /** A prefix of r + 1 elements is the first element before a prefix of r
      elements of the rest. */
  lemma PrefixCons<T>(s: seq<T>, r: nat)
    requires r < |s|
    ensures s[..r + 1] == [s[0]] + s[1..][..r]
  {
    assert forall j | 0 <= j < r :: s[1..][..r][j] == s[j + 1];
  }

  /** The save loop resolves the storages in order, up to and including the
      first it cannot resolve, and calls nothing on the rotation client. */
  lemma {:induction false} SaveAllResolves(env: Env, storages: seq<StorageMap>, values: SecretMap)
    requires Covers(env, storages)
    ensures Resolved(SaveAll(env, storages, values).events) == Clients(Reached(env, storages))
    ensures ClientCalls(SaveAll(env, storages, values).events) == []
  {
    if |storages| > 0 {
      var sm := storages[0];
      var ev := FindStorageCall(sm.client);
      if env.find[sm.client].Ok? {
        SaveAllHead(env, storages, values);
        ReachedHead(env, storages);
        SaveAllResolves(env, storages[1..], values);
        SaveStep(ev, SaveOf(env, sm, values), SaveAll(env, storages[1..], values).events);
      } else {
        assert Resolved([ev]) == [sm.client] && ClientCalls([ev]) == [];
        assert Reached(env, storages) == [sm];
      }
    }
  }

  /** Each storage resolved before the first failure gets exactly one
      SaveKeys call, carrying the values renamed for it, in order; no call at
      all in a dry run. What SaveKeys answers never stops the loop. */
  lemma {:induction false} SaveAllSaves(env: Env, storages: seq<StorageMap>, values: SecretMap)
    requires Covers(env, storages)
    ensures Saves(SaveAll(env, storages, values).events) ==
      if env.dryRun then [] else SaveCalls(storages[..FirstUnresolved(env, storages)], values)
  {
    if |storages| > 0 {
      var sm := storages[0];
      var ev := FindStorageCall(sm.client);
      if env.find[sm.client].Ok? {
        SaveAllHead(env, storages, values);
        ReachedHead(env, storages);
        SaveAllSaves(env, storages[1..], values);
        SaveStep(ev, SaveOf(env, sm, values), SaveAll(env, storages[1..], values).events);
      } else {
        assert Saves([ev]) == [];
        assert storages[..FirstUnresolved(env, storages)] == [];
      }
    }
  }

  /** If the client cannot say when the secret was last rotated, the answer is
      no, and rotateSecret makes no further call: no RotateSecret, no storage
      lookup, no SaveKeys, no error. */
  lemma LastRotatedFailure(env: Env, s: Secret)
    requires Covers(env, s.storages)
    requires env.client.lastRotated(s.name).Err?
    ensures Decide(env, s) == Walked([LastRotatedCall(s.name)], Doubt)
    ensures RotateOne(env, s) == Run([LastRotatedCall(s.name)], None)
  {
  }

  /** An overdue rotation (strictly more than rotateAfter ago) is needed
      without consulting any storage. */
  lemma OverdueRotates(env: Env, s: Secret, rotated: Time)
    requires Covers(env, s.storages)
    requires env.client.lastRotated(s.name) == Ok(rotated)
    requires env.now - rotated > env.rotateAfter
    ensures Decide(env, s) == Walked([LastRotatedCall(s.name)], Behind)
  {
  }

  /** Otherwise the storages decide, in configured order: the first storage
      that is not current gives the answer (a lookup failure as no, and
      within it the first key whose stored date cannot be read as no or is
      before the rotation as yes); when all are current the answer is no. */
  lemma StoragesDecide(env: Env, s: Secret, rotated: Time)
    requires Covers(env, s.storages)
    requires env.client.lastRotated(s.name) == Ok(rotated)
    requires env.now - rotated <= env.rotateAfter
    ensures var n := FirstNotCurrent(env, s.storages, rotated);
      && Decide(env, s).events == [LastRotatedCall(s.name)] + Walk(env, s.storages, rotated).events
      && (Decide(env, s).verdict == Behind <==>
           n < |s.storages| && StoreVerdict(env, s.storages[n], rotated) == Behind)
      && (n < |s.storages| && env.find[s.storages[n].client].Err? ==> Decide(env, s).verdict == Doubt)
  {
    WalkDecidedByFirst(env, s.storages, rotated);
  }

  /** A storage that is not current never leaves the question open: its
      verdict is a yes (Behind) or a no (Doubt). */
  lemma NotCurrentDecides(env: Env, sm: StorageMap, rotated: Time)
    requires sm.client in env.find
    requires !StoreCurrent(env, sm, rotated)
    ensures StoreVerdict(env, sm, rotated) != Current
  {
    StoreCurrentByCheck(env, sm, rotated);
  }

  /** The position of the first key that is not current, or the number of
      keys when all are. */
  function FirstStaleKey(f: StorageFacet, sm: StorageMap, keys: seq<string>, rotated: Time): (n: nat)
    ensures n <= |keys|
    ensures forall j | 0 <= j < n :: KeyCurrent(f, sm, keys[j], rotated)
    ensures n < |keys| ==> !KeyCurrent(f, sm, keys[n], rotated)
  {
    if |keys| == 0 then 0
    else if !KeyCurrent(f, sm, keys[0], rotated) then 0
    else
      var n := FirstStaleKey(f, sm, keys[1..], rotated);
      assert forall j | 0 <= j < n :: keys[1..][j] == keys[j + 1];
      1 + n
  }

  /** Behind for a found storage means that its first key that is not
      current was read successfully with a date strictly before the
      rotation; Doubt means that reading it failed. */
  lemma KeyVerdictAtFirstStale(env: Env, sm: StorageMap, rotated: Time)
    requires sm.client in env.find && env.find[sm.client].Ok?
    ensures var f := env.find[sm.client].value;
      var keys := Targets(sm.keys);
      var n := FirstStaleKey(f, sm, keys, rotated);
      && (StoreVerdict(env, sm, rotated) == Current <==> n == |keys|)
      && (StoreVerdict(env, sm, rotated) == Behind <==>
            n < |keys| && f.lastSaved(sm.name, keys[n]).Ok? && f.lastSaved(sm.name, keys[n]).value < rotated)
      && (StoreVerdict(env, sm, rotated) == Doubt <==> n < |keys| && f.lastSaved(sm.name, keys[n]).Err?)
  {
    var f := env.find[sm.client].value;
    var keys := Targets(sm.keys);
    var c := CheckKeys(f, sm, keys, rotated);
    CheckKeysSpec(f, sm, keys, rotated);
    var n := FirstStaleKey(f, sm, keys, rotated);
    assert StoreVerdict(env, sm, rotated) == c.verdict;
    if c.verdict == Current {
      FirstStaleAt(f, sm, keys, rotated, |keys|);
    } else {
      var e := |c.events| - 1;
      FirstStaleAt(f, sm, keys, rotated, e);
      assert !KeyCurrent(f, sm, keys[n], rotated);
      if c.verdict == Doubt {
        assert f.lastSaved(sm.name, keys[n]).Err?;
      } else {
        assert c.verdict == Behind && f.lastSaved(sm.name, keys[n]).Ok?;
      }
    }
  }

  /** Any position with only current keys before it that is the end or a
      key not current is the first stale key. */
  lemma {:induction false} FirstStaleAt(f: StorageFacet, sm: StorageMap, keys: seq<string>, rotated: Time, e: nat)
    requires e <= |keys|
    requires forall i | 0 <= i < e :: KeyCurrent(f, sm, keys[i], rotated)
    requires e < |keys| ==> !KeyCurrent(f, sm, keys[e], rotated)
    ensures FirstStaleKey(f, sm, keys, rotated) == e
  {
    if e > 0 {
      assert KeyCurrent(f, sm, keys[0], rotated);
      assert forall i | 0 <= i < e - 1 :: keys[1..][i] == keys[i + 1];
      FirstStaleAt(f, sm, keys[1..], rotated, e - 1);
    }
  }

  /** A failing RotateSecret ends rotateSecret with its error before any
      storage is resolved or saved. */
  lemma RotateFailureStopsSaving(env: Env, s: Secret, message: string)
    requires Covers(env, s.storages)
    requires Decide(env, s).verdict == Behind && !env.dryRun
    requires env.client.rotateSecret(s.name) == Err(message)
    ensures RotateOne(env, s) == Run(Decide(env, s).events + [RotateSecretCall(s.name)], Some(RotateFailed(message)))
    ensures Saves(RotateOne(env, s).events) == []
  {
    DecideMakesNoSaves(env, s);
    SavesAppend(Decide(env, s).events, [RotateSecretCall(s.name)]);
  }

  /** The decision itself never saves and calls the client only once. */
  lemma DecideMakesNoSaves(env: Env, s: Secret)
    requires Covers(env, s.storages)
    ensures Saves(Decide(env, s).events) == []
    ensures ClientCalls(Decide(env, s).events) == [LastRotatedCall(s.name)]
  {
    var ev := LastRotatedCall(s.name);
    assert Saves([ev]) == [] && ClientCalls([ev]) == [ev];
    if env.client.lastRotated(s.name).Ok? && !Overdue(env, env.client.lastRotated(s.name).value) {
      var w := Walk(env, s.storages, env.client.lastRotated(s.name).value);
      WalkMakesNoSaves(env, s.storages, env.client.lastRotated(s.name).value);
      SavesAppend([ev], w.events);
      ClientCallsAppend([ev], w.events);
    }
  }

  lemma {:induction false} WalkMakesNoSaves(env: Env, storages: seq<StorageMap>, rotated: Time)
    requires Covers(env, storages)
    ensures Saves(Walk(env, storages, rotated).events) == []
    ensures ClientCalls(Walk(env, storages, rotated).events) == []
  {
    if |storages| > 0 {
      var sm := storages[0];
      var ev := FindStorageCall(sm.client);
      assert Saves([ev]) == [] && ClientCalls([ev]) == [];
      if env.find[sm.client].Ok? {
        var c := CheckKeys(env.find[sm.client].value, sm, Targets(sm.keys), rotated);
        CheckKeysSpec(env.find[sm.client].value, sm, Targets(sm.keys), rotated);
        KeyChecksMakeNoSaves(c.events);
        SavesAppend([ev], c.events);
        ClientCallsAppend([ev], c.events);
        if c.verdict == Current {
          var rest := Walk(env, storages[1..], rotated);
          WalkMakesNoSaves(env, storages[1..], rotated);
          SavesAppend([ev] + c.events, rest.events);
          ClientCallsAppend([ev] + c.events, rest.events);
        }
      }
    }
  }

  lemma {:induction false} KeyChecksMakeNoSaves(es: seq<Event>)
    requires forall i | 0 <= i < |es| :: es[i].LastSavedCall?
    ensures Saves(es) == [] && ClientCalls(es) == []
  {
    if |es| > 0 {
      KeyChecksMakeNoSaves(es[1..]);
    }
  }

  /** The position of the first secret whose rotation fails, or the number of
      secrets when none does. */
  function FirstFailing(env: Env, secrets: seq<Secret>): (n: nat)
    requires CoversAll(env, secrets)
    ensures n <= |secrets|
    ensures forall j | 0 <= j < n :: RotateOne(env, secrets[j]).error.None?
    ensures n < |secrets| ==> RotateOne(env, secrets[n]).error.Some?
  {
    if |secrets| == 0 then 0
    else if RotateOne(env, secrets[0]).error.Some? then 0
    else
      assert CoversAll(env, secrets[1..]) by {
        assert forall j | 0 <= j < |secrets| - 1 :: secrets[1..][j] == secrets[j + 1];
      }
      var n := FirstFailing(env, secrets[1..]);
      assert forall j | 0 <= j < n :: secrets[1..][j] == secrets[j + 1];
      1 + n
  }

  /** The calls made by rotating each secret in turn. */
  function Concat(env: Env, secrets: seq<Secret>): seq<Event>
    requires CoversAll(env, secrets)
  {
    if |secrets| == 0 then []
    else
      assert CoversAll(env, secrets[1..]) by {
        assert forall j | 0 <= j < |secrets| - 1 :: secrets[1..][j] == secrets[j + 1];
      }
      RotateOne(env, secrets[0]).events + Concat(env, secrets[1..])
  }

  /** RotateSecrets rotates the secrets in configured order up to and
      including the first that fails, whose error it returns wrapped; no
      error when none fails. */
  lemma {:induction false} RotateAllSpec(env: Env, secrets: seq<Secret>)
    requires CoversAll(env, secrets)
    ensures var n := FirstFailing(env, secrets);
      && RotateAll(env, secrets).events == Concat(env, secrets[..if n < |secrets| then n + 1 else n])
      && (RotateAll(env, secrets).error.None? <==> n == |secrets|)
      && (n < |secrets| ==> RotateAll(env, secrets).error == Some(BatchFailed(RotateOne(env, secrets[n]).error.value)))
  {
    if |secrets| > 0 {
      var one := RotateOne(env, secrets[0]);
      if one.error.Some? {
        ConcatHead(env, secrets, 0);
        assert Concat(env, secrets[1..][..0]) == [];
      } else {
        var tail := secrets[1..];
        assert CoversAll(env, tail) by {
          assert forall j | 0 <= j < |secrets| - 1 :: tail[j] == secrets[j + 1];
        }
        RotateAllSpec(env, tail);
        var m := FirstFailing(env, tail);
        assert FirstFailing(env, secrets) == 1 + m;
        var k := if m < |tail| then m + 1 else m;
        assert RotateAll(env, secrets).events == one.events + RotateAll(env, tail).events;
        ConcatHead(env, secrets, k);
      }
    }
  }

  /** Concat over a prefix of k + 1 secrets: the first secret's calls, then
      those of the next k. */
  lemma ConcatHead(env: Env, secrets: seq<Secret>, k: nat)
    requires CoversAll(env, secrets) && k < |secrets|
    ensures CoversAll(env, secrets[1..])
    ensures Concat(env, secrets[..k + 1]) == RotateOne(env, secrets[0]).events + Concat(env, secrets[1..][..k])
  {
    assert forall j | 0 <= j < |secrets| - 1 :: secrets[1..][j] == secrets[j + 1];
    assert secrets[..k + 1][0] == secrets[0];
    assert secrets[..k + 1][1..] == secrets[1..][..k];
  }

  /** A dry run never calls RotateSecret or SaveKeys, for any secret. */
  lemma {:induction false} DryRunChangesNothing(env: Env, secrets: seq<Secret>)
    requires CoversAll(env, secrets) && env.dryRun
    ensures Saves(RotateAll(env, secrets).events) == []
    ensures forall e | e in ClientCalls(RotateAll(env, secrets).events) :: e.LastRotatedCall?
  {
    if |secrets| > 0 {
      assert CoversAll(env, secrets[1..]) by {
        assert forall j | 0 <= j < |secrets| - 1 :: secrets[1..][j] == secrets[j + 1];
      }
      var s := secrets[0];
      var one := RotateOne(env, s);
      DryRunOne(env, s);
      if one.error.None? {
        DryRunChangesNothing(env, secrets[1..]);
        SavesAppend(one.events, RotateAll(env, secrets[1..]).events);
        ClientCallsAppend(one.events, RotateAll(env, secrets[1..]).events);
      }
    }
  }

  /** In a dry run rotateSecret asks only LastRotated of the client and saves
      nothing, yet resolves the storages as a real run would. */
  lemma DryRunOne(env: Env, s: Secret)
    requires Covers(env, s.storages) && env.dryRun
    ensures Saves(RotateOne(env, s).events) == []
    ensures ClientCalls(RotateOne(env, s).events) == [LastRotatedCall(s.name)]
    ensures Decide(env, s).verdict == Behind ==>
      Resolved(RotateOne(env, s).events) == Resolved(Decide(env, s).events) + Clients(Reached(env, s.storages))
  {
    DecideMakesNoSaves(env, s);
    var d := Decide(env, s);
    if d.verdict == Behind {
      var sv := SaveAll(env, s.storages, map[]);
      SaveAllSaves(env, s.storages, map[]);
      SaveAllResolves(env, s.storages, map[]);
      SavesAppend(d.events, sv.events);
      ClientCallsAppend(d.events, sv.events);
      ResolvedAppend(d.events, sv.events);
    }
  }
}
