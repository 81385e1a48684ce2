/** The decisions of pkg/rotate/manager.go as functions of what the backends
    answer: whether a secret needs rotating (needsRotation), what one
    rotation does (rotateSecret) and what a whole run does (RotateSecrets).
    Each function also yields the backend calls made, in order. */
module RotateSpec {
  import opened Common
  import opened Capability
  import opened Config
  import opened RotateKeys
  import Plugin

  /** Why findStorage found no storage: the plugin manager failed, or the
      instance it built is not a storage. */
  datatype FindError = PluginError(cause: Plugin.InstanceError) | NotAStorage(client: string)

  /** One call the rotation manager makes: to the rotation client, to the
      plugin manager (findStorage) or to a storage client. */
  datatype Event =
    | LastRotatedCall(secret: string)
    | RotateSecretCall(secret: string)
    | FindStorageCall(client: string)
    | LastSavedCall(client: string, store: string, key: string)
    | SaveKeysCall(client: string, store: string, values: SecretMap)

  /** What checking a stretch of keys or storages found: a copy older than
      the rotation (rotate), an error (do not rotate, for safety), or
      nothing either way (keep looking). */
  datatype Verdict = Behind | Doubt | Current

  datatype Walked = Walked(events: seq<Event>, verdict: Verdict)

  datatype RotateError =
    | RotateFailed(message: string)
    | StorageLoadFailed(client: string, cause: FindError)
    | BatchFailed(inner: RotateError)

  /** The calls made and the error returned. */
  datatype Run = Run(events: seq<Event>, error: Option<RotateError>)

  /** What the manager's decisions depend on: the time, its settings, the
      rotation client and what findStorage yields for each storage client. */
  datatype Env = Env(
    now: Time,
    rotateAfter: int,
    dryRun: bool,
    client: RotationFacet,
    find: map<string, Result<StorageFacet, FindError>>)

  predicate Covers(env: Env, storages: seq<StorageMap>)
  {
    forall i | 0 <= i < |storages| :: storages[i].client in env.find
  }

  predicate CoversAll(env: Env, secrets: seq<Secret>)
  {
    forall i | 0 <= i < |secrets| :: Covers(env, secrets[i].storages)
  }

  /** findStorage as a function of the plugin manager's answer. */
  function Classify(name: string, r: Result<Plugin.InstanceSpec, Plugin.InstanceError>): (f: Result<StorageFacet, FindError>)
    ensures f.Ok? <==> r.Ok? && r.value.storage.Some?
    ensures f.Ok? ==> f.value == r.value.storage.value
    ensures r.Err? ==> f == Err(PluginError(r.error))
    ensures r.Ok? && r.value.storage.None? ==> f == Err(NotAStorage(name))
  {
    match r
    case Err(e) => Err(PluginError(e))
    case Ok(spec) =>
      match spec.storage
      case Some(st) => Ok(st)
      case None => Err(NotAStorage(name))
  }

  /** The rotated secret is older than allowed: time.Since(rotated) >
      rotateAfter, strictly. */
  predicate Overdue(env: Env, rotated: Time)
  {
    env.now - rotated > env.rotateAfter
  }

  /** A key whose stored copy is known and not older than the rotation. */
  predicate KeyCurrent(f: StorageFacet, sm: StorageMap, key: string, rotated: Time)
  {
    f.lastSaved(sm.name, key).Ok? && !(f.lastSaved(sm.name, key).value < rotated)
  }

  /** The inner loop of needsRotation over one storage's key names: the first
      key that is not current decides, an error as Doubt and an older copy as
      Behind. */
  function CheckKeys(f: StorageFacet, sm: StorageMap, keys: seq<string>, rotated: Time): (w: Walked)
    ensures |w.events| <= |keys|
  {
    if |keys| == 0 then Walked([], Current)
    else
      var ev := LastSavedCall(sm.client, sm.name, keys[0]);
      match f.lastSaved(sm.name, keys[0])
      case Err(_) => Walked([ev], Doubt)
      case Ok(saved) =>
        if saved < rotated then Walked([ev], Behind)
        else
          var rest := CheckKeys(f, sm, keys[1..], rotated);
          Walked([ev] + rest.events, rest.verdict)
  }

  /** The key loop asks for the keys in order, up to and including the
      first that is not current, which decides: Doubt when its date cannot be
      read, Behind when it is older than the rotation. */
  lemma {:induction false} CheckKeysSpec(f: StorageFacet, sm: StorageMap, keys: seq<string>, rotated: Time)
    ensures var w := CheckKeys(f, sm, keys, rotated);
      && (forall i | 0 <= i < |w.events| :: w.events[i] == LastSavedCall(sm.client, sm.name, keys[i]))
      && (w.verdict == Current <==> forall i | 0 <= i < |keys| :: KeyCurrent(f, sm, keys[i], rotated))
      && (w.verdict == Current ==> |w.events| == |keys|)
      && (w.verdict != Current ==>
        && |w.events| > 0
        && (forall i | 0 <= i < |w.events| - 1 :: KeyCurrent(f, sm, keys[i], rotated))
        && !KeyCurrent(f, sm, keys[|w.events| - 1], rotated)
        && (w.verdict == Doubt <==> f.lastSaved(sm.name, keys[|w.events| - 1]).Err?))
  {
    if |keys| > 0 && KeyCurrent(f, sm, keys[0], rotated) {
      CheckKeysSpec(f, sm, keys[1..], rotated);
    }
  }

  /** A storage whose plugin is found and all of whose key names are current. */
  predicate StoreCurrent(env: Env, sm: StorageMap, rotated: Time)
    requires sm.client in env.find
  {
    && env.find[sm.client].Ok?
    && forall k | k in Targets(sm.keys) :: KeyCurrent(env.find[sm.client].value, sm, k, rotated)
  }

  /** What the first storage that is not current yields. */
  function StoreVerdict(env: Env, sm: StorageMap, rotated: Time): Verdict
    requires sm.client in env.find
  {
    match env.find[sm.client]
    case Err(_) => Doubt
    case Ok(f) => CheckKeys(f, sm, Targets(sm.keys), rotated).verdict
  }

  /** The outer loop of needsRotation over the storages, in configured order. */
  function Walk(env: Env, storages: seq<StorageMap>, rotated: Time): (w: Walked)
    requires Covers(env, storages)
    ensures w.events == [] <==> storages == []
  {
    if |storages| == 0 then Walked([], Current)
    else
      var sm := storages[0];
      var ev := FindStorageCall(sm.client);
      match env.find[sm.client]
      case Err(_) => Walked([ev], Doubt)
      case Ok(f) =>
        var c := CheckKeys(f, sm, Targets(sm.keys), rotated);
        if c.verdict != Current then Walked([ev] + c.events, c.verdict)
        else
          var rest := Walk(env, storages[1..], rotated);
          Walked([ev] + c.events + rest.events, rest.verdict)
  }

  /** The position of the first storage that is not current, or the number
      of storages when all are. */
  function FirstNotCurrent(env: Env, storages: seq<StorageMap>, rotated: Time): (n: nat)
    requires Covers(env, storages)
    ensures n <= |storages|
    ensures forall j | 0 <= j < n :: StoreCurrent(env, storages[j], rotated)
    ensures n < |storages| ==> !StoreCurrent(env, storages[n], rotated)
  {
    if |storages| == 0 then 0
    else if !StoreCurrent(env, storages[0], rotated) then 0
    else
      var n := FirstNotCurrent(env, storages[1..], rotated);
      assert forall j | 0 <= j < n :: storages[1..][j] == storages[j + 1];
      1 + n
  }

  /** A storage is current exactly when its plugin is found and the key
      check over its target names finds nothing. */
  lemma StoreCurrentByCheck(env: Env, sm: StorageMap, rotated: Time)
    requires sm.client in env.find
    ensures StoreCurrent(env, sm, rotated) <==>
      env.find[sm.client].Ok? && CheckKeys(env.find[sm.client].value, sm, Targets(sm.keys), rotated).verdict == Current
  {
    if env.find[sm.client].Ok? {
      var f := env.find[sm.client].value;
      var keys := Targets(sm.keys);
      CheckKeysSpec(f, sm, keys, rotated);
      assert (forall k | k in keys :: KeyCurrent(f, sm, k, rotated))
        <==> (forall i | 0 <= i < |keys| :: KeyCurrent(f, sm, keys[i], rotated));
    }
  }

  /** needsRotation's storage walk is decided by the first storage that is
      not current, Current when there is none. */
  lemma {:induction false} WalkDecidedByFirst(env: Env, storages: seq<StorageMap>, rotated: Time)
    requires Covers(env, storages)
    ensures var n := FirstNotCurrent(env, storages, rotated);
      Walk(env, storages, rotated).verdict ==
        if n == |storages| then Current else StoreVerdict(env, storages[n], rotated)
  {
    if |storages| > 0 {
      StoreCurrentByCheck(env, storages[0], rotated);
      if StoreCurrent(env, storages[0], rotated) {
        WalkDecidedByFirst(env, storages[1..], rotated);
      }
    }
  }

  /** needsRotation: ask the client when the secret was last rotated; an
      error means no, an overdue rotation means yes, otherwise the storages
      decide. */
  function Decide(env: Env, s: Secret): (w: Walked)
    requires Covers(env, s.storages)
  {
    var ev := LastRotatedCall(s.name);
    match env.client.lastRotated(s.name)
    case Err(_) => Walked([ev], Doubt)
    case Ok(rotated) =>
      if Overdue(env, rotated) then Walked([ev], Behind)
      else
        var w := Walk(env, s.storages, rotated);
        Walked([ev] + w.events, w.verdict)
  }

  /** The save loop of rotateSecret: resolve each storage in order and, unless
      in a dry run, hand it the values renamed for it. The first storage that
      cannot be resolved ends the loop with an error; a failing SaveKeys does
      not. */
  function SaveAll(env: Env, storages: seq<StorageMap>, values: SecretMap): (r: Run)
    requires Covers(env, storages)
  {
    if |storages| == 0 then Run([], None)
    else
      var sm := storages[0];
      var ev := FindStorageCall(sm.client);
      match env.find[sm.client]
      case Err(e) => Run([ev], Some(StorageLoadFailed(sm.client, e)))
      case Ok(f) =>
        var rest := SaveAll(env, storages[1..], values);
        Run([ev] + SaveOf(env, sm, values) + rest.events, rest.error)
  }

  /** The SaveKeys call the save loop makes for a resolved storage: the
      values renamed for it, and no call in a dry run. */
  function SaveOf(env: Env, sm: StorageMap, values: SecretMap): seq<Event>
  {
    if env.dryRun then [] else [SaveKeysCall(sm.client, sm.name, RemapKeys(sm.keys, values))]
  }

  /** rotateSecret: nothing unless rotation is needed; then the client
      rotates (skipped in a dry run, which saves the empty map) and the
      storages are saved. */
  function RotateOne(env: Env, s: Secret): (r: Run)
    requires Covers(env, s.storages)
  {
    var d := Decide(env, s);
    if d.verdict != Behind then Run(d.events, None)
    else if env.dryRun then
      var sv := SaveAll(env, s.storages, map[]);
      Run(d.events + sv.events, sv.error)
    else
      var ev := RotateSecretCall(s.name);
      match env.client.rotateSecret(s.name)
      case Err(e) => Run(d.events + [ev], Some(RotateFailed(e)))
      case Ok(values) =>
        var sv := SaveAll(env, s.storages, values);
        Run(d.events + [ev] + sv.events, sv.error)
  }

  /** RotateSecrets: each secret in order; the first error is returned
      wrapped and the later secrets are not looked at. */
  function RotateAll(env: Env, secrets: seq<Secret>): (r: Run)
    requires CoversAll(env, secrets)
  {
    if |secrets| == 0 then Run([], None)
    else
      var one := RotateOne(env, secrets[0]);
      if one.error.Some? then Run(one.events, Some(BatchFailed(one.error.value)))
      else
        assert forall i | 0 <= i < |secrets| - 1 :: secrets[1..][i] == secrets[i + 1];
        var rest := RotateAll(env, secrets[1..]);
        Run(one.events + rest.events, rest.error)
  }
}
