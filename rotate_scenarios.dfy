/** The runs of pkg/rotate/manager_test.go, worked out on the rotation
    specification. The test client and test storage become facets; the times
    are seconds, with `now` the moment of the run. */
module RotateScenarios {
  import opened Common
  import opened Capability
  import opened Config
  import opened RotateKeys
  import opened RotateSpec
  import opened RotateLemmas
  import Plugin

  /** pastDate of the tests: 2022-04-01T00:00:00Z. */
  const PastDate: Time := 1648771200
  const Hour: int := 3600

  /** The values the test client's RotateSecret mints. */
  const Minted: SecretMap := map["alpha" := "one", "beta" := "two"]

  /** testClient: LastRotated answers `lastRotated` or always fails;
      RotateSecret mints alpha/beta or always fails. */
  function TestClient(lastRotated: Time, failLastRotated: bool, failRotate: bool): RotationFacet
  {
    RotationFacet(
      "test",
      (name: string) => if failLastRotated then Err("last updated bad stuff") else Ok(lastRotated),
      (name: string) => if failRotate then Err("rotate bad stuff") else Ok(Minted))
  }

  /** testStorage holding the (store, key) pairs `held`, all saved at
      `lastSaved`, or failing every LastSaved. */
  function TestStorage(held: set<(string, string)>, lastSaved: Time, failLastSaved: bool): StorageFacet
  {
    StorageFacet(
      "test storage",
      (store: string, key: string) =>
        if failLastSaved then Err(StoreFailed("last saved bad stuff"))
        else if (store, key) in held then Ok(lastSaved)
        else Err(KeyNotFound),
      (store: string, values: SecretMap) => None)
  }

  function Bare(name: string): Secret
  {
    Secret(name, [])
  }

  /** The one storage mapping of the storage tests: alpha is kept as omega. */
  function OmegaStore(name: string): StorageMap
  {
    StorageMap("test", name, [("alpha", "omega")])
  }

  lemma OmegaTargets(sm: StorageMap)
    requires sm.keys == [("alpha", "omega")]
    ensures Targets(sm.keys) == ["omega"]
  {
  }

  /** TestHappyManagerDryRun: in a dry run an overdue secret is only looked
      at; the failing RotateSecret is never called. */
  lemma HappyDryRun(now: Time)
    requires now > PastDate
    ensures var env := Env(now, 0, true, TestClient(PastDate, false, true), map[]);
      RotateAll(env, [Bare("James"), Bare("John")]) ==
        Run([LastRotatedCall("James"), LastRotatedCall("John")], None)
  {
    var env := Env(now, 0, true, TestClient(PastDate, false, true), map[]);
    assert [Bare("James"), Bare("John")][1..] == [Bare("John")];
    assert RotateOne(env, Bare("James")) == Run([LastRotatedCall("James")], None);
    assert RotateOne(env, Bare("John")) == Run([LastRotatedCall("John")], None);
    assert [Bare("John")][1..] == [];
    assert RotateAll(env, [Bare("John")]) == Run([LastRotatedCall("John")], None);
  }

  /** TestSadManagerDryRun: a failing LastRotated means no rotation and no
      error. */
  lemma SadDryRun(now: Time)
    ensures var env := Env(now, 0, true, TestClient(PastDate, true, false), map[]);
      RotateAll(env, [Bare("Andrew"), Bare("Peter")]) ==
        Run([LastRotatedCall("Andrew"), LastRotatedCall("Peter")], None)
  {
    var env := Env(now, 0, true, TestClient(PastDate, true, false), map[]);
    assert [Bare("Andrew"), Bare("Peter")][1..] == [Bare("Peter")];
    assert RotateOne(env, Bare("Andrew")) == Run([LastRotatedCall("Andrew")], None);
    assert RotateOne(env, Bare("Peter")) == Run([LastRotatedCall("Peter")], None);
    assert [Bare("Peter")][1..] == [];
    assert RotateAll(env, [Bare("Peter")]) == Run([LastRotatedCall("Peter")], None);
  }

  /** TestHappyManager: both overdue secrets are rotated. */
  lemma HappyRun(now: Time)
    requires now > PastDate
    ensures var env := Env(now, 0, false, TestClient(PastDate, false, false), map[]);
      RotateAll(env, [Bare("Philip"), Bare("Bartholomew")]) ==
        Run([LastRotatedCall("Philip"), RotateSecretCall("Philip"),
             LastRotatedCall("Bartholomew"), RotateSecretCall("Bartholomew")], None)
  {
    var env := Env(now, 0, false, TestClient(PastDate, false, false), map[]);
    assert [Bare("Philip"), Bare("Bartholomew")][1..] == [Bare("Bartholomew")];
    assert RotateOne(env, Bare("Philip")) == Run([LastRotatedCall("Philip"), RotateSecretCall("Philip")], None);
    assert RotateOne(env, Bare("Bartholomew")) == Run([LastRotatedCall("Bartholomew"), RotateSecretCall("Bartholomew")], None);
    assert [Bare("Bartholomew")][1..] == [];
    assert RotateAll(env, [Bare("Bartholomew")]) == Run([LastRotatedCall("Bartholomew"), RotateSecretCall("Bartholomew")], None);
  }

  /** TestSadManagerFailToRotate: the first failed rotation ends the batch
      with an error, so Bartholomew is never looked at. */
  lemma FailToRotate(now: Time)
    requires now > PastDate
    ensures var env := Env(now, 0, false, TestClient(PastDate, false, true), map[]);
      RotateAll(env, [Bare("Philip"), Bare("Bartholomew")]) ==
        Run([LastRotatedCall("Philip"), RotateSecretCall("Philip")],
            Some(BatchFailed(RotateFailed("rotate bad stuff"))))
  {
  }

  /** The environment of the storage tests: rotated twelve hours ago, a
      rotation window of a day, and the plugin named "test" resolved to `r`. */
  function StorageEnv(now: Time, r: Result<Plugin.InstanceSpec, Plugin.InstanceError>): Env
  {
    Env(now, 24 * Hour, false, TestClient(now - 12 * Hour, false, false), map["test" := Classify("test", r)])
  }

  function StorageSpec(f: StorageFacet): Plugin.InstanceSpec
  {
    Plugin.InstanceSpec("test", Some(f), None, None)
  }

  /** TestHappyRotationStorage, second fixture: the stored omega predates the
      last rotation, so the secret is rotated and the store is handed alpha
      renamed to omega, and beta as itself. */
  lemma StaleStoreRotated(now: Time)
    ensures var env := StorageEnv(now, Ok(StorageSpec(TestStorage({("Matthew", "omega")}, PastDate, false))));
      RotateAll(env, [Secret("Matthew", [OmegaStore("Matthew")])]) ==
        Run([LastRotatedCall("Matthew"), FindStorageCall("test"), LastSavedCall("test", "Matthew", "omega"),
             RotateSecretCall("Matthew"), FindStorageCall("test"),
             SaveKeysCall("test", "Matthew", map["omega" := "one", "beta" := "two"])], None)
    requires now - 12 * Hour > PastDate
  {
    var env := StorageEnv(now, Ok(StorageSpec(TestStorage({("Matthew", "omega")}, PastDate, false))));
    var s := Secret("Matthew", [OmegaStore("Matthew")]);
    StaleStoreDecided(now);
    StaleStoreSaved(now);
    assert env.client.rotateSecret("Matthew") == Ok(Minted);
    assert RotateOne(env, s).error == None;
    assert [s][1..] == [];
  }

  /** The stale fixture's walk: one LastSaved for omega, older than the
      rotation. */
  lemma StaleStoreDecided(now: Time)
    requires now - 12 * Hour > PastDate
    ensures var env := StorageEnv(now, Ok(StorageSpec(TestStorage({("Matthew", "omega")}, PastDate, false))));
      Decide(env, Secret("Matthew", [OmegaStore("Matthew")])) ==
        Walked([LastRotatedCall("Matthew"), FindStorageCall("test"), LastSavedCall("test", "Matthew", "omega")], Behind)
  {
    var env := StorageEnv(now, Ok(StorageSpec(TestStorage({("Matthew", "omega")}, PastDate, false))));
    var sm := OmegaStore("Matthew");
    OmegaTargets(sm);
    var f := env.find["test"].value;
    var checked := [LastSavedCall("test", "Matthew", "omega")];
    assert CheckKeys(f, sm, ["omega"], now - 12 * Hour) == Walked(checked, Behind);
    assert Walk(env, [sm], now - 12 * Hour) == Walked([FindStorageCall("test")] + checked, Behind);
  }

  /** The stale fixture's save: the minted values renamed for the store. */
  lemma StaleStoreSaved(now: Time)
    ensures var env := StorageEnv(now, Ok(StorageSpec(TestStorage({("Matthew", "omega")}, PastDate, false))));
      SaveAll(env, [OmegaStore("Matthew")], Minted) ==
        Run([FindStorageCall("test"), SaveKeysCall("test", "Matthew", map["omega" := "one", "beta" := "two"])], None)
  {
    MatthewRemap();
  }

  /** TestHappyRotationStorage, first fixture, as the code decides it: the
      empty store answers KeyNotFound for omega, which the storage walk
      treats like any other LastSaved error, so nothing is rotated or saved. */
  lemma EmptyStoreNotRotated(now: Time, future: Time)
    ensures var env := StorageEnv(now, Ok(StorageSpec(TestStorage({}, future, false))));
      RotateAll(env, [Secret("Matthew", [OmegaStore("Matthew")])]) ==
        Run([LastRotatedCall("Matthew"), FindStorageCall("test"), LastSavedCall("test", "Matthew", "omega")], None)
  {
  }

  /** TestHappyRotationStorageSkipping: the stored omega is newer than the
      last rotation, so nothing is rotated or saved. */
  lemma FreshStoreSkipped(now: Time, future: Time)
    requires future > now - 12 * Hour
    ensures var env := StorageEnv(now, Ok(StorageSpec(TestStorage({("Matthew", "omega"), ("Matthew", "beta")}, future, false))));
      RotateAll(env, [Secret("Matthew", [OmegaStore("Matthew")])]) ==
        Run([LastRotatedCall("Matthew"), FindStorageCall("test"), LastSavedCall("test", "Matthew", "omega")], None)
  {
    var env := StorageEnv(now, Ok(StorageSpec(TestStorage({("Matthew", "omega"), ("Matthew", "beta")}, future, false))));
    var sm := OmegaStore("Matthew");
    OmegaTargets(sm);
    var f := env.find["test"].value;
    assert CheckKeys(f, sm, ["omega"], now - 12 * Hour) == Walked([LastSavedCall("test", "Matthew", "omega")], Current);
    assert Walk(env, [sm], now - 12 * Hour) == Walked([FindStorageCall("test"), LastSavedCall("test", "Matthew", "omega")], Current);
  }

  /** TestSadRotationMissingStorage: no plugin "test" is configured; the
      secret is not rotated and no error is returned. */
  lemma MissingStorage(now: Time)
    ensures var env := StorageEnv(now, Err(Plugin.ConfigNotFound("test")));
      RotateAll(env, [Secret("Thomas", [OmegaStore("Thomas")])]) ==
        Run([LastRotatedCall("Thomas"), FindStorageCall("test")], None)
  {
  }

  /** TestSadRotationBrokenStorage: LastSaved fails; the secret is not
      rotated and no error is returned. */
  lemma BrokenStorage(now: Time, future: Time)
    ensures var env := StorageEnv(now, Ok(StorageSpec(TestStorage({}, future, true))));
      RotateAll(env, [Secret("Thomas", [OmegaStore("Thomas")])]) ==
        Run([LastRotatedCall("Thomas"), FindStorageCall("test"), LastSavedCall("test", "Thomas", "omega")], None)
  {
  }

  /** TestSadRotationStorageWrongType: "test" builds a rotation client, not a
      storage; the secret is not rotated and no error is returned. */
  lemma WrongTypeStorage(now: Time, rc: RotationFacet)
    ensures var env := StorageEnv(now, Ok(Plugin.InstanceSpec("test", None, Some(rc), None)));
      RotateAll(env, [Secret("Thomas", [OmegaStore("Thomas")])]) ==
        Run([LastRotatedCall("Thomas"), FindStorageCall("test")], None)
  {
  }
}
