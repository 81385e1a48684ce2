# aws-github-rotate in Dafny

A Dafny model of the decision engine of aws-github-rotate. The tool rotates
AWS IAM access keys, copies the new key into the places that need it (GitHub
action secrets, CircleCI project environment variables), and disables keys
that have stayed active too long. The model covers:

- **The rotation manager** (`Rotate`, with `RotateSpec`, `RotateLemmas`,
  `RotateKeys` and `RotateScenarios`). `needsRotation`, `rotateSecret` and
  `RotateSecrets` are imperative loops in a `Manager` class. A ghost trace
  records every call the manager makes on the rotation client, the plugin
  manager and the storages. Each method is proved to make exactly the calls,
  and return exactly the answer, of a pure specification function
  (`Decide`, `RotateOne`, `RotateAll`). The stated properties are lemmas
  about those functions: fail-safe "no" on any error, the strict age
  threshold, first-storage-behind-decides, dry-run behaviour, stop-at-first
  error, and what each storage is handed. remapKeys is a map comprehension.
- **The disablement manager** (`Disable`), built the same way.
- **The plugin registry and the lazy instance manager** (`Plugin`). Builders
  are registered per package id. Instances are built on first use, looked
  up by the lower-cased name, memoised under the name as given, and never
  memoised when the build fails.
- **The per-object cache** (`ObjectCache`) and the project key cache
  (`RotateProject`), as classes whose fields are updated in place.
- **The three backends** (`Iam`, `GithubStore`, `CircleEnv`). Their
  examining and caching logic is modelled over abstract remote state: an
  IAM key list per user, a secret list per GitHub repository, and the
  requests sent to CircleCI. Each backend client is a class with a ghost
  log of its remote calls. What a remote call answers is a parameter.
- **Small utilities**: error aggregation (`Errors`), the project name split
  and `ProjectMap` (`Config`), and `findSecretSet` (`Cmd`).

Backend interfaces (rotate.Client, rotate.Storage, disable.Client) become
*facets*: datatypes whose fields are functions giving each call's answer
(`Capability`). A plugin instance is an object holding the facets it
implements, so Go's interface type assertion becomes a test for which facet
is present. Times are integers, `ZeroTime` is `0`, and the current time is
the parameter `now`.

Where the code and its tests disagree, the model follows:
- **the code** for a `LastSaved` error of any kind, `ErrKeyNotFound`
  included: it blocks rotation, as at pkg/rotate/manager.go:123-134. The
  empty-store fixture of TestHappyRotationStorage expects a rotation; see
  `RotateScenarios.EmptyStoreNotRotated`.
- **the code** for a failing secret in `RotateSecrets`: the batch stops, as
  at pkg/rotate/manager.go:270-273.
- **the test** for duplicate registration: it is refused with
  `DuplicateRegistration` (pkg/plugin/builder_test.go:108-118). The code
  overwrites into a map that was never made.
- **the test** for the disablement dry run: it makes no `DisableSecret`
  call (pkg/disable/manager_test.go:71-92). The code never reads `dryRun`.

Several source files do not compile as written:
- pkg/disable/manager.go has split identifiers, `time.Duaration`, and
  undefined `client`, `r`, `s` and `m.DisableSecret`.
- pkg/plugin/github/github.go has `setCacheKeyTime` at line 90,
  `akEncSec` at line 141, and `parts(store.Name())` at line 105.
- pkg/plugin/registry.go calls an undefined `registry.Get` at line 44, and
  at line 46 calls `p.Build(c)` without the context argument that the
  `Builder` interface at line 23 declares.
- pkg/plugin/builder.go:35 calls `Build(ctx, &c)`, passing a context
  where registry.go:43 declares `Build(pkg string, c *config.Client)`.
  `Plugin.Registry.Build` follows the evident intent and builds by the
  client's package.
- pkg/config/config.go calls `p.Cut` at lines 37 and 43, where
  `strings.Cut` is meant and `strings` is not imported. At lines 26-32 it
  fills a `map[string]Project` with `&c.Projects[i]` and returns it as a
  `map[string]*Project`. `Config.Owner`, `Config.Repo` and
  `Config.ProjectMap` follow the evident intent: `strings.Cut` at the
  first "/", and a map of pointers into the list.

The model follows their evident intent: the documented behaviour and the
manager tests.

## Model

| member | source | states |
|---|---|---|
| Errors.NewAggregate | pkg/errors/aggregate.go:13-15 | the aggregate reports exactly the list it was made from |
| Errors.Aggregate.Errors | pkg/errors/aggregate.go:32-34 | returns the stored errors, element by element, in order |
| Errors.Aggregate.Error | pkg/errors/aggregate.go:18-29 | the loop with its `first` flag yields the messages joined by "; " in list order |
| Errors.JoinSmall | pkg/errors/aggregate.go:19-28 | no errors give ""; one error gives its own message with no separator |
| Errors.JoinSnoc | pkg/errors/aggregate.go:21-26 | each further error adds "; " and its message at the end |
| Errors.JoinLength | pkg/errors/aggregate.go:21-26 | for a non-empty list the text is the messages plus one two-character separator fewer than the number of errors |
| Errors.TwoErrors | pkg/errors/aggregate_test.go:11-23 | the aggregate of "one" and "two" keeps both and reads "one; two" |
| ObjectCache.Cache.constructor | pkg/config/cache.go:5-7 | a fresh object has the nil map |
| ObjectCache.Cache.InitCache | pkg/config/cache.go:10-14 | makes an empty map only when there is none; an existing map and its entries are kept |
| ObjectCache.Cache.CacheGet | pkg/config/cache.go:24-27 | (value, true) exactly when the key is stored, Nil included; (Nil, false) otherwise, the nil map included |
| ObjectCache.Cache.CacheSet | pkg/config/cache.go:17-19 | afterwards Get of the key gives (v, true), replacing any earlier value; every other key reads as before |
| ObjectCache.Cache.CacheClear | pkg/config/cache.go:30-32 | afterwards Get of the key misses; every other key reads as before; the nil map stays nil |
| RotateProject.Project.constructor | pkg/rotate/project.go:14-25 | a new project has no key cached and the zero update time |
| RotateProject.Project.TouchGithub | pkg/rotate/project.go:28-30 | sets only the secret's update time, to now |
| RotateProject.Project.ClearAWSKeyCache | pkg/rotate/project.go:33-37 | both keys become nil and the next Get reports ErrNotCached; the update time is kept |
| RotateProject.Project.GetAWSKeyCache | pkg/rotate/project.go:45-51 | the pair exactly when cached, ErrNotCached otherwise |
| RotateProject.Project.SetAWSKeyCache | pkg/rotate/project.go:54-58 | Get then gives (o, n) even when either is nil; the update time is kept |
| Config.Owner | pkg/config/config.go:42-45 | the longest prefix of the name without "/"; the whole name when it has no "/" |
| Config.Repo | pkg/config/config.go:36-39 | "" when the name has no "/"; otherwise Owner + "/" + Repo is the name |
| Config.OwnerRepoSplit | pkg/config/config.go:36-45 | at the first "/" at position i, Owner is the text before i and Repo the text after it |
| Config.OwnerRepoExample | pkg/config/config.go:36-45 | "zostay/garotate" has owner "zostay" and repository "garotate" |
| Config.ProjectMap | pkg/config/config.go:25-33 | one entry per distinct project name, pointing to the last project of that name; never more entries than projects |
| Cmd.FindSecretSet | cmd/common.go:14-22 | the first set whose name equals the argument exactly; the not-found error, carrying the name asked for, exactly when no name matches |
| Cmd.FindSecretSetExample | cmd/common.go:15-21 | of two sets named "Asher" the first is found; "asher" does not match "Asher" |
| Plugin.Registry.constructor | pkg/plugin/registry.go:26 | the registry starts empty |
| Plugin.Registry.Register | pkg/plugin/registry.go:31-33 | adds exactly one entry and keeps the others; an id already present is refused and nothing changes |
| Plugin.Registry.Get | pkg/plugin/registry.go:36-38 | the builder registered for the id, or nothing exactly when the id is unregistered |
| Plugin.Registry.Build | pkg/plugin/registry.go:43-50 | NoPluginFound for an unregistered package; otherwise exactly the builder's instance, newly made, or its error |
| Plugin.Manager.constructor | pkg/plugin/builder.go:17-22 | a new manager has built nothing |
| Plugin.Manager.Instance | pkg/plugin/builder.go:24-43 | a cached name gives the identical instance; a name with no configuration under its lower-cased form gives ConfigNotFound; a build failure is returned wrapped and not cached; a success is cached under the name as given; every name resolves afterwards as it did before |
| Plugin.TestRegistry | pkg/plugin/builder_test.go:30-39 | the two test builders are registered under their two package ids |
| RotateSpec.Classify | pkg/rotate/manager.go:155-169 | findStorage succeeds exactly when the plugin instance is built and is a storage; otherwise the plugin error or "not a storage" |
| RotateSpec.CheckKeys | pkg/rotate/manager.go:122-147 | the key loop makes at most one LastSaved call per target in the key map's list, duplicate targets included: two source keys sent to the same target ask about it twice |
| RotateSpec.CheckKeysSpec | pkg/rotate/manager.go:122-147 | the keys are asked in order up to the first one not current; Current exactly when all are current; otherwise Doubt exactly when that key's LastSaved failed, and Behind when its date is before the rotation |
| RotateSpec.Walk | pkg/rotate/manager.go:110-150 | the storage walk makes a call exactly when there is a storage |
| RotateSpec.FirstNotCurrent | pkg/rotate/manager.go:110-150 | the storages before position n are found and current, and the one at n is not |
| RotateSpec.WalkDecidedByFirst | pkg/rotate/manager.go:110-150 | the walk's verdict is that of the first storage not current, and Current when there is none |
| RotateKeys.Lookup | pkg/rotate/manager.go:180 | the target configured for a key, or nothing exactly when the key map does not mention it |
| RotateKeys.Targets | pkg/rotate/manager.go:122 | the storage key names checked are the key map's targets, in its order |
| RotateKeys.RemapKeysSpec | pkg/rotate/manager.go:174-187 | the result holds exactly the target names of the input's keys, each with the value of a key sent there |
| RotateKeys.RemappedKeyMoves | pkg/rotate/manager.go:180-181 | a renamed key appears under its mapped name, with its own value when no key collides with a different value |
| RotateKeys.RemappedKeyLeaves | pkg/rotate/manager.go:179-185 | a renamed key's original name is absent unless another key is sent there |
| RotateKeys.UnmappedKeyPasses | pkg/rotate/manager.go:182-183 | a key the key map does not mention passes through with its value |
| RotateKeys.EmptyKeyMapIdentity | pkg/rotate/manager.go:174-187 | the empty key map is the identity |
| RotateKeys.RemapKeysSize | pkg/rotate/manager.go:178-186 | the output never has more keys than the input |
| RotateKeys.MatthewRemap | pkg/rotate/manager_test.go:364-372 | alpha -> omega sends {alpha: one, beta: two} to {omega: one, beta: two} |
| Rotate.Manager.constructor | pkg/rotate/manager.go:30-44 | the manager keeps its client, settings, plugins and secrets and has made no call |
| Rotate.Manager.FindStorage | pkg/rotate/manager.go:155-169 | the answer is what the plugin manager's instance for the name classifies as |
| Rotate.Manager.NeedsRotation | pkg/rotate/manager.go:54-151 | true exactly when the specification decides Behind; the calls made are the specification's |
| Rotate.Manager.WalkStorages | pkg/rotate/manager.go:110-150 | the storage loop's verdict and calls are those of the walk specification |
| Rotate.Manager.VisitStorage | pkg/rotate/manager.go:111-146 | one storage of the loop: an unresolved storage ends the walk in doubt with its lookup as the last call; otherwise its key check decides or the walk goes on |
| Rotate.Manager.SaveStorages | pkg/rotate/manager.go:220-248 | the save loop's error and calls are those of the save specification |
| Rotate.Manager.SaveStorage | pkg/rotate/manager.go:221-246 | one storage of the save loop: an unresolved storage ends the loop with StorageLoadFailed; otherwise the renamed values are saved unless in a dry run and the loop goes on whatever SaveKeys answers |
| Rotate.Manager.RotateSecret | pkg/rotate/manager.go:193-251 | rotateSecret's error and calls are those of RotateOne |
| Rotate.Manager.RotateSecrets | pkg/rotate/manager.go:260-277 | the batch's error and calls are those of RotateAll |
| Rotate.CheckStore | pkg/rotate/manager.go:122-147 | the key loop's verdict and calls are those of CheckKeys over the key map's targets |
| RotateLemmas.LastRotatedFailure | pkg/rotate/manager.go:88-96 | a failing LastRotated answers no; rotateSecret then makes no further call and returns no error |
| RotateLemmas.OverdueRotates | pkg/rotate/manager.go:98-108 | strictly more than rotateAfter since the rotation answers yes without consulting a storage |
| RotateLemmas.StoragesDecide | pkg/rotate/manager.go:110-150 | otherwise yes exactly when the first storage not current is Behind; a storage lookup failure there answers no |
| RotateLemmas.NotCurrentDecides | pkg/rotate/manager.go:110-150 | a storage that is not current always answers yes or no |
| RotateLemmas.KeyVerdictAtFirstStale | pkg/rotate/manager.go:122-147 | within a storage, Behind exactly when the first key not current was read with a date strictly before the rotation, Doubt exactly when reading it failed |
| RotateLemmas.DecideMakesNoSaves | pkg/rotate/manager.go:54-151 | deciding never saves and calls the client only for LastRotated |
| RotateLemmas.SaveAllError | pkg/rotate/manager.go:220-226 | the save loop fails exactly when a storage cannot be resolved, with the first such storage's error |
| RotateLemmas.SaveAllResolves | pkg/rotate/manager.go:220-225 | the storages are resolved in order up to and including the first that fails; the client is not called |
| RotateLemmas.SaveAllSaves | pkg/rotate/manager.go:227-238 | each storage resolved before the first failure gets exactly one SaveKeys, carrying the values renamed for it, in order, whatever SaveKeys answers; none in a dry run |
| RotateLemmas.RotateFailureStopsSaving | pkg/rotate/manager.go:207-211 | a failing RotateSecret returns its error before any storage is resolved or saved |
| RotateLemmas.RotateAllSpec | pkg/rotate/manager.go:260-277 | the secrets are rotated in order up to and including the first that fails, whose error is returned wrapped; no error when none fails |
| RotateLemmas.DryRunChangesNothing | pkg/rotate/manager.go:207-246 | a dry run calls neither RotateSecret nor SaveKeys, for any secret |
| RotateLemmas.DryRunOne | pkg/rotate/manager.go:207-246 | a dry run of one secret asks only LastRotated of the client, yet resolves the storages as a real run would |
| RotateScenarios.HappyDryRun | pkg/rotate/manager_test.go:99-124 | the dry run only asks LastRotated for James and John |
| RotateScenarios.SadDryRun | pkg/rotate/manager_test.go:126-151 | failing LastRotated calls rotate nothing and return no error |
| RotateScenarios.HappyRun | pkg/rotate/manager_test.go:153-179 | both overdue secrets are asked and rotated, in order |
| RotateScenarios.FailToRotate | pkg/rotate/manager_test.go:181-208 | the first failed rotation ends the batch with an error |
| RotateScenarios.StaleStoreRotated | pkg/rotate/manager_test.go:298-374 | an older stored copy leads to rotation, and the store is handed {omega: one, beta: two} |
| RotateScenarios.EmptyStoreNotRotated | pkg/rotate/manager_test.go:298-374 | as the code decides it, the empty store's KeyNotFound prevents the rotation |
| RotateScenarios.FreshStoreSkipped | pkg/rotate/manager_test.go:376-451 | a stored copy newer than the rotation leads to no rotation |
| RotateScenarios.MissingStorage | pkg/rotate/manager_test.go:453-488 | an unconfigured storage plugin leads to no rotation and no error |
| RotateScenarios.BrokenStorage | pkg/rotate/manager_test.go:490-533 | a failing LastSaved leads to no rotation and no error |
| RotateScenarios.WrongTypeStorage | pkg/rotate/manager_test.go:535-575 | a plugin that is not a storage leads to no rotation and no error |
| Disable.Manager.constructor | pkg/disable/manager.go:34-46 | the manager keeps its client, settings and secrets and has made no call |
| Disable.Manager.NeedsDisablement | pkg/disable/manager.go:50-78 | true exactly when LastUpdated answers and strictly more than disableAfter has passed; one LastUpdated call |
| Disable.Manager.DisableSecret | pkg/disable/manager.go:82-96 | the error and calls are those of DisableOne |
| Disable.Manager.DisableSecrets | pkg/disable/manager.go:100-112 | always succeeds; the calls are DisableOne's for every secret in order |
| Disable.LastUpdatedFailure | pkg/disable/manager.go:56-64 | a failing LastUpdated disables nothing and reports no error |
| Disable.DisableOneCalls | pkg/disable/manager.go:82-96 | every secret is looked at once, and disabled exactly when stale and the run is not dry |
| Disable.DisableOneError | pkg/disable/manager.go:87-94 | an error exactly when DisableSecret was called and failed, naming the secret and the client and carrying nothing of the underlying error |
| Disable.DisableAllLooksAtAll | pkg/disable/manager.go:100-112 | every secret is looked at, once each, in order |
| Disable.DisableAllDisablesStale | pkg/disable/manager.go:100-112 | exactly the stale secrets are disabled, in order, whatever earlier calls answered; none in a dry run |
| Disable.DryRunOnlyLooks | pkg/disable/manager_test.go:71-92 | a dry run makes only one LastUpdated call per secret, in order |
| Disable.HappyDryRun | pkg/disable/manager_test.go:71-92 | the dry run over James and John only looks |
| Disable.SadDryRun | pkg/disable/manager_test.go:94-115 | failing LastUpdated calls disable nothing |
| Disable.HappyRun | pkg/disable/manager_test.go:117-140 | both stale secrets are disabled; the first failure does not stop the second |
| Iam.ExamineKeys | pkg/plugin/iam/iam.go:206-227 | the single pass keeps the oldest and the newest key, as the scan specifications define them |
| Iam.ScanOldestSpec | pkg/plugin/iam/iam.go:206-227 | the oldest is the earliest dated key strictly before now, the first of equals; nil exactly when no key is dated before now |
| Iam.ScanNewestSpec | pkg/plugin/iam/iam.go:206-227 | the newest is the latest dated key, the first of equals; nil exactly when no key is dated after the zero time |
| Iam.ExtremesUnique | pkg/plugin/iam/iam.go:206-227 | at most one position is the oldest and at most one the newest |
| Iam.SingleDatedKey | pkg/plugin/iam/iam.go:178-181 | with a single dated key, before now, oldest and newest are that key |
| Iam.NoDatedKey | pkg/plugin/iam/iam.go:211-226 | with no dated key both results are nil |
| Iam.GetCache | pkg/plugin/iam/iam.go:39-45 | hits exactly when the cached value is a list of two keys; a miss gives two nils |
| Iam.SetCache | pkg/plugin/iam/iam.go:48-50 | getCache then gives the pair; no other cache key changes |
| Iam.ClearCache | pkg/plugin/iam/iam.go:33-35 | getCache then misses; no other cache key changes |
| Iam.Without | pkg/plugin/iam/iam.go:103-108 | deleting a key removes exactly the keys with that id |
| Iam.Deactivated | pkg/plugin/iam/iam.go:164-170 | setting a key inactive changes only that key's activity |
| Iam.Client.GetAccessKeys | pkg/plugin/iam/iam.go:182-202 | a hit gives the cached pair with no listing; a miss lists once, caches and returns examineKeys' answer; a failed listing is an error |
| Iam.Client.LastRotated | pkg/plugin/iam/iam.go:58-68 | the newest key's date; a lookup failure is passed through; a missing newest key is NoAccessKey; one listing exactly on a cache miss; after a successful lookup the examined pair is cached, after a failed one or a hit the table is unchanged; no other cache entry changes |
| Iam.RotatedAtIsNewest | pkg/plugin/iam/iam.go:58-68 | on a fresh listing, LastRotated answers exactly when a dated key exists, with the latest date |
| Iam.Client.LastUpdated | pkg/plugin/iam/iam.go:135-145 | the oldest key's date; the zero time on a lookup failure or without an oldest key, never an error; one listing exactly on a cache miss; after a successful lookup the examined pair is cached, after a failed one or a hit the table is unchanged; no other cache entry changes |
| Iam.UpdatedAtIsOldest | pkg/plugin/iam/iam.go:135-145 | on a fresh listing, LastUpdated answers the earliest date before now; a failed listing gives the zero time |
| Iam.CorrectedReadersAgree | pkg/plugin/iam/iam.go:58-68 | the corrected readers agree with the code wherever the code does not follow a nil pointer |
| Iam.Client.RotateSecret | pkg/plugin/iam/iam.go:77-132 | the values, error and resulting keys are Rotation's; the calls are the listing on a miss, then the delete of a distinct old key, then the create unless the delete failed, each made with the pair uncached; after a successful lookup the pair is left cleared, after a failed one the table is unchanged; no other cache entry and no other user's keys change |
| Iam.Client.ReplaceKeys | pkg/plugin/iam/iam.go:93-132 | given the looked-up pair, the values, error and resulting keys are Rotation's and the calls are the delete of a distinct old key, then the create unless the delete failed, each made with the pair uncached, which stays cleared; no other cache entry and no other user's keys change |
| Iam.Client.DeleteOldKey | pkg/plugin/iam/iam.go:101-112 | one DeleteKey call made with the pair uncached, which stays cleared; a failed delete changes no key, a successful one removes only the old key from the user's list; no other cache entry changes |
| Iam.Client.CreateNewKey | pkg/plugin/iam/iam.go:114-131 | one CreateKey call made with the pair uncached, which stays cleared; a failed create returns no values and changes no key; otherwise the minted pair answers under the two AWS names and the new active key, dated now, is appended; no other cache entry changes |
| Iam.RotationSpec | pkg/plugin/iam/iam.go:77-132 | an error exactly when the map is empty; success exactly when the lookup works, the delete (if made) works and a key is minted; then exactly the two AWS names with the minted id and secret, and the new key last; no other key invented |
| Iam.SingleKeyKept | pkg/plugin/iam/iam.go:101-112 | when oldest and newest are the same key, nothing is deleted |
| Iam.Client.DisableSecret | pkg/plugin/iam/iam.go:148-176 | the error and resulting keys are Disablement's; the calls are the listing on a miss, then the deactivation of the oldest key when there is one, made with the pair uncached; the pair is then left cleared; without an oldest key it stays cached, after a failed lookup the table is unchanged; no other cache entry and no other user's keys change |
| Iam.DisablementSpec | pkg/plugin/iam/iam.go:148-176 | success exactly when the lookup works, an oldest key exists and the update works; then only the oldest key becomes inactive; on error nothing changes |
| Iam.NoKeysDereferenceNil | pkg/plugin/iam/iam.go:58-68 | a user without keys makes the code as written follow nil in LastRotated, LastUpdated and DisableSecret |
| Iam.FutureKeyDereferencesNil | pkg/plugin/iam/iam.go:135-145 | a single key dated in the future makes LastUpdated as written follow nil while LastRotated answers |
| GithubStore.Parts | pkg/plugin/github/github.go:32-35 | owner and repository rejoin with "/" to the name, the owner has no "/"; with no "/" the pair is (name, "") |
| GithubStore.GetCachedKeyTime | pkg/plugin/github/github.go:44-50 | hits exactly when the value cached under the secret's name is a time; a miss gives the zero time |
| GithubStore.SetCachedKeyTime | pkg/plugin/github/github.go:38-40 | the time is cached under the secret's name and nothing else changes |
| GithubStore.TouchCachedKeyTime | pkg/plugin/github/github.go:54-56 | now is cached under the secret's name and nothing else changes |
| GithubStore.LastMatchSpec | pkg/plugin/github/github.go:88-96 | the zero time exactly for an unlisted name, otherwise the time of the last listed secret of that name |
| GithubStore.ListedSpec | pkg/plugin/github/github.go:88-96 | after the listing loop each listed name's cache entry is its time, and every other entry is as it was |
| GithubStore.Client.LastSaved | pkg/plugin/github/github.go:66-97 | a hit answers the cached time with no remote call; a miss lists once, caches every listed time and answers the key's, the zero time when unlisted; a failed listing answers the zero time, caches nothing and is no error |
| GithubStore.UpsertSpec | pkg/plugin/github/github.go:141-144 | after a write the secret is listed with its new time and value; other names list as before |
| GithubStore.UpsertAllSaved | pkg/plugin/github/github.go:125-147 | every written name lists at now; every other name as before |
| GithubStore.TouchedSpec | pkg/plugin/github/github.go:125-147 | each written name's cache entry is now, every other entry as before |
| GithubStore.FirstFailing | pkg/plugin/github/github.go:141-144 | the writes before position k succeed and the one at k fails |
| GithubStore.Client.SaveKeys | pkg/plugin/github/github.go:100-150 | a public-key or decode failure errors before any write; otherwise each key in order is written and touched until the first failing write, whose error ends the call; other repositories are untouched |
| GithubStore.Client.WriteSecrets | pkg/plugin/github/github.go:125-147 | the loop writes and touches exactly the keys before the first failure and calls the write for it too |
| GithubStore.SavedKeysListNow | pkg/plugin/github/github.go:125-147 | after a save that wrote every key, a listing answers now for each one |
| CircleEnv.GetCachedEnvVars | pkg/plugin/circleci/project/env/circleci.go:38-44 | hits exactly when the cached value is a name set; a miss gives the empty set |
| CircleEnv.SetCachedEnvVars | pkg/plugin/circleci/project/env/circleci.go:32-34 | the set is cached and nothing else changes |
| CircleEnv.Answer | pkg/plugin/circleci/project/env/circleci.go:109-113 | now exactly when the key is a known name, KeyNotFound otherwise |
| CircleEnv.NamesOf | pkg/plugin/circleci/project/env/circleci.go:102-105 | exactly the names of the listed items |
| CircleEnv.FirstRejected | pkg/plugin/circleci/project/env/circleci.go:153-160 | the POSTs before position k succeed with a 2xx status and the one at k does not |
| CircleEnv.Client.LastSaved | pkg/plugin/circleci/project/env/circleci.go:54-114 | a cached set answers with no request; otherwise one listing; a transport error, a status other than 200 or a bad body is an error and caches nothing; on success exactly the listed names are cached and answer |
| CircleEnv.Client.SaveKeys | pkg/plugin/circleci/project/env/circleci.go:118-166 | posts the keys in order up to and including the first failure, whose error is returned; on success the cache holds the prior set plus every key; on failure a cached set holds the keys handled so far, and with no cached set nothing is cached |
| CircleEnv.Client.PostAll | pkg/plugin/circleci/project/env/circleci.go:128-161 | the loop posts up to the first rejected key and adds each handled name to the seen set, written back when it was cached |

## Left out

- Logging, context cancellation and every `logger.*w` call: they do not
  affect the decisions.
- Wall-clock reads (`time.Now`, `time.Since`) are the parameter `now`.
  Times and durations are integers, and `time.Time{}` is `ZeroTime = 0`.
- Go's map iteration order is a fixed order:
  - the key map is an ordered list of pairs;
  - the GitHub and CircleCI `SaveKeys` loops take an `order` parameter
    that enumerates the secret map.
  The model does not capture that each run may see a different order.
- RotateKeys.RemappedKeyMoves: the moved key's value is stated only when no
  other key collides on the same target name with a different value.
  Which one wins a collision depends on Go's map order; the model fixes one
  winner (`RotateKeys.Source`).
- Backend answers are fixed per name for a whole run. A facet cannot answer
  the same call differently the second time. The tests' clients do not
  need that.
- The AWS SDK, GitHub and CircleCI HTTP clients are abstract remote state,
  with the answers of each call as parameters:
  - JSON encoding and decoding, `http.NewRequest` and `json.Marshal`
    failures;
  - CircleCI's `NextPageToken`: only the first page of the listing is read.
- The sodium sealed box and the base64 encoding in the GitHub storage:
  - a stored value is the symbolic `SealedBox(keyId, key, plain)`;
  - public-key decoding is a parameter that may fail.
- GithubStore.Client.LastSaved: the listing is the repository's whole
  secret list. pkg/plugin/github/github.go:77 passes no list options, so
  only the first page is read; a secret beyond it would be answered the
  zero time and not cached. `GithubStore.UpsertAllSaved` and
  `GithubStore.SavedKeysListNow` therefore speak of repositories whose
  secrets fit on that page.
- GithubStore.Client.LastSaved returns a time without an error, because
  the code's error is always nil. A write's `UpdatedAt` on GitHub is
  taken to be `now`.
- CircleEnv.Client.LastSaved: the GET at
  pkg/plugin/circleci/project/env/circleci.go:67-105 reads back the
  project's variables, which earlier POSTs change. The model does not keep
  the project's variables on the remote side: the listing is a `ListAnswer`
  parameter, not tied to the names earlier `SaveKeys` calls posted. Only
  the client's name cache links a save to a later read.
- IAM: a newest key must be dated after the zero time, as in the code.
  Keys without a date are never picked.
- Strings.Lower lower-cases ASCII letters only; Go's `strings.ToLower` also
  folds other Unicode letters.
- `Config.Prepare` (duplicate-name checks and cache initialisation) is not
  part of this model: its implementation is not among the files
  described. The backend methods therefore require an initialised cache,
  where Go would panic on writing the nil map.
- The plugin builder factories (`pkg/plugin/*/builder.go`), the CLI
  (`cmd/root.go`, `cmd/rotate.go`, `cmd/disable.go`, `main.go`) and viper
  configuration loading are out of scope. They only read flags, files and
  environment variables.
- The pre-plugin files pkg/rotate/rotate.go, pkg/rotate/iam/iam.go and
  pkg/rotate/github/github.go are superseded by the manager and the
  plugins and are not modelled.
- The interface-only files (pkg/secret/interface.go,
  pkg/rotate/interface.go, pkg/disable/interface.go, pkg/config/project.go)
  appear only as the facet and datatype declarations.
- Error texts built with `fmt.Errorf` are structured error values; only
  their kind and the names they carry are kept.

## Findings

| source | as written | input that shows it | evidently intended | confidence | as-written member | corrected member |
|---|---|---|---|---|---|---|
| pkg/plugin/iam/iam.go:67 | LastRotated returns `newKey.CreateDate` without checking that a newest key was found | a user with no access keys, or with no dated key (`Iam.NoKeysDereferenceNil`) | report that the user has no access key | not executed | Iam.RotatedAtAsWritten | Iam.Client.LastRotated |
| pkg/plugin/iam/iam.go:144 | LastUpdated returns `oldKey.CreateDate` without checking that an oldest key was found | no keys, or a single key dated after now (`Iam.FutureKeyDereferencesNil`) | the zero time, as for a failed lookup | not executed | Iam.UpdatedAtAsWritten | Iam.Client.LastUpdated |
| pkg/plugin/iam/iam.go:166 | DisableSecret sets `okey.AccessKeyId` inactive without checking that an oldest key was found | a user with no access keys (`Iam.NoKeysDereferenceNil`) | report that there is no key to disable | not executed | Iam.DisableTargetAsWritten | Iam.Client.DisableSecret |
