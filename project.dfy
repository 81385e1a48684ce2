/** pkg/rotate/project.go: a configured project with the time its GitHub
    secret was last updated and a cache of its oldest and newest IAM keys. */
module RotateProject {
  import opened Common
  import Config

  /** ErrNotCached: GetAWSKeyCache before the keys were cached. */
  datatype KeyCacheError = ErrNotCached

  class Project {
    const config: Config.Project
    var secretUpdatedAt: Time
    var oldestKey: Option<AccessKey>
    var newestKey: Option<AccessKey>
    var keysCached: bool

    /** A project as constructed from its configuration: no key cached and
        the zero update time. */
    constructor (config: Config.Project)
      ensures this.config == config
      ensures secretUpdatedAt == ZeroTime
      ensures oldestKey == None && newestKey == None && !keysCached
    {
      this.config := config;
      secretUpdatedAt := ZeroTime;
      oldestKey := None;
      newestKey := None;
      keysCached := false;
    }

    /** TouchGithub: the secret was just written, at `now`. */
    method TouchGithub(now: Time)
      modifies this
      ensures secretUpdatedAt == now
      ensures oldestKey == old(oldestKey) && newestKey == old(newestKey) && keysCached == old(keysCached)
    {
      secretUpdatedAt := now;
    }

    /** ClearAWSKeyCache: forget both keys. */
    method ClearAWSKeyCache()
      modifies this
      ensures oldestKey == None && newestKey == None && !keysCached
      ensures GetAWSKeyCache() == Err(ErrNotCached)
      ensures secretUpdatedAt == old(secretUpdatedAt)
    {
      oldestKey := None;
      newestKey := None;
      keysCached := false;
    }

    /** GetAWSKeyCache: the cached pair once SetAWSKeyCache has run (either
        key may be absent), ErrNotCached otherwise. */
    function GetAWSKeyCache(): (r: Result<(Option<AccessKey>, Option<AccessKey>), KeyCacheError>)
      reads this
      ensures r.Ok? <==> keysCached
      ensures r.Ok? ==> r.value == (oldestKey, newestKey)
    {
      if keysCached then Ok((oldestKey, newestKey)) else Err(ErrNotCached)
    }

    /** SetAWSKeyCache: cache the pair, absent keys included. */
    method SetAWSKeyCache(o: Option<AccessKey>, n: Option<AccessKey>)
      modifies this
      ensures GetAWSKeyCache() == Ok((o, n))
      ensures oldestKey == o && newestKey == n && keysCached
      ensures secretUpdatedAt == old(secretUpdatedAt)
    {
      oldestKey := o;
      newestKey := n;
      keysCached := true;
    }
  }

  /** The key cache's life cycle: not cached when new, the pair (even with
      both keys absent) after a set, not cached after a clear, and the secret
      update time untouched throughout until TouchGithub. */
  method KeyCacheScenario(cfg: Config.Project, k: AccessKey, now: Time)
  {
    var p := new Project(cfg);
    assert p.GetAWSKeyCache() == Err(ErrNotCached);
    p.SetAWSKeyCache(None, None);
    assert p.GetAWSKeyCache() == Ok((None, None));
    p.SetAWSKeyCache(Some(k), None);
    assert p.GetAWSKeyCache() == Ok((Some(k), None));
    p.ClearAWSKeyCache();
    assert p.GetAWSKeyCache() == Err(ErrNotCached);
    assert p.secretUpdatedAt == ZeroTime;
    p.TouchGithub(now);
    assert p.secretUpdatedAt == now && p.GetAWSKeyCache() == Err(ErrNotCached);
  }
}
