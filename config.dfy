/** pkg/config: the configured projects and the secret sets the managers walk.
    Secret, StorageMap, KeyMap and SecretSet are declared by the configuration
    package outside the modelled files; their shape here follows their uses in
    pkg/rotate/manager.go, pkg/config/config_test.go and cmd/common.go. */
module Config {
  import opened Common
  import Strings

  /** config.Project: a repository name "owner/repo" with its IAM user and
      the credentials used for it. */
  datatype Project = Project(name: string, user: string, accessKey: string, secretKey: string)

  /** Owner: the part of the name before the first "/", the whole name when
      there is none. */
  function Owner(p: Project): (r: string)
    ensures '/' !in r
    ensures r <= p.name
    ensures |r| < |p.name| ==> p.name[|r|] == '/'
    ensures '/' !in p.name ==> r == p.name
  {
    Strings.Cut(p.name, '/').0
  }

  /** Repo: the part of the name after the first "/", empty when there is
      none. */
  function Repo(p: Project): (r: string)
    ensures '/' !in p.name ==> r == ""
    ensures '/' in p.name ==> p.name == Owner(p) + "/" + r
  {
    Strings.Cut(p.name, '/').1
  }

  /** Owner and Repo split the name at its first "/": the owner is the longest
      slash-free prefix, and the two rejoin to the name. */
  lemma OwnerRepoSplit(p: Project, i: nat)
    requires i < |p.name| && p.name[i] == '/' && '/' !in p.name[..i]
    ensures Owner(p) == p.name[..i]
    ensures Repo(p) == p.name[i+1..]
  {
    var o := Owner(p);
    assert o == p.name[..i];
    assert p.name == o + "/" + Repo(p);
    assert Repo(p) == p.name[i+1..];
  }

  /** "zostay/garotate" splits into its owner and repository. */
  lemma OwnerRepoExample()
    ensures Owner(Project("zostay/garotate", "u", "", "")) == "zostay"
    ensures Repo(Project("zostay/garotate", "u", "", "")) == "garotate"
  {
    var p := Project("zostay/garotate", "u", "", "");
    assert p.name[6] == '/';
    assert '/' !in p.name[..6] by {
      assert p.name[..6] == "zostay";
    }
    OwnerRepoSplit(p, 6);
    assert p.name[..6] == "zostay";
    assert p.name[7..] == "garotate";
  }

  /** The names the projects carry. */
  function Names(projects: seq<Project>): (r: set<string>)
    ensures forall i | 0 <= i < |projects| :: projects[i].name in r
    ensures forall n | n in r :: exists i :: 0 <= i < |projects| && projects[i].name == n
  {
    set i | 0 <= i < |projects| :: projects[i].name
  }

  /** pm maps each name among the first i projects to the last of those
      positions carrying it. */
  predicate LastPositions(projects: seq<Project>, i: nat, pm: map<string, nat>)
    requires i <= |projects|
  {
    && pm.Keys == Names(projects[..i])
    && (forall n | n in pm :: pm[n] < i && projects[pm[n]].name == n)
    && (forall n, j | n in pm && pm[n] < j < i :: projects[j].name != n)
  }

  /** ProjectMap: each name mapped to the position of the last project
      carrying it, standing for the pointer &c.Projects[i] into the list. */
  method ProjectMap(projects: seq<Project>) returns (pm: map<string, nat>)
    ensures pm.Keys == Names(projects)
    ensures forall n | n in pm :: pm[n] < |projects| && projects[pm[n]].name == n
    ensures forall n, j | n in pm && pm[n] < j < |projects| :: projects[j].name != n
    ensures |pm| <= |projects|
  {
    pm := map[];
    for i := 0 to |projects|
      invariant LastPositions(projects, i, pm)
      invariant |pm| <= i
    {
      MapUpdateSize(pm, projects[i].name, i);
      LastPositionsStep(projects, i, pm);
      pm := pm[projects[i].name := i];
    }
    assert projects[..|projects|] == projects;
  }

  lemma LastPositionsStep(projects: seq<Project>, i: nat, pm: map<string, nat>)
    requires i < |projects| && LastPositions(projects, i, pm)
    ensures LastPositions(projects, i + 1, pm[projects[i].name := i])
  {
    NamesSnoc(projects, i);
    var name := projects[i].name;
    var pm' := pm[name := i];
    assert pm'.Keys == pm.Keys + {name};
    forall n | n in pm'
      ensures pm'[n] < i + 1 && projects[pm'[n]].name == n
    {
      if n != name {
        assert pm'[n] == pm[n];
      }
    }
    forall n, j | n in pm' && pm'[n] < j < i + 1
      ensures projects[j].name != n
    {
      if n != name {
        assert pm'[n] == pm[n];
      }
    }
  }

  lemma NamesSnoc(projects: seq<Project>, i: nat)
    requires i < |projects|
    ensures Names(projects[..i+1]) == Names(projects[..i]) + {projects[i].name}
  {
    assert projects[..i+1] == projects[..i] + [projects[i]];
    assert projects[..i+1][i] == projects[i];
    forall n | n in Names(projects[..i+1])
      ensures n in Names(projects[..i]) + {projects[i].name}
    {
      var k :| 0 <= k < i + 1 && projects[..i+1][k].name == n;
      if k < i {
        assert projects[..i][k].name == n;
      }
    }
    forall n | n in Names(projects[..i])
      ensures n in Names(projects[..i+1])
    {
      var k :| 0 <= k < i && projects[..i][k].name == n;
      assert projects[..i+1][k].name == n;
    }
  }

  /** Adding one key grows a map by at most one entry. */
  lemma MapUpdateSize<K, V>(m: map<K, V>, k: K, v: V)
    ensures |m[k := v]| <= |m| + 1
  {
    if k in m {
      assert m[k := v].Keys == m.Keys;
    } else {
      assert m[k := v].Keys == m.Keys + {k};
    }
  }

  /** config.KeyMap: a rename from the rotation client's key names to a
      storage's names. Kept as a list without repeated sources, so that the
      walk over its targets has one fixed order. */
  type KeyMap = km: seq<(string, string)> | DistinctSources(km) witness []

  predicate DistinctSources(km: seq<(string, string)>)
  {
    forall i, j | 0 <= i < j < |km| :: km[i].0 != km[j].0
  }

  /** config.StorageMap: which storage client holds a copy of the secret,
      under which storage name, with which key names. */
  datatype StorageMap = StorageMap(client: string, name: string, keys: KeyMap)

  /** config.Secret: a named secret of the rotation or disablement client and
      the storages that hold copies of it. */
  datatype Secret = Secret(name: string, storages: seq<StorageMap>)

  /** config.SecretSet: a named list of secrets. */
  datatype SecretSet = SecretSet(name: string, secrets: seq<Secret>)
}
