/** The key renaming of pkg/rotate/manager.go (remapKeys) and the order in
    which needsRotation walks a storage's key names. */
module RotateKeys {
  import opened Common
  import opened Config

  /** keyMap[k]: the target name configured for source key `k`, if any. */
  function Lookup(km: seq<(string, string)>, k: string): (r: Option<string>)
    ensures r.None? <==> forall i | 0 <= i < |km| :: km[i].0 != k
    ensures r.Some? ==> exists i :: 0 <= i < |km| && km[i] == (k, r.value)
    ensures DistinctSources(km) ==> forall i | 0 <= i < |km| && km[i].0 == k :: r == Some(km[i].1)
  {
    if |km| == 0 then None
    else if km[0].0 == k then Some(km[0].1)
    else
      var r := Lookup(km[1..], k);
      assert forall i | 1 <= i < |km| :: km[1..][i-1] == km[i];
      r
  }

  /** The name under which a rotated value for key `k` is stored: the
      configured target, or `k` itself when the key map does not mention it. */
  function Target(km: KeyMap, k: string): string
  {
    match Lookup(km, k)
    case Some(t) => t
    case None => k
  }

  /** The range of a key map in its fixed order: the storage key names
      needsRotation checks. */
  function Targets(km: seq<(string, string)>): (r: seq<string>)
    ensures |r| == |km|
    ensures forall i | 0 <= i < |km| :: r[i] == km[i].1
  {
    if |km| == 0 then [] else [km[0].1] + Targets(km[1..])
  }

  /** Every pair of source keys of `m` that the key map sends to one name
      carries one value: exactly when remapKeys' result does not depend on
      the order in which Go ranges over the map. */
  predicate Unambiguous(km: KeyMap, m: SecretMap)
  {
    forall k1, k2 | k1 in m && k2 in m && Target(km, k1) == Target(km, k2) :: m[k1] == m[k2]
  }

  /** The names of the result. */
  function Renamed(km: KeyMap, m: SecretMap): set<string>
  {
    set k | k in m :: Target(km, k)
  }

  /** The first entry of the key map that renames a key of `m` to `t`. */
  function FirstSource(km: seq<(string, string)>, m: SecretMap, t: string): (k: string)
    requires exists i :: 0 <= i < |km| && km[i].1 == t && km[i].0 in m
    ensures k in m && exists i :: 0 <= i < |km| && km[i] == (k, t)
  {
    if km[0].1 == t && km[0].0 in m then km[0].0
    else
      TailHasSource(km, m, t);
      var k := FirstSource(km[1..], m, t);
      assert forall i | 0 <= i < |km| - 1 :: km[1..][i] == km[i+1];
      k
  }

  lemma TailHasSource(km: seq<(string, string)>, m: SecretMap, t: string)
    requires exists i :: 0 <= i < |km| && km[i].1 == t && km[i].0 in m
    requires !(km[0].1 == t && km[0].0 in m)
    ensures exists i :: 0 <= i < |km| - 1 && km[1..][i].1 == t && km[1..][i].0 in m
  {
    var i :| 0 <= i < |km| && km[i].1 == t && km[i].0 in m;
    assert km[1..][i-1] == km[i];
  }

  /** The key whose value lands under `t`. Where several keys collide, Go's
      map order decides; the model fixes one such order: a key that passes
      through unrenamed first, then the key map's entries in order. */
  function Source(km: KeyMap, m: SecretMap, t: string): (k: string)
    requires t in Renamed(km, m)
    ensures k in m && Target(km, k) == t
  {
    if t in m && Lookup(km, t).None? then t
    else
      RenamedHasEntry(km, m, t);
      FirstSource(km, m, t)
  }

  /** A name of the result that is not a pass-through key comes from an
      entry of the key map. */
  lemma RenamedHasEntry(km: KeyMap, m: SecretMap, t: string)
    requires t in Renamed(km, m)
    requires !(t in m && Lookup(km, t).None?)
    ensures exists i :: 0 <= i < |km| && km[i].1 == t && km[i].0 in m
  {
    var k0 :| k0 in m && Target(km, k0) == t;
    if Lookup(km, k0).Some? {
      var i :| 0 <= i < |km| && km[i] == (k0, Lookup(km, k0).value);
    }
  }

  /** remapKeys: every key of `m` is stored under its target name, keys the
      key map does not mention under their own name. */
  function RemapKeys(km: KeyMap, m: SecretMap): SecretMap
  {
    map t | t in Renamed(km, m) :: m[Source(km, m, t)]
  }

  /** The remapped map holds exactly the target names of the keys of `m`,
      each with the value of a key that moves there. */
  lemma RemapKeysSpec(km: KeyMap, m: SecretMap)
    ensures var r := RemapKeys(km, m);
      && (forall t :: t in r <==> exists k :: k in m && Target(km, k) == t)
      && (forall t | t in r :: exists k :: k in m && Target(km, k) == t && r[t] == m[k])
  {
  }

  /** A renamed key appears under its target name with its own value (when
      no other key collides with a different value). */
  lemma RemappedKeyMoves(km: KeyMap, m: SecretMap, k: string, t: string)
    requires k in m && Lookup(km, k) == Some(t)
    ensures t in RemapKeys(km, m)
    ensures Unambiguous(km, m) ==> RemapKeys(km, m)[t] == m[k]
  {
    assert Target(km, k) == t;
  }

  /** A renamed key's own name is absent from the result unless some other
      key of `m` is sent to that name. */
  lemma RemappedKeyLeaves(km: KeyMap, m: SecretMap, k: string)
    requires Lookup(km, k).Some? && Lookup(km, k).value != k
    requires forall k2 | k2 in m :: Target(km, k2) != k
    ensures k !in RemapKeys(km, m)
  {
  }

  /** A key the key map does not mention passes through with its value. */
  lemma UnmappedKeyPasses(km: KeyMap, m: SecretMap, k: string)
    requires k in m && Lookup(km, k).None?
    ensures k in RemapKeys(km, m) && RemapKeys(km, m)[k] == m[k]
  {
    assert Target(km, k) == k;
  }

  /** An empty key map renames nothing. */
  lemma EmptyKeyMapIdentity(m: SecretMap)
    ensures RemapKeys([], m) == m
  {
    var r := RemapKeys([], m);
    forall t | t in r
      ensures t in m && r[t] == m[t]
    {
      assert Target([], t) == t;
    }
    forall t | t in m
      ensures t in r
    {
      assert Target([], t) == t;
    }
  }

  /** Renaming never produces more keys than it was given. */
  lemma RemapKeysSize(km: KeyMap, m: SecretMap)
    ensures |RemapKeys(km, m)| <= |m|
  {
    assert RemapKeys(km, m).Keys == Renamed(km, m);
    ImageSize(m.Keys, km);
    assert Renamed(km, m) == set k | k in m.Keys :: Target(km, k);
  }

  lemma {:induction false} ImageSize(s: set<string>, km: KeyMap)
    ensures |set k | k in s :: Target(km, k)| <= |s|
    decreases |s|
  {
    if s != {} {
      var x :| x in s;
      var rest := s - {x};
      ImageSize(rest, km);
      assert (set k | k in s :: Target(km, k)) == (set k | k in rest :: Target(km, k)) + {Target(km, x)};
    }
  }

  /** With the key map alpha -> omega the rotated pair {alpha: one, beta:
      two} is stored as {omega: one, beta: two}, the store contents
      TestHappyRotationStorage expects. */
  lemma MatthewRemap()
    ensures RemapKeys([("alpha", "omega")], map["alpha" := "one", "beta" := "two"]) == map["omega" := "one", "beta" := "two"]
  {
    var km: KeyMap := [("alpha", "omega")];
    var m := map["alpha" := "one", "beta" := "two"];
    MatthewNames(km, m);
    MatthewValues(km, m);
  }

  lemma MatthewTargets(km: KeyMap)
    requires km == [("alpha", "omega")]
    ensures Lookup(km, "alpha") == Some("omega") && Lookup(km, "beta").None?
    ensures Target(km, "alpha") == "omega" && Target(km, "beta") == "beta"
  {
    assert "alpha"[0] != "beta"[0];
  }

  lemma MatthewNames(km: KeyMap, m: SecretMap)
    requires km == [("alpha", "omega")] && m == map["alpha" := "one", "beta" := "two"]
    ensures RemapKeys(km, m).Keys == {"omega", "beta"}
  {
    MatthewTargets(km);
    var r := RemapKeys(km, m);
    assert m.Keys == {"alpha", "beta"};
    assert "omega" in r && "beta" in r;
    forall t | t in r ensures t == "omega" || t == "beta" {
      var k :| k in m.Keys && Target(km, k) == t;
      if k != "alpha" {
        assert k == "beta";
      }
    }
  }

  lemma MatthewValues(km: KeyMap, m: SecretMap)
    requires km == [("alpha", "omega")] && m == map["alpha" := "one", "beta" := "two"]
    requires RemapKeys(km, m).Keys == {"omega", "beta"}
    ensures RemapKeys(km, m) == map["omega" := "one", "beta" := "two"]
  {
    MatthewTargets(km);
    var r := RemapKeys(km, m);
    assert "omega"[0] != "beta"[0] && "omega"[0] != "alpha"[0];
    var k :| k in m && Target(km, k) == "omega" && r["omega"] == m[k];
    assert k == "alpha";
    UnmappedKeyPasses(km, m, "beta");
  }
}
