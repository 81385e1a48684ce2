/** cmd/common.go: looking a secret set up by name in the configuration. */
module Cmd {
  import opened Common
  import opened Config

  /** The error for a missing set, naming the set that was asked for. */
  datatype FindError = NoSecretSet(name: string)

  /** findSecretSet: the position of the first secret set whose name equals
      `name` exactly (standing for the pointer into the configuration's list),
      or an error naming the set when there is none. */
  function FindSecretSet(sets: seq<SecretSet>, name: string): (r: Result<nat, FindError>)
    ensures r.Ok? ==> r.value < |sets| && sets[r.value].name == name
    ensures r.Ok? ==> forall j | 0 <= j < r.value :: sets[j].name != name
    ensures r.Err? <==> forall j | 0 <= j < |sets| :: sets[j].name != name
    ensures r.Err? ==> r.error == NoSecretSet(name)
  {
    if |sets| == 0 then Err(NoSecretSet(name))
    else if sets[0].name == name then Ok(0)
    else
      match FindSecretSet(sets[1..], name)
      case Ok(i) => Ok(i + 1)
      case Err(e) => Err(e)
  }

  /** Names are compared exactly: a set named "Asher" is not found as
      "asher", and with two sets of one name the first is returned. */
  lemma FindSecretSetExample()
    ensures FindSecretSet([SecretSet("Asher", []), SecretSet("Asher", [Secret("Reuben", [])])], "Asher") == Ok(0)
    ensures FindSecretSet([SecretSet("Asher", [])], "asher").Err?
  {
    assert "Asher"[0] != "asher"[0];
  }
}
