/** pkg/disable/manager.go: the disablement manager. The decisions are
    functions of what the disablement client answers; the Manager class makes
    the same calls in loops and is proved to agree with them. */
module Disable {
  import opened Common
  import opened Capability
  import opened Config

  /** A call made on the disablement client. */
  datatype Event =
    | LastUpdatedCall(secret: string)
    | DisableSecretCall(secret: string)

  /** The error disableSecret reports when DisableSecret fails: the secret
      and the client's name. DisableSecret's own error is neither wrapped
      nor printed. */
  datatype DisableError = DisableFailed(secret: string, client: string)

  datatype Run = Run(events: seq<Event>, error: Option<DisableError>)

  datatype Env = Env(now: Time, disableAfter: int, dryRun: bool, client: DisableFacet)

  /** needsDisablement: the client knows when the secret was last updated and
      that is strictly more than disableAfter ago. */
  predicate Stale(env: Env, name: string)
  {
    match env.client.lastUpdated(name)
    case Err(_) => false
    case Ok(updated) => env.now - updated > env.disableAfter
  }

  /** disableSecret: ask for the update time; disable only a stale secret,
      and not in a dry run. A failing DisableSecret is reported. */
  function DisableOne(env: Env, s: Secret): Run
  {
    var look := LastUpdatedCall(s.name);
    if !Stale(env, s.name) || env.dryRun then Run([look], None)
    else
      match env.client.disableSecret(s.name)
      case None => Run([look, DisableSecretCall(s.name)], None)
      case Some(_) => Run([look, DisableSecretCall(s.name)], Some(DisableFailed(s.name, env.client.name)))
  }

  /** DisableSecrets: disableSecret for every secret in order; errors are
      only logged. */
  function DisableAll(env: Env, secrets: seq<Secret>): seq<Event>
  {
    if |secrets| == 0 then []
    else DisableAll(env, secrets[..|secrets| - 1]) + DisableOne(env, secrets[|secrets| - 1]).events
  }

  /** The disablement client as the manager sees it. */
  class Manager {
    const client: DisableFacet
    const disableAfter: int
    const dryRun: bool
    const secrets: seq<Secret>
    /** Every call made on the client so far, in order. */
    ghost var trace: seq<Event>

    /** New: a manager over the given client, settings and secrets, having
        made no call. */
    constructor (rc: DisableFacet, disableAfter: int, dryRun: bool, secrets: seq<Secret>)
      ensures client == rc && this.disableAfter == disableAfter && this.dryRun == dryRun && this.secrets == secrets
      ensures trace == []
    {
      client := rc;
      this.disableAfter := disableAfter;
      this.dryRun := dryRun;
      this.secrets := secrets;
      trace := [];
    }

    /** The environment the specification functions decide in, at `now`. */
    function EnvAt(now: Time): Env
    {
      Env(now, disableAfter, dryRun, client)
    }

    /** needsDisablement for the secret `s`. */
    method NeedsDisablement(s: Secret, now: Time) returns (b: bool)
      modifies this
      ensures b <==> Stale(EnvAt(now), s.name)
      ensures trace == old(trace) + [LastUpdatedCall(s.name)]
    {
      var updated := client.lastUpdated(s.name);
      trace := trace + [LastUpdatedCall(s.name)];
      if updated.Err? {
        return false;
      }
      return now - updated.value > disableAfter;
    }

    /** disableSecret for the secret `s`. */
    method DisableSecret(s: Secret, now: Time) returns (err: Option<DisableError>)
      modifies this
      ensures err == DisableOne(EnvAt(now), s).error
      ensures trace == old(trace) + DisableOne(EnvAt(now), s).events
    {
      var needs := NeedsDisablement(s, now);
      if !needs || dryRun {
        return None;
      }
      var failure := client.disableSecret(s.name);
      trace := trace + [DisableSecretCall(s.name)];
      if failure.Some? {
        return Some(DisableFailed(s.name, client.name));
      }
      return None;
    }

    /** DisableSecrets: every secret in order; a failure is only logged, and
        the answer is always success. */
    method DisableSecrets(now: Time) returns (err: Option<DisableError>)
      modifies this
      ensures err == None
      ensures trace == old(trace) + DisableAll(EnvAt(now), secrets)
    {
      var i := 0;
      assert secrets[..0] == [];
      while i < |secrets|
        invariant 0 <= i <= |secrets|
        invariant trace == old(trace) + DisableAll(EnvAt(now), secrets[..i])
      {
        var failure := DisableSecret(secrets[i], now);
        assert secrets[..i + 1][..i] == secrets[..i];
        i := i + 1;
      }
      assert secrets[..i] == secrets;
      return None;
    }
  }

  /** The calls that look at a secret, in order. */
  function Looks(es: seq<Event>): seq<string>
  {
    if |es| == 0 then []
    else Looks(es[..|es| - 1]) + (if es[|es| - 1].LastUpdatedCall? then [es[|es| - 1].secret] else [])
  }

  /** The calls that disable a secret, in order. */
  function Disables(es: seq<Event>): seq<string>
  {
    if |es| == 0 then []
    else Disables(es[..|es| - 1]) + (if es[|es| - 1].DisableSecretCall? then [es[|es| - 1].secret] else [])
  }

  lemma {:induction false} LooksAppend(a: seq<Event>, b: seq<Event>)
    ensures Looks(a + b) == Looks(a) + Looks(b)
    decreases |b|
  {
    if |b| == 0 {
      assert a + b == a;
    } else {
      assert (a + b)[..|a + b| - 1] == a + b[..|b| - 1];
      LooksAppend(a, b[..|b| - 1]);
    }
  }

  lemma {:induction false} DisablesAppend(a: seq<Event>, b: seq<Event>)
    ensures Disables(a + b) == Disables(a) + Disables(b)
    decreases |b|
  {
    if |b| == 0 {
      assert a + b == a;
    } else {
      assert (a + b)[..|a + b| - 1] == a + b[..|b| - 1];
      DisablesAppend(a, b[..|b| - 1]);
    }
  }

  /** The names of the secrets, in order. */
  function Names(secrets: seq<Secret>): seq<string>
  {
    if |secrets| == 0 then [] else Names(secrets[..|secrets| - 1]) + [secrets[|secrets| - 1].name]
  }

  /** The names of the secrets disableSecret acts on, in order. */
  function StaleNames(env: Env, secrets: seq<Secret>): seq<string>
  {
    if |secrets| == 0 then []
    else
      var last := secrets[|secrets| - 1];
      StaleNames(env, secrets[..|secrets| - 1]) + (if Stale(env, last.name) then [last.name] else [])
  }

  /** A failing LastUpdated means no disablement and no error. */
  lemma LastUpdatedFailure(env: Env, s: Secret)
    requires env.client.lastUpdated(s.name).Err?
    ensures DisableOne(env, s) == Run([LastUpdatedCall(s.name)], None)
  {
  }

  /** disableSecret disables exactly when the secret is stale and the run is
      not dry, and then only after looking at it. */
  lemma DisableOneCalls(env: Env, s: Secret)
    ensures Looks(DisableOne(env, s).events) == [s.name]
    ensures Disables(DisableOne(env, s).events) == if Stale(env, s.name) && !env.dryRun then [s.name] else []
  {
    var look := [LastUpdatedCall(s.name)];
    assert look[..0] == [];
    if Stale(env, s.name) && !env.dryRun {
      var es := look + [DisableSecretCall(s.name)];
      assert DisableOne(env, s).events == es;
      assert es[..1] == look;
      assert Looks(look) == Looks(look[..0]) + [s.name];
      assert Looks(es) == Looks(look) && Disables(look) == [];
    }
  }

  /** disableSecret reports an error exactly when it called DisableSecret and
      that failed. */
  lemma DisableOneError(env: Env, s: Secret)
    ensures DisableOne(env, s).error.Some? <==>
      Stale(env, s.name) && !env.dryRun && env.client.disableSecret(s.name).Some?
    ensures DisableOne(env, s).error.Some? ==>
      DisableOne(env, s).error.value == DisableFailed(s.name, env.client.name)
  {
  }

  /** DisableSecrets looks at every secret, once each, in order. */
  lemma {:induction false} DisableAllLooksAtAll(env: Env, secrets: seq<Secret>)
    ensures Looks(DisableAll(env, secrets)) == Names(secrets)
    decreases |secrets|
  {
    if |secrets| > 0 {
      var init := secrets[..|secrets| - 1];
      var last := secrets[|secrets| - 1];
      DisableAllLooksAtAll(env, init);
      LooksAppend(DisableAll(env, init), DisableOne(env, last).events);
      DisableOneCalls(env, last);
    }
  }

  /** DisableSecrets disables exactly the stale secrets, in order, whatever
      the earlier DisableSecret calls answered; a dry run disables none. */
  lemma {:induction false} DisableAllDisablesStale(env: Env, secrets: seq<Secret>)
    ensures Disables(DisableAll(env, secrets)) == if env.dryRun then [] else StaleNames(env, secrets)
    decreases |secrets|
  {
    if |secrets| > 0 {
      var init := secrets[..|secrets| - 1];
      var last := secrets[|secrets| - 1];
      DisableAllDisablesStale(env, init);
      DisablesAppend(DisableAll(env, init), DisableOne(env, last).events);
      DisableOneCalls(env, last);
    }
  }

  /** In a dry run the only calls are one LastUpdated per secret, in order. */
  lemma {:induction false} DryRunOnlyLooks(env: Env, secrets: seq<Secret>)
    requires env.dryRun
    ensures DisableAll(env, secrets) == seq(|secrets|, i requires 0 <= i < |secrets| => LastUpdatedCall(secrets[i].name))
    decreases |secrets|
  {
    if |secrets| > 0 {
      DryRunOnlyLooks(env, secrets[..|secrets| - 1]);
    }
  }

  /** lastUpdated of pkg/disable/manager_test.go: 2022-04-01T00:00:00Z. */
  const TestUpdated: Time := 1648771200

  /** testClient: LastUpdated answers TestUpdated or always fails;
      DisableSecret succeeds or always fails. */
  function TestClient(failLastUpdated: bool, failDisable: bool): DisableFacet
  {
    DisableFacet(
      "test",
      (name: string) => if failLastUpdated then Err("last updated bad stuff") else Ok(TestUpdated),
      (name: string) => if failDisable then Some("disable bad stuff") else None)
  }

  lemma DisableTwo(env: Env, a: Secret, b: Secret)
    ensures DisableAll(env, [a, b]) == DisableOne(env, a).events + DisableOne(env, b).events
  {
    assert [a, b][..1] == [a] && [a][..0] == [];
    assert DisableAll(env, [a]) == DisableAll(env, []) + DisableOne(env, a).events;
  }

  /** TestHappyManagerDryRun: stale secrets are only looked at. */
  lemma HappyDryRun(now: Time)
    requires now > TestUpdated
    ensures DisableAll(Env(now, 0, true, TestClient(false, true)), [Secret("James", []), Secret("John", [])]) ==
      [LastUpdatedCall("James"), LastUpdatedCall("John")]
  {
    DisableTwo(Env(now, 0, true, TestClient(false, true)), Secret("James", []), Secret("John", []));
  }

  /** TestSadManagerDryRun: failing LastUpdated calls disable nothing. */
  lemma SadDryRun(now: Time)
    ensures DisableAll(Env(now, 0, true, TestClient(true, false)), [Secret("Andrew", []), Secret("Peter", [])]) ==
      [LastUpdatedCall("Andrew"), LastUpdatedCall("Peter")]
  {
    DisableTwo(Env(now, 0, true, TestClient(true, false)), Secret("Andrew", []), Secret("Peter", []));
  }

  /** TestHappyManager: both stale secrets are disabled; the first failing
      DisableSecret does not stop the second. */
  lemma HappyRun(now: Time)
    requires now > TestUpdated
    ensures var env := Env(now, 0, false, TestClient(false, true));
      && DisableAll(env, [Secret("Philip", []), Secret("Bartholomew", [])]) ==
        [LastUpdatedCall("Philip"), DisableSecretCall("Philip"), LastUpdatedCall("Bartholomew"), DisableSecretCall("Bartholomew")]
      && DisableOne(env, Secret("Philip", [])).error.Some?
  {
    DisableTwo(Env(now, 0, false, TestClient(false, true)), Secret("Philip", []), Secret("Bartholomew", []));
  }
}
