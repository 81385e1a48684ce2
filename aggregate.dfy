/** pkg/errors/aggregate.go: a list of errors reported as one. */
module Errors {

  /** An error value; only its message is observable. */
  datatype Failure = Failure(message: string)

  /** The messages of `errs` joined by "; " in list order. */
  function Join(errs: seq<Failure>): string {
    if |errs| == 0 then ""
    else if |errs| == 1 then errs[0].message
    else Join(errs[..|errs| - 1]) + "; " + errs[|errs| - 1].message
  }

  function TotalLength(errs: seq<Failure>): nat {
    if errs == [] then 0 else TotalLength(errs[..|errs| - 1]) + |errs[|errs| - 1].message|
  }

  datatype Aggregate = Aggregate(errlist: seq<Failure>) {

    /** Errors: the list exactly as it was given. */
    function Errors(): (r: seq<Failure>)
      ensures |r| == |errlist| && forall i :: 0 <= i < |r| ==> r[i] == errlist[i]
    {
      errlist
    }

    /** Error: writes the messages one after the other, with "; " before every
        message but the first. */
    method Error() returns (msg: string)
      ensures msg == Join(errlist)
    {
      msg := "";
      var first := true;
      var i := 0;
      while i < |errlist|
        invariant 0 <= i <= |errlist|
        invariant first <==> i == 0
        invariant msg == Join(errlist[..i])
      {
        if !first {
          msg := msg + "; ";
        }
        assert errlist[..i + 1][..i] == errlist[..i];
        msg := msg + errlist[i].message;
        first := false;
        i := i + 1;
      }
      assert errlist[..i] == errlist;
    }
  }

  /** NewAggregate keeps the list it is given. */
  function NewAggregate(errlist: seq<Failure>): (a: Aggregate)
    ensures a.Errors() == errlist
  {
    Aggregate(errlist)
  }

  /** No errors give the empty message; one error gives its own message. */
  lemma JoinSmall(e: Failure)
    ensures Join([]) == ""
    ensures Join([e]) == e.message
  {
  }

  /** Appending an error to a non-empty list appends "; " and its message. */
  lemma JoinSnoc(errs: seq<Failure>, e: Failure)
    requires errs != []
    ensures Join(errs + [e]) == Join(errs) + "; " + e.message
  {
    assert (errs + [e])[..|errs|] == errs;
  }

  /** The joined text is the messages plus two characters for each of the
      |errs| - 1 separators. */
  lemma {:induction false} JoinLength(errs: seq<Failure>)
    requires errs != []
    ensures |Join(errs)| == TotalLength(errs) + 2 * (|errs| - 1)
  {
    if |errs| > 1 {
      JoinLength(errs[..|errs| - 1]);
    } else {
      assert errs[..0] == [];
    }
  }

  /** The message of the error the aggregate test builds. */
  lemma TwoErrors()
    ensures NewAggregate([Failure("one"), Failure("two")]).errlist == [Failure("one"), Failure("two")]
    ensures Join([Failure("one"), Failure("two")]) == "one; two"
  {
    assert [Failure("one"), Failure("two")][..1] == [Failure("one")];
  }
}
