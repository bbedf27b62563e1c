/** Requests to a remote service (IoT, IAM, DynamoDB, S3, ECS) as the scripts and
    Lambdas issue them. The service itself is not modelled: which requests raise
    is a parameter. A block of requests inside one Python `try` stops at the
    first request that raises. */
module Services {

  /** The requests a block issued and whether it ended by raising. */
  datatype Run<T> = Run(issued: seq<T>, raised: bool)

  /** The run of a block that first issued `prefix` without raising. */
  function Prepend<T>(prefix: seq<T>, r: Run<T>): Run<T> {
    Run(prefix + r.issued, r.raised)
  }

  /** Runs `plan` against a service on which exactly the requests in `failing`
      raise: every request up to and including the first that raises. */
  function Attempt<T(==)>(plan: seq<T>, failing: set<T>): (r: Run<T>)
    ensures !r.raised ==> r.issued == plan
    ensures r.raised ==> 0 < |r.issued| <= |plan|
  {
    if plan == [] then Run([], false)
    else if plan[0] in failing then Run([plan[0]], true)
    else
      var rest := Attempt(plan[1..], failing);
      Run([plan[0]] + rest.issued, rest.raised)
  }

  /** A run issues a prefix of its plan, raises exactly when some request of
      the plan fails, and then ends with the first failing request. */
  lemma {:induction false} AttemptFacts<T>(plan: seq<T>, failing: set<T>)
    ensures var r := Attempt(plan, failing);
      && r.issued <= plan
      && (r.raised <==> exists i :: 0 <= i < |plan| && plan[i] in failing)
      && (r.raised ==> r.issued[|r.issued| - 1] in failing)
      && forall i :: 0 <= i < |r.issued| - 1 ==> r.issued[i] !in failing
    decreases |plan|
  {
    if plan != [] && plan[0] !in failing {
      AttemptFacts(plan[1..], failing);
      var rest := Attempt(plan[1..], failing);
      if rest.raised {
        var i :| 0 <= i < |plan[1..]| && plan[1..][i] in failing;
        assert plan[i + 1] in failing;
      }
      if exists i :: 0 <= i < |plan| && plan[i] in failing {
        var i :| 0 <= i < |plan| && plan[i] in failing;
        assert plan[1..][i - 1] in failing;
      }
    }
  }

  /** A run goes through exactly when no request of its plan fails. */
  lemma {:induction false} AttemptPasses<T>(plan: seq<T>, failing: set<T>)
    ensures !Attempt(plan, failing).raised <==> forall q :: q in plan ==> q !in failing
  {
    AttemptFacts(plan, failing);
    if !forall q :: q in plan ==> q !in failing {
      var q :| q in plan && q in failing;
      var i :| 0 <= i < |plan| && plan[i] == q;
    }
  }

  /** Running two plans one after the other inside the same `try` is running
      the first, and the second only when the first did not raise. */
  lemma {:induction false} AttemptAppend<T>(a: seq<T>, b: seq<T>, failing: set<T>)
    ensures Attempt(a + b, failing) ==
      (var ra := Attempt(a, failing);
       if ra.raised then ra
       else var rb := Attempt(b, failing); Run(a + rb.issued, rb.raised))
    decreases |a|
  {
    if a == [] {
      assert a + b == b;
    } else {
      assert (a + b)[0] == a[0];
      assert (a + b)[1..] == a[1..] + b;
      if a[0] !in failing {
        AttemptAppend(a[1..], b, failing);
        assert [a[0]] + a[1..] == a;
      }
    }
  }

  /** One more request at the end of a plan that has not raised so far. */
  lemma {:induction false} AttemptSnoc<T>(a: seq<T>, c: T, failing: set<T>)
    requires !Attempt(a, failing).raised
    ensures Attempt(a + [c], failing) == Run(a + [c], c in failing)
  {
    AttemptAppend(a, [c], failing);
  }

  /** Requests after the one that raised are never issued. */
  lemma {:induction false} AttemptStops<T>(a: seq<T>, b: seq<T>, failing: set<T>)
    requires Attempt(a, failing).raised
    ensures Attempt(a + b, failing) == Attempt(a, failing)
  {
    AttemptAppend(a, b, failing);
  }

  /** Whether a request outside the plan fails does not affect the run. */
  lemma {:induction false} AttemptIgnoresAbsent<T>(plan: seq<T>, failing: set<T>, c: T)
    requires c !in plan
    ensures Attempt(plan, failing + {c}) == Attempt(plan, failing - {c})
    decreases |plan|
  {
    if plan != [] {
      AttemptIgnoresAbsent(plan[1..], failing, c);
    }
  }

  /** One request in front of the rest of a plan. */
  lemma {:induction false} AttemptCons<T>(c: T, rest: seq<T>, failing: set<T>)
    ensures Attempt([c] + rest, failing) ==
      if c in failing then Run([c], true) else Prepend([c], Attempt(rest, failing))
  {
    assert ([c] + rest)[0] == c;
    assert ([c] + rest)[1..] == rest;
  }

  lemma {:induction false} PrependTwice<T>(a: seq<T>, b: seq<T>, r: Run<T>)
    ensures Prepend(a, Prepend(b, r)) == Prepend(a + b, r)
  {
    assert a + (b + r.issued) == (a + b) + r.issued;
  }
}
