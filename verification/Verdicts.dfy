/** Accepting the verifier's verdict: one result for each success criterion, and only evidence that
    was shown to it. */
module Verdicts {
  import opened Common

  datatype Result = Result(criterion: string, evidence: seq<string>)
  datatype Given = Given(results: seq<Result>, evidence: seq<string>)

  function Criteria(v: Given): (r: seq<string>)
    ensures |r| == |v.results| && forall i :: 0 <= i < |r| ==> r[i] == v.results[i].criterion
  {
    seq(|v.results|, i requires 0 <= i < |v.results| => v.results[i].criterion)
  }

  predicate SameElements(a: seq<string>, b: seq<string>)
  {
    (forall x :: x in a ==> x in b) && (forall x :: x in b ==> x in a)
  }

  /** The length and the set of the criteria are compared, not how often each occurs. */
  predicate Matches(actual: seq<string>, expected: seq<string>)
  {
    |actual| == |expected| && SameElements(actual, expected)
  }

  /** Only evidence that was offered is cited, by the verdict or by any of its results. */
  predicate CitesOnly(v: Given, valid: set<string>)
  {
    && (forall e :: e in v.evidence ==> e in valid)
    && (forall i :: 0 <= i < |v.results| ==> forall e :: e in v.results[i].evidence ==> e in valid)
  }

  // ---- Exactly one result for each criterion? ----------------------------------------------------

  predicate AllEqual(s: seq<string>)
  {
    forall i, j :: 0 <= i < |s| && 0 <= j < |s| ==> s[i] == s[j]
  }

  function Elements(s: seq<string>): set<string>
  {
    set x | x in s
  }

  lemma {:induction false} ElementsSize(s: seq<string>)
    ensures |Elements(s)| <= |s|
    ensures |Elements(s)| == |s| <==> Distinct(s)
  {
    if s != [] {
      var front, last := s[..|s| - 1], s[|s| - 1];
      assert s == front + [last];
      ElementsSize(front);
      assert Elements(s) == Elements(front) + {last};
      assert Distinct(s) <==> Distinct(front) && last !in front by {
        if Distinct(front) && last !in front {
          assert forall i :: 0 <= i < |front| ==> front[i] in front;
        }
        if last in front {
          var i :| 0 <= i < |front| && front[i] == last;
          assert s[i] == s[|s| - 1];
        }
      }
    }
  }

  lemma {:induction false} DistinctCounts(s: seq<string>)
    requires Distinct(s)
    ensures forall x :: multiset(s)[x] == if x in s then 1 else 0
  {
    if s != [] {
      var front, last := s[..|s| - 1], s[|s| - 1];
      assert s == front + [last];
      DistinctCounts(front);
      assert last !in front;
    }
  }

  lemma MatchesIsPermutation(actual: seq<string>, expected: seq<string>)
    requires Matches(actual, expected) && (Distinct(expected) || AllEqual(expected))
    ensures multiset(actual) == multiset(expected)
  {
    if Distinct(expected) {
      ElementsSize(actual);
      ElementsSize(expected);
      assert Elements(actual) == Elements(expected);
      DistinctCounts(actual);
      DistinctCounts(expected);
    } else {
      forall i | 0 <= i < |actual| ensures actual[i] == expected[i] {
        assert actual[i] in actual;
      }
      assert actual == expected;
    }
  }

  lemma ReplacedCount(s: seq<string>, i: nat, other: string)
    requires i < |s| && other != s[i]
    ensures multiset(s[i := other])[s[i]] + 1 == multiset(s)[s[i]]
  {}

  lemma ReplacedMatches(s: seq<string>, i: nat, j: nat, other: string)
    requires i < |s| && j < |s| && i != j && s[i] == s[j] && other in s
    ensures Matches(s[i := other], s)
  {
    var r := s[i := other];
    assert r[i] == other && r[j] == s[i];
    forall x | x in s ensures x in r {
      var p :| 0 <= p < |s| && s[p] == x;
      assert r[if p == i then j else p] == x;
    }
    forall x | x in r ensures x in s {
      var p :| 0 <= p < |r| && r[p] == x;
      assert p == i || s[p] == x;
    }
  }

  /** Any other list of criteria has a matching answer that is not a permutation: a repeated
      criterion is answered once less and another once more. */
  lemma RepeatedIsConfusable(expected: seq<string>) returns (actual: seq<string>)
    requires !Distinct(expected) && !AllEqual(expected)
    ensures Matches(actual, expected) && multiset(actual) != multiset(expected)
  {
    var i, j :| 0 <= i < j < |expected| && expected[i] == expected[j];
    var k, l :| 0 <= k < |expected| && 0 <= l < |expected| && expected[k] != expected[l];
    var other := if expected[k] != expected[i] then expected[k] else expected[l];
    actual := expected[i := other];
    ReplacedMatches(expected, i, j, other);
    ReplacedCount(expected, i, other);
  }

  /** Exactly for which criteria the comparison means one result for each: all distinct, or all the
      same. */
  lemma OneResultEachExactly(expected: seq<string>)
    ensures (forall actual :: Matches(actual, expected) ==> multiset(actual) == multiset(expected))
            <==> Distinct(expected) || AllEqual(expected)
  {
    if Distinct(expected) || AllEqual(expected) {
      forall actual | Matches(actual, expected) ensures multiset(actual) == multiset(expected) {
        MatchesIsPermutation(actual, expected);
      }
    } else {
      var actual := RepeatedIsConfusable(expected);
    }
  }

  // ---- The verifier --------------------------------------------------------------------------

  /** The service raises, answers something that is no verdict, or gives one. */
  datatype Reply = Raised | Malformed | Answered(verdict: Given)
  datatype Outcome = OverBudget | Failed | Rejected | Accepted(verdict: Given)

  class TaskVerifier {
    /** Zero means no limit. */
    const maxCalls: nat
    var calls: nat

    constructor (maxCalls: nat)
      ensures this.maxCalls == maxCalls && calls == 0
    {
      this.maxCalls, calls := maxCalls, 0;
    }

    ghost predicate WithinBudget()
      reads this
    {
      maxCalls > 0 ==> calls <= maxCalls
    }

    /** Every reference collected from the verdict and its results is checked against the offered
        ones, after the criteria. */
    method ValidateVerdict(expected: seq<string>, valid: set<string>, v: Given) returns (ok: bool)
      ensures ok <==> Matches(Criteria(v), expected) && CitesOnly(v, valid)
    {
      if !Matches(Criteria(v), expected) { return false; }
      var refs: set<string> := set e | e in v.evidence;
      var i := 0;
      while i < |v.results|
        invariant i <= |v.results|
        invariant forall e :: e in refs <==> e in v.evidence || exists k :: 0 <= k < i && e in v.results[k].evidence
      {
        refs := refs + set e | e in v.results[i].evidence;
        i := i + 1;
      }
      ok := refs <= valid;
    }

    /** Each verification that reaches the service costs one call, whatever comes back; none does
        once the budget is spent. */
    method VerifyContent(expected: seq<string>, valid: set<string>, reply: Reply) returns (r: Outcome)
      requires WithinBudget()
      modifies this
      ensures WithinBudget()
      ensures r.OverBudget? <==> maxCalls > 0 && old(calls) == maxCalls
      ensures calls == if r.OverBudget? then old(calls) else old(calls) + 1
      ensures r.Accepted? <==> !r.OverBudget? && reply.Answered?
                               && Matches(Criteria(reply.verdict), expected) && CitesOnly(reply.verdict, valid)
      ensures r.Accepted? ==> r.verdict == reply.verdict
      ensures r.Accepted? && Distinct(expected) ==> multiset(Criteria(r.verdict)) == multiset(expected)
    {
      if maxCalls > 0 && calls >= maxCalls { return OverBudget; }
      calls := calls + 1;
      if reply.Raised? { return Failed; }
      if reply.Malformed? { return Rejected; }
      var ok := ValidateVerdict(expected, valid, reply.verdict);
      if !ok { return Rejected; }
      if Distinct(expected) { MatchesIsPermutation(Criteria(reply.verdict), expected); }
      return Accepted(reply.verdict);
    }
  }
}
