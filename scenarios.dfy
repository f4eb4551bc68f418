/** Concrete expressions and plans, with the verdicts the detector gives them. The flags of
    the operators are those the operator catalog reports for them. */
module Scenarios {
  import opened Verdicts
  import opened Operators
  import opened Trees
  import Detector

  function Plus(): Op { Op("+", false, true, false) }
  function CurrentUser(): Op { Op("CURRENT_USER", true, true, false) }
  function Now(): Op { Op("now", true, true, false) }
  function UpperFn(): Op { Op("UPPER", false, true, false) }
  function Random(): Op { Op("RANDOM", false, false, false) }
  /** Flatten is reported as non-deterministic, yet it is exempted. */
  function Flatten(): Op { Op("FLATTEN", false, false, true) }

  function Column(): Expr { Leaf }
  function One(): Expr { Leaf }

  /** A name whose upper-cased form is not whitelisted. */
  lemma CurrentUserIsNotWhitelisted()
    ensures !IsWhitelisted("CURRENT_USER")
  {
    var u := Upper("CURRENT_USER");
    assert u[8] == 'U' && u[9] == 'S' && |u| == 12;
    forall n | n in WhitelistOperators ensures Upper(n) != u {
      var w := Upper(n);
      if |w| == 12 {
        assert n == "CURRENT_TIME" || n == "CURRENT_DATE";
        assert w[8] == UpperChar(n[8]);
      }
    }
  }

  /** CURRENT_USER() + 1 allows no reuse at all. */
  lemma CurrentUserPlusOne()
    ensures AggVerdict(Call(Plus(), [Call(CurrentUser(), []), One()])) == Refused()
  {
    CurrentUserIsNotWhitelisted();
  }

  /** now() + 1 may be matched to a reflection, but neither cached nor refreshed
      incrementally; the lower-case spelling is whitelisted too. */
  lemma NowPlusOne()
    ensures AggVerdict(Call(Plus(), [Call(Now(), []), One()])) == Verdict(false, true, false)
  {
    WhitelistIsCaseInsensitive("now");
    assert "NOW" in WhitelistOperators;
    assert EqualsIgnoringCase("now", "NOW");
  }

  /** UPPER(column_a) allows every kind of reuse. */
  lemma UpperOfColumn()
    ensures AggVerdict(Call(UpperFn(), [Column()])) == Permissive()
  {
  }

  /** FLATTEN(column_a) allows every kind of reuse despite being non-deterministic. */
  lemma FlattenOfColumn()
    ensures AggVerdict(Call(Flatten(), [Column()])) == Permissive()
  {
  }

  /** A scan under two filters, one on now() and one on RANDOM(): only reflection matching
      survives. */
  lemma TwoFilters()
    ensures PlanVerdict(
      Node([Call(Random(), [])],
        [Node([Call(Now(), [])], [Node([], [])])])) == Verdict(false, true, false)
  {
    NowPlusOne();
  }

  /** A client of the detector's entry points, which states what they return for the
      scenarios above from their contracts alone. */
  method Client()
  {
    var e := Call(Plus(), [Call(Now(), []), One()]);
    NowPlusOne();
    var r := Detector.DetectExpr(e);
    assert r.View() == Verdict(false, true, false);
    var s := Detector.DetectExpr(e);
    assert s.View() == r.View() && s != r;
    var p := Node([Call(Random(), [])], [Node([Call(Now(), [])], [Node([], [])])]);
    TwoFilters();
    var q := Detector.DetectPlan(p);
    assert !q.planCacheable && q.reflectionMatchable && !q.reflectionIncrementalRefreshable;
  }
}
