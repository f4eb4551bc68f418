/** The three independent reuse verdicts of a query, as a value (`Verdict`) and as the
    mutable accumulator object that the detector fills in (`Result`). */
module Verdicts {

  /** Whether a plan may be cached, whether a reflection (materialized view) may answer the
      query, and whether that reflection may be refreshed incrementally. */
  datatype Verdict = Verdict(
    planCacheable: bool,
    reflectionMatchable: bool,
    reflectionIncrementalRefreshable: bool)

  /** The verdict that allows every kind of reuse. */
  function Permissive(): Verdict {
    Verdict(true, true, true)
  }

  /** The verdict that allows no reuse at all; once reached, nothing can change it. */
  function Refused(): Verdict {
    Verdict(false, false, false)
  }

  /** Field-wise AND: a flag survives only if both sides keep it. */
  function Meet(a: Verdict, b: Verdict): (r: Verdict)
    ensures Stricter(r, a) && Stricter(r, b)
    ensures forall c :: Stricter(c, a) && Stricter(c, b) ==> Stricter(c, r)
  {
    Verdict(
      a.planCacheable && b.planCacheable,
      a.reflectionMatchable && b.reflectionMatchable,
      a.reflectionIncrementalRefreshable && b.reflectionIncrementalRefreshable)
  }

  /** `a` allows no more than `b`, flag by flag. */
  predicate Stricter(a: Verdict, b: Verdict) {
    && (a.planCacheable ==> b.planCacheable)
    && (a.reflectionMatchable ==> b.reflectionMatchable)
    && (a.reflectionIncrementalRefreshable ==> b.reflectionIncrementalRefreshable)
  }

  /** The flags are ordered: plan-cacheable implies incrementally refreshable, which implies
      matchable. Every verdict the detector can produce has this shape. */
  predicate Chained(v: Verdict) {
    && (v.planCacheable ==> v.reflectionIncrementalRefreshable)
    && (v.reflectionIncrementalRefreshable ==> v.reflectionMatchable)
  }

  /** The mutable accumulator of the source: three flags that start permissive. */
  class Result {
    var planCacheable: bool
    var reflectionMatchable: bool
    var reflectionIncrementalRefreshable: bool

    /** A fresh result allows every kind of reuse. */
    constructor ()
      ensures View() == Permissive()
    {
      planCacheable := true;
      reflectionMatchable := true;
      reflectionIncrementalRefreshable := true;
    }

    /** The flags of this result as a value. */
    function View(): Verdict
      reads this
    {
      Verdict(planCacheable, reflectionMatchable, reflectionIncrementalRefreshable)
    }
  }
}
