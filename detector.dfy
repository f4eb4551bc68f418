/** The detector's entry points and its expression walker: a visitor that keeps one mutable
    result, ANDs each call's operator verdict into it and stops descending once nothing is
    left to lose. */
module Detector {
  import opened Verdicts
  import opened Operators
  import opened Trees

  /** The expression visitor with its accumulator. */
  class Walker {
    const result: Result

    /** A walker starts from a fresh, fully permissive result. */
    constructor ()
      ensures fresh(result)
      ensures result.View() == Permissive()
    {
      result := new Result();
    }

    /** Dispatches on the kind of node, as an expression's `accept` does: calls go to
        `VisitCall`, a field access descends into its target, other nodes are left alone. */
    method Visit(e: Expr)
      modifies result
      ensures result.View() == Meet(old(result.View()), AggVerdict(e))
      decreases e, 2
    {
      match e
      case Leaf =>
      case FieldAccess(target) =>
        Visit(target);
      case Call(op, operands) =>
        VisitCall(op, operands);
    }

    /** Visits one call. When every flag is already false it returns at once without looking
        at the operator or the operands; the result is still that of a full traversal. */
    method VisitCall(op: Op, operands: seq<Expr>)
      modifies result
      ensures result.View() == Meet(old(result.View()), AggVerdict(Call(op, operands)))
      ensures Stricter(result.View(), old(result.View()))
      decreases operands, 1
    {
      var stateWontChange :=
        !result.planCacheable && !result.reflectionMatchable && !result.reflectionIncrementalRefreshable;
      if stateWontChange {
        return;
      }
      var localResult := DetectOp(op);
      if !localResult.reflectionMatchable {
        result.reflectionMatchable := false;
      }
      if !localResult.planCacheable {
        result.planCacheable := false;
      }
      if !localResult.reflectionIncrementalRefreshable {
        result.reflectionIncrementalRefreshable := false;
      }
      VisitOperands(operands);
    }

    /** Visits a list of expressions in order: a call's operands, or the expressions attached
        to one plan node. */
    method VisitOperands(es: seq<Expr>)
      modifies result
      ensures result.View() == Meet(old(result.View()), AggAll(es))
      decreases es, 0
    {
      var i := 0;
      while i < |es|
        invariant 0 <= i <= |es|
        invariant result.View() == Meet(old(result.View()), AggAll(es[..i]))
      {
        Visit(es[i]);
        AggAllSnoc(es[..i], es[i]);
        assert es[..i + 1] == es[..i] + [es[i]];
        i := i + 1;
      }
      assert es[..i] == es;
    }

    /** Applies the walker to every expression of a plan node, then to its inputs. */
    method VisitPlan(p: Plan)
      modifies result
      ensures result.View() == Meet(old(result.View()), PlanVerdict(p))
      decreases p, 1
    {
      VisitOperands(p.exprs);
      VisitInputs(p.inputs);
    }

    method VisitInputs(ps: seq<Plan>)
      modifies result
      ensures result.View() == Meet(old(result.View()), PlanAll(ps))
      decreases ps, 0
    {
      var i := 0;
      while i < |ps|
        invariant 0 <= i <= |ps|
        invariant result.View() == Meet(old(result.View()), PlanAll(ps[..i]))
      {
        VisitPlan(ps[i]);
        PlanAllSnoc(ps[..i], ps[i]);
        assert ps[..i + 1] == ps[..i] + [ps[i]];
        i := i + 1;
      }
      assert ps[..i] == ps;
    }
  }

  /** The verdict of an expression, in a fresh result object. */
  method DetectExpr(e: Expr) returns (r: Result)
    ensures fresh(r)
    ensures r.View() == AggVerdict(e)
  {
    var walker := new Walker();
    walker.Visit(e);
    r := walker.result;
  }

  /** The verdict of a plan, in a fresh result object. */
  method DetectPlan(p: Plan) returns (r: Result)
    ensures fresh(r)
    ensures r.View() == PlanVerdict(p)
  {
    var walker := new Walker();
    walker.VisitPlan(p);
    r := walker.result;
  }

  /** Each detection starts from its own accumulator, so detecting twice on the same
      expression gives two distinct results with the same flags. */
  method DetectExprTwice(e: Expr) returns (first: Result, second: Result)
    ensures first != second
    ensures first.View() == second.View()
  {
    first := DetectExpr(e);
    second := DetectExpr(e);
  }

  /** Likewise for a plan: each detection starts from its own accumulator. */
  method DetectPlanTwice(p: Plan) returns (first: Result, second: Result)
    ensures first != second
    ensures first.View() == second.View()
  {
    first := DetectPlan(p);
    second := DetectPlan(p);
  }
}
