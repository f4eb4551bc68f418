/** Expression trees and relational plans, and the verdict each one should receive: the
    field-wise AND of the operator verdicts of every call it contains. This is the
    specification the detector's walker is proved against. */
module Trees {
  import opened Verdicts
  import opened Operators

  /** A row expression. `Leaf` is an input reference, a literal or any other node without an
      operator; `FieldAccess` reads a field of the expression it wraps; `Call` applies an
      operator to its operands. */
  datatype Expr =
    | Leaf
    | FieldAccess(target: Expr)
    | Call(op: Op, operands: seq<Expr>)

  /** A relational operator with the expressions attached to it (conditions, projections,
      ...) and its inputs. */
  datatype Plan = Node(exprs: seq<Expr>, inputs: seq<Plan>)

  /** The verdict of an expression: the AND-fold over every call, operands included. */
  function AggVerdict(e: Expr): Verdict
    decreases e
  {
    match e
    case Leaf => Permissive()
    case FieldAccess(target) => AggVerdict(target)
    case Call(op, operands) => Meet(DetectOp(op), AggAll(operands))
  }

  /** The verdict of a list of expressions. */
  function AggAll(es: seq<Expr>): Verdict
    decreases es
  {
    if es == [] then Permissive() else Meet(AggVerdict(es[0]), AggAll(es[1..]))
  }

  /** The verdict of a plan: every expression attached to any of its nodes. */
  function PlanVerdict(p: Plan): Verdict
    decreases p
  {
    Meet(AggAll(p.exprs), PlanAll(p.inputs))
  }

  function PlanAll(ps: seq<Plan>): Verdict
    decreases ps
  {
    if ps == [] then Permissive() else Meet(PlanVerdict(ps[0]), PlanAll(ps[1..]))
  }

  /** The operators called anywhere in an expression. */
  function OpsOf(e: Expr): set<Op>
    decreases e
  {
    match e
    case Leaf => {}
    case FieldAccess(target) => OpsOf(target)
    case Call(op, operands) => {op} + OpsOfAll(operands)
  }

  function OpsOfAll(es: seq<Expr>): set<Op>
    decreases es
  {
    if es == [] then {} else OpsOf(es[0]) + OpsOfAll(es[1..])
  }

  /** The operators called anywhere in a plan. */
  function OpsOfPlan(p: Plan): set<Op>
    decreases p
  {
    OpsOfAll(p.exprs) + OpsOfPlans(p.inputs)
  }

  function OpsOfPlans(ps: seq<Plan>): set<Op>
    decreases ps
  {
    if ps == [] then {} else OpsOfPlan(ps[0]) + OpsOfPlans(ps[1..])
  }

  /** The reference verdict of a set of operators: a flag holds when every operator keeps it.
      It does not depend on any traversal order. */
  function FieldwiseAnd(ops: set<Op>): Verdict {
    Verdict(
      forall op :: op in ops ==> DetectOp(op).planCacheable,
      forall op :: op in ops ==> DetectOp(op).reflectionMatchable,
      forall op :: op in ops ==> DetectOp(op).reflectionIncrementalRefreshable)
  }

  lemma FieldwiseAndUnion(a: set<Op>, b: set<Op>)
    ensures FieldwiseAnd(a + b) == Meet(FieldwiseAnd(a), FieldwiseAnd(b))
  {
  }

  lemma FieldwiseAndSingleton(op: Op)
    ensures FieldwiseAnd({op}) == DetectOp(op)
  {
  }

  /** The fold over an expression is the field-wise AND over the operators it calls. */
  lemma {:induction false} AggIsFieldwiseAnd(e: Expr)
    ensures AggVerdict(e) == FieldwiseAnd(OpsOf(e))
    decreases e, 1
  {
    match e
    case Leaf =>
    case FieldAccess(target) =>
      AggIsFieldwiseAnd(target);
    case Call(op, operands) =>
      AggAllIsFieldwiseAnd(operands);
      FieldwiseAndSingleton(op);
      FieldwiseAndUnion({op}, OpsOfAll(operands));
  }

  lemma {:induction false} AggAllIsFieldwiseAnd(es: seq<Expr>)
    ensures AggAll(es) == FieldwiseAnd(OpsOfAll(es))
    decreases es, 0
  {
    if es != [] {
      AggIsFieldwiseAnd(es[0]);
      AggAllIsFieldwiseAnd(es[1..]);
      FieldwiseAndUnion(OpsOf(es[0]), OpsOfAll(es[1..]));
    }
  }

  /** The fold over a plan is the field-wise AND over the operators called in any of its
      expressions. */
  lemma {:induction false} PlanIsFieldwiseAnd(p: Plan)
    ensures PlanVerdict(p) == FieldwiseAnd(OpsOfPlan(p))
    decreases p, 1
  {
    AggAllIsFieldwiseAnd(p.exprs);
    PlansAreFieldwiseAnd(p.inputs);
    FieldwiseAndUnion(OpsOfAll(p.exprs), OpsOfPlans(p.inputs));
  }

  lemma {:induction false} PlansAreFieldwiseAnd(ps: seq<Plan>)
    ensures PlanAll(ps) == FieldwiseAnd(OpsOfPlans(ps))
    decreases ps, 0
  {
    if ps != [] {
      PlanIsFieldwiseAnd(ps[0]);
      PlansAreFieldwiseAnd(ps[1..]);
      FieldwiseAndUnion(OpsOfPlan(ps[0]), OpsOfPlans(ps[1..]));
    }
  }

  /** Folding a list one element at a time from the left gives the same verdict. */
  lemma {:induction false} AggAllSnoc(es: seq<Expr>, e: Expr)
    ensures AggAll(es + [e]) == Meet(AggAll(es), AggVerdict(e))
    decreases es
  {
    if es == [] {
      assert es + [e] == [e];
    } else {
      assert (es + [e])[1..] == es[1..] + [e];
      AggAllSnoc(es[1..], e);
    }
  }

  lemma {:induction false} PlanAllSnoc(ps: seq<Plan>, p: Plan)
    ensures PlanAll(ps + [p]) == Meet(PlanAll(ps), PlanVerdict(p))
    decreases ps
  {
    if ps == [] {
      assert ps + [p] == [p];
    } else {
      assert (ps + [p])[1..] == ps[1..] + [p];
      PlanAllSnoc(ps[1..], p);
    }
  }

  /** An operator is called in a list exactly when it is called in one of its elements. */
  lemma {:induction false} OpsOfAllElements(es: seq<Expr>, op: Op)
    ensures op in OpsOfAll(es) <==> exists i :: 0 <= i < |es| && op in OpsOf(es[i])
    decreases es
  {
    if es != [] {
      OpsOfAllElements(es[1..], op);
      if op in OpsOfAll(es[1..]) {
        var i :| 0 <= i < |es[1..]| && op in OpsOf(es[1..][i]);
        assert op in OpsOf(es[i + 1]);
      }
      if exists i :: 0 <= i < |es| && op in OpsOf(es[i]) {
        var i :| 0 <= i < |es| && op in OpsOf(es[i]);
        if i > 0 {
          assert es[1..][i - 1] == es[i];
        }
      }
    }
  }

  /** The order in which a call's operands are visited does not change its verdict. */
  lemma {:induction false} OperandOrderIrrelevant(op: Op, a: seq<Expr>, b: seq<Expr>)
    requires multiset(a) == multiset(b)
    ensures AggVerdict(Call(op, a)) == AggVerdict(Call(op, b))
  {
    forall x | x in OpsOfAll(a) ensures x in OpsOfAll(b) {
      OpsOfAllElements(a, x);
      var i :| 0 <= i < |a| && x in OpsOf(a[i]);
      assert a[i] in multiset(b);
      var j :| 0 <= j < |b| && b[j] == a[i];
      OpsOfAllElements(b, x);
    }
    forall x | x in OpsOfAll(b) ensures x in OpsOfAll(a) {
      OpsOfAllElements(b, x);
      var j :| 0 <= j < |b| && x in OpsOf(b[j]);
      assert b[j] in multiset(a);
      var i :| 0 <= i < |a| && a[i] == b[j];
      OpsOfAllElements(a, x);
    }
    assert OpsOfAll(a) == OpsOfAll(b);
    AggAllIsFieldwiseAnd(a);
    AggAllIsFieldwiseAnd(b);
  }

  /** Calling more operators never makes an expression's verdict more permissive. */
  lemma {:induction false} MoreOperatorsNeverRelax(small: Expr, large: Expr)
    requires OpsOf(small) <= OpsOf(large)
    ensures Stricter(AggVerdict(large), AggVerdict(small))
  {
    AggIsFieldwiseAnd(small);
    AggIsFieldwiseAnd(large);
  }

  /** Wrapping an expression as an operand of a call never makes it more permissive. */
  lemma {:induction false} OperandNeverRelaxes(op: Op, operands: seq<Expr>, i: nat)
    requires i < |operands|
    ensures Stricter(AggVerdict(Call(op, operands)), AggVerdict(operands[i]))
  {
    forall x | x in OpsOf(operands[i]) ensures x in OpsOf(Call(op, operands)) {
      OpsOfAllElements(operands, x);
    }
    MoreOperatorsNeverRelax(operands[i], Call(op, operands));
  }

  /** An expression is fully permissive exactly when every operator it calls is; in
      particular an expression without calls is fully permissive. */
  lemma {:induction false} PermissiveIffAllOpsPermissive(e: Expr)
    ensures AggVerdict(e) == Permissive() <==> forall op :: op in OpsOf(e) ==> DetectOp(op) == Permissive()
  {
    AggIsFieldwiseAnd(e);
  }

  /** Every verdict of an expression keeps the flag order of the operator verdicts: it is
      one of (true, true, true), (false, true, true), (false, true, false) and
      (false, false, false), as (planCacheable, reflectionMatchable,
      reflectionIncrementalRefreshable). */
  lemma {:induction false} AggIsChained(e: Expr)
    ensures Chained(AggVerdict(e))
  {
    AggIsFieldwiseAnd(e);
    var v := AggVerdict(e);
    if v.planCacheable {
      forall op | op in OpsOf(e) ensures DetectOp(op).reflectionIncrementalRefreshable {
        assert DetectOp(op).planCacheable;
      }
    }
    if v.reflectionIncrementalRefreshable {
      forall op | op in OpsOf(e) ensures DetectOp(op).reflectionMatchable {
        assert DetectOp(op).reflectionIncrementalRefreshable;
      }
    }
  }

  /** The same for a whole plan. */
  lemma {:induction false} PlanIsChained(p: Plan)
    ensures Chained(PlanVerdict(p))
  {
    PlanIsFieldwiseAnd(p);
    var v := PlanVerdict(p);
    if v.planCacheable {
      forall op | op in OpsOfPlan(p) ensures DetectOp(op).reflectionIncrementalRefreshable {
        assert DetectOp(op).planCacheable;
      }
    }
    if v.reflectionIncrementalRefreshable {
      forall op | op in OpsOfPlan(p) ensures DetectOp(op).reflectionMatchable {
        assert DetectOp(op).reflectionIncrementalRefreshable;
      }
    }
  }

  /** A plan is fully permissive exactly when every operator called in it is; a plan
      without attached expressions is fully permissive. */
  lemma {:induction false} PlanPermissiveIffAllOpsPermissive(p: Plan)
    ensures PlanVerdict(p) == Permissive() <==> forall op :: op in OpsOfPlan(p) ==> DetectOp(op) == Permissive()
  {
    PlanIsFieldwiseAnd(p);
  }
}
