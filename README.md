# Non-cacheable function detector

This is a Dafny model of Dremio's `NonCacheableFunctionDetector`. The detector decides, for a row expression or a whole relational plan, three things:

- whether the query's execution plan may be cached (`planCacheable`);
- whether a reflection (a precomputed materialized view) may answer the query (`reflectionMatchable`);
- whether that reflection may be refreshed incrementally (`reflectionIncrementalRefreshable`).

The detector works in three layers:

- **Operator classifier.** `DetectOp` gives the verdict for one SQL operator. It uses the operator's dynamic and deterministic flags, the flatten exemption, and a whitelist of wall-clock functions whose names are stored upper-cased.
- **Expression walker.** `Walker` is a visitor with a mutable `Result`. It ANDs each call's verdict into that result. It stops without descending once all three flags are false.
- **Plan walker.** It drives the same expression walker over every expression attached to a plan.

The walker is proved against a pure specification, `AggVerdict` and `PlanVerdict`: the field-wise AND over every call. That specification is in turn proved equal to a reference definition that does not depend on traversal order (`FieldwiseAnd` over the set of operators called).

Modules:

- `Verdicts`: the `Verdict` value, `Meet`, and the mutable `Result` class.
- `Operators`: `Op`, ASCII upper-casing, the whitelist, and `DetectOp`.
- `Trees`: expressions, plans, the fold, and its lemmas.
- `Detector`: the walker class and the entry points `DetectExpr` and `DetectPlan`.
- `Scenarios`: concrete expressions and plans with their verdicts, and `Client`, a caller of `DetectExpr` and `DetectPlan` that derives the same verdicts from those methods' contracts alone.

Four facts about the detector that the model keeps:

- **The flags are ordered.** For every operator, `planCacheable` implies `reflectionIncrementalRefreshable`, which implies `reflectionMatchable`. The same holds for every expression and plan (`AggIsChained`, `PlanIsChained`). So a verdict that is plan-cacheable but not reflection-matchable cannot occur.
- **The early exit is per call.** Only `visitCall` checks the accumulator. The plan walk visits every plan node; once all flags are false, each call it reaches returns at once.
- **Only the operator's own flags decide.** The classifier reads an operator's dynamic and deterministic flags and nothing else; there is no separate case for unregistered operators.
- **Flatten is a type test.** The flatten exemption is an `instanceof SqlFlattenOperator` test on the operator (`isFlatten` here).

## Model

| member | source | states |
|---|---|---|
| `Verdicts.Result.constructor` | sabot/kernel/src/main/java/com/dremio/exec/planner/sql/NonCacheableFunctionDetector.java:151-155 | a fresh result allows every kind of reuse |
| `Verdicts.Meet` | sabot/kernel/src/main/java/com/dremio/exec/planner/sql/NonCacheableFunctionDetector.java:130-140 | folding a call's verdict into the accumulator gives the greatest verdict that is stricter than both |
| `Operators.Upper` | sabot/kernel/src/main/java/com/dremio/exec/planner/sql/NonCacheableFunctionDetector.java:105 | the upper-cased name has no lower-case ASCII letter and equals the name up to case |
| `Operators.UpperEqual` | sabot/kernel/src/main/java/com/dremio/exec/planner/sql/NonCacheableFunctionDetector.java:105 | two names upper-case to the same string exactly when they are equal up to ASCII case |
| `Operators.WhitelistIsStoredUpperCased` | sabot/kernel/src/main/java/com/dremio/exec/planner/sql/NonCacheableFunctionDetector.java:51-69 | every stored whitelist entry is its own upper-case form |
| `Operators.WhitelistIsCaseInsensitive` | sabot/kernel/src/main/java/com/dremio/exec/planner/sql/NonCacheableFunctionDetector.java:51-69 | a name is whitelisted exactly when it equals one of the thirteen time-function names up to ASCII case |
| `Operators.DetectOp` | sabot/kernel/src/main/java/com/dremio/exec/planner/sql/NonCacheableFunctionDetector.java:84-110 | flatten is fully permissive whatever its flags; a deterministic, non-dynamic operator is fully permissive; a non-deterministic, non-dynamic one loses only plan caching; a dynamic one loses plan caching and incremental refresh, and keeps matching exactly when its upper-cased name is whitelisted; the flags are always chained |
| `Trees.AggIsFieldwiseAnd` | sabot/kernel/src/main/java/com/dremio/exec/planner/sql/NonCacheableFunctionDetector.java:129-142 | an expression's verdict keeps a flag exactly when every operator called anywhere in it, operands included, keeps that flag |
| `Trees.AggAllIsFieldwiseAnd` | sabot/kernel/src/main/java/com/dremio/exec/planner/sql/NonCacheableFunctionDetector.java:142 | the same for a list of operands |
| `Trees.PlanIsFieldwiseAnd` | sabot/kernel/src/main/java/com/dremio/exec/planner/sql/NonCacheableFunctionDetector.java:71-76 | a plan's verdict keeps a flag exactly when every operator called in any attached expression of any node keeps it |
| `Trees.PlansAreFieldwiseAnd` | sabot/kernel/src/main/java/com/dremio/exec/planner/sql/NonCacheableFunctionDetector.java:71-76 | the same for a list of plan inputs |
| `Trees.OperandOrderIrrelevant` | sabot/kernel/src/main/java/com/dremio/exec/planner/sql/NonCacheableFunctionDetector.java:129-142 | permuting a call's operands does not change its verdict, so the traversal order does not matter |
| `Trees.MoreOperatorsNeverRelax` | sabot/kernel/src/main/java/com/dremio/exec/planner/sql/NonCacheableFunctionDetector.java:129-142 | an expression that calls at least the operators of another is at least as strict |
| `Trees.OperandNeverRelaxes` | sabot/kernel/src/main/java/com/dremio/exec/planner/sql/NonCacheableFunctionDetector.java:142 | a call is at least as strict as each of its operands: nested dynamic calls propagate upward |
| `Trees.PermissiveIffAllOpsPermissive` | sabot/kernel/src/main/java/com/dremio/exec/planner/sql/NonCacheableFunctionDetector.java:78-82 | an expression is fully permissive exactly when every operator it calls is, so an expression without calls is fully permissive |
| `Trees.PlanPermissiveIffAllOpsPermissive` | sabot/kernel/src/main/java/com/dremio/exec/planner/sql/NonCacheableFunctionDetector.java:71-76 | a plan is fully permissive exactly when every operator called in it is, so a plan without attached expressions is fully permissive |
| `Trees.AggIsChained` | sabot/kernel/src/main/java/com/dremio/exec/planner/sql/NonCacheableFunctionDetector.java:96-107 | in every expression verdict, plan-cacheable implies incrementally refreshable, which implies matchable |
| `Trees.PlanIsChained` | sabot/kernel/src/main/java/com/dremio/exec/planner/sql/NonCacheableFunctionDetector.java:71-76 | the same for every plan verdict |
| `Detector.Walker.constructor` | sabot/kernel/src/main/java/com/dremio/exec/planner/sql/NonCacheableFunctionDetector.java:115-117 | a walker owns a fresh, fully permissive result |
| `Detector.Walker.Visit` | sabot/kernel/src/main/java/com/dremio/exec/planner/sql/NonCacheableFunctionDetector.java:119-143 | visiting any expression ANDs its full verdict into the accumulator |
| `Detector.Walker.VisitCall` | sabot/kernel/src/main/java/com/dremio/exec/planner/sql/NonCacheableFunctionDetector.java:119-143 | with the early return once all flags are false, the new accumulator is still the old one ANDed with the call's full verdict; no flag ever goes from false to true |
| `Detector.Walker.VisitOperands` | sabot/kernel/src/main/java/com/dremio/exec/planner/sql/NonCacheableFunctionDetector.java:142 | visiting the operands in order ANDs the verdict of all of them into the accumulator |
| `Detector.Walker.VisitPlan` | sabot/kernel/src/main/java/com/dremio/exec/planner/sql/NonCacheableFunctionDetector.java:73-74 | walking a plan ANDs the verdict of every attached expression into the accumulator |
| `Detector.Walker.VisitInputs` | sabot/kernel/src/main/java/com/dremio/exec/planner/sql/NonCacheableFunctionDetector.java:73-74 | the same for a list of plan inputs |
| `Detector.DetectExpr` | sabot/kernel/src/main/java/com/dremio/exec/planner/sql/NonCacheableFunctionDetector.java:78-82 | returns a fresh result holding the expression's verdict |
| `Detector.DetectPlan` | sabot/kernel/src/main/java/com/dremio/exec/planner/sql/NonCacheableFunctionDetector.java:71-76 | returns a fresh result holding the plan's verdict |
| `Detector.DetectExprTwice` | sabot/kernel/src/main/java/com/dremio/exec/planner/sql/NonCacheableFunctionDetector.java:78-82 | two detections of one expression use distinct accumulators and give the same flags |
| `Detector.DetectPlanTwice` | sabot/kernel/src/main/java/com/dremio/exec/planner/sql/NonCacheableFunctionDetector.java:71-76 | two detections of one plan use distinct accumulators and give the same flags |
| `Scenarios.CurrentUserIsNotWhitelisted` | sabot/kernel/src/main/java/com/dremio/exec/planner/sql/NonCacheableFunctionDetector.java:51-65 | CURRENT_USER is not among the whitelisted time functions |
| `Scenarios.CurrentUserPlusOne` | sabot/kernel/src/main/java/com/dremio/exec/planner/sql/NonCacheableFunctionDetector.java:104-107 | CURRENT_USER() + 1 allows no reuse at all |
| `Scenarios.NowPlusOne` | sabot/kernel/src/main/java/com/dremio/exec/planner/sql/NonCacheableFunctionDetector.java:100-107 | now() + 1 is matchable but neither plan-cacheable nor incrementally refreshable |
| `Scenarios.UpperOfColumn` | sabot/kernel/src/main/java/com/dremio/exec/planner/sql/NonCacheableFunctionDetector.java:96-109 | UPPER(column) allows every kind of reuse |
| `Scenarios.FlattenOfColumn` | sabot/kernel/src/main/java/com/dremio/exec/planner/sql/NonCacheableFunctionDetector.java:92-94 | FLATTEN(column) allows every kind of reuse although flatten is non-deterministic |
| `Scenarios.TwoFilters` | sabot/kernel/src/main/java/com/dremio/exec/planner/sql/NonCacheableFunctionDetector.java:71-76 | a plan with a filter on now() and one on RANDOM() is only reflection-matchable |

## Left out

- The getters of `Result`, `isPlanCacheable`, `isReflectionAllowed` and `isReflectionIncrementalRefreshable` (NonCacheableFunctionDetector.java:157-167), are not modelled. The model reads the three fields directly.
- `toUpperCase(Locale.ENGLISH)` is modelled as ASCII upper-casing. Non-ASCII case mappings, including ones that change a string's length, are not modelled.
- The whitelist entries are assumed to be named like their operator-table constants (`NOW`, `CURRENT_TIMESTAMP`, ...). The operator tables that define those names are not part of this model.
- An operator's `isDynamicFunction()`, `isDeterministic()` and the flatten type test come from the operator catalog. They are inputs here: fields of `Op`.
- `RexShuttle`'s default traversal is modelled only for calls (their operands are visited in order) and field accesses (their target is visited). Windowed aggregates (`RexOver`) and subqueries (`RexSubQuery`) are not modelled. In the query-planning library's `RexShuttle`, these go to `visitOver` and `visitSubQuery`, which visit the operands but never reach the overridden `visitCall`, so neither `Leaf` nor `Call` encodes them. That library is not part of this model.
- The new nodes that the shuttles return are not modelled; only the accumulated result is.
- `RexShuttleRelShuttle` is not part of this model. It is assumed to apply the walker to every expression of a node, then to walk the node's inputs. Which expressions a concrete plan node exposes, and how subqueries inside a plan are walked, are not modelled.
- The parser classes `SqlDropBranch` and `SqlUseTag` are not part of this core. They only check operand counts, unparse keywords, and build session handlers.
- The detector runs single-threaded on immutable trees, so there is nothing concurrent to model.
