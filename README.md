# op4j OGNL evaluator — a Dafny model

op4j's `FnOgnl` is a function object. It evaluates an OGNL expression against
a target object and returns the result, after checking it against a declared
result type. The class exists twice, almost verbatim:
`org.op4j.ognl.functions.FnOgnl` and `org.op4j.functions.ognl.FnOgnl`. Both copies
behave the same way:

- **Construction.** An immutable evaluator holds a declared result type
  (a javaruntype `Type`), the expression text and a parameter array. A null
  type or a null expression is rejected by `Validate.notNull`.
- **Memoised parsing.** A class-wide static table, `parsedExpressionsByExpression`,
  maps expression text to its parsed form. A miss parses the expression and
  stores the result. A hit reuses the stored form. A parse failure becomes an
  `ExecutionException`, and nothing is stored.
- **Fresh context per call.** Every call builds a new context. It binds
  `target` to the input, `param` to the parameter array and `index` to the
  pipeline's iteration index. OGNL's `getValue` is then called with the input
  as the root.
- **Result check, no conversion.** A non-null result must be assignable to
  the declared raw class, unless that class is `Object`. Otherwise an
  `IllegalStateException` is thrown. An `OgnlException` from the engine is
  wrapped as an `ExecutionException`. On success the engine's value is
  returned unchanged.

Files and modules:

- `wrappers.dfy` (`Wrappers`): `Option`, where `None` is Java's `null`, and `Result`.
- `java_types.dfy` (`JavaTypes`): raw classes (`JClass`) and declared types
  (`JType`, with `RawClass` erasing type arguments). It also holds `Runtime`,
  which supplies `getClass` and `isAssignableFrom` as parameters.
- `ognl_engine.dfy` (`OgnlEngine`): the OGNL library as a parameter `Engine`.
  It is a pair of total functions, `parseExpression` and `getValue`.
- `expression_cache.dfy` (`ExpressionCache`): the class-wide table, a class
  whose `map` field is updated in place.
- `typed_evaluation.dfy` (`TypedEvaluation`): the code shared by both copies.
  It has the evaluator value `FnOgnl`, its validating constructor `New`, the
  result check and the context. It also has the specification function
  `Evaluate` of `evalOgnlExpression` and the imperative `EvalOgnlExpression`
  proved against it. Lemmas cover single calls and sequences of calls (`Run`)
  that share one cache.
- `ognl_functions.dfy` (`OgnlFunctions`): factories of `org.op4j.ognl.functions.FnOgnl`.
- `functions_ognl.dfy` (`FunctionsOgnl`): factories of `org.op4j.functions.ognl.FnOgnl`.

Each Java class owns its own static cache. The model passes the cache as an
explicit `OgnlExpressionMap` instance. The faithful use is one instance for
each of the two classes, kept for the whole process. The cache starts empty,
and every cache only ever receives the engine's own parse of its key
(`Coherent`).

The constructor, `execute` and the body of `evalOgnlExpression` are
line-for-line the same in both files. The one difference is visibility:
`evalOgnlExpression` is `private` in `org.op4j.ognl.functions.FnOgnl`
(line 624) and `public` in `org.op4j.functions.ognl.FnOgnl` (line 151).

| ognl/functions/FnOgnl.java | functions/ognl/FnOgnl.java |
|---|---|
| 53 | 47 |
| 56-58 | 50-52 |
| 604-610 | 131-137 |
| 613-615 | 140-142 |
| 624-658 | 151-185 |

So each row below cites one file for this shared code. The other file's
lines are the ones in the same row of the table above.

## Model

| member | source | states |
|---|---|---|
| `ExpressionCache.OgnlExpressionMap.constructor` | src/main/java/org/op4j/ognl/functions/FnOgnl.java:53 | the class-wide table starts empty |
| `ExpressionCache.OgnlExpressionMap.Get` | src/main/java/org/op4j/ognl/functions/FnOgnl.java:628 | lookup gives the stored parsed form exactly when the expression is a key, and `null` otherwise |
| `ExpressionCache.OgnlExpressionMap.Put` | src/main/java/org/op4j/ognl/functions/FnOgnl.java:638 | storing a parsed form sets that key and leaves every other entry unchanged |
| `TypedEvaluation.New` | src/main/java/org/op4j/ognl/functions/FnOgnl.java:604-610 | construction fails exactly when the result type or the expression is null; a null type is reported first, each with its own message; otherwise the three fields are stored exactly as given (the parameters may be null) |
| `TypedEvaluation.FnOgnl.Execute` | src/main/java/org/op4j/functions/ognl/FnOgnl.java:140-142 | `execute` is `evalOgnlExpression` on the stored type, expression and parameters, the input and the context: same outcome, same new cache |
| `TypedEvaluation.CheckResult` | src/main/java/org/op4j/ognl/functions/FnOgnl.java:647-653 | the check either returns the engine's value unchanged or raises the mismatch naming the expression and the declared raw class |
| `TypedEvaluation.NullResultPasses` | src/main/java/org/op4j/ognl/functions/FnOgnl.java:647 | a null result passes the check whatever the declared class |
| `TypedEvaluation.ObjectClassAdmitsAll` | src/main/java/org/op4j/ognl/functions/FnOgnl.java:647 | with declared raw class `Object`, every result passes unchanged |
| `TypedEvaluation.NonNullResultChecked` | src/main/java/org/op4j/functions/ognl/FnOgnl.java:174-178 | for a non-`Object` declared class, a non-null result is rejected if and only if its class is not assignable to the declared class |
| `TypedEvaluation.ExactClassPasses` | src/main/java/org/op4j/functions/ognl/FnOgnl.java:175 | given a well-behaved runtime (assignability reflexive, `Object` above every reference class), a result of exactly the declared class passes |
| `TypedEvaluation.ObjectShortcutAgrees` | src/main/java/org/op4j/ognl/functions/FnOgnl.java:647-648 | when assignability is reflexive with `Object` on top, the `Object` short-cut changes nothing: a non-null result passes exactly when its class is assignable to the declared class |
| `TypedEvaluation.ContextBindsExactlyThree` | src/main/java/org/op4j/ognl/functions/FnOgnl.java:642-645 | the context has exactly the keys `target`, `param`, `index`, bound to the input, the parameter array and the execution context's index |
| `TypedEvaluation.Evaluate` | src/main/java/org/op4j/ognl/functions/FnOgnl.java:624-658 | cache entries are only added, and only under the call's expression; a hit never parses and leaves the cache unchanged; a miss stores a successful parse even if evaluation or the check then fails; a failed parse yields `ExecutionException` and stores nothing; after parsing, the outcome is the evaluation of the stored form, and a success is the engine's own value for the fresh context with the input as root |
| `TypedEvaluation.EvalOgnlExpression` | src/main/java/org/op4j/ognl/functions/FnOgnl.java:624-658 | the in-place method (get, parse, put, context built entry by entry, getValue, check) returns the outcome of `Evaluate` and leaves the cache `Evaluate` describes |
| `TypedEvaluation.DeclaredTypeHolds` | src/main/java/org/op4j/functions/ognl/FnOgnl.java:174-180 | a successful non-null result is assignable to the declared raw class whenever that class is not `Object` |
| `TypedEvaluation.OnlyRawClassChecked` | src/main/java/org/op4j/ognl/functions/FnOgnl.java:630 | two declared types with the same raw class give identical outcomes and caches, so type arguments are never checked |
| `TypedEvaluation.MemoisationTransparent` | src/main/java/org/op4j/ognl/functions/FnOgnl.java:628-646 | with a cache that holds only the engine's parses, a call has the outcome of parsing afresh, and the cache keeps that property |
| `TypedEvaluation.Run` | src/main/java/org/op4j/functions/ognl/FnOgnl.java:155-166 | a sequence of calls sharing the class-wide cache yields one outcome per call |
| `TypedEvaluation.RunParsesEachExpressionAtMostOnce` | src/main/java/org/op4j/ognl/functions/FnOgnl.java:628-639 | across any sequence of calls, each expression is parsed successfully at most once, and never if it was already cached; the final cache keys are exactly the initial keys plus the successfully parsed expressions |
| `TypedEvaluation.RunKeepsCachedForms` | src/main/java/org/op4j/functions/ognl/FnOgnl.java:155-166 | every entry of the initial cache is still in the final cache with the same parsed form, and every call of the sequence whose expression was cached at the start evaluates that cached form (no re-parse) |
| `TypedEvaluation.RunMatchesUncached` | src/main/java/org/op4j/functions/ognl/FnOgnl.java:155-173 | starting from a cache that holds only the engine's parses (the empty one in particular), every call of a sequence has the outcome of parsing afresh |
| `OgnlFunctions.EvalForObject` | src/main/java/org/op4j/ognl/functions/FnOgnl.java:90-92 | fails exactly on a null expression; otherwise declares raw class `Object` and stores the expression and parameters |
| `OgnlFunctions.EvalFor` | src/main/java/org/op4j/ognl/functions/FnOgnl.java:116-118 | fails exactly on a null type or expression; otherwise stores the caller's type, the expression and the parameters |
| `OgnlFunctions.EvalForInteger` | src/main/java/org/op4j/ognl/functions/FnOgnl.java:368-370 | fails exactly on a null expression; otherwise declares `Types.INTEGER` (raw class `Integer`) and stores the expression and parameters |
| `OgnlFunctions.EvalForListOf` | src/main/java/org/op4j/ognl/functions/FnOgnl.java:544-546 | fails exactly on a null expression; otherwise declares `List` of the element type, with raw class `List`, and stores the expression and parameters |
| `OgnlFunctions.EvalForSetOf` | src/main/java/org/op4j/ognl/functions/FnOgnl.java:570-572 | fails exactly on a null expression; otherwise declares `Set` of the element type, with raw class `Set`, and stores the expression and parameters |
| `OgnlFunctions.EvalForObjectNeverMismatches` | src/main/java/org/op4j/ognl/functions/FnOgnl.java:91 | an `evalForObject` evaluator never raises the result-type `IllegalStateException`; with a cache holding only the engine's parses, its outcome is the engine's parse and evaluation, unchecked |
| `OgnlFunctions.ListOfChecksOnlyList` | src/main/java/org/op4j/ognl/functions/FnOgnl.java:545 | `evalForListOf` evaluators differing only in element type behave identically; any non-null result they return is assignable to `List` |
| `OgnlFunctions.SetOfChecksOnlySet` | src/main/java/org/op4j/ognl/functions/FnOgnl.java:571 | `evalForSetOf` evaluators differing only in element type behave identically; any non-null result they return is assignable to `Set` |
| `OgnlFunctions.EvalForIntegerTypeSafe` | src/main/java/org/op4j/ognl/functions/FnOgnl.java:369 | a non-null success of an `evalForInteger` evaluator is assignable to `Integer` |
| `FunctionsOgnl.AsObject` | src/main/java/org/op4j/functions/ognl/FnOgnl.java:64-66 | fails exactly on a null expression; otherwise declares `Types.OBJECT` and stores the expression and parameters |
| `FunctionsOgnl.AsType` | src/main/java/org/op4j/functions/ognl/FnOgnl.java:68-70 | fails exactly on a null type or expression, and a null type gives the "Result type cannot be null" error; otherwise stores the caller's type, the expression and the parameters |
| `FunctionsOgnl.AsInteger` | src/main/java/org/op4j/functions/ognl/FnOgnl.java:111-113 | fails exactly on a null expression; otherwise declares `Types.INTEGER` and stores the expression and parameters |
| `FunctionsOgnl.AsObjectReturnsEngineValue` | src/main/java/org/op4j/functions/ognl/FnOgnl.java:65 | once the expression is cached, an `asObject` evaluator returns exactly what the engine returns, and wraps exactly the engine's exception |
| `FunctionsOgnl.AsTypeChecksResult` | src/main/java/org/op4j/functions/ognl/FnOgnl.java:173-180 | for a non-`Object` declared type and a non-null engine result, the outcome is that result unchanged if its class is assignable, and the type mismatch otherwise |

Details of the source worth noting:

- Parse failures and evaluation failures are the same exception: both are an
  `ExecutionException` wrapping the `OgnlException` (lines 636 and 655).
  The model distinguishes them only by their cause.
- The type-mismatch exception names the expression and the declared class only.
  It does not name the actual class of the result (lines 649-650).
- The parameter array is stored as the factory's helper returns it; the
  constructor does not check it for null.

## Left out

- OGNL's grammar and evaluation rules (`ognl.Ognl.parseExpression`, `ognl.Ognl.getValue`) are a foreign library. They are the parameter `Engine`, so results of particular expressions such as `"#target + 10"` cannot be stated.
- Java reflection and javaruntype (`getClass`, `Class.isAssignableFrom`, `Type.getRawClass`) are reduced to the parameter `Runtime` and the datatype `JType`. The source's `resultClass != null` guard is not modelled, because `RawClass` always yields a class.
- `VarArgsUtil.asOptionalObjectArray`, `ExecCtx` and `OgnlExpressionMap` are not part of this model. The factories take the normalised parameter array as an opaque, possibly null object. The index is whatever `getIndex()` returns. The cache is a plain map with `get` and `put`.
- Null arguments that end in a `NullPointerException` are not modelled:
  - `execute(input, null)` dereferences the execution context at ognl/functions/FnOgnl.java:645 and functions/ognl/FnOgnl.java:172. On a miss this happens after the `put`, so the parse stays cached and the call then fails with an unwrapped `NullPointerException`.
  - A null `resultType` passed directly to the public `evalOgnlExpression` of functions/ognl/FnOgnl.java fails at line 157.
  - A null `ognlExpression` passed directly to the same public `evalOgnlExpression` reaches the cache lookup at line 155 and the parse at line 161 with a null key, and ends in an exception there.

  `ExecCtx`, the result type and the expression text are non-null values in the model, so none of these paths can be expressed.
- Exceptions other than `OgnlException` thrown inside `getValue` propagate unchanged in Java. The engine model has no such outcome.
- Thread safety of the static caches, including the benign race in which two threads parse the same new expression, is not modelled. The model is sequential.
- The other per-type factories are mechanical variants of `evalFor`/`asType` with a fixed type and are not modelled: `evalForBigInteger` … `evalForString`, `evalForListOfString`, `evalForSetOfString`, `evalForArrayOf`, `evalForArrayOfString`, `asBigInteger` … `asString`.
- `evalForListOf` and `evalForSetOf` take a non-null element type here. Whether `Types.listOf(null)` throws is up to javaruntype, which is not part of this model.
- The test file's pipeline operations (`Op.on…`, `forEach`, `toMap`, grouping) are not part of this model.
