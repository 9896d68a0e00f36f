/**
 * The OGNL-backed typed evaluator `FnOgnl`: its construction, the
 * memoised parsing through the class-wide cache, the per-call variable
 * context, and the check of the result against the declared raw class.
 *
 * The two Java classes `org.op4j.ognl.functions.FnOgnl` and
 * `org.op4j.functions.ognl.FnOgnl` carry the same constructor, `execute`
 * and `evalOgnlExpression` bodies (the latter is private in the first class
 * and public in the second); this module models that shared code once. Each
 * Java class owns its own static cache, so each corresponds to its own
 * `OgnlExpressionMap` instance here.
 */
module TypedEvaluation {
  import opened Wrappers
  import opened JavaTypes
  import opened OgnlEngine
  import opened ExpressionCache

  /** The three variable names bound in every evaluation context. */
  const TargetVariableName := "target"
  const ParamVariableName := "param"
  const IndexVariableName := "index"

  /** The `IllegalArgumentException` that `Validate.notNull` throws. */
  datatype IllegalArgument = IllegalArgument(message: string)

  /** The pipeline's execution context; only its (boxed, possibly null) index is read. */
  datatype ExecCtx<V> = ExecCtx(index: Option<V>)

  /** How one evaluation ends. */
  datatype Outcome<V> =
    | Ok(value: Option<V>)                                // the engine's result, returned unchanged
    | ExecutionError(cause: OgnlException)                // `ExecutionException` wrapping an `OgnlException`
    | TypeMismatch(expression: string, expected: JClass)  // `IllegalStateException` from the result check

  /**
   * An evaluator: declared result type, expression text and the parameter
   * array (an opaque, possibly null object). All three fields are final.
   */
  datatype FnOgnl<V> = FnOgnl(resultType: JType, ognlExpression: string, parameters: Option<V>) {

    /** `execute(input, ctx)`: evaluates the stored expression on `input`. */
    method Execute<P>(cache: OgnlExpressionMap<P>, engine: Engine<P, V>, rt: Runtime<V>, input: Option<V>, execCtx: ExecCtx<V>)
      returns (outcome: Outcome<V>)
      modifies cache
      ensures var step := Evaluate(engine, rt, old(cache.entries), resultType, ognlExpression, input, parameters, execCtx);
        outcome == step.outcome && cache.entries == step.cache
    {
      outcome := EvalOgnlExpression(cache, engine, rt, resultType, ognlExpression, input, parameters, execCtx);
    }
  }

  /**
   * The private constructor: the result type is validated first, then the
   * expression; the parameters are stored as given, null or not.
   */
  function New<V>(resultType: Option<JType>, ognlExpression: Option<string>, parameters: Option<V>): (r: Result<FnOgnl<V>, IllegalArgument>)
    ensures r.Success? <==> resultType.Some? && ognlExpression.Some?
    ensures r.Success? ==>
      (r.value.resultType == resultType.value && r.value.ognlExpression == ognlExpression.value
       && r.value.parameters == parameters)
    ensures resultType.None? ==> r.error.message == "Result type cannot be null"
    ensures resultType.Some? && ognlExpression.None? ==> r.error.message == "Expression cannot be null"
  {
    if resultType.None? then
      Failure(IllegalArgument("Result type cannot be null"))
    else if ognlExpression.None? then
      Failure(IllegalArgument("Expression cannot be null"))
    else
      Success(FnOgnl(resultType.value, ognlExpression.value, parameters))
  }

  /**
   * The result check: a non-null result must be assignable to the declared
   * raw class unless that class is `Object`. No conversion is performed.
   */
  function CheckResult<V>(rt: Runtime<V>, resultClass: JClass, ognlExpression: string, result: Option<V>): (r: Outcome<V>)
    ensures r == Ok(result) || r == TypeMismatch(ognlExpression, resultClass)
  {
    if result.Some? && resultClass != ObjectClass then
      if !rt.isAssignableFrom(resultClass, rt.classOf(result.value)) then
        TypeMismatch(ognlExpression, resultClass)
      else
        Ok(result)
    else
      Ok(result)
  }

  lemma NullResultPasses<V>(rt: Runtime<V>, resultClass: JClass, ognlExpression: string)
    ensures CheckResult(rt, resultClass, ognlExpression, None) == Ok(None)
  {
  }

  lemma ObjectClassAdmitsAll<V>(rt: Runtime<V>, ognlExpression: string, result: Option<V>)
    ensures CheckResult(rt, ObjectClass, ognlExpression, result) == Ok(result)
  {
  }

  /** A non-null result fails the check exactly when its class is not assignable. */
  lemma NonNullResultChecked<V>(rt: Runtime<V>, resultClass: JClass, ognlExpression: string, v: V)
    requires resultClass != ObjectClass
    ensures CheckResult(rt, resultClass, ognlExpression, Some(v)).TypeMismatch?
      <==> !rt.isAssignableFrom(resultClass, rt.classOf(v))
  {
  }

  /** With a well-behaved runtime, a result of exactly the declared class passes. */
  lemma ExactClassPasses<V>(rt: Runtime<V>, ognlExpression: string, v: V)
    requires rt.Valid()
    ensures CheckResult(rt, rt.classOf(v), ognlExpression, Some(v)) == Ok(Some(v))
  {
  }

  /**
   * The `Object` short-cut agrees with assignability on a well-behaved
   * runtime: a non-null result passes exactly when its class is assignable
   * to the declared class, `Object` included.
   */
  lemma ObjectShortcutAgrees<V>(rt: Runtime<V>, resultClass: JClass, ognlExpression: string, v: V)
    requires rt.Valid()
    ensures CheckResult(rt, resultClass, ognlExpression, Some(v)).Ok? <==> rt.isAssignableFrom(resultClass, rt.classOf(v))
  {
  }

  /** The fresh context of one call. */
  function BuildContext<V>(target: Option<V>, parameters: Option<V>, execCtx: ExecCtx<V>): Context<V> {
    map[TargetVariableName := target, ParamVariableName := parameters, IndexVariableName := execCtx.index]
  }

  lemma ContextBindsExactlyThree<V>(target: Option<V>, parameters: Option<V>, execCtx: ExecCtx<V>)
    ensures var ctx := BuildContext(target, parameters, execCtx);
      && ctx.Keys == {"target", "param", "index"}
      && ctx["target"] == target && ctx["param"] == parameters && ctx["index"] == execCtx.index
  {
  }

  /** Evaluation of an already parsed expression: engine call, then the result check. */
  function EvaluateParsed<P, V>(engine: Engine<P, V>, rt: Runtime<V>, resultClass: JClass, ognlExpression: string,
                                parsed: P, target: Option<V>, parameters: Option<V>, execCtx: ExecCtx<V>): Outcome<V>
  {
    match engine.getValue(parsed, BuildContext(target, parameters, execCtx), target)
    case Failure(e) => ExecutionError(e)
    case Success(result) => CheckResult(rt, resultClass, ognlExpression, result)
  }

  /** Whether a call found its expression in the cache, parsed it, or failed to parse it. */
  datatype ParseEvent = CacheHit | Parsed | ParseFailed

  /** One call's outcome together with the cache it leaves behind. */
  datatype Step<P, V> = Step(outcome: Outcome<V>, cache: map<string, P>, parse: ParseEvent)

  /** `evalOgnlExpression` as a function of the cache before the call. */
  function Evaluate<P, V>(engine: Engine<P, V>, rt: Runtime<V>, cache: map<string, P>, resultType: JType,
                          ognlExpression: string, target: Option<V>, parameters: Option<V>, execCtx: ExecCtx<V>): (r: Step<P, V>)
    // the cache is only added to, and only under this call's expression
    ensures forall e :: e in cache ==> e in r.cache && r.cache[e] == cache[e]
    ensures r.cache.Keys <= cache.Keys + {ognlExpression}
    // a hit never parses; a miss parses, and stores only a successful parse
    ensures r.parse == CacheHit <==> ognlExpression in cache
    ensures r.parse != Parsed ==> r.cache == cache
    ensures r.parse == Parsed ==>
      (engine.parseExpression(ognlExpression).Success?
       && r.cache == cache[ognlExpression := engine.parseExpression(ognlExpression).value])
    ensures r.parse == ParseFailed ==>
      (engine.parseExpression(ognlExpression).Failure?
       && r.outcome == ExecutionError(engine.parseExpression(ognlExpression).error))
    // past parsing, the outcome is the evaluation of the stored parsed form
    ensures r.parse != ParseFailed ==>
      (ognlExpression in r.cache
       && r.outcome == EvaluateParsed(engine, rt, RawClass(resultType), ognlExpression, r.cache[ognlExpression], target, parameters, execCtx))
    // a success is the engine's own value on the stored parse, fresh context, target as root
    ensures r.outcome.Ok? ==>
      (ognlExpression in r.cache
       && engine.getValue(r.cache[ognlExpression], BuildContext(target, parameters, execCtx), target) == Success(r.outcome.value))
  {
    var resultClass := RawClass(resultType);
    if ognlExpression in cache then
      Step(EvaluateParsed(engine, rt, resultClass, ognlExpression, cache[ognlExpression], target, parameters, execCtx), cache, CacheHit)
    else
      match engine.parseExpression(ognlExpression)
      case Failure(e) => Step(ExecutionError(e), cache, ParseFailed)
      case Success(parsed) =>
        Step(EvaluateParsed(engine, rt, resultClass, ognlExpression, parsed, target, parameters, execCtx),
             cache[ognlExpression := parsed], Parsed)
  }

  /**
   * `evalOgnlExpression`: looks the expression up in `cache`, parses and
   * stores it on a miss, builds the context binding by binding, calls the
   * engine with the target as root and checks the result.
   */
  method EvalOgnlExpression<P, V>(cache: OgnlExpressionMap<P>, engine: Engine<P, V>, rt: Runtime<V>, resultType: JType,
                                  ognlExpression: string, target: Option<V>, parameters: Option<V>, execCtx: ExecCtx<V>)
    returns (outcome: Outcome<V>)
    modifies cache
    ensures var step := Evaluate(engine, rt, old(cache.entries), resultType, ognlExpression, target, parameters, execCtx);
      outcome == step.outcome && cache.entries == step.cache
  {
    var parsedExpression := cache.Get(ognlExpression);
    var resultClass := RawClass(resultType);
    if parsedExpression.None? {
      var parsed := engine.parseExpression(ognlExpression);
      if parsed.Failure? {
        return ExecutionError(parsed.error);
      }
      parsedExpression := Some(parsed.value);
      cache.Put(ognlExpression, parsed.value);
    }
    var ctx: Context<V> := map[];
    ctx := ctx[TargetVariableName := target];
    ctx := ctx[ParamVariableName := parameters];
    ctx := ctx[IndexVariableName := execCtx.index];
    assert ctx == BuildContext(target, parameters, execCtx);
    var result := engine.getValue(parsedExpression.value, ctx, target);
    if result.Failure? {
      return ExecutionError(result.error);
    }
    if result.value.Some? && resultClass != ObjectClass {
      if !rt.isAssignableFrom(resultClass, rt.classOf(result.value.value)) {
        return TypeMismatch(ognlExpression, resultClass);
      }
    }
    outcome := Ok(result.value);
  }

  /** A successful non-null result is assignable to the declared raw class, unless that is `Object`. */
  lemma DeclaredTypeHolds<P, V>(engine: Engine<P, V>, rt: Runtime<V>, cache: map<string, P>, resultType: JType,
                                ognlExpression: string, target: Option<V>, parameters: Option<V>, execCtx: ExecCtx<V>)
    ensures var r := Evaluate(engine, rt, cache, resultType, ognlExpression, target, parameters, execCtx);
      r.outcome.Ok? && r.outcome.value.Some? && RawClass(resultType) != ObjectClass
      ==> rt.isAssignableFrom(RawClass(resultType), rt.classOf(r.outcome.value.value))
  {
  }

  /** Only the raw class of the declared type matters: type arguments are never checked. */
  lemma OnlyRawClassChecked<P, V>(engine: Engine<P, V>, rt: Runtime<V>, cache: map<string, P>, t1: JType, t2: JType,
                                  ognlExpression: string, target: Option<V>, parameters: Option<V>, execCtx: ExecCtx<V>)
    requires RawClass(t1) == RawClass(t2)
    ensures Evaluate(engine, rt, cache, t1, ognlExpression, target, parameters, execCtx)
         == Evaluate(engine, rt, cache, t2, ognlExpression, target, parameters, execCtx)
  {
  }

  /** Reference behaviour without any cache: parse, evaluate, check. */
  function EvaluateUncached<P, V>(engine: Engine<P, V>, rt: Runtime<V>, resultType: JType, ognlExpression: string,
                                  target: Option<V>, parameters: Option<V>, execCtx: ExecCtx<V>): Outcome<V>
  {
    match engine.parseExpression(ognlExpression)
    case Failure(e) => ExecutionError(e)
    case Success(parsed) => EvaluateParsed(engine, rt, RawClass(resultType), ognlExpression, parsed, target, parameters, execCtx)
  }

  /** Every cached form is what the engine parses its key to (true of the empty cache). */
  ghost predicate Coherent<P, V>(engine: Engine<P, V>, cache: map<string, P>) {
    forall e :: e in cache ==> engine.parseExpression(e) == Success(cache[e])
  }

  /** Memoisation is invisible: a coherent cache gives the uncached outcome and stays coherent. */
  lemma MemoisationTransparent<P, V>(engine: Engine<P, V>, rt: Runtime<V>, cache: map<string, P>, resultType: JType,
                                     ognlExpression: string, target: Option<V>, parameters: Option<V>, execCtx: ExecCtx<V>)
    requires Coherent(engine, cache)
    ensures var r := Evaluate(engine, rt, cache, resultType, ognlExpression, target, parameters, execCtx);
      r.outcome == EvaluateUncached(engine, rt, resultType, ognlExpression, target, parameters, execCtx)
      && Coherent(engine, r.cache)
  {
  }

  /** One invocation of `execute` by the pipeline. */
  datatype Call<V> = Call(f: FnOgnl<V>, input: Option<V>, execCtx: ExecCtx<V>)

  /** The outcomes of a sequence of calls, the final cache, and the expressions parsed successfully, in order. */
  datatype RunResult<P, V> = RunResult(outcomes: seq<Outcome<V>>, cache: map<string, P>, parsed: seq<string>)

  function StepOf<P, V>(engine: Engine<P, V>, rt: Runtime<V>, cache: map<string, P>, c: Call<V>): Step<P, V> {
    Evaluate(engine, rt, cache, c.f.resultType, c.f.ognlExpression, c.input, c.f.parameters, c.execCtx)
  }

  /** Sequential calls of `execute`, on evaluators sharing one class-wide cache. */
  function Run<P, V>(engine: Engine<P, V>, rt: Runtime<V>, cache: map<string, P>, calls: seq<Call<V>>): (r: RunResult<P, V>)
    ensures |r.outcomes| == |calls|
    decreases |calls|
  {
    if calls == [] then
      RunResult([], cache, [])
    else
      var step := StepOf(engine, rt, cache, calls[0]);
      var rest := Run(engine, rt, step.cache, calls[1..]);
      var parsedHere := if step.parse == Parsed then [calls[0].f.ognlExpression] else [];
      RunResult([step.outcome] + rest.outcomes, rest.cache, parsedHere + rest.parsed)
  }

  /**
   * Each expression is parsed successfully at most once, and never when it
   * was already cached; the final cache holds exactly the initial keys and
   * the successfully parsed expressions (a failed parse adds nothing).
   */
  lemma {:induction false} RunParsesEachExpressionAtMostOnce<P, V>(engine: Engine<P, V>, rt: Runtime<V>, cache: map<string, P>, calls: seq<Call<V>>)
    ensures var r := Run(engine, rt, cache, calls);
      && (forall e :: e in r.parsed ==> e !in cache)
      && (forall i, j :: 0 <= i < j < |r.parsed| ==> r.parsed[i] != r.parsed[j])
      && (forall e :: e in r.cache <==> e in cache || e in r.parsed)
    decreases |calls|
  {
    if calls != [] {
      var step := StepOf(engine, rt, cache, calls[0]);
      RunParsesEachExpressionAtMostOnce(engine, rt, step.cache, calls[1..]);
      var rest := Run(engine, rt, step.cache, calls[1..]);
      var r := Run(engine, rt, cache, calls);
      if step.parse == Parsed {
        var e := calls[0].f.ognlExpression;
        assert r.parsed == [e] + rest.parsed;
        assert e in step.cache && e !in cache;
        forall i, j | 0 <= i < j < |r.parsed| ensures r.parsed[i] != r.parsed[j] {
          assert r.parsed[j] == rest.parsed[j - 1];
          if i > 0 {
            assert r.parsed[i] == rest.parsed[i - 1];
          }
        }
      } else {
        assert r.parsed == rest.parsed;
      }
    }
  }

  /**
   * A cached parsed form is never replaced: it is still in the final cache,
   * and every call of the run with that expression evaluates that very form.
   */
  lemma {:induction false} RunKeepsCachedForms<P, V>(engine: Engine<P, V>, rt: Runtime<V>, cache: map<string, P>, calls: seq<Call<V>>)
    ensures var r := Run(engine, rt, cache, calls);
      && (forall e :: e in cache ==> e in r.cache && r.cache[e] == cache[e])
      && forall i :: 0 <= i < |calls| && calls[i].f.ognlExpression in cache ==>
           r.outcomes[i] == EvaluateParsed(engine, rt, RawClass(calls[i].f.resultType), calls[i].f.ognlExpression,
                                            cache[calls[i].f.ognlExpression], calls[i].input, calls[i].f.parameters, calls[i].execCtx)
    decreases |calls|
  {
    if calls != [] {
      var step := StepOf(engine, rt, cache, calls[0]);
      RunKeepsCachedForms(engine, rt, step.cache, calls[1..]);
      var r := Run(engine, rt, cache, calls);
      var rest := Run(engine, rt, step.cache, calls[1..]);
      forall i | 0 <= i < |calls| && calls[i].f.ognlExpression in cache
        ensures r.outcomes[i] == EvaluateParsed(engine, rt, RawClass(calls[i].f.resultType), calls[i].f.ognlExpression,
                                                cache[calls[i].f.ognlExpression], calls[i].input, calls[i].f.parameters, calls[i].execCtx)
      {
        if i > 0 {
          assert r.outcomes[i] == rest.outcomes[i - 1];
          assert calls[i] == calls[1..][i - 1];
        }
      }
    }
  }

  /**
   * Starting from a coherent cache (the empty one in particular), every call
   * of a run has the outcome of the uncached reference, and the cache stays
   * coherent.
   */
  lemma {:induction false} RunMatchesUncached<P, V>(engine: Engine<P, V>, rt: Runtime<V>, cache: map<string, P>, calls: seq<Call<V>>)
    requires Coherent(engine, cache)
    ensures var r := Run(engine, rt, cache, calls);
      && Coherent(engine, r.cache)
      && forall i :: 0 <= i < |calls| ==>
           r.outcomes[i] == EvaluateUncached(engine, rt, calls[i].f.resultType, calls[i].f.ognlExpression, calls[i].input, calls[i].f.parameters, calls[i].execCtx)
    decreases |calls|
  {
    if calls != [] {
      var c := calls[0];
      var step := StepOf(engine, rt, cache, c);
      MemoisationTransparent(engine, rt, cache, c.f.resultType, c.f.ognlExpression, c.input, c.f.parameters, c.execCtx);
      RunMatchesUncached(engine, rt, step.cache, calls[1..]);
      var r := Run(engine, rt, cache, calls);
      var rest := Run(engine, rt, step.cache, calls[1..]);
      forall i | 0 <= i < |calls|
        ensures r.outcomes[i]
          == EvaluateUncached(engine, rt, calls[i].f.resultType, calls[i].f.ognlExpression, calls[i].input, calls[i].f.parameters, calls[i].execCtx)
      {
        if i > 0 {
          assert r.outcomes[i] == rest.outcomes[i - 1];
          assert calls[i] == calls[1..][i - 1];
        }
      }
    }
  }
}
