/**
 * The function hub `org.op4j.functions.ognl.FnOgnl`: its representative
 * factories `asObject`, `asType` and `asInteger`. Evaluation is
 * `TypedEvaluation.Evaluate` (here `evalOgnlExpression` is public), run
 * against this class's own cache.
 */
module FunctionsOgnl {
  import opened Wrappers
  import opened JavaTypes
  import opened OgnlEngine
  import opened TypedEvaluation

  /** `asObject`: result type `Types.OBJECT`. */
  function AsObject<V>(ognlExpression: Option<string>, optionalParameters: Option<V>): (r: Result<FnOgnl<V>, IllegalArgument>)
    ensures r.Success? <==> ognlExpression.Some?
    ensures r.Success? ==>
      (r.value.resultType == ObjectType && r.value.ognlExpression == ognlExpression.value
       && r.value.parameters == optionalParameters)
  {
    New(Some(ObjectType), ognlExpression, optionalParameters)
  }

  /** `asType`: the caller's result type, which may itself be null. */
  function AsType<V>(resultType: Option<JType>, ognlExpression: Option<string>, optionalParameters: Option<V>): (r: Result<FnOgnl<V>, IllegalArgument>)
    ensures r.Success? <==> resultType.Some? && ognlExpression.Some?
    ensures resultType.None? ==> r == Failure(IllegalArgument("Result type cannot be null"))
    ensures r.Success? ==>
      (r.value.resultType == resultType.value && r.value.ognlExpression == ognlExpression.value
       && r.value.parameters == optionalParameters)
  {
    New(resultType, ognlExpression, optionalParameters)
  }

  /** `asInteger`: result type `Types.INTEGER`. */
  function AsInteger<V>(ognlExpression: Option<string>, optionalParameters: Option<V>): (r: Result<FnOgnl<V>, IllegalArgument>)
    ensures r.Success? <==> ognlExpression.Some?
    ensures r.Success? ==>
      (r.value.resultType == IntegerType && r.value.ognlExpression == ognlExpression.value
       && r.value.parameters == optionalParameters)
  {
    New(Some(IntegerType), ognlExpression, optionalParameters)
  }

  /**
   * An `asObject` evaluator never fails the result check: once the
   * expression is parsed, whatever the engine returns is returned.
   */
  lemma AsObjectReturnsEngineValue<P, V>(engine: Engine<P, V>, rt: Runtime<V>, cache: map<string, P>,
                                         ognlExpression: string, optionalParameters: Option<V>, input: Option<V>, execCtx: ExecCtx<V>)
    requires ognlExpression in cache
    ensures var f := AsObject(Some(ognlExpression), optionalParameters).value;
      var r := Evaluate(engine, rt, cache, f.resultType, f.ognlExpression, input, f.parameters, execCtx);
      match engine.getValue(cache[ognlExpression], BuildContext(input, optionalParameters, execCtx), input)
      case Success(v) => r.outcome == Ok(v)
      case Failure(e) => r.outcome == ExecutionError(e)
  {
  }

  /**
   * An `asType` evaluator whose raw class is not `Object` rejects a non-null
   * engine result of a non-assignable class, and returns any other result
   * unchanged.
   */
  lemma AsTypeChecksResult<P, V>(engine: Engine<P, V>, rt: Runtime<V>, cache: map<string, P>, resultType: JType,
                                 ognlExpression: string, optionalParameters: Option<V>, input: Option<V>, execCtx: ExecCtx<V>, v: V)
    requires ognlExpression in cache
    requires RawClass(resultType) != ObjectClass
    requires engine.getValue(cache[ognlExpression], BuildContext(input, optionalParameters, execCtx), input) == Success(Some(v))
    ensures var f := AsType(Some(resultType), Some(ognlExpression), optionalParameters).value;
      var r := Evaluate(engine, rt, cache, f.resultType, f.ognlExpression, input, f.parameters, execCtx);
      r.outcome == if rt.isAssignableFrom(RawClass(resultType), rt.classOf(v)) then Ok(Some(v))
                   else TypeMismatch(ognlExpression, RawClass(resultType))
  {
  }
}
