/**
 * The function hub `org.op4j.ognl.functions.FnOgnl`: representative
 * factories and what their declared result types mean for evaluation.
 * Evaluation itself is `TypedEvaluation.Evaluate`, run against this class's
 * own cache.
 */
module OgnlFunctions {
  import opened Wrappers
  import opened JavaTypes
  import opened OgnlEngine
  import opened TypedEvaluation

  /** `evalForObject`: result type `Types.OBJECT`. */
  function EvalForObject<V>(ognlExpression: Option<string>, optionalParameters: Option<V>): (r: Result<FnOgnl<V>, IllegalArgument>)
    ensures r.Success? <==> ognlExpression.Some?
    ensures r.Success? ==>
      (RawClass(r.value.resultType) == ObjectClass && r.value.ognlExpression == ognlExpression.value
       && r.value.parameters == optionalParameters)
  {
    New(Some(ObjectType), ognlExpression, optionalParameters)
  }

  /** `evalFor`: the caller's result type, which may itself be null. */
  function EvalFor<V>(resultType: Option<JType>, ognlExpression: Option<string>, optionalParameters: Option<V>): (r: Result<FnOgnl<V>, IllegalArgument>)
    ensures r.Success? <==> resultType.Some? && ognlExpression.Some?
    ensures r.Success? ==>
      (r.value.resultType == resultType.value && r.value.ognlExpression == ognlExpression.value
       && r.value.parameters == optionalParameters)
  {
    New(resultType, ognlExpression, optionalParameters)
  }

  /** `evalForInteger`: result type `Types.INTEGER`. */
  function EvalForInteger<V>(ognlExpression: Option<string>, optionalParameters: Option<V>): (r: Result<FnOgnl<V>, IllegalArgument>)
    ensures r.Success? <==> ognlExpression.Some?
    ensures r.Success? ==>
      (r.value.resultType == IntegerType && RawClass(r.value.resultType) == IntegerClass
       && r.value.ognlExpression == ognlExpression.value && r.value.parameters == optionalParameters)
  {
    New(Some(IntegerType), ognlExpression, optionalParameters)
  }

  /** `evalForListOf`: result type `Types.listOf(resultType)`, whose raw class is `List`. */
  function EvalForListOf<V>(resultType: JType, ognlExpression: Option<string>, optionalParameters: Option<V>): (r: Result<FnOgnl<V>, IllegalArgument>)
    ensures r.Success? <==> ognlExpression.Some?
    ensures r.Success? ==>
      (r.value.resultType == ListOf(resultType) && RawClass(r.value.resultType) == ListClass
       && r.value.ognlExpression == ognlExpression.value && r.value.parameters == optionalParameters)
  {
    New(Some(ListOf(resultType)), ognlExpression, optionalParameters)
  }

  /** `evalForSetOf`: result type `Types.setOf(resultType)`, whose raw class is `Set`. */
  function EvalForSetOf<V>(resultType: JType, ognlExpression: Option<string>, optionalParameters: Option<V>): (r: Result<FnOgnl<V>, IllegalArgument>)
    ensures r.Success? <==> ognlExpression.Some?
    ensures r.Success? ==>
      (r.value.resultType == SetOf(resultType) && RawClass(r.value.resultType) == SetClass
       && r.value.ognlExpression == ognlExpression.value && r.value.parameters == optionalParameters)
  {
    New(Some(SetOf(resultType)), ognlExpression, optionalParameters)
  }

  /**
   * An `evalForObject` evaluator never fails the result check; with a cache
   * holding only the engine's parses, its outcome is the engine's parse and
   * evaluation, unchecked.
   */
  lemma EvalForObjectNeverMismatches<P, V>(engine: Engine<P, V>, rt: Runtime<V>, cache: map<string, P>,
                                           ognlExpression: string, optionalParameters: Option<V>, input: Option<V>, execCtx: ExecCtx<V>)
    ensures var f := EvalForObject(Some(ognlExpression), optionalParameters).value;
      var r := Evaluate(engine, rt, cache, f.resultType, f.ognlExpression, input, f.parameters, execCtx);
      && !r.outcome.TypeMismatch?
      && (Coherent(engine, cache) ==>
            r.outcome == match engine.parseExpression(ognlExpression)
                         case Failure(e) => ExecutionError(e)
                         case Success(parsed) =>
                           match engine.getValue(parsed, BuildContext(input, optionalParameters, execCtx), input)
                           case Failure(e) => ExecutionError(e)
                           case Success(v) => Ok(v))
  {
    var f := EvalForObject(Some(ognlExpression), optionalParameters).value;
    if Coherent(engine, cache) {
      MemoisationTransparent(engine, rt, cache, f.resultType, f.ognlExpression, input, f.parameters, execCtx);
    }
  }

  /**
   * `evalForListOf` checks `List` and nothing about the elements: two
   * evaluators differing only in element type behave identically, and any
   * non-null value they return is a `List`.
   */
  lemma ListOfChecksOnlyList<P, V>(engine: Engine<P, V>, rt: Runtime<V>, cache: map<string, P>, t1: JType, t2: JType,
                                   ognlExpression: string, optionalParameters: Option<V>, input: Option<V>, execCtx: ExecCtx<V>)
    ensures var f1 := EvalForListOf(t1, Some(ognlExpression), optionalParameters).value;
      var f2 := EvalForListOf(t2, Some(ognlExpression), optionalParameters).value;
      var r := Evaluate(engine, rt, cache, f1.resultType, f1.ognlExpression, input, f1.parameters, execCtx);
      && r == Evaluate(engine, rt, cache, f2.resultType, f2.ognlExpression, input, f2.parameters, execCtx)
      && (r.outcome.Ok? && r.outcome.value.Some? ==> rt.isAssignableFrom(ListClass, rt.classOf(r.outcome.value.value)))
  {
    var f1 := EvalForListOf(t1, Some(ognlExpression), optionalParameters).value;
    var f2 := EvalForListOf(t2, Some(ognlExpression), optionalParameters).value;
    OnlyRawClassChecked(engine, rt, cache, f1.resultType, f2.resultType, ognlExpression, input, optionalParameters, execCtx);
    DeclaredTypeHolds(engine, rt, cache, f1.resultType, ognlExpression, input, optionalParameters, execCtx);
  }

  /** `evalForSetOf` likewise checks `Set` and nothing about the elements. */
  lemma SetOfChecksOnlySet<P, V>(engine: Engine<P, V>, rt: Runtime<V>, cache: map<string, P>, t1: JType, t2: JType,
                                 ognlExpression: string, optionalParameters: Option<V>, input: Option<V>, execCtx: ExecCtx<V>)
    ensures var f1 := EvalForSetOf(t1, Some(ognlExpression), optionalParameters).value;
      var f2 := EvalForSetOf(t2, Some(ognlExpression), optionalParameters).value;
      var r := Evaluate(engine, rt, cache, f1.resultType, f1.ognlExpression, input, f1.parameters, execCtx);
      && r == Evaluate(engine, rt, cache, f2.resultType, f2.ognlExpression, input, f2.parameters, execCtx)
      && (r.outcome.Ok? && r.outcome.value.Some? ==> rt.isAssignableFrom(SetClass, rt.classOf(r.outcome.value.value)))
  {
    var f1 := EvalForSetOf(t1, Some(ognlExpression), optionalParameters).value;
    var f2 := EvalForSetOf(t2, Some(ognlExpression), optionalParameters).value;
    OnlyRawClassChecked(engine, rt, cache, f1.resultType, f2.resultType, ognlExpression, input, optionalParameters, execCtx);
    DeclaredTypeHolds(engine, rt, cache, f1.resultType, ognlExpression, input, optionalParameters, execCtx);
  }

  /** An `evalForInteger` evaluator that succeeds with a non-null value returned something assignable to `Integer`. */
  lemma EvalForIntegerTypeSafe<P, V>(engine: Engine<P, V>, rt: Runtime<V>, cache: map<string, P>,
                                     ognlExpression: string, optionalParameters: Option<V>, input: Option<V>, execCtx: ExecCtx<V>)
    ensures var f := EvalForInteger(Some(ognlExpression), optionalParameters).value;
      var r := Evaluate(engine, rt, cache, f.resultType, f.ognlExpression, input, f.parameters, execCtx);
      r.outcome.Ok? && r.outcome.value.Some? ==> rt.isAssignableFrom(IntegerClass, rt.classOf(r.outcome.value.value))
  {
  }
}
