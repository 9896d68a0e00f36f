/**
 * The interface of the OGNL library as the evaluator uses it:
 * `ognl.Ognl.parseExpression` and `ognl.Ognl.getValue`. The grammar and the
 * evaluation rules of OGNL are not part of this model, so the two
 * operations are parameters: any pair of total functions is an engine.
 */
module OgnlEngine {
  import opened Wrappers

  /** `ognl.OgnlException`, with its diagnostic. */
  datatype OgnlException = OgnlException(message: string)

  /** The variable context handed to `getValue`: names to (possibly null) objects. */
  type Context<V> = map<string, Option<V>>

  /**
   * An OGNL engine whose parsed expressions have type `P` and whose objects
   * have type `V`. `getValue(parsed, context, root)` yields `None` for a
   * `null` result.
   */
  datatype Engine<!P, !V> = Engine(
    parseExpression: string -> Result<P, OgnlException>,
    getValue: (P, Context<V>, Option<V>) -> Result<Option<V>, OgnlException>)
}
