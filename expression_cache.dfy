/**
 * The class-wide table from expression text to parsed expression that each
 * `FnOgnl` class keeps in its static field `parsedExpressionsByExpression`.
 */
module ExpressionCache {
  import opened Wrappers

  class OgnlExpressionMap<P> {
    /** The expressions parsed so far and their parsed forms. */
    var entries: map<string, P>

    constructor ()
      ensures entries == map[]
    {
      entries := map[];
    }

    /** `get`: the stored parsed form, or `None` (Java's `null`) on a miss. */
    method Get(expression: string) returns (parsed: Option<P>)
      ensures parsed.Some? <==> expression in entries
      ensures parsed.Some? ==> parsed.value == entries[expression]
    {
      if expression in entries {
        parsed := Some(entries[expression]);
      } else {
        parsed := None;
      }
    }

    /** `put`: stores `parsed` under `expression`; every other entry is kept. */
    method Put(expression: string, parsed: P)
      modifies this
      ensures entries == old(entries)[expression := parsed]
    {
      entries := entries[expression := parsed];
    }
  }
}
