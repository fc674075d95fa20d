/**
 * A step expression: a cucumber or regular expression together with the
 * transformers for an optional trailing data table or doc string argument.
 */
module Steps {
  import opened Wrappers
  import opened Transformers

  /** The arguments a match produces, in the order the step definition receives them. */
  datatype Argument =
    | ScalarArgument(parameterTypeName: string, captured: seq<string>)
    | DataTableArgument(tableType: RawTableTransformer, rows: seq<seq<string>>)
    | DocStringArgument(docStringType: DocStringTransformer, content: string)

  /**
   * The wrapped `Expression`: `match` answers the arguments of the capture groups,
   * or `None` where Java returns `null` (no match). `regexp` stands for the compiled
   * `Pattern`, `source` for the expression's source text.
   */
  datatype Expression = Expression(matcher: string -> Option<seq<Argument>>, regexp: string, source: string)

  /**
   * The result of a matching overload that takes an extra argument: no match stays
   * no match; otherwise the captured arguments come first, in their order, and
   * `extra` is the one and only argument added after them.
   */
  function WithTrailing(matched: Option<seq<Argument>>, extra: Argument): (r: Option<seq<Argument>>)
    ensures r.None? <==> matched.None?
    ensures r.Some? ==> |r.value| == |matched.value| + 1
    ensures r.Some? ==> r.value[..|matched.value|] == matched.value
    ensures r.Some? ==> r.value[|matched.value|] == extra
  {
    match matched
    case None => None
    case Some(arguments) => Some(arguments + [extra])
  }

  /** Both overloads with an extra argument match exactly the texts the wrapped expression matches. */
  lemma TrailingOverloadsAgree(matched: Option<seq<Argument>>, table: Argument, docString: Argument)
    ensures WithTrailing(matched, table).None? <==> WithTrailing(matched, docString).None?
    ensures WithTrailing(matched, table).Some? ==>
      WithTrailing(matched, table).value[..|matched.value|] == WithTrailing(matched, docString).value[..|matched.value|]
  {
  }

  class StepExpression {
    const expression: Expression
    const docStringType: DocStringTransformer
    const tableType: RawTableTransformer

    constructor (expression: Expression, docStringType: DocStringTransformer, tableType: RawTableTransformer)
      ensures this.expression == expression
      ensures this.docStringType == docStringType && this.tableType == tableType
    {
      this.expression := expression;
      this.docStringType := docStringType;
      this.tableType := tableType;
    }

    /** `match(text)`: exactly the wrapped expression's answer, no match included. */
    method Match(text: string) returns (r: Option<seq<Argument>>)
      ensures r == expression.matcher(text)
    {
      r := expression.matcher(text);
    }

    function GetRegexp(): (r: string)
      ensures r == expression.regexp
    {
      expression.regexp
    }

    function GetSource(): (r: string)
      ensures r == expression.source
    {
      expression.source
    }

    /** `match(text, tableArgument)`: the wrapped match with one trailing table argument. */
    method MatchTable(text: string, tableArgument: seq<seq<string>>) returns (r: Option<seq<Argument>>)
      ensures r == WithTrailing(expression.matcher(text), DataTableArgument(tableType, tableArgument))
    {
      var list := expression.matcher(text);
      if list.None? {
        return None;
      }
      var arguments := list.value;
      arguments := arguments + [DataTableArgument(tableType, tableArgument)];
      r := Some(arguments);
    }

    /** `match(text, docStringArgument)`: the wrapped match with one trailing doc string argument. */
    method MatchDocString(text: string, docStringArgument: string) returns (r: Option<seq<Argument>>)
      ensures r == WithTrailing(expression.matcher(text), DocStringArgument(docStringType, docStringArgument))
    {
      var list := expression.matcher(text);
      if list.None? {
        return None;
      }
      var arguments := list.value;
      arguments := arguments + [DocStringArgument(docStringType, docStringArgument)];
      r := Some(arguments);
    }
  }
}
