/**
 * The exception classes the registries throw. The two ambiguity exceptions keep
 * what they were built from; `Message` renders the text `getMessage()` answers.
 */
module Exceptions {
  import Messages

  datatype CucumberError =
    | DuplicateTypeName(message: string)           // DuplicateTypeNameException
    | CucumberExpressionError(message: string)     // CucumberExpressionException
    | AmbiguousType(typeKey: string, names: seq<string>)
                                                   // AmbiguousParameterTypeException.AmbiguousTypeException
    | AmbiguousRegularExpression(pattern: Messages.Pattern, regexp: string, names: seq<string>)
                                                   // AmbiguousParameterTypeException.AmbiguousRegularExpressionException

  /**
   * The exception's message text: the given message for the two plain exceptions;
   * for the ambiguity exceptions a text that, cut at its line feeds, gives back the
   * lines of their layout.
   */
  function Message(e: CucumberError): (r: string)
    ensures e.DuplicateTypeName? || e.CucumberExpressionError? ==> r == e.message
    ensures e.AmbiguousType? || e.AmbiguousRegularExpression? ==> |r| > 0 && r[|r| - 1] == '\n'
    ensures e.AmbiguousType? && Messages.LineFree(Messages.AmbiguousTypeLines(e.typeKey, e.names)) ==>
      Messages.Split(r) == Messages.AmbiguousTypeLines(e.typeKey, e.names)
    ensures e.AmbiguousRegularExpression? && Messages.LineFree(Messages.AmbiguousRegexpLines(e.pattern, e.regexp, e.names)) ==>
      Messages.Split(r) == Messages.AmbiguousRegexpLines(e.pattern, e.regexp, e.names)
  {
    match e
    case DuplicateTypeName(message) => message
    case CucumberExpressionError(message) => message
    case AmbiguousType(typeKey, names) => Messages.AmbiguousTypeMessage(typeKey, names)
    case AmbiguousRegularExpression(pattern, regexp, names) => Messages.AmbiguousRegexpMessage(pattern, regexp, names)
  }
}
