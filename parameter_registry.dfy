/**
 * The parameter type registry as an object: successive `defineParameterType`
 * calls extend its state, lookups read it.
 */
module ParameterRegistry {
  import opened Wrappers
  import opened Exceptions
  import Messages
  import Parameters

  /** A `java.util.Locale`, only passed along. */
  datatype Locale = Locale(languageTag: string)

  class ParameterTypeRegistry {
    const locale: Locale
    /** Every parameter type defined so far, in definition order. */
    var parameterTypes: seq<Parameters.ParameterType>

    ghost predicate Valid()
      reads this
    {
      Parameters.Valid(parameterTypes)
    }

    constructor (locale: Locale)
      ensures this.locale == locale && parameterTypes == []
      ensures Valid()
    {
      this.locale := locale;
      parameterTypes := [];
    }

    /** Throws (leaving the registry as it was) or registers `p` after all earlier types. */
    method DefineParameterType(p: Parameters.ParameterType) returns (outcome: Outcome<CucumberError>)
      requires Valid()
      modifies this
      ensures Valid()
      ensures Parameters.Define(old(parameterTypes), p).Failure? ==>
        outcome == Fail(Parameters.Define(old(parameterTypes), p).error) && parameterTypes == old(parameterTypes)
      ensures Parameters.Define(old(parameterTypes), p).Success? ==>
        outcome == Pass && parameterTypes == old(parameterTypes) + [p]
    {
      var r := Parameters.Define(parameterTypes, p);
      if r.Failure? {
        return Fail(r.error);
      }
      Parameters.DefinePreservesValid(parameterTypes, p);
      parameterTypes := r.value;
      outcome := Pass;
    }

    /** `lookupByTypeName`: the type defined under that name, if any. */
    method LookupByTypeName(name: string) returns (r: Option<Parameters.ParameterType>)
      ensures r == Parameters.LookupByName(parameterTypes, name)
    {
      r := Parameters.LookupByName(parameterTypes, name);
    }

    method LookupByType(typeKey: string) returns (r: Result<Option<Parameters.ParameterType>, CucumberError>)
      ensures r == Parameters.LookupByType(parameterTypes, typeKey)
    {
      r := Parameters.LookupByType(parameterTypes, typeKey);
    }

    method LookupByRegexp(regexp: string, pattern: Messages.Pattern) returns (r: Result<Option<Parameters.ParameterType>, CucumberError>)
      ensures r == Parameters.LookupByRegexp(parameterTypes, regexp, pattern)
    {
      r := Parameters.LookupByRegexp(parameterTypes, regexp, pattern);
    }
  }
}
