/**
 * The scenarios of `ParameterTypeRegistryTest`, stated against the registry model:
 * each method builds a fresh registry, defines the test's types in the test's
 * order and answers what the test inspects.
 */
module RegistryScenarios {
  import opened Wrappers
  import opened Exceptions
  import opened Transformers
  import Messages
  import Parameters
  import ParameterRegistry

  const CapitalisedWord: string := "[A-Z]+\\w+"
  const TitleName: string := "Sir|Madam " + CapitalisedWord

  const NameClass: string := "class io.cucumber.cucumberexpressions.ParameterTypeRegistryTest$Name"
  const PersonClass: string := "class io.cucumber.cucumberexpressions.ParameterTypeRegistryTest$Person"
  const PlaceClass: string := "class io.cucumber.cucumberexpressions.ParameterTypeRegistryTest$Place"

  /** `([A-Z]+\w+) and ([A-Z]+\w+)` */
  const TwoWords: Messages.Pattern :=
    Messages.Pattern("", [Messages.Segment(CapitalisedWord, " and "), Messages.Segment(CapitalisedWord, "")])

  function Name(useForSnippets: bool, preferential: bool): Parameters.ParameterType
  {
    Parameters.ParameterType("name", [CapitalisedWord], NameClass, Transformer(0), useForSnippets, preferential)
  }

  function Person(useForSnippets: bool, preferential: bool): Parameters.ParameterType
  {
    Parameters.ParameterType("person", [CapitalisedWord], PersonClass, Transformer(1), useForSnippets, preferential)
  }

  function Place(useForSnippets: bool, preferential: bool): Parameters.ParameterType
  {
    Parameters.ParameterType("place", [CapitalisedWord], PlaceClass, Transformer(2), useForSnippets, preferential)
  }

  function Title(useForSnippets: bool, preferential: bool): Parameters.ParameterType
  {
    Parameters.ParameterType("title", [TitleName], NameClass, Transformer(3), useForSnippets, preferential)
  }

  /** `place` is preferential for `[A-Z]+\w+` while `name` already is: it is rejected, naming `name`. */
  lemma SecondPreferentialRejected(types: seq<Parameters.ParameterType>)
    requires types == [Name(false, true), Person(false, false)]
    ensures Parameters.Define(types, Place(false, true)) ==
      Failure(CucumberExpressionError(Messages.PreferentialMessage(CapitalisedWord, "name", "place")))
  {
    assert Parameters.PreferentialClash(types, [CapitalisedWord]) == Some((CapitalisedWord, Name(false, true)));
  }

  /** The text of the rejection, as the test expects it. */
  lemma SecondPreferentialMessageRead()
    ensures Messages.PreferentialMessage(CapitalisedWord, "name", "place") ==
      "There can only be one preferential parameter type per regexp. The regexp /" + "[A-Z]+\\w+" +
      "/ is used for two preferential parameter types, {" + "name" + "} and {" + "place" + "}"
  {
  }

  /** A second preferential type for `[A-Z]+\w+` is rejected, naming the first one. */
  method DoesNotAllowMoreThanOnePreferentialParameterTypeForEachRegexp()
    returns (first: Outcome<CucumberError>, second: Outcome<CucumberError>, third: Outcome<CucumberError>)
    ensures first == Pass && second == Pass
    ensures third == Fail(CucumberExpressionError(Messages.PreferentialMessage(CapitalisedWord, "name", "place")))
  {
    var registry := new ParameterRegistry.ParameterTypeRegistry(ParameterRegistry.Locale("en"));
    Parameters.Accepted(registry.parameterTypes, Name(false, true));
    first := registry.DefineParameterType(Name(false, true));
    Parameters.NonPreferentialAccepted(registry.parameterTypes, Person(false, false));
    second := registry.DefineParameterType(Person(false, false));
    assert registry.parameterTypes == [Name(false, true), Person(false, false)];
    SecondPreferentialRejected(registry.parameterTypes);
    third := registry.DefineParameterType(Place(false, true));
  }

  /** With `person` preferential, the regexp lookup answers `person` itself. */
  method LooksUpPreferentialParameterTypeByRegexp()
    returns (found: Result<Option<Parameters.ParameterType>, CucumberError>)
    ensures found == Success(Some(Person(false, true)))
  {
    var registry := new ParameterRegistry.ParameterTypeRegistry(ParameterRegistry.Locale("en"));
    Parameters.NonPreferentialAccepted(registry.parameterTypes, Name(false, false));
    var _ := registry.DefineParameterType(Name(false, false));
    Parameters.Accepted(registry.parameterTypes, Person(false, true));
    var _ := registry.DefineParameterType(Person(false, true));
    Parameters.NonPreferentialAccepted(registry.parameterTypes, Place(false, false));
    var _ := registry.DefineParameterType(Place(false, false));
    Parameters.PreferentialWins(registry.parameterTypes, CapitalisedWord, TwoWords, Person(false, true));
    found := registry.LookupByRegexp(CapitalisedWord, TwoWords);
  }

  lemma PrependToNothing(name: string)
    ensures Messages.PrependAll(name, [[]]) == [[name]]
  {
    var r := Messages.PrependAll(name, [[]]);
    assert r[0] == [name] + [];
    assert [name] + [] == [name];
  }

  lemma PrependToOnes(name: string)
    ensures Messages.PrependAll(name, [["name"], ["person"], ["place"]]) ==
      [[name, "name"], [name, "person"], [name, "place"]]
  {
    var r := Messages.PrependAll(name, [["name"], ["person"], ["place"]]);
    assert r[0] == [name] + ["name"];
    assert r[1] == [name] + ["person"];
    assert r[2] == [name] + ["place"];
    assert [name] + ["name"] == [name, "name"];
    assert [name] + ["person"] == [name, "person"];
    assert [name] + ["place"] == [name, "place"];
  }

  /** Filling both groups of `TwoWords`. */
  lemma FillTwo(a: string, b: string)
    ensures Messages.Fill("", TwoWords.segments, [a, b]) == "{" + a + "} and {" + b + "}"
  {
    var segments := TwoWords.segments;
    assert segments[1..] == [Messages.Segment(CapitalisedWord, "")];
    assert [a, b][1..] == [b];
    assert segments[1..][1..] == [] && [b][1..] == [];
    assert Messages.Fill("", [], []) == "";
    var tail := Messages.Fill(" and ", segments[1..], [b]);
    assert tail == " and " + "{" + b + "}" + "";
    assert Messages.Fill("", segments, [a, b]) == "" + "{" + a + "}" + tail;
  }

  /** The candidate names of the ambiguity scenario, in definition order. */
  const ThreeNames: seq<string> := ["name", "person", "place"]

  /** One group: each candidate name on its own. */
  lemma OneGroupChoices()
    ensures Messages.Choices(ThreeNames, 1) == [["name"], ["person"], ["place"]]
  {
    assert Messages.Choices(ThreeNames, 0) == [[]];
    assert ThreeNames[2..] == ["place"] && ThreeNames[1..] == ["person", "place"];
    PrependToNothing("place");
    PrependToNothing("person");
    PrependToNothing("name");
    assert Messages.Product(ThreeNames[2..], [[]]) == [["place"]];
    assert Messages.Product(ThreeNames[1..], [[]]) == [["person"], ["place"]];
  }

  /** Two groups: the nine pairs, the first group's name varying slowest. */
  lemma TwoGroupChoices()
    ensures Messages.Choices(ThreeNames, 2) == [
      ["name", "name"], ["name", "person"], ["name", "place"],
      ["person", "name"], ["person", "person"], ["person", "place"],
      ["place", "name"], ["place", "person"], ["place", "place"]]
  {
    var ones := [["name"], ["person"], ["place"]];
    OneGroupChoices();
    assert ThreeNames[2..] == ["place"] && ThreeNames[1..] == ["person", "place"];
    PrependToOnes("place");
    PrependToOnes("person");
    PrependToOnes("name");
    assert Messages.Product(ThreeNames[2..], ones) == [["place", "name"], ["place", "person"], ["place", "place"]];
    assert Messages.Product(ThreeNames[1..], ones) == [
      ["person", "name"], ["person", "person"], ["person", "place"],
      ["place", "name"], ["place", "person"], ["place", "place"]];
  }

  lemma NameNameRead()
    ensures "{" + "name" + "} and {" + "name" + "}" == "{name} and {name}"
  {
  }

  lemma NamePersonRead()
    ensures "{" + "name" + "} and {" + "person" + "}" == "{name} and {person}"
  {
  }

  lemma NamePlaceRead()
    ensures "{" + "name" + "} and {" + "place" + "}" == "{name} and {place}"
  {
  }

  lemma PersonNameRead()
    ensures "{" + "person" + "} and {" + "name" + "}" == "{person} and {name}"
  {
  }

  lemma PersonPersonRead()
    ensures "{" + "person" + "} and {" + "person" + "}" == "{person} and {person}"
  {
  }

  lemma PersonPlaceRead()
    ensures "{" + "person" + "} and {" + "place" + "}" == "{person} and {place}"
  {
  }

  lemma PlaceNameRead()
    ensures "{" + "place" + "} and {" + "name" + "}" == "{place} and {name}"
  {
  }

  lemma PlacePersonRead()
    ensures "{" + "place" + "} and {" + "person" + "}" == "{place} and {person}"
  {
  }

  lemma PlacePlaceRead()
    ensures "{" + "place" + "} and {" + "place" + "}" == "{place} and {place}"
  {
  }

  /** The nine texts, each put together from its two names. */
  lemma PairsRead()
    ensures [
      "{" + "name" + "} and {" + "name" + "}",
      "{" + "name" + "} and {" + "person" + "}",
      "{" + "name" + "} and {" + "place" + "}",
      "{" + "person" + "} and {" + "name" + "}",
      "{" + "person" + "} and {" + "person" + "}",
      "{" + "person" + "} and {" + "place" + "}",
      "{" + "place" + "} and {" + "name" + "}",
      "{" + "place" + "} and {" + "person" + "}",
      "{" + "place" + "} and {" + "place" + "}"] == [
      "{name} and {name}",
      "{name} and {person}",
      "{name} and {place}",
      "{person} and {name}",
      "{person} and {person}",
      "{person} and {place}",
      "{place} and {name}",
      "{place} and {person}",
      "{place} and {place}"]
  {
    NameNameRead();
    NamePersonRead();
    NamePlaceRead();
    PersonNameRead();
    PersonPersonRead();
    PersonPlaceRead();
    PlaceNameRead();
    PlacePersonRead();
    PlacePlaceRead();
  }

  /** The suggestions are the nine pairs filled into the two groups, in order. */
  lemma TwoWordsFilledPairs()
    ensures Messages.Suggestions(TwoWords, ThreeNames) == [
      Messages.Fill("", TwoWords.segments, ["name", "name"]),
      Messages.Fill("", TwoWords.segments, ["name", "person"]),
      Messages.Fill("", TwoWords.segments, ["name", "place"]),
      Messages.Fill("", TwoWords.segments, ["person", "name"]),
      Messages.Fill("", TwoWords.segments, ["person", "person"]),
      Messages.Fill("", TwoWords.segments, ["person", "place"]),
      Messages.Fill("", TwoWords.segments, ["place", "name"]),
      Messages.Fill("", TwoWords.segments, ["place", "person"]),
      Messages.Fill("", TwoWords.segments, ["place", "place"])]
  {
    TwoGroupChoices();
  }

  /** Each suggestion fills both groups with a pair of names. */
  lemma TwoWordsFilled()
    ensures Messages.Suggestions(TwoWords, ThreeNames) == [
      "{" + "name" + "} and {" + "name" + "}",
      "{" + "name" + "} and {" + "person" + "}",
      "{" + "name" + "} and {" + "place" + "}",
      "{" + "person" + "} and {" + "name" + "}",
      "{" + "person" + "} and {" + "person" + "}",
      "{" + "person" + "} and {" + "place" + "}",
      "{" + "place" + "} and {" + "name" + "}",
      "{" + "place" + "} and {" + "person" + "}",
      "{" + "place" + "} and {" + "place" + "}"]
  {
    TwoWordsFilledPairs();
    FillTwo("name", "name");
    FillTwo("name", "person");
    FillTwo("name", "place");
    FillTwo("person", "name");
    FillTwo("person", "person");
    FillTwo("person", "place");
    FillTwo("place", "name");
    FillTwo("place", "person");
    FillTwo("place", "place");
  }

  /** The nine suggestions for `([A-Z]+\w+) and ([A-Z]+\w+)`, the first group's name varying slowest. */
  lemma TwoWordsSuggestions()
    ensures Messages.Suggestions(TwoWords, ThreeNames) == [
      "{name} and {name}",
      "{name} and {person}",
      "{name} and {place}",
      "{person} and {name}",
      "{person} and {person}",
      "{person} and {place}",
      "{place} and {name}",
      "{place} and {person}",
      "{place} and {place}"]
  {
    TwoWordsFilled();
    PairsRead();
  }

  /** The source text of `TwoWords`. */
  lemma TwoWordsSource()
    ensures Messages.Source(TwoWords) == "(" + CapitalisedWord + ") and (" + CapitalisedWord + ")"
  {
    var second := Messages.Pattern(" and ", [Messages.Segment(CapitalisedWord, "")]);
    assert TwoWords.segments[1..] == second.segments;
    assert second.segments[1..] == [];
    assert Messages.Source(second) == " and " + "(" + CapitalisedWord + ")" + "";
  }

  /** The candidates, each braced and indented. */
  lemma ThreeNamesListed()
    ensures Messages.Indented(Messages.Braced(ThreeNames)) == ["   {name}", "   {person}", "   {place}"]
  {
    var braced := Messages.Braced(ThreeNames);
    assert braced == ["{" + "name" + "}", "{" + "person" + "}", "{" + "place" + "}"];
    assert "{" + "name" + "}" == "{name}" && "{" + "person" + "}" == "{person}" && "{" + "place" + "}" == "{place}";
    assert braced == ["{name}", "{person}", "{place}"];
    var indented := Messages.Indented(braced);
    assert indented == ["   " + "{name}", "   " + "{person}", "   " + "{place}"];
    assert "   " + "{name}" == "   {name}" && "   " + "{person}" == "   {person}" && "   " + "{place}" == "   {place}";
  }

  /** The first line, with the expression's source put in. */
  lemma SourceLineRead()
    ensures Messages.YourRegularExpression + ("(" + CapitalisedWord + ") and (" + CapitalisedWord + ")") + "/" ==
      "Your Regular Expression /([A-Z]+\\w+) and ([A-Z]+\\w+)/"
  {
  }

  /** The second line, with the regular expression put in. */
  lemma RegexpLineRead()
    ensures Messages.MatchesMultiple + CapitalisedWord + "/:" ==
      "matches multiple parameter types with regexp /[A-Z]+\\w+/:"
  {
  }

  /** The message of the test's `AmbiguousRegularExpressionException`, line by line. */
  lemma TwoWordsAmbiguityLines()
    ensures Messages.AmbiguousRegexpLines(TwoWords, CapitalisedWord, ThreeNames) ==
      ["Your Regular Expression /([A-Z]+\\w+) and ([A-Z]+\\w+)/",
       "matches multiple parameter types with regexp /[A-Z]+\\w+/:"] +
      ["   {name}",
       "   {person}",
       "   {place}"] +
      ["",
       "I couldn't decide which one to use. You have two options:",
       "",
       "1) Use a Cucumber Expression instead of a Regular Expression. Try one of these:"] +
      Messages.Indented([
        "{name} and {name}",
        "{name} and {person}",
        "{name} and {place}",
        "{person} and {name}",
        "{person} and {person}",
        "{person} and {place}",
        "{place} and {name}",
        "{place} and {person}",
        "{place} and {place}"]) +
      ["",
       "2) Make one of the parameter types preferential and continue to use a Regular Expression.",
       ""]
  {
    TwoWordsSource();
    SourceLineRead();
    RegexpLineRead();
    ThreeNamesListed();
    TwoWordsSuggestions();
  }

  /** Three non-preferential types for `[A-Z]+\w+`: the lookup throws, naming all three in definition order. */
  lemma NoPreferentialCandidate(types: seq<Parameters.ParameterType>)
    requires types == [Name(true, false), Person(true, false), Place(true, false)]
    ensures Parameters.LookupByRegexp(types, CapitalisedWord, TwoWords) ==
      Failure(AmbiguousRegularExpression(TwoWords, CapitalisedWord, ["name", "person", "place"]))
  {
    Parameters.FilterKeepsAll(types, Parameters.UsesRegexp(CapitalisedWord));
    assert Parameters.Names(types) == ["name", "person", "place"];
  }

  /** With no preferential type, the regexp lookup throws, naming all three candidates. */
  method ThrowsAmbiguousExceptionOnLookupWhenNoParameterTypesArePreferential()
    returns (found: Result<Option<Parameters.ParameterType>, CucumberError>)
    ensures found == Failure(AmbiguousRegularExpression(TwoWords, CapitalisedWord, ["name", "person", "place"]))
  {
    var registry := new ParameterRegistry.ParameterTypeRegistry(ParameterRegistry.Locale("en"));
    Parameters.NonPreferentialAccepted(registry.parameterTypes, Name(true, false));
    var _ := registry.DefineParameterType(Name(true, false));
    Parameters.NonPreferentialAccepted(registry.parameterTypes, Person(true, false));
    var _ := registry.DefineParameterType(Person(true, false));
    Parameters.NonPreferentialAccepted(registry.parameterTypes, Place(true, false));
    var _ := registry.DefineParameterType(Place(true, false));
    var types := [Name(true, false), Person(true, false), Place(true, false)];
    assert registry.parameterTypes == types;
    NoPreferentialCandidate(types);
    found := registry.LookupByRegexp(CapitalisedWord, TwoWords);
  }

  /** The two candidates for the class `Name`, each braced and indented. */
  lemma NameAndTitleListed()
    ensures Messages.Indented(Messages.Braced(["name", "title"])) == ["   {name}", "   {title}"]
  {
    var braced := Messages.Braced(["name", "title"]);
    assert braced == ["{" + "name" + "}", "{" + "title" + "}"];
    assert "{" + "name" + "}" == "{name}" && "{" + "title" + "}" == "{title}";
    assert braced == ["{name}", "{title}"];
    var indented := Messages.Indented(braced);
    assert indented == ["   " + "{name}", "   " + "{title}"];
    assert "   " + "{name}" == "   {name}" && "   " + "{title}" == "   {title}";
  }

  /** The message of the test's `AmbiguousTypeException`, line by line. */
  lemma NameClassAmbiguityLines()
    ensures Messages.AmbiguousTypeLines(NameClass, ["name", "title"]) == [
      "There are multiple parameter types for " + NameClass + ":",
      "   {name}",
      "   {title}",
      "",
      "I couldn't decide which one to use. You have two options:",
      "",
      "1) Use a single parameter type instead of multiple and combine their regular expressions.",
      "",
      "2) Create a wrapper for " + NameClass + " to make the difference explicit."]
  {
    NameAndTitleListed();
  }

  /** `name` and `title` both produce `Name`: the type lookup throws, naming both in definition order. */
  lemma TwoTypesForName(types: seq<Parameters.ParameterType>)
    requires types == [Name(true, false), Title(true, false)]
    ensures Parameters.LookupByType(types, NameClass) == Failure(AmbiguousType(NameClass, ["name", "title"]))
  {
    Parameters.FilterKeepsAll(types, Parameters.HasTypeKey(NameClass));
    assert Parameters.Names(types) == ["name", "title"];
  }

  /** Two types for the class `Name`: both are accepted, and the type lookup throws, naming both. */
  method ThrowsAmbiguousExceptionOnLookup()
    returns (first: Outcome<CucumberError>, second: Outcome<CucumberError>, found: Result<Option<Parameters.ParameterType>, CucumberError>)
    ensures first == Pass && second == Pass
    ensures found == Failure(AmbiguousType(NameClass, ["name", "title"]))
  {
    var registry := new ParameterRegistry.ParameterTypeRegistry(ParameterRegistry.Locale("en"));
    Parameters.NonPreferentialAccepted(registry.parameterTypes, Name(true, false));
    first := registry.DefineParameterType(Name(true, false));
    Parameters.NonPreferentialAccepted(registry.parameterTypes, Title(true, false));
    second := registry.DefineParameterType(Title(true, false));
    var types := [Name(true, false), Title(true, false)];
    assert registry.parameterTypes == types;
    TwoTypesForName(types);
    found := registry.LookupByType(NameClass);
  }
}
