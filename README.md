# Cucumber type registries and step expressions

This project models the type-registration and argument-composition layer of the
Java port of Cucumber Expressions:

- **`DataTableTypeRegistry`**: two string-keyed maps of data table types, one by name and one
  by the `toString()` of the target type. A repeated name is rejected. A repeated type key
  silently replaces the type-keyed entry.
- **`StepExpression`**: wraps an `Expression`. It passes `match`, `getRegexp` and `getSource`
  through unchanged. Its table and doc-string overloads of `match` append exactly one trailing
  argument to the wrapped match, and a `null` (no match) stays `null`.
- **`TypeRegistry`**: a façade that owns one parameter type registry and one data table type
  registry, and forwards each call to exactly one of them.
- **The `ParameterTypeRegistry` contract, as `ParameterTypeRegistryTest` pins it down**:
  - there is at most one preferential parameter type per regular expression;
  - `lookupByRegexp` answers absent when no type uses the regular expression, and the one
    candidate when exactly one does;
  - when several types use it, it answers the preferential type if there is one;
  - when two or more types use the regular expression and none is preferential, it throws
    `AmbiguousRegularExpressionException`. The message lists the candidates, then suggests
    every way of filling the pattern's capture groups with candidate names, with the first
    group varying slowest;
  - `lookupByType` throws `AmbiguousTypeException` when several types produce the same type.

Layout:

- `wrappers.dfy`: `Option` stands for Java `null`, `Result` and `Outcome` stand for a
  call that returns or throws.
- `exceptions.dfy`: the exceptions thrown, and `Message`, which renders each one's text.
- `transformers.dfy`: the user transformer callbacks, as opaque identities.
- `data_tables.dfy`: the data table registry. It holds the pure specification (`Tables`,
  `Define`, the lookups) and the class `DataTableTypeRegistry`, whose methods update the two
  maps in place.
- `steps.dfy`: the class `StepExpression`.
- `messages.dfy`:
  - a regular expression as literal text interleaved with capture groups (`Pattern`);
  - the Cartesian product of candidate names over the groups (`Choices`, `Suggestions`);
  - the exception message layouts.
- `parameters.dfy`: parameter types, and what the parameter type registry answers, as
  functions of the types defined so far in definition order.
- `parameter_registry.dfy`: the class `ParameterTypeRegistry` over that sequence.
- `type_registry.dfy`: the façade `TypeRegistry`.
- `registry_scenarios.dfy`: the four scenarios of `ParameterTypeRegistryTest`, each restated as a
  method that builds a fresh registry object.

Source cells give paths relative to the repository root, with line ranges.

## Model

| member | source | states |
|---|---|---|
| DataTables.Empty | cucumber-expressions/java/src/main/java/io/cucumber/datatable/DataTableTypeRegistry.java:9-14 | A freshly built registry answers absent (`null`) to every name and to every type key. |
| DataTables.Define | cucumber-expressions/java/src/main/java/io/cucumber/datatable/DataTableTypeRegistry.java:16-22 | Failure occurs exactly when the name is already registered, and it is `DuplicateTypeNameException("There is already a data table type with name <name>")`. On success, the new name and the new type key both look up the new type, and every other name and type key looks up what it did before. |
| DataTables.DefinePreservesConsistent | cucumber-expressions/java/src/main/java/io/cucumber/datatable/DataTableTypeRegistry.java:16-22 | A successful define keeps the registry consistent: every entry is filed under its own name or type key, every type-keyed entry is still reachable by its name, and every named type's key has an entry. |
| DataTables.SameTypeKeyOverwritesTypeEntry | cucumber-expressions/java/src/main/java/io/cucumber/datatable/DataTableTypeRegistry.java:16-22 | Only the name is checked. A second type with a new name and the same type key is accepted and replaces the type-keyed entry, while the first stays reachable by its name. |
| DataTables.DataTableTypeRegistry.constructor | cucumber-expressions/java/src/main/java/io/cucumber/datatable/DataTableTypeRegistry.java:9-14 | Both maps start empty (`Empty()`), and the registry is consistent. |
| DataTables.DataTableTypeRegistry.DefineDataTableType | cucumber-expressions/java/src/main/java/io/cucumber/datatable/DataTableTypeRegistry.java:16-22 | On a repeated name it throws and leaves both maps exactly as they were. Otherwise both maps become `Define`'s result. Consistency is kept. |
| DataTables.DataTableTypeRegistry.LookupTableTypeByType | cucumber-expressions/java/src/main/java/io/cucumber/datatable/DataTableTypeRegistry.java:24-26 | Answers the type-keyed entry, or absent, and changes nothing. In a consistent registry the entry it answers is also the one found under that entry's name. |
| DataTables.TypeAnswerFoundByName | cucumber-expressions/java/src/main/java/io/cucumber/datatable/DataTableTypeRegistry.java:16-30 | In a consistent registry, the type-keyed entry is the one registered under its own name, and every named entry has a type-keyed entry for its type. |
| DataTables.DataTableTypeRegistry.LookupTableTypeByName | cucumber-expressions/java/src/main/java/io/cucumber/datatable/DataTableTypeRegistry.java:28-30 | Answers the named entry, or absent, and changes nothing. |
| Steps.WithTrailing | cucumber-expressions/java/src/main/java/io/cucumber/java/StepExpression.java:38-60 | No match stays no match, in both directions. Otherwise the result is exactly one argument longer: the wrapped arguments come first, in order, and the last one is the added argument. |
| Steps.TrailingOverloadsAgree | cucumber-expressions/java/src/main/java/io/cucumber/java/StepExpression.java:38-60 | The table overload and the doc-string overload match exactly the same texts, and they agree on every argument except the trailing one. |
| Steps.StepExpression.constructor | cucumber-expressions/java/src/main/java/io/cucumber/java/StepExpression.java:13-21 | Keeps the wrapped expression and both transformers. They are constant fields and never change afterwards. |
| Steps.StepExpression.Match | cucumber-expressions/java/src/main/java/io/cucumber/java/StepExpression.java:23-26 | Answers exactly the wrapped expression's match, including no match. |
| Steps.StepExpression.GetRegexp | cucumber-expressions/java/src/main/java/io/cucumber/java/StepExpression.java:28-31 | Answers the wrapped expression's regular expression, unchanged. |
| Steps.StepExpression.GetSource | cucumber-expressions/java/src/main/java/io/cucumber/java/StepExpression.java:33-36 | Answers the wrapped expression's source text, unchanged. |
| Steps.StepExpression.MatchTable | cucumber-expressions/java/src/main/java/io/cucumber/java/StepExpression.java:38-49 | The wrapped match, extended by one `DataTableArgument` that carries the construction-time `tableType` and the given rows (`WithTrailing`). No match stays no match. |
| Steps.StepExpression.MatchDocString | cucumber-expressions/java/src/main/java/io/cucumber/java/StepExpression.java:51-60 | The wrapped match, extended by one `DocStringArgument` that carries the construction-time `docStringType` and the given text (`WithTrailing`). No match stays no match. |
| Types.TypeRegistry.constructor | cucumber-expressions/java/src/main/java/io/cucumber/java/TypeRegistry.java:18-21 | Creates a fresh parameter type registry for the given locale, with no types, and a fresh empty data table registry. |
| Types.TypeRegistry.ParameterTypeRegistry | cucumber-expressions/java/src/main/java/io/cucumber/java/TypeRegistry.java:23-25 | Always answers the same owned instance. |
| Types.TypeRegistry.DefineParameterType | cucumber-expressions/java/src/main/java/io/cucumber/java/TypeRegistry.java:27-29 | Has exactly the parameter registry's effect: it throws and leaves the registry unchanged, or it appends the type. The data table registry is untouched. |
| Types.TypeRegistry.DefineDataTableType | cucumber-expressions/java/src/main/java/io/cucumber/java/TypeRegistry.java:31-33 | Has exactly the data table registry's effect, including `DuplicateTypeNameException` on a repeated name. The parameter registry is untouched. |
| Types.TypeRegistry.LookupParameterTypeByType | cucumber-expressions/java/src/main/java/io/cucumber/java/TypeRegistry.java:35-37 | Answers exactly what the parameter registry's `lookupByType` answers, or the exception it throws. |
| Types.TypeRegistry.LookupParameterTypeByTypeName | cucumber-expressions/java/src/main/java/io/cucumber/java/TypeRegistry.java:39-41 | Answers exactly what the parameter registry's `lookupByTypeName` answers. |
| Types.TypeRegistry.LookupTableTypeByType | cucumber-expressions/java/src/main/java/io/cucumber/java/TypeRegistry.java:43-45 | Answers exactly what the data table registry's `lookupTableTypeByType` answers. |
| Types.TypeRegistry.LookupTableTypeByName | cucumber-expressions/java/src/main/java/io/cucumber/java/TypeRegistry.java:47-49 | Answers exactly what the data table registry's `lookupTableTypeByName` answers. |
| Parameters.Define | cucumber-expressions/java/src/test/java/io/cucumber/cucumberexpressions/ParameterTypeRegistryTest.java:34-59 | A define succeeds exactly when the name is new and, for a preferential type, no preferential type defined so far shares one of its regular expressions. On success the type is appended and is found under its name. A repeated name throws `DuplicateTypeNameException`. Otherwise a failure is a `CucumberExpressionException` whose message is `PreferentialMessage` for the first regular expression of the new type that an earlier preferential type already uses, that earlier type, and the new type. |
| Parameters.DefinePreservesValid | cucumber-expressions/java/src/test/java/io/cucumber/cucumberexpressions/ParameterTypeRegistryTest.java:34-59 | Successful defines keep the names unique and keep at most one preferential type per regular expression. |
| Parameters.NonPreferentialAccepted | cucumber-expressions/java/src/test/java/io/cucumber/cucumberexpressions/ParameterTypeRegistryTest.java:42-47 | A non-preferential type with a new name is accepted, even when it shares a regular expression with a preferential type. |
| Parameters.Accepted | cucumber-expressions/java/src/test/java/io/cucumber/cucumberexpressions/ParameterTypeRegistryTest.java:148-156 | A type with a new name is accepted when no preferential type shares one of its regular expressions. This holds whatever target type it shares, e.g. `name` and `title`. |
| Parameters.PreferentialUnique | cucumber-expressions/java/src/test/java/io/cucumber/cucumberexpressions/ParameterTypeRegistryTest.java:34-59 | In a registry built by defines, two preferential types that share a regular expression are the same definition. |
| Parameters.LookupByRegexp | cucumber-expressions/java/src/test/java/io/cucumber/cucumberexpressions/ParameterTypeRegistryTest.java:87-138 | It answers absent exactly when no type uses the regular expression. It throws exactly when at least two types use it and none of them is preferential. The exception carries the pattern, the regular expression and the candidates' names in definition order. An answer is a type that uses the regular expression, and it is either preferential or the only candidate. |
| Parameters.PreferentialWins | cucumber-expressions/java/src/test/java/io/cucumber/cucumberexpressions/ParameterTypeRegistryTest.java:61-85 | When a preferential type uses the regular expression, the lookup answers that very type, however many other types use it. |
| Parameters.LookupByType | cucumber-expressions/java/src/test/java/io/cucumber/cucumberexpressions/ParameterTypeRegistryTest.java:140-174 | It answers absent exactly when no type has the target type. It throws `AmbiguousTypeException` exactly when two or more have it, naming them in definition order. Otherwise it answers the one type that has it. |
| Parameters.LookupByName | cucumber-expressions/java/src/main/java/io/cucumber/java/TypeRegistry.java:39-41 | Answers absent exactly when no defined type has the name. Otherwise it answers a defined type with that name. |
| Parameters.LookupByNameFindsEach | cucumber-expressions/java/src/main/java/io/cucumber/java/TypeRegistry.java:39-41 | With unique names, every defined type is what the lookup by its own name answers. |
| ParameterRegistry.ParameterTypeRegistry.constructor | cucumber-expressions/java/src/test/java/io/cucumber/cucumberexpressions/ParameterTypeRegistryTest.java:32 | A new registry keeps its locale and holds no types. |
| ParameterRegistry.ParameterTypeRegistry.DefineParameterType | cucumber-expressions/java/src/test/java/io/cucumber/cucumberexpressions/ParameterTypeRegistryTest.java:34-59 | It throws `Define`'s exception and leaves the registry unchanged, or it appends the type. The registry invariant (`Valid`) is kept. |
| ParameterRegistry.ParameterTypeRegistry.LookupByTypeName | cucumber-expressions/java/src/main/java/io/cucumber/java/TypeRegistry.java:39-41 | Answers `LookupByName` over the types defined so far. |
| ParameterRegistry.ParameterTypeRegistry.LookupByType | cucumber-expressions/java/src/test/java/io/cucumber/cucumberexpressions/ParameterTypeRegistryTest.java:158-161 | Answers `Parameters.LookupByType` over the types defined so far. |
| ParameterRegistry.ParameterTypeRegistry.LookupByRegexp | cucumber-expressions/java/src/test/java/io/cucumber/cucumberexpressions/ParameterTypeRegistryTest.java:110-113 | Answers `Parameters.LookupByRegexp` over the types defined so far. |
| Parameters.PreferentialClashFirst | cucumber-expressions/java/src/test/java/io/cucumber/cucumberexpressions/ParameterTypeRegistryTest.java:49-57 | The regular expression a rejected preferential define reports is the first of the new type's regular expressions that an earlier preferential type already uses. |
| Messages.Source | cucumber-expressions/java/src/test/java/io/cucumber/cucumberexpressions/ParameterTypeRegistryTest.java:111-115 | The pattern's source text starts with its leading literal and, when the pattern has groups, the first group opens right after it. `RegistryScenarios.TwoWordsSource` shows it is `([A-Z]+\w+) and ([A-Z]+\w+)` for the test's pattern. |
| Messages.Suggestions | cucumber-expressions/java/src/test/java/io/cucumber/cucumberexpressions/ParameterTypeRegistryTest.java:123-132 | The suggestions are the pattern with each group replaced by `{name}`. `Messages.SuggestionsSound`, `SuggestionsComplete` and `SuggestionsOrder` state which and in what order, and `RegistryScenarios.TwoWordsSuggestions` shows the test's nine lines. |
| Messages.Join | cucumber-expressions/java/src/test/java/io/cucumber/cucumberexpressions/ParameterTypeRegistryTest.java:114-135 | Every line is ended by a line feed, so a non-empty joined text ends with one. When no line holds a line feed, cutting the joined text after each line feed gives back the lines. |
| Messages.PreferentialMessage | cucumber-expressions/java/src/test/java/io/cucumber/cucumberexpressions/ParameterTypeRegistryTest.java:57 | The message carries the regular expression, the existing type's name and the new type's name, each at its fixed place between the fixed wording. `RegistryScenarios.SecondPreferentialMessageRead` shows it is the test's text for `[A-Z]+\w+`, `name` and `place`. |
| Messages.AmbiguousRegexpLines | cucumber-expressions/java/src/test/java/io/cucumber/cucumberexpressions/ParameterTypeRegistryTest.java:114-135 | The lines are the two head lines naming the source and the regular expression, one `{name}` line per candidate, the fixed advice lines, one indented line per suggestion, and the closing advice. `RegistryScenarios.TwoWordsAmbiguityLines` shows them equal to the test's lines. |
| Messages.AmbiguousRegexpMessage | cucumber-expressions/java/src/test/java/io/cucumber/cucumberexpressions/ParameterTypeRegistryTest.java:114-135 | The message ends with a line feed. Cutting it after each line feed gives back `AmbiguousRegexpLines`, when no line holds a line feed. |
| Messages.AmbiguousTypeLines | cucumber-expressions/java/src/test/java/io/cucumber/cucumberexpressions/ParameterTypeRegistryTest.java:162-171 | The lines are the header naming the type, one `{name}` line per candidate, and the two numbered pieces of advice. `RegistryScenarios.NameClassAmbiguityLines` shows them equal to the test's lines for `Name`. |
| Messages.AmbiguousTypeMessage | cucumber-expressions/java/src/test/java/io/cucumber/cucumberexpressions/ParameterTypeRegistryTest.java:162-171 | The message ends with a line feed, as the text after `explicit.` does. Cutting it after each line feed gives back `AmbiguousTypeLines`, when no line holds a line feed. |
| Exceptions.Message | cucumber-expressions/java/src/test/java/io/cucumber/cucumberexpressions/ParameterTypeRegistryTest.java:114-136 | A duplicate-name or expression exception's text is its message. An ambiguity exception's text ends with a line feed and, cut after each line feed, is the lines of `AmbiguousRegexpLines` or `AmbiguousTypeLines` for its fields. |
| Messages.ChoicesOver | cucumber-expressions/java/src/test/java/io/cucumber/cucumberexpressions/ParameterTypeRegistryTest.java:124-132 | Every choice fills each group with one of the candidate names. |
| Messages.ChoicesComplete | cucumber-expressions/java/src/test/java/io/cucumber/cucumberexpressions/ParameterTypeRegistryTest.java:124-132 | Every way of filling the groups with candidate names is among the choices. |
| Messages.ChoicesOrder | cucumber-expressions/java/src/test/java/io/cucumber/cucumberexpressions/ParameterTypeRegistryTest.java:124-132 | The first group varies slowest. Choice number `a * |names|^n + k` puts the `a`-th name in front of the `k`-th choice for the remaining `n` groups. |
| Messages.SuggestionsSound | cucumber-expressions/java/src/test/java/io/cucumber/cucumberexpressions/ParameterTypeRegistryTest.java:123-132 | Every suggestion is the pattern with each group replaced by `{name}` of some candidate. There are `|names|^groups` suggestions. |
| Messages.SuggestionsComplete | cucumber-expressions/java/src/test/java/io/cucumber/cucumberexpressions/ParameterTypeRegistryTest.java:123-132 | Every filling of the groups with candidate names is suggested. |
| Messages.SuggestionsOrder | cucumber-expressions/java/src/test/java/io/cucumber/cucumberexpressions/ParameterTypeRegistryTest.java:124-132 | The suggestions come in blocks, one per name for the first group. Suggestion number `a * N + k`, where `N` is the number of suggestions for the rest of the pattern, is the first group filled with the `a`-th name followed by the `k`-th suggestion for the rest. |
| RegistryScenarios.SecondPreferentialRejected | cucumber-expressions/java/src/test/java/io/cucumber/cucumberexpressions/ParameterTypeRegistryTest.java:49-57 | After `name` (preferential) and `person`, defining `place` (preferential) fails with the preferential message naming `[A-Z]+\w+`, `name` and `place`. |
| RegistryScenarios.SecondPreferentialMessageRead | cucumber-expressions/java/src/test/java/io/cucumber/cucumberexpressions/ParameterTypeRegistryTest.java:57 | That message is the text the test expects. |
| RegistryScenarios.DoesNotAllowMoreThanOnePreferentialParameterTypeForEachRegexp | cucumber-expressions/java/src/test/java/io/cucumber/cucumberexpressions/ParameterTypeRegistryTest.java:34-59 | On one registry, the first two defines return normally and the third throws `CucumberExpressionException` with that message. |
| RegistryScenarios.LooksUpPreferentialParameterTypeByRegexp | cucumber-expressions/java/src/test/java/io/cucumber/cucumberexpressions/ParameterTypeRegistryTest.java:61-85 | After defining `name`, `person` (preferential) and `place`, all with the fifth flag `false`, the lookup by `[A-Z]+\w+` answers `person`. |
| RegistryScenarios.TwoWordsSuggestions | cucumber-expressions/java/src/test/java/io/cucumber/cucumberexpressions/ParameterTypeRegistryTest.java:123-132 | For `([A-Z]+\w+) and ([A-Z]+\w+)` and the candidates `name`, `person`, `place`, the suggestions are exactly the nine lines of the test, in its order. |
| RegistryScenarios.TwoWordsAmbiguityLines | cucumber-expressions/java/src/test/java/io/cucumber/cucumberexpressions/ParameterTypeRegistryTest.java:114-135 | The `AmbiguousRegularExpressionException` message is, line for line, the text the test expects. |
| RegistryScenarios.NoPreferentialCandidate | cucumber-expressions/java/src/test/java/io/cucumber/cucumberexpressions/ParameterTypeRegistryTest.java:107-113 | With three non-preferential types for `[A-Z]+\w+`, the lookup throws, naming `name`, `person` and `place`. |
| RegistryScenarios.ThrowsAmbiguousExceptionOnLookupWhenNoParameterTypesArePreferential | cucumber-expressions/java/src/test/java/io/cucumber/cucumberexpressions/ParameterTypeRegistryTest.java:87-138 | On one registry, the regexp lookup throws `AmbiguousRegularExpressionException` for that pattern, regular expression and those three candidates. |
| RegistryScenarios.NameClassAmbiguityLines | cucumber-expressions/java/src/test/java/io/cucumber/cucumberexpressions/ParameterTypeRegistryTest.java:162-171 | The `AmbiguousTypeException` message for `Name` with `name` and `title` is, line for line, the text the test expects. |
| RegistryScenarios.TwoTypesForName | cucumber-expressions/java/src/test/java/io/cucumber/cucumberexpressions/ParameterTypeRegistryTest.java:155-161 | With `name` and `title` both producing `Name`, the type lookup throws, naming both in that order. |
| RegistryScenarios.ThrowsAmbiguousExceptionOnLookup | cucumber-expressions/java/src/test/java/io/cucumber/cucumberexpressions/ParameterTypeRegistryTest.java:140-174 | On one registry, both defines return normally and the type lookup throws `AmbiguousTypeException` naming `name` and `title`. |

## Left out

- The source of `ParameterTypeRegistry` and `AmbiguousParameterTypeException` is not part of
  this model. The parameter type registry is modelled from what `ParameterTypeRegistryTest`
  asserts, and from the messages it expects.
- The fifth constructor flag is modelled as `useForSnippets` and plays no part in lookup.
  `ParameterTypeRegistryTest.java:63-84` passes `false` there for all three types and still
  expects `person` from `lookupByRegexp`, so the flag cannot exclude a type from that lookup.
- Ambiguity messages list the candidates in definition order. No order by name is modelled:
  in every scenario of the test the candidates are defined in the order the messages list them.
- Built-in parameter types and the locale: the locale is only stored, and the registry starts
  with no types.
- Regular expressions are not compiled or matched. A pattern is literal text interleaved
  with capture groups, and `StepExpression` takes the wrapped expression's `match` as a
  given function.
- `lookupByRegexp`'s text argument (`"Lisa and Bob"`) is not modelled. Suggestions are built
  from the pattern's groups and the candidate names, not by generating expressions from the
  text.
- Transformer callbacks are never applied. They are stored and passed along as opaque
  identities.
- `java.lang.reflect.Type` is its `toString()`, a string key.
- `Parameters.LookupByName`: `lookupByTypeName` is not exercised by the test. It is modelled
  as a lookup by the parameter type's name.
- The wording of the parameter registry's `DuplicateTypeNameException` is not shown. The
  model uses the data table registry's pattern with "parameter type".
- `Parameters.Define`: a failing define leaves the registry as it was. Whether the Java
  registry updates some index before it throws is not visible.
- `Steps.StepExpression.MatchTable` and `MatchDocString`: the Java overloads append to the
  list the wrapped match returned, in place. The model appends to a copy of that value, so
  aliasing of that list is not captured.
- `Exceptions.Message` renders the exception text from the structured fields the exceptions
  carry. The scenarios state the text line by line, and `Message` joins the lines, each ended
  by a line feed.
- Thread safety: the registries are plain unsynchronised maps, and nothing here is concurrent.
