/**
 * Parameter types and what the parameter type registry answers, stated over the
 * sequence of the types defined so far, in definition order.
 */
module Parameters {
  import opened Wrappers
  import opened Exceptions
  import opened Transformers
  import Messages

  /**
   * `new ParameterType<>(name, regexp, type, transformer, useForSnippets, preferForRegexpMatch)`.
   * `typeKey` is the `toString()` of the target type. Only the last flag takes part
   * in regular expression lookup.
   */
  datatype ParameterType = ParameterType(
    name: string,
    regexps: seq<string>,
    typeKey: string,
    transformer: Transformer,
    useForSnippets: bool,
    preferForRegexpMatch: bool)

  /** The types that `keep` selects, in definition order. */
  function Filter(types: seq<ParameterType>, keep: ParameterType -> bool): (r: seq<ParameterType>)
    ensures |r| <= |types|
  {
    if types == [] then [] else (if keep(types[0]) then [types[0]] else []) + Filter(types[1..], keep)
  }

  /** The filtered view holds exactly the types that `keep` selects. */
  lemma {:induction false} FilterMembers(types: seq<ParameterType>, keep: ParameterType -> bool)
    ensures forall q :: q in Filter(types, keep) <==> q in types && keep(q)
  {
    if types != [] {
      FilterMembers(types[1..], keep);
      assert types == [types[0]] + types[1..];
    }
  }

  /** Defining one more type extends each filtered view at its end, or not at all. */
  lemma {:induction false} FilterAppend(types: seq<ParameterType>, p: ParameterType, keep: ParameterType -> bool)
    ensures Filter(types + [p], keep) == Filter(types, keep) + (if keep(p) then [p] else [])
  {
    if types == [] {
      assert types + [p] == [p];
    } else {
      var front := if keep(types[0]) then [types[0]] else [];
      var last := if keep(p) then [p] else [];
      assert (types + [p])[1..] == types[1..] + [p];
      calc {
        Filter(types + [p], keep);
        front + Filter(types[1..] + [p], keep);
        { FilterAppend(types[1..], p, keep); }
        front + (Filter(types[1..], keep) + last);
        (front + Filter(types[1..], keep)) + last;
      }
    }
  }

  /** A filter that keeps every type answers the types themselves. */
  lemma {:induction false} FilterKeepsAll(types: seq<ParameterType>, keep: ParameterType -> bool)
    requires forall i :: 0 <= i < |types| ==> keep(types[i])
    ensures Filter(types, keep) == types
  {
    if types != [] {
      FilterKeepsAll(types[1..], keep);
    }
  }

  function UsesRegexp(regexp: string): ParameterType -> bool
  {
    (q: ParameterType) => regexp in q.regexps
  }

  function HasTypeKey(typeKey: string): ParameterType -> bool
  {
    (q: ParameterType) => q.typeKey == typeKey
  }

  function HasName(name: string): ParameterType -> bool
  {
    (q: ParameterType) => q.name == name
  }

  /** The types registered for a regular expression. */
  function Candidates(types: seq<ParameterType>, regexp: string): seq<ParameterType>
  {
    Filter(types, UsesRegexp(regexp))
  }

  /** The types whose target type has the string form `typeKey`. */
  function WithType(types: seq<ParameterType>, typeKey: string): seq<ParameterType>
  {
    Filter(types, HasTypeKey(typeKey))
  }

  function Named(types: seq<ParameterType>, name: string): seq<ParameterType>
  {
    Filter(types, HasName(name))
  }

  function Names(types: seq<ParameterType>): (r: seq<string>)
    ensures |r| == |types|
    ensures forall i {:trigger r[i]} :: 0 <= i < |types| ==> r[i] == types[i].name
  {
    if types == [] then [] else [types[0].name] + Names(types[1..])
  }

  /** The lookup by name: absent exactly when no type has that name. */
  function LookupByName(types: seq<ParameterType>, name: string): (r: Option<ParameterType>)
    ensures r.None? <==> forall q :: q in types ==> q.name != name
    ensures r.Some? ==> r.value in types && r.value.name == name
  {
    var named := Named(types, name);
    FilterMembers(types, HasName(name));
    if named == [] then None
    else
      assert named[0] in named;
      Some(named[0])
  }

  /** The preferential type among `bucket`, if any. */
  function FirstPreferential(bucket: seq<ParameterType>): (r: Option<ParameterType>)
    ensures r.None? <==> forall q :: q in bucket ==> !q.preferForRegexpMatch
    ensures r.Some? ==> r.value in bucket && r.value.preferForRegexpMatch
  {
    if bucket == [] then None
    else if bucket[0].preferForRegexpMatch then Some(bucket[0])
    else FirstPreferential(bucket[1..])
  }

  /**
   * The first of `regexps` already used by a preferential type, with that type;
   * absent when no preferential type uses any of them.
   */
  function PreferentialClash(types: seq<ParameterType>, regexps: seq<string>): (r: Option<(string, ParameterType)>)
    ensures r.None? <==>
      forall k, q :: 0 <= k < |regexps| && q in types && q.preferForRegexpMatch ==> regexps[k] !in q.regexps
    ensures r.Some? ==>
      r.value.0 in regexps && r.value.1 in types && r.value.1.preferForRegexpMatch && r.value.0 in r.value.1.regexps
  {
    if regexps == [] then None
    else
      FilterMembers(types, UsesRegexp(regexps[0]));
      match FirstPreferential(Candidates(types, regexps[0]))
      case Some(existing) => Some((regexps[0], existing))
      case None =>
        var r := PreferentialClash(types, regexps[1..]);
        assert r.None? ==> forall k, q :: 0 <= k < |regexps| && q in types && q.preferForRegexpMatch ==> regexps[k] !in q.regexps by {
          if r.None? {
            forall k, q | 0 <= k < |regexps| && q in types && q.preferForRegexpMatch
              ensures regexps[k] !in q.regexps
            {
              if k > 0 { assert regexps[k] == regexps[1..][k - 1]; }
            }
          }
        }
        r
  }

  /**
   * The clash reported is the first of `regexps` that a preferential type uses: no
   * regular expression before it has one.
   */
  lemma {:induction false} PreferentialClashFirst(types: seq<ParameterType>, regexps: seq<string>)
    requires PreferentialClash(types, regexps).Some?
    ensures exists k :: 0 <= k < |regexps| && regexps[k] == PreferentialClash(types, regexps).value.0 &&
                        forall j, q :: 0 <= j < k && q in types && q.preferForRegexpMatch ==> regexps[j] !in q.regexps
  {
    FilterMembers(types, UsesRegexp(regexps[0]));
    if FirstPreferential(Candidates(types, regexps[0])).None? {
      var rest := regexps[1..];
      PreferentialClashFirst(types, rest);
      var k' :| 0 <= k' < |rest| && rest[k'] == PreferentialClash(types, rest).value.0 &&
        forall j, q :: 0 <= j < k' && q in types && q.preferForRegexpMatch ==> rest[j] !in q.regexps;
      forall j, q | 0 <= j < k' + 1 && q in types && q.preferForRegexpMatch
        ensures regexps[j] !in q.regexps
      {
        if j > 0 {
          assert regexps[j] == rest[j - 1];
        }
      }
      assert regexps[k' + 1] == rest[k'];
    } else {
      assert regexps[0] == PreferentialClash(types, regexps).value.0;
    }
  }

  /** No other type already preferential for one of `p`'s regular expressions. */
  ghost predicate NoPreferentialRival(types: seq<ParameterType>, p: ParameterType)
  {
    forall q, regexp :: q in types && q.preferForRegexpMatch && regexp in p.regexps ==> regexp !in q.regexps
  }

  function DuplicateNameMessage(name: string): string
  {
    "There is already a parameter type with name " + name
  }

  /**
   * `defineParameterType`: a name already in use is rejected; a preferential type is
   * rejected when a regular expression of its own already has a preferential type;
   * otherwise the type is registered after all earlier ones.
   */
  function Define(types: seq<ParameterType>, p: ParameterType): (r: Result<seq<ParameterType>, CucumberError>)
    ensures r.Success? <==>
      (forall q :: q in types ==> q.name != p.name) && (p.preferForRegexpMatch ==> NoPreferentialRival(types, p))
    ensures r.Success? ==> r.value == types + [p] && LookupByName(r.value, p.name) == Some(p)
    ensures LookupByName(types, p.name).Some? ==> r == Failure(DuplicateTypeName(DuplicateNameMessage(p.name)))
    ensures LookupByName(types, p.name).None? && r.Failure? ==>
      exists regexp, q :: regexp in p.regexps && q in types && q.preferForRegexpMatch && regexp in q.regexps &&
        r.error == CucumberExpressionError(Messages.PreferentialMessage(regexp, q.name, p.name))
    ensures LookupByName(types, p.name).None? && r.Failure? ==>
      PreferentialClash(types, p.regexps).Some? &&
      r.error == CucumberExpressionError(Messages.PreferentialMessage(
        PreferentialClash(types, p.regexps).value.0, PreferentialClash(types, p.regexps).value.1.name, p.name))
  {
    if LookupByName(types, p.name).Some? then
      Failure(DuplicateTypeName(DuplicateNameMessage(p.name)))
    else if p.preferForRegexpMatch && PreferentialClash(types, p.regexps).Some? then
      var (regexp, existing) := PreferentialClash(types, p.regexps).value;
      Failure(CucumberExpressionError(Messages.PreferentialMessage(regexp, existing.name, p.name)))
    else
      FilterAppend(types, p, HasName(p.name));
      assert p.preferForRegexpMatch ==> NoPreferentialRival(types, p) by {
        if p.preferForRegexpMatch {
          forall q, regexp | q in types && q.preferForRegexpMatch && regexp in p.regexps
            ensures regexp !in q.regexps
          {
            var k :| 0 <= k < |p.regexps| && p.regexps[k] == regexp;
          }
        }
      }
      Success(types + [p])
  }

  predicate UniqueNames(types: seq<ParameterType>)
  {
    forall i, j :: 0 <= i < j < |types| ==> types[i].name != types[j].name
  }

  predicate Disjoint(a: seq<string>, b: seq<string>)
  {
    forall regexp :: regexp in a ==> regexp !in b
  }

  /** At most one preferential type per regular expression. */
  predicate OnePreferentialPerRegexp(types: seq<ParameterType>)
  {
    forall i, j :: 0 <= i < j < |types| && types[i].preferForRegexpMatch && types[j].preferForRegexpMatch ==>
      Disjoint(types[i].regexps, types[j].regexps)
  }

  /** What every registry built by successive defines satisfies. */
  predicate Valid(types: seq<ParameterType>)
  {
    UniqueNames(types) && OnePreferentialPerRegexp(types)
  }

  lemma DefinePreservesValid(types: seq<ParameterType>, p: ParameterType)
    requires Valid(types)
    requires Define(types, p).Success?
    ensures Valid(Define(types, p).value)
  {
    var types' := types + [p];
    forall i, j | 0 <= i < j < |types'| ensures types'[i].name != types'[j].name {
      if j == |types| { assert types'[i] in types; }
    }
    forall i, j | 0 <= i < j < |types'| && types'[i].preferForRegexpMatch && types'[j].preferForRegexpMatch
      ensures Disjoint(types'[i].regexps, types'[j].regexps)
    {
      if j == |types| { assert types'[i] in types; }
    }
  }

  /** Every registered type is what the lookup by its name answers. */
  lemma LookupByNameFindsEach(types: seq<ParameterType>, q: ParameterType)
    requires UniqueNames(types)
    requires q in types
    ensures LookupByName(types, q.name) == Some(q)
  {
    var found := LookupByName(types, q.name).value;
    var i :| 0 <= i < |types| && types[i] == found;
    var j :| 0 <= j < |types| && types[j] == q;
    assert !(i < j) && !(j < i);
  }

  /**
   * `lookupByRegexp`: absent when no type uses the regular expression; the one type
   * when only one does; the preferential type when there is one; otherwise
   * `AmbiguousRegularExpressionException` naming the candidates and the suggestions.
   */
  function LookupByRegexp(types: seq<ParameterType>, regexp: string, pattern: Messages.Pattern): (r: Result<Option<ParameterType>, CucumberError>)
    ensures r == Success(None) <==> forall q :: q in types ==> regexp !in q.regexps
    ensures r.Failure? <==>
      |Candidates(types, regexp)| >= 2 && forall q :: q in types && regexp in q.regexps ==> !q.preferForRegexpMatch
    ensures r.Failure? ==>
      r.error == AmbiguousRegularExpression(pattern, regexp, Names(Candidates(types, regexp)))
    ensures r.Success? && r.value.Some? ==>
      var q := r.value.value;
      q in types && regexp in q.regexps && (q.preferForRegexpMatch || Candidates(types, regexp) == [q])
  {
    var bucket := Candidates(types, regexp);
    FilterMembers(types, UsesRegexp(regexp));
    if |bucket| == 0 then
      assert forall q :: q in types ==> regexp !in q.regexps by {
        forall q | q in types ensures regexp !in q.regexps { assert q !in bucket; }
      }
      Success(None)
    else if |bucket| == 1 then
      assert bucket[0] in bucket;
      assert bucket == [bucket[0]];
      Success(Some(bucket[0]))
    else match FirstPreferential(bucket)
      case Some(q) => Success(Some(q))
      case None =>
        assert bucket[0] in bucket;
        Failure(AmbiguousRegularExpression(pattern, regexp, Names(bucket)))
  }

  /** Two preferential types sharing a regular expression are one and the same definition. */
  lemma PreferentialUnique(types: seq<ParameterType>, regexp: string, i: nat, j: nat)
    requires OnePreferentialPerRegexp(types)
    requires i < |types| && j < |types|
    requires types[i].preferForRegexpMatch && types[j].preferForRegexpMatch
    requires regexp in types[i].regexps && regexp in types[j].regexps
    ensures i == j
  {
  }

  /** When a preferential type uses the regular expression, the lookup answers that very type. */
  lemma PreferentialWins(types: seq<ParameterType>, regexp: string, pattern: Messages.Pattern, q: ParameterType)
    requires Valid(types)
    requires q in types && q.preferForRegexpMatch && regexp in q.regexps
    ensures LookupByRegexp(types, regexp, pattern) == Success(Some(q))
  {
    FilterMembers(types, UsesRegexp(regexp));
    assert q in Candidates(types, regexp);
    var r := LookupByRegexp(types, regexp, pattern);
    var winner := r.value.value;
    var i :| 0 <= i < |types| && types[i] == winner;
    var j :| 0 <= j < |types| && types[j] == q;
    PreferentialUnique(types, regexp, i, j);
  }

  /**
   * `lookupByType`: absent when no type has that target type; the one type when
   * exactly one has; otherwise `AmbiguousTypeException` listing them.
   */
  function LookupByType(types: seq<ParameterType>, typeKey: string): (r: Result<Option<ParameterType>, CucumberError>)
    ensures r == Success(None) <==> forall q :: q in types ==> q.typeKey != typeKey
    ensures r.Failure? <==> |WithType(types, typeKey)| >= 2
    ensures r.Failure? ==> r.error == AmbiguousType(typeKey, Names(WithType(types, typeKey)))
    ensures r.Success? && r.value.Some? ==>
      r.value.value in types && forall q :: q in types && q.typeKey == typeKey ==> q == r.value.value
  {
    var matching := WithType(types, typeKey);
    FilterMembers(types, HasTypeKey(typeKey));
    if |matching| == 0 then
      assert forall q :: q in types ==> q.typeKey != typeKey by {
        forall q | q in types ensures q.typeKey != typeKey { assert q !in matching; }
      }
      Success(None)
    else if |matching| == 1 then
      assert matching[0] in matching;
      assert forall q :: q in types && q.typeKey == typeKey ==> q == matching[0] by {
        forall q | q in types && q.typeKey == typeKey ensures q == matching[0] {
          assert q in matching;
        }
      }
      Success(Some(matching[0]))
    else
      assert matching[0] in matching;
      Failure(AmbiguousType(typeKey, Names(matching)))
  }

  /**
   * A non-preferential type with a new name is always accepted, whatever regular
   * expressions and target type it shares with types already defined.
   */
  lemma NonPreferentialAccepted(types: seq<ParameterType>, p: ParameterType)
    requires forall q :: q in types ==> q.name != p.name
    requires !p.preferForRegexpMatch
    ensures Define(types, p) == Success(types + [p])
  {
  }

  /**
   * A type with a new name is accepted when no preferential type defined so far
   * shares one of its regular expressions.
   */
  lemma Accepted(types: seq<ParameterType>, p: ParameterType)
    requires forall q :: q in types ==> q.name != p.name
    requires forall q :: q in types && q.preferForRegexpMatch ==> Disjoint(p.regexps, q.regexps)
    ensures Define(types, p) == Success(types + [p])
  {
  }
}
