/**
 * The texts of the parameter type registry's exceptions, and the suggestions an
 * ambiguous regular expression receives: every way of putting candidate names
 * into its capture groups.
 */
module Messages {

  /** A capture group `(group)` followed by the literal text up to the next group. */
  datatype Segment = Segment(group: string, literal: string)

  /** A raw regular expression: literal `head`, then groups each followed by literal text. */
  datatype Pattern = Pattern(head: string, segments: seq<Segment>)

  /** The regular expression's source text: the head, then each group in parentheses followed by its literal. */
  function Source(p: Pattern): (r: string)
    ensures |r| >= |p.head| && r[..|p.head|] == p.head
    ensures p.segments != [] ==> |r| > |p.head| && r[|p.head|] == '('
    decreases |p.segments|
  {
    if p.segments == [] then p.head
    else p.head + "(" + p.segments[0].group + ")" + Source(Pattern(p.segments[0].literal, p.segments[1..]))
  }

  /** `count` consecutive blocks of `size` elements: `count * size`, by repeated addition. */
  function Blocks(count: nat, size: nat): nat
  {
    if count == 0 then 0 else size + Blocks(count - 1, size)
  }

  lemma {:induction false} BlocksIsProduct(count: nat, size: nat)
    ensures Blocks(count, size) == count * size
  {
    if count > 0 {
      BlocksIsProduct(count - 1, size);
      assert count * size == size + (count - 1) * size;
    }
  }

  function Pow(base: nat, exp: nat): nat
  {
    if exp == 0 then 1 else Blocks(base, Pow(base, exp - 1))
  }

  /** The choices in `tails`, each with `name` put in front. */
  function PrependAll(name: string, tails: seq<seq<string>>): (r: seq<seq<string>>)
    ensures |r| == |tails|
    ensures forall k {:trigger r[k]} :: 0 <= k < |tails| ==> r[k] == [name] + tails[k]
  {
    if tails == [] then [] else [[name] + tails[0]] + PrependAll(name, tails[1..])
  }

  /** Every head in front of every tail, the head varying slowest. */
  function Product(heads: seq<string>, tails: seq<seq<string>>): (r: seq<seq<string>>)
    ensures |r| == Blocks(|heads|, |tails|)
  {
    if heads == [] then [] else PrependAll(heads[0], tails) + Product(heads[1..], tails)
  }

  /** `c` chooses one of `names` for each of `n` groups. */
  predicate Over(names: seq<string>, n: nat, c: seq<string>)
  {
    |c| == n && forall i :: 0 <= i < n ==> c[i] in names
  }

  /** Putting a name in front of a choice for `n` groups gives a choice for `n + 1` groups. */
  lemma {:induction false} ProductOver(names: seq<string>, heads: seq<string>, tails: seq<seq<string>>, n: nat)
    requires forall a :: 0 <= a < |heads| ==> heads[a] in names
    requires forall k :: 0 <= k < |tails| ==> Over(names, n, tails[k])
    ensures forall j :: 0 <= j < |Product(heads, tails)| ==> Over(names, n + 1, Product(heads, tails)[j])
  {
    if heads != [] {
      var front := PrependAll(heads[0], tails);
      var rest := Product(heads[1..], tails);
      ProductOver(names, heads[1..], tails, n);
      forall k | 0 <= k < |front| ensures Over(names, n + 1, front[k]) {
        var c := front[k];
        assert c == [heads[0]] + tails[k];
        forall i | 0 <= i < n + 1 ensures c[i] in names {
          if i > 0 { assert c[i] == tails[k][i - 1]; }
        }
      }
      assert Product(heads, tails) == front + rest;
    }
  }

  /** Putting a name in front of each choice for `n` groups gives choices for `n + 1` groups. */
  lemma {:induction false} ProductLengths(heads: seq<string>, tails: seq<seq<string>>, n: nat)
    requires forall k :: 0 <= k < |tails| ==> |tails[k]| == n
    ensures forall j :: 0 <= j < |Product(heads, tails)| ==> |Product(heads, tails)[j]| == n + 1
  {
    if heads != [] {
      ProductLengths(heads[1..], tails, n);
      var front := PrependAll(heads[0], tails);
      var rest := Product(heads[1..], tails);
      assert Product(heads, tails) == front + rest;
    }
  }

  /** The first block of a product puts the first head in front of each tail. */
  lemma ProductFront(heads: seq<string>, tails: seq<seq<string>>, k: nat)
    requires 0 < |heads| && k < |tails|
    ensures k < |Product(heads, tails)| && Product(heads, tails)[k] == [heads[0]] + tails[k]
  {
    var front := PrependAll(heads[0], tails);
    assert Product(heads, tails) == front + Product(heads[1..], tails);
    assert front[k] == [heads[0]] + tails[k];
  }

  /** After the first block, a product continues with the product of the remaining heads. */
  lemma ProductShift(heads: seq<string>, tails: seq<seq<string>>, j: nat)
    requires 0 < |heads| && j < |Product(heads[1..], tails)|
    ensures |tails| + j < |Product(heads, tails)| && Product(heads, tails)[|tails| + j] == Product(heads[1..], tails)[j]
  {
    var front := PrependAll(heads[0], tails);
    var rest := Product(heads[1..], tails);
    assert Product(heads, tails) == front + rest;
  }

  /** The position of each combination in a product: block `a`, place `k`. */
  lemma {:induction false} ProductAt(heads: seq<string>, tails: seq<seq<string>>, a: nat, k: nat)
    requires a < |heads| && k < |tails|
    ensures Blocks(a, |tails|) + k < |Product(heads, tails)|
    ensures Product(heads, tails)[Blocks(a, |tails|) + k] == [heads[a]] + tails[k]
  {
    if a == 0 {
      ProductFront(heads, tails, k);
    } else {
      ProductAt(heads[1..], tails, a - 1, k);
      ProductShift(heads, tails, Blocks(a - 1, |tails|) + k);
      assert heads[1..][a - 1] == heads[a];
    }
  }

  /**
   * Every way of choosing one of `names` for each of `n` groups, in order: the
   * first group's choice varies slowest.
   */
  function Choices(names: seq<string>, n: nat): (r: seq<seq<string>>)
    ensures |r| == Pow(|names|, n)
    ensures forall k :: 0 <= k < |r| ==> |r[k]| == n
  {
    if n == 0 then [[]]
    else
      ProductLengths(names, Choices(names, n - 1), n - 1);
      Product(names, Choices(names, n - 1))
  }

  /** Each choice picks one of `names` for every group. */
  lemma {:induction false} ChoicesOver(names: seq<string>, n: nat)
    ensures forall k :: 0 <= k < |Choices(names, n)| ==> Over(names, n, Choices(names, n)[k])
  {
    if n > 0 {
      ChoicesOver(names, n - 1);
      assert forall a :: 0 <= a < |names| ==> names[a] in names;
      ProductOver(names, names, Choices(names, n - 1), n - 1);
    }
  }

  /** The first choice varies slowest: it selects a block of `Pow(|names|, n)` consecutive choices. */
  lemma ChoicesOrder(names: seq<string>, n: nat, a: nat, k: nat)
    requires a < |names| && k < Pow(|names|, n)
    ensures a * Pow(|names|, n) + k < |Choices(names, n + 1)|
    ensures Choices(names, n + 1)[a * Pow(|names|, n) + k] == [names[a]] + Choices(names, n)[k]
  {
    ProductAt(names, Choices(names, n), a, k);
    BlocksIsProduct(a, Pow(|names|, n));
  }

  /** Every head in front of every tail appears in the product. */
  lemma {:induction false} ProductHas(heads: seq<string>, tails: seq<seq<string>>, h: string, t: seq<string>)
    requires h in heads && t in tails
    ensures [h] + t in Product(heads, tails)
  {
    var front := PrependAll(heads[0], tails);
    var rest := Product(heads[1..], tails);
    assert Product(heads, tails) == front + rest;
    if heads[0] == h {
      var k :| 0 <= k < |tails| && tails[k] == t;
      assert front[k] == [h] + t;
    } else {
      assert h in heads[1..];
      ProductHas(heads[1..], tails, h, t);
    }
  }

  /** Every sequence of names appears among the choices of its length. */
  lemma {:induction false} ChoicesComplete(names: seq<string>, c: seq<string>)
    requires forall i :: 0 <= i < |c| ==> c[i] in names
    ensures c in Choices(names, |c|)
  {
    if |c| > 0 {
      var rest := c[1..];
      forall i | 0 <= i < |rest| ensures rest[i] in names {
        assert rest[i] == c[i + 1];
      }
      ChoicesComplete(names, rest);
      ProductHas(names, Choices(names, |rest|), c[0], rest);
      assert [c[0]] + rest == c;
    }
  }

  /** The pattern with its groups replaced, in order, by the chosen `{name}`s. */
  function Fill(head: string, segments: seq<Segment>, chosen: seq<string>): string
    requires |chosen| == |segments|
    decreases |segments|
  {
    if segments == [] then head
    else head + "{" + chosen[0] + "}" + Fill(segments[0].literal, segments[1..], chosen[1..])
  }

  function FillAll(p: Pattern, choices: seq<seq<string>>): (r: seq<string>)
    requires forall c :: c in choices ==> |c| == |p.segments|
    ensures |r| == |choices|
    ensures forall k {:trigger r[k]} :: 0 <= k < |choices| ==> r[k] == Fill(p.head, p.segments, choices[k])
  {
    if choices == [] then [] else [Fill(p.head, p.segments, choices[0])] + FillAll(p, choices[1..])
  }

  /**
   * The cucumber expressions suggested for an ambiguous regular expression: one per
   * way of filling its groups with candidate names, each filling every group.
   */
  function Suggestions(p: Pattern, names: seq<string>): (r: seq<string>)
    ensures |r| == Pow(|names|, |p.segments|)
  {
    FillAll(p, Choices(names, |p.segments|))
  }

  /** Every suggestion fills each group with one of the candidate names. */
  lemma SuggestionsSound(p: Pattern, names: seq<string>, k: nat)
    requires k < |Suggestions(p, names)|
    ensures exists c :: Over(names, |p.segments|, c) && Suggestions(p, names)[k] == Fill(p.head, p.segments, c)
  {
    ChoicesOver(names, |p.segments|);
    var c := Choices(names, |p.segments|)[k];
    assert Over(names, |p.segments|, c);
  }

  /** Every way of filling the groups with candidate names is suggested. */
  lemma SuggestionsComplete(p: Pattern, names: seq<string>, chosen: seq<string>)
    requires |chosen| == |p.segments|
    requires forall i :: 0 <= i < |chosen| ==> chosen[i] in names
    ensures Fill(p.head, p.segments, chosen) in Suggestions(p, names)
  {
    ChoicesComplete(names, chosen);
    var choices := Choices(names, |chosen|);
    var k :| 0 <= k < |choices| && choices[k] == chosen;
    assert Suggestions(p, names)[k] == Fill(p.head, p.segments, chosen);
  }

  /**
   * The order of the suggestions: the first group's name varies slowest, each
   * selecting a block in which the remaining groups go through their suggestions.
   */
  lemma SuggestionsOrder(head: string, first: Segment, rest: seq<Segment>, names: seq<string>, a: nat, k: nat)
    requires a < |names| && k < Pow(|names|, |rest|)
    ensures var i := a * Pow(|names|, |rest|) + k;
      i < |Suggestions(Pattern(head, [first] + rest), names)| &&
      Suggestions(Pattern(head, [first] + rest), names)[i] ==
        head + "{" + names[a] + "}" + Suggestions(Pattern(first.literal, rest), names)[k]
  {
    ChoicesOrder(names, |rest|, a, k);
    BlocksIsProduct(a, Pow(|names|, |rest|));
    SuggestionAt(head, first, rest, names, a, k, a * Pow(|names|, |rest|) + k);
  }

  /** The suggestion filling the pattern with the choice `[names[a]] + ` the `k`-th shorter one. */
  lemma SuggestionAt(head: string, first: Segment, rest: seq<Segment>, names: seq<string>, a: nat, k: nat, i: nat)
    requires a < |names| && k < Pow(|names|, |rest|)
    requires i < |Choices(names, |rest| + 1)|
    requires Choices(names, |rest| + 1)[i] == [names[a]] + Choices(names, |rest|)[k]
    ensures i < |Suggestions(Pattern(head, [first] + rest), names)|
    ensures Suggestions(Pattern(head, [first] + rest), names)[i] ==
      head + "{" + names[a] + "}" + Suggestions(Pattern(first.literal, rest), names)[k]
  {
    FillFirst(head, first, rest, names[a], Choices(names, |rest|)[k]);
  }

  /** Filling the first group, then the rest of the pattern. */
  lemma FillFirst(head: string, first: Segment, rest: seq<Segment>, name: string, tail: seq<string>)
    requires |tail| == |rest|
    ensures Fill(head, [first] + rest, [name] + tail) == head + "{" + name + "}" + Fill(first.literal, rest, tail)
  {
    assert ([first] + rest)[1..] == rest;
    assert ([name] + tail)[1..] == tail;
  }

  /** No line holds a line feed of its own. */
  predicate LineFree(lines: seq<string>)
  {
    forall i :: 0 <= i < |lines| ==> '\n' !in lines[i]
  }

  /** A text cut after each line feed into its lines; a last line without a line feed is kept too. */
  function Split(text: string): seq<string>
    decreases |text|
  {
    if text == [] then []
    else if text[0] == '\n' then [""] + Split(text[1..])
    else
      var rest := Split(text[1..]);
      if rest == [] then [[text[0]]] else [[text[0]] + rest[0]] + rest[1..]
  }

  /** A line without a line feed, ended by one, is the first line of the text. */
  lemma {:induction false} SplitLine(line: string, more: string)
    requires '\n' !in line
    ensures Split(line + "\n" + more) == [line] + Split(more)
    decreases |line|
  {
    var text := line + "\n" + more;
    if line == [] {
      assert text == "\n" + more;
      assert text[1..] == more;
    } else {
      assert line[0] in line;
      assert text[0] == line[0];
      assert text[1..] == line[1..] + "\n" + more;
      assert '\n' !in line[1..] by {
        forall c | c in line[1..] ensures c in line { }
      }
      SplitLine(line[1..], more);
      assert [line[0]] + line[1..] == line;
    }
  }

  /** The lines, each ended by a line feed: cut at its line feeds, the text gives the lines back. */
  function Join(lines: seq<string>): (r: string)
    ensures lines != [] ==> |r| > 0 && r[|r| - 1] == '\n'
    ensures LineFree(lines) ==> Split(r) == lines
  {
    if lines == [] then ""
    else
      var r := lines[0] + "\n" + Join(lines[1..]);
      assert LineFree(lines) ==> Split(r) == lines by {
        if LineFree(lines) {
          assert '\n' !in lines[0];
          assert LineFree(lines[1..]) by {
            forall i | 0 <= i < |lines[1..]| ensures '\n' !in lines[1..][i] {
              assert lines[1..][i] == lines[i + 1];
            }
          }
          SplitLine(lines[0], Join(lines[1..]));
          assert [lines[0]] + lines[1..] == lines;
        }
      }
      r
  }

  /** Each item indented by three spaces. */
  function Indented(items: seq<string>): (r: seq<string>)
    ensures |r| == |items|
    ensures forall i {:trigger r[i]} :: 0 <= i < |items| ==> r[i] == "   " + items[i]
  {
    if items == [] then [] else ["   " + items[0]] + Indented(items[1..])
  }

  function Braced(names: seq<string>): (r: seq<string>)
    ensures |r| == |names|
    ensures forall i {:trigger r[i]} :: 0 <= i < |names| ==> r[i] == "{" + names[i] + "}"
  {
    if names == [] then [] else ["{" + names[0] + "}"] + Braced(names[1..])
  }

  const YourRegularExpression: string := "Your Regular Expression /"
  const MatchesMultiple: string := "matches multiple parameter types with regexp /"
  const CouldNotDecide: string := "I couldn't decide which one to use. You have two options:"
  const UseExpression: string := "1) Use a Cucumber Expression instead of a Regular Expression. Try one of these:"
  const MakePreferential: string := "2) Make one of the parameter types preferential and continue to use a Regular Expression."
  const UseSingleType: string := "1) Use a single parameter type instead of multiple and combine their regular expressions."

  /**
   * `There can only be one preferential parameter type per regexp...`: the regular
   * expression, the type defined first and the type defined second each stand at a
   * fixed place, so the message names all three.
   */
  function PreferentialMessage(regexp: string, existing: string, defined: string): (r: string)
    ensures var a := |OnlyOnePreferential|;
      var b := a + |regexp| + |UsedForTwo|;
      |r| == b + |existing| + 7 + |defined| + 1 &&
      r[a..a + |regexp|] == regexp && r[b..b + |existing|] == existing && r[b + |existing| + 7..|r| - 1] == defined
  {
    OnlyOnePreferential + regexp + UsedForTwo + existing + "} and {" + defined + "}"
  }

  const OnlyOnePreferential: string := "There can only be one preferential parameter type per regexp. The regexp /"
  const UsedForTwo: string := "/ is used for two preferential parameter types, {"

  /**
   * The lines of the message of `AmbiguousRegularExpressionException`: the pattern and
   * the regular expression, one line per candidate, the two options, and under the
   * first option one line per suggestion.
   */
  function AmbiguousRegexpLines(pattern: Pattern, regexp: string, names: seq<string>): (r: seq<string>)
    ensures |r| == 2 + |names| + 4 + |Suggestions(pattern, names)| + 3
    ensures r[0] == YourRegularExpression + Source(pattern) + "/"
    ensures r[1] == MatchesMultiple + regexp + "/:"
    ensures forall i :: 0 <= i < |names| ==> r[2 + i] == "   " + ("{" + names[i] + "}")
    ensures r[2 + |names|..6 + |names|] == ["", CouldNotDecide, "", UseExpression]
    ensures forall k :: 0 <= k < |Suggestions(pattern, names)| ==>
      r[6 + |names| + k] == "   " + Suggestions(pattern, names)[k]
    ensures r[|r| - 3..] == ["", MakePreferential, ""]
  {
    [YourRegularExpression + Source(pattern) + "/",
     MatchesMultiple + regexp + "/:"] +
    Indented(Braced(names)) +
    ["",
     CouldNotDecide,
     "",
     UseExpression] +
    Indented(Suggestions(pattern, names)) +
    ["",
     MakePreferential,
     ""]
  }

  /** The message text: cut at its line feeds, it gives back its lines. */
  function AmbiguousRegexpMessage(pattern: Pattern, regexp: string, names: seq<string>): (r: string)
    ensures |r| > 0 && r[|r| - 1] == '\n'
    ensures LineFree(AmbiguousRegexpLines(pattern, regexp, names)) ==> Split(r) == AmbiguousRegexpLines(pattern, regexp, names)
  {
    Join(AmbiguousRegexpLines(pattern, regexp, names))
  }

  /**
   * The lines of the message of `AmbiguousTypeException`; `typeKey` is the type's
   * `toString()`. The type, one line per candidate, then the two options, the second
   * naming the type again.
   */
  function AmbiguousTypeLines(typeKey: string, names: seq<string>): (r: seq<string>)
    ensures |r| == 1 + |names| + 6
    ensures r[0] == "There are multiple parameter types for " + typeKey + ":"
    ensures forall i :: 0 <= i < |names| ==> r[1 + i] == "   " + ("{" + names[i] + "}")
    ensures r[1 + |names|..] ==
      ["", CouldNotDecide, "", UseSingleType, "", "2) Create a wrapper for " + typeKey + " to make the difference explicit."]
  {
    ["There are multiple parameter types for " + typeKey + ":"] +
    Indented(Braced(names)) +
    ["",
     CouldNotDecide,
     "",
     UseSingleType,
     "",
     "2) Create a wrapper for " + typeKey + " to make the difference explicit."]
  }

  /** The message text: cut at its line feeds, it gives back its lines. */
  function AmbiguousTypeMessage(typeKey: string, names: seq<string>): (r: string)
    ensures |r| > 0 && r[|r| - 1] == '\n'
    ensures LineFree(AmbiguousTypeLines(typeKey, names)) ==> Split(r) == AmbiguousTypeLines(typeKey, names)
  {
    Join(AmbiguousTypeLines(typeKey, names))
  }
}
