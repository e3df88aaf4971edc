/**
 * The older revision's `Placeholder` and its two expansion helpers
 * (models/placeholder.py). A placeholder is built from one matched token;
 * `all_placeholders` lists every text obtained from a template by expanding
 * a single token, and `process_placeholders` expands all tokens of a
 * template at random.
 *
 * `random.choice([True, False])` is the caller-supplied `coin`, and
 * `random.choice(values)` the caller-supplied `pick`, indexed by the
 * position of the token. The grammars are given by their value lists.
 */
module ModelsPlaceholder {
  import opened Wrappers
  import opened Errors
  import opened PyStr
  import opened PyDict
  import ReplacementPattern
  import Intents

  /** The value list of each grammar, by grammar name. */
  type Values = Dict<string, seq<string>>

  datatype Placeholder = Placeholder(placeholderText: string, optional: bool, ignore: bool, name: string)

  /**
   * `Placeholder(text)`: the token stripped of outer whitespace, and the
   * name stripped of braces and, when it ends with `?`, of `?` (the rule
   * `intents.py` also follows). Only an optional placeholder draws the coin.
   */
  function NewPlaceholder(text: string, coin: bool): (p: Placeholder)
    ensures p.ignore ==> p.optional
  {
    Placeholder(Strip(text, Whitespace), Intents.Optional(text), Intents.Elided(text, coin), Intents.LookupName(text))
  }

  /** The characters a name must not start or end with for its token to keep it whole. */
  const NameEnds: set<char> := {'{', '}', '?'}

  /**
   * For the tokens `{n}` and `{n?}`, where `n` neither starts nor ends with
   * a brace or `?`: the name is `n`, the placeholder text is the token
   * itself, only `{n?}` is optional, and only an optional one can be ignored.
   */
  lemma TokenPlaceholder(n: string, optional: bool, coin: bool)
    requires n != [] && n[0] !in NameEnds && n[|n| - 1] !in NameEnds
    ensures var token := "{" + n + (if optional then Intents.OptionalSuffix else "") + "}";
            var p := NewPlaceholder(token, coin);
            && p.name == n && p.placeholderText == token
            && p.optional == optional && (p.ignore <==> optional && coin)
  {
    var m: string := if optional then Intents.OptionalSuffix else "";
    var inner := n + m;
    var token := "{" + n + m + "}";
    TokenInner(n, m, optional);
    StripSurrounded("{", inner, "}", Intents.Braces);
    NameOfInner(n, m, optional);
    TokenText(token);
  }

  /** The token is `{` + `n` + `m` + `}`, and `n` + `m` starts and ends with no brace. */
  lemma TokenInner(n: string, m: string, optional: bool)
    requires n != [] && n[0] !in NameEnds && n[|n| - 1] !in NameEnds
    requires m == if optional then Intents.OptionalSuffix else ""
    ensures "{" + n + m + "}" == "{" + (n + m) + "}"
    ensures (n + m)[0] !in Intents.Braces && (n + m)[|n + m| - 1] !in Intents.Braces
  {
    var inner := n + m;
    assert inner[0] == n[0];
    assert inner[|inner| - 1] == if optional then '?' else n[|n| - 1];
  }

  /** Without its braces, the token is optional exactly when `m` is `?`, and its name is `n`. */
  lemma NameOfInner(n: string, m: string, optional: bool)
    requires n != [] && n[0] !in NameEnds && n[|n| - 1] !in NameEnds
    requires m == if optional then Intents.OptionalSuffix else ""
    ensures EndsWith(n + m, Intents.OptionalSuffix) <==> optional
    ensures (if EndsWith(n + m, Intents.OptionalSuffix) then Strip(n + m, Intents.OptionalMark) else n + m) == n
  {
    var inner := n + m;
    assert inner[|inner| - 1] == if optional then '?' else n[|n| - 1];
    if optional {
      assert n[0] !in Intents.OptionalMark && n[|n| - 1] !in Intents.OptionalMark;
      assert [] + n + Intents.OptionalSuffix == inner;
      StripSurrounded([], n, Intents.OptionalSuffix, Intents.OptionalMark);
    }
  }

  /** A token starting with `{` and ending with `}` has no whitespace to strip. */
  lemma TokenText(token: string)
    requires |token| >= 2 && token[0] == '{' && token[|token| - 1] == '}'
    ensures Strip(token, Whitespace) == token
  {
    assert [] + token + [] == token;
    StripSurrounded([], token, [], Whitespace);
  }

  /**
   * `process(text)`: every occurrence of the placeholder text replaced by
   * `value`, the value the grammar holds once `update` has run.
   */
  function Process(p: Placeholder, text: string, value: string): string
  {
    ReplaceAll(text, p.placeholderText, value)
  }

  /**
   * A text without the placeholder comes back unchanged; otherwise the text
   * before its first occurrence is kept and the value follows it.
   */
  lemma ProcessReplaces(p: Placeholder, text: string, value: string)
    requires p.placeholderText != []
    ensures !Contains(text, p.placeholderText) ==> Process(p, text, value) == text
    ensures Contains(text, p.placeholderText) ==>
              var f := Find(text, p.placeholderText);
              var r := Process(p, text, value);
              && f + |value| <= |r| && r[..f] == text[..f] && r[f..f + |value|] == value
  {
    if Contains(text, p.placeholderText) {
      Intents.Entity.ValueAtSpan(text, p.placeholderText, value);
    } else {
      ReplaceAllAbsent(text, p.placeholderText, value);
    }
  }

  // ---------------------------------------------------------------------
  // all_placeholders

  /** The values of a known name; none for an unknown one. */
  function KnownValues(grammars: Values, name: string): seq<string>
  {
    if name in Keys(grammars) then GetOr(grammars, name, []) else []
  }

  /**
   * A variant is given by the placeholder text it replaces and what takes
   * its place: nothing, for the removal of an optional token, or a value.
   */
  type Choice = (string, string)

  /** The original text with each choice applied, stripped. */
  function Render(text: string, cs: seq<Choice>): (r: seq<string>)
    ensures |r| == |cs|
  {
    seq(|cs|, i requires 0 <= i < |cs| => Strip(ReplaceAll(text, cs[i].0, cs[i].1), Whitespace))
  }

  /** The `i`-th variant is the original text with the `i`-th choice applied, stripped. */
  lemma RenderAt(text: string, cs: seq<Choice>, i: nat)
    requires i < |cs|
    ensures Render(text, cs)[i] == Strip(ReplaceAll(text, cs[i].0, cs[i].1), Whitespace)
  {
  }

  /** A single choice renders to a single variant. */
  lemma RenderOne(text: string, c: Choice)
    ensures Render(text, [c]) == [Strip(ReplaceAll(text, c.0, c.1), Whitespace)]
  {
    RenderAt(text, [c], 0);
  }

  /** The placeholder replaced by each of the first `k` values. */
  function ValueChoices(pt: string, vs: seq<string>, k: nat): (cs: seq<Choice>)
    requires k <= |vs|
    ensures |cs| == k && forall i :: 0 <= i < k ==> cs[i] == (pt, vs[i])
  {
    if k == 0 then [] else ValueChoices(pt, vs, k - 1) + [(pt, vs[k - 1])]
  }

  /** Rendering a concatenation renders each part. */
  lemma RenderConcat(text: string, a: seq<Choice>, b: seq<Choice>)
    ensures Render(text, a + b) == Render(text, a) + Render(text, b)
  {
    var l, r := Render(text, a + b), Render(text, a) + Render(text, b);
    assert |l| == |r|;
    forall i | 0 <= i < |l|
      ensures l[i] == r[i]
    {
      RenderAt(text, a + b, i);
      if i < |a| {
        assert (a + b)[i] == a[i];
        RenderAt(text, a, i);
      } else {
        assert (a + b)[i] == b[i - |a|];
        RenderAt(text, b, i - |a|);
      }
    }
  }

  /** The removal of an optional placeholder. */
  function RemovalChoice(p: Placeholder): seq<Choice>
  {
    if p.optional then [(p.placeholderText, "")] else []
  }

  /** The choices one placeholder contributes, given the values of its grammar. */
  function ChoicesOf(p: Placeholder, vs: seq<string>): seq<Choice>
  {
    RemovalChoice(p) + ValueChoices(p.placeholderText, vs, |vs|)
  }

  /** A placeholder's removal comes first when it is optional, then one choice per value, in order. */
  lemma ChoicesOfOrder(p: Placeholder, vs: seq<string>)
    ensures var cs := ChoicesOf(p, vs);
            var o := if p.optional then 1 else 0;
            && |cs| == o + |vs|
            && (p.optional ==> cs[0] == (p.placeholderText, ""))
            && forall i :: 0 <= i < |vs| ==> cs[o + i] == (p.placeholderText, vs[i])
  {
  }

  /** The placeholders of the tokens, as `all_placeholders` builds them (the coin is not looked at there). */
  function Parsed(tokens: seq<string>): (ps: seq<Placeholder>)
    ensures |ps| == |tokens| && forall i :: 0 <= i < |tokens| ==> ps[i] == NewPlaceholder(tokens[i], false)
  {
    seq(|tokens|, i requires 0 <= i < |tokens| => NewPlaceholder(tokens[i], false))
  }

  /** The values each placeholder's name has among the grammars: none for an unknown name. */
  function KnownLists(ps: seq<Placeholder>, grammars: Values): (vss: seq<seq<string>>)
    ensures |vss| == |ps| && forall i :: 0 <= i < |ps| ==> vss[i] == KnownValues(grammars, ps[i].name)
  {
    seq(|ps|, i requires 0 <= i < |ps| => KnownValues(grammars, ps[i].name))
  }

  /** The choices of the first `n` placeholders, given their grammars' values. */
  function Choices(ps: seq<Placeholder>, vss: seq<seq<string>>, n: nat): seq<Choice>
    requires n <= |ps| == |vss|
  {
    if n == 0 then [] else Choices(ps, vss, n - 1) + ChoicesOf(ps[n - 1], vss[n - 1])
  }

  /** What `all_placeholders(text, grammars)` returns. */
  function AllVariants(text: string, grammars: Values): seq<string>
  {
    var ps := Parsed(ReplacementPattern.FindAll(text));
    Render(text, Choices(ps, KnownLists(ps, grammars), |ps|))
  }

  /** The number of optional placeholders among the first `n`. */
  function OptionalCount(ps: seq<Placeholder>, n: nat): nat
    requires n <= |ps|
  {
    if n == 0 then 0 else OptionalCount(ps, n - 1) + (if ps[n - 1].optional then 1 else 0)
  }

  /** The total number of values among the first `n` value lists. */
  function ValueCount(vss: seq<seq<string>>, n: nat): nat
    requires n <= |vss|
  {
    if n == 0 then 0 else ValueCount(vss, n - 1) + |vss[n - 1]|
  }

  /**
   * One variant per optional placeholder plus one per value of each
   * placeholder's grammar (with `vss` the `KnownLists`, an unknown name has
   * no values to count).
   */
  lemma {:induction false} ChoicesCount(ps: seq<Placeholder>, vss: seq<seq<string>>, n: nat)
    requires n <= |ps| == |vss|
    ensures |Choices(ps, vss, n)| == OptionalCount(ps, n) + ValueCount(vss, n)
  {
    if n > 0 {
      ChoicesCount(ps, vss, n - 1);
      ChoicesOfOrder(ps[n - 1], vss[n - 1]);
    }
  }

  /** The choice replaces one placeholder's text by nothing, when it is optional, or by one of its values. */
  ghost predicate ChoiceFor(c: Choice, p: Placeholder, vs: seq<string>)
  {
    c.0 == p.placeholderText && ((p.optional && c.1 == "") || c.1 in vs)
  }

  /** Each choice of a placeholder concerns that placeholder. */
  lemma ChoicesOfFor(p: Placeholder, vs: seq<string>)
    ensures forall i :: 0 <= i < |ChoicesOf(p, vs)| ==> ChoiceFor(ChoicesOf(p, vs)[i], p, vs)
  {
    ChoicesOfOrder(p, vs);
    var o := if p.optional then 1 else 0;
    forall i | 0 <= i < |ChoicesOf(p, vs)|
      ensures ChoiceFor(ChoicesOf(p, vs)[i], p, vs)
    {
      if i >= o {
        assert ChoicesOf(p, vs)[o + (i - o)] == (p.placeholderText, vs[i - o]);
      }
    }
  }

  /** Each choice concerns a single placeholder among the first `n`. */
  lemma {:induction false} ChoicesOneToken(ps: seq<Placeholder>, vss: seq<seq<string>>, n: nat)
    requires n <= |ps| == |vss|
    ensures forall i :: 0 <= i < |Choices(ps, vss, n)| ==>
              exists j :: 0 <= j < n && ChoiceFor(Choices(ps, vss, n)[i], ps[j], vss[j])
  {
    if n > 0 {
      ChoicesOneToken(ps, vss, n - 1);
      var prev, mine := Choices(ps, vss, n - 1), ChoicesOf(ps[n - 1], vss[n - 1]);
      ChoicesOfFor(ps[n - 1], vss[n - 1]);
      assert Choices(ps, vss, n) == prev + mine;
      var cs := Choices(ps, vss, n);
      forall i | 0 <= i < |cs|
        ensures exists j :: 0 <= j < n && ChoiceFor(cs[i], ps[j], vss[j])
      {
        if i < |prev| {
          assert cs[i] == prev[i];
          var j :| 0 <= j < n - 1 && ChoiceFor(prev[i], ps[j], vss[j]);
          assert ChoiceFor(cs[i], ps[j], vss[j]);
        } else {
          assert cs[i] == mine[i - |prev|];
          assert ChoiceFor(cs[i], ps[n - 1], vss[n - 1]);
        }
      }
    } else {
      assert Choices(ps, vss, n) == [];
    }
  }

  /** The inner loop of `all_placeholders`: the original text with the placeholder replaced by each value in turn. */
  method Substitute(original: string, pt: string, values: seq<string>) returns (substituted: seq<string>)
    ensures substituted == Render(original, ValueChoices(pt, values, |values|))
  {
    substituted := [];
    for k := 0 to |values|
      invariant substituted == Render(original, ValueChoices(pt, values, k))
    {
      RenderConcat(original, ValueChoices(pt, values, k), [(pt, values[k])]);
      substituted := substituted + [Strip(ReplaceAll(original, pt, values[k]), Whitespace)];
    }
  }

  /** The body of `all_placeholders`' loop for one placeholder: its removal, if optional, then its substitutions. */
  method TokenVariants(original: string, p: Placeholder, values: seq<string>) returns (r: seq<string>)
    ensures r == Render(original, ChoicesOf(p, values))
  {
    var removal: seq<string> := [];
    if p.optional {
      removal := [Strip(ReplaceAll(original, p.placeholderText, ""), Whitespace)];
    }
    assert removal == Render(original, RemovalChoice(p));
    var substituted := Substitute(original, p.placeholderText, values);
    RenderConcat(original, RemovalChoice(p), ValueChoices(p.placeholderText, values, |values|));
    r := removal + substituted;
  }

  /** The variants of the first `i + 1` placeholders extend those of the first `i`. */
  lemma RenderStep(text: string, ps: seq<Placeholder>, vss: seq<seq<string>>, i: nat)
    requires i < |ps| == |vss|
    ensures Render(text, Choices(ps, vss, i + 1)) == Render(text, Choices(ps, vss, i)) + Render(text, ChoicesOf(ps[i], vss[i]))
  {
    RenderConcat(text, Choices(ps, vss, i), ChoicesOf(ps[i], vss[i]));
  }

  /** The loop of `all_placeholders` over the placeholders of the matched tokens, building every variant from `original`. */
  method PlaceholdersVariants(original: string, ps: seq<Placeholder>, grammars: Values) returns (rv: seq<string>)
    ensures rv == Render(original, Choices(ps, KnownLists(ps, grammars), |ps|))
  {
    ghost var vss := KnownLists(ps, grammars);
    rv := [];
    for i := 0 to |ps|
      invariant rv == Render(original, Choices(ps, vss, i))
    {
      var values := KnownValues(grammars, ps[i].name);
      var part := TokenVariants(original, ps[i], values);
      RenderStep(original, ps, vss, i);
      rv := rv + part;
    }
  }

  /** `all_placeholders(text, grammars)`. */
  method AllPlaceholders(text: string, grammars: Values) returns (rv: seq<string>)
    ensures rv == AllVariants(text, grammars)
  {
    var original := text;
    var ps := Parsed(ReplacementPattern.FindAll(text));
    rv := PlaceholdersVariants(original, ps, grammars);
  }

  // ---------------------------------------------------------------------
  // process_placeholders

  /** The token's replacement raises: it is not ignored and names a grammar without values. */
  predicate StepFails(grammars: Values, token: string, coin: bool)
  {
    var p := NewPlaceholder(token, coin);
    !p.ignore && p.name in Keys(grammars) && GetOr(grammars, p.name, []) == []
  }

  /**
   * One iteration of `process_placeholders`: an ignored token is removed, a
   * known one replaced by one of its values, an unknown one left in place.
   */
  function PlaceholderStep(grammars: Values, token: string, coin: bool, pick: nat, text: string)
    : (r: Result<string, Error>)
    ensures r.Err? <==> StepFails(grammars, token, coin)
    ensures r.Err? ==> r.error == IndexError
    ensures var p := NewPlaceholder(token, coin);
            && (p.ignore ==> r == Ok(ReplaceAll(text, p.placeholderText, "")))
            && (!p.ignore && p.name in Keys(grammars) && r.Ok? ==>
                  exists v :: v in GetOr(grammars, p.name, []) && r.value == ReplaceAll(text, p.placeholderText, v))
            && (!p.ignore && p.name !in Keys(grammars) ==> r == Ok(text))
  {
    var p := NewPlaceholder(token, coin);
    if p.ignore then Ok(ReplaceAll(text, p.placeholderText, ""))
    else if p.name in Keys(grammars) then
      match Intents.Choose(GetOr(grammars, p.name, []), pick)
      case Err(e) => Err(e)
      case Ok(v) => Ok(ReplaceAll(text, p.placeholderText, v))
    else Ok(text)
  }

  /** `process_placeholders` from the `i`-th token on, with the text so far. */
  function ExpandFrom(grammars: Values, tokens: seq<string>, coin: nat -> bool, pick: nat -> nat, i: nat, text: string)
    : Result<string, Error>
    requires i <= |tokens|
    decreases |tokens| - i
  {
    if i == |tokens| then Ok(Strip(text, Whitespace))
    else
      match PlaceholderStep(grammars, tokens[i], coin(i), pick(i), text)
      case Err(e) => Err(e)
      case Ok(t) => ExpandFrom(grammars, tokens, coin, pick, i + 1, t)
  }

  /** What `process_placeholders(text, grammars)` returns or raises. */
  function Expanded(grammars: Values, text: string, coin: nat -> bool, pick: nat -> nat): Result<string, Error>
  {
    ExpandFrom(grammars, ReplacementPattern.FindAll(text), coin, pick, 0, text)
  }

  /** The result of `process_placeholders` has no outer whitespace left. */
  lemma {:induction false} ExpandFromStripped(grammars: Values, tokens: seq<string>, coin: nat -> bool, pick: nat -> nat,
                                              i: nat, text: string)
    requires i <= |tokens|
    ensures var r := ExpandFrom(grammars, tokens, coin, pick, i, text);
            r.Ok? ==> Strip(r.value, Whitespace) == r.value
    decreases |tokens| - i
  {
    if i == |tokens| {
      StripTwice(text, Whitespace);
    } else {
      var s := PlaceholderStep(grammars, tokens[i], coin(i), pick(i), text);
      if s.Ok? {
        ExpandFromStripped(grammars, tokens, coin, pick, i + 1, s.value);
      }
    }
  }

  /**
   * `process_placeholders` raises, always an IndexError, exactly when some
   * token from the `i`-th on is not ignored and names a grammar without values.
   */
  lemma {:induction false} ExpandFromFails(grammars: Values, tokens: seq<string>, coin: nat -> bool, pick: nat -> nat,
                                           i: nat, text: string)
    requires i <= |tokens|
    ensures var r := ExpandFrom(grammars, tokens, coin, pick, i, text);
            && (r.Err? <==> exists j :: i <= j < |tokens| && StepFails(grammars, tokens[j], coin(j)))
            && (r.Err? ==> r.error == IndexError)
    decreases |tokens| - i
  {
    if i < |tokens| {
      var s := PlaceholderStep(grammars, tokens[i], coin(i), pick(i), text);
      if s.Ok? {
        ExpandFromFails(grammars, tokens, coin, pick, i + 1, s.value);
        if exists j :: i <= j < |tokens| && StepFails(grammars, tokens[j], coin(j)) {
          var j :| i <= j < |tokens| && StepFails(grammars, tokens[j], coin(j));
          assert j != i;
        }
      }
    }
  }

  /** `process_placeholders(text, grammars)`. */
  method ProcessPlaceholders(text: string, grammars: Values, coin: nat -> bool, pick: nat -> nat)
      returns (r: Result<string, Error>)
    ensures r == Expanded(grammars, text, coin, pick)
  {
    var tokens := ReplacementPattern.FindAll(text);
    var t := text;
    for i := 0 to |tokens|
      invariant ExpandFrom(grammars, tokens, coin, pick, i, t) == Expanded(grammars, text, coin, pick)
    {
      var p := NewPlaceholder(tokens[i], coin(i));
      if p.ignore {
        t := ReplaceAll(t, p.placeholderText, "");
      } else if p.name in Keys(grammars) {
        var c := Intents.Choose(GetOr(grammars, p.name, []), pick(i));
        if c.Err? {
          return Err(c.error);
        }
        t := ReplaceAll(t, p.placeholderText, c.value);
      }
    }
    r := Ok(Strip(t, Whitespace));
  }
}
