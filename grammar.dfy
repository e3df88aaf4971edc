/**
 * `Grammar`: a named table of choices, with synonyms per choice. It is
 * filled from the YAML data of a grammar definition (`load_data`) and then
 * used to fill a placeholder of a template (`update`, `choose`).
 *
 * The expansion of a template that holds placeholders
 * (`get_all_placeholder_values`) is not part of this model: it is the
 * parameter `expand`, a function of the grammars registered with the owning
 * intent (each name mapped to its choices) and of the template. The same
 * map, `known`, is what `load_data` consults for a reference to another
 * grammar.
 */
module Grammar {
  import opened Wrappers
  import opened Errors
  import opened PyStr
  import opened PyDict

  /**
   * `get_all_placeholder_values(template, grammars)`: the values of a
   * template, or the exception it raises (PlaceholderError for a grammar
   * that is not registered), given the registered grammars' choices.
   */
  type Expander = (map<string, seq<string>>, string) -> Result<seq<string>, Error>

  /** `process_template`: a template without `{` stands for itself, any other is expanded. */
  function ProcessTemplate(template: string, known: map<string, seq<string>>, expand: Expander): (values: Result<seq<string>, Error>)
    ensures '{' !in template ==> values == Ok([template])
    ensures '{' in template ==> values == expand(known, template)
  {
    if '{' in template then expand(known, template) else Ok([template])
  }

  /** The value of one entry of a mapping definition. */
  datatype SynonymData =
    | SynList(items: seq<string>)
      /** A string value: `extend` adds its characters one by one. */
    | SynText(text: string)
      /** A value that cannot be iterated (`None`, a number). */
    | SynNone

  /** A grammar definition as the YAML loader returns it. */
  datatype GrammarData =
    | GNone
    | GStr(text: string)
    | GList(items: seq<GrammarData>)
    | GMap(entries: seq<(string, SynonymData)>)
      /** Any other type: a number, a boolean. */
    | GOther

  /** The three tables `load_data` fills. */
  datatype Tables = Tables(choices: seq<string>, synonyms: Dict<string, seq<string>>, usedSynonyms: seq<string>)

  /** `synonyms[k].extend(xs)` on a `defaultdict(list)`. */
  function Extend(d: Dict<string, seq<string>>, k: string, xs: seq<string>): Dict<string, seq<string>>
  {
    Put(d, k, GetOr(d, k, []) + xs)
  }

  /** Extending the list of `k0` changes no other key. */
  lemma ExtendGet(d: Dict<string, seq<string>>, k0: string, xs: seq<string>, k: string)
    ensures Get(Extend(d, k0, xs), k) == if k == k0 then Some(GetOr(d, k0, []) + xs) else Get(d, k)
  {
    PutGet(d, k0, GetOr(d, k0, []) + xs, k);
  }

  /**
   * The expansions of the entries of a synonym list from the `i`-th on,
   * concatenated, up to the first entry whose expansion raises; that
   * exception, if any.
   */
  function ExpandFrom(items: seq<string>, i: nat, known: map<string, seq<string>>, expand: Expander)
    : (r: (seq<string>, Option<Error>))
    requires i <= |items|
    decreases |items| - i
  {
    if i == |items| then ([], None)
    else
      var vs := ProcessTemplate(items[i], known, expand);
      if vs.Err? then ([], Some(vs.error))
      else
        var rest := ExpandFrom(items, i + 1, known, expand);
        (vs.value + rest.0, rest.1)
  }

  /** A synonym list without `{` expands to itself: nothing raises. */
  lemma {:induction false} ExpandPlain(items: seq<string>, i: nat, known: map<string, seq<string>>, expand: Expander)
    requires i <= |items|
    requires forall j :: i <= j < |items| ==> '{' !in items[j]
    ensures ExpandFrom(items, i, known, expand) == (items[i..], None)
    decreases |items| - i
  {
    if i < |items| {
      ExpandPlain(items, i + 1, known, expand);
      assert items[i..] == [items[i]] + items[i + 1..];
    }
  }

  /**
   * `for x in value: synonyms[k].extend(process_template(x, ...))` from the
   * `i`-th entry on: each iteration reads `synonyms[k]`, which stores the
   * key, before the template is expanded; an expansion that raises ends the
   * loop with what the earlier entries added in place.
   */
  function ExtendFrom(d: Dict<string, seq<string>>, k: string, items: seq<string>, i: nat,
                      known: map<string, seq<string>>, expand: Expander): (Dict<string, seq<string>>, Option<Error>)
    requires i <= |items|
    decreases |items| - i
  {
    if i == |items| then (d, None)
    else
      var d1 := Extend(d, k, []);
      var vs := ProcessTemplate(items[i], known, expand);
      if vs.Err? then (d1, Some(vs.error))
      else ExtendFrom(Extend(d1, k, vs.value), k, items, i + 1, known, expand)
  }

  /** The loop over a synonym list raises what the expansion of its items raises first. */
  lemma {:induction false} ExtendFromRaises(d: Dict<string, seq<string>>, k0: string, items: seq<string>, i: nat,
                                            known: map<string, seq<string>>, expand: Expander)
    requires i <= |items|
    ensures ExtendFrom(d, k0, items, i, known, expand).1 == ExpandFrom(items, i, known, expand).1
    decreases |items| - i
  {
    if i < |items| {
      var vs := ProcessTemplate(items[i], known, expand);
      if vs.Ok? {
        ExtendFromRaises(Extend(Extend(d, k0, []), k0, vs.value), k0, items, i + 1, known, expand);
      }
    }
  }

  /**
   * The loop over a non-empty synonym list leaves its key holding the old
   * list followed by the expansions up to the first that raises; every
   * other key is untouched. An empty list stores no key.
   */
  lemma ExtendFromGet(d: Dict<string, seq<string>>, k0: string, items: seq<string>, i: nat,
                      known: map<string, seq<string>>, expand: Expander, k: string)
    requires i <= |items|
    ensures Get(ExtendFrom(d, k0, items, i, known, expand).0, k)
         == if k == k0 && i < |items| then Some(GetOr(d, k0, []) + ExpandFrom(items, i, known, expand).0)
            else Get(d, k)
  {
    if k != k0 {
      ExtendFromOther(d, k0, items, i, known, expand, k);
    } else if i < |items| {
      ExtendFromOwn(d, k0, items, i, known, expand);
    }
  }

  lemma {:induction false} ExtendFromOther(d: Dict<string, seq<string>>, k0: string, items: seq<string>, i: nat,
                                           known: map<string, seq<string>>, expand: Expander, k: string)
    requires i <= |items| && k != k0
    ensures Get(ExtendFrom(d, k0, items, i, known, expand).0, k) == Get(d, k)
    decreases |items| - i
  {
    if i < |items| {
      ExtendFromStep(d, k0, items, i, known, expand);
      var vs := ProcessTemplate(items[i], known, expand);
      if vs.Ok? {
        ExtendFromOther(Extend(Extend(d, k0, []), k0, vs.value), k0, items, i + 1, known, expand, k);
        ReadThenExtend(d, k0, vs.value, k);
      } else {
        ExtendGet(d, k0, [], k);
      }
    }
  }

  lemma {:induction false} ExtendFromOwn(d: Dict<string, seq<string>>, k0: string, items: seq<string>, i: nat,
                                         known: map<string, seq<string>>, expand: Expander)
    requires i < |items|
    ensures Get(ExtendFrom(d, k0, items, i, known, expand).0, k0) == Some(GetOr(d, k0, []) + ExpandFrom(items, i, known, expand).0)
    decreases |items| - i, 1
  {
    ExtendFromStep(d, k0, items, i, known, expand);
    if ProcessTemplate(items[i], known, expand).Ok? {
      ExtendFromOwnOk(d, k0, items, i, known, expand);
    } else {
      ExtendGet(d, k0, [], k0);
      ConcatEmpty(GetOr(d, k0, []), []);
    }
  }

  lemma {:induction false} ExtendFromOwnOk(d: Dict<string, seq<string>>, k0: string, items: seq<string>, i: nat,
                                           known: map<string, seq<string>>, expand: Expander)
    requires i < |items| && ProcessTemplate(items[i], known, expand).Ok?
    ensures Get(ExtendFrom(d, k0, items, i, known, expand).0, k0) == Some(GetOr(d, k0, []) + ExpandFrom(items, i, known, expand).0)
    decreases |items| - i, 0
  {
    ExtendFromStep(d, k0, items, i, known, expand);
    var vs := ProcessTemplate(items[i], known, expand).value;
    var d2 := Extend(Extend(d, k0, []), k0, vs);
    ReadThenExtend(d, k0, vs, k0);
    var rest := ExpandFrom(items, i + 1, known, expand).0;
    if i + 1 < |items| {
      ExtendFromOwn(d2, k0, items, i + 1, known, expand);
      ConcatAssoc(GetOr(d, k0, []), vs, rest);
    } else {
      ConcatEmpty(vs, rest);
    }
  }

  lemma ConcatAssoc(a: seq<string>, b: seq<string>, c: seq<string>)
    ensures (a + b) + c == a + (b + c)
  {
  }

  lemma ConcatEmpty(a: seq<string>, b: seq<string>)
    requires b == []
    ensures a + b == a
  {
  }

  /** One iteration of the loop over a synonym list, unfolded. */
  lemma ExtendFromStep(d: Dict<string, seq<string>>, k0: string, items: seq<string>, i: nat,
                       known: map<string, seq<string>>, expand: Expander)
    requires i < |items|
    ensures var vs := ProcessTemplate(items[i], known, expand);
            vs.Ok? ==>
              && ExtendFrom(d, k0, items, i, known, expand)
                 == ExtendFrom(Extend(Extend(d, k0, []), k0, vs.value), k0, items, i + 1, known, expand)
              && ExpandFrom(items, i, known, expand).0 == vs.value + ExpandFrom(items, i + 1, known, expand).0
    ensures var vs := ProcessTemplate(items[i], known, expand);
            vs.Err? ==>
              && ExtendFrom(d, k0, items, i, known, expand).0 == Extend(d, k0, [])
              && ExpandFrom(items, i, known, expand).0 == []
  {
  }

  /** Reading `synonyms[k0]` and then extending it with `xs`, seen through `Get`. */
  lemma ReadThenExtend(d: Dict<string, seq<string>>, k0: string, xs: seq<string>, k: string)
    ensures Get(Extend(Extend(d, k0, []), k0, xs), k) == if k == k0 then Some(GetOr(d, k0, []) + xs) else Get(d, k)
  {
    var d1 := Extend(d, k0, []);
    ExtendGet(d, k0, [], k);
    ExtendGet(d, k0, [], k0);
    ExtendGet(d1, k0, xs, k);
    ConcatEmpty(GetOr(d, k0, []), []);
  }

  /** The characters of `s`, each as a string of its own. */
  function Chars(s: string): (cs: seq<string>)
    ensures |cs| == |s| && forall i :: 0 <= i < |s| ==> cs[i] == [s[i]]
  {
    seq(|s|, i requires 0 <= i < |s| => [s[i]])
  }

  /** The keys of a mapping definition, in order. */
  function EntryKeys(es: seq<(string, SynonymData)>): (ks: seq<string>)
    ensures |ks| == |es| && forall i :: 0 <= i < |es| ==> ks[i] == es[i].0
  {
    seq(|es|, i requires 0 <= i < |es| => es[i].0)
  }

  /**
   * What one mapping value adds to the synonyms of its key, and the
   * exception its `extend` raises: a list adds its expansions up to the
   * first that raises, a string its characters, and a value that cannot be
   * iterated raises TypeError.
   */
  function SynonymsOf(v: SynonymData, known: map<string, seq<string>>, expand: Expander): (seq<string>, Option<Error>)
  {
    match v
    case SynList(items) => ExpandFrom(items, 0, known, expand)
    case SynText(s) => (Chars(s), None)
    case SynNone => ([], Some(TypeError))
  }

  /**
   * The tables after the entry `e`, and the exception it raises. The name
   * goes into the choices first. A list is extended item by item, so an
   * empty one never reads `synonyms[name]` and stores no key; a string or a
   * value that cannot be iterated is extended in one call, which stores the
   * key first. The name goes into the recorded synonym keys only when
   * nothing raised.
   */
  function AddEntry(t: Tables, e: (string, SynonymData), known: map<string, seq<string>>, expand: Expander)
    : (r: (Tables, Option<Error>))
    ensures r.0.choices == t.choices + [e.0]
    ensures r.0.usedSynonyms == if r.1.None? then t.usedSynonyms + [e.0] else t.usedSynonyms
  {
    var s := EntrySynonyms(t.synonyms, e, known, expand);
    (Tables(t.choices + [e.0], s.0, if s.1.None? then t.usedSynonyms + [e.0] else t.usedSynonyms), s.1)
  }

  /** The synonyms after the entry `e`, and the exception its `extend` raises. */
  function EntrySynonyms(d: Dict<string, seq<string>>, e: (string, SynonymData), known: map<string, seq<string>>,
                         expand: Expander): (Dict<string, seq<string>>, Option<Error>)
  {
    match e.1
    case SynList(items) => ExtendFrom(d, e.0, items, 0, known, expand)
    case SynText(text) => (Extend(d, e.0, Chars(text)), None)
    case SynNone => (Extend(d, e.0, []), Some(TypeError))
  }

  /**
   * One entry raises what its value's `SynonymsOf` says, and changes only
   * its own key's synonyms: not at all for an empty list, otherwise to the
   * old list followed by what the value adds.
   */
  /** One entry raises what its value's `SynonymsOf` says. */
  lemma AddEntryRaises(t: Tables, e: (string, SynonymData), known: map<string, seq<string>>, expand: Expander)
    ensures AddEntry(t, e, known, expand).1 == SynonymsOf(e.1, known, expand).1
  {
    if e.1.SynList? {
      ExtendFromRaises(t.synonyms, e.0, e.1.items, 0, known, expand);
    }
  }

  lemma AddEntryGet(t: Tables, e: (string, SynonymData), known: map<string, seq<string>>, expand: Expander, k: string)
    ensures AddEntry(t, e, known, expand).1 == SynonymsOf(e.1, known, expand).1
    ensures Get(AddEntry(t, e, known, expand).0.synonyms, k)
         == if k == e.0 && e.1 != SynList([]) then Some(GetOr(t.synonyms, k, []) + SynonymsOf(e.1, known, expand).0)
            else Get(t.synonyms, k)
  {
    match e.1
    case SynList(items) =>
      ExtendFromRaises(t.synonyms, e.0, items, 0, known, expand);
      ExtendFromGet(t.synonyms, e.0, items, 0, known, expand, k);
    case SynText(s) => ExtendGet(t.synonyms, e.0, Chars(s), k);
    case SynNone => ExtendGet(t.synonyms, e.0, [], k);
  }

  /**
   * The loop over `data.items()`, from the `i`-th entry on: it stops at the
   * first entry that raises.
   */
  function LoadEntries(t: Tables, es: seq<(string, SynonymData)>, i: nat, known: map<string, seq<string>>,
                       expand: Expander): (r: (Tables, Option<Error>))
    requires i <= |es|
    decreases |es| - i
  {
    if i == |es| then (t, None)
    else
      var r1 := AddEntry(t, es[i], known, expand);
      if r1.1.Some? then r1 else LoadEntries(r1.0, es, i + 1, known, expand)
  }

  /** The `{`-bearing string branch, once the string expanded to `values`: a reference to another grammar. */
  function LoadReference(t: Tables, name: string, s: string, values: seq<string>, known: map<string, seq<string>>): Tables
  {
    var dname := Strip(s, {'{', '}', '?'});
    var synonyms := if dname in known then Put(t.synonyms, dname, known[dname]) else Extend(t.synonyms, name, values);
    Tables(t.choices + values, synonyms, t.usedSynonyms + [name])
  }

  /**
   * `load_data(data)` on the tables `t` of the grammar `name`: the new tables
   * and the exception raised, if any. An exception raised inside a list or a
   * mapping leaves what was loaded before it in place; a `{`-bearing string
   * whose expansion raises changes nothing.
   */
  function LoadSpec(t: Tables, name: string, data: GrammarData, known: map<string, seq<string>>,
                    expand: Expander): (r: (Tables, Option<Error>))
    decreases data, 1, 0
  {
    match data
    case GNone => (t, None)
    case GOther => (t, Some(RuntimeError("Unknown type")))
    case GMap(es) => LoadEntries(t, es, 0, known, expand)
    case GList(items) => LoadItems(t, name, items, 0, known, expand)
    case GStr(s) =>
      if '{' in s then
        var values := ProcessTemplate(s, known, expand);
        if values.Err? then (t, Some(values.error))
        else (LoadReference(t, name, s, values.value, known), None)
      else (t.(choices := t.choices + [s]), None)
  }

  /** `[self.load_data(x) for x in data]`, from the `i`-th element on. */
  function LoadItems(t: Tables, name: string, items: seq<GrammarData>, i: nat, known: map<string, seq<string>>,
                     expand: Expander): (r: (Tables, Option<Error>))
    requires i <= |items|
    decreases GList(items), 0, |items| - i
  {
    if i == |items| then (t, None)
    else
      var r1 := LoadSpec(t, name, items[i], known, expand);
      if r1.1.Some? then r1 else LoadItems(r1.0, name, items, i + 1, known, expand)
  }

  /**
   * Loading only appends: the choices and the recorded synonym keys of
   * before are a prefix of those after, so an index keeps naming the same
   * choice, also when an exception ends the load.
   */
  lemma {:induction false} LoadAppends(t: Tables, name: string, data: GrammarData, known: map<string, seq<string>>,
                                       expand: Expander)
    ensures t.choices <= LoadSpec(t, name, data, known, expand).0.choices
    ensures t.usedSynonyms <= LoadSpec(t, name, data, known, expand).0.usedSynonyms
    decreases data, 1, 0
  {
    match data
    case GNone =>
    case GOther =>
    case GStr(s) =>
    case GMap(es) => EntriesAppend(t, es, 0, known, expand);
    case GList(items) => ItemsAppend(t, name, items, 0, known, expand);
  }

  lemma {:induction false} ItemsAppend(t: Tables, name: string, items: seq<GrammarData>, i: nat,
                                       known: map<string, seq<string>>, expand: Expander)
    requires i <= |items|
    ensures t.choices <= LoadItems(t, name, items, i, known, expand).0.choices
    ensures t.usedSynonyms <= LoadItems(t, name, items, i, known, expand).0.usedSynonyms
    decreases GList(items), 0, |items| - i
  {
    if i < |items| {
      var (t1, e) := LoadSpec(t, name, items[i], known, expand);
      LoadAppends(t, name, items[i], known, expand);
      if e.None? {
        ItemsAppend(t1, name, items, i + 1, known, expand);
      }
    }
  }

  lemma {:induction false} EntriesAppend(t: Tables, es: seq<(string, SynonymData)>, i: nat,
                                         known: map<string, seq<string>>, expand: Expander)
    requires i <= |es|
    ensures t.choices <= LoadEntries(t, es, i, known, expand).0.choices
    ensures t.usedSynonyms <= LoadEntries(t, es, i, known, expand).0.usedSynonyms
    decreases |es| - i
  {
    if i < |es| {
      var r1 := AddEntry(t, es[i], known, expand);
      LoadEntriesNext(t, es, i, known, expand);
      PrefixSnoc(t.choices, es[i].0);
      PrefixSnoc(t.usedSynonyms, es[i].0);
      if r1.1.None? {
        EntriesAppend(r1.0, es, i + 1, known, expand);
        var r := LoadEntries(r1.0, es, i + 1, known, expand).0;
        PrefixTrans(t.choices, r1.0.choices, r.choices);
        PrefixTrans(t.usedSynonyms, r1.0.usedSynonyms, r.usedSynonyms);
      }
    }
  }

  lemma PrefixSnoc(a: seq<string>, k: string)
    ensures a <= a + [k] && a <= a
  {
  }

  lemma PrefixTrans(a: seq<string>, b: seq<string>, c: seq<string>)
    requires a <= b && b <= c
    ensures a <= c
  {
  }

  /** A mapping is loaded entry by entry from the first. */
  lemma LoadSpecMap(t: Tables, name: string, es: seq<(string, SynonymData)>, known: map<string, seq<string>>,
                    expand: Expander)
    ensures LoadSpec(t, name, GMap(es), known, expand) == LoadEntries(t, es, 0, known, expand)
  {
  }

  /** The first entry from the `i`-th on, then the rest unless it raised. */
  lemma LoadEntriesNext(t: Tables, es: seq<(string, SynonymData)>, i: nat, known: map<string, seq<string>>,
                        expand: Expander)
    requires i < |es|
    ensures var r1 := AddEntry(t, es[i], known, expand);
            LoadEntries(t, es, i, known, expand) == if r1.1.Some? then r1 else LoadEntries(r1.0, es, i + 1, known, expand)
  {
  }

  /** No value of the mapping from the `i`-th on raises while its synonyms are added. */
  ghost predicate Loadable(es: seq<(string, SynonymData)>, i: nat, known: map<string, seq<string>>, expand: Expander)
  {
    forall j :: i <= j < |es| ==> SynonymsOf(es[j].1, known, expand).1.None?
  }

  /** A mapping fails exactly when some value raises while its synonyms are added. */
  lemma {:induction false} LoadMapFails(t: Tables, es: seq<(string, SynonymData)>, i: nat,
                                        known: map<string, seq<string>>, expand: Expander)
    requires i <= |es|
    ensures LoadEntries(t, es, i, known, expand).1.None? <==> Loadable(es, i, known, expand)
    decreases |es| - i
  {
    if i < |es| {
      AddEntryGet(t, es[i], known, expand, es[i].0);
      var r1 := AddEntry(t, es[i], known, expand);
      if r1.1.Some? {
        assert !Loadable(es, i, known, expand);
      } else {
        LoadMapFails(r1.0, es, i + 1, known, expand);
        assert Loadable(es, i, known, expand) <==> Loadable(es, i + 1, known, expand);
      }
    }
  }

  /**
   * A mapping whose values all load appends its keys to the choices and to
   * the recorded synonym keys, in order.
   */
  lemma {:induction false} LoadMapKeys(t: Tables, es: seq<(string, SynonymData)>, i: nat,
                                       known: map<string, seq<string>>, expand: Expander)
    requires i <= |es| && Loadable(es, i, known, expand)
    ensures LoadEntries(t, es, i, known, expand).0.choices == t.choices + EntryKeys(es)[i..]
    ensures LoadEntries(t, es, i, known, expand).0.usedSynonyms == t.usedSynonyms + EntryKeys(es)[i..]
    decreases |es| - i
  {
    if i < |es| {
      AddEntryGet(t, es[i], known, expand, es[i].0);
      var t1 := AddEntry(t, es[i], known, expand).0;
      assert LoadEntries(t, es, i, known, expand) == LoadEntries(t1, es, i + 1, known, expand);
      LoadMapKeys(t1, es, i + 1, known, expand);
      var ks := EntryKeys(es);
      SliceCons(ks, i);
      SnocAppend(t.choices, ks[i], ks[i + 1..]);
      SnocAppend(t.usedSynonyms, ks[i], ks[i + 1..]);
    }
  }

  lemma SliceCons(ks: seq<string>, i: nat)
    requires i < |ks|
    ensures ks[i..] == [ks[i]] + ks[i + 1..]
  {
  }

  lemma ConsSlice(a: seq<string>, ks: seq<string>, i: nat, j: nat)
    requires i < j <= |ks|
    ensures (a + [ks[i]]) + ks[i + 1..j] == a + ks[i..j]
  {
    assert ks[i..j] == [ks[i]] + ks[i + 1..j];
  }

  lemma SnocAppend(a: seq<string>, k: string, b: seq<string>)
    ensures (a + [k]) + b == a + ([k] + b)
  {
  }

  /** A key that no entry from the `i`-th on names keeps its synonyms, whether or not the loop raises. */
  lemma {:induction false} LoadMapOtherSynonyms(t: Tables, es: seq<(string, SynonymData)>, i: nat,
                                                known: map<string, seq<string>>, expand: Expander, k: string)
    requires i <= |es|
    requires forall j :: i <= j < |es| ==> es[j].0 != k
    ensures Get(LoadEntries(t, es, i, known, expand).0.synonyms, k) == Get(t.synonyms, k)
    decreases |es| - i
  {
    if i < |es| {
      AddEntryGet(t, es[i], known, expand, k);
      var r1 := AddEntry(t, es[i], known, expand);
      if r1.1.None? {
        LoadMapOtherSynonyms(r1.0, es, i + 1, known, expand, k);
      }
    }
  }

  /**
   * A mapping whose first value that raises is the `j`-th: that value's
   * exception (TypeError for `None`, the expansion's for a list), with the
   * keys up to and including the `j`-th in the choices, those before it in
   * the recorded synonym keys, and the `j`-th key stored in the synonyms.
   */
  lemma {:induction false} LoadMapStops(t: Tables, es: seq<(string, SynonymData)>, i: nat, j: nat,
                                        known: map<string, seq<string>>, expand: Expander)
    requires i <= j < |es| && SynonymsOf(es[j].1, known, expand).1.Some?
    requires forall a :: i <= a < j ==> SynonymsOf(es[a].1, known, expand).1.None?
    ensures LoadEntries(t, es, i, known, expand).1 == SynonymsOf(es[j].1, known, expand).1
    ensures LoadEntries(t, es, i, known, expand).0.choices == t.choices + EntryKeys(es)[i..j + 1]
    ensures LoadEntries(t, es, i, known, expand).0.usedSynonyms == t.usedSynonyms + EntryKeys(es)[i..j]
    ensures es[j].0 in Keys(LoadEntries(t, es, i, known, expand).0.synonyms)
    decreases j - i
  {
    if i < j {
      var next := AddEntry(t, es[i], known, expand);
      LoadMapStops(next.0, es, i + 1, j, known, expand);
      AddEntryRaises(t, es[i], known, expand);
      LoadEntriesNext(t, es, i, known, expand);
      assert LoadEntries(t, es, i, known, expand) == LoadEntries(next.0, es, i + 1, known, expand);
      MapStopsLater(t.choices, t.usedSynonyms, next.0, EntryKeys(es), i, j);
    } else {
      MapStopsHere(t, es, j, known, expand);
    }
  }

  /** `LoadMapStops` when the first entry is the one that raises. */
  lemma MapStopsHere(t: Tables, es: seq<(string, SynonymData)>, j: nat, known: map<string, seq<string>>,
                     expand: Expander)
    requires j < |es| && SynonymsOf(es[j].1, known, expand).1.Some?
    ensures LoadEntries(t, es, j, known, expand).1 == SynonymsOf(es[j].1, known, expand).1
    ensures LoadEntries(t, es, j, known, expand).0.choices == t.choices + EntryKeys(es)[j..j + 1]
    ensures LoadEntries(t, es, j, known, expand).0.usedSynonyms == t.usedSynonyms + EntryKeys(es)[j..j]
    ensures es[j].0 in Keys(LoadEntries(t, es, j, known, expand).0.synonyms)
  {
    var ks := EntryKeys(es);
    AddEntryRaises(t, es[j], known, expand);
    LoadEntriesNext(t, es, j, known, expand);
    assert LoadEntries(t, es, j, known, expand) == AddEntry(t, es[j], known, expand);
    assert es[j].1 != SynList([]);
    AddEntryStores(t, es[j], known, expand);
    assert ks[j..j + 1] == [ks[j]] && ks[j..j] == [];
  }

  /** An entry whose value is not an empty list stores its key in the synonyms. */
  lemma AddEntryStores(t: Tables, e: (string, SynonymData), known: map<string, seq<string>>, expand: Expander)
    requires e.1 != SynList([])
    ensures e.0 in Keys(AddEntry(t, e, known, expand).0.synonyms)
  {
    AddEntryGet(t, e, known, expand, e.0);
  }

  /** The choices and recorded keys one entry before the one that raises, from those after that entry. */
  lemma MapStopsLater(choices: seq<string>, used: seq<string>, next: Tables, ks: seq<string>, i: nat, j: nat)
    requires i < j < |ks|
    requires next.choices == choices + [ks[i]] && next.usedSynonyms == used + [ks[i]]
    ensures next.choices + ks[i + 1..j + 1] == choices + ks[i..j + 1]
    ensures next.usedSynonyms + ks[i + 1..j] == used + ks[i..j]
  {
    ConsSlice(choices, ks, i, j + 1);
    ConsSlice(used, ks, i, j);
  }

  /**
   * With distinct keys, and no value before the `j`-th raising, the key of
   * the `j`-th entry ends up with its old synonyms followed by what that
   * entry's value adds, up to an expansion that raises; an empty list leaves
   * the key as it was, absent when it was absent.
   */
  lemma {:induction false} LoadMapSynonyms(t: Tables, es: seq<(string, SynonymData)>, i: nat, j: nat,
                                           known: map<string, seq<string>>, expand: Expander)
    requires i <= j < |es|
    requires forall a :: i <= a < j ==> SynonymsOf(es[a].1, known, expand).1.None?
    requires forall a, b :: i <= a < b < |es| ==> es[a].0 != es[b].0
    ensures Get(LoadEntries(t, es, i, known, expand).0.synonyms, es[j].0)
         == if es[j].1 == SynList([]) then Get(t.synonyms, es[j].0)
            else Some(GetOr(t.synonyms, es[j].0, []) + SynonymsOf(es[j].1, known, expand).0)
    decreases |es| - i
  {
    AddEntryGet(t, es[i], known, expand, es[j].0);
    AddEntryGet(t, es[i], known, expand, es[i].0);
    var r1 := AddEntry(t, es[i], known, expand);
    if i == j {
      if r1.1.None? {
        LoadMapOtherSynonyms(r1.0, es, i + 1, known, expand, es[j].0);
      }
    } else {
      LoadMapSynonyms(r1.0, es, i + 1, j, known, expand);
    }
  }

  /**
   * A string holding `{` raises whatever its expansion raises, and then
   * changes nothing. Otherwise it appends its expansion to the choices and
   * the grammar's own name to the recorded synonym keys. When the stripped
   * text names a known grammar, that name's synonyms become the known
   * grammar's choices; otherwise the grammar's own name gains the
   * expansion. No other key changes.
   */
  lemma LoadReferenceEffect(t: Tables, name: string, s: string, known: map<string, seq<string>>,
                            expand: Expander, k: string)
    requires '{' in s
    ensures expand(known, s).Err? ==> LoadSpec(t, name, GStr(s), known, expand) == (t, Some(expand(known, s).error))
    ensures expand(known, s).Ok? ==>
              var r := LoadSpec(t, name, GStr(s), known, expand);
              var values := expand(known, s).value;
              && r.1 == None
              && r.0.choices == t.choices + values
              && r.0.usedSynonyms == t.usedSynonyms + [name]
              && Get(r.0.synonyms, k)
                 == if Strip(s, {'{', '}', '?'}) in known then
                      (if k == Strip(s, {'{', '}', '?'}) then Some(known[k]) else Get(t.synonyms, k))
                    else
                      (if k == name then Some(GetOr(t.synonyms, name, []) + values) else Get(t.synonyms, k))
  {
    var dname := Strip(s, {'{', '}', '?'});
    if expand(known, s).Ok? {
      if dname in known {
        PutGet(t.synonyms, dname, known[dname], k);
      } else {
        ExtendGet(t.synonyms, name, expand(known, s).value, k);
      }
    }
  }

  /** A list of `{`-free strings appends them to the choices, in order, and changes nothing else. */
  lemma {:induction false} LoadPlainList(t: Tables, name: string, items: seq<GrammarData>, i: nat,
                                         known: map<string, seq<string>>, expand: Expander, strs: seq<string>)
    requires i <= |items| && |strs| == |items|
    requires forall j :: 0 <= j < |items| ==> items[j] == GStr(strs[j]) && '{' !in strs[j]
    ensures LoadItems(t, name, items, i, known, expand) == (t.(choices := t.choices + strs[i..]), None)
    decreases |items| - i
  {
    if i < |items| {
      assert items[i] == GStr(strs[i]);
      var t1 := t.(choices := t.choices + [strs[i]]);
      assert LoadSpec(t, name, items[i], known, expand) == (t1, None);
      assert LoadItems(t, name, items, i, known, expand) == LoadItems(t1, name, items, i + 1, known, expand);
      LoadPlainList(t1, name, items, i + 1, known, expand, strs);
      assert t1.choices + strs[i + 1..] == t.choices + strs[i..];
    } else {
      assert t.choices + strs[i..] == t.choices;
    }
  }

  /**
   * The position `update` takes its value from: the given index, read the
   * Python way (a negative one counts from the end), or the random `pick`;
   * None where Python raises IndexError.
   */
  function ChosenIndex(choices: seq<string>, index: Option<int>, pick: nat): (i: Option<nat>)
    ensures i.Some? ==> i.value < |choices|
    ensures i.None? <==> (index.None? && choices == []) || (index.Some? && !(-|choices| <= index.value < |choices|))
    ensures index.Some? && 0 <= index.value < |choices| ==> i == Some(index.value)
    ensures index.Some? && -|choices| <= index.value < 0 ==> i == Some(|choices| + index.value)
  {
    match index
    case None => if choices == [] then None else Some(pick % |choices|)
    case Some(n) =>
      if 0 <= n < |choices| then Some(n)
      else if -|choices| <= n < 0 then Some(|choices| + n)
      else None
  }

  /**
   * What replaces the placeholder for the value `v`: one of its synonyms
   * when it has an entry in `synonyms`, else `v` itself. An entry with an
   * empty list makes `random.choice` fail.
   */
  function Replacement(synonyms: Dict<string, seq<string>>, v: string, synPick: nat): (r: Result<string, Error>)
    ensures Get(synonyms, v).None? ==> r == Ok(v)
    ensures Get(synonyms, v).Some? ==>
              if Get(synonyms, v).value == [] then r == Err(IndexError)
              else r.Ok? && r.value in Get(synonyms, v).value
  {
    match Get(synonyms, v)
    case None => Ok(v)
    case Some(syns) => if syns == [] then Err(IndexError) else Ok(syns[synPick % |syns|])
  }

  /** The text `update` returns, or the exception it raises. */
  function Substituted(choices: seq<string>, synonyms: Dict<string, seq<string>>, placeholderText: string, text: string,
                       index: Option<int>, pick: nat, synPick: nat): Result<string, Error>
  {
    match ChosenIndex(choices, index, pick)
    case None => Err(IndexError)
    case Some(i) =>
      match Replacement(synonyms, choices[i], synPick)
      case Ok(rep) => Ok(ReplaceAll(text, placeholderText, rep))
      case Err(e) => Err(e)
  }

  /**
   * What `update` does with the chosen value: IndexError for an index out of
   * range or a value whose synonym list is empty; otherwise the placeholder
   * replaced by the value itself when it has no synonym list, or by one of
   * its synonyms.
   */
  lemma SubstitutedCases(choices: seq<string>, synonyms: Dict<string, seq<string>>, placeholderText: string, text: string,
                         index: Option<int>, pick: nat, synPick: nat)
    ensures var r := Substituted(choices, synonyms, placeholderText, text, index, pick, synPick);
            && (ChosenIndex(choices, index, pick).None? ==> r == Err(IndexError))
            && (ChosenIndex(choices, index, pick).Some? ==>
                  var v := choices[ChosenIndex(choices, index, pick).value];
                  && (Get(synonyms, v).None? ==> r == Ok(ReplaceAll(text, placeholderText, v)))
                  && (Get(synonyms, v) == Some([]) ==> r == Err(IndexError))
                  && (Get(synonyms, v).Some? && Get(synonyms, v).value != [] ==>
                        r.Ok? && exists syn :: syn in Get(synonyms, v).value && r.value == ReplaceAll(text, placeholderText, syn)))
  {
  }

  /** Text without the placeholder comes back unchanged, whatever is chosen. */
  lemma SubstitutedAbsent(choices: seq<string>, synonyms: Dict<string, seq<string>>, placeholderText: string, text: string,
                          index: Option<int>, pick: nat, synPick: nat)
    requires placeholderText != [] && !Contains(text, placeholderText)
    ensures Substituted(choices, synonyms, placeholderText, text, index, pick, synPick).Ok? ==>
              Substituted(choices, synonyms, placeholderText, text, index, pick, synPick).value == text
  {
    var i := ChosenIndex(choices, index, pick);
    if i.Some? {
      var rep := Replacement(synonyms, choices[i.value], synPick);
      if rep.Ok? {
        ReplaceAllAbsent(text, placeholderText, rep.value);
      }
    }
  }

  class Grammar {
    const name: string
    const isEntity: bool
    var value: Option<string>
    var choices: seq<string>
    var synonyms: Dict<string, seq<string>>
    var usedSynonyms: seq<string>

    constructor(name: string, isEntity: bool)
      ensures this.name == name && this.isEntity == isEntity
      ensures value == None && choices == [] && synonyms == [] && usedSynonyms == []
    {
      this.name := name;
      this.isEntity := isEntity;
      value := None;
      choices := [];
      synonyms := [];
      usedSynonyms := [];
    }

    function TablesOf(): Tables
      reads this
    {
      Tables(choices, synonyms, usedSynonyms)
    }

    /** `load_data(data)`: the tables become what `LoadSpec` says; the exception raised, if any. */
    method LoadData(data: GrammarData, known: map<string, seq<string>>, expand: Expander)
      returns (err: Option<Error>)
      modifies this`choices, this`synonyms, this`usedSynonyms
      ensures (TablesOf(), err) == LoadSpec(old(TablesOf()), name, data, known, expand)
      decreases data, 1, 0
    {
      match data
      case GNone =>
        err := None;
      case GOther =>
        err := Some(RuntimeError("Unknown type"));
      case GStr(s) =>
        if '{' in s {
          var dname := Strip(s, {'{', '}', '?'});
          var values := ProcessTemplate(s, known, expand);
          if values.Err? {
            return Some(values.error);
          }
          if dname in known {
            synonyms := Put(synonyms, dname, known[dname]);
          } else {
            synonyms := Extend(synonyms, name, values.value);
          }
          usedSynonyms := usedSynonyms + [name];
          choices := choices + values.value;
        } else {
          choices := choices + [s];
        }
        err := None;
      case GMap(es) =>
        err := LoadMap(es, known, expand);
      case GList(items) =>
        err := LoadList(items, known, expand);
    }

    method LoadMap(es: seq<(string, SynonymData)>, known: map<string, seq<string>>, expand: Expander)
      returns (err: Option<Error>)
      modifies this`choices, this`synonyms, this`usedSynonyms
      ensures (TablesOf(), err) == LoadEntries(old(TablesOf()), es, 0, known, expand)
    {
      for i := 0 to |es|
        invariant LoadEntries(TablesOf(), es, i, known, expand) == LoadEntries(old(TablesOf()), es, 0, known, expand)
      {
        ghost var before := TablesOf();
        err := LoadEntry(es[i], known, expand);
        LoadEntriesNext(before, es, i, known, expand);
        if err.Some? {
          return;
        }
      }
      return None;
    }

    /**
     * One iteration of that loop: the entry's name, its synonyms, then the
     * name in the recorded synonym keys; TypeError for a value that cannot
     * be iterated.
     */
    method LoadEntry(e: (string, SynonymData), known: map<string, seq<string>>, expand: Expander)
      returns (err: Option<Error>)
      modifies this`choices, this`synonyms, this`usedSynonyms
      ensures (TablesOf(), err) == AddEntry(old(TablesOf()), e, known, expand)
    {
      var (k, v) := e;
      choices := choices + [k];
      match v {
        case SynNone =>
          synonyms := Extend(synonyms, k, []);
          return Some(TypeError);
        case SynList(items) =>
          err := ExtendSynonyms(k, items, known, expand);
          if err.Some? {
            return;
          }
        case SynText(s) =>
          synonyms := Extend(synonyms, k, Chars(s));
      }
      usedSynonyms := usedSynonyms + [k];
      err := None;
    }

    /** The inner loop over a synonym list: `synonyms[k]` is extended by each item's expansion. */
    method ExtendSynonyms(k: string, items: seq<string>, known: map<string, seq<string>>, expand: Expander)
      returns (err: Option<Error>)
      modifies this`synonyms
      ensures (synonyms, err) == ExtendFrom(old(synonyms), k, items, 0, known, expand)
    {
      for i := 0 to |items|
        invariant ExtendFrom(synonyms, k, items, i, known, expand) == ExtendFrom(old(synonyms), k, items, 0, known, expand)
      {
        synonyms := Extend(synonyms, k, []);
        var values := ProcessTemplate(items[i], known, expand);
        if values.Err? {
          return Some(values.error);
        }
        synonyms := Extend(synonyms, k, values.value);
      }
      err := None;
    }

    method LoadList(items: seq<GrammarData>, known: map<string, seq<string>>, expand: Expander)
      returns (err: Option<Error>)
      modifies this`choices, this`synonyms, this`usedSynonyms
      ensures (TablesOf(), err) == LoadItems(old(TablesOf()), name, items, 0, known, expand)
      decreases GList(items), 0, |items|
    {
      for i := 0 to |items|
        invariant LoadItems(TablesOf(), name, items, i, known, expand) == LoadItems(old(TablesOf()), name, items, 0, known, expand)
      {
        var e := LoadData(items[i], known, expand);
        if e.Some? {
          return e;
        }
      }
      return None;
    }

    /**
     * `update(placeholder_text, text, value)`: `value` becomes the chosen
     * choice and the text comes back as `Substituted` says. When no choice
     * can be taken, nothing changes.
     */
    method Update(placeholderText: string, text: string, index: Option<int>, pick: nat, synPick: nat)
      returns (r: Result<string, Error>)
      modifies this`value
      ensures r == Substituted(choices, synonyms, placeholderText, text, index, pick, synPick)
      ensures ChosenIndex(choices, index, pick).None? ==> value == old(value)
      ensures ChosenIndex(choices, index, pick).Some? ==> value == Some(choices[ChosenIndex(choices, index, pick).value])
    {
      var i := ChosenIndex(choices, index, pick);
      if i.None? {
        return Err(IndexError);
      }
      value := Some(choices[i.value]);
      var rep := Replacement(synonyms, choices[i.value], synPick);
      if rep.Err? {
        return Err(rep.error);
      }
      r := Ok(ReplaceAll(text, placeholderText, rep.value));
    }

    /**
     * `choose(exclude)`: None exactly when every choice is excluded; else a
     * choice outside `exclude`, which becomes `value`.
     */
    method Choose(exclude: seq<string>) returns (r: Option<string>)
      modifies this`value
      ensures r.None? <==> forall c :: c in choices ==> c in exclude
      ensures r.Some? ==> r.value in choices && r.value !in exclude && value == r
      ensures r.None? ==> value == old(value)
    {
      var available := set c | c in choices && c !in exclude;
      assert forall c :: c in choices && c !in exclude ==> c in available;
      if available == {} {
        return None;
      }
      var v :| v in available;
      value := Some(v);
      return Some(v);
    }
  }
}
