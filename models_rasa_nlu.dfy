/**
 * The older revision's `RasaBase` and `RasaNLUIntent` (models/rasa_nlu.py):
 * an intent loaded from its YAML data that generates examples one template
 * at a time, each template's used combinations recorded under its key.
 *
 * The grammar and entity classes it constructs are not defined in the
 * older revision (models/entity.py holds neither a `Grammar` class nor an
 * `Entity` taking a value), so `cls(name, value)` is the caller-supplied
 * `make`. `get_digest` is not defined either (utils/digest.py only holds
 * `list_digest`); the key of a template is the template itself.
 */
module ModelsRasaNlu {
  import opened Wrappers
  import opened Errors
  import opened PyDict
  import opened PyStr
  import Grammar
  import RasaNlu
  import MCE = ModelsCommonExample

  /** `cls(name, value)`, the flag telling an entity (`Entity`) from a grammar (`Grammar`). */
  type Make = (string, Grammar.GrammarData, bool) -> MCE.GrammarObj

  const NeedTexts: string := "Need text templates to process Rasa examples!"
  const MaxCombinations: string := "Max number of combinations exceded. Max is "
  const ExceededTexts: string := "Exceeded number of available combinations for texts"

  // ---------------------------------------------------------------------
  // process_data

  /** `(name, cls(name, value))` for each entry of a mapping section, in order. */
  function Made(es: seq<(string, Grammar.GrammarData)>, isEntity: bool, make: Make): (e: MCE.Registry)
    ensures |e| == |es| && forall j :: 0 <= j < |es| ==> e[j] == (es[j].0, make(es[j].0, es[j].1, isEntity))
  {
    seq(|es|, j requires 0 <= j < |es| => (es[j].0, make(es[j].0, es[j].1, isEntity)))
  }

  /**
   * `process_data(cls, data)`: a mapping assigns `grammars[name]` for each
   * entry in order, a list is processed element by element, and anything
   * else has no `items` (AttributeError). What was assigned before an
   * exception stays assigned.
   */
  function Define(reg: MCE.Registry, data: RasaNlu.GrammarDefs, isEntity: bool, make: Make): (MCE.Registry, Option<Error>)
    decreases data, 1, 0
  {
    match data
    case DOther => (reg, Some(AttributeError))
    case DMap(es) => (Update(reg, Made(es, isEntity, make)), None)
    case DList(items) => DefineList(reg, items, 0, isEntity, make)
  }

  /** The elements of a list section from the `i`-th on. */
  function DefineList(reg: MCE.Registry, items: seq<RasaNlu.GrammarDefs>, i: nat, isEntity: bool, make: Make)
    : (MCE.Registry, Option<Error>)
    requires i <= |items|
    decreases RasaNlu.DList(items), 0, |items| - i
  {
    if i == |items| then (reg, None)
    else
      var r := Define(reg, items[i], isEntity, make);
      if r.1.Some? then r else DefineList(r.0, items, i + 1, isEntity, make)
  }

  /** A section made of mappings and lists of such sections only. */
  ghost predicate Nested(data: RasaNlu.GrammarDefs)
    decreases data
  {
    match data
    case DOther => false
    case DMap(_) => true
    case DList(items) => forall i :: 0 <= i < |items| ==> Nested(items[i])
  }

  /** The entries of every mapping of a section, depth first, in order. */
  function Flat(data: RasaNlu.GrammarDefs, isEntity: bool, make: Make): MCE.Registry
    decreases data, 1, 0
  {
    match data
    case DOther => []
    case DMap(es) => Made(es, isEntity, make)
    case DList(items) => FlatList(items, 0, isEntity, make)
  }

  /** The entries of the mappings of the elements from the `i`-th on. */
  function FlatList(items: seq<RasaNlu.GrammarDefs>, i: nat, isEntity: bool, make: Make): MCE.Registry
    requires i <= |items|
    decreases RasaNlu.DList(items), 0, |items| - i
  {
    if i == |items| then [] else Flat(items[i], isEntity, make) + FlatList(items, i + 1, isEntity, make)
  }

  /**
   * Nested lists are flattened: a section of mappings and lists raises
   * nothing and assigns the entries of all its mappings in order.
   */
  lemma {:induction false} DefineFlattens(reg: MCE.Registry, data: RasaNlu.GrammarDefs, isEntity: bool, make: Make)
    requires Nested(data)
    ensures Define(reg, data, isEntity, make) == (Update(reg, Flat(data, isEntity, make)), None)
    decreases data, 1, 0
  {
    match data
    case DMap(_) =>
    case DList(items) =>
      DefineListFlattens(reg, items, 0, isEntity, make);
  }

  /** The list case of `DefineFlattens`. */
  lemma {:induction false} DefineListFlattens(reg: MCE.Registry, items: seq<RasaNlu.GrammarDefs>, i: nat, isEntity: bool,
                                              make: Make)
    requires i <= |items| && forall j :: 0 <= j < |items| ==> Nested(items[j])
    ensures DefineList(reg, items, i, isEntity, make) == (Update(reg, FlatList(items, i, isEntity, make)), None)
    decreases RasaNlu.DList(items), 0, |items| - i
  {
    if i < |items| {
      DefineFlattens(reg, items[i], isEntity, make);
      var first := Flat(items[i], isEntity, make);
      DefineListFlattens(Update(reg, first), items, i + 1, isEntity, make);
      UpdateConcat(reg, first, FlatList(items, i + 1, isEntity, make));
    } else {
      var empty: MCE.Registry := [];
      assert Update(reg, empty) == reg;
    }
  }

  /**
   * Later definitions overwrite earlier ones: after a mapping section, a
   * name holds the object made from its last entry, and a name the section
   * does not define keeps its object.
   */
  lemma DefineLastWins(reg: MCE.Registry, es: seq<(string, Grammar.GrammarData)>, isEntity: bool, make: Make, k: string)
    ensures var r := Define(reg, RasaNlu.DMap(es), isEntity, make).0;
            && (k !in Keys(es) ==> Get(r, k) == Get(reg, k))
            && (forall j :: 0 <= j < |es| && es[j].0 == k && (forall m :: j < m < |es| ==> es[m].0 != k) ==>
                  Get(r, k) == Some(make(k, es[j].1, isEntity)))
  {
    var e := Made(es, isEntity, make);
    UpdateLastWins(reg, e, k);
    assert Keys(e) == Keys(es);
    forall j | 0 <= j < |es| && es[j].0 == k && (forall m :: j < m < |es| ==> es[m].0 != k)
      ensures Get(Update(reg, e), k) == Some(make(k, es[j].1, isEntity))
    {
      assert Keys(e)[j] == k;
      LastForAt(e, k, j);
    }
  }

  // ---------------------------------------------------------------------
  // load

  /** The intent's YAML mapping: the `text`, `grammars` and `entities` sections, each possibly missing. */
  datatype IntentData = IntentData(text: Option<seq<string>>, grammars: Option<RasaNlu.GrammarDefs>,
                                   entities: Option<RasaNlu.GrammarDefs>)

  /** What `load` reads and writes: the templates, the copy kept for book keeping, the registry and the synonyms. */
  datatype Base = Base(texts: seq<string>, textsAvailable: seq<string>, grammars: MCE.Registry,
                       synonyms: Dict<string, seq<string>>)

  /** The synonym table of each registered object, in registration order. */
  function SynonymTables(reg: MCE.Registry): (ds: seq<Dict<string, seq<string>>>)
    ensures |ds| == |reg| && forall j :: 0 <= j < |reg| ==> ds[j] == reg[j].1.synonyms
  {
    seq(|reg|, j requires 0 <= j < |reg| => reg[j].1.synonyms)
  }

  /**
   * `load(intent_data)`: KeyError for a missing section, RuntimeError for
   * an empty template list once the templates are stored, the exception of
   * `process_data` with what it assigned so far, and otherwise the synonym
   * tables of all registered objects merged in registration order.
   */
  function Loaded(b: Base, data: IntentData, make: Make): (Base, Option<Error>)
  {
    if data.text.None? then (b, Some(KeyError("text")))
    else
      var b1 := b.(texts := data.text.value, textsAvailable := data.text.value);
      if b1.texts == [] then (b1, Some(RuntimeError(NeedTexts)))
      else if data.grammars.None? then (b1, Some(KeyError("grammars")))
      else
        var g := Define(b1.grammars, data.grammars.value, false, make);
        if g.1.Some? then (b1.(grammars := g.0), g.1)
        else if data.entities.None? then (b1.(grammars := g.0), Some(KeyError("entities")))
        else
          var e := Define(g.0, data.entities.value, true, make);
          if e.1.Some? then (b1.(grammars := e.0), e.1)
          else
            var tables := SynonymTables(e.0);
            (b1.(grammars := e.0, synonyms := UpdateAll(b1.synonyms, tables, |tables|)), None)
  }

  /**
   * After a successful `load`, each synonym holds the list of the last
   * registered object whose table has it, or its earlier list when none
   * has it.
   */
  lemma LoadedSynonyms(b: Base, data: IntentData, make: Make, k: string)
    requires Loaded(b, data, make).1.None?
    requires AllUnique(SynonymTables(Loaded(b, data, make).0.grammars))
    ensures var r := Loaded(b, data, make).0;
            var tables := SynonymTables(r.grammars);
            Get(r.synonyms, k) == if LastValue(tables, |tables|, k).Some? then LastValue(tables, |tables|, k) else Get(b.synonyms, k)
  {
    var g := Define(b.grammars, data.grammars.value, false, make).0;
    var r := Define(g, data.entities.value, true, make).0;
    var tables := SynonymTables(r);
    assert Loaded(b, data, make).0.synonyms == UpdateAll(b.synonyms, tables, |tables|);
    UpdateAllGet(b.synonyms, tables, |tables|, k);
  }

  /** A successful `load` keeps the templates and a copy of them for book keeping; none is empty. */
  lemma LoadedTexts(b: Base, data: IntentData, make: Make)
    requires Loaded(b, data, make).1.None?
    ensures data.text.Some? && data.text.value != []
    ensures Loaded(b, data, make).0.texts == data.text.value == Loaded(b, data, make).0.textsAvailable
  {
  }

  // ---------------------------------------------------------------------
  // _get_num_combos_for_text

  /** The counts of a `combinations()` result, in order. */
  function Counted(c: Dict<string, nat>): (vs: seq<nat>)
    ensures |vs| == |c| && forall j :: 0 <= j < |c| ==> vs[j] == c[j].1
  {
    seq(|c|, j requires 0 <= j < |c| => c[j].1)
  }

  /** The product of the counts, 1 for none. */
  function Product(vs: seq<nat>): nat
  {
    if vs == [] then 1 else Product(vs[..|vs| - 1]) * vs[|vs| - 1]
  }

  /** A product is zero exactly when one of its factors is. */
  lemma {:induction false} ProductZero(vs: seq<nat>)
    ensures Product(vs) == 0 <==> exists j :: 0 <= j < |vs| && vs[j] == 0
  {
    if vs != [] {
      var init := vs[..|vs| - 1];
      ProductZero(init);
      if exists j :: 0 <= j < |init| && init[j] == 0 {
        var j :| 0 <= j < |init| && init[j] == 0;
        assert vs[j] == 0;
      }
      if exists j :: 0 <= j < |vs| && vs[j] == 0 {
        var j :| 0 <= j < |vs| && vs[j] == 0;
        if j < |vs| - 1 {
          assert init[j] == 0;
        }
      }
    }
  }

  /**
   * `_get_num_combos_for_text(text)` as written: `reduce` of the counts
   * without an initial value, which raises TypeError for a template
   * without placeholders.
   */
  function NumCombosAsWritten(text: string, registry: MCE.Registry): Result<nat, Error>
  {
    match MCE.CombinationsOf(text, Some(registry))
    case Err(e) => Err(e)
    case Ok(c) => if c == [] then Err(TypeError) else Ok(Product(Counted(c)))
  }

  /**
   * `_get_num_combos_for_text(text)` as evidently intended: the product of
   * the value counts of the template's grammars, 1 for a template without
   * placeholders (it has exactly one rendering).
   */
  function NumCombos(text: string, registry: MCE.Registry): Result<nat, Error>
  {
    match MCE.CombinationsOf(text, Some(registry))
    case Err(e) => Err(e)
    case Ok(c) => Ok(Product(Counted(c)))
  }

  /**
   * The two agree on every template with a placeholder; on a template
   * without one, the written code raises TypeError where the intended
   * count is 1.
   */
  lemma NumCombosAgree(text: string, registry: MCE.Registry)
    ensures MCE.PlaceholdersOf(text) != [] ==> NumCombosAsWritten(text, registry) == NumCombos(text, registry)
    ensures MCE.PlaceholdersOf(text) == [] ==>
              NumCombosAsWritten(text, registry) == Err(TypeError) && NumCombos(text, registry) == Ok(1)
  {
    var ps := MCE.PlaceholdersOf(text);
    var b := MCE.Bind(ps, registry, |ps|);
    if b.Ok? {
      var c := MCE.Counts(b.value);
      MCE.CountsKeys(b.value);
      if ps != [] {
        assert b.value[0].name in Keys(c);
      } else {
        var empty: Dict<string, nat> := [];
        assert c == Update(empty, []) == [];
      }
    }
  }

  /** A template without placeholders: the written code raises where the intended count is 1. */
  lemma NoPlaceholderTemplate(registry: MCE.Registry)
    ensures NumCombosAsWritten("", registry) == Err(TypeError) && NumCombos("", registry) == Ok(1)
  {
    NumCombosAgree("", registry);
  }

  /** A name of a range has a last occurrence in it. */
  lemma {:induction false} LastOfName(gs: seq<MCE.GrammarObj>, j: nat)
    requires j < |gs|
    ensures exists m :: j <= m < |gs| && gs[m].name == gs[j].name && forall q :: m < q < |gs| ==> gs[q].name != gs[j].name
    decreases |gs| - j
  {
    if exists q :: j < q < |gs| && gs[q].name == gs[j].name {
      var q :| j < q < |gs| && gs[q].name == gs[j].name;
      LastOfName(gs, q);
      var m :| q <= m < |gs| && gs[m].name == gs[q].name && forall q' :: m < q' < |gs| ==> gs[q'].name != gs[q].name;
      assert j <= m < |gs| && gs[m].name == gs[j].name;
    } else {
      assert j <= j < |gs| && gs[j].name == gs[j].name && forall q :: j < q < |gs| ==> gs[q].name != gs[j].name;
    }
  }

  /** In a dictionary with distinct keys, an entry is what its key gives. */
  lemma GetUnique<K, V>(d: Dict<K, V>, i: nat)
    requires i < |d| && KeysUnique(d)
    ensures Get(d, d[i].0) == Some(d[i].1)
  {
    assert Keys(d)[i] == d[i].0;
  }

  /**
   * The count of the grammars of a template (what `NumCombos` multiplies
   * out) is zero exactly when a grammar counted for its name, the last of
   * that name, has no values.
   */
  lemma CountsZero(gs: seq<MCE.GrammarObj>)
    ensures Product(Counted(MCE.Counts(gs))) == 0
            <==> exists j :: && 0 <= j < |gs| && gs[j].values == []
                             && forall m :: j < m < |gs| ==> gs[m].name != gs[j].name
  {
    var c := MCE.Counts(gs);
    ProductZero(Counted(c));
    MCE.CountsKeys(gs);
    if exists j :: && 0 <= j < |gs| && gs[j].values == []
                   && forall m :: j < m < |gs| ==> gs[m].name != gs[j].name {
      var j :| && 0 <= j < |gs| && gs[j].values == []
               && forall m :: j < m < |gs| ==> gs[m].name != gs[j].name;
      MCE.CountsLast(gs, j);
      var i := IndexOfKey(c, gs[j].name);
      assert Counted(c)[i] == 0;
    }
    if exists i :: 0 <= i < |c| && Counted(c)[i] == 0 {
      var i :| 0 <= i < |c| && Counted(c)[i] == 0;
      GetUnique(c, i);
      assert Keys(c)[i] in Keys(c);
      var j :| 0 <= j < |gs| && gs[j].name == c[i].0;
      LastOfName(gs, j);
      var m :| j <= m < |gs| && gs[m].name == gs[j].name && forall q :: m < q < |gs| ==> gs[q].name != gs[j].name;
      MCE.CountsLast(gs, m);
    }
  }

  /**
   * The corrected count of a template whose names are all registered: 1
   * without placeholders, and 0 exactly when the last grammar of some name
   * has no values; a name the intent does not hold raises KeyError.
   */
  lemma NumCombosMeaning(text: string, registry: MCE.Registry)
    ensures var ps := MCE.PlaceholdersOf(text);
            var b := MCE.Bind(ps, registry, |ps|);
            && (NumCombos(text, registry).Err? <==> b.Err?)
            && (b.Err? ==> NumCombos(text, registry) == Err(b.error))
            && (ps == [] ==> NumCombos(text, registry) == Ok(1))
            && (b.Ok? ==> (NumCombos(text, registry).value == 0 <==>
                             exists j :: && 0 <= j < |b.value| && b.value[j].values == []
                                         && forall m :: j < m < |b.value| ==> b.value[m].name != b.value[j].name))
  {
    var ps := MCE.PlaceholdersOf(text);
    var b := MCE.Bind(ps, registry, |ps|);
    NumCombosAgree(text, registry);
    if b.Ok? {
      CountsZero(b.value);
    }
  }

  // ---------------------------------------------------------------------
  // validate_num

  /** A count added to a total, or the exception that stopped the total. */
  function Plus(n: nat, r: Result<nat, Error>): Result<nat, Error>
  {
    match r
    case Err(e) => Err(e)
    case Ok(t) => Ok(n + t)
  }

  /**
   * The sum of the counts from the `i`-th on, or the first exception among
   * them.
   */
  function SumFrom(counts: seq<Result<nat, Error>>, i: nat): Result<nat, Error>
    requires i <= |counts|
    decreases |counts| - i
  {
    if i == |counts| then Ok(0)
    else
      match counts[i]
      case Err(e) => Err(e)
      case Ok(n) => Plus(n, SumFrom(counts, i + 1))
  }

  /**
   * The sum raises exactly when a count does, and then the exception of
   * the first count that raises; otherwise no count exceeds it.
   */
  lemma {:induction false} SumFromBounds(counts: seq<Result<nat, Error>>, i: nat)
    requires i <= |counts|
    ensures var r := SumFrom(counts, i);
            && (r.Err? <==> exists j :: i <= j < |counts| && counts[j].Err?)
            && (r.Err? ==> exists j :: i <= j < |counts| && counts[j] == Err(r.error)
                                       && forall j' :: i <= j' < j ==> counts[j'].Ok?)
            && (r.Ok? ==> forall j :: i <= j < |counts| ==> counts[j].value <= r.value)
    decreases |counts| - i
  {
    if i < |counts| {
      SumFromBounds(counts, i + 1);
    }
  }

  /** One more count added to the running total. */
  lemma SumStep(counts: seq<Result<nat, Error>>, i: nat, total: nat)
    requires i < |counts|
    ensures counts[i].Err? ==> SumFrom(counts, i) == Err(counts[i].error)
    ensures counts[i].Ok? ==> Plus(total, SumFrom(counts, i)) == Plus(total + counts[i].value, SumFrom(counts, i + 1))
  {
  }

  /** `_get_num_combos_for_text` against a fixed set of grammars. */
  function Counter(registry: MCE.Registry): string -> Result<nat, Error>
  {
    text => NumCombos(text, registry)
  }

  /**
   * `count` gives the count of every template against `registry`; stated
   * for the templates whose count is asked for, so that the count of a
   * template is worked out only where a proof needs it.
   */
  ghost predicate CountsBy(registry: MCE.Registry, count: string -> Result<nat, Error>)
  {
    forall t {:trigger NumCombos(t, registry)} :: NumCombos(t, registry) == count(t)
  }

  /** `Counter` counts by its registry. */
  lemma CounterCounts(registry: MCE.Registry)
    ensures CountsBy(registry, Counter(registry))
  {
  }

  /** `[self._get_num_combos_for_text(text) for text in self.texts]`, as results. */
  function CountsOf(texts: seq<string>, count: string -> Result<nat, Error>): (cs: seq<Result<nat, Error>>)
    ensures |cs| == |texts| && forall j :: 0 <= j < |texts| ==> cs[j] == count(texts[j])
  {
    seq(|texts|, j requires 0 <= j < |texts| => count(texts[j]))
  }

  /**
   * Putting the count of `texts[i]` keeps the counts of the templates before
   * it; `p` is the dictionary after the put, given by its lookups and keys.
   */
  lemma PutCount(rv: Dict<string, nat>, p: Dict<string, nat>, texts: seq<string>, i: nat,
                 count: string -> Result<nat, Error>, v: nat)
    requires i < |texts| && count(texts[i]) == Ok(v)
    requires forall k :: Get(p, k) == if k == texts[i] then Some(v) else Get(rv, k)
    requires forall k :: k in Keys(p) ==> k in Keys(rv) || k == texts[i]
    requires forall j :: 0 <= j < i ==> count(texts[j]).Ok? && Get(rv, texts[j]) == Some(count(texts[j]).value)
    requires forall k :: k in Keys(rv) ==> k in texts
    ensures forall j :: 0 <= j <= i ==> count(texts[j]).Ok? && Get(p, texts[j]) == Some(count(texts[j]).value)
    ensures forall k :: k in Keys(p) ==> k in texts
  {
  }

  /**
   * `validate_num(num)`: the exception of the first count that raises, or
   * RuntimeError naming the total exactly when `num` exceeds it.
   */
  function Validated(num: int, counts: seq<Result<nat, Error>>): (r: Option<Error>)
    ensures SumFrom(counts, 0).Ok? ==>
              (r.Some? <==> num > SumFrom(counts, 0).value)
              && (r.Some? ==> r.value == RuntimeError(MaxCombinations + Decimal(SumFrom(counts, 0).value)))
    ensures SumFrom(counts, 0).Err? ==> r == Some(SumFrom(counts, 0).error)
  {
    match SumFrom(counts, 0)
    case Err(e) => Some(e)
    case Ok(total) => if num > total then Some(RuntimeError(MaxCombinations + Decimal(total))) else None
  }

  /** A `num` that validates is within the total, and every template's count is known and within it. */
  lemma ValidatedBound(num: int, texts: seq<string>, registry: MCE.Registry, j: nat)
    requires j < |texts| && Validated(num, CountsOf(texts, Counter(registry))).None?
    ensures NumCombos(texts[j], registry).Ok?
    ensures NumCombos(texts[j], registry).value <= SumFrom(CountsOf(texts, Counter(registry)), 0).value
    ensures num <= SumFrom(CountsOf(texts, Counter(registry)), 0).value
  {
    SumFromBounds(CountsOf(texts, Counter(registry)), 0);
    assert CountsOf(texts, Counter(registry))[j] == NumCombos(texts[j], registry);
  }

  // ---------------------------------------------------------------------
  // choose_text

  /** `used_combinations[key]` on the `defaultdict`: reading a missing key stores an empty list under it. */
  function Touch(used: Dict<string, seq<Dict<string, string>>>, key: string): (r: Dict<string, seq<Dict<string, string>>>)
    ensures forall k :: GetOr(r, k, []) == GetOr(used, k, [])
    ensures key in Keys(r)
  {
    if key in Keys(used) then used
    else
      var r := used + [(key, [])];
      assert Keys(r) == Keys(used) + [key];
      forall k ensures GetOr(r, k, []) == GetOr(used, k, []) {
        if k != key {
          IndexOfKeyByKeys(used, r, k);
        }
      }
      r
  }

  /** `list.remove(x)`: the first occurrence of `x` goes. */
  function RemoveFirst(s: seq<string>, x: string): (r: seq<string>)
    requires x in s
    ensures |r| == |s| - 1 && multiset(r) == multiset(s) - multiset{x}
  {
    if s[0] == x then
      assert s == [s[0]] + s[1..];
      s[1..]
    else
      assert s == [s[0]] + s[1..];
      [s[0]] + RemoveFirst(s[1..], x)
  }

  /** What `choose_text` returns or raises, and the list of available templates and the used combinations it leaves. */
  datatype Chosen = Chosen(text: Result<string, Error>, available: seq<string>,
                           used: Dict<string, seq<Dict<string, string>>>)

  /**
   * `choose_text()` from its `n`-th draw on, `picks(n)` standing for
   * `random.choice`: IndexError on an empty list; a drawn template whose
   * recorded combinations reach its count is removed, and RuntimeError is
   * raised once none is left; otherwise the drawn template is returned.
   */
  function ChooseFrom(available: seq<string>, used: Dict<string, seq<Dict<string, string>>>, count: string -> Result<nat, Error>,
                      picks: nat -> nat, n: nat): Chosen
    decreases |available|
  {
    if available == [] then Chosen(Err(IndexError), available, used)
    else
      var text := available[picks(n) % |available|];
      var used' := Touch(used, text);
      match count(text)
      case Err(e) => Chosen(Err(e), available, used')
      case Ok(c) =>
        if |GetOr(used', text, [])| >= c then
          var rest := RemoveFirst(available, text);
          if rest == [] then Chosen(Err(RuntimeError(ExceededTexts)), rest, used')
          else ChooseFrom(rest, used', count, picks, n + 1)
        else Chosen(Ok(text), available, used')
  }

  /** A template whose recorded combinations reach its count. */
  ghost predicate Exhausted(used: Dict<string, seq<Dict<string, string>>>, count: string -> Result<nat, Error>, text: string)
  {
    count(text).Ok? && |GetOr(used, text, [])| >= count(text).value
  }

  /** `choose_text` only removes templates from the list. */
  lemma {:induction false} ChooseShrinks(available: seq<string>, used: Dict<string, seq<Dict<string, string>>>,
                                         count: string -> Result<nat, Error>, picks: nat -> nat, n: nat)
    ensures multiset(ChooseFrom(available, used, count, picks, n).available) <= multiset(available)
    decreases |available|
  {
    if available != [] {
      var text := available[picks(n) % |available|];
      var used' := Touch(used, text);
      var c := count(text);
      if c.Ok? && |GetOr(used', text, [])| >= c.value {
        var rest := RemoveFirst(available, text);
        if rest != [] {
          ChooseShrinks(rest, used', count, picks, n + 1);
          assert multiset(rest) <= multiset(available);
        }
      }
    }
  }

  /** `choose_text` removes only exhausted templates from the list. */
  lemma {:induction false} ChooseRemovesExhausted(available: seq<string>, used: Dict<string, seq<Dict<string, string>>>,
                                                  count: string -> Result<nat, Error>, picks: nat -> nat, n: nat)
    ensures var r := ChooseFrom(available, used, count, picks, n);
            forall t :: t in multiset(available) - multiset(r.available) ==> Exhausted(used, count, t)
    decreases |available|
  {
    if available != [] {
      var text := available[picks(n) % |available|];
      var used' := Touch(used, text);
      var c := count(text);
      if c.Ok? && |GetOr(used', text, [])| >= c.value {
        var rest := RemoveFirst(available, text);
        if rest != [] {
          ChooseRemovesExhausted(rest, used', count, picks, n + 1);
          var r := ChooseFrom(rest, used', count, picks, n + 1);
          assert ChooseFrom(available, used, count, picks, n) == r;
          forall t | t in multiset(available) - multiset(r.available) ensures Exhausted(used, count, t) {
            if t != text {
              assert multiset(available)[t] == multiset(rest)[t];
              assert Exhausted(used', count, t);
            }
          }
        }
      }
    }
  }

  /** A template `choose_text` returns is still available and has fewer recorded combinations than its count. */
  lemma {:induction false} ChooseReturnsFresh(available: seq<string>, used: Dict<string, seq<Dict<string, string>>>,
                                              count: string -> Result<nat, Error>, picks: nat -> nat, n: nat)
    ensures var r := ChooseFrom(available, used, count, picks, n);
            r.text.Ok? ==> && r.text.value in r.available && count(r.text.value).Ok?
                           && |GetOr(used, r.text.value, [])| < count(r.text.value).value
    decreases |available|
  {
    if available != [] {
      var text := available[picks(n) % |available|];
      var used' := Touch(used, text);
      var c := count(text);
      if c.Ok? && |GetOr(used', text, [])| >= c.value {
        var rest := RemoveFirst(available, text);
        if rest != [] {
          ChooseReturnsFresh(rest, used', count, picks, n + 1);
        }
      }
    }
  }

  /**
   * `choose_text` fails only by emptying the list (IndexError when it was
   * empty, RuntimeError once the last template is removed) or by the
   * exception counting a still available template raised.
   */
  lemma {:induction false} ChooseFailure(available: seq<string>, used: Dict<string, seq<Dict<string, string>>>,
                                         count: string -> Result<nat, Error>, picks: nat -> nat, n: nat)
    ensures var r := ChooseFrom(available, used, count, picks, n);
            && (r.available == [] ==> r.text.Err?)
            && (available == [] ==> r.text == Err(IndexError))
            && (r.text.Err? && r.available != [] ==> exists t :: t in r.available && count(t) == Err(r.text.error))
    decreases |available|
  {
    if available != [] {
      var text := available[picks(n) % |available|];
      var used' := Touch(used, text);
      var c := count(text);
      if c.Ok? && |GetOr(used', text, [])| >= c.value {
        var rest := RemoveFirst(available, text);
        if rest != [] {
          ChooseFailure(rest, used', count, picks, n + 1);
        }
      } else if c.Err? {
        assert text in available;
      }
    }
  }

  /** `choose_text` records no combination: every list reads as before. */
  lemma {:induction false} ChooseKeepsUsed(available: seq<string>, used: Dict<string, seq<Dict<string, string>>>,
                                           count: string -> Result<nat, Error>, picks: nat -> nat, n: nat)
    ensures forall k :: GetOr(ChooseFrom(available, used, count, picks, n).used, k, []) == GetOr(used, k, [])
    decreases |available|
  {
    if available != [] {
      var text := available[picks(n) % |available|];
      var used' := Touch(used, text);
      var c := count(text);
      if c.Ok? && |GetOr(used', text, [])| >= c.value {
        var rest := RemoveFirst(available, text);
        if rest != [] {
          ChooseKeepsUsed(rest, used', count, picks, n + 1);
        }
      }
    }
  }

  // ---------------------------------------------------------------------
  // generate_examples

  /** The number of combinations recorded over all templates. */
  function TotalUsed(used: Dict<string, seq<Dict<string, string>>>): nat
  {
    if used == [] then 0 else |used[0].1| + TotalUsed(used[1..])
  }

  /** Replacing one entry's list changes the total by the difference of the lengths. */
  lemma {:induction false} TotalUsedAt(used: Dict<string, seq<Dict<string, string>>>, i: nat, x: (string, seq<Dict<string, string>>))
    requires i < |used|
    ensures TotalUsed(used[i := x]) + |used[i].1| == TotalUsed(used) + |x.1|
  {
    if i > 0 {
      TotalUsedAt(used[1..], i - 1, x);
      assert used[i := x][1..] == used[1..][i - 1 := x];
    }
  }

  /** A new entry adds its list's length to the total. */
  lemma {:induction false} TotalUsedSnoc(used: Dict<string, seq<Dict<string, string>>>, x: (string, seq<Dict<string, string>>))
    ensures TotalUsed(used + [x]) == TotalUsed(used) + |x.1|
  {
    if used != [] {
      assert (used + [x])[1..] == used[1..] + [x];
      TotalUsedSnoc(used[1..], x);
    }
  }

  /** `used_combinations[key].append(combination)`: one more combination recorded. */
  lemma Recorded(used: Dict<string, seq<Dict<string, string>>>, key: string, combination: Dict<string, string>)
    ensures TotalUsed(Put(used, key, GetOr(used, key, []) + [combination])) == TotalUsed(used) + 1
    ensures GetOr(Put(used, key, GetOr(used, key, []) + [combination]), key, []) == GetOr(used, key, []) + [combination]
  {
    var i := IndexOfKey(used, key);
    PutGet(used, key, GetOr(used, key, []) + [combination], key);
    if i == -1 {
      TotalUsedSnoc(used, (key, []  + [combination]));
    } else {
      TotalUsedAt(used, i, (key, GetOr(used, key, []) + [combination]));
    }
  }

  /** Reading a missing key through the `defaultdict` adds no combination. */
  lemma {:induction false} TotalUsedTouch(used: Dict<string, seq<Dict<string, string>>>, key: string)
    ensures TotalUsed(Touch(used, key)) == TotalUsed(used)
  {
    if key !in Keys(used) {
      TotalUsedSnoc(used, (key, []));
    }
  }

  /** `choose_text` leaves the number of recorded combinations as it was. */
  lemma {:induction false} ChooseKeepsTotal(available: seq<string>, used: Dict<string, seq<Dict<string, string>>>,
                                            count: string -> Result<nat, Error>, picks: nat -> nat, n: nat)
    ensures TotalUsed(ChooseFrom(available, used, count, picks, n).used) == TotalUsed(used)
    decreases |available|
  {
    if available != [] {
      var text := available[picks(n) % |available|];
      TotalUsedTouch(used, text);
      var used' := Touch(used, text);
      if count(text).Ok? && |GetOr(used', text, [])| >= count(text).value {
        var rest := RemoveFirst(available, text);
        if rest != [] {
          ChooseKeepsTotal(rest, used', count, picks, n + 1);
        }
      }
    }
  }

  // ---------------------------------------------------------------------
  // entity_synonyms

  /** One element of `entity_synonyms()`: `dict(value=name, synonyms=value)`. */
  datatype SynonymEntry = SynonymEntry(value: string, synonyms: seq<string>)

  /** `entity_synonyms()`: one entry per item of `synonyms_used`, in insertion order. */
  function SynonymEntries(used: Dict<string, seq<string>>): (r: seq<SynonymEntry>)
    ensures |r| == |used|
  {
    seq(|used|, i requires 0 <= i < |used| => SynonymEntry(used[i].0, used[i].1))
  }

  /** The entries read back as a table. */
  function Table(entries: seq<SynonymEntry>): (d: Dict<string, seq<string>>)
    ensures |d| == |entries|
  {
    seq(|entries|, i requires 0 <= i < |entries| => (entries[i].value, entries[i].synonyms))
  }

  /** Nothing is lost or reordered: the entries give back `synonyms_used`. */
  lemma SynonymEntriesRoundTrip(used: Dict<string, seq<string>>)
    ensures Table(SynonymEntries(used)) == used
  {
    var t := Table(SynonymEntries(used));
    forall i | 0 <= i < |used| ensures t[i] == used[i] {
      assert t[i] == (SynonymEntries(used)[i].value, SynonymEntries(used)[i].synonyms);
    }
  }

  // ---------------------------------------------------------------------
  // The intent

  /** No template has more combinations recorded than its count. */
  ghost predicate WithinCounts(used: Dict<string, seq<Dict<string, string>>>, count: string -> Result<nat, Error>)
  {
    forall t {:trigger GetOr(used, t, [])} :: count(t).Ok? ==> |GetOr(used, t, [])| <= count(t).value
  }

  /** One more combination for a template below its count keeps every template within its count. */
  lemma RecordedWithin(used: Dict<string, seq<Dict<string, string>>>, count: string -> Result<nat, Error>,
                       key: string, combination: Dict<string, string>)
    requires WithinCounts(used, count)
    requires count(key).Ok? && |GetOr(used, key, [])| < count(key).value
    ensures WithinCounts(Put(used, key, GetOr(used, key, []) + [combination]), count)
  {
    var used' := Put(used, key, GetOr(used, key, []) + [combination]);
    forall t | count(t).Ok? ensures |GetOr(used', t, [])| <= count(t).value {
      assert |GetOr(used, t, [])| <= count(t).value;
      PutGet(used, key, GetOr(used, key, []) + [combination], t);
    }
  }

  /** What one example of `generate_examples` leaves: its template, the combination `process` returned and the synonyms it used. */
  datatype Sample = Sample(text: string, combination: Dict<string, string>, synonymsUsed: Dict<string, seq<string>>)

  /**
   * The examples `generate_examples` makes, or the exception it raises, with
   * the available templates and the recorded combinations it leaves.
   */
  datatype Generation = Generation(samples: Result<seq<Sample>, Error>, available: seq<string>,
                                   used: Dict<string, seq<Dict<string, string>>>)

  /**
   * The loop of `generate_examples` from iteration `index` up to `n`, the
   * samples of the earlier iterations being `done`: `choose_text`, then
   * `process` on a fresh example of the chosen template, excluding the
   * combinations recorded for it, and the returned combination appended to
   * them. `textPicks(index)` and `valuePicks(index)` are the random draws of
   * iteration `index`.
   */
  function GenerateFrom(available: seq<string>, used: Dict<string, seq<Dict<string, string>>>, registry: MCE.Registry,
                        count: string -> Result<nat, Error>, textPicks: nat -> nat -> nat, valuePicks: nat -> nat -> nat,
                        index: nat, n: nat, done: seq<Sample>): Generation
  {
    GenerateWith(available, used, ProcessOf(registry), count, textPicks, valuePicks, index, n, done)
  }

  /** What `process` on a fresh example of template `text` returns, excluding `excluded`, with random draws `pick`. */
  type Processor = (string, seq<Dict<string, string>>, nat -> nat) -> (MCE.Run, Option<Error>)

  /** `process` on a fresh `CommonExample(text, self)`, as `ModelsCommonExample.Processed` says. */
  function ProcessOf(registry: MCE.Registry): Processor
  {
    (text, excluded, pick) => MCE.Processed(text, Some(registry), Some(MCE.Listed(excluded)), pick, [], [], [])
  }

  /**
   * `GenerateFrom` with the processing of an example left as a parameter:
   * what the loop does with the result of each `process` call does not
   * depend on how the call reached it.
   */
  function GenerateWith(available: seq<string>, used: Dict<string, seq<Dict<string, string>>>, process: Processor,
                        count: string -> Result<nat, Error>, textPicks: nat -> nat -> nat, valuePicks: nat -> nat -> nat,
                        index: nat, n: nat, done: seq<Sample>): Generation
    decreases n - index
  {
    if index >= n then Generation(Ok(done), available, used)
    else
      var c := ChooseFrom(available, used, count, textPicks(index), 0);
      match c.text
      case Err(e) => Generation(Err(e), c.available, c.used)
      case Ok(key) =>
        var excluded := GetOr(c.used, key, []);
        var run := process(key, excluded, valuePicks(index));
        if run.1.Some? then Generation(Err(run.1.value), c.available, c.used)
        else GenerateWith(c.available, Put(c.used, key, excluded + [run.0.chosen]), process, count, textPicks, valuePicks,
                          index + 1, n, done + [Sample(key, run.0.chosen, run.0.synonymsUsed)])
  }

  /** The combinations of the samples of template `k`, in order. */
  function CombinationsFor(ss: seq<Sample>, k: string): seq<Dict<string, string>>
  {
    if ss == [] then [] else (if ss[0].text == k then [ss[0].combination] else []) + CombinationsFor(ss[1..], k)
  }

  /** The synonyms each sample used, in order. */
  function SynonymsOf(ss: seq<Sample>): (ds: seq<Dict<string, seq<string>>>)
    ensures |ds| == |ss| && forall i :: 0 <= i < |ss| ==> ds[i] == ss[i].synonymsUsed
  {
    seq(|ss|, i requires 0 <= i < |ss| => ss[i].synonymsUsed)
  }

  /** The templates of the samples, in order. */
  function TextsOf(ss: seq<Sample>): (ts: seq<string>)
    ensures |ts| == |ss| && forall i :: 0 <= i < |ss| ==> ts[i] == ss[i].text
  {
    seq(|ss|, i requires 0 <= i < |ss| => ss[i].text)
  }

  /** The texts of the examples `es`, in order. */
  function ExampleTexts(es: seq<MCE.CommonExample>): (ts: seq<string>)
    reads es
    ensures |ts| == |es| && forall i :: 0 <= i < |es| ==> ts[i] == es[i].text
  {
    seq(|es|, i requires 0 <= i < |es| reads es => es[i].text)
  }

  /**
   * Recording sample `s` on top of `chosen`, then the later samples `rest`,
   * gives template `k` what it had before plus the combinations of `s` and
   * `rest`; `p` is the dictionary after the put, given by its lookups.
   */
  lemma RecordAt(used: Dict<string, seq<Dict<string, string>>>, chosen: Dict<string, seq<Dict<string, string>>>,
                 p: Dict<string, seq<Dict<string, string>>>, s: Sample, rest: seq<Sample>,
                 last: Dict<string, seq<Dict<string, string>>>, k: string)
    requires Get(p, k) == if k == s.text then Some(GetOr(chosen, s.text, []) + [s.combination]) else Get(chosen, k)
    requires GetOr(chosen, k, []) == GetOr(used, k, [])
    requires GetOr(last, k, []) == GetOr(p, k, []) + CombinationsFor(rest, k)
    ensures GetOr(last, k, []) == GetOr(used, k, []) + CombinationsFor([s] + rest, k)
  {
    assert ([s] + rest)[1..] == rest;
  }

  /**
   * The step of `GenerateRecordsAt`: what the later iterations leave for
   * template `k`, after sample `s` was recorded on top of `chosen`, is what
   * was recorded before plus the combinations of `s` and of the later
   * samples.
   */
  lemma RecordsAfter(used: Dict<string, seq<Dict<string, string>>>, chosen: Dict<string, seq<Dict<string, string>>>,
                     recorded: Dict<string, seq<Dict<string, string>>>, done: seq<Sample>, s: Sample, all: seq<Sample>,
                     last: Dict<string, seq<Dict<string, string>>>, k: string)
    requires GetOr(chosen, k, []) == GetOr(used, k, [])
    requires recorded == Put(chosen, s.text, GetOr(chosen, s.text, []) + [s.combination])
    requires |done| < |all| && all[..|done| + 1] == done + [s]
    requires GetOr(last, k, []) == GetOr(recorded, k, []) + CombinationsFor(all[|done| + 1..], k)
    ensures GetOr(last, k, []) == GetOr(used, k, []) + CombinationsFor(all[|done|..], k)
  {
    SplitAfter(all, done, s);
    PutGet(chosen, s.text, GetOr(chosen, s.text, []) + [s.combination], k);
    RecordAt(used, chosen, recorded, s, all[|done| + 1..], last, k);
  }

  /** Splitting a sequence after its first `m` elements and one more. */
  lemma SplitAfter<T>(all: seq<T>, done: seq<T>, s: T)
    requires |done| < |all| && all[..|done| + 1] == done + [s]
    ensures all[..|done|] == done && all[|done|..] == [s] + all[|done| + 1..]
  {
    assert all[..|done|] == all[..|done| + 1][..|done|];
    assert all[|done|] == all[..|done| + 1][|done|];
  }

  /** The loop ended with the samples `done` followed by `m` new ones. */
  ghost predicate Extends(g: Generation, done: seq<Sample>, m: nat)
  {
    g.samples.Ok? ==> |g.samples.value| == |done| + m && g.samples.value[..|done|] == done
  }

  /**
   * Template `k`'s list of recorded combinations is what it was in `used`
   * plus the combinations of the template's samples made after `done`, in
   * the order they were made.
   */
  ghost predicate RecordsNew(g: Generation, used: Dict<string, seq<Dict<string, string>>>, done: seq<Sample>, k: string)
  {
    g.samples.Ok? && |done| <= |g.samples.value| ==>
      GetOr(g.used, k, []) == GetOr(used, k, []) + CombinationsFor(g.samples.value[|done|..], k)
  }

  /**
   * No template goes past its count if none did in `used`, and every
   * sample made after `done` is of a template of `available`.
   */
  ghost predicate StaysWithin(g: Generation, used: Dict<string, seq<Dict<string, string>>>, count: string -> Result<nat, Error>,
                              available: seq<string>, done: seq<Sample>)
  {
    && (WithinCounts(used, count) ==> WithinCounts(g.used, count))
    && NewFrom(g, available, done)
  }

  /** Every sample made after `done` is of a template of `available`. */
  ghost predicate NewFrom(g: Generation, available: seq<string>, done: seq<Sample>)
  {
    g.samples.Ok? ==> && |done| <= |g.samples.value|
                      && forall i :: |done| <= i < |g.samples.value| ==> g.samples.value[i].text in available
  }

  /** The loop ended with `m` more recorded combinations than `used` holds. */
  ghost predicate TotalGrows(g: Generation, used: Dict<string, seq<Dict<string, string>>>, m: nat)
  {
    g.samples.Ok? ==> TotalUsed(g.used) == TotalUsed(used) + m
  }

  /**
   * When the loop runs to the end it makes one sample per iteration, after
   * those already made, and each template's list of recorded combinations
   * ends up as it was plus the combinations of that template's new samples,
   * in the order they were made.
   */
  lemma GenerateRecords(available: seq<string>, used: Dict<string, seq<Dict<string, string>>>,
                        process: Processor, count: string -> Result<nat, Error>,
                        textPicks: nat -> nat -> nat, valuePicks: nat -> nat -> nat,
                        index: nat, n: nat, done: seq<Sample>)
    requires index <= n
    ensures Extends(GenerateWith(available, used, process, count, textPicks, valuePicks, index, n, done), done, n - index)
    ensures forall k :: RecordsNew(GenerateWith(available, used, process, count, textPicks, valuePicks, index, n, done),
                                   used, done, k)
  {
    GenerateLength(available, used, process, count, textPicks, valuePicks, index, n, done);
    forall k
      ensures RecordsNew(GenerateWith(available, used, process, count, textPicks, valuePicks, index, n, done), used, done, k)
    {
      GenerateRecordsAt(available, used, process, count, textPicks, valuePicks, index, n, done, k);
    }
  }

  /** When the loop runs to the end it adds one sample per iteration after those already made. */
  lemma {:induction false} GenerateLength(available: seq<string>, used: Dict<string, seq<Dict<string, string>>>,
                                          process: Processor, count: string -> Result<nat, Error>,
                                          textPicks: nat -> nat -> nat, valuePicks: nat -> nat -> nat,
                                          index: nat, n: nat, done: seq<Sample>)
    requires index <= n
    ensures Extends(GenerateWith(available, used, process, count, textPicks, valuePicks, index, n, done), done, n - index)
    decreases n - index
  {
    var g := GenerateWith(available, used, process, count, textPicks, valuePicks, index, n, done);
    if index == n {
      assert done[..|done|] == done;
      return;
    }
    var c := ChooseFrom(available, used, count, textPicks(index), 0);
    if c.text.Err? {
      assert g.samples.Err?;
      return;
    }
    var key := c.text.value;
    var excluded := GetOr(c.used, key, []);
    var run := process(key, excluded, valuePicks(index));
    if run.1.Some? {
      assert g.samples.Err?;
      return;
    }
    var s := Sample(key, run.0.chosen, run.0.synonymsUsed);
    var used' := Put(c.used, key, excluded + [run.0.chosen]);
    var g' := GenerateWith(c.available, used', process, count, textPicks, valuePicks, index + 1, n, done + [s]);
    assert g == g';
    GenerateLength(c.available, used', process, count, textPicks, valuePicks, index + 1, n, done + [s]);
    if g'.samples.Ok? {
      SplitAfter(g'.samples.value, done, s);
    }
  }

  /** `GenerateRecords` for one template `k`. */
  lemma {:induction false} GenerateRecordsAt(available: seq<string>, used: Dict<string, seq<Dict<string, string>>>,
                                             process: Processor, count: string -> Result<nat, Error>,
                                             textPicks: nat -> nat -> nat, valuePicks: nat -> nat -> nat,
                                             index: nat, n: nat, done: seq<Sample>, k: string)
    requires index <= n
    ensures RecordsNew(GenerateWith(available, used, process, count, textPicks, valuePicks, index, n, done), used, done, k)
    decreases n - index
  {
    var g := GenerateWith(available, used, process, count, textPicks, valuePicks, index, n, done);
    if index == n {
      assert done[|done|..] == [];
      return;
    }
    var c := ChooseFrom(available, used, count, textPicks(index), 0);
    if c.text.Err? {
      assert g.samples.Err?;
      return;
    }
    var key := c.text.value;
    var excluded := GetOr(c.used, key, []);
    var run := process(key, excluded, valuePicks(index));
    if run.1.Some? {
      assert g.samples.Err?;
      return;
    }
    var s := Sample(key, run.0.chosen, run.0.synonymsUsed);
    var used' := Put(c.used, key, excluded + [run.0.chosen]);
    var g' := GenerateWith(c.available, used', process, count, textPicks, valuePicks, index + 1, n, done + [s]);
    assert g == g';
    GenerateRecordsAt(c.available, used', process, count, textPicks, valuePicks, index + 1, n, done + [s], k);
    GenerateLength(c.available, used', process, count, textPicks, valuePicks, index + 1, n, done + [s]);
    if g'.samples.Ok? {
      ChooseKeepsUsed(available, used, count, textPicks(index), 0);
      RecordsAfter(used, c.used, used', done, s, g'.samples.value, g'.used, k);
    }
  }

  /** `generate_examples` only removes templates from the list of available ones. */
  lemma {:induction false} GenerateShrinks(available: seq<string>, used: Dict<string, seq<Dict<string, string>>>,
                                           process: Processor, count: string -> Result<nat, Error>,
                                           textPicks: nat -> nat -> nat, valuePicks: nat -> nat -> nat,
                                           index: nat, n: nat, done: seq<Sample>)
    ensures multiset(GenerateWith(available, used, process, count, textPicks, valuePicks, index, n, done).available)
            <= multiset(available)
    decreases n - index
  {
    if index < n {
      var c := ChooseFrom(available, used, count, textPicks(index), 0);
      ChooseShrinks(available, used, count, textPicks(index), 0);
      if c.text.Ok? {
        var key := c.text.value;
        var excluded := GetOr(c.used, key, []);
        var run := process(key, excluded, valuePicks(index));
        if run.1.None? {
          GenerateShrinks(c.available, Put(c.used, key, excluded + [run.0.chosen]), process, count, textPicks, valuePicks,
                          index + 1, n, done + [Sample(key, run.0.chosen, run.0.synonymsUsed)]);
        }
      }
    }
  }

  /**
   * Every new sample of `generate_examples` is of a template that was
   * available, and had fewer recorded combinations than its count when it
   * was chosen, so no template goes past its count.
   */
  lemma GenerateWithin(available: seq<string>, used: Dict<string, seq<Dict<string, string>>>,
                       process: Processor, count: string -> Result<nat, Error>,
                       textPicks: nat -> nat -> nat, valuePicks: nat -> nat -> nat,
                       index: nat, n: nat, done: seq<Sample>)
    requires index <= n
    ensures StaysWithin(GenerateWith(available, used, process, count, textPicks, valuePicks, index, n, done),
                        used, count, available, done)
  {
    GenerateWithinCounts(available, used, process, count, textPicks, valuePicks, index, n, done);
    GenerateFromAvailable(available, used, process, count, textPicks, valuePicks, index, n, done);
  }

  /** `choose_text` on recorded lists within their counts returns a template still below its count. */
  lemma ChooseBelow(available: seq<string>, used: Dict<string, seq<Dict<string, string>>>,
                    count: string -> Result<nat, Error>, picks: nat -> nat, n: nat)
    requires WithinCounts(used, count)
    ensures var c := ChooseFrom(available, used, count, picks, n);
            && WithinCounts(c.used, count)
            && (c.text.Ok? ==> count(c.text.value).Ok? && |GetOr(c.used, c.text.value, [])| < count(c.text.value).value)
  {
    var c := ChooseFrom(available, used, count, picks, n);
    ChooseKeepsUsed(available, used, count, picks, n);
    ChooseReturnsFresh(available, used, count, picks, n);
    forall t | count(t).Ok? ensures |GetOr(c.used, t, [])| <= count(t).value {
      assert |GetOr(used, t, [])| <= count(t).value;
    }
  }

  /** No template goes past its count in `generate_examples` if none did before. */
  lemma {:induction false} GenerateWithinCounts(available: seq<string>, used: Dict<string, seq<Dict<string, string>>>,
                                                process: Processor, count: string -> Result<nat, Error>,
                                                textPicks: nat -> nat -> nat, valuePicks: nat -> nat -> nat,
                                                index: nat, n: nat, done: seq<Sample>)
    requires index <= n
    ensures WithinCounts(used, count) ==>
              WithinCounts(GenerateWith(available, used, process, count, textPicks, valuePicks, index, n, done).used, count)
    decreases n - index
  {
    var g := GenerateWith(available, used, process, count, textPicks, valuePicks, index, n, done);
    if index == n || !WithinCounts(used, count) {
      return;
    }
    var c := ChooseFrom(available, used, count, textPicks(index), 0);
    ChooseBelow(available, used, count, textPicks(index), 0);
    if c.text.Err? {
      assert g.used == c.used;
      return;
    }
    var key := c.text.value;
    var excluded := GetOr(c.used, key, []);
    var run := process(key, excluded, valuePicks(index));
    if run.1.Some? {
      assert g.used == c.used;
      return;
    }
    var s := Sample(key, run.0.chosen, run.0.synonymsUsed);
    var used' := Put(c.used, key, excluded + [run.0.chosen]);
    var g' := GenerateWith(c.available, used', process, count, textPicks, valuePicks, index + 1, n, done + [s]);
    assert g == g';
    RecordedWithin(c.used, count, key, run.0.chosen);
    GenerateWithinCounts(c.available, used', process, count, textPicks, valuePicks, index + 1, n, done + [s]);
  }

  /** Every new sample of `generate_examples` is of a template that was available. */
  lemma {:induction false} GenerateFromAvailable(available: seq<string>, used: Dict<string, seq<Dict<string, string>>>,
                                                 process: Processor, count: string -> Result<nat, Error>,
                                                 textPicks: nat -> nat -> nat, valuePicks: nat -> nat -> nat,
                                                 index: nat, n: nat, done: seq<Sample>)
    requires index <= n
    ensures NewFrom(GenerateWith(available, used, process, count, textPicks, valuePicks, index, n, done), available, done)
    decreases n - index
  {
    var g := GenerateWith(available, used, process, count, textPicks, valuePicks, index, n, done);
    if index == n {
      return;
    }
    var c := ChooseFrom(available, used, count, textPicks(index), 0);
    if c.text.Err? {
      assert g.samples.Err?;
      return;
    }
    var key := c.text.value;
    var excluded := GetOr(c.used, key, []);
    var run := process(key, excluded, valuePicks(index));
    if run.1.Some? {
      assert g.samples.Err?;
      return;
    }
    var s := Sample(key, run.0.chosen, run.0.synonymsUsed);
    var used' := Put(c.used, key, excluded + [run.0.chosen]);
    var g' := GenerateWith(c.available, used', process, count, textPicks, valuePicks, index + 1, n, done + [s]);
    assert g == g';
    ChooseReturnsFresh(available, used, count, textPicks(index), 0);
    ChooseShrinks(available, used, count, textPicks(index), 0);
    GenerateFromAvailable(c.available, used', process, count, textPicks, valuePicks, index + 1, n, done + [s]);
    if g'.samples.Ok? {
      GenerateLength(c.available, used', process, count, textPicks, valuePicks, index + 1, n, done + [s]);
      forall i | |done| <= i < |g'.samples.value| ensures g'.samples.value[i].text in available {
        var t := g'.samples.value[i].text;
        if i == |done| {
          assert g'.samples.value[i] == g'.samples.value[..|done| + 1][i];
        } else {
          assert t in c.available && multiset(c.available)[t] > 0;
        }
      }
    }
  }

  /**
   * What the whole loop of `generate_examples(n)` guarantees: templates are
   * only removed, no template goes past its count, and when it runs to the
   * end it makes `n` samples of available templates and records one
   * combination per sample.
   */
  lemma GenerateFacts(available: seq<string>, used: Dict<string, seq<Dict<string, string>>>, registry: MCE.Registry,
                      count: string -> Result<nat, Error>, textPicks: nat -> nat -> nat, valuePicks: nat -> nat -> nat,
                      n: nat)
    ensures var g := GenerateFrom(available, used, registry, count, textPicks, valuePicks, 0, n, []);
            && multiset(g.available) <= multiset(available)
            && (WithinCounts(used, count) ==> WithinCounts(g.used, count))
            && (g.samples.Ok? ==> && |g.samples.value| == n && TotalUsed(g.used) == TotalUsed(used) + n
                                  && forall i :: 0 <= i < n ==> g.samples.value[i].text in available)
  {
    var process := ProcessOf(registry);
    GenerateShrinks(available, used, process, count, textPicks, valuePicks, 0, n, []);
    GenerateWithin(available, used, process, count, textPicks, valuePicks, 0, n, []);
    GenerateTotal(available, used, process, count, textPicks, valuePicks, 0, n, []);
    GenerateLength(available, used, process, count, textPicks, valuePicks, 0, n, []);
  }

  /**
   * `GenerateRecords` for the whole loop of `generate_examples`: when it
   * runs to the end, each template's list of recorded combinations is what
   * it was plus the combinations of that template's examples, in order.
   */
  lemma GenerateRecordsFrom(available: seq<string>, used: Dict<string, seq<Dict<string, string>>>,
                            registry: MCE.Registry, count: string -> Result<nat, Error>,
                            textPicks: nat -> nat -> nat, valuePicks: nat -> nat -> nat, n: nat)
    ensures var g := GenerateFrom(available, used, registry, count, textPicks, valuePicks, 0, n, []);
            g.samples.Ok? ==> forall k :: GetOr(g.used, k, []) == GetOr(used, k, []) + CombinationsFor(g.samples.value, k)
  {
    var g := GenerateWith(available, used, ProcessOf(registry), count, textPicks, valuePicks, 0, n, []);
    GenerateRecords(available, used, ProcessOf(registry), count, textPicks, valuePicks, 0, n, []);
    if g.samples.Ok? {
      assert g.samples.value[0..] == g.samples.value;
      forall k ensures GetOr(g.used, k, []) == GetOr(used, k, []) + CombinationsFor(g.samples.value, k) {
        assert RecordsNew(g, used, [], k);
      }
    }
  }

  /** When the loop runs to the end, the recorded combinations grow by one per iteration. */
  lemma {:induction false} GenerateTotal(available: seq<string>, used: Dict<string, seq<Dict<string, string>>>,
                                         process: Processor, count: string -> Result<nat, Error>,
                                         textPicks: nat -> nat -> nat, valuePicks: nat -> nat -> nat,
                                         index: nat, n: nat, done: seq<Sample>)
    requires index <= n
    ensures TotalGrows(GenerateWith(available, used, process, count, textPicks, valuePicks, index, n, done), used, n - index)
    decreases n - index
  {
    var g := GenerateWith(available, used, process, count, textPicks, valuePicks, index, n, done);
    if index == n {
      return;
    }
    var c := ChooseFrom(available, used, count, textPicks(index), 0);
    if c.text.Err? {
      assert g.samples.Err?;
      return;
    }
    var key := c.text.value;
    var excluded := GetOr(c.used, key, []);
    var run := process(key, excluded, valuePicks(index));
    if run.1.Some? {
      assert g.samples.Err?;
      return;
    }
    var s := Sample(key, run.0.chosen, run.0.synonymsUsed);
    var used' := Put(c.used, key, excluded + [run.0.chosen]);
    var g' := GenerateWith(c.available, used', process, count, textPicks, valuePicks, index + 1, n, done + [s]);
    assert g == g';
    ChooseKeepsTotal(available, used, count, textPicks(index), 0);
    Recorded(c.used, key, run.0.chosen);
    GenerateTotal(c.available, used', process, count, textPicks, valuePicks, index + 1, n, done + [s]);
  }

  /** A regular expression feature of the training data. */
  datatype RegexFeature = RegexFeature(name: string, pattern: string)

  /** `generate()`'s `rasa_nlu_data`; the common examples are the example objects themselves. */
  datatype RasaData = RasaData(regexFeatures: seq<RegexFeature>, entitySynonyms: seq<SynonymEntry>,
                               commonExamples: seq<MCE.CommonExample>)

  /** The only regular expression feature `generate()` emits. */
  const ZipCode: RegexFeature := RegexFeature("zipcode", "[0-9]{5}")

  /**
   * `RasaNLUIntent`, with the fields and methods of its base `RasaBase`.
   * The methods that count combinations take the ghost `count`, which
   * `CountsBy` ties to `_get_num_combos_for_text` on the intent's grammars
   * (`Counter(grammars)` is one, by `CounterCounts`); `picks` stand for the
   * draws of `random.choice`.
   */
  class RasaNluIntent {
    const name: string
    var texts: seq<string>
    var textsAvailable: seq<string>
    var grammars: MCE.Registry
    var synonyms: Dict<string, seq<string>>
    var synonymsUsed: Dict<string, seq<string>>
    var usedCombinations: Dict<string, seq<Dict<string, string>>>

    /** What `load` reads and writes. */
    function State(): Base
      reads this
    {
      Base(texts, textsAvailable, grammars, synonyms)
    }

    /** `RasaNLUIntent(intent_name)`: nothing loaded, used or recorded yet. */
    constructor(intentName: string)
      ensures name == intentName && State() == Base([], [], [], [])
      ensures synonymsUsed == [] && usedCombinations == []
    {
      name := intentName;
      texts, textsAvailable, grammars, synonyms := [], [], [], [];
      synonymsUsed, usedCombinations := [], [];
    }

    /** `load(intent_data)`. */
    method Load(data: IntentData, make: Make) returns (err: Option<Error>)
      modifies this`texts, this`textsAvailable, this`grammars, this`synonyms
      ensures (State(), err) == Loaded(old(State()), data, make)
    {
      if data.text.None? {
        return Some(KeyError("text"));
      }
      texts := data.text.value;
      textsAvailable := texts;
      if texts == [] {
        return Some(RuntimeError(NeedTexts));
      }
      if data.grammars.None? {
        return Some(KeyError("grammars"));
      }
      err := ProcessData(data.grammars.value, false, make);
      if err.Some? {
        return;
      }
      if data.entities.None? {
        return Some(KeyError("entities"));
      }
      err := ProcessData(data.entities.value, true, make);
      if err.Some? {
        return;
      }
      synonyms := Merged(synonyms, grammars);
    }

    /** `process_data(cls, data)`. */
    method ProcessData(data: RasaNlu.GrammarDefs, isEntity: bool, make: Make) returns (err: Option<Error>)
      modifies this`grammars
      ensures (grammars, err) == Define(old(grammars), data, isEntity, make)
      decreases data
    {
      match data
      case DOther =>
        err := Some(AttributeError);
      case DMap(es) =>
        ghost var e := Made(es, isEntity, make);
        for i := 0 to |es|
          invariant grammars == Update(old(grammars), e[..i])
        {
          var obj := make(es[i].0, es[i].1, isEntity);
          assert e[..i + 1] == e[..i] + [(es[i].0, obj)];
          UpdateSnoc(old(grammars), e[..i], es[i].0, obj);
          grammars := Put(grammars, es[i].0, obj);
        }
        assert e[..|es|] == e;
        err := None;
      case DList(items) =>
        for i := 0 to |items|
          invariant DefineList(grammars, items, i, isEntity, make) == DefineList(old(grammars), items, 0, isEntity, make)
        {
          err := ProcessData(items[i], isEntity, make);
          if err.Some? {
            return;
          }
        }
        err := None;
    }

    /** `d.update(obj.synonyms)` for every object of `reg`, in order. */
    static method Merged(d: Dict<string, seq<string>>, reg: MCE.Registry) returns (r: Dict<string, seq<string>>)
      ensures r == UpdateAll(d, SynonymTables(reg), |reg|)
    {
      ghost var tables := SynonymTables(reg);
      r := d;
      for i := 0 to |reg|
        invariant r == UpdateAll(d, tables, i)
      {
        r := Update(r, reg[i].1.synonyms);
      }
    }

    /** `_get_num_combos_for_text(text)` on an intent holding `registry`, an empty product counting 1. */
    static method NumCombosOf(text: string, registry: MCE.Registry) returns (r: Result<nat, Error>)
      ensures r == NumCombos(text, registry)
    {
      var example := new MCE.CommonExample(text, Some(registry));
      var combos := example.Combinations();
      if combos.Err? {
        return Err(combos.error);
      }
      var product := ProductOf(combos.value);
      return Ok(product);
    }

    /** `_get_num_combos_for_text(text)`, the count given by `count`. */
    static method CountWith(text: string, registry: MCE.Registry, ghost count: string -> Result<nat, Error>)
      returns (r: Result<nat, Error>)
      requires CountsBy(registry, count)
      ensures r == count(text)
    {
      r := NumCombosOf(text, registry);
    }

    /** `reduce(lambda x, y: x * y, combos.values())`, an empty product counting 1. */
    static method ProductOf(combos: Dict<string, nat>) returns (product: nat)
      ensures product == Product(Counted(combos))
    {
      var vs := Counted(combos);
      product := 1;
      for i := 0 to |vs|
        invariant product == Product(vs[..i])
      {
        assert vs[..i + 1][..i] == vs[..i];
        product := product * vs[i];
      }
      assert vs[..|vs|] == vs;
    }

    /**
     * `get_possible_combinations()`: the count of every template by
     * template, or the exception of the first template whose count raises.
     */
    method PossibleCombinations(ghost count: string -> Result<nat, Error>) returns (r: Result<Dict<string, nat>, Error>)
      requires CountsBy(grammars, count)
      ensures var cs := CountsOf(texts, count);
              && (r.Err? ==> exists j :: 0 <= j < |texts| && cs[j] == Err(r.error) && forall j' :: 0 <= j' < j ==> cs[j'].Ok?)
              && (r.Ok? ==> forall j :: 0 <= j < |texts| ==> cs[j].Ok? && Get(r.value, texts[j]) == Some(cs[j].value))
              && (r.Ok? ==> forall k :: k in Keys(r.value) ==> k in texts)
    {
      r := CountAll(texts, grammars, count);
    }

    /** The loop of `get_possible_combinations` over `texts`, against `registry`. */
    static method CountAll(texts: seq<string>, registry: MCE.Registry, ghost count: string -> Result<nat, Error>)
      returns (r: Result<Dict<string, nat>, Error>)
      requires CountsBy(registry, count)
      ensures var cs := CountsOf(texts, count);
              && (r.Err? ==> exists j :: 0 <= j < |texts| && cs[j] == Err(r.error) && forall j' :: 0 <= j' < j ==> cs[j'].Ok?)
              && (r.Ok? ==> forall j :: 0 <= j < |texts| ==> cs[j].Ok? && Get(r.value, texts[j]) == Some(cs[j].value))
              && (r.Ok? ==> forall k :: k in Keys(r.value) ==> k in texts)
    {
      ghost var cs := CountsOf(texts, count);
      var rv: Dict<string, nat> := [];
      for i := 0 to |texts|
        invariant forall k :: k in Keys(rv) ==> k in texts
        invariant forall j :: 0 <= j < i ==> count(texts[j]).Ok? && Get(rv, texts[j]) == Some(count(texts[j]).value)
      {
        var n := CountWith(texts[i], registry, count);
        if n.Err? {
          assert cs[i] == Err(n.error) && forall j' :: 0 <= j' < i ==> cs[j'].Ok?;
          return Err(n.error);
        }
        PutGetAll(rv, texts[i], n.value);
        PutCount(rv, Put(rv, texts[i], n.value), texts, i, count, n.value);
        rv := Put(rv, texts[i], n.value);
      }
      return Ok(rv);
    }

    /** `validate_num(num)`. */
    method ValidateNum(num: int, ghost count: string -> Result<nat, Error>) returns (err: Option<Error>)
      requires CountsBy(grammars, count)
      ensures err == Validated(num, CountsOf(texts, count))
    {
      var ts, registry := texts, grammars;
      ghost var cs := CountsOf(ts, count);
      var total: nat := 0;
      for i := 0 to |ts|
        invariant SumFrom(cs, 0) == Plus(total, SumFrom(cs, i))
      {
        var n := CountWith(ts[i], registry, count);
        SumStep(cs, i, total);
        if n.Err? {
          return Some(n.error);
        }
        total := total + n.value;
      }
      if num > total {
        return Some(RuntimeError(MaxCombinations + Decimal(total)));
      }
      return None;
    }

    /** `entity_synonyms()`. */
    method EntitySynonyms() returns (rv: seq<SynonymEntry>)
      ensures rv == SynonymEntries(synonymsUsed)
    {
      rv := [];
      for i := 0 to |synonymsUsed|
        invariant rv == SynonymEntries(synonymsUsed)[..i]
      {
        rv := rv + [SynonymEntry(synonymsUsed[i].0, synonymsUsed[i].1)];
      }
    }

    /** `choose_text()`, `picks(n)` standing for the `n`-th `random.choice`. */
    method ChooseText(picks: nat -> nat, ghost count: string -> Result<nat, Error>) returns (r: Result<string, Error>)
      requires CountsBy(grammars, count)
      modifies this`textsAvailable, this`usedCombinations
      ensures ChooseFrom(old(textsAvailable), old(usedCombinations), count, picks, 0)
              == Chosen(r, textsAvailable, usedCombinations)
      ensures multiset(textsAvailable) <= multiset(old(textsAvailable))
      ensures r.Ok? ==> && r.value in textsAvailable && count(r.value).Ok?
                        && |GetOr(usedCombinations, r.value, [])| < count(r.value).value
      ensures TotalUsed(usedCombinations) == TotalUsed(old(usedCombinations))
      ensures forall k :: GetOr(usedCombinations, k, []) == GetOr(old(usedCombinations), k, [])
    {
      ChooseShrinks(textsAvailable, usedCombinations, count, picks, 0);
      ChooseReturnsFresh(textsAvailable, usedCombinations, count, picks, 0);
      ChooseKeepsUsed(textsAvailable, usedCombinations, count, picks, 0);
      ChooseKeepsTotal(textsAvailable, usedCombinations, count, picks, 0);
      var n: nat := 0;
      var found := false;
      r := Err(IndexError);
      while !found
        invariant found ==> ChooseFrom(old(textsAvailable), old(usedCombinations), count, picks, 0)
                             == Chosen(r, textsAvailable, usedCombinations)
        invariant !found ==> ChooseFrom(old(textsAvailable), old(usedCombinations), count, picks, 0)
                             == ChooseFrom(textsAvailable, usedCombinations, count, picks, n)
        decreases !found, |textsAvailable|
      {
        found, r := Draw(picks, n, count);
        n := n + 1;
      }
    }

    /** One pass of the loop of `choose_text`: the `n`-th draw, and whether it ends the loop. */
    method Draw(picks: nat -> nat, n: nat, ghost count: string -> Result<nat, Error>) returns (done: bool, r: Result<string, Error>)
      requires CountsBy(grammars, count)
      modifies this`textsAvailable, this`usedCombinations
      ensures done ==> ChooseFrom(old(textsAvailable), old(usedCombinations), count, picks, n)
                       == Chosen(r, textsAvailable, usedCombinations)
      ensures !done ==> && |textsAvailable| < |old(textsAvailable)|
                        && ChooseFrom(old(textsAvailable), old(usedCombinations), count, picks, n)
                           == ChooseFrom(textsAvailable, usedCombinations, count, picks, n + 1)
    {
      if textsAvailable == [] {
        return true, Err(IndexError);
      }
      var text := textsAvailable[picks(n) % |textsAvailable|];
      usedCombinations := Touch(usedCombinations, text);
      var c := CountWith(text, grammars, count);
      if c.Err? {
        return true, Err(c.error);
      }
      if |GetOr(usedCombinations, text, [])| >= c.value {
        textsAvailable := RemoveFirst(textsAvailable, text);
        if textsAvailable == [] {
          return true, Err(RuntimeError(ExceededTexts));
        }
        return false, Err(IndexError);
      }
      return true, Ok(text);
    }

    /**
     * `generate_examples(num)`: `num` examples (none for a `num` below
     * one), each from a template still available, each recording the
     * combination it used, so that no template gets more recorded
     * combinations than its count. The available templates, the recorded
     * combinations, the exception and the examples' templates and used
     * synonyms are those of `GenerateFrom`.
     */
    method GenerateExamples(num: int, textPicks: nat -> nat -> nat, valuePicks: nat -> nat -> nat,
                            ghost count: string -> Result<nat, Error>)
      returns (r: Result<seq<MCE.CommonExample>, Error>, ghost samples: seq<Sample>)
      requires CountsBy(grammars, count)
      modifies this`textsAvailable, this`usedCombinations
      ensures var g := GenerateFrom(old(textsAvailable), old(usedCombinations), grammars, count, textPicks, valuePicks,
                                    0, if num > 0 then num else 0, []);
              && textsAvailable == g.available && usedCombinations == g.used
              && (r.Err? ==> g.samples == Err(r.error))
              && (r.Ok? ==> g.samples == Ok(samples))
      ensures r.Ok? ==> && |r.value| == |samples|
                        && forall i :: 0 <= i < |r.value| ==>
                             && fresh(r.value[i]) && r.value[i].text == samples[i].text
                             && r.value[i].synonymsUsed == samples[i].synonymsUsed
      ensures multiset(textsAvailable) <= multiset(old(textsAvailable))
      ensures r.Ok? ==> |r.value| == (if num > 0 then num else 0)
      ensures r.Ok? ==> forall k :: GetOr(usedCombinations, k, []) == GetOr(old(usedCombinations), k, []) + CombinationsFor(samples, k)
      ensures r.Ok? ==> TotalUsed(usedCombinations) == TotalUsed(old(usedCombinations)) + |r.value|
      ensures r.Ok? ==> forall e :: e in r.value ==> e.text in old(textsAvailable)
      ensures WithinCounts(old(usedCombinations), count) ==> WithinCounts(usedCombinations, count)
    {
      var n := if num > 0 then num else 0;
      GenerateFacts(textsAvailable, usedCombinations, grammars, count, textPicks, valuePicks, n);
      GenerateRecordsFrom(textsAvailable, usedCombinations, grammars, count, textPicks, valuePicks, n);
      r, samples := GenerateLoop(n, textPicks, valuePicks, count);
      if r.Ok? {
        forall e | e in r.value ensures e.text in old(textsAvailable) {
          var j :| 0 <= j < |r.value| && r.value[j] == e;
          assert r.value[j].text == samples[j].text;
        }
      }
    }

    /**
     * The loop of `generate_examples` over `n` iterations: it ends as
     * `GenerateFrom` does, with the samples it produced or the exception, and
     * each example carries the text and synonyms of its sample.
     */
    method GenerateLoop(n: nat, textPicks: nat -> nat -> nat, valuePicks: nat -> nat -> nat,
                        ghost count: string -> Result<nat, Error>)
      returns (r: Result<seq<MCE.CommonExample>, Error>, ghost samples: seq<Sample>)
      requires CountsBy(grammars, count)
      modifies this`textsAvailable, this`usedCombinations
      ensures GenerateFrom(old(textsAvailable), old(usedCombinations), grammars, count, textPicks, valuePicks, 0, n, [])
              == Generation(if r.Err? then Err(r.error) else Ok(samples), textsAvailable, usedCombinations)
      ensures r.Ok? ==> |r.value| == |samples|
      ensures r.Ok? ==> forall i :: 0 <= i < |r.value| ==>
                          && fresh(r.value[i]) && r.value[i].text == samples[i].text
                          && r.value[i].synonymsUsed == samples[i].synonymsUsed
    {
      var examples: seq<MCE.CommonExample> := [];
      samples := [];
      ghost var target := GenerateFrom(textsAvailable, usedCombinations, grammars, count, textPicks, valuePicks, 0, n, []);
      for index := 0 to n
        invariant |examples| == index && |samples| == index
        invariant GenerateFrom(textsAvailable, usedCombinations, grammars, count, textPicks, valuePicks, index, n, samples)
                  == target
        invariant forall j :: 0 <= j < index ==>
                    && fresh(examples[j]) && examples[j].text == samples[j].text
                    && examples[j].synonymsUsed == samples[j].synonymsUsed
      {
        var example, s := GenerateOne(index, n, textPicks, valuePicks, count, samples);
        if example.Err? {
          return Err(example.error), samples;
        }
        ghost var prev, prevSamples := examples, samples;
        examples := examples + [example.value];
        samples := samples + [s];
        forall j | 0 <= j < index + 1
          ensures && fresh(examples[j]) && examples[j].text == samples[j].text
                  && examples[j].synonymsUsed == samples[j].synonymsUsed
        {
          if j < index {
            assert examples[j] == prev[j] && samples[j] == prevSamples[j];
          }
        }
      }
      return Ok(examples), samples;
    }

    /**
     * One iteration of the loop of `generate_examples`: `choose_text`, a new
     * example of the chosen template, and its combination appended to those
     * recorded for the template. Seen from `GenerateFrom`, it takes the loop
     * to the next iteration with one more sample `s`, or ends it with the
     * exception.
     */
    method GenerateOne(index: nat, n: nat, textPicks: nat -> nat -> nat, valuePicks: nat -> nat -> nat,
                       ghost count: string -> Result<nat, Error>, ghost samples: seq<Sample>)
      returns (r: Result<MCE.CommonExample, Error>, ghost s: Sample)
      requires CountsBy(grammars, count) && index < n
      modifies this`textsAvailable, this`usedCombinations
      ensures GenerateFrom(old(textsAvailable), old(usedCombinations), grammars, count, textPicks, valuePicks, index, n, samples)
              == if r.Err? then Generation(Err(r.error), textsAvailable, usedCombinations)
                 else GenerateFrom(textsAvailable, usedCombinations, grammars, count, textPicks, valuePicks, index + 1, n,
                                   samples + [s])
      ensures r.Ok? ==> fresh(r.value) && r.value.text == s.text && r.value.synonymsUsed == s.synonymsUsed
    {
      s := Sample([], [], []);
      var text := ChooseText(textPicks(index), count);
      if text.Err? {
        return Err(text.error), s;
      }
      var key := text.value;
      var excluded := GetOr(usedCombinations, key, []);
      var example, combination := NewExample(key, excluded, valuePicks(index));
      if combination.Err? {
        return Err(combination.error), s;
      }
      usedCombinations := Put(usedCombinations, key, excluded + [combination.value]);
      s := Sample(key, combination.value, example.synonymsUsed);
      r := Ok(example);
    }

    /**
     * `CommonExample(text, self)` and `example.process(excluded)`: a new
     * example of the template, and the combination `process` returns or
     * the exception it raises, with the lists and used synonyms it leaves
     * in the example, as `ModelsCommonExample.Processed` says from an
     * empty start.
     */
    method NewExample(text: string, excluded: seq<Dict<string, string>>, pick: nat -> nat)
      returns (example: MCE.CommonExample, combination: Result<Dict<string, string>, Error>)
      ensures fresh(example) && example.text == text && example.parent == Some(grammars)
      ensures var run := MCE.Processed(text, Some(grammars), Some(MCE.Listed(excluded)), pick, [], [], []);
              && example.entities == run.0.entities && example.grammars == run.0.grammars
              && example.synonymsUsed == run.0.synonymsUsed
              && combination == if run.1.Some? then Err(run.1.value) else Ok(run.0.chosen)
    {
      example := new MCE.CommonExample(text, Some(grammars));
      combination := example.Process(Some(MCE.Listed(excluded)), pick);
    }

    /**
     * `sentences(num)`: the texts of `generate_examples(num)` once
     * `validate_num(num)` passes; the available templates and recorded
     * combinations are left as `GenerateFrom` says.
     */
    method Sentences(num: int, textPicks: nat -> nat -> nat, valuePicks: nat -> nat -> nat,
                     ghost count: string -> Result<nat, Error>)
      returns (r: Result<seq<string>, Error>, ghost samples: seq<Sample>)
      requires CountsBy(grammars, count)
      modifies this`textsAvailable, this`usedCombinations
      ensures Validated(num, CountsOf(texts, count)).Some? ==>
                r == Err(Validated(num, CountsOf(texts, count)).value) && unchanged(this)
      ensures Validated(num, CountsOf(texts, count)).None? ==>
                var g := GenerateFrom(old(textsAvailable), old(usedCombinations), grammars, count, textPicks, valuePicks,
                                      0, if num > 0 then num else 0, []);
                && textsAvailable == g.available && usedCombinations == g.used
                && (r.Err? ==> g.samples == Err(r.error))
                && (r.Ok? ==> g.samples == Ok(samples) && r.value == TextsOf(samples))
      ensures r.Ok? ==> |r.value| == (if num > 0 then num else 0) && forall s :: s in r.value ==> s in old(textsAvailable)
      ensures r.Ok? ==> forall k :: GetOr(usedCombinations, k, []) == GetOr(old(usedCombinations), k, []) + CombinationsFor(samples, k)
    {
      samples := [];
      var err := ValidateNum(num, count);
      if err.Some? {
        return Err(err.value), samples;
      }
      r, samples := GeneratedTexts(num, textPicks, valuePicks, count);
    }

    /** The part of `sentences(num)` after `validate_num(num)` has passed. */
    method GeneratedTexts(num: int, textPicks: nat -> nat -> nat, valuePicks: nat -> nat -> nat,
                          ghost count: string -> Result<nat, Error>)
      returns (r: Result<seq<string>, Error>, ghost samples: seq<Sample>)
      requires CountsBy(grammars, count)
      modifies this`textsAvailable, this`usedCombinations
      ensures var g := GenerateFrom(old(textsAvailable), old(usedCombinations), grammars, count, textPicks, valuePicks,
                                    0, if num > 0 then num else 0, []);
              && textsAvailable == g.available && usedCombinations == g.used
              && (r.Err? ==> g.samples == Err(r.error))
              && (r.Ok? ==> g.samples == Ok(samples) && r.value == TextsOf(samples))
      ensures r.Ok? ==> |r.value| == (if num > 0 then num else 0) && forall s :: s in r.value ==> s in old(textsAvailable)
      ensures r.Ok? ==> forall k :: GetOr(usedCombinations, k, []) == GetOr(old(usedCombinations), k, []) + CombinationsFor(samples, k)
    {
      var examples;
      examples, samples := GenerateExamples(num, textPicks, valuePicks, count);
      if examples.Err? {
        return Err(examples.error), samples;
      }
      var ts := ExampleTexts(examples.value);
      assert ts == TextsOf(samples);
      return Ok(ts), samples;
    }

    /**
     * `generate(num)`: validates `num`, generates the examples, merges the
     * synonyms each example used into `synonyms_used`, in the order of the
     * examples, and returns the training data.
     */
    method Generate(num: int, textPicks: nat -> nat -> nat, valuePicks: nat -> nat -> nat,
                    ghost count: string -> Result<nat, Error>)
      returns (r: Result<RasaData, Error>, ghost samples: seq<Sample>)
      requires CountsBy(grammars, count)
      modifies this`textsAvailable, this`usedCombinations, this`synonymsUsed
      ensures Validated(num, CountsOf(texts, count)).Some? ==>
                r == Err(Validated(num, CountsOf(texts, count)).value) && unchanged(this)
      ensures Validated(num, CountsOf(texts, count)).None? ==>
                var g := GenerateFrom(old(textsAvailable), old(usedCombinations), grammars, count, textPicks, valuePicks,
                                      0, if num > 0 then num else 0, []);
                && textsAvailable == g.available && usedCombinations == g.used
                && (r.Err? ==> g.samples == Err(r.error) && synonymsUsed == old(synonymsUsed))
                && (r.Ok? ==> && g.samples == Ok(samples)
                              && synonymsUsed == UpdateAll(old(synonymsUsed), SynonymsOf(samples), |samples|)
                              && TextsOf(samples) == ExampleTexts(r.value.commonExamples))
      ensures r.Ok? ==> && r.value.regexFeatures == [ZipCode]
                        && |r.value.commonExamples| == (if num > 0 then num else 0)
                        && r.value.entitySynonyms == SynonymEntries(synonymsUsed)
      ensures r.Ok? ==> forall k :: GetOr(usedCombinations, k, []) == GetOr(old(usedCombinations), k, []) + CombinationsFor(samples, k)
      ensures forall k :: k in Keys(old(synonymsUsed)) ==> k in Keys(synonymsUsed)
    {
      samples := [];
      var err := ValidateNum(num, count);
      if err.Some? {
        return Err(err.value), samples;
      }
      r, samples := TrainingData(num, textPicks, valuePicks, count);
    }

    /** The part of `generate(num)` after `validate_num(num)` has passed. */
    method TrainingData(num: int, textPicks: nat -> nat -> nat, valuePicks: nat -> nat -> nat,
                        ghost count: string -> Result<nat, Error>)
      returns (r: Result<RasaData, Error>, ghost samples: seq<Sample>)
      requires CountsBy(grammars, count)
      modifies this`textsAvailable, this`usedCombinations, this`synonymsUsed
      ensures var g := GenerateFrom(old(textsAvailable), old(usedCombinations), grammars, count, textPicks, valuePicks,
                                    0, if num > 0 then num else 0, []);
              && textsAvailable == g.available && usedCombinations == g.used
              && (r.Err? ==> g.samples == Err(r.error) && synonymsUsed == old(synonymsUsed))
              && (r.Ok? ==> && g.samples == Ok(samples)
                            && synonymsUsed == UpdateAll(old(synonymsUsed), SynonymsOf(samples), |samples|)
                            && TextsOf(samples) == ExampleTexts(r.value.commonExamples))
      ensures r.Ok? ==> && r.value.regexFeatures == [ZipCode]
                        && |r.value.commonExamples| == (if num > 0 then num else 0)
                        && r.value.entitySynonyms == SynonymEntries(synonymsUsed)
      ensures r.Ok? ==> forall k :: GetOr(usedCombinations, k, []) == GetOr(old(usedCombinations), k, []) + CombinationsFor(samples, k)
      ensures forall k :: k in Keys(old(synonymsUsed)) ==> k in Keys(synonymsUsed)
    {
      var examples;
      examples, samples := GenerateExamples(num, textPicks, valuePicks, count);
      if examples.Err? {
        return Err(examples.error), samples;
      }
      var data := Package(examples.value, samples);
      r := Ok(data);
    }

    /**
     * The end of `generate(num)`: the synonyms the examples used merged into
     * `synonyms_used`, and the training data built from the examples.
     */
    method Package(es: seq<MCE.CommonExample>, ghost samples: seq<Sample>) returns (data: RasaData)
      requires |es| == |samples|
      requires forall i :: 0 <= i < |es| ==> es[i].text == samples[i].text && es[i].synonymsUsed == samples[i].synonymsUsed
      modifies this`synonymsUsed
      ensures synonymsUsed == UpdateAll(old(synonymsUsed), SynonymsOf(samples), |samples|)
      ensures forall k :: k in Keys(old(synonymsUsed)) ==> k in Keys(synonymsUsed)
      ensures data == RasaData([ZipCode], SynonymEntries(synonymsUsed), es)
      ensures TextsOf(samples) == ExampleTexts(es)
    {
      MergeUsed(es, SynonymsOf(samples));
      var entries := EntitySynonyms();
      data := RasaData([ZipCode], entries, es);
      assert TextsOf(samples) == ExampleTexts(es);
    }

    /** The loop of `generate` that merges each example's `synonyms_used`, in order, into the intent's. */
    method MergeUsed(es: seq<MCE.CommonExample>, ghost ds: seq<Dict<string, seq<string>>>)
      requires |es| == |ds| && forall i :: 0 <= i < |es| ==> es[i].synonymsUsed == ds[i]
      modifies this`synonymsUsed
      ensures synonymsUsed == UpdateAll(old(synonymsUsed), ds, |ds|)
      ensures forall k :: k in Keys(old(synonymsUsed)) ==> k in Keys(synonymsUsed)
    {
      for i := 0 to |es|
        invariant synonymsUsed == UpdateAll(old(synonymsUsed), ds, i)
        invariant forall k :: k in Keys(old(synonymsUsed)) ==> k in Keys(synonymsUsed)
      {
        UpdateKeys(synonymsUsed, es[i].synonymsUsed);
        synonymsUsed := Update(synonymsUsed, es[i].synonymsUsed);
      }
    }
  }
}
