/**
 * The older revision's `CommonExample` (models/common_example.py): one
 * example built from a template, each of its placeholders bound to a
 * grammar object of the parent intent.
 *
 * The grammar objects belong to a class that models/entity.py does not
 * define; what `combinations` and `process` read of them (name, values,
 * entity flag, synonym table, used synonyms, and `choose`) is taken as
 * given. `random` inside `choose` is the caller-supplied `pick`, indexed
 * by the position of the placeholder.
 *
 * `placeholder.process(text)` calls `grammar.update` and then substitutes
 * `grammar.value` (models/placeholder.py:24-27). Since `update` belongs to
 * that missing class, `Staged` assumes it leaves `grammar.value` equal to
 * the value `choose` has just returned, which is also the value recorded
 * under the grammar's name.
 */
module ModelsCommonExample {
  import opened Wrappers
  import opened Errors
  import opened PyDict
  import ReplacementPattern
  import MP = ModelsPlaceholder

  /**
   * A grammar object of the parent intent, as `combinations` and `process`
   * read it: its name, its values, whether it is an entity, its synonym
   * table and the synonyms it has used. `process` appends the object
   * itself to `entities` or `grammars`.
   */
  class GrammarObj {
    const name: string
    const values: seq<string>
    const isEntity: bool
    const synonyms: Dict<string, seq<string>>
    const usedSynonyms: seq<string>

    constructor(name: string, values: seq<string>, isEntity: bool, synonyms: Dict<string, seq<string>>,
                usedSynonyms: seq<string>)
      ensures this.name == name && this.values == values && this.isEntity == isEntity
      ensures this.synonyms == synonyms && this.usedSynonyms == usedSynonyms
    {
      this.name, this.values, this.isEntity := name, values, isEntity;
      this.synonyms, this.usedSynonyms := synonyms, usedSynonyms;
    }
  }

  /** The parent intent's `grammars`, by name. */
  type Registry = Dict<string, GrammarObj>

  // ---------------------------------------------------------------------
  // get_placeholders

  /** The placeholders of a template, one per matched token, in order. */
  function PlaceholdersOf(text: string): seq<MP.Placeholder>
  {
    MP.Parsed(ReplacementPattern.FindAll(text))
  }

  /**
   * `self.parent.grammars[placeholder.name]` for the first `n` placeholders:
   * the registered grammars in token order, or KeyError for the first name
   * the parent does not hold.
   */
  function Bind(ps: seq<MP.Placeholder>, registry: Registry, n: nat): (r: Result<seq<GrammarObj>, Error>)
    requires n <= |ps|
    ensures r.Ok? <==> forall j :: 0 <= j < n ==> ps[j].name in Keys(registry)
    ensures r.Ok? ==> |r.value| == n && forall j :: 0 <= j < n ==> Some(r.value[j]) == Get(registry, ps[j].name)
    ensures r.Err? ==> exists j :: && 0 <= j < n && r.error == KeyError(ps[j].name) && ps[j].name !in Keys(registry)
                                   && forall i :: 0 <= i < j ==> ps[i].name in Keys(registry)
  {
    if n == 0 then Ok([])
    else
      match Bind(ps, registry, n - 1)
      case Err(e) => Err(e)
      case Ok(gs) =>
        match Get(registry, ps[n - 1].name)
        case None => Err(KeyError(ps[n - 1].name))
        case Some(g) => Ok(gs + [g])
  }

  /** Once a lookup fails, so does the whole of `get_placeholders`. */
  lemma {:induction false} BindStops(ps: seq<MP.Placeholder>, registry: Registry, n: nat)
    requires n <= |ps| && Bind(ps, registry, n).Err?
    ensures Bind(ps, registry, |ps|) == Bind(ps, registry, n)
    decreases |ps| - n
  {
    if n < |ps| {
      BindStops(ps, registry, n + 1);
    }
  }

  // ---------------------------------------------------------------------
  // combinations

  /** `(grammar.name, len(grammar.values))` for each grammar, in order. */
  function Sizes(gs: seq<GrammarObj>): (e: Dict<string, nat>)
    ensures |e| == |gs| && forall j :: 0 <= j < |gs| ==> e[j] == (gs[j].name, |gs[j].values|)
  {
    seq(|gs|, j requires 0 <= j < |gs| => (gs[j].name, |gs[j].values|))
  }

  /** One more grammar, one more entry. */
  lemma SizesSnoc(gs: seq<GrammarObj>, i: nat)
    requires i < |gs|
    ensures Sizes(gs[..i + 1]) == Sizes(gs[..i]) + [(gs[i].name, |gs[i].values|)]
  {
  }

  /** What `combinations()` returns: `rv[grammar.name] = len(grammar.values)` in token order. */
  function Counts(gs: seq<GrammarObj>): Dict<string, nat>
  {
    Update([], Sizes(gs))
  }

  /**
   * `combinations` holds one key per distinct grammar name, and each name
   * counts the values of the last grammar of that name.
   */
  lemma CountsLast(gs: seq<GrammarObj>, j: nat)
    requires j < |gs| && forall i :: j < i < |gs| ==> gs[i].name != gs[j].name
    ensures Get(Counts(gs), gs[j].name) == Some(|gs[j].values|)
  {
    var e := Sizes(gs);
    assert Keys(e)[j] == gs[j].name;
    UpdateLastWins([], e, gs[j].name);
    LastForAt(e, gs[j].name, j);
  }

  /** The keys of `combinations` are the grammar names, each once. */
  lemma CountsKeys(gs: seq<GrammarObj>)
    ensures KeysUnique(Counts(gs))
    ensures forall k :: k in Keys(Counts(gs)) <==> exists j :: 0 <= j < |gs| && gs[j].name == k
  {
    var e := Sizes(gs);
    var empty: Dict<string, nat> := [];
    UpdateKeys(empty, e);
    forall k ensures k in Keys(e) <==> exists j :: 0 <= j < |gs| && gs[j].name == k {
      if k in Keys(e) {
        var j :| 0 <= j < |e| && Keys(e)[j] == k;
        assert gs[j].name == k;
      }
      if exists j :: 0 <= j < |gs| && gs[j].name == k {
        var j :| 0 <= j < |gs| && gs[j].name == k;
        assert Keys(e)[j] == k;
      }
    }
  }

  /**
   * `combinations()` of a template: KeyError from `get_placeholders`;
   * without a parent, `grammar.name` on `None` raises AttributeError as
   * soon as there is a placeholder.
   */
  function CombinationsOf(text: string, parent: Option<Registry>): Result<Dict<string, nat>, Error>
  {
    var ps := PlaceholdersOf(text);
    if parent.None? then
      if ps == [] then Ok([]) else Err(AttributeError)
    else
      match Bind(ps, parent.value, |ps|)
      case Err(e) => Err(e)
      case Ok(gs) => Ok(Counts(gs))
  }

  // ---------------------------------------------------------------------
  // process

  /**
   * The `excludes` argument of `process`: a list (what `generate_examples`
   * passes, the combinations used so far for the template) or a mapping
   * from grammar name to the values to avoid. `None` is read as `[]`.
   */
  datatype Excludes = Listed(items: seq<Dict<string, string>>) | Mapped(table: Dict<string, seq<string>>)

  /** `excludes[name] if name in excludes else []`: a name is never an element of a list of dictionaries. */
  function ExcludedFor(excludes: Option<Excludes>, name: string): seq<string>
  {
    match excludes
    case Some(Mapped(t)) => GetOr(t, name, [])
    case _ => []
  }

  /** The values not excluded, in order. */
  function Remaining(values: seq<string>, exclude: seq<string>): (r: seq<string>)
    ensures forall v :: v in r <==> v in values && v !in exclude
  {
    if values == [] then []
    else
      assert forall v :: v in values <==> v == values[0] || v in values[1..];
      (if values[0] in exclude then [] else [values[0]]) + Remaining(values[1..], exclude)
  }

  /** Nothing excluded, nothing removed. */
  lemma {:induction false} RemainingNone(values: seq<string>)
    ensures Remaining(values, []) == values
  {
    if values != [] {
      RemainingNone(values[1..]);
    }
  }

  /**
   * `grammar.choose(exclude=...)`: a value of the grammar that is not
   * excluded, the `pick`-th of those left, or `None` when every value is
   * excluded.
   */
  function ChooseExcluding(values: seq<string>, exclude: seq<string>, pick: nat): (r: Option<string>)
    ensures r.None? <==> forall v :: v in values ==> v in exclude
    ensures r.Some? ==> r.value in values && r.value !in exclude
  {
    var rest := Remaining(values, exclude);
    if rest == [] then None
    else
      assert rest[pick % |rest|] in rest;
      Some(rest[pick % |rest|])
  }

  /**
   * The combinations `generate_examples` passes never exclude anything:
   * `choose` picks among all the grammar's values.
   */
  lemma ExcludesNeverApply(items: seq<Dict<string, string>>, values: seq<string>, name: string, pick: nat)
    ensures ChooseExcluding(values, ExcludedFor(Some(Listed(items)), name), pick)
            == if values == [] then None else Some(values[pick % |values|])
  {
    RemainingNone(values);
  }

  /** The first of the used names from the `i`-th on that the synonym table does not hold. */
  function MissingFrom(synonyms: Dict<string, seq<string>>, used: seq<string>, i: nat): (r: Option<string>)
    requires i <= |used|
    ensures r.None? <==> forall j :: i <= j < |used| ==> used[j] in Keys(synonyms)
    ensures r.Some? ==> exists j :: && i <= j < |used| && used[j] == r.value && r.value !in Keys(synonyms)
                                   && forall m :: i <= m < j ==> used[m] in Keys(synonyms)
    decreases |used| - i
  {
    if i == |used| then None
    else if used[i] !in Keys(synonyms) then Some(used[i])
    else MissingFrom(synonyms, used, i + 1)
  }

  /** `(name, synonyms[name])` for each used name, in order. */
  function UsedPairs(synonyms: Dict<string, seq<string>>, used: seq<string>): (e: Dict<string, seq<string>>)
    ensures |e| == |used| && forall j :: 0 <= j < |used| ==> e[j] == (used[j], GetOr(synonyms, used[j], []))
  {
    seq(|used|, j requires 0 <= j < |used| => (used[j], GetOr(synonyms, used[j], [])))
  }

  /**
   * `{name: grammar.synonyms[name] for name in grammar.used_synonyms}`:
   * KeyError for the first used name the grammar's synonyms do not hold.
   */
  function UsedTable(g: GrammarObj): Result<Dict<string, seq<string>>, Error>
  {
    match MissingFrom(g.synonyms, g.usedSynonyms, 0)
    case Some(k) => Err(KeyError(k))
    case None => Ok(Update([], UsedPairs(g.synonyms, g.usedSynonyms)))
  }

  /** The table holds exactly the used names, each with its list from the grammar's synonyms. */
  lemma UsedTableGet(g: GrammarObj, k: string)
    requires UsedTable(g).Ok?
    ensures Get(UsedTable(g).value, k) == if k in g.usedSynonyms then Get(g.synonyms, k) else None
  {
    var e := UsedPairs(g.synonyms, g.usedSynonyms);
    var empty: Dict<string, seq<string>> := [];
    UpdateLastWins(empty, e, k);
    if k in g.usedSynonyms {
      var j :| 0 <= j < |g.usedSynonyms| && g.usedSynonyms[j] == k;
      assert Keys(e)[j] == k;
      LastForSame(e, k, GetOr(g.synonyms, k, []));
    } else {
      assert k !in Keys(e) by {
        forall j | 0 <= j < |e| ensures Keys(e)[j] != k {
          assert e[j].0 == g.usedSynonyms[j];
        }
      }
    }
  }

  const RanOutOfChoices: string := "Ran out of choices for "

  /**
   * What the loop body of `process` works out for one placeholder before it
   * touches any state: the placeholder, its grammar, the value `choose`
   * returns, the used-synonym table and the exception the body raises, if
   * any. None of these depends on what earlier iterations did.
   */
  datatype Slot = Slot(placeholder: MP.Placeholder, grammar: GrammarObj, choice: Option<string>,
                       used: Result<Dict<string, seq<string>>, Error>, error: Option<Error>)

  /**
   * The slot of a placeholder: RuntimeError when every value is excluded,
   * KeyError when a used synonym is missing from the grammar's synonyms.
   */
  function SlotOf(p: MP.Placeholder, g: GrammarObj, excludes: Option<Excludes>, pick: nat): (s: Slot)
    ensures s.placeholder == p && s.grammar == g
    ensures s.choice.None? <==> forall v :: v in g.values ==> v in ExcludedFor(excludes, g.name)
    ensures s.choice.Some? ==> s.choice.value in g.values && s.choice.value !in ExcludedFor(excludes, g.name)
    ensures s.used == UsedTable(g)
    ensures s.error.None? <==> s.choice.Some? && s.used.Ok?
    ensures s.choice.None? ==> s.error == Some(RuntimeError(RanOutOfChoices + g.name))
    ensures s.choice.Some? && s.used.Err? ==> s.error == Some(s.used.error)
  {
    var choice := ChooseExcluding(g.values, ExcludedFor(excludes, g.name), pick);
    var used := UsedTable(g);
    var error := if choice.None? then Some(RuntimeError(RanOutOfChoices + g.name))
                 else if used.Err? then Some(used.error) else None;
    Slot(p, g, choice, used, error)
  }

  /**
   * What a slot promises about its grammar: a choice that is one of the
   * grammar's values and not excluded for its name, none only when every
   * value is excluded, and no exception exactly when there is a choice and
   * the used-synonym table could be built.
   */
  ghost predicate Fits(s: Slot, g: GrammarObj, excludes: Option<Excludes>)
  {
    && s.grammar == g
    && (s.choice.None? <==> forall v :: v in g.values ==> v in ExcludedFor(excludes, g.name))
    && (s.choice.Some? ==> s.choice.value in g.values && s.choice.value !in ExcludedFor(excludes, g.name))
    && (s.error.None? <==> s.choice.Some? && s.used.Ok?)
  }

  /** The slot of each placeholder, the `j`-th drawing with `pick(j)`. */
  function SlotsOf(ps: seq<MP.Placeholder>, gs: seq<GrammarObj>, excludes: Option<Excludes>, pick: nat -> nat)
    : (ss: seq<Slot>)
    requires |ps| == |gs|
    ensures |ss| == |gs| && forall j :: 0 <= j < |gs| ==> ss[j] == SlotOf(ps[j], gs[j], excludes, pick(j))
    ensures forall j :: 0 <= j < |gs| ==> Fits(ss[j], gs[j], excludes)
  {
    seq(|gs|, j requires 0 <= j < |gs| => SlotOf(ps[j], gs[j], excludes, pick(j)))
  }

  /**
   * What `process` has built so far: the grammars sorted into `entities`
   * and `grammars`, the synonyms used, the local copy of the text and the
   * values chosen by grammar name.
   */
  datatype Run = Run(entities: seq<GrammarObj>, grammars: seq<GrammarObj>, synonymsUsed: Dict<string, seq<string>>,
                     text: string, chosen: Dict<string, string>)

  /** The first step of the loop body: the grammar goes to `entities` or to `grammars`. */
  function Sort(g: GrammarObj, run: Run): (r: Run)
    ensures r.entities == run.entities + (if g.isEntity then [g] else [])
    ensures r.grammars == run.grammars + (if g.isEntity then [] else [g])
    ensures r.synonymsUsed == run.synonymsUsed && r.text == run.text && r.chosen == run.chosen
  {
    if g.isEntity then run.(entities := run.entities + [g]) else run.(grammars := run.grammars + [g])
  }

  /**
   * The state the loop body of `process` leaves for one slot, whether it
   * raises or not: the grammar is sorted first; then, once a value is
   * chosen, the text and the chosen values are updated; the used synonyms
   * are merged last.
   */
  function Staged(s: Slot, run: Run): Run
  {
    var sorted := Sort(s.grammar, run);
    match s.choice
    case None => sorted
    case Some(v) =>
      var chosen := sorted.(text := MP.Process(s.placeholder, sorted.text, v), chosen := Put(sorted.chosen, s.grammar.name, v));
      match s.used
      case Err(_) => chosen
      case Ok(u) => chosen.(synonymsUsed := Update(chosen.synonymsUsed, u))
  }

  /** The loop of `process` from the `i`-th slot on: the state it leaves and the exception it raises, if any. */
  function ProcessFrom(ss: seq<Slot>, i: nat, run: Run): (Run, Option<Error>)
    requires i <= |ss|
    decreases |ss| - i
  {
    if i == |ss| then (run, None)
    else
      var next := Staged(ss[i], run);
      if ss[i].error.Some? then (next, ss[i].error) else ProcessFrom(ss, i + 1, next)
  }

  /**
   * What `process(excludes)` leaves in `entities`, `grammars` and
   * `synonyms_used`, and returns or raises. Without a parent the first
   * placeholder raises AttributeError on `grammar.is_entity()`.
   */
  function Processed(text: string, parent: Option<Registry>, excludes: Option<Excludes>, pick: nat -> nat,
                     entities: seq<GrammarObj>, grammars: seq<GrammarObj>, synonymsUsed: Dict<string, seq<string>>)
    : (Run, Option<Error>)
  {
    var ps := PlaceholdersOf(text);
    var run := Run(entities, grammars, synonymsUsed, text, []);
    if parent.None? then
      if ps == [] then (run, None) else (run, Some(AttributeError))
    else
      match Bind(ps, parent.value, |ps|)
      case Err(e) => (run, Some(e))
      case Ok(gs) => ProcessFrom(SlotsOf(ps, gs, excludes, pick), 0, run)
  }

  /** One past the first slot from the `i`-th on that raises, or the end. */
  function Reached(ss: seq<Slot>, i: nat): (k: nat)
    requires i <= |ss|
    ensures i <= k <= |ss|
    decreases |ss| - i
  {
    if i == |ss| then i
    else if ss[i].error.Some? then i + 1
    else Reached(ss, i + 1)
  }

  /** A loop with no slot that raises reaches the end. */
  lemma {:induction false} ReachedEnd(ss: seq<Slot>, i: nat)
    requires i <= |ss| && forall j :: i <= j < |ss| ==> ss[j].error.None?
    ensures Reached(ss, i) == |ss|
    decreases |ss| - i
  {
    if i < |ss| {
      ReachedEnd(ss, i + 1);
    }
  }

  /**
   * The loop raises exactly when some slot from the `i`-th on raises, and
   * then with the exception of the first such slot, after which it stops.
   */
  lemma {:induction false} ProcessFails(ss: seq<Slot>, i: nat, run: Run)
    requires i <= |ss|
    ensures var r := ProcessFrom(ss, i, run);
            && (r.1.Some? <==> exists j :: i <= j < |ss| && ss[j].error.Some?)
            && (r.1.Some? ==> r.1 == ss[Reached(ss, i) - 1].error)
    decreases |ss| - i
  {
    if i < |ss| && ss[i].error.None? {
      ProcessFails(ss, i + 1, Staged(ss[i], run));
      if exists j :: i <= j < |ss| && ss[j].error.Some? {
        var j :| i <= j < |ss| && ss[j].error.Some?;
        assert j != i;
      }
    }
  }

  /** The grammars of the slots from the `i`-th up to the `k`-th whose entity flag is `entity`, in order. */
  function OfKind(ss: seq<Slot>, i: nat, k: nat, entity: bool): seq<GrammarObj>
    requires i <= k <= |ss|
    decreases k - i
  {
    if i == k then [] else (if ss[i].grammar.isEntity == entity then [ss[i].grammar] else []) + OfKind(ss, i + 1, k, entity)
  }

  /** One step of `OfKind`: the first grammar of the range goes first when it has the flag. */
  lemma OfKindCons(ss: seq<Slot>, i: nat, k: nat, entity: bool)
    requires i < k <= |ss|
    ensures OfKind(ss, i, k, entity) == (if ss[i].grammar.isEntity == entity then [ss[i].grammar] else []) + OfKind(ss, i + 1, k, entity)
  {
  }

  /** A grammar is in the list of a flag exactly when it has that flag and some slot of the range holds it. */
  lemma {:induction false} OfKindHolds(ss: seq<Slot>, i: nat, k: nat, entity: bool, x: GrammarObj)
    requires i <= k <= |ss|
    ensures x in OfKind(ss, i, k, entity) <==> x.isEntity == entity && exists j :: i <= j < k && ss[j].grammar == x
    decreases k - i
  {
    if i < k {
      OfKindHolds(ss, i + 1, k, entity, x);
      OfKindCons(ss, i, k, entity);
      if x.isEntity == entity && exists j :: i <= j < k && ss[j].grammar == x {
        var j :| i <= j < k && ss[j].grammar == x;
        if j > i {
          assert exists j :: i + 1 <= j < k && ss[j].grammar == x;
        }
      }
    }
  }

  /** Each slot of the range lands in exactly one of the two lists. */
  lemma {:induction false} OfKindLengths(ss: seq<Slot>, i: nat, k: nat)
    requires i <= k <= |ss|
    ensures |OfKind(ss, i, k, true)| + |OfKind(ss, i, k, false)| == k - i
    decreases k - i
  {
    if i < k {
      OfKindLengths(ss, i + 1, k);
      OfKindCons(ss, i, k, true);
      OfKindCons(ss, i, k, false);
    }
  }

  /** The list of a run that holds the grammars whose entity flag is `entity`. */
  function Kind(run: Run, entity: bool): seq<GrammarObj>
  {
    if entity then run.entities else run.grammars
  }

  /** The loop body appends the slot's grammar to the list of its flag, whatever else it does. */
  lemma StagedSorts(s: Slot, run: Run, entity: bool)
    ensures Kind(Staged(s, run), entity) == Kind(run, entity) + (if s.grammar.isEntity == entity then [s.grammar] else [])
  {
    assert Staged(s, run).entities == Sort(s.grammar, run).entities;
    assert Staged(s, run).grammars == Sort(s.grammar, run).grammars;
  }

  /** One iteration of the loop: it goes on from the next slot, or stops with this slot's state. */
  lemma ProcessStep(ss: seq<Slot>, i: nat, run: Run)
    requires i < |ss|
    ensures ss[i].error.None? ==> ProcessFrom(ss, i, run) == ProcessFrom(ss, i + 1, Staged(ss[i], run)) && Reached(ss, i) == Reached(ss, i + 1)
    ensures ss[i].error.Some? ==> ProcessFrom(ss, i, run).0 == Staged(ss[i], run) && Reached(ss, i) == i + 1
  {
  }

  /** Concatenation is associative. */
  lemma AppendAssoc<T>(a: seq<T>, b: seq<T>, c: seq<T>)
    ensures (a + b) + c == a + (b + c)
  {
  }

  /**
   * The loop appends the grammar of each slot it reaches, up to and
   * including the one that raises, to `entities` when it is an entity and
   * to `grammars` otherwise.
   */
  lemma {:induction false} ProcessSorts(ss: seq<Slot>, i: nat, run: Run, entity: bool)
    requires i <= |ss|
    ensures Kind(ProcessFrom(ss, i, run).0, entity) == Kind(run, entity) + OfKind(ss, i, Reached(ss, i), entity)
    decreases |ss| - i
  {
    if i < |ss| {
      var next := Staged(ss[i], run);
      var head: seq<GrammarObj> := if ss[i].grammar.isEntity == entity then [ss[i].grammar] else [];
      StagedSorts(ss[i], run, entity);
      ProcessStep(ss, i, run);
      OfKindCons(ss, i, Reached(ss, i), entity);
      if ss[i].error.None? {
        ProcessSorts(ss, i + 1, next, entity);
        AppendAssoc(Kind(run, entity), head, OfKind(ss, i + 1, Reached(ss, i), entity));
      }
    }
  }

  /** The values the loop body leaves chosen: the slot's choice is stored under the grammar's name, if there is one. */
  lemma StagedChosen(s: Slot, run: Run)
    ensures Staged(s, run).chosen == if s.choice.Some? then Put(run.chosen, s.grammar.name, s.choice.value) else run.chosen
  {
  }

  /**
   * The choice of the last slot from the `i`-th up to the `k`-th that chose
   * a value for a grammar named `name`, or `None` when none did.
   */
  function LastChoice(ss: seq<Slot>, i: nat, k: nat, name: string): (r: Option<string>)
    requires i <= k <= |ss|
    ensures r.Some? ==> exists j :: i <= j < k && ss[j].grammar.name == name && ss[j].choice == r
    ensures r.None? ==> forall j :: i <= j < k && ss[j].grammar.name == name ==> ss[j].choice.None?
    decreases k - i
  {
    if i == k then None
    else if ss[k - 1].grammar.name == name && ss[k - 1].choice.Some? then ss[k - 1].choice
    else LastChoice(ss, i, k - 1, name)
  }

  /** `LastChoice` seen from the front: a later choice wins over the first slot's. */
  lemma {:induction false} LastChoiceFront(ss: seq<Slot>, i: nat, k: nat, name: string)
    requires i < k <= |ss|
    ensures LastChoice(ss, i, k, name)
            == if LastChoice(ss, i + 1, k, name).Some? then LastChoice(ss, i + 1, k, name)
               else if ss[i].grammar.name == name then ss[i].choice else None
    decreases k - i
  {
    if i + 1 < k {
      LastChoiceFront(ss, i, k - 1, name);
    }
  }

  /**
   * After the loop, a name holds the value chosen by the last slot it
   * reached for a grammar of that name, and keeps its earlier value when
   * there is none.
   */
  lemma {:induction false} ProcessChosen(ss: seq<Slot>, i: nat, run: Run, name: string)
    requires i <= |ss|
    ensures var last := LastChoice(ss, i, Reached(ss, i), name);
            Get(ProcessFrom(ss, i, run).0.chosen, name) == if last.Some? then last else Get(run.chosen, name)
    decreases |ss| - i
  {
    if i < |ss| {
      var next := Staged(ss[i], run);
      StagedChosen(ss[i], run);
      if ss[i].choice.Some? {
        PutGet(run.chosen, ss[i].grammar.name, ss[i].choice.value, name);
      }
      if ss[i].error.None? {
        ProcessChosen(ss, i + 1, next, name);
        LastChoiceFront(ss, i, Reached(ss, i), name);
      } else {
        LastChoiceFront(ss, i, i + 1, name);
      }
    }
  }

  /**
   * Every value `process` returns for a name, starting from an empty `rv`
   * with slots that fit the grammars (as `SlotsOf` builds them), was drawn
   * from a grammar of that name and is not excluded for it.
   */
  lemma ProcessDraws(ss: seq<Slot>, gs: seq<GrammarObj>, excludes: Option<Excludes>, run: Run, name: string)
    requires |ss| == |gs| && run.chosen == []
    requires forall j :: 0 <= j < |gs| ==> Fits(ss[j], gs[j], excludes)
    ensures var v := Get(ProcessFrom(ss, 0, run).0.chosen, name);
            v.Some? ==> exists j :: && 0 <= j < |gs| && gs[j].name == name
                                    && v.value in gs[j].values && v.value !in ExcludedFor(excludes, name)
  {
    ProcessChosen(ss, 0, run, name);
    var last := LastChoice(ss, 0, Reached(ss, 0), name);
    if last.Some? {
      var j :| 0 <= j < Reached(ss, 0) && ss[j].grammar.name == name && ss[j].choice == last;
      assert Fits(ss[j], gs[j], excludes);
    }
  }

  /**
   * When `process` returns without raising, with slots that fit the
   * grammars, every grammar name of the template has a value.
   */
  lemma ProcessCompletes(ss: seq<Slot>, gs: seq<GrammarObj>, excludes: Option<Excludes>, run: Run, name: string)
    requires |ss| == |gs|
    requires forall j :: 0 <= j < |gs| ==> Fits(ss[j], gs[j], excludes)
    ensures var r := ProcessFrom(ss, 0, run);
            r.1.None? && (exists j :: 0 <= j < |gs| && gs[j].name == name) ==> Get(r.0.chosen, name).Some?
  {
    ProcessChosen(ss, 0, run, name);
    ProcessFails(ss, 0, run);
    if ProcessFrom(ss, 0, run).1.None? && exists j :: 0 <= j < |gs| && gs[j].name == name {
      ReachedEnd(ss, 0);
      var j :| 0 <= j < |gs| && gs[j].name == name;
      assert Fits(ss[j], gs[j], excludes);
    }
  }

  /** The synonyms the loop body merges: the slot's used-synonym table, once a value is chosen and the table is built. */
  lemma StagedSynonyms(s: Slot, run: Run)
    ensures Staged(s, run).synonymsUsed
            == if s.choice.Some? && s.used.Ok? then Update(run.synonymsUsed, s.used.value) else run.synonymsUsed
  {
  }

  /** A slot that merges the name `k` into `synonyms_used`. */
  predicate Merges(s: Slot, k: string)
  {
    s.choice.Some? && s.used.Ok? && k in Keys(s.used.value)
  }

  /** The loop body adds exactly the names the slot merges to the keys of `synonyms_used`. */
  lemma StagedSynonymKeys(s: Slot, run: Run, k: string)
    ensures k in Keys(Staged(s, run).synonymsUsed) <==> k in Keys(run.synonymsUsed) || Merges(s, k)
  {
    StagedSynonyms(s, run);
    if s.choice.Some? && s.used.Ok? {
      UpdateKeys(run.synonymsUsed, s.used.value);
    }
  }

  /**
   * After the loop, `synonyms_used` holds a name exactly when it held it
   * before or some slot the loop reached merged it.
   */
  lemma {:induction false} ProcessSynonymKeys(ss: seq<Slot>, i: nat, run: Run, k: string)
    requires i <= |ss|
    ensures k in Keys(ProcessFrom(ss, i, run).0.synonymsUsed)
            <==> k in Keys(run.synonymsUsed) || exists j :: i <= j < Reached(ss, i) && Merges(ss[j], k)
    decreases |ss| - i
  {
    if i < |ss| {
      var next := Staged(ss[i], run);
      StagedSynonymKeys(ss[i], run, k);
      ProcessStep(ss, i, run);
      if ss[i].error.None? {
        ProcessSynonymKeys(ss, i + 1, next, k);
        if exists j :: i <= j < Reached(ss, i) && Merges(ss[j], k) {
          var j :| i <= j < Reached(ss, i) && Merges(ss[j], k);
          if j > i {
            assert exists j :: i + 1 <= j < Reached(ss, i + 1) && Merges(ss[j], k);
          }
        }
      } else if exists j :: i <= j < Reached(ss, i) && Merges(ss[j], k) {
        var j :| i <= j < Reached(ss, i) && Merges(ss[j], k);
        assert j == i;
      }
    }
  }

  /** The loop keeps the keys of `rv` and of `synonyms_used` distinct. */
  lemma {:induction false} ProcessUnique(ss: seq<Slot>, i: nat, run: Run)
    requires i <= |ss| && KeysUnique(run.chosen) && KeysUnique(run.synonymsUsed)
    ensures KeysUnique(ProcessFrom(ss, i, run).0.chosen) && KeysUnique(ProcessFrom(ss, i, run).0.synonymsUsed)
    decreases |ss| - i
  {
    if i < |ss| {
      var next := Staged(ss[i], run);
      StagedChosen(ss[i], run);
      StagedSynonyms(ss[i], run);
      ProcessStep(ss, i, run);
      if ss[i].choice.Some? {
        PutUnique(run.chosen, ss[i].grammar.name, ss[i].choice.value);
        if ss[i].used.Ok? {
          UpdateKeys(run.synonymsUsed, ss[i].used.value);
        }
      }
      if ss[i].error.None? {
        ProcessUnique(ss, i + 1, next);
      }
    }
  }

  // ---------------------------------------------------------------------
  // The object

  class CommonExample {
    const text: string
    const parent: Option<Registry>
    var entities: seq<GrammarObj>
    var grammars: seq<GrammarObj>
    var synonymsUsed: Dict<string, seq<string>>

    /** `CommonExample(template, parent)`: nothing sorted and no synonyms used yet. */
    constructor(template: string, parent: Option<Registry>)
      ensures text == template && this.parent == parent
      ensures entities == [] && grammars == [] && synonymsUsed == []
    {
      text, this.parent := template, parent;
      entities, grammars, synonymsUsed := [], [], [];
    }

    /** The grammar lookups of `get_placeholders`, one placeholder at a time. */
    method BindPlaceholders(ps: seq<MP.Placeholder>) returns (r: Result<seq<GrammarObj>, Error>)
      requires parent.Some?
      ensures r == Bind(ps, parent.value, |ps|)
    {
      var registry := parent.value;
      var gs: seq<GrammarObj> := [];
      for i := 0 to |ps|
        invariant Bind(ps, registry, i) == Ok(gs)
      {
        var g := Get(registry, ps[i].name);
        if g.None? {
          assert Bind(ps, registry, i + 1) == Err(KeyError(ps[i].name));
          BindStops(ps, registry, i + 1);
          return Err(KeyError(ps[i].name));
        }
        gs := gs + [g.value];
      }
      return Ok(gs);
    }

    /** `combinations()`: the number of values of each placeholder's grammar, by name. */
    method Combinations() returns (r: Result<Dict<string, nat>, Error>)
      ensures r == CombinationsOf(text, parent)
    {
      var ps := PlaceholdersOf(text);
      if parent.None? {
        return if ps == [] then Ok([]) else Err(AttributeError);
      }
      var bound := BindPlaceholders(ps);
      if bound.Err? {
        return Err(bound.error);
      }
      var rv := CountValues(bound.value);
      return Ok(rv);
    }

    /** The loop of `combinations`: `rv[grammar.name] = len(grammar.values)` for each grammar in turn. */
    static method CountValues(gs: seq<GrammarObj>) returns (rv: Dict<string, nat>)
      ensures rv == Counts(gs)
    {
      var empty: Dict<string, nat> := [];
      rv := empty;
      for i := 0 to |gs|
        invariant rv == Update(empty, Sizes(gs[..i]))
      {
        var size: nat := |gs[i].values|;
        SizesSnoc(gs, i);
        UpdateSnoc(empty, Sizes(gs[..i]), gs[i].name, size);
        rv := Put(rv, gs[i].name, size);
      }
      assert gs[..|gs|] == gs;
    }

    /**
     * The body of the loop of `process` for one placeholder: sort its
     * grammar, choose a value, replace the placeholder in the local text,
     * remember the value and merge the used synonyms.
     */
    method ProcessOne(p: MP.Placeholder, g: GrammarObj, excludes: Option<Excludes>, pick: nat,
                      txt: string, chosen: Dict<string, string>)
      returns (txt': string, chosen': Dict<string, string>, err: Option<Error>)
      modifies this`entities, this`grammars, this`synonymsUsed
      ensures var s := SlotOf(p, g, excludes, pick);
              var r := Staged(s, Run(old(entities), old(grammars), old(synonymsUsed), txt, chosen));
              && entities == r.entities && grammars == r.grammars && synonymsUsed == r.synonymsUsed
              && txt' == r.text && chosen' == r.chosen && err == s.error
    {
      txt', chosen' := txt, chosen;
      if g.isEntity {
        entities := entities + [g];
      } else {
        grammars := grammars + [g];
      }
      var value := ChooseExcluding(g.values, ExcludedFor(excludes, g.name), pick);
      if value.None? {
        return txt', chosen', Some(RuntimeError(RanOutOfChoices + g.name));
      }
      txt' := MP.Process(p, txt', value.value);
      chosen' := Put(chosen', g.name, value.value);
      var used := UsedTable(g);
      if used.Err? {
        return txt', chosen', Some(used.error);
      }
      synonymsUsed := Update(synonymsUsed, used.value);
      err := None;
    }

    /**
     * `process(excludes)`: the values chosen by grammar name, or the
     * exception it raises; `entities`, `grammars` and `synonyms_used` are
     * left as the loop leaves them, also when it raises. `pick(j)` is the
     * random draw of the `j`-th placeholder.
     */
    method Process(excludes: Option<Excludes>, pick: nat -> nat) returns (r: Result<Dict<string, string>, Error>)
      modifies this`entities, this`grammars, this`synonymsUsed
      ensures var run := Processed(text, parent, excludes, pick, old(entities), old(grammars), old(synonymsUsed));
              && entities == run.0.entities && grammars == run.0.grammars && synonymsUsed == run.0.synonymsUsed
              && r == if run.1.Some? then Err(run.1.value) else Ok(run.0.chosen)
    {
      var ps := PlaceholdersOf(text);
      if parent.None? {
        return if ps == [] then Ok([]) else Err(AttributeError);
      }
      var bound := BindPlaceholders(ps);
      if bound.Err? {
        return Err(bound.error);
      }
      var gs := bound.value;
      ghost var ss := SlotsOf(ps, gs, excludes, pick);
      ghost var start := Run(entities, grammars, synonymsUsed, text, []);
      var txt, rv := text, [];
      for i := 0 to |gs|
        invariant ProcessFrom(ss, i, Run(entities, grammars, synonymsUsed, txt, rv)) == ProcessFrom(ss, 0, start)
      {
        ghost var before := Run(entities, grammars, synonymsUsed, txt, rv);
        ProcessStep(ss, i, before);
        var err;
        txt, rv, err := ProcessOne(ps[i], gs[i], excludes, pick(i), txt, rv);
        if err.Some? {
          return Err(err.value);
        }
      }
      return Ok(rv);
    }
  }
}
