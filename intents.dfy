/**
 * The older intent of `chatter.intents`: an intent's templates, with its
 * grammar and entity tables merged from `included` and `contents`
 * sections, and the expansion of a template one token at a time, which
 * records where each entity value lands.
 *
 * The random choices are parameters: `coin(i)` is `random.randint(0, 1)`
 * for the `i`-th token, and `pick(i)` indexes the list that
 * `random.choice` draws from for it.
 */
module Intents {
  import opened Wrappers
  import opened Errors
  import opened PyStr
  import opened PyDict
  import ReplacementPattern
  import Entity

  /** A table of named value lists. */
  type Table = Dict<string, seq<string>>

  /**
   * A section (`grammers`, `entities`, or the entities' `synonyms`): the
   * mappings listed under `included` and the mapping under `contents`. A
   * missing or empty key is an empty list or mapping.
   */
  datatype Section = Section(included: seq<Table>, contents: Table)

  /** The `entities` section, with its `synonyms` section when that one is present and not empty. */
  datatype EntitiesSection = EntitiesSection(defs: Section, synonyms: Option<Section>)

  /** An intent's data; a missing key is None. */
  datatype IntentData = IntentData(domain: Option<string>, text: Option<seq<string>>,
                                   grammers: Option<Section>, entities: Option<EntitiesSection>)

  ghost predicate WellFormed(s: Section)
  {
    AllUnique(s.included) && KeysUnique(s.contents)
  }

  // ---------------------------------------------------------------------
  // get_data

  /** What `get_data(section)` returns: the `included` tables merged in order, then `contents`. */
  function Merged(s: Section): Table
  {
    Update(UpdateAll([], s.included, |s.included|), s.contents)
  }

  /**
   * `get_data`: a key of `contents` has its value from `contents`; any
   * other key has its value from the last `included` table holding it; no
   * other key is present. Values are taken as they are.
   */
  lemma MergedGet(s: Section, k: string)
    requires WellFormed(s)
    ensures Get(Merged(s), k) == if k in Keys(s.contents) then Get(s.contents, k) else LastValue(s.included, |s.included|, k)
  {
    UpdateAllGet([], s.included, |s.included|, k);
    var empty: Table := [];
    assert Get(empty, k) == None;
    UpdateGet(UpdateAll([], s.included, |s.included|), s.contents, k);
  }

  /** `get_data` returns a dictionary holding the keys of `contents` and of the `included` tables, and no other. */
  lemma MergedKeys(s: Section)
    ensures KeysUnique(Merged(s))
    ensures forall k :: k in Keys(Merged(s)) <==> k in Keys(s.contents) || LastValue(s.included, |s.included|, k).Some?
  {
    UpdateAllUnique([], s.included, |s.included|);
    UpdateAllKeys([], s.included, |s.included|);
    UpdateKeys(UpdateAll([], s.included, |s.included|), s.contents);
  }

  /** A section with neither `included` nor `contents` gives an empty mapping. */
  lemma MergedNothing(s: Section)
    requires s.included == [] && s.contents == []
    ensures Merged(s) == []
  {
    assert UpdateAll([], s.included, 0) == [];
  }

  /** `get_data(data)`. */
  method GetData(data: Section) returns (rv: Table)
    ensures rv == Merged(data)
  {
    rv := [];
    for i := 0 to |data.included|
      invariant rv == UpdateAll([], data.included, i)
    {
      assert UpdateAll([], data.included, i + 1) == Update(rv, data.included[i]);
      rv := Update(rv, data.included[i]);
    }
    if data.contents != [] {
      rv := Update(rv, data.contents);
    } else {
      assert Update(rv, data.contents) == rv;
    }
  }

  /** `for name, value in e.items(): d[name] = value`, which is `d.update(e)`. */
  method AssignAll(d: Table, e: Table) returns (r: Table)
    ensures r == Update(d, e)
  {
    r := d;
    for i := 0 to |e|
      invariant Update(r, e[i..]) == Update(d, e)
    {
      UpdateSuffix(r, e, i);
      r := Put(r, e[i].0, e[i].1);
    }
    assert e[|e|..] == [];
  }

  // ---------------------------------------------------------------------
  // load

  /** The same value `v` for every key of `m`, in `m`'s order. */
  function SameFor(m: Table, v: Table): (r: Dict<string, Table>)
    ensures |r| == |m| && forall i :: 0 <= i < |m| ==> r[i] == (m[i].0, v)
  {
    seq(|m|, i requires 0 <= i < |m| => (m[i].0, v))
  }

  lemma SameForUnique(m: Table, v: Table)
    requires KeysUnique(m)
    ensures KeysUnique(SameFor(m, v))
    ensures Keys(SameFor(m, v)) == Keys(m)
  {
  }

  /** The intent's attributes. */
  datatype IntentState = IntentState(domain: Option<string>, templates: seq<string>, grammers: Table,
                                     entities: Table, synonyms: Dict<string, Table>)

  /**
   * `load(intent_data)`: the attributes afterwards and the exception
   * raised. The keys are read in the order `domain`, `text`, `grammers`,
   * `entities`, and what was assigned before a missing one stays assigned.
   */
  function Loaded(s: IntentState, data: IntentData): (r: (IntentState, Option<Error>))
    ensures r.1.None? <==> data.domain.Some? && data.text.Some? && data.grammers.Some? && data.entities.Some?
    ensures r.1.Some? ==> r.1.value == KeyError(
              if data.domain.None? then "domain" else if data.text.None? then "text"
              else if data.grammers.None? then "grammers" else "entities")
    ensures data.domain.Some? ==> r.0.domain == data.domain
    ensures data.domain.None? ==> r.0 == s
  {
    if data.domain.None? then (s, Some(KeyError("domain")))
    else
      var s1 := s.(domain := data.domain);
      if data.text.None? then (s1, Some(KeyError("text")))
      else
        var s2 := s1.(templates := data.text.value);
        if data.grammers.None? then (s2, Some(KeyError("grammers")))
        else
          var s3 := s2.(grammers := Update(s2.grammers, Merged(data.grammers.value)));
          if data.entities.None? then (s3, Some(KeyError("entities")))
          else
            var es := data.entities.value;
            var m := Merged(es.defs);
            var syns := if es.synonyms.Some? then Update(s3.synonyms, SameFor(m, Merged(es.synonyms.value))) else s3.synonyms;
            (s3.(entities := Update(s3.entities, m), synonyms := syns), None)
  }

  /**
   * After a clean `load`, a grammar name of the section has its merged
   * value and every other name keeps its old one; the same holds for the
   * entities.
   */
  lemma LoadedTables(s: IntentState, data: IntentData, k: string)
    requires Loaded(s, data).1.None?
    ensures var g := Merged(data.grammers.value);
            Get(Loaded(s, data).0.grammers, k) == if k in Keys(g) then Get(g, k) else Get(s.grammers, k)
    ensures var m := Merged(data.entities.value.defs);
            Get(Loaded(s, data).0.entities, k) == if k in Keys(m) then Get(m, k) else Get(s.entities, k)
  {
    MergedKeys(data.grammers.value);
    MergedKeys(data.entities.value.defs);
    UpdateGet(s.grammers, Merged(data.grammers.value), k);
    UpdateGet(s.entities, Merged(data.entities.value.defs), k);
  }

  /**
   * After a clean `load`, every entity name of the section maps to the same
   * merged synonyms mapping when the `synonyms` section is present and not
   * empty; no other name changes, and without that section nothing does.
   */
  lemma LoadedSynonyms(s: IntentState, data: IntentData, k: string)
    requires Loaded(s, data).1.None?
    ensures var es := data.entities.value;
            var syns := Loaded(s, data).0.synonyms;
            && (es.synonyms.Some? && k in Keys(Merged(es.defs)) ==> Get(syns, k) == Some(Merged(es.synonyms.value)))
            && (es.synonyms.None? || k !in Keys(Merged(es.defs)) ==> Get(syns, k) == Get(s.synonyms, k))
  {
    var es := data.entities.value;
    var m := Merged(es.defs);
    if es.synonyms.Some? {
      MergedKeys(es.defs);
      SameForUnique(m, Merged(es.synonyms.value));
      var sf := SameFor(m, Merged(es.synonyms.value));
      UpdateGet(s.synonyms, sf, k);
      if k in Keys(m) {
        var i := IndexOfKey(sf, k);
        assert sf[i] == (k, Merged(es.synonyms.value));
      }
    }
  }

  // ---------------------------------------------------------------------
  // _get_replacements

  /** One entity record: `dict(start=..., end=..., value=..., entity=...)`. */
  datatype EntityRecord = EntityRecord(start: nat, end: nat, value: string, entity: string)

  const Braces: set<char> := {'{', '}'}

  /** The start of the message of the RuntimeError an unknown name raises. */
  const UnknownPrefix: string := "Unknown placeholder: "

  /** `random.choice(values)`: IndexError for an empty list. */
  function Choose(values: seq<string>, p: nat): (r: Result<string, Error>)
    ensures values == [] <==> r.Err?
    ensures r.Err? ==> r.error == IndexError
    ensures r.Ok? ==> r.value in values
  {
    if values == [] then Err(IndexError) else Ok(values[p % |values|])
  }

  /** The suffix that marks an optional token, `{name?}`, and the character it is made of. */
  const OptionalSuffix: string := "?"
  const OptionalMark: set<char> := {'?'}

  /** The token without its braces ends with `?`. */
  predicate Optional(token: string)
  {
    EndsWith(Strip(token, Braces), OptionalSuffix)
  }

  /** The name a token is looked up under, with `?` stripped when the token is optional. */
  function LookupName(token: string): string
  {
    var name := Strip(token, Braces);
    if EndsWith(name, OptionalSuffix) then Strip(name, OptionalMark) else name
  }

  /** The token is optional and the coin says to drop it. */
  predicate Elided(token: string, coin: bool)
  {
    Optional(token) && coin
  }

  /** Whether the token's replacement raises, and with what. */
  function StepError(grammers: Table, entities: Table, token: string, coin: bool, p: nat): Option<Error>
  {
    var name := LookupName(token);
    if Elided(token, coin) then None
    else if name in Keys(grammers) then (if GetOr(grammers, name, []) == [] then Some(IndexError) else None)
    else if name in Keys(entities) then (if GetOr(entities, name, []) == [] then Some(IndexError) else None)
    else Some(RuntimeError(UnknownPrefix + name))
  }

  /**
   * One iteration of `_get_replacements`: the exception it raises, or the
   * next text and the entity record it adds, if any.
   */
  function ReplaceStep(grammers: Table, entities: Table, token: string, coin: bool, p: nat, text: string)
    : (r: Result<(string, Option<EntityRecord>), Error>)
  {
    var err := StepError(grammers, entities, token, coin, p);
    if err.Some? then Err(err.value) else Ok(Replaced(grammers, entities, token, coin, p, text))
  }

  /** Where an entity's value is recorded to start: one past the token's first occurrence. */
  function StartOf(text: string, token: string): nat
  {
    Find(text, token) + 1
  }

  /** The next text and record of an iteration that does not raise. */
  function Replaced(grammers: Table, entities: Table, token: string, coin: bool, p: nat, text: string)
    : (string, Option<EntityRecord>)
    requires StepError(grammers, entities, token, coin, p).None?
  {
    var name := LookupName(token);
    if Elided(token, coin) then (Strip(ReplaceAll(text, token, ""), Whitespace), None)
    else if name in Keys(grammers) then
      var repl := Choose(GetOr(grammers, name, []), p).value;
      (Strip(ReplaceAll(text, token, repl), Whitespace), None)
    else
      var repl := Choose(GetOr(entities, name, []), p).value;
      var start := StartOf(text, token);
      (Strip(ReplaceAll(text, token, repl), Whitespace), Some(EntityRecord(start, start + |repl|, repl, name)))
  }

  /**
   * What a replacement that does not raise produces: an elided optional
   * token is removed; a grammar name (looked up first) is replaced by one of
   * its values without a record; otherwise the name is an entity's, its
   * value replaces the token, and the record places it one past the
   * position of the token's first occurrence. The text is stripped of
   * outer whitespace each time.
   */
  lemma ReplaceStepOk(grammers: Table, entities: Table, token: string, coin: bool, p: nat, text: string)
    requires ReplaceStep(grammers, entities, token, coin, p, text).Ok?
    ensures var r := ReplaceStep(grammers, entities, token, coin, p, text).value;
            && (Elided(token, coin) ==> r == (Strip(ReplaceAll(text, token, ""), Whitespace), None))
            && (!Elided(token, coin) && LookupName(token) in Keys(grammers) ==>
                  && r.1.None?
                  && exists v :: v in GetOr(grammers, LookupName(token), []) && r.0 == Strip(ReplaceAll(text, token, v), Whitespace))
            && (!Elided(token, coin) && LookupName(token) !in Keys(grammers) ==>
                  && r.1.Some? && r.1.value.entity == LookupName(token)
                  && GoodRecord(grammers, entities, r.1.value)
                  && r.1.value.start == StartOf(text, token)
                  && r.0 == Strip(ReplaceAll(text, token, r.1.value.value), Whitespace))
  {
    var name := LookupName(token);
    if !Elided(token, coin) && name in Keys(grammers) {
      var v := Choose(GetOr(grammers, name, []), p).value;
      assert v in GetOr(grammers, name, []);
    }
  }

  /** A record of an entity of `entities` that is not a grammar, whose span is as long as its value. */
  predicate GoodRecord(grammers: Table, entities: Table, rec: EntityRecord)
  {
    && rec.entity in Keys(entities) && rec.entity !in Keys(grammers)
    && rec.value in GetOr(entities, rec.entity, [])
    && rec.end == rec.start + |rec.value|
  }

  /** What one iteration of `_get_replacements` gives. */
  type Outcome = Result<(string, Option<EntityRecord>), Error>

  /**
   * A loop of `n` iterations from the `i`-th on, with the text and records
   * so far: `step(j, text)` is what iteration `j` does to `text`. It stops
   * at the first exception.
   */
  function Run(step: (nat, string) -> Outcome, n: nat, i: nat, text: string, records: seq<EntityRecord>)
    : Result<(string, seq<EntityRecord>), Error>
    requires i <= n
    decreases n - i
  {
    if i == n then Ok((text, records))
    else
      match step(i, text)
      case Err(e) => Err(e)
      case Ok((t, rec)) => Run(step, n, i + 1, t, if rec.Some? then records + [rec.value] else records)
  }

  /** Every record of `rs` is a good one. */
  predicate AllGood(grammers: Table, entities: Table, rs: seq<EntityRecord>)
  {
    forall j :: 0 <= j < |rs| ==> GoodRecord(grammers, entities, rs[j])
  }

  /** Every iteration that adds a record adds a good one. */
  ghost predicate StepsGood(step: (nat, string) -> Outcome, grammers: Table, entities: Table)
  {
    forall j, t :: step(j, t).Ok? && step(j, t).value.1.Some? ==> GoodRecord(grammers, entities, step(j, t).value.1.value)
  }

  lemma AllGoodCons(grammers: Table, entities: Table, rec: EntityRecord, rs: seq<EntityRecord>)
    requires GoodRecord(grammers, entities, rec) && AllGood(grammers, entities, rs)
    ensures AllGood(grammers, entities, [rec] + rs)
  {
  }

  /** Adding the record of one step keeps the records past `records` good. */
  lemma RecordsStep(grammers: Table, entities: Table, records: seq<EntityRecord>, rec: Option<EntityRecord>, rs: seq<EntityRecord>)
    requires rec.Some? ==> GoodRecord(grammers, entities, rec.value)
    requires var recs := if rec.Some? then records + [rec.value] else records;
             |recs| <= |rs| && rs[..|recs|] == recs && AllGood(grammers, entities, rs[|recs|..])
    ensures |records| <= |rs| && rs[..|records|] == records && AllGood(grammers, entities, rs[|records|..])
  {
    if rec.Some? {
      var recs := records + [rec.value];
      assert rs[..|recs|][..|records|] == records;
      assert rs[..|records|] == records;
      assert rs[|records|] == rs[..|recs|][|records|];
      assert rs[|records|..] == [rs[|records|]] + rs[|recs|..];
      AllGoodCons(grammers, entities, rec.value, rs[|recs|..]);
    }
  }

  /**
   * The records a run returns extend the ones it started with, by at most
   * one per iteration, and each new one is good when every step's is.
   */
  lemma {:induction false} RunRecords(step: (nat, string) -> Outcome, n: nat, i: nat, text: string, records: seq<EntityRecord>,
                                      grammers: Table, entities: Table)
    requires i <= n && StepsGood(step, grammers, entities)
    ensures var r := Run(step, n, i, text, records);
            r.Ok? ==>
              && |records| <= |r.value.1| <= |records| + n - i
              && r.value.1[..|records|] == records
              && AllGood(grammers, entities, r.value.1[|records|..])
    decreases n - i
  {
    if i < n {
      var s := step(i, text);
      if s.Ok? {
        var recs := if s.value.1.Some? then records + [s.value.1.value] else records;
        RunRecords(step, n, i + 1, s.value.0, recs, grammers, entities);
        var r := Run(step, n, i + 1, s.value.0, recs);
        if r.Ok? {
          RecordsStep(grammers, entities, records, s.value.1, r.value.1);
        }
      }
    } else {
      assert records[..|records|] == records;
      assert records[|records|..] == [];
    }
  }

  /** A run raises exactly when one of its iterations raises, whatever the text it is given. */
  lemma {:induction false} RunFails(step: (nat, string) -> Outcome, fails: nat -> bool, n: nat, i: nat, text: string,
                                    records: seq<EntityRecord>)
    requires i <= n
    requires forall j, t :: i <= j < n ==> (step(j, t).Err? <==> fails(j))
    ensures Run(step, n, i, text, records).Err? <==> exists j :: i <= j < n && fails(j)
    decreases n - i
  {
    if i < n {
      var s := step(i, text);
      if s.Ok? {
        var recs := if s.value.1.Some? then records + [s.value.1.value] else records;
        RunFails(step, fails, n, i + 1, s.value.0, recs);
        if exists j :: i <= j < n && fails(j) {
          var j :| i <= j < n && fails(j);
          assert j != i;
        }
      }
    }
  }

  /** Iteration `j` of `_get_replacements`, on the `j`-th token of the template. */
  function StepOf(grammers: Table, entities: Table, tokens: seq<string>, coin: nat -> bool, pick: nat -> nat)
    : (nat, string) -> Outcome
  {
    (j: nat, t: string) =>
      if j < |tokens| then ReplaceStep(grammers, entities, tokens[j], coin(j), pick(j), t) else Err(IndexError)
  }

  /** What `_get_replacements(text)` returns for the template's tokens. */
  function Replacements(grammers: Table, entities: Table, tokens: seq<string>, coin: nat -> bool, pick: nat -> nat,
                        text: string): Result<(string, seq<EntityRecord>), Error>
  {
    Run(StepOf(grammers, entities, tokens, coin, pick), |tokens|, 0, text, [])
  }

  /** A replacement adds good records only, starting one past the token's first occurrence. */
  lemma StepRecordGood(grammers: Table, entities: Table, token: string, coin: bool, p: nat, text: string)
    requires var r := ReplaceStep(grammers, entities, token, coin, p, text); r.Ok? && r.value.1.Some?
    ensures var rec := ReplaceStep(grammers, entities, token, coin, p, text).value.1.value;
            GoodRecord(grammers, entities, rec) && rec.start == StartOf(text, token)
  {
    ReplaceStepOk(grammers, entities, token, coin, p, text);
  }

  /**
   * `_get_replacements` returns at most one record per token, each of an
   * entity that is not a grammar, with a value of that entity and a span
   * as long as the value.
   */
  lemma ReplacementsRecords(grammers: Table, entities: Table, tokens: seq<string>, coin: nat -> bool, pick: nat -> nat,
                            text: string)
    ensures var r := Replacements(grammers, entities, tokens, coin, pick, text);
            r.Ok? ==> |r.value.1| <= |tokens| && AllGood(grammers, entities, r.value.1)
  {
    var step := StepOf(grammers, entities, tokens, coin, pick);
    forall j: nat, t: string | step(j, t).Ok? && step(j, t).value.1.Some?
      ensures GoodRecord(grammers, entities, step(j, t).value.1.value)
    {
      StepRecordGood(grammers, entities, tokens[j], coin(j), pick(j), t);
    }
    RunRecords(step, |tokens|, 0, text, [], grammers, entities);
    var r := Replacements(grammers, entities, tokens, coin, pick, text);
    if r.Ok? {
      assert r.value.1[0..] == r.value.1;
    }
  }

  /** `_get_replacements` raises exactly when the replacement of one of its tokens does. */
  lemma ReplacementsFail(grammers: Table, entities: Table, tokens: seq<string>, coin: nat -> bool, pick: nat -> nat,
                         text: string)
    ensures Replacements(grammers, entities, tokens, coin, pick, text).Err?
            <==> exists j :: 0 <= j < |tokens| && StepError(grammers, entities, tokens[j], coin(j), pick(j)).Some?
  {
    var step := StepOf(grammers, entities, tokens, coin, pick);
    var fails := (j: nat) => j < |tokens| && StepError(grammers, entities, tokens[j], coin(j), pick(j)).Some?;
    forall j: nat, t: string | j < |tokens|
      ensures step(j, t).Err? <==> fails(j)
    {
      assert step(j, t) == ReplaceStep(grammers, entities, tokens[j], coin(j), pick(j), t);
    }
    RunFails(step, fails, |tokens|, 0, text, []);
    if Replacements(grammers, entities, tokens, coin, pick, text).Err? {
      var j :| 0 <= j < |tokens| && fails(j);
      assert StepError(grammers, entities, tokens[j], coin(j), pick(j)).Some?;
    } else {
      forall j | 0 <= j < |tokens|
        ensures StepError(grammers, entities, tokens[j], coin(j), pick(j)).None?
      {
        assert !fails(j);
      }
    }
  }

  /**
   * The span arithmetic of an entity record: when the token occurs in the
   * text, the value sits in the replaced text from `start - 1` to `end - 1`,
   * before the outer whitespace is stripped.
   */
  lemma RecordSpan(grammers: Table, entities: Table, token: string, coin: bool, p: nat, text: string)
    requires Contains(text, token) && token != []
    requires var r := ReplaceStep(grammers, entities, token, coin, p, text); r.Ok? && r.value.1.Some?
    ensures var rec := ReplaceStep(grammers, entities, token, coin, p, text).value.1.value;
            && 1 <= rec.start && rec.end - 1 <= |ReplaceAll(text, token, rec.value)|
            && ReplaceAll(text, token, rec.value)[rec.start - 1..rec.end - 1] == rec.value
  {
    StepRecordGood(grammers, entities, token, coin, p, text);
    var rec := ReplaceStep(grammers, entities, token, coin, p, text).value.1.value;
    Entity.ValueAtSpan(text, token, rec.value);
  }

  /** The dictionary `common_example` serialises: the text, the intent's name and the entity records. */
  datatype ExampleData = ExampleData(text: string, intent: Option<string>, entities: seq<EntityRecord>)

  /**
   * `common_example()`: a template drawn at random (`random.choices` of an
   * empty list raises IndexError), nothing for an empty template, and
   * otherwise its expansion with the intent's name.
   */
  function ExampleOf(name: Option<string>, templates: seq<string>, grammers: Table, entities: Table,
                     tp: nat, coin: nat -> bool, pick: nat -> nat): Result<Option<ExampleData>, Error>
  {
    if templates == [] then Err(IndexError)
    else
      var template := templates[tp % |templates|];
      if template == [] then Ok(None)
      else
        match Replacements(grammers, entities, ReplacementPattern.FindAll(template), coin, pick, template)
        case Err(e) => Err(e)
        case Ok((text, records)) => Ok(Some(ExampleData(text, name, records)))
  }

  /**
   * An example carries the intent's name and at most one good entity
   * record per placeholder of its template; an intent without templates
   * always raises IndexError.
   */
  lemma ExampleRecords(name: Option<string>, templates: seq<string>, grammers: Table, entities: Table,
                       tp: nat, coin: nat -> bool, pick: nat -> nat)
    ensures templates == [] ==> ExampleOf(name, templates, grammers, entities, tp, coin, pick) == Err(IndexError)
    ensures var r := ExampleOf(name, templates, grammers, entities, tp, coin, pick);
            r.Ok? && r.value.Some? ==>
              && templates != []
              && r.value.value.intent == name
              && |r.value.value.entities| <= |ReplacementPattern.FindAll(templates[tp % |templates|])|
              && AllGood(grammers, entities, r.value.value.entities)
  {
    if templates != [] {
      var template := templates[tp % |templates|];
      ReplacementsRecords(grammers, entities, ReplacementPattern.FindAll(template), coin, pick, template);
    }
  }

  /** The older intent: templates, merged tables, and synonyms. */
  class Intent {
    const name: Option<string>
    var domain: Option<string>
    var templates: seq<string>
    var grammers: Table
    var entities: Table
    var synonyms: Dict<string, Table>

    constructor(name: Option<string>)
      ensures this.name == name
      ensures State() == IntentState(None, [], [], [], [])
    {
      this.name := name;
      domain := None;
      templates := [];
      grammers := [];
      entities := [];
      synonyms := [];
    }

    function State(): IntentState
      reads this
    {
      IntentState(domain, templates, grammers, entities, synonyms)
    }

    /** `load(intent_data)`: the exception raised, if any. */
    method Load(data: IntentData) returns (err: Option<Error>)
      modifies this`domain, this`templates, this`grammers, this`entities, this`synonyms
      ensures (State(), err) == Loaded(old(State()), data)
    {
      if data.domain.None? {
        return Some(KeyError("domain"));
      }
      domain := data.domain;
      if data.text.None? {
        return Some(KeyError("text"));
      }
      templates := data.text.value;
      if data.grammers.None? {
        return Some(KeyError("grammers"));
      }
      var g := GetData(data.grammers.value);
      grammers := AssignAll(grammers, g);
      if data.entities.None? {
        return Some(KeyError("entities"));
      }
      var es := data.entities.value;
      var m := GetData(es.defs);
      entities, synonyms := AssignEntities(entities, synonyms, m, es.synonyms);
      err := None;
    }

    /** The body of `_get_replacements`' loop for one placeholder. */
    method Replace(placeholder: string, coin: bool, p: nat, t: string)
        returns (r: Result<(string, Option<EntityRecord>), Error>)
      ensures r == ReplaceStep(grammers, entities, placeholder, coin, p, t)
    {
      var name := Strip(placeholder, Braces);
      if EndsWith(name, OptionalSuffix) {
        if coin {
          assert Elided(placeholder, coin);
          return Ok((Strip(ReplaceAll(t, placeholder, ""), Whitespace), None));
        }
        name := Strip(name, OptionalMark);
      }
      assert name == LookupName(placeholder) && !Elided(placeholder, coin);
      if name in Keys(grammers) {
        var c := Choose(GetOr(grammers, name, []), p);
        if c.Err? {
          return Err(c.error);
        }
        r := Ok((Strip(ReplaceAll(t, placeholder, c.value), Whitespace), None));
      } else if name in Keys(entities) {
        var c := Choose(GetOr(entities, name, []), p);
        if c.Err? {
          return Err(c.error);
        }
        var repl := c.value;
        var start := StartOf(t, placeholder);
        var rec := EntityRecord(start, start + |repl|, repl, name);
        assert StepError(grammers, entities, placeholder, coin, p).None?;
        assert Replaced(grammers, entities, placeholder, coin, p, t).1.value.end == rec.end;
        r := Ok((Strip(ReplaceAll(t, placeholder, repl), Whitespace), Some(rec)));
      } else {
        r := Err(RuntimeError(UnknownPrefix + name));
      }
    }

    /** `_get_replacements(text)`: the expanded text and the entity records, or the exception raised. */
    method GetReplacements(text: string, coin: nat -> bool, pick: nat -> nat)
        returns (r: Result<(string, seq<EntityRecord>), Error>)
      ensures r == Replacements(grammers, entities, ReplacementPattern.FindAll(text), coin, pick, text)
    {
      var tokens := ReplacementPattern.FindAll(text);
      var t := text;
      var records: seq<EntityRecord> := [];
      for i := 0 to |tokens|
        invariant Run(StepOf(grammers, entities, tokens, coin, pick), |tokens|, i, t, records)
               == Replacements(grammers, entities, tokens, coin, pick, text)
      {
        var step := Replace(tokens[i], coin(i), pick(i), t);
        if step.Err? {
          return Err(step.error);
        }
        t := step.value.0;
        if step.value.1.Some? {
          records := records + [step.value.1.value];
        }
      }
      return Ok((t, records));
    }

    /** `common_example()`, before serialisation; `tp` draws the template. */
    method CommonExample(tp: nat, coin: nat -> bool, pick: nat -> nat) returns (r: Result<Option<ExampleData>, Error>)
      ensures r == ExampleOf(name, templates, grammers, entities, tp, coin, pick)
    {
      if templates == [] {
        return Err(IndexError);
      }
      var template := templates[tp % |templates|];
      if template == [] {
        return Ok(None);
      }
      var rep := GetReplacements(template, coin, pick);
      if rep.Err? {
        return Err(rep.error);
      }
      r := Ok(Some(ExampleData(rep.value.0, name, rep.value.1)));
    }

    /** `sentence()`: the text of the same expansion, without the records. */
    method Sentence(tp: nat, coin: nat -> bool, pick: nat -> nat) returns (r: Result<Option<string>, Error>)
      ensures var e := ExampleOf(name, templates, grammers, entities, tp, coin, pick);
              && (r.Err? <==> e.Err?)
              && (r.Err? ==> r.error == e.error)
              && (r.Ok? ==> r.value == if e.value.Some? then Some(e.value.value.text) else None)
    {
      var e := CommonExample(tp, coin, pick);
      match e
      case Err(err) => r := Err(err);
      case Ok(None) => r := Ok(None);
      case Ok(Some(ex)) => r := Ok(Some(ex.text));
    }
  }

  /**
   * The entity loop of `load`: each name assigned its value, and, when the
   * `synonyms` section is there, the merged synonyms assigned to it too.
   */
  method AssignEntities(entities: Table, synonyms: Dict<string, Table>, m: Table, syn: Option<Section>)
      returns (entities': Table, synonyms': Dict<string, Table>)
    ensures entities' == Update(entities, m)
    ensures synonyms' == if syn.Some? then Update(synonyms, SameFor(m, Merged(syn.value))) else synonyms
  {
    entities', synonyms' := entities, synonyms;
    ghost var sf := if syn.Some? then SameFor(m, Merged(syn.value)) else [];
    for i := 0 to |m|
      invariant Update(entities', m[i..]) == Update(entities, m)
      invariant syn.Some? ==> Update(synonyms', sf[i..]) == Update(synonyms, sf)
      invariant syn.None? ==> synonyms' == synonyms
    {
      UpdateSuffix(entities', m, i);
      entities' := Put(entities', m[i].0, m[i].1);
      if syn.Some? {
        var st := GetData(syn.value);
        UpdateSuffix(synonyms', sf, i);
        synonyms' := Put(synonyms', m[i].0, st);
      }
    }
    assert m[|m|..] == [] && sf[|sf|..] == [];
  }
}
