/**
 * `Combinations` and `CommonExample`: one generated example of a template.
 * The example resolves the template's placeholders to the grammars of its
 * intent, draws a combination of choice indices and fills the placeholders
 * with the chosen values.
 *
 * The regular expression that finds the placeholders (`chatter.utils.regex`)
 * and the `Placeholder` class that names them are not part of this model:
 * the tokens come from the `REPLACEMENT_PATTERN` scanner and their names
 * from the parameter `nameOf`. The random draws are the parameter `pick`:
 * `pick(k, i)` is the position `random.choice` takes in the `i`-th list on
 * the `k`-th draw.
 */
module CommonExample {
  import opened Wrappers
  import opened Errors
  import opened PyStr
  import opened PyDict
  import Grammar
  import Entity
  import ReplacementPattern

  /** `"".join(str(x) for x in combo)`: the decimal digits of each index, without a separator. */
  function Key(combo: seq<nat>): string
  {
    if combo == [] then [] else Decimal(combo[0]) + Key(combo[1..])
  }

  /** A digit names its number. */
  lemma DigitInjective(a: nat, b: nat)
    requires a < 10 && b < 10 && Digit(a) == Digit(b)
    ensures a == b
  {
    assert forall d :: 0 <= d < 10 ==> Digit(d) as int == '0' as int + d;
  }

  /**
   * Two combinations of the same length whose indices are all single digits
   * have the same key only when they are equal.
   */
  lemma {:induction false} KeyInjectiveOnDigits(a: seq<nat>, b: seq<nat>)
    requires |a| == |b|
    requires forall i :: 0 <= i < |a| ==> a[i] < 10 && b[i] < 10
    requires Key(a) == Key(b)
    ensures a == b
  {
    if a != [] {
      assert Key(a) == [Digit(a[0])] + Key(a[1..]);
      assert Key(b) == [Digit(b[0])] + Key(b[1..]);
      assert Key(a)[0] == Digit(a[0]) && Key(b)[0] == Digit(b[0]);
      DigitInjective(a[0], b[0]);
      assert Key(a[1..]) == Key(a)[1..] && Key(b[1..]) == Key(b)[1..];
      KeyInjectiveOnDigits(a[1..], b[1..]);
      assert a == [a[0]] + a[1..] && b == [b[0]] + b[1..];
    }
  }

  /** Keys have no separator: `[1, 12]` and `[11, 2]` count as the same combination. */
  lemma KeysCollide(a: seq<nat>, b: seq<nat>)
    requires a == [1, 12] && b == [11, 2]
    ensures a != b && Key(a) == Key(b)
  {
    assert Decimal(12) == Decimal(1) + [Digit(2)];
    assert Decimal(11) == Decimal(1) + [Digit(1)];
    assert a[1..] == [12] && a[1..][1..] == [];
    assert b[1..] == [2] && b[1..][1..] == [];
    assert Key(a) == Decimal(1) + (Decimal(12) + Key([]));
    assert Key(b) == Decimal(11) + (Decimal(2) + Key([]));
  }

  /** No list to draw from is empty. */
  predicate NonEmptyLists(lists: seq<seq<nat>>)
  {
    forall i :: 0 <= i < |lists| ==> lists[i] != []
  }

  /** The `k`-th draw: `[random.choice(l) for l in lists]`. */
  function Draw(lists: seq<seq<nat>>, pick: (nat, nat) -> nat, k: nat): (combo: seq<nat>)
    requires NonEmptyLists(lists)
    ensures |combo| == |lists| && forall i :: 0 <= i < |lists| ==> combo[i] in lists[i]
  {
    seq(|lists|, i requires 0 <= i < |lists| => lists[i][pick(k, i) % |lists[i]|])
  }

  /** The keys of the draws before the `k`-th are all in `used`. */
  ghost predicate DrawsUsed(lists: seq<seq<nat>>, pick: (nat, nat) -> nat, k: nat, used: seq<string>)
    requires NonEmptyLists(lists)
  {
    forall j: nat :: j < k ==> Key(Draw(lists, pick, j)) in used
  }

  /** `set(combination)`: the indices a combination holds, order and repeats dropped. */
  function AsSet(combination: seq<nat>): (r: set<nat>)
    ensures forall x :: x in r <==> x in combination
  {
    set x | x in combination
  }

  class Combinations {
    const listOfLists: seq<seq<nat>>
    var usedKeys: seq<string>

    constructor(data: seq<seq<nat>>)
      ensures listOfLists == data && usedKeys == []
    {
      listOfLists := data;
      usedKeys := [];
    }

    /**
     * `find_unused()`: draws until the key of the draw is not yet in
     * `used_keys`, records that key and returns the draw. An empty list makes
     * the first draw raise IndexError. The loop ends only if some draw has an
     * unused key, which the precondition demands.
     */
    method FindUnused(pick: (nat, nat) -> nat) returns (r: Result<seq<nat>, Error>)
      requires NonEmptyLists(listOfLists) ==> exists k: nat :: Key(Draw(listOfLists, pick, k)) !in usedKeys
      modifies this`usedKeys
      ensures !NonEmptyLists(listOfLists) ==> r == Err(IndexError) && usedKeys == old(usedKeys)
      ensures NonEmptyLists(listOfLists) ==>
                && r.Ok?
                && |r.value| == |listOfLists| && (forall i :: 0 <= i < |r.value| ==> r.value[i] in listOfLists[i])
                && (exists k: nat :: r.value == Draw(listOfLists, pick, k) && DrawsUsed(listOfLists, pick, k, old(usedKeys)))
                && Key(r.value) !in old(usedKeys)
                && usedKeys == old(usedKeys) + [Key(r.value)]
    {
      if !NonEmptyLists(listOfLists) {
        return Err(IndexError);
      }
      ghost var bound: nat :| Key(Draw(listOfLists, pick, bound)) !in usedKeys;
      var k := 0;
      var combo := Draw(listOfLists, pick, 0);
      while Key(combo) in usedKeys
        invariant k <= bound
        invariant combo == Draw(listOfLists, pick, k)
        invariant DrawsUsed(listOfLists, pick, k, usedKeys)
        decreases bound - k
      {
        assert DrawsUsed(listOfLists, pick, k + 1, usedKeys) by {
          forall j: nat | j < k + 1 ensures Key(Draw(listOfLists, pick, j)) in usedKeys {
            if j == k {
              assert Draw(listOfLists, pick, j) == combo;
            }
          }
        }
        k := k + 1;
        combo := Draw(listOfLists, pick, k);
      }
      assert combo == Draw(listOfLists, pick, k) && DrawsUsed(listOfLists, pick, k, usedKeys);
      usedKeys := usedKeys + [Key(combo)];
      r := Ok(combo);
    }
  }

  /**
   * `Combinations(values).find_unused()` on a fresh picker: no key is used
   * yet, so the first draw is taken, or IndexError for an empty list.
   */
  method FirstDraw(values: seq<seq<nat>>, pick: (nat, nat) -> nat) returns (r: Result<seq<nat>, Error>)
    ensures !NonEmptyLists(values) ==> r == Err(IndexError)
    ensures NonEmptyLists(values) ==> r == Ok(Draw(values, pick, 0))
  {
    var picker := new Combinations(values);
    if NonEmptyLists(values) {
      assert Key(Draw(values, pick, 0)) !in picker.usedKeys;
    }
    r := picker.FindUnused(pick);
    // no draw is used yet, so the first one is taken
    if r.Ok? {
      assert Key(Draw(values, pick, 0)) !in [];
    }
  }

  /** `list(range(n))`. */
  function Range(n: nat): (r: seq<nat>)
    ensures |r| == n && forall i :: 0 <= i < n ==> r[i] == i
  {
    seq(n, i requires 0 <= i < n => i)
  }

  /** A placeholder of the template with the grammar its name resolves to. */
  datatype Slot = Slot(placeholderText: string, name: string, grammar: Grammar.Grammar)

  /**
   * The slots of the tokens `toks`, up to the first token whose name the
   * intent has no grammar for.
   */
  function Resolved(toks: seq<string>, grammars: map<string, Grammar.Grammar>, nameOf: string -> string)
    : (slots: seq<Slot>)
    ensures |slots| <= |toks|
    ensures forall i :: 0 <= i < |slots| ==>
              nameOf(toks[i]) in grammars && slots[i] == Slot(toks[i], nameOf(toks[i]), grammars[nameOf(toks[i])])
    ensures |slots| < |toks| ==> nameOf(toks[|slots|]) !in grammars
  {
    if toks == [] || nameOf(toks[0]) !in grammars then []
    else [Slot(toks[0], nameOf(toks[0]), grammars[nameOf(toks[0])])] + Resolved(toks[1..], grammars, nameOf)
  }

  /** The grammars of the slots whose grammar is an entity, in order. */
  function EntityGrammars(slots: seq<Slot>): seq<Grammar.Grammar>
  {
    if slots == [] then []
    else (if slots[0].grammar.isEntity then [slots[0].grammar] else []) + EntityGrammars(slots[1..])
  }

  /** The grammars of the other slots, in order. */
  function PlainGrammars(slots: seq<Slot>): seq<Grammar.Grammar>
  {
    if slots == [] then []
    else (if slots[0].grammar.isEntity then [] else [slots[0].grammar]) + PlainGrammars(slots[1..])
  }

  /**
   * Every slot goes to exactly one of the two lists: their lengths add up,
   * and a grammar is in either list exactly when some slot has it.
   */
  lemma {:induction false} SplitPartition(slots: seq<Slot>)
    ensures |EntityGrammars(slots)| + |PlainGrammars(slots)| == |slots|
    ensures forall g :: g in EntityGrammars(slots) || g in PlainGrammars(slots) <==> g in GrammarsOf(slots)
  {
    if slots != [] {
      var g := slots[0].grammar;
      var rest := slots[1..];
      SplitPartition(rest);
      assert GrammarsOf(slots) == [g] + GrammarsOf(rest);
      if g.isEntity {
        assert EntityGrammars(slots) == [g] + EntityGrammars(rest);
      } else {
        assert PlainGrammars(slots) == [g] + PlainGrammars(rest);
      }
    }
  }

  /** The first list holds only entity grammars, the second none. */
  lemma {:induction false} SplitKinds(slots: seq<Slot>)
    ensures forall j :: 0 <= j < |EntityGrammars(slots)| ==> EntityGrammars(slots)[j].isEntity
    ensures forall j :: 0 <= j < |PlainGrammars(slots)| ==> !PlainGrammars(slots)[j].isEntity
  {
    if slots != [] {
      SplitKinds(slots[1..]);
    }
  }

  /** Each slot and its entity or plain grammar list, one step at a time. */
  lemma {:induction false} SplitSnoc(slots: seq<Slot>, s: Slot)
    ensures EntityGrammars(slots + [s]) == EntityGrammars(slots) + (if s.grammar.isEntity then [s.grammar] else [])
    ensures PlainGrammars(slots + [s]) == PlainGrammars(slots) + (if s.grammar.isEntity then [] else [s.grammar])
  {
    if slots == [] {
      assert EntityGrammars([s]) == (if s.grammar.isEntity then [s.grammar] else []) + EntityGrammars([]);
      assert PlainGrammars([s]) == (if s.grammar.isEntity then [] else [s.grammar]) + PlainGrammars([]);
    } else {
      var t := slots + [s];
      assert t[0] == slots[0] && t[1..] == slots[1..] + [s];
      SplitSnoc(slots[1..], s);
    }
  }

  /** The grammars the slots resolve to. */
  function GrammarsOf(slots: seq<Slot>): (gs: seq<Grammar.Grammar>)
    ensures |gs| == |slots| && forall i :: 0 <= i < |slots| ==> gs[i] == slots[i].grammar
  {
    seq(|slots|, i requires 0 <= i < |slots| => slots[i].grammar)
  }

  /** `grammar_values`: one `list(range(len(choices)))` per slot. */
  function ValuesOf(slots: seq<Slot>): (vs: seq<seq<nat>>)
    reads set g | g in GrammarsOf(slots)
    ensures |vs| == |slots| && forall i :: 0 <= i < |slots| ==> vs[i] == Range(|slots[i].grammar.choices|)
  {
    seq(|slots|, i requires 0 <= i < |slots| reads set g | g in GrammarsOf(slots) => Range(|slots[i].grammar.choices|))
  }

  /**
   * What the filling of one slot reads from its grammar: the synonyms table
   * as the slot finds it, and the grammar's `used_synonyms` with the table
   * `UsedTable` builds from them.
   */
  datatype SlotData = SlotData(placeholderText: string, choices: seq<string>, synonyms: Dict<string, seq<string>>,
                               usedSynonyms: seq<string>, used: Dict<string, seq<string>>)

  /** `{name: synonyms[name] for name in used_synonyms}`, a missing name reading as `[]`. */
  function UsedTable(synonyms: Dict<string, seq<string>>, usedSynonyms: seq<string>): (d: Dict<string, seq<string>>)
    ensures |d| == |usedSynonyms|
    ensures forall i :: 0 <= i < |d| ==> d[i] == (usedSynonyms[i], GetOr(synonyms, usedSynonyms[i], []))
  {
    seq(|usedSynonyms|, i requires 0 <= i < |usedSynonyms| => (usedSynonyms[i], GetOr(synonyms, usedSynonyms[i], [])))
  }

  /**
   * The grammar's synonyms once `UsedTable` has read them: `synonyms` is a
   * `defaultdict(list)`, so each name of `usedSynonyms` it lacked is stored
   * with `[]`, at the end.
   */
  function TouchAll(synonyms: Dict<string, seq<string>>, usedSynonyms: seq<string>): Dict<string, seq<string>>
    decreases |usedSynonyms|
  {
    if usedSynonyms == [] then synonyms
    else
      var n := usedSynonyms[0];
      TouchAll(Put(synonyms, n, GetOr(synonyms, n, [])), usedSynonyms[1..])
  }

  /** After the reads, every used name has a list, its old one or `[]`; nothing else changes. */
  lemma {:induction false} TouchAllGet(synonyms: Dict<string, seq<string>>, usedSynonyms: seq<string>, k: string)
    ensures Get(TouchAll(synonyms, usedSynonyms), k)
         == if k in usedSynonyms then Some(GetOr(synonyms, k, [])) else Get(synonyms, k)
    decreases |usedSynonyms|
  {
    if usedSynonyms != [] {
      var n := usedSynonyms[0];
      var d := Put(synonyms, n, GetOr(synonyms, n, []));
      PutGet(synonyms, n, GetOr(synonyms, n, []), k);
      TouchAllGet(d, usedSynonyms[1..], k);
      assert k in usedSynonyms <==> k == n || k in usedSynonyms[1..];
    }
  }

  /** A table that already holds every name is left as it is. */
  lemma {:induction false} TouchAllKeeps(synonyms: Dict<string, seq<string>>, usedSynonyms: seq<string>)
    requires forall n :: n in usedSynonyms ==> n in Keys(synonyms)
    ensures TouchAll(synonyms, usedSynonyms) == synonyms
    decreases |usedSynonyms|
  {
    if usedSynonyms != [] {
      var n := usedSynonyms[0];
      var i := IndexOfKey(synonyms, n);
      assert i != -1 && synonyms[i] == (n, synonyms[i].1);
      assert Put(synonyms, n, GetOr(synonyms, n, [])) == synonyms;
      TouchAllKeeps(synonyms, usedSynonyms[1..]);
    }
  }

  /** Reading the same names a second time changes nothing. */
  lemma TouchAllTwice(synonyms: Dict<string, seq<string>>, usedSynonyms: seq<string>)
    ensures TouchAll(TouchAll(synonyms, usedSynonyms), usedSynonyms) == TouchAll(synonyms, usedSynonyms)
  {
    var d := TouchAll(synonyms, usedSynonyms);
    forall n | n in usedSynonyms ensures n in Keys(d) {
      TouchAllGet(synonyms, usedSynonyms, n);
    }
    TouchAllKeeps(d, usedSynonyms);
  }

  /** The reads see the same lists before and after they stored the missing names. */
  lemma UsedTableTouched(synonyms: Dict<string, seq<string>>, usedSynonyms: seq<string>)
    ensures UsedTable(TouchAll(synonyms, usedSynonyms), usedSynonyms) == UsedTable(synonyms, usedSynonyms)
  {
    var d := TouchAll(synonyms, usedSynonyms);
    forall i | 0 <= i < |usedSynonyms|
      ensures UsedTable(d, usedSynonyms)[i] == UsedTable(synonyms, usedSynonyms)[i]
    {
      TouchAllGet(synonyms, usedSynonyms, usedSynonyms[i]);
    }
  }

  /**
   * The loop of `process` from the `k`-th slot on: the text and the used
   * synonyms it ends with, and the exception that stopped it, if any.
   */
  function Fill(data: seq<SlotData>, combo: seq<nat>, synPicks: seq<nat>, k: nat, text: string,
                used: Dict<string, seq<string>>): (r: (string, Dict<string, seq<string>>, Option<Error>))
    requires |combo| == |data| && |synPicks| == |data| && k <= |data|
    decreases |data| - k
  {
    if k == |data| then (text, used, None)
    else
      match Grammar.Substituted(data[k].choices, data[k].synonyms, data[k].placeholderText, text,
                                Some(combo[k]), 0, synPicks[k])
      case Err(e) => (text, used, Some(e))
      case Ok(t) => Fill(data, combo, synPicks, k + 1, t, Update(used, data[k].used))
  }

  /**
   * A combination drawn from the slots' own ranges never raises IndexError
   * for its index; the loop then fails only on a value whose synonym list
   * is empty.
   */
  lemma {:induction false} FillSucceeds(data: seq<SlotData>, combo: seq<nat>, synPicks: seq<nat>, k: nat, text: string,
                                        used: Dict<string, seq<string>>)
    requires |combo| == |data| && |synPicks| == |data| && k <= |data|
    requires forall i :: 0 <= i < |data| ==> combo[i] < |data[i].choices|
    requires forall i :: 0 <= i < |data| ==> Get(data[i].synonyms, data[i].choices[combo[i]]) != Some([])
    ensures Fill(data, combo, synPicks, k, text, used).2 == None
    decreases |data| - k
  {
    if k < |data| {
      var r := Grammar.Substituted(data[k].choices, data[k].synonyms, data[k].placeholderText, text,
                                   Some(combo[k]), 0, synPicks[k]);
      assert Grammar.ChosenIndex(data[k].choices, Some(combo[k]), 0) == Some(combo[k]);
      FillSucceeds(data, combo, synPicks, k + 1, r.value, Update(used, data[k].used));
    }
  }

  /** The grammars' synonyms tables, by grammar. */
  type Tables = map<Grammar.Grammar, Dict<string, seq<string>>>

  /** What `Effects` follows: the grammars' values, the entities' records and the grammars' synonyms. */
  type Outcome = (map<Grammar.Grammar, Option<string>>, map<Entity.Entity, Entity.Record>, Tables)

  /**
   * What the loop of `process` from the `k`-th slot on leaves in the
   * grammars and in the entities it goes through. Slot `k` sets the `value`
   * of its grammar `gs[k]` whenever its index is in range, even when the
   * synonym lookup then raises, and updates its entity `targets[k]`, if
   * any, as `Entity.Updated` says, with entity value `evs[k]`; when it
   * succeeds, the read of its used synonyms stores their missing names in
   * the grammar's synonyms (`TouchAll`). The loop stops where `Fill` does.
   */
  function Effects(data: seq<SlotData>, gs: seq<Grammar.Grammar>, targets: seq<Option<Entity.Entity>>,
                   combo: seq<nat>, synPicks: seq<nat>, evs: seq<string>, k: nat, text: string,
                   values: map<Grammar.Grammar, Option<string>>, records: map<Entity.Entity, Entity.Record>,
                   tables: Tables): (r: Outcome)
    requires |combo| == |data| && |synPicks| == |data| && |evs| == |data| && k <= |data|
    requires |gs| == |data| && forall i :: 0 <= i < |data| ==> gs[i] in values && gs[i] in tables
    requires |targets| == |data| && forall i :: 0 <= i < |data| && targets[i].Some? ==> targets[i].value in records
    ensures r.0.Keys == values.Keys && r.1.Keys == records.Keys && r.2.Keys == tables.Keys
    decreases |data| - k
  {
    if k == |data| then (values, records, tables)
    else
      var d := data[k];
      var nextValues := SlotValues(values, gs[k], d.choices, combo[k]);
      var nextRecords := SlotRecords(records, targets[k], d.choices, d.synonyms, d.placeholderText, text, combo[k],
                                     synPicks[k], evs[k]);
      match Grammar.Substituted(d.choices, d.synonyms, d.placeholderText, text, Some(combo[k]), 0, synPicks[k])
      case Err(_) => (nextValues, nextRecords, tables)
      case Ok(t) => Effects(data, gs, targets, combo, synPicks, evs, k + 1, t, nextValues, nextRecords,
                            SlotTables(tables, gs[k], d.usedSynonyms))
  }

  /** The grammars' synonyms once those of `g` have been read for `usedSynonyms`. */
  function SlotTables(tables: Tables, g: Grammar.Grammar, usedSynonyms: seq<string>): (r: Tables)
    requires g in tables
    ensures r.Keys == tables.Keys
  {
    tables[g := TouchAll(tables[g], usedSynonyms)]
  }

  /** The choices and the used synonyms of each grammar, which the loop of `process` does not change. */
  type Statics = map<Grammar.Grammar, (seq<string>, seq<string>)>

  /**
   * What each slot reads, from the grammars' synonyms `tables` and their
   * `statics` as they are before the loop. A grammar met at an earlier
   * slot has had its used synonyms read by then, so the slot finds them
   * all stored.
   */
  function DataOf(slots: seq<Slot>, tables: Tables, statics: Statics): (data: seq<SlotData>)
    requires forall j :: 0 <= j < |slots| ==> slots[j].grammar in tables && slots[j].grammar in statics
    ensures |data| == |slots|
  {
    var gs := GrammarsOf(slots);
    seq(|slots|, j requires 0 <= j < |slots| =>
      var g := gs[j];
      var synonyms := if g in gs[..j] then TouchAll(tables[g], statics[g].1) else tables[g];
      SlotData(slots[j].placeholderText, statics[g].0, synonyms, statics[g].1, UsedTable(tables[g], statics[g].1)))
  }

  /**
   * Two placeholders of the same grammar, and a used name with no synonyms
   * key (an entry whose value was an empty list): the first placeholder is
   * replaced by the name itself, and its reads store `[]` under that name,
   * so the second placeholder, choosing the same name, raises IndexError.
   */
  lemma ReusedNameRaises(slots: seq<Slot>, tables: Tables, statics: Statics, idx: nat, text: string, text': string,
                         synPick: nat)
    requires 2 <= |slots| && slots[0].grammar == slots[1].grammar
    requires forall j :: 0 <= j < |slots| ==> slots[j].grammar in tables && slots[j].grammar in statics
    requires var g := slots[0].grammar;
             idx < |statics[g].0| && statics[g].0[idx] in statics[g].1 && statics[g].0[idx] !in Keys(tables[g])
    ensures var g := slots[0].grammar;
            var d := DataOf(slots, tables, statics);
            && Grammar.Substituted(d[0].choices, d[0].synonyms, d[0].placeholderText, text, Some(idx), 0, synPick)
               == Ok(ReplaceAll(text, slots[0].placeholderText, statics[g].0[idx]))
            && Grammar.Substituted(d[1].choices, d[1].synonyms, d[1].placeholderText, text', Some(idx), 0, synPick)
               == Err(IndexError)
  {
    var g, gs := slots[0].grammar, GrammarsOf(slots);
    var n := statics[g].0[idx];
    DataOfReads(slots, tables, statics, 0);
    DataOfReads(slots, tables, statics, 1);
    TablesAtGet(tables, gs, statics, 1, g);
    assert g in gs[..1];
    TouchAllGet(tables[g], statics[g].1, n);
  }

  /** The grammars' synonyms once the first `i` slots have read their used synonyms. */
  function TablesAt(tables: Tables, gs: seq<Grammar.Grammar>, statics: Statics, i: nat): (r: Tables)
    requires i <= |gs| && forall j :: 0 <= j < |gs| ==> gs[j] in tables && gs[j] in statics
    ensures r.Keys == tables.Keys
  {
    if i == 0 then tables else SlotTables(TablesAt(tables, gs, statics, i - 1), gs[i - 1], statics[gs[i - 1]].1)
  }

  /**
   * After the first `i` slots, a grammar one of them used has stored the
   * names of its used synonyms, and any other grammar is as it was.
   */
  lemma {:induction false} TablesAtGet(tables: Tables, gs: seq<Grammar.Grammar>, statics: Statics, i: nat,
                                       g: Grammar.Grammar)
    requires i <= |gs| && forall j :: 0 <= j < |gs| ==> gs[j] in tables && gs[j] in statics
    requires g in tables && g in statics
    ensures TablesAt(tables, gs, statics, i)[g]
         == if g in gs[..i] then TouchAll(tables[g], statics[g].1) else tables[g]
  {
    if i > 0 {
      var h, prev := gs[i - 1], TablesAt(tables, gs, statics, i - 1);
      TablesAtGet(tables, gs, statics, i - 1, g);
      assert TablesAt(tables, gs, statics, i) == prev[h := TouchAll(prev[h], statics[h].1)];
      assert g in gs[..i] <==> g in gs[..i - 1] || g == h by {
        assert gs[..i] == gs[..i - 1] + [h];
      }
      if g == h && g in gs[..i - 1] {
        TouchAllTwice(tables[g], statics[g].1);
      }
    }
  }

  /**
   * Slot `i` finds, in the tables the first `i` slots leave, the synonyms
   * it reads, and its `used` table is read from them.
   */
  lemma DataOfReads(slots: seq<Slot>, tables: Tables, statics: Statics, i: nat)
    requires i < |slots| && forall j :: 0 <= j < |slots| ==> slots[j].grammar in tables && slots[j].grammar in statics
    ensures var g := slots[i].grammar;
            var t := TablesAt(tables, GrammarsOf(slots), statics, i)[g];
            DataOf(slots, tables, statics)[i] == SlotData(slots[i].placeholderText, statics[g].0, t, statics[g].1,
                                                          UsedTable(t, statics[g].1))
  {
    var g := slots[i].grammar;
    TablesAtGet(tables, GrammarsOf(slots), statics, i, g);
    UsedTableTouched(tables[g], statics[g].1);
  }

  /** One slot of `Effects`: the loop moves to the next slot, or stops with what slot `k` wrote. */
  lemma EffectsStep(data: seq<SlotData>, gs: seq<Grammar.Grammar>, targets: seq<Option<Entity.Entity>>,
                    combo: seq<nat>, synPicks: seq<nat>, evs: seq<string>, k: nat, text: string,
                    values: map<Grammar.Grammar, Option<string>>, records: map<Entity.Entity, Entity.Record>,
                    tables: Tables)
    requires |combo| == |data| && |synPicks| == |data| && |evs| == |data| && k < |data|
    requires |gs| == |data| && forall i :: 0 <= i < |data| ==> gs[i] in values && gs[i] in tables
    requires |targets| == |data| && forall i :: 0 <= i < |data| && targets[i].Some? ==> targets[i].value in records
    ensures var d := data[k];
            var r := Grammar.Substituted(d.choices, d.synonyms, d.placeholderText, text, Some(combo[k]), 0, synPicks[k]);
            var nextValues := SlotValues(values, gs[k], d.choices, combo[k]);
            var nextRecords := SlotRecords(records, targets[k], d.choices, d.synonyms, d.placeholderText, text, combo[k],
                                           synPicks[k], evs[k]);
            Effects(data, gs, targets, combo, synPicks, evs, k, text, values, records, tables)
              == if r.Err? then (nextValues, nextRecords, tables)
                 else Effects(data, gs, targets, combo, synPicks, evs, k + 1, r.value, nextValues, nextRecords,
                              SlotTables(tables, gs[k], d.usedSynonyms))
  {
  }

  /**
   * One slot of `process()` in terms of `Fill` and `Effects` together: what
   * slot `k` does either ends both, or leaves both to the next slot.
   */
  lemma Advance(data: seq<SlotData>, gs: seq<Grammar.Grammar>, targets: seq<Option<Entity.Entity>>,
                combo: seq<nat>, synPicks: seq<nat>, evs: seq<string>, k: nat, text: string,
                used: Dict<string, seq<string>>,
                values: map<Grammar.Grammar, Option<string>>, records: map<Entity.Entity, Entity.Record>,
                tables: Tables, filled: (string, Dict<string, seq<string>>, Option<Error>), effects: Outcome)
    requires |combo| == |data| && |synPicks| == |data| && |evs| == |data| && k < |data|
    requires |gs| == |data| && forall i :: 0 <= i < |data| ==> gs[i] in values && gs[i] in tables
    requires |targets| == |data| && forall i :: 0 <= i < |data| && targets[i].Some? ==> targets[i].value in records
    requires Fill(data, combo, synPicks, k, text, used) == filled
    requires Effects(data, gs, targets, combo, synPicks, evs, k, text, values, records, tables) == effects
    ensures var d := data[k];
            var r := Grammar.Substituted(d.choices, d.synonyms, d.placeholderText, text, Some(combo[k]), 0, synPicks[k]);
            var nextValues := SlotValues(values, gs[k], d.choices, combo[k]);
            var nextRecords := SlotRecords(records, targets[k], d.choices, d.synonyms, d.placeholderText, text, combo[k],
                                           synPicks[k], evs[k]);
            if r.Err? then (text, used, Some(r.error)) == filled && (nextValues, nextRecords, tables) == effects
            else Fill(data, combo, synPicks, k + 1, r.value, Update(used, d.used)) == filled
                 && Effects(data, gs, targets, combo, synPicks, evs, k + 1, r.value, nextValues, nextRecords,
                            SlotTables(tables, gs[k], d.usedSynonyms)) == effects
  {
    EffectsStep(data, gs, targets, combo, synPicks, evs, k, text, values, records, tables);
  }

  /**
   * The sizes and keys under which `Fill` and `Effects` are defined for the
   * slots `data`: one grammar, target, index, synonym pick and entity value
   * per slot, and every grammar and target known to the tables.
   */
  ghost predicate Fits(data: seq<SlotData>, gs: seq<Grammar.Grammar>, targets: seq<Option<Entity.Entity>>,
                       combo: seq<nat>, synPicks: seq<nat>, evs: seq<string>,
                       values: map<Grammar.Grammar, Option<string>>, records: map<Entity.Entity, Entity.Record>,
                       tables: Tables, statics: Statics)
  {
    && |combo| == |data| && |synPicks| == |data| && |evs| == |data| && |gs| == |data| && |targets| == |data|
    && (forall j :: 0 <= j < |data| ==> gs[j] in values && gs[j] in tables && gs[j] in statics)
    && (forall j :: 0 <= j < |data| && targets[j].Some? ==> targets[j].value in records)
  }

  /**
   * The loop of `process()` before slot `i`, over values: the state reached
   * (`text`, `used`, `values`, `records`, `now`) ends, by `Fill` and
   * `Effects`, in `filled` and `effects`, and the synonym tables hold what
   * reading the first `i` slots' used synonyms stored; once `err` is set the
   * loop has ended in that state.
   */
  ghost predicate Tracked(data: seq<SlotData>, gs: seq<Grammar.Grammar>, targets: seq<Option<Entity.Entity>>,
                          combo: seq<nat>, synPicks: seq<nat>, evs: seq<string>, tables: Tables, statics: Statics,
                          i: nat, text: string, used: Dict<string, seq<string>>,
                          values: map<Grammar.Grammar, Option<string>>, records: map<Entity.Entity, Entity.Record>,
                          now: Tables, filled: (string, Dict<string, seq<string>>, Option<Error>), effects: Outcome,
                          err: Option<Error>)
  {
    && i <= |data| && Fits(data, gs, targets, combo, synPicks, evs, values, records, tables, statics)
    && (err.None? ==>
          && now == TablesAt(tables, gs, statics, i)
          && Fill(data, combo, synPicks, i, text, used) == filled
          && Effects(data, gs, targets, combo, synPicks, evs, i, text, values, records, now) == effects)
    && (err.Some? ==> (text, used, err) == filled && (values, records, now) == effects)
  }

  /**
   * One iteration of the loop keeps `Tracked`: slot `i` either raises, which
   * ends the loop with only its grammar's value and its entity changed, or
   * fills the text, merges the slot's used synonyms and stores them in its
   * grammar's table.
   */
  lemma TrackedStep(data: seq<SlotData>, gs: seq<Grammar.Grammar>, targets: seq<Option<Entity.Entity>>,
                    combo: seq<nat>, synPicks: seq<nat>, evs: seq<string>, tables: Tables, statics: Statics,
                    i: nat, text: string, used: Dict<string, seq<string>>,
                    values: map<Grammar.Grammar, Option<string>>, records: map<Entity.Entity, Entity.Record>,
                    now: Tables, filled: (string, Dict<string, seq<string>>, Option<Error>), effects: Outcome)
    requires i < |data| && Tracked(data, gs, targets, combo, synPicks, evs, tables, statics, i, text, used,
                                   values, records, now, filled, effects, None)
    requires data[i].usedSynonyms == statics[gs[i]].1
    ensures var d := data[i];
            var r := Grammar.Substituted(d.choices, d.synonyms, d.placeholderText, text, Some(combo[i]), 0, synPicks[i]);
            var nextValues := SlotValues(values, gs[i], d.choices, combo[i]);
            var nextRecords := SlotRecords(records, targets[i], d.choices, d.synonyms, d.placeholderText, text,
                                           combo[i], synPicks[i], evs[i]);
            if r.Err? then
              Tracked(data, gs, targets, combo, synPicks, evs, tables, statics, i + 1, text, used,
                      nextValues, nextRecords, now, filled, effects, Some(r.error))
            else
              Tracked(data, gs, targets, combo, synPicks, evs, tables, statics, i + 1, r.value,
                      Update(used, d.used), nextValues, nextRecords, SlotTables(now, gs[i], d.usedSynonyms),
                      filled, effects, None)
  {
    Advance(data, gs, targets, combo, synPicks, evs, i, text, used, values, records, now, filled, effects);
  }

  /** The grammars' values once grammar `g` has been updated with `index`. */
  function SlotValues(values: map<Grammar.Grammar, Option<string>>, g: Grammar.Grammar, choices: seq<string>,
                      index: nat): (r: map<Grammar.Grammar, Option<string>>)
    ensures r.Keys == values.Keys + {g} || r == values
  {
    var c := Grammar.ChosenIndex(choices, Some(index), 0);
    if c.Some? then values[g := Some(choices[c.value])] else values
  }

  /** The entities once `target`, if any, has been updated with `index`. */
  function SlotRecords(records: map<Entity.Entity, Entity.Record>, target: Option<Entity.Entity>,
                       choices: seq<string>, synonyms: Dict<string, seq<string>>, placeholderText: string,
                       text: string, index: nat, synPick: nat, entityValue: string)
    : (r: map<Entity.Entity, Entity.Record>)
    requires target.Some? ==> target.value in records
    ensures r.Keys == records.Keys
  {
    match target
    case None => records
    case Some(e) =>
      records[e := Entity.Updated(records[e], choices, synonyms, placeholderText, text, Some(index), 0, synPick,
                                  entityValue)]
  }

  /** The last position from `k` on that holds `x`, or -1. */
  function LastFrom<T(==)>(xs: seq<T>, x: T, k: nat): (j: int)
    requires k <= |xs|
    ensures j == -1 <==> forall i :: k <= i < |xs| ==> xs[i] != x
    ensures j != -1 ==> k <= j < |xs| && xs[j] == x && forall i :: j < i < |xs| ==> xs[i] != x
    decreases |xs| - k
  {
    if k == |xs| then -1
    else if LastFrom(xs, x, k + 1) != -1 then LastFrom(xs, x, k + 1)
    else if xs[k] == x then k
    else -1
  }

  /**
   * When the loop runs to the end, each grammar holds the choice of the
   * last slot that used it, and a grammar no slot used keeps its value.
   */
  lemma {:induction false} EffectsValues(data: seq<SlotData>, gs: seq<Grammar.Grammar>,
                                         targets: seq<Option<Entity.Entity>>, combo: seq<nat>, synPicks: seq<nat>,
                                         evs: seq<string>, k: nat, text: string, used: Dict<string, seq<string>>,
                                         values: map<Grammar.Grammar, Option<string>>,
                                         records: map<Entity.Entity, Entity.Record>, tables: Tables)
    requires |combo| == |data| && |synPicks| == |data| && |evs| == |data| && k <= |data|
    requires |gs| == |data| && forall i :: 0 <= i < |data| ==> gs[i] in values && gs[i] in tables
    requires |targets| == |data| && forall i :: 0 <= i < |data| && targets[i].Some? ==> targets[i].value in records
    requires Fill(data, combo, synPicks, k, text, used).2 == None
    ensures forall g :: g in values ==>
              ValueFilled(values[g], Effects(data, gs, targets, combo, synPicks, evs, k, text, values, records, tables).0[g],
                          data, combo, LastFrom(gs, g, k))
    decreases |data| - k
  {
    if k < |data| {
      var d := data[k];
      var t := Grammar.Substituted(d.choices, d.synonyms, d.placeholderText, text, Some(combo[k]), 0, synPicks[k]);
      assert t.Ok?;
      var c := Grammar.ChosenIndex(d.choices, Some(combo[k]), 0);
      assert c == Some(combo[k]);
      var nextValues := SlotValues(values, gs[k], d.choices, combo[k]);
      var nextRecords := SlotRecords(records, targets[k], d.choices, d.synonyms, d.placeholderText, text, combo[k],
                                     synPicks[k], evs[k]);
      assert Effects(data, gs, targets, combo, synPicks, evs, k, text, values, records, tables)
          == Effects(data, gs, targets, combo, synPicks, evs, k + 1, t.value, nextValues, nextRecords,
                     SlotTables(tables, gs[k], d.usedSynonyms));
      EffectsValues(data, gs, targets, combo, synPicks, evs, k + 1, t.value, Update(used, d.used),
                    nextValues, nextRecords, SlotTables(tables, gs[k], d.usedSynonyms));
    }
  }

  /**
   * The value of a grammar after the loop, from its value `before`: that of
   * slot `j`, the last slot of the grammar, or unchanged when `j` is -1.
   */
  ghost predicate ValueFilled(before: Option<string>, after: Option<string>, data: seq<SlotData>, combo: seq<nat>,
                              j: int)
  {
    && (j == -1 ==> after == before)
    && (j != -1 ==> && 0 <= j < |data| && j < |combo| && combo[j] < |data[j].choices|
                    && after == Some(data[j].choices[combo[j]]))
  }

  /**
   * The record of an entity after the loop, from its record `before`: the
   * value and entity value of slot `j`, the last slot through the entity,
   * with a span as long as the value, or unchanged when `j` is -1; its used
   * synonyms only grow.
   */
  ghost predicate EntityFilled(before: Entity.Record, after: Entity.Record, data: seq<SlotData>, combo: seq<nat>,
                               evs: seq<string>, j: int)
  {
    && before.usedSynonyms <= after.usedSynonyms
    && (j == -1 ==> after == before)
    && (j != -1 ==> && 0 <= j < |data| && j < |combo| && j < |evs| && combo[j] < |data[j].choices|
                    && after.value == Some(data[j].choices[combo[j]])
                    && after.entityValue == Some(evs[j])
                    && after.end == after.start + |data[j].choices[combo[j]]|)
  }

  /**
   * When the loop runs to the end, each entity holds the chosen value and
   * the entity value of the last slot that went through it, with a span as
   * long as that value, and its used synonyms only grow; an entity no slot
   * went through is unchanged.
   */
  lemma {:induction false} EffectsRecords(data: seq<SlotData>, gs: seq<Grammar.Grammar>,
                                          targets: seq<Option<Entity.Entity>>, combo: seq<nat>, synPicks: seq<nat>,
                                          evs: seq<string>, k: nat, text: string, used: Dict<string, seq<string>>,
                                          values: map<Grammar.Grammar, Option<string>>,
                                          records: map<Entity.Entity, Entity.Record>, tables: Tables)
    requires |combo| == |data| && |synPicks| == |data| && |evs| == |data| && k <= |data|
    requires |gs| == |data| && forall i :: 0 <= i < |data| ==> gs[i] in values && gs[i] in tables
    requires |targets| == |data| && forall i :: 0 <= i < |data| && targets[i].Some? ==> targets[i].value in records
    requires Fill(data, combo, synPicks, k, text, used).2 == None
    ensures forall e :: e in records ==>
              EntityFilled(records[e], Effects(data, gs, targets, combo, synPicks, evs, k, text, values, records, tables).1[e],
                           data, combo, evs, LastFrom(targets, Some(e), k))
    decreases |data| - k
  {
    if k < |data| {
      var d := data[k];
      var t := Grammar.Substituted(d.choices, d.synonyms, d.placeholderText, text, Some(combo[k]), 0, synPicks[k]);
      assert t.Ok?;
      var c := Grammar.ChosenIndex(d.choices, Some(combo[k]), 0);
      assert c == Some(combo[k]);
      var nextValues := SlotValues(values, gs[k], d.choices, combo[k]);
      var nextRecords := SlotRecords(records, targets[k], d.choices, d.synonyms, d.placeholderText, text, combo[k],
                                     synPicks[k], evs[k]);
      var nextTables := SlotTables(tables, gs[k], d.usedSynonyms);
      EffectsRecords(data, gs, targets, combo, synPicks, evs, k + 1, t.value, Update(used, d.used),
                     nextValues, nextRecords, nextTables);
      RecordsStep(data, gs, targets, combo, synPicks, evs, k, text, values, records, tables);
    }
  }

  /** `EffectsRecords` at slot `k`, from the same at slot `k + 1`. */
  lemma RecordsStep(data: seq<SlotData>, gs: seq<Grammar.Grammar>, targets: seq<Option<Entity.Entity>>,
                    combo: seq<nat>, synPicks: seq<nat>, evs: seq<string>, k: nat, text: string,
                    values: map<Grammar.Grammar, Option<string>>, records: map<Entity.Entity, Entity.Record>,
                    tables: Tables)
    requires |combo| == |data| && |synPicks| == |data| && |evs| == |data| && k < |data|
    requires |gs| == |data| && forall i :: 0 <= i < |data| ==> gs[i] in values && gs[i] in tables
    requires |targets| == |data| && forall i :: 0 <= i < |data| && targets[i].Some? ==> targets[i].value in records
    requires Grammar.Substituted(data[k].choices, data[k].synonyms, data[k].placeholderText, text, Some(combo[k]), 0,
                                 synPicks[k]).Ok?
    requires var d := data[k];
             var t := Grammar.Substituted(d.choices, d.synonyms, d.placeholderText, text, Some(combo[k]), 0, synPicks[k]);
             var nextValues := SlotValues(values, gs[k], d.choices, combo[k]);
             var nextRecords := SlotRecords(records, targets[k], d.choices, d.synonyms, d.placeholderText, text, combo[k],
                                            synPicks[k], evs[k]);
             var nextTables := SlotTables(tables, gs[k], d.usedSynonyms);
             forall e :: e in nextRecords ==>
               EntityFilled(nextRecords[e],
                            Effects(data, gs, targets, combo, synPicks, evs, k + 1, t.value, nextValues, nextRecords,
                                    nextTables).1[e],
                            data, combo, evs, LastFrom(targets, Some(e), k + 1))
    ensures forall e :: e in records ==>
              EntityFilled(records[e], Effects(data, gs, targets, combo, synPicks, evs, k, text, values, records, tables).1[e],
                           data, combo, evs, LastFrom(targets, Some(e), k))
  {
    var d := data[k];
    var t := Grammar.Substituted(d.choices, d.synonyms, d.placeholderText, text, Some(combo[k]), 0, synPicks[k]);
    var nextValues := SlotValues(values, gs[k], d.choices, combo[k]);
    var nextRecords := SlotRecords(records, targets[k], d.choices, d.synonyms, d.placeholderText, text, combo[k],
                                   synPicks[k], evs[k]);
    var nextTables := SlotTables(tables, gs[k], d.usedSynonyms);
    EffectsStep(data, gs, targets, combo, synPicks, evs, k, text, values, records, tables);
    var after := Effects(data, gs, targets, combo, synPicks, evs, k + 1, t.value, nextValues, nextRecords, nextTables);
    EntitiesFilledStep(data, combo, synPicks, evs, targets, k, text, records, nextRecords, after.1);
  }

  /** Slots of the same grammar read the same used synonyms. */
  ghost predicate SameUsed(data: seq<SlotData>, gs: seq<Grammar.Grammar>)
  {
    && |gs| == |data|
    && forall a, b :: 0 <= a < |gs| && 0 <= b < |gs| && gs[a] == gs[b] ==> data[a].usedSynonyms == data[b].usedSynonyms
  }

  /**
   * When the loop runs to the end, the synonyms of each grammar some slot
   * used hold every name of its used synonyms, those it lacked stored with
   * `[]`; the synonyms of a grammar no slot used are unchanged.
   */
  lemma {:induction false} EffectsTables(data: seq<SlotData>, gs: seq<Grammar.Grammar>,
                                         targets: seq<Option<Entity.Entity>>, combo: seq<nat>, synPicks: seq<nat>,
                                         evs: seq<string>, k: nat, text: string, used: Dict<string, seq<string>>,
                                         values: map<Grammar.Grammar, Option<string>>,
                                         records: map<Entity.Entity, Entity.Record>, tables: Tables)
    requires |combo| == |data| && |synPicks| == |data| && |evs| == |data| && k <= |data|
    requires |gs| == |data| && forall i :: 0 <= i < |data| ==> gs[i] in values && gs[i] in tables
    requires |targets| == |data| && forall i :: 0 <= i < |data| && targets[i].Some? ==> targets[i].value in records
    requires SameUsed(data, gs)
    requires Fill(data, combo, synPicks, k, text, used).2 == None
    ensures forall g :: g in tables ==>
              Effects(data, gs, targets, combo, synPicks, evs, k, text, values, records, tables).2[g]
                == if LastFrom(gs, g, k) == -1 then tables[g]
                   else TouchAll(tables[g], data[LastFrom(gs, g, k)].usedSynonyms)
    decreases |data| - k
  {
    if k < |data| {
      var d := data[k];
      var t := Grammar.Substituted(d.choices, d.synonyms, d.placeholderText, text, Some(combo[k]), 0, synPicks[k]);
      assert t.Ok?;
      var nextValues := SlotValues(values, gs[k], d.choices, combo[k]);
      var nextRecords := SlotRecords(records, targets[k], d.choices, d.synonyms, d.placeholderText, text, combo[k],
                                     synPicks[k], evs[k]);
      var next := SlotTables(tables, gs[k], d.usedSynonyms);
      var after := Effects(data, gs, targets, combo, synPicks, evs, k + 1, t.value, nextValues, nextRecords, next);
      assert Effects(data, gs, targets, combo, synPicks, evs, k, text, values, records, tables) == after;
      EffectsTables(data, gs, targets, combo, synPicks, evs, k + 1, t.value, Update(used, d.used),
                    nextValues, nextRecords, next);
      forall g | g in tables
        ensures after.2[g] == if LastFrom(gs, g, k) == -1 then tables[g]
                              else TouchAll(tables[g], data[LastFrom(gs, g, k)].usedSynonyms)
      {
        if g == gs[k] && LastFrom(gs, g, k + 1) != -1 {
          TouchAllTwice(tables[g], d.usedSynonyms);
        }
      }
    }
  }

  /** `EntityFilledStep` for every entity. */
  lemma EntitiesFilledStep(data: seq<SlotData>, combo: seq<nat>, synPicks: seq<nat>, evs: seq<string>,
                           targets: seq<Option<Entity.Entity>>, k: nat, text: string,
                           records: map<Entity.Entity, Entity.Record>, mid: map<Entity.Entity, Entity.Record>,
                           after: map<Entity.Entity, Entity.Record>)
    requires |combo| == |data| && |synPicks| == |data| && |evs| == |data| && |targets| == |data| && k < |data|
    requires Grammar.Substituted(data[k].choices, data[k].synonyms, data[k].placeholderText, text, Some(combo[k]), 0,
                                 synPicks[k]).Ok?
    requires targets[k].Some? ==> targets[k].value in records
    requires mid == SlotRecords(records, targets[k], data[k].choices, data[k].synonyms, data[k].placeholderText, text,
                                combo[k], synPicks[k], evs[k])
    requires after.Keys == records.Keys
    requires forall e :: e in records ==> EntityFilled(mid[e], after[e], data, combo, evs, LastFrom(targets, Some(e), k + 1))
    ensures forall e :: e in records ==> EntityFilled(records[e], after[e], data, combo, evs, LastFrom(targets, Some(e), k))
  {
    forall e | e in records
      ensures EntityFilled(records[e], after[e], data, combo, evs, LastFrom(targets, Some(e), k))
    {
      EntityFilledStep(data, combo, synPicks, evs, targets, k, text, e, records[e], mid[e], after[e]);
    }
  }

  /**
   * Slot `k` followed by the rest of the loop, for one entity `e`: its record
   * `mid` after slot `k`, then `after` at the end.
   */
  lemma EntityFilledStep(data: seq<SlotData>, combo: seq<nat>, synPicks: seq<nat>, evs: seq<string>,
                         targets: seq<Option<Entity.Entity>>, k: nat, text: string, e: Entity.Entity,
                         before: Entity.Record, mid: Entity.Record, after: Entity.Record)
    requires |combo| == |data| && |synPicks| == |data| && |evs| == |data| && |targets| == |data| && k < |data|
    requires Grammar.Substituted(data[k].choices, data[k].synonyms, data[k].placeholderText, text, Some(combo[k]), 0,
                                 synPicks[k]).Ok?
    requires mid == if targets[k] == Some(e)
                    then Entity.Updated(before, data[k].choices, data[k].synonyms, data[k].placeholderText, text,
                                        Some(combo[k]), 0, synPicks[k], evs[k])
                    else before
    requires EntityFilled(mid, after, data, combo, evs, LastFrom(targets, Some(e), k + 1))
    ensures EntityFilled(before, after, data, combo, evs, LastFrom(targets, Some(e), k))
  {
    var d := data[k];
    assert Grammar.ChosenIndex(d.choices, Some(combo[k]), 0) == Some(combo[k]);
    assert before.usedSynonyms <= mid.usedSynonyms;
  }

  /** The index of the last entity named `n`, or -1: `{e.name: e for e in entities}[n]`. */
  function LastNamed(entities: seq<Entity.Entity>, n: string): (i: int)
    ensures -1 <= i < |entities|
    ensures i == -1 <==> forall j :: 0 <= j < |entities| ==> entities[j].name != n
    ensures i != -1 ==> entities[i].name == n && forall j :: i < j < |entities| ==> entities[j].name != n
  {
    if entities == [] then -1
    else if entities[|entities| - 1].name == n then |entities| - 1
    else LastNamed(entities[..|entities| - 1], n)
  }

  /** `{name: count}` built in order from `(name, count)` pairs. */
  function Counts(sizes: seq<(string, nat)>): map<string, nat>
  {
    if sizes == [] then map[] else Counts(sizes[..|sizes| - 1])[sizes[|sizes| - 1].0 := sizes[|sizes| - 1].1]
  }

  /** The keys of `Counts(sizes)` are exactly the names of `sizes`. */
  lemma {:induction false} CountsKeys(sizes: seq<(string, nat)>)
    ensures forall n :: n in Counts(sizes) <==> exists i :: 0 <= i < |sizes| && sizes[i].0 == n
  {
    if sizes != [] {
      var init := sizes[..|sizes| - 1];
      var last := sizes[|sizes| - 1];
      CountsKeys(init);
      forall n ensures n in Counts(sizes) <==> exists i :: 0 <= i < |sizes| && sizes[i].0 == n {
        if n in Counts(init) {
          var i :| 0 <= i < |init| && init[i].0 == n;
          assert sizes[i].0 == n;
        }
        if n != last.0 && exists i :: 0 <= i < |sizes| && sizes[i].0 == n {
          var i :| 0 <= i < |sizes| && sizes[i].0 == n;
          assert i < |init| && init[i].0 == n;
        }
      }
    }
  }

  /** Each name holds the count of its last occurrence in `sizes`. */
  lemma {:induction false} CountsLastWins(sizes: seq<(string, nat)>)
    ensures forall i :: 0 <= i < |sizes| && (forall j :: i < j < |sizes| ==> sizes[j].0 != sizes[i].0) ==>
              sizes[i].0 in Counts(sizes) && Counts(sizes)[sizes[i].0] == sizes[i].1
  {
    if sizes != [] {
      var init := sizes[..|sizes| - 1];
      CountsLastWins(init);
      forall i | 0 <= i < |sizes| && (forall j :: i < j < |sizes| ==> sizes[j].0 != sizes[i].0)
        ensures sizes[i].0 in Counts(sizes) && Counts(sizes)[sizes[i].0] == sizes[i].1
      {
        if i < |init| {
          assert sizes[i] == init[i];
          forall j | i < j < |init| ensures init[j].0 != init[i].0 {
            assert sizes[j] == init[j];
          }
        }
      }
    }
  }

  /** Counting grammars by name: the keys are exactly the names of the grammars. */
  lemma CountsNames(gs: seq<Grammar.Grammar>, sizes: seq<(string, nat)>)
    requires |sizes| == |gs| && forall i :: 0 <= i < |gs| ==> sizes[i].0 == gs[i].name
    ensures forall n :: n in Counts(sizes) <==> exists g :: g in gs && g.name == n
  {
    CountsKeys(sizes);
    forall n ensures n in Counts(sizes) <==> exists g :: g in gs && g.name == n {
      if n in Counts(sizes) {
        var i :| 0 <= i < |sizes| && sizes[i].0 == n;
        assert gs[i] in gs && gs[i].name == n;
      }
      if exists g :: g in gs && g.name == n {
        var g :| g in gs && g.name == n;
        var i :| 0 <= i < |gs| && gs[i] == g;
        assert sizes[i].0 == n;
      }
    }
  }

  /** Concatenation regroups freely. */
  lemma Assoc<T>(a: seq<T>, b: seq<T>, c: seq<T>)
    ensures (a + b) + c == a + (b + c)
  {
  }

  /** The grammar of each entity, in order. */
  function GrammarsOfEntities(es: seq<Entity.Entity>): (gs: seq<Grammar.Grammar>)
    ensures |gs| == |es| && forall k :: 0 <= k < |es| ==> gs[k] == es[k].grammar
  {
    seq(|es|, k requires 0 <= k < |es| => es[k].grammar)
  }

  /**
   * One index per placeholder, and for each entity placeholder an entity of
   * that name whose grammar is the placeholder's own.
   */
  ghost predicate Consistent(combination: seq<nat>, placeholders: seq<Slot>, entities: seq<Entity.Entity>)
  {
    |combination| == |placeholders| && EntitiesFound(placeholders, entities)
  }

  /** Each entity placeholder finds, by name, an entity whose grammar is the placeholder's own. */
  ghost predicate EntitiesFound(placeholders: seq<Slot>, entities: seq<Entity.Entity>)
  {
    forall i :: 0 <= i < |placeholders| && placeholders[i].grammar.isEntity ==>
      && LastNamed(entities, placeholders[i].grammar.name) != -1
      && entities[LastNamed(entities, placeholders[i].grammar.name)].grammar == placeholders[i].grammar
  }

  /**
   * The grammars and entities once the slots are recorded: the grammar of
   * each plain slot appended to `oldGrammars`, and one entity per entity
   * slot, wrapping its grammar, appended to `oldEntities`.
   */
  ghost predicate SlotsAdded(slots: seq<Slot>, oldGrammars: seq<Grammar.Grammar>, grammars: seq<Grammar.Grammar>,
                             oldEntities: seq<Entity.Entity>, entities: seq<Entity.Entity>)
  {
    && grammars == oldGrammars + PlainGrammars(slots)
    && |oldEntities| <= |entities| && entities[..|oldEntities|] == oldEntities
    && GrammarsOfEntities(entities) == GrammarsOfEntities(oldEntities) + EntityGrammars(slots)
  }

  /** Each grammar of the intent is registered under its own name. */
  ghost predicate KeyedByName(grammars: map<string, Grammar.Grammar>)
  {
    forall k :: k in grammars ==> grammars[k].name == k
  }

  /** The entities from the `n`-th on carry the names of their grammars, as `Entity(grammar)` sets them. */
  ghost predicate NamedFrom(entities: seq<Entity.Entity>, n: nat)
  {
    forall k :: n <= k < |entities| ==> entities[k].name == entities[k].grammar.name
  }

  /** With grammars registered under their names, two slots whose grammars share a name share the grammar. */
  lemma ResolvedKeyed(toks: seq<string>, grammars: map<string, Grammar.Grammar>, nameOf: string -> string)
    requires KeyedByName(grammars)
    ensures var slots := Resolved(toks, grammars, nameOf);
            forall i, j :: 0 <= i < |slots| && 0 <= j < |slots| && slots[i].grammar.name == slots[j].grammar.name ==>
              slots[i].grammar == slots[j].grammar
  {
  }

  /**
   * The placeholders `slots`, just resolved, with the entities made for them
   * appended to `oldEntities`: each entity slot finds, by name, an entity
   * wrapping its own grammar.
   */
  lemma SlotsFound(slots: seq<Slot>, oldEntities: seq<Entity.Entity>, entities: seq<Entity.Entity>)
    requires |oldEntities| <= |entities|
    requires GrammarsOfEntities(entities) == GrammarsOfEntities(oldEntities) + EntityGrammars(slots)
    requires NamedFrom(entities, |oldEntities|)
    requires forall i, j :: 0 <= i < |slots| && 0 <= j < |slots| && slots[i].grammar.name == slots[j].grammar.name ==>
               slots[i].grammar == slots[j].grammar
    ensures EntitiesFound(slots, entities)
  {
    forall i | 0 <= i < |slots| && slots[i].grammar.isEntity
      ensures LastNamed(entities, slots[i].grammar.name) != -1
      ensures entities[LastNamed(entities, slots[i].grammar.name)].grammar == slots[i].grammar
    {
      SlotFound(slots, oldEntities, entities, i);
    }
  }

  /** `SlotsFound` for the entity slot `i`. */
  lemma SlotFound(slots: seq<Slot>, oldEntities: seq<Entity.Entity>, entities: seq<Entity.Entity>, i: nat)
    requires |oldEntities| <= |entities|
    requires GrammarsOfEntities(entities) == GrammarsOfEntities(oldEntities) + EntityGrammars(slots)
    requires NamedFrom(entities, |oldEntities|)
    requires forall i, j :: 0 <= i < |slots| && 0 <= j < |slots| && slots[i].grammar.name == slots[j].grammar.name ==>
               slots[i].grammar == slots[j].grammar
    requires i < |slots| && slots[i].grammar.isEntity
    ensures LastNamed(entities, slots[i].grammar.name) != -1
    ensures entities[LastNamed(entities, slots[i].grammar.name)].grammar == slots[i].grammar
  {
    var g := slots[i].grammar;
    var k := EntityOfSlot(slots, oldEntities, entities, i);
    var last := LastNamed(entities, g.name);
    assert last != -1 && k <= last;
    var j := SlotOfEntity(slots, oldEntities, entities, last);
    assert slots[j].grammar.name == g.name;
  }

  /** The entity made for the entity slot `i`, at some position `k` past `oldEntities`. */
  lemma EntityOfSlot(slots: seq<Slot>, oldEntities: seq<Entity.Entity>, entities: seq<Entity.Entity>, i: nat)
    returns (k: nat)
    requires GrammarsOfEntities(entities) == GrammarsOfEntities(oldEntities) + EntityGrammars(slots)
    requires NamedFrom(entities, |oldEntities|)
    requires i < |slots| && slots[i].grammar.isEntity
    ensures |oldEntities| <= k < |entities| && entities[k].grammar == slots[i].grammar
    ensures entities[k].name == slots[i].grammar.name
  {
    var m := EntityGrammarIn(slots, i);
    k := |oldEntities| + m;
    assert GrammarsOfEntities(entities)[k] == EntityGrammars(slots)[m];
  }

  /** Each entity past `oldEntities` wraps the grammar of some slot `j`. */
  lemma SlotOfEntity(slots: seq<Slot>, oldEntities: seq<Entity.Entity>, entities: seq<Entity.Entity>, k: nat)
    returns (j: nat)
    requires GrammarsOfEntities(entities) == GrammarsOfEntities(oldEntities) + EntityGrammars(slots)
    requires |oldEntities| <= k < |entities|
    ensures j < |slots| && slots[j].grammar == entities[k].grammar
  {
    assert GrammarsOfEntities(entities)[k] == EntityGrammars(slots)[k - |oldEntities|];
    j := EntityGrammarFrom(slots, k - |oldEntities|);
  }

  /** The grammar of an entity slot is in `EntityGrammars`, at position `m`. */
  lemma {:induction false} EntityGrammarIn(slots: seq<Slot>, i: nat) returns (m: nat)
    requires i < |slots| && slots[i].grammar.isEntity
    ensures m < |EntityGrammars(slots)| && EntityGrammars(slots)[m] == slots[i].grammar
    decreases |slots|
  {
    var head := if slots[0].grammar.isEntity then [slots[0].grammar] else [];
    assert EntityGrammars(slots) == head + EntityGrammars(slots[1..]);
    if i == 0 {
      m := 0;
    } else {
      assert slots[1..][i - 1] == slots[i];
      m := EntityGrammarIn(slots[1..], i - 1);
      m := |head| + m;
    }
  }

  /** Each element of `EntityGrammars` is the grammar of some slot. */
  lemma {:induction false} EntityGrammarFrom(slots: seq<Slot>, m: nat) returns (j: nat)
    requires m < |EntityGrammars(slots)|
    ensures j < |slots| && slots[j].grammar == EntityGrammars(slots)[m]
    decreases |slots|
  {
    var head := if slots[0].grammar.isEntity then [slots[0].grammar] else [];
    assert EntityGrammars(slots) == head + EntityGrammars(slots[1..]);
    if m < |head| {
      j := 0;
    } else {
      j := EntityGrammarFrom(slots[1..], m - |head|);
      assert slots[1..][j] == slots[j + 1];
      j := j + 1;
    }
  }

  /**
   * The draw of `find_unused_combination` over `values`: IndexError when some
   * list is empty, leaving the combination `before` as it was; otherwise the
   * first draw, appended as a set to `parentUsed[key]`, or AttributeError when
   * there is no such table.
   */
  ghost predicate Drawn(values: seq<seq<nat>>, pick: (nat, nat) -> nat, key: string,
                        parentUsed: Option<Dict<string, seq<set<nat>>>>, before: seq<nat>, combination: seq<nat>,
                        err: Option<Error>, usedAfter: Option<Dict<string, seq<set<nat>>>>)
  {
    && (!NonEmptyLists(values) ==> err == Some(IndexError) && combination == before && usedAfter == parentUsed)
    && (NonEmptyLists(values) ==>
          && combination == Draw(values, pick, 0)
          && (parentUsed.None? ==> err == Some(AttributeError) && usedAfter == None)
          && (parentUsed.Some? ==>
                && err == None
                && usedAfter == Some(Put(parentUsed.value, key, GetOr(parentUsed.value, key, []) + [AsSet(combination)]))))
  }

  /**
   * What `find_unused_combination` leaves, from `oldValues`, `oldPlaceholders`
   * and `oldCombination`: on the first call (no values yet) the slots of the
   * tokens `toks`, or KeyError with an empty value list when a token has no
   * grammar; then, unless KeyError was raised, the draw of `Drawn` over the
   * values, recorded under `key`.
   */
  ghost predicate Found(toks: seq<string>, slots: seq<Slot>, values: seq<seq<nat>>, nameOf: string -> string,
                        pick: (nat, nat) -> nat, key: string, parentUsed: Option<Dict<string, seq<set<nat>>>>,
                        oldValues: Option<seq<seq<nat>>>, grammarValues: Option<seq<seq<nat>>>,
                        oldPlaceholders: seq<Slot>, placeholders: seq<Slot>, oldCombination: seq<nat>,
                        combination: seq<nat>, err: Option<Error>, usedAfter: Option<Dict<string, seq<set<nat>>>>)
  {
    && (oldValues.Some? ==> grammarValues == oldValues && placeholders == oldPlaceholders)
    && (oldValues.None? && |slots| < |toks| ==>
          && err == Some(KeyError(nameOf(toks[|slots|]))) && grammarValues == Some([])
          && placeholders == oldPlaceholders && combination == oldCombination && usedAfter == parentUsed)
    && (oldValues.None? && |slots| == |toks| ==> grammarValues == Some(values) && placeholders == oldPlaceholders + slots)
    && (err.Some? && err.value.KeyError? <==> oldValues.None? && |slots| < |toks|)
    && (err.None? || !err.value.KeyError? ==>
          grammarValues.Some? && Drawn(grammarValues.value, pick, key, parentUsed, oldCombination, combination, err, usedAfter))
  }

  class CommonExample {
    const template: string
    var text: string
    var entities: seq<Entity.Entity>
    var grammars: seq<Grammar.Grammar>
    var synonymsUsed: Dict<string, seq<string>>
    var combination: seq<nat>
    var grammarValues: Option<seq<seq<nat>>>
    var placeholders: seq<Slot>

    /** The fields `__init__` sets before it looks for a combination. */
    constructor(template: string)
      ensures this.template == template && text == template
      ensures entities == [] && grammars == [] && synonymsUsed == [] && combination == []
      ensures grammarValues == None && placeholders == []
    {
      this.template := template;
      text := template;
      entities := [];
      grammars := [];
      synonymsUsed := [];
      combination := [];
      grammarValues := None;
      placeholders := [];
    }

    /**
     * `CommonExample(parent, template)`: the fields above, then
     * `find_unused_combination()` against the parent's grammars and its
     * `used_combinations` table (None when the parent has none), from no
     * values, no placeholders and no combination.
     */
    static method New(template: string, parentGrammars: map<string, Grammar.Grammar>, nameOf: string -> string,
                      pick: (nat, nat) -> nat, parentUsed: Option<Dict<string, seq<set<nat>>>>)
      returns (ex: CommonExample, err: Option<Error>, usedAfter: Option<Dict<string, seq<set<nat>>>>)
      ensures fresh(ex) && ex.template == template && ex.text == template && ex.synonymsUsed == []
      ensures err.None? && KeyedByName(parentGrammars) ==> ex.Valid()
      ensures Found(ReplacementPattern.FindAll(template),
                    Resolved(ReplacementPattern.FindAll(template), parentGrammars, nameOf),
                    ValuesOf(Resolved(ReplacementPattern.FindAll(template), parentGrammars, nameOf)),
                    nameOf, pick, template, parentUsed, None, ex.grammarValues, [], ex.placeholders, [],
                    ex.combination, err, usedAfter)
    {
      ex := new CommonExample(template);
      ghost var values, placeholders, combination := ex.grammarValues, ex.placeholders, ex.combination;
      err, usedAfter := ex.FindUnusedCombination(parentGrammars, nameOf, pick, parentUsed);
      ghost var slots := Resolved(ReplacementPattern.FindAll(template), parentGrammars, nameOf);
      assert ex.text == template && values == None && placeholders == [] && combination == [];
      assert Found(ReplacementPattern.FindAll(template), slots, ValuesOf(slots), nameOf, pick, ex.text, parentUsed,
                   values, ex.grammarValues, placeholders, ex.placeholders, combination, ex.combination, err, usedAfter);
    }

    /** `all_grammars()`: the plain grammars, then the grammars of the entities. */
    function AllGrammars(): (gs: seq<Grammar.Grammar>)
      reads this
      ensures |gs| == |grammars| + |entities| && gs[..|grammars|] == grammars
      ensures forall k :: 0 <= k < |entities| ==> gs[|grammars| + k] == entities[k].grammar
    {
      grammars + GrammarsOfEntities(entities)
    }

    /** The name and number of choices of each grammar of `AllGrammars`. */
    function Sizes(): (sizes: seq<(string, nat)>)
      reads this, set g | g in AllGrammars()
      ensures |sizes| == |AllGrammars()|
      ensures forall i :: 0 <= i < |sizes| ==> sizes[i] == (AllGrammars()[i].name, |AllGrammars()[i].choices|)
    {
      var gs := AllGrammars();
      seq(|gs|, i requires 0 <= i < |gs| reads set g | g in gs => (gs[i].name, |gs[i].choices|))
    }

    /** `get_combinations()`: each grammar name mapped to its number of choices, the last one winning. */
    function GetCombinations(): (m: map<string, nat>)
      reads this, set g | g in AllGrammars()
      ensures forall n :: n in m <==> exists g :: g in AllGrammars() && g.name == n
    {
      var sizes := Sizes();
      CountsNames(AllGrammars(), sizes);
      Counts(sizes)
    }

    /**
     * The placeholder block of `find_unused_combination`. The tokens are
     * resolved first, so a name without a grammar raises KeyError before any
     * slot is recorded; `grammar_values` is then the empty list.
     */
    method LoadPlaceholders(parentGrammars: map<string, Grammar.Grammar>, nameOf: string -> string)
      returns (err: Option<Error>)
      requires grammarValues.None?
      modifies this`grammarValues, this`placeholders, this`entities, this`grammars
      ensures var toks := ReplacementPattern.FindAll(template);
              var slots := Resolved(toks, parentGrammars, nameOf);
              && (err.None? <==> |slots| == |toks|)
              && (err.Some? ==> && err == Some(KeyError(nameOf(toks[|slots|])))
                                && grammarValues == Some([]) && placeholders == old(placeholders)
                                && entities == old(entities) && grammars == old(grammars))
              && (err.None? ==> && grammarValues == Some(ValuesOf(slots))
                                && placeholders == old(placeholders) + slots
                                && SlotsAdded(slots, old(grammars), grammars, old(entities), entities)
                                && (forall k :: |old(entities)| <= k < |entities| ==> fresh(entities[k]))
                                && NamedFrom(entities, |old(entities)|))
      ensures err.None? && KeyedByName(parentGrammars) ==>
                EntitiesFound(Resolved(ReplacementPattern.FindAll(template), parentGrammars, nameOf), entities)
    {
      var toks := ReplacementPattern.FindAll(template);
      var slots := Resolved(toks, parentGrammars, nameOf);
      grammarValues := Some([]);
      if |slots| < |toks| {
        return Some(KeyError(nameOf(toks[|slots|])));
      }
      var values := AddSlots(slots);
      grammarValues := Some(values);
      err := None;
      if KeyedByName(parentGrammars) {
        ResolvedKeyed(toks, parentGrammars, nameOf);
        SlotsFound(slots, old(entities), entities);
      }
    }

    /**
     * The loop of that block: each slot is recorded in `placeholders`, its
     * `range(len(choices))` in the returned values, and its grammar either
     * wrapped in a new entity or appended to `grammars`.
     */
    method AddSlots(slots: seq<Slot>) returns (values: seq<seq<nat>>)
      modifies this`placeholders, this`entities, this`grammars
      ensures values == ValuesOf(slots)
      ensures placeholders == old(placeholders) + slots
      ensures grammars == old(grammars) + PlainGrammars(slots)
      ensures |old(entities)| <= |entities| && entities[..|old(entities)|] == old(entities)
      ensures GrammarsOfEntities(entities) == GrammarsOfEntities(old(entities)) + EntityGrammars(slots)
      ensures forall k :: |old(entities)| <= k < |entities| ==> fresh(entities[k])
      ensures NamedFrom(entities, |old(entities)|)
    {
      values := [];
      ghost var all := ValuesOf(slots);
      ghost var done: seq<Slot> := [];
      for i := 0 to |slots|
        invariant done == slots[..i]
        invariant values == all[..i]
        invariant placeholders == old(placeholders) + done
        invariant grammars == old(grammars) + PlainGrammars(done)
        invariant |old(entities)| <= |entities| && entities[..|old(entities)|] == old(entities)
        invariant GrammarsOfEntities(entities) == GrammarsOfEntities(old(entities)) + EntityGrammars(done)
        invariant forall k :: |old(entities)| <= k < |entities| ==> fresh(entities[k])
        invariant NamedFrom(entities, |old(entities)|)
      {
        var s := slots[i];
        SplitSnoc(done, s);
        values := values + [Range(|s.grammar.choices|)];
        assert values == all[..i + 1];
        Assoc(old(placeholders), done, [s]);
        Assoc(old(grammars), PlainGrammars(done), if s.grammar.isEntity then [] else [s.grammar]);
        Assoc(GrammarsOfEntities(old(entities)), EntityGrammars(done), if s.grammar.isEntity then [s.grammar] else []);
        AddSlot(s);
        done := done + [s];
        assert done == slots[..i + 1];
      }
      assert done == slots && values == all;
    }

    /**
     * One iteration of that loop: the slot is recorded, and its grammar either
     * wrapped in a new entity or appended to `grammars`.
     */
    method AddSlot(s: Slot)
      modifies this`placeholders, this`entities, this`grammars
      ensures placeholders == old(placeholders) + [s]
      ensures grammars == old(grammars) + (if s.grammar.isEntity then [] else [s.grammar])
      ensures |old(entities)| <= |entities| && entities[..|old(entities)|] == old(entities)
      ensures GrammarsOfEntities(entities)
           == GrammarsOfEntities(old(entities)) + (if s.grammar.isEntity then [s.grammar] else [])
      ensures forall k :: |old(entities)| <= k < |entities| ==> fresh(entities[k])
      ensures NamedFrom(entities, |old(entities)|)
    {
      placeholders := placeholders + [s];
      if s.grammar.isEntity {
        var e := new Entity.Entity(s.grammar);
        assert GrammarsOfEntities(entities + [e]) == GrammarsOfEntities(entities) + [s.grammar];
        entities := entities + [e];
      } else {
        grammars := grammars + [s.grammar];
      }
    }

    /**
     * `find_unused_combination()`: resolves the placeholders on the first
     * call, then draws a combination with a new `Combinations` picker, and
     * appends it, as a set, to the parent's `used_combinations[text]`. The
     * picker has no used keys, so the first draw is always taken.
     * `parentUsed` is the parent's `used_combinations` (None when the parent
     * has no such attribute, which raises AttributeError after the
     * combination is set) and `usedAfter` what it becomes.
     */
    method FindUnusedCombination(parentGrammars: map<string, Grammar.Grammar>, nameOf: string -> string,
                                 pick: (nat, nat) -> nat, parentUsed: Option<Dict<string, seq<set<nat>>>>)
      returns (err: Option<Error>, usedAfter: Option<Dict<string, seq<set<nat>>>>)
      modifies this`grammarValues, this`placeholders, this`entities, this`grammars, this`combination
      ensures Found(ReplacementPattern.FindAll(template),
                    Resolved(ReplacementPattern.FindAll(template), parentGrammars, nameOf),
                    ValuesOf(Resolved(ReplacementPattern.FindAll(template), parentGrammars, nameOf)),
                    nameOf, pick, text, parentUsed, old(grammarValues), grammarValues, old(placeholders), placeholders,
                    old(combination), combination, err, usedAfter)
      ensures var toks := ReplacementPattern.FindAll(template);
              var slots := Resolved(toks, parentGrammars, nameOf);
              && (old(grammarValues).Some? || |slots| < |toks| ==> entities == old(entities) && grammars == old(grammars))
              && (old(grammarValues).None? && |slots| == |toks| ==>
                    && SlotsAdded(slots, old(grammars), grammars, old(entities), entities)
                    && forall k :: |old(entities)| <= k < |entities| ==> fresh(entities[k]))
      ensures err.None? && old(grammarValues).None? && old(placeholders) == [] && KeyedByName(parentGrammars) ==> Valid()
    {
      if grammarValues.None? {
        err := LoadPlaceholders(parentGrammars, nameOf);
        if err.Some? {
          return err, parentUsed;
        }
      }
      ghost var slots := Resolved(ReplacementPattern.FindAll(template), parentGrammars, nameOf);
      ghost var values := ValuesOf(slots);
      err, usedAfter := DrawAndRecord(pick, parentUsed);
      assert ValuesOf(slots) == values;
    }

    /**
     * The rest of `find_unused_combination()` once the values are known: a
     * new picker's first draw, recorded in the parent's table.
     */
    method DrawAndRecord(pick: (nat, nat) -> nat, parentUsed: Option<Dict<string, seq<set<nat>>>>)
      returns (err: Option<Error>, usedAfter: Option<Dict<string, seq<set<nat>>>>)
      requires grammarValues.Some?
      modifies this`combination
      ensures Drawn(grammarValues.value, pick, text, parentUsed, old(combination), combination, err, usedAfter)
    {
      var r := FirstDraw(grammarValues.value, pick);
      if r.Err? {
        return Some(r.error), parentUsed;
      }
      combination := r.value;
      if parentUsed.None? {
        return Some(AttributeError), None;
      }
      var used := parentUsed.value;
      usedAfter := Some(Put(used, text, GetOr(used, text, []) + [AsSet(combination)]));
      err := None;
    }

    /** The grammars of the placeholders, in template order. */
    function SlotGrammars(): seq<Grammar.Grammar>
      reads this`placeholders
    {
      GrammarsOf(placeholders)
    }

    /** The `value` of each placeholder's grammar. */
    function GrammarValues(): (m: map<Grammar.Grammar, Option<string>>)
      reads this`placeholders, SlotGrammars()`value
      ensures forall i :: 0 <= i < |placeholders| ==> SlotGrammars()[i] in m
    {
      map g | g in SlotGrammars() :: g.value
    }

    /** What `update` has written in each entity. */
    function EntityRecords(): (m: map<Entity.Entity, Entity.Record>)
      reads this`entities, entities
      ensures forall e :: e in entities ==> e in m
    {
      map e | e in entities :: e.State()
    }

    /**
     * The entity each placeholder goes through, `entities_map[grammar.name]`,
     * when its grammar is an entity.
     */
    function Targets(): (ts: seq<Option<Entity.Entity>>)
      reads this`placeholders, this`entities
      ensures |ts| == |placeholders|
      ensures forall i :: 0 <= i < |ts| && ts[i].Some? ==> ts[i].value in entities
    {
      var ps, es := placeholders, entities;
      seq(|ps|, i requires 0 <= i < |ps| =>
        var g := ps[i].grammar;
        if g.isEntity && LastNamed(es, g.name) != -1 then Some(es[LastNamed(es, g.name)]) else None)
    }

    /** The synonyms of each placeholder's grammar. */
    function SynonymTables(): (m: Tables)
      reads this`placeholders, SlotGrammars()`synonyms
      ensures forall i :: 0 <= i < |placeholders| ==> SlotGrammars()[i] in m
    {
      map g | g in SlotGrammars() :: g.synonyms
    }

    /** The choices and the used synonyms of each placeholder's grammar. */
    function Readings(): (m: Statics)
      reads this`placeholders, SlotGrammars()`choices, SlotGrammars()`usedSynonyms
      ensures forall i :: 0 <= i < |placeholders| ==> SlotGrammars()[i] in m
    {
      map g | g in SlotGrammars() :: (g.choices, g.usedSynonyms)
    }

    /** What `process` reads for each placeholder from its grammar, as `DataOf` gives it. */
    function Data(): (data: seq<SlotData>)
      reads this`placeholders, SlotGrammars()`synonyms, SlotGrammars()`choices, SlotGrammars()`usedSynonyms
      ensures |data| == |placeholders|
    {
      DataOf(placeholders, SynonymTables(), Readings())
    }

    /** What placeholder `i` reads from its grammar now. */
    function Reading(i: nat): SlotData
      requires i < |placeholders|
      reads this`placeholders, placeholders[i].grammar`choices, placeholders[i].grammar`synonyms
      reads placeholders[i].grammar`usedSynonyms
    {
      var g := placeholders[i].grammar;
      SlotData(placeholders[i].placeholderText, g.choices, g.synonyms, g.usedSynonyms,
               UsedTable(g.synonyms, g.usedSynonyms))
    }

    /**
     * Placeholder `i` reads what `DataOf` says, once the first `i`
     * placeholders have read their used synonyms.
     */
    lemma ReadingAt(tables: Tables, statics: Statics, i: nat)
      requires i < |placeholders| && Readings() == statics
      requires forall j :: 0 <= j < |placeholders| ==> SlotGrammars()[j] in tables
      requires SynonymTables() == TablesAt(tables, SlotGrammars(), statics, i)
      ensures DataOf(placeholders, tables, statics)[i] == Reading(i)
    {
      DataOfReads(placeholders, tables, statics, i);
    }

    /**
     * What `process` relies on: one index per placeholder, and for each
     * entity placeholder an entity of that name whose grammar is the
     * placeholder's own.
     */
    ghost predicate Valid()
      reads this`combination, this`placeholders, this`entities
    {
      Consistent(combination, placeholders, entities)
    }

    /**
     * One step of `process()`: placeholder `i` filled in `text` with choice
     * `combination[i]` of its grammar, through the entity of that name when
     * the grammar is an entity. `synPick` is the random synonym position and
     * `entityValue` the entity value the grammar reports.
     */
    method FillSlot(i: nat, text: string, synPick: nat, entityValue: string) returns (r: Result<string, Error>)
      requires Valid() && i < |placeholders|
      modifies SlotGrammars()`value
      modifies entities`start, entities`end, entities`value, entities`entityValue, entities`usedSynonyms
      ensures Valid() && SlotGrammars() == old(SlotGrammars()) && Targets() == old(Targets())
      ensures Readings() == old(Readings()) && SynonymTables() == old(SynonymTables())
      ensures var g := placeholders[i].grammar;
              r == Grammar.Substituted(g.choices, g.synonyms, placeholders[i].placeholderText, text, Some(combination[i]),
                                       0, synPick)
      ensures var g := placeholders[i].grammar;
              GrammarValues() == SlotValues(old(GrammarValues()), g, g.choices, combination[i])
      ensures var g := placeholders[i].grammar;
              EntityRecords() == SlotRecords(old(EntityRecords()), Targets()[i], g.choices, g.synonyms,
                                             placeholders[i].placeholderText, text, combination[i], synPick, entityValue)
    {
      var g := placeholders[i].grammar;
      if g.isEntity {
        var e := entities[LastNamed(entities, g.name)];
        assert Targets()[i] == Some(e);
        r := FillEntity(i, e, text, synPick, entityValue);
      } else {
        assert Targets()[i] == None;
        r := FillGrammar(i, text, synPick);
      }
    }

    /** `FillSlot` for a plain grammar: its `update` writes only its own `value`. */
    method FillGrammar(i: nat, text: string, synPick: nat) returns (r: Result<string, Error>)
      requires i < |placeholders| && |combination| == |placeholders|
      modifies placeholders[i].grammar`value
      ensures Readings() == old(Readings()) && SynonymTables() == old(SynonymTables())
      ensures EntityRecords() == old(EntityRecords())
      ensures var g := placeholders[i].grammar;
              && r == Grammar.Substituted(g.choices, g.synonyms, placeholders[i].placeholderText, text,
                                          Some(combination[i]), 0, synPick)
              && GrammarValues() == SlotValues(old(GrammarValues()), g, g.choices, combination[i])
    {
      ghost var values := GrammarValues();
      var s := placeholders[i];
      var g := s.grammar;
      assert g == SlotGrammars()[i];
      r := g.Update(s.placeholderText, text, Some(combination[i]), 0, synPick);
      assert GrammarValues() == values[g := g.value];
    }

    /**
     * `entity.update(...)` on an entity of this example: it writes the
     * entity and its grammar's `value`, and no grammar's choices, used
     * synonyms or synonyms.
     */
    method UpdateEntity(e: Entity.Entity, placeholderText: string, text: string, index: nat, synPick: nat,
                        entityValue: string)
      returns (r: Result<string, Error>)
      modifies e`start, e`end, e`value, e`entityValue, e`usedSynonyms, e.grammar`value
      ensures Readings() == old(Readings()) && SynonymTables() == old(SynonymTables())
      ensures r == Grammar.Substituted(e.grammar.choices, e.grammar.synonyms, placeholderText, text, Some(index), 0,
                                       synPick)
      ensures e.State() == Entity.Updated(old(e.State()), e.grammar.choices, e.grammar.synonyms, placeholderText,
                                          text, Some(index), 0, synPick, entityValue)
      ensures var c := Grammar.ChosenIndex(e.grammar.choices, Some(index), 0);
              e.grammar.value == if c.Some? then Some(e.grammar.choices[c.value]) else old(e.grammar.value)
    {
      r := e.Update(placeholderText, text, Some(index), 0, synPick, entityValue);
    }

    /** `FillSlot` through entity `e`, which shares the placeholder's grammar. */
    method FillEntity(i: nat, e: Entity.Entity, text: string, synPick: nat, entityValue: string)
      returns (r: Result<string, Error>)
      requires i < |placeholders| && |combination| == |placeholders|
      requires e in entities && e.grammar == placeholders[i].grammar
      modifies e`start, e`end, e`value, e`entityValue, e`usedSynonyms, e.grammar`value
      ensures Readings() == old(Readings()) && SynonymTables() == old(SynonymTables())
      ensures var g := placeholders[i].grammar;
              && r == Grammar.Substituted(g.choices, g.synonyms, placeholders[i].placeholderText, text,
                                          Some(combination[i]), 0, synPick)
              && GrammarValues() == SlotValues(old(GrammarValues()), g, g.choices, combination[i])
              && EntityRecords() == SlotRecords(old(EntityRecords()), Some(e), g.choices, g.synonyms,
                                                placeholders[i].placeholderText, text, combination[i], synPick,
                                                entityValue)
    {
      ghost var values := GrammarValues();
      ghost var records := EntityRecords();
      var s := placeholders[i];
      var g := s.grammar;
      assert g == SlotGrammars()[i];
      r := UpdateEntity(e, s.placeholderText, text, combination[i], synPick, entityValue);
      forall x | x in entities && x != e ensures x.State() == records[x] {
      }
      assert EntityRecords() == records[e := e.State()];
      forall h | h in SlotGrammars() && h != g ensures h.value == values[h] {
      }
      assert GrammarValues() == values[g := g.value];
    }

    /**
     * One iteration of the loop of `process()`: placeholder `i` filled in
     * `text` (`FillSlot`), then, unless that raised, the filled text kept
     * and the grammar's used synonyms merged into `synonyms_used` (`Absorb`).
     * `d` is what the placeholder reads from its grammar.
     */
    method Step(ghost d: SlotData, ghost gs: seq<Grammar.Grammar>, ghost targets: seq<Option<Entity.Entity>>, i: nat,
                synPick: nat, entityValue: string)
      returns (r: Result<string, Error>)
      requires Valid() && SlotGrammars() == gs && Targets() == targets && i < |placeholders| && d == Reading(i)
      modifies this`text, this`synonymsUsed, SlotGrammars()`value, SlotGrammars()`synonyms
      modifies entities`start, entities`end, entities`value, entities`entityValue, entities`usedSynonyms
      ensures Valid() && SlotGrammars() == gs && Targets() == targets && Readings() == old(Readings())
      ensures r == Grammar.Substituted(d.choices, d.synonyms, d.placeholderText, old(text), Some(combination[i]), 0,
                                       synPick)
      ensures GrammarValues() == SlotValues(old(GrammarValues()), gs[i], d.choices, combination[i])
      ensures EntityRecords() == SlotRecords(old(EntityRecords()), targets[i], d.choices, d.synonyms, d.placeholderText,
                                             old(text), combination[i], synPick, entityValue)
      ensures r.Err? ==> text == old(text) && synonymsUsed == old(synonymsUsed) && SynonymTables() == old(SynonymTables())
      ensures r.Ok? ==>
                && text == r.value && synonymsUsed == Update(old(synonymsUsed), d.used)
                && SynonymTables() == SlotTables(old(SynonymTables()), gs[i], d.usedSynonyms)
    {
      r := FillSlot(i, text, synPick, entityValue);
      if r.Ok? {
        Absorb(i, r.value);
      }
    }

    /**
     * The end of one iteration of `process()`: the filled text is kept and
     * the used synonyms of placeholder `i`'s grammar merged into
     * `synonyms_used`; reading them stores their missing names in the
     * grammar's synonyms.
     */
    method Absorb(i: nat, t: string)
      requires Valid() && i < |placeholders|
      modifies this`text, this`synonymsUsed, placeholders[i].grammar`synonyms
      ensures var g := placeholders[i].grammar;
              && text == t
              && synonymsUsed == Update(old(synonymsUsed), UsedTable(old(g.synonyms), g.usedSynonyms))
              && SynonymTables() == old(SynonymTables())[g := TouchAll(old(g.synonyms), g.usedSynonyms)]
      ensures Valid() && SlotGrammars() == old(SlotGrammars()) && Targets() == old(Targets())
      ensures Readings() == old(Readings()) && GrammarValues() == old(GrammarValues())
      ensures EntityRecords() == old(EntityRecords())
    {
      var g := placeholders[i].grammar;
      Keep(t, Update(synonymsUsed, UsedTable(g.synonyms, g.usedSynonyms)));
      ReadUsed(g);
    }

    /** The assignments to `self.text` and `self.synonyms_used`, which no grammar or entity reads. */
    method Keep(t: string, used: Dict<string, seq<string>>)
      modifies this`text, this`synonymsUsed
      ensures text == t && synonymsUsed == used
      ensures Valid() == old(Valid()) && SlotGrammars() == old(SlotGrammars()) && Targets() == old(Targets())
      ensures Readings() == old(Readings()) && GrammarValues() == old(GrammarValues())
      ensures EntityRecords() == old(EntityRecords()) && SynonymTables() == old(SynonymTables())
    {
      text, synonymsUsed := t, used;
    }

    /**
     * The reads of `synonyms[name]` for the used synonyms of grammar `g`:
     * `synonyms` is a `defaultdict(list)`, so the missing names are stored.
     */
    method ReadUsed(g: Grammar.Grammar)
      requires g in SlotGrammars()
      modifies g`synonyms
      ensures g.synonyms == TouchAll(old(g.synonyms), g.usedSynonyms)
      ensures SynonymTables() == old(SynonymTables())[g := g.synonyms]
      ensures Readings() == old(Readings()) && GrammarValues() == old(GrammarValues())
      ensures EntityRecords() == old(EntityRecords())
    {
      g.synonyms := TouchAll(g.synonyms, g.usedSynonyms);
    }

    /**
     * What the loop of `process()` does not change: the placeholders with
     * their grammars and entities, and what the grammars hold besides their
     * values and synonyms; `data` is what the placeholders read from the
     * grammars' `tables` and `statics` before the loop.
     */
    ghost predicate Loaded(data: seq<SlotData>, gs: seq<Grammar.Grammar>, targets: seq<Option<Entity.Entity>>,
                           tables: Tables, statics: Statics)
      reads this, SlotGrammars()
    {
      && Valid() && SlotGrammars() == gs && Targets() == targets && Readings() == statics
      && (forall j :: 0 <= j < |placeholders| ==> gs[j] in tables)
      && data == DataOf(placeholders, tables, statics)
    }

    /**
     * The loop of `process()` before placeholder `i`: the object's state is
     * `Tracked` towards `filled` and `effects`.
     */
    ghost predicate Track(data: seq<SlotData>, gs: seq<Grammar.Grammar>, targets: seq<Option<Entity.Entity>>,
                          tables: Tables, statics: Statics, i: nat, synPicks: seq<nat>, entityValues: seq<string>,
                          filled: (string, Dict<string, seq<string>>, Option<Error>), effects: Outcome,
                          err: Option<Error>)
      reads this, SlotGrammars(), entities
    {
      && Loaded(data, gs, targets, tables, statics)
      && Tracked(data, gs, targets, combination, synPicks, entityValues, tables, statics, i, text, synonymsUsed,
                 GrammarValues(), EntityRecords(), SynonymTables(), filled, effects, err)
    }

    /**
     * One iteration of the loop of `process()`: it takes the loop from
     * placeholder `i` to placeholder `i + 1`, or ends it with the exception.
     */
    method Iterate(ghost data: seq<SlotData>, ghost gs: seq<Grammar.Grammar>, ghost targets: seq<Option<Entity.Entity>>,
                   ghost tables: Tables, ghost statics: Statics, i: nat, synPicks: seq<nat>, entityValues: seq<string>,
                   ghost filled: (string, Dict<string, seq<string>>, Option<Error>), ghost effects: Outcome)
      returns (err: Option<Error>)
      requires i < |placeholders|
      requires Track(data, gs, targets, tables, statics, i, synPicks, entityValues, filled, effects, None)
      modifies this`text, this`synonymsUsed, gs`value, gs`synonyms
      modifies entities`start, entities`end, entities`value, entities`entityValue, entities`usedSynonyms
      ensures Track(data, gs, targets, tables, statics, i + 1, synPicks, entityValues, filled, effects, err)
    {
      ReadingAt(tables, statics, i);
      TrackedStep(data, gs, targets, combination, synPicks, entityValues, tables, statics, i, text, synonymsUsed,
                  GrammarValues(), EntityRecords(), SynonymTables(), filled, effects);
      var r := Step(data[i], gs, targets, i, synPicks[i], entityValues[i]);
      err := if r.Err? then Some(r.error) else None;
    }

    /**
     * The loop of `process()` from placeholder `i` on, one `Iterate` per
     * placeholder, written as recursion on the index: it returns the index
     * `k` where it stopped, the end or just past the placeholder that raised.
     */
    method Run(ghost data: seq<SlotData>, ghost gs: seq<Grammar.Grammar>, ghost targets: seq<Option<Entity.Entity>>,
               ghost tables: Tables, ghost statics: Statics, i: nat, synPicks: seq<nat>, entityValues: seq<string>,
               ghost filled: (string, Dict<string, seq<string>>, Option<Error>), ghost effects: Outcome)
      returns (k: nat, err: Option<Error>)
      requires i <= |placeholders|
      requires Track(data, gs, targets, tables, statics, i, synPicks, entityValues, filled, effects, None)
      modifies this`text, this`synonymsUsed, gs`value, gs`synonyms
      modifies entities`start, entities`end, entities`value, entities`entityValue, entities`usedSynonyms
      ensures k == |placeholders| || err.Some?
      ensures Track(data, gs, targets, tables, statics, k, synPicks, entityValues, filled, effects, err)
      decreases |placeholders| - i
    {
      if i == |placeholders| {
        return i, None;
      }
      err := Iterate(data, gs, targets, tables, statics, i, synPicks, entityValues, filled, effects);
      k := i + 1;
      if err.None? {
        k, err := Run(data, gs, targets, tables, statics, i + 1, synPicks, entityValues, filled, effects);
      }
    }

    /**
     * `process()`: fills each placeholder in turn; the text, the used
     * synonyms and the exception that stops it are those of `Fill`, and the
     * grammars' values, the entities and the grammars' synonyms those of
     * `Effects`, over what the placeholders' grammars held before the call.
     */
    method Process(synPicks: seq<nat>, entityValues: seq<string>) returns (err: Option<Error>)
      requires Valid() && |synPicks| == |placeholders| && |entityValues| == |placeholders|
      modifies this`text, this`synonymsUsed, SlotGrammars()`value, SlotGrammars()`synonyms
      modifies entities`start, entities`end, entities`value, entities`entityValue, entities`usedSynonyms
      ensures (text, synonymsUsed, err) == Fill(old(Data()), combination, synPicks, 0, old(text), old(synonymsUsed))
      ensures (GrammarValues(), EntityRecords(), SynonymTables())
           == Effects(old(Data()), SlotGrammars(), Targets(), combination, synPicks, entityValues, 0, old(text),
                      old(GrammarValues()), old(EntityRecords()), old(SynonymTables()))
    {
      ghost var data, gs, targets := Data(), SlotGrammars(), Targets();
      ghost var tables, statics := SynonymTables(), Readings();
      ghost var filled := Fill(data, combination, synPicks, 0, text, synonymsUsed);
      ghost var effects := Effects(data, gs, targets, combination, synPicks, entityValues, 0, text,
                                   GrammarValues(), EntityRecords(), tables);
      var i;
      i, err := Run(data, gs, targets, tables, statics, 0, synPicks, entityValues, filled, effects);
    }
  }
}
