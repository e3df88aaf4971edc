/**
 * The intent of the current revision: its template stack (`Texts`), the
 * grammars and entities it registers, the parser of each template, and the
 * Rasa NLU subclass that splits the generated examples into training and
 * testing sets.
 *
 * The template parser is not part of this model: the placeholders of a
 * template and the size of its combination space are the parameter `parse`.
 * The expansion of a template (`get_all_placeholder_values`), which raises
 * PlaceholderError for a grammar not registered yet, is the parameter
 * `Env.expand`.
 */
module RasaNlu {
  import opened Wrappers
  import opened Errors
  import opened PyDict
  import PyStr
  import Grammar
  import Placeholder
  import Texts
  import Combinator
  import CommonExample
  import opened CombinationIndex

  /** A parsed template: its text, the size of its combination space and its combinator. */
  class Parser {
    const text: string
    const possibleCombinations: nat
    const combinator: Combinator.Combinator

    constructor(text: string, placeholders: seq<Placeholder.PlaceHolder>, possibleCombinations: nat)
      ensures this.text == text && this.possibleCombinations == possibleCombinations
      ensures fresh(combinator) && combinator.placeholders == placeholders && combinator.Valid()
      ensures combinator.used == {}
    {
      this.text := text;
      this.possibleCombinations := possibleCombinations;
      combinator := new Combinator.Combinator(placeholders);
    }
  }

  // ---------------------------------------------------------------------
  // The number of examples to generate

  function SumValues(d: Dict<string, nat>): nat
  {
    if d == [] then 0 else d[0].1 + SumValues(d[1..])
  }

  /** `{parser.text: parser.possible_combinations for parser in parsers}`. */
  function PossibleTable(ps: seq<(string, nat)>): Dict<string, nat>
  {
    Update([], ps)
  }

  /** `get_possible_combination_count`: the sum over the table, or 1 when that sum is 0. */
  function PossibleCount(ps: seq<(string, nat)>): (n: nat)
    ensures n >= 1
    ensures SumValues(PossibleTable(ps)) != 0 ==> n == SumValues(PossibleTable(ps))
  {
    var s := SumValues(PossibleTable(ps));
    if s == 0 then 1 else s
  }

  /** Assigning keys that are all new appends them in order. */
  lemma {:induction false} UpdateFresh(d: Dict<string, nat>, e: Dict<string, nat>)
    requires KeysUnique(d + e)
    ensures Update(d, e) == d + e
    decreases |e|
  {
    if e != [] {
      assert e[0].0 !in Keys(d) by {
        forall j | 0 <= j < |d| ensures Keys(d)[j] != e[0].0 {
          assert (d + e)[j] == d[j] && (d + e)[|d|] == e[0];
        }
      }
      assert Put(d, e[0].0, e[0].1) == d + [e[0]];
      assert d + [e[0]] + e[1..] == d + e;
      UpdateFresh(d + [e[0]], e[1..]);
    }
  }

  /** Templates that are all different each contribute their own count. */
  lemma PossibleDistinct(ps: seq<(string, nat)>)
    requires KeysUnique(ps)
    ensures PossibleCount(ps) == if SumValues(ps) == 0 then 1 else SumValues(ps)
  {
    UpdateFresh([], ps);
    assert [] + ps == ps;
  }

  lemma {:induction false} UpdateSnoc(d: Dict<string, nat>, e: Dict<string, nat>, x: (string, nat))
    ensures Update(d, e + [x]) == Put(Update(d, e), x.0, x.1)
    decreases |e|
  {
    if e != [] {
      assert (e + [x])[1..] == e[1..] + [x];
      UpdateSnoc(Put(d, e[0].0, e[0].1), e[1..], x);
    } else {
      assert [x][1..] == [];
    }
  }

  lemma {:induction false} SumAt(d: Dict<string, nat>, i: nat, x: (string, nat))
    requires i < |d|
    ensures SumValues(d[i := x]) + d[i].1 == SumValues(d) + x.1
  {
    if i > 0 {
      SumAt(d[1..], i - 1, x);
      assert d[i := x][1..] == d[1..][i - 1 := x];
    }
  }

  /**
   * A template listed again replaces the count of its earlier parser: the
   * table keeps one entry per text, so a repeated text counts once, with
   * the count of its last parser.
   */
  lemma PossibleRepeat(ps: seq<(string, nat)>, t: string, v: nat)
    ensures SumValues(PossibleTable(ps + [(t, v)])) + GetOr(PossibleTable(ps), t, 0)
         == SumValues(PossibleTable(ps)) + v
  {
    var d := PossibleTable(ps);
    UpdateSnoc([], ps, (t, v));
    var i := IndexOfKey(d, t);
    if i != -1 {
      SumAt(d, i, (t, v));
    } else {
      SumSnoc(d, (t, v));
    }
  }

  lemma {:induction false} SumSnoc(d: Dict<string, nat>, x: (string, nat))
    ensures SumValues(d + [x]) == SumValues(d) + x.1
  {
    if d != [] {
      assert (d + [x])[1..] == d[1..] + [x];
      SumSnoc(d[1..], x);
    }
  }

  function Sum(xs: seq<nat>): nat
  {
    if xs == [] then 0 else xs[0] + Sum(xs[1..])
  }

  /**
   * `_get_minimum_num(num)`: a `num` of 0 stands for the possible count;
   * the result is the larger of that and the priority minimum (the
   * combinators' minima plus the number of `important` blocks).
   */
  function MinimumNum(num: nat, possible: nat, mins: seq<nat>, important: nat): (n: nat)
    ensures var target := if num == 0 then possible else num;
            && n >= target && n >= Sum(mins) + important
            && (n == target || n == Sum(mins) + important)
  {
    var target := if num == 0 then possible else num;
    var least := Sum(mins) + important;
    if target < least then least else target
  }

  /** The priority minimum of each parser's combinator. */
  function MinsOf(ps: seq<Parser>): (ms: seq<nat>)
    ensures |ms| == |ps| && forall i :: 0 <= i < |ps| ==> ms[i] == ps[i].combinator.GetMinCombinations()
  {
    if ps == [] then [] else [ps[0].combinator.GetMinCombinations()] + MinsOf(ps[1..])
  }

  /**
   * `math.ceil(num * (test_ratio / 100))` on exact numbers: the least count
   * whose hundredfold reaches `num * ratio`.
   */
  function TestingCount(num: nat, ratio: nat): (t: nat)
    ensures 100 * t >= num * ratio
    ensures t > 0 ==> 100 * (t - 1) < num * ratio
  {
    var x := num * ratio;
    (x + 99) / 100
  }

  // ---------------------------------------------------------------------
  // Registering grammars and entities

  /** The `grammars` or `entities` section: a mapping, a list of sections, or anything else. */
  datatype GrammarDefs =
    | DMap(entries: seq<(string, Grammar.GrammarData)>)
    | DList(items: seq<GrammarDefs>)
    | DOther

  /** A registered grammar: whether it is an entity, and its tables. */
  datatype Registered = Registered(isEntity: bool, tables: Grammar.Tables)

  /** A mapping queued for another attempt, with the section it came from. */
  datatype Queued = Queued(entries: seq<(string, Grammar.GrammarData)>, isEntity: bool)

  /**
   * The collaborator of `load_data`: the expansion of a template given the
   * grammars registered so far, or the exception it raises.
   */
  datatype Env = Env(expand: Grammar.Expander)

  type Registry = Dict<string, Registered>

  const NoTables := Grammar.Tables([], [], [])

  /** The choices of each registered grammar, as `load_data` finds them through the intent. */
  function Known(reg: Registry): map<string, seq<string>>
  {
    map n | n in Keys(reg) :: GetOr(reg, n, Registered(false, NoTables)).tables.choices
  }

  /** A definition's name with the reserved characters stripped from both ends. */
  function Name(raw: string): string
  {
    PyStr.Strip(raw, Placeholder.ReservedChars)
  }

  /**
   * One `name: value` item: a fresh grammar is registered under the
   * stripped name, then loaded with the registered grammars in view; the
   * exception raised, if any, a PlaceholderError carrying the grammar's
   * name. The grammar stays registered with whatever its load put in its
   * tables before an exception.
   */
  function LoadOne(reg: Registry, raw: string, value: Grammar.GrammarData, isEntity: bool, env: Env): (Registry, Option<Error>)
  {
    var name := Name(raw);
    var reg1 := Put(reg, name, Registered(isEntity, NoTables));
    var r := Grammar.LoadSpec(NoTables, name, value, Known(reg1), env.expand);
    (Put(reg1, name, Registered(isEntity, r.0)), Tagged(r.1, name))
  }

  /** `e.grammar_name = name`: a PlaceholderError is tagged with the grammar being loaded; other exceptions pass unchanged. */
  function Tagged(err: Option<Error>, name: string): (r: Option<Error>)
    ensures r.None? <==> err.None?
    ensures r.Some? ==> (r.value.PlaceholderError? <==> err.value.PlaceholderError?)
    ensures r.Some? && r.value.PlaceholderError? ==> r.value.grammarName == name
    ensures r.Some? && !r.value.PlaceholderError? ==> r == err
  {
    if err.Some? && err.value.PlaceholderError? then Some(PlaceholderError(name)) else err
  }

  /**
   * The items of a mapping from the `i`-th on. A PlaceholderError either
   * ends the call (`raiseOnError`) or queues the whole mapping once more and
   * goes on with the next item; any other exception ends the call.
   */
  function ProcessEntries(reg: Registry, queue: seq<Queued>, es: seq<(string, Grammar.GrammarData)>, i: nat,
                          isEntity: bool, raiseOnError: bool, env: Env): (Registry, seq<Queued>, Option<Error>)
    requires i <= |es|
    decreases |es| - i
  {
    if i == |es| then (reg, queue, None)
    else
      var r := LoadOne(reg, es[i].0, es[i].1, isEntity, env);
      if r.1.None? then ProcessEntries(r.0, queue, es, i + 1, isEntity, raiseOnError, env)
      else if r.1.value.PlaceholderError? && !raiseOnError then
        ProcessEntries(r.0, queue + [Queued(es, isEntity)], es, i + 1, isEntity, raiseOnError, env)
      else (r.0, queue, r.1)
  }

  /** `process_grammars(data, is_entity, raise_on_error)`. */
  function ProcessDefs(reg: Registry, queue: seq<Queued>, data: GrammarDefs, isEntity: bool, raiseOnError: bool,
                       env: Env): (Registry, seq<Queued>, Option<Error>)
    decreases data, 1, 0
  {
    match data
    case DOther => (reg, queue, Some(AttributeError))
    case DMap(es) => ProcessEntries(reg, queue, es, 0, isEntity, raiseOnError, env)
    case DList(items) => ProcessList(reg, queue, items, 0, isEntity, env)
  }

  /** The elements of a list section from the `i`-th on; they are processed without `raise_on_error`. */
  function ProcessList(reg: Registry, queue: seq<Queued>, items: seq<GrammarDefs>, i: nat, isEntity: bool,
                       env: Env): (Registry, seq<Queued>, Option<Error>)
    requires i <= |items|
    decreases DList(items), 0, |items| - i
  {
    if i == |items| then (reg, queue, None)
    else
      var r := ProcessDefs(reg, queue, items[i], isEntity, false, env);
      if r.2.Some? then r else ProcessList(r.0, r.1, items, i + 1, isEntity, env)
  }

  /** `k` is registered, as an entity exactly when `isEntity`. */
  ghost predicate Flagged(reg: Registry, k: string, isEntity: bool)
  {
    Get(reg, k).Some? && Get(reg, k).value.isEntity == isEntity
  }

  /** Loading one item registers its name with the given flag and leaves every other name alone. */
  lemma LoadOneFlags(reg: Registry, raw: string, value: Grammar.GrammarData, isEntity: bool, env: Env)
    ensures Flagged(LoadOne(reg, raw, value, isEntity, env).0, Name(raw), isEntity)
    ensures forall k :: k != Name(raw) ==> Get(LoadOne(reg, raw, value, isEntity, env).0, k) == Get(reg, k)
  {
    var name := Name(raw);
    var reg1 := Put(reg, name, Registered(isEntity, NoTables));
    forall k ensures Get(reg1, k) == if k == name then Some(Registered(isEntity, NoTables)) else Get(reg, k) {
      PutGet(reg, name, Registered(isEntity, NoTables), k);
    }
    var r := Grammar.LoadSpec(NoTables, name, value, Known(reg1), env.expand);
    forall k ensures Get(Put(reg1, name, Registered(isEntity, r.0)), k) == if k == name then Some(Registered(isEntity, r.0)) else Get(reg1, k) {
      PutGet(reg1, name, Registered(isEntity, r.0), k);
    }
  }

  /**
   * One item of a mapping, when the loop goes on past it: the next queue.
   * The loop goes on after a clean load, and after a PlaceholderError when
   * it does not raise.
   */
  lemma EntriesStep(reg: Registry, queue: seq<Queued>, es: seq<(string, Grammar.GrammarData)>,
                    i: nat, isEntity: bool, raiseOnError: bool, env: Env)
    requires i < |es|
    ensures var r := LoadOne(reg, es[i].0, es[i].1, isEntity, env);
            && (r.1.None? ==>
                  ProcessEntries(reg, queue, es, i, isEntity, raiseOnError, env)
                  == ProcessEntries(r.0, queue, es, i + 1, isEntity, raiseOnError, env))
            && (r.1.Some? && r.1.value.PlaceholderError? && !raiseOnError ==>
                  ProcessEntries(reg, queue, es, i, isEntity, raiseOnError, env)
                  == ProcessEntries(r.0, queue + [Queued(es, isEntity)], es, i + 1, isEntity, raiseOnError, env))
            && (r.1.Some? && (!r.1.value.PlaceholderError? || raiseOnError) ==>
                  ProcessEntries(reg, queue, es, i, isEntity, raiseOnError, env) == (r.0, queue, r.1))
  {
  }

  /** Names registered with the section's flag stay so while a mapping is processed. */
  lemma {:induction false} ProcessEntriesKeeps(reg: Registry, queue: seq<Queued>, es: seq<(string, Grammar.GrammarData)>,
                                               i: nat, isEntity: bool, raiseOnError: bool, env: Env, k: string)
    requires i <= |es|
    requires Flagged(reg, k, isEntity)
    ensures Flagged(ProcessEntries(reg, queue, es, i, isEntity, raiseOnError, env).0, k, isEntity)
    decreases |es| - i
  {
    if i < |es| {
      var r := LoadOne(reg, es[i].0, es[i].1, isEntity, env);
      LoadOneFlags(reg, es[i].0, es[i].1, isEntity, env);
      EntriesStep(reg, queue, es, i, isEntity, raiseOnError, env);
      var q' := if r.1.None? then queue else queue + [Queued(es, isEntity)];
      if r.1.None? || (r.1.value.PlaceholderError? && !raiseOnError) {
        ProcessEntriesKeeps(r.0, q', es, i + 1, isEntity, raiseOnError, env, k);
      }
    }
  }

  /**
   * A mapping processed without an escaping exception leaves every one of
   * its names registered with the flag of the section it came from.
   */
  lemma {:induction false} ProcessEntriesFlags(reg: Registry, queue: seq<Queued>, es: seq<(string, Grammar.GrammarData)>,
                                               i: nat, isEntity: bool, raiseOnError: bool, env: Env)
    requires i <= |es|
    ensures var r := ProcessEntries(reg, queue, es, i, isEntity, raiseOnError, env);
            r.2.None? ==> forall j :: i <= j < |es| ==> Flagged(r.0, Name(es[j].0), isEntity)
    decreases |es| - i
  {
    if i < |es| {
      var r := LoadOne(reg, es[i].0, es[i].1, isEntity, env);
      if r.1.None? || (r.1.value.PlaceholderError? && !raiseOnError) {
        var q' := if r.1.None? then queue else queue + [Queued(es, isEntity)];
        ProcessEntriesFlags(r.0, q', es, i + 1, isEntity, raiseOnError, env);
        EntriesFlagsStep(reg, queue, es, i, isEntity, raiseOnError, env);
      } else {
        EntriesStep(reg, queue, es, i, isEntity, raiseOnError, env);
      }
    }
  }

  /** An item the loop goes on past is registered with the section's flag, and stays so. */
  lemma EntriesFlagsStep(reg: Registry, queue: seq<Queued>, es: seq<(string, Grammar.GrammarData)>,
                         i: nat, isEntity: bool, raiseOnError: bool, env: Env)
    requires i < |es|
    requires var r := LoadOne(reg, es[i].0, es[i].1, isEntity, env);
             var q' := if r.1.None? then queue else queue + [Queued(es, isEntity)];
             var rest := ProcessEntries(r.0, q', es, i + 1, isEntity, raiseOnError, env);
             && (r.1.None? || (r.1.value.PlaceholderError? && !raiseOnError))
             && (rest.2.None? ==> forall j :: i + 1 <= j < |es| ==> Flagged(rest.0, Name(es[j].0), isEntity))
    ensures var r := ProcessEntries(reg, queue, es, i, isEntity, raiseOnError, env);
            r.2.None? ==> forall j :: i <= j < |es| ==> Flagged(r.0, Name(es[j].0), isEntity)
  {
    var r := LoadOne(reg, es[i].0, es[i].1, isEntity, env);
    var q' := if r.1.None? then queue else queue + [Queued(es, isEntity)];
    var rest := ProcessEntries(r.0, q', es, i + 1, isEntity, raiseOnError, env);
    LoadOneFlags(reg, es[i].0, es[i].1, isEntity, env);
    EntriesStep(reg, queue, es, i, isEntity, raiseOnError, env);
    assert ProcessEntries(reg, queue, es, i, isEntity, raiseOnError, env) == rest;
    if rest.2.None? {
      ProcessEntriesKeeps(r.0, q', es, i + 1, isEntity, raiseOnError, env, Name(es[i].0));
      forall j | i <= j < |es| ensures Flagged(rest.0, Name(es[j].0), isEntity) {
        if j == i {
          assert Flagged(rest.0, Name(es[i].0), isEntity);
        } else {
          assert i + 1 <= j < |es|;
        }
      }
    }
  }

  /** `q'` is `q` followed by copies of `x` only. */
  predicate ExtendsWith(q: seq<Queued>, q': seq<Queued>, x: Queued)
  {
    |q| <= |q'| && q'[..|q|] == q && forall j :: |q| <= j < |q'| ==> q'[j] == x
  }

  lemma ExtendsWithSelf(q: seq<Queued>, x: Queued)
    ensures ExtendsWith(q, q, x)
  {
    assert q[..|q|] == q;
  }

  /** One step of a mapping leaves the queue as it was or appends one copy. */
  lemma ExtendsWithStep(q: seq<Queued>, q': seq<Queued>, out: seq<Queued>, x: Queued)
    requires q' == q || q' == q + [x]
    requires ExtendsWith(q', out, x)
    ensures ExtendsWith(q, out, x)
  {
    if q' != q {
      ExtendsWithSnoc(q, out, x);
    }
  }

  lemma ExtendsWithSnoc(q: seq<Queued>, q': seq<Queued>, x: Queued)
    requires ExtendsWith(q + [x], q', x)
    ensures ExtendsWith(q, q', x)
  {
    assert q'[..|q| + 1][..|q|] == q'[..|q|];
    forall j | |q| <= j < |q'| ensures q'[j] == x {
      if j == |q| {
        assert q'[..|q| + 1][j] == (q + [x])[j];
      }
    }
  }

  /** Processing a mapping only appends to the queue, and only copies of that mapping. */
  lemma {:induction false} ProcessEntriesQueue(reg: Registry, queue: seq<Queued>, es: seq<(string, Grammar.GrammarData)>,
                                               i: nat, isEntity: bool, raiseOnError: bool, env: Env)
    requires i <= |es|
    ensures ExtendsWith(queue, ProcessEntries(reg, queue, es, i, isEntity, raiseOnError, env).1, Queued(es, isEntity))
    decreases |es| - i
  {
    if i < |es| {
      var r := LoadOne(reg, es[i].0, es[i].1, isEntity, env);
      if r.1.None? || (r.1.value.PlaceholderError? && !raiseOnError) {
        var q' := if r.1.None? then queue else queue + [Queued(es, isEntity)];
        ProcessEntriesQueue(r.0, q', es, i + 1, isEntity, raiseOnError, env);
        EntriesQueueStep(reg, queue, es, i, isEntity, raiseOnError, env);
      } else {
        EntriesStep(reg, queue, es, i, isEntity, raiseOnError, env);
        ExtendsWithSelf(queue, Queued(es, isEntity));
      }
    } else {
      ExtendsWithSelf(queue, Queued(es, isEntity));
    }
  }

  /** The queue after an item the loop goes on past extends the queue before it. */
  lemma EntriesQueueStep(reg: Registry, queue: seq<Queued>, es: seq<(string, Grammar.GrammarData)>,
                         i: nat, isEntity: bool, raiseOnError: bool, env: Env)
    requires i < |es|
    requires var r := LoadOne(reg, es[i].0, es[i].1, isEntity, env);
             var q' := if r.1.None? then queue else queue + [Queued(es, isEntity)];
             && (r.1.None? || (r.1.value.PlaceholderError? && !raiseOnError))
             && ExtendsWith(q', ProcessEntries(r.0, q', es, i + 1, isEntity, raiseOnError, env).1, Queued(es, isEntity))
    ensures ExtendsWith(queue, ProcessEntries(reg, queue, es, i, isEntity, raiseOnError, env).1, Queued(es, isEntity))
  {
    var r := LoadOne(reg, es[i].0, es[i].1, isEntity, env);
    var q' := if r.1.None? then queue else queue + [Queued(es, isEntity)];
    EntriesStep(reg, queue, es, i, isEntity, raiseOnError, env);
    ExtendsWithStep(queue, q', ProcessEntries(r.0, q', es, i + 1, isEntity, raiseOnError, env).1, Queued(es, isEntity));
  }

  /** With `raise_on_error` processing a mapping queues nothing. */
  lemma {:induction false} ProcessEntriesRaising(reg: Registry, queue: seq<Queued>, es: seq<(string, Grammar.GrammarData)>,
                                                 i: nat, isEntity: bool, env: Env)
    requires i <= |es|
    ensures ProcessEntries(reg, queue, es, i, isEntity, true, env).1 == queue
    decreases |es| - i
  {
    if i < |es| {
      var r := LoadOne(reg, es[i].0, es[i].1, isEntity, env);
      EntriesStep(reg, queue, es, i, isEntity, true, env);
      if r.1.None? {
        ProcessEntriesRaising(r.0, queue, es, i + 1, isEntity, env);
      }
    }
  }

  /** Without `raise_on_error` a PlaceholderError never escapes: each one queues the mapping instead. */
  lemma {:induction false} ProcessEntriesSwallows(reg: Registry, queue: seq<Queued>, es: seq<(string, Grammar.GrammarData)>,
                                                  i: nat, isEntity: bool, env: Env)
    requires i <= |es|
    ensures var r := ProcessEntries(reg, queue, es, i, isEntity, false, env);
            r.2.Some? ==> !r.2.value.PlaceholderError?
    decreases |es| - i
  {
    if i < |es| {
      var r := LoadOne(reg, es[i].0, es[i].1, isEntity, env);
      EntriesStep(reg, queue, es, i, isEntity, false, env);
      var q' := if r.1.None? then queue else queue + [Queued(es, isEntity)];
      if r.1.None? || r.1.value.PlaceholderError? {
        ProcessEntriesSwallows(r.0, q', es, i + 1, isEntity, env);
      }
    }
  }

  // ---------------------------------------------------------------------
  // The retry loop

  function Tries(retries: map<string, nat>, k: string): nat
  {
    if k in retries then retries[k] else 0
  }

  /** The attempts left to a name before the loop gives up on it. */
  function Left(retries: map<string, nat>, k: string): nat
  {
    if Tries(retries, k) >= 3 then 0 else 3 - Tries(retries, k)
  }

  function ItemLeft(es: seq<(string, Grammar.GrammarData)>, i: nat, retries: map<string, nat>): nat
    requires i <= |es|
    decreases |es| - i
  {
    if i == |es| then 0 else Left(retries, es[i].0) + ItemLeft(es, i + 1, retries)
  }

  /** The attempts left over the names of every queued mapping: the loop's variant. */
  function Budget(queue: seq<Queued>, retries: map<string, nat>): nat
  {
    if queue == [] then 0 else ItemLeft(queue[0].entries, 0, retries) + Budget(queue[1..], retries)
  }

  /**
   * `for n in data.keys(): retries[n] += 1; if retries[n] > 3: raise` from
   * the `i`-th key: the new counters, and whether it raises.
   */
  function Bump(retries: map<string, nat>, es: seq<(string, Grammar.GrammarData)>, i: nat): (map<string, nat>, bool)
    requires i <= |es|
    decreases |es| - i
  {
    if i == |es| then (retries, false)
    else
      var k := es[i].0;
      var r1 := retries[k := Tries(retries, k) + 1];
      if r1[k] > 3 then (r1, true) else Bump(r1, es, i + 1)
  }

  /** The counting loop of the retry: the new counters, and whether some name failed more than three times. */
  method CountFailure(retries: map<string, nat>, es: seq<(string, Grammar.GrammarData)>) returns (r: map<string, nat>, over: bool)
    ensures (r, over) == Bump(retries, es, 0)
  {
    r := retries;
    for i := 0 to |es|
      invariant Bump(r, es, i) == Bump(retries, es, 0)
    {
      var n := es[i].0;
      r := r[n := Tries(r, n) + 1];
      if r[n] > 3 {
        return r, true;
      }
    }
    return r, false;
  }

  /**
   * Counters only grow; a name not among the keys keeps its counter; and
   * when nothing is raised, every key's counter grew and is at most 3.
   */
  lemma {:induction false} BumpEffect(retries: map<string, nat>, es: seq<(string, Grammar.GrammarData)>, i: nat)
    requires i <= |es|
    ensures var r := Bump(retries, es, i);
            && (forall k :: Tries(r.0, k) >= Tries(retries, k))
            && (forall k :: (forall j :: i <= j < |es| ==> es[j].0 != k) ==> Tries(r.0, k) == Tries(retries, k))
            && (!r.1 ==> forall j :: i <= j < |es| ==> Tries(retries, es[j].0) < Tries(r.0, es[j].0) <= 3)
    decreases |es| - i
  {
    if i < |es| {
      var k := es[i].0;
      var r1 := retries[k := Tries(retries, k) + 1];
      if r1[k] <= 3 {
        BumpEffect(r1, es, i + 1);
      }
    }
  }

  lemma {:induction false} ItemLeftMono(es: seq<(string, Grammar.GrammarData)>, i: nat, r: map<string, nat>, r': map<string, nat>)
    requires i <= |es|
    requires forall k :: Tries(r', k) >= Tries(r, k)
    ensures ItemLeft(es, i, r') <= ItemLeft(es, i, r)
    decreases |es| - i
  {
    if i < |es| {
      ItemLeftMono(es, i + 1, r, r');
    }
  }

  lemma {:induction false} BudgetMono(queue: seq<Queued>, r: map<string, nat>, r': map<string, nat>)
    requires forall k :: Tries(r', k) >= Tries(r, k)
    ensures Budget(queue, r') <= Budget(queue, r)
  {
    if queue != [] {
      ItemLeftMono(queue[0].entries, 0, r, r');
      BudgetMono(queue[1..], r, r');
    }
  }

  lemma {:induction false} BudgetSnoc(queue: seq<Queued>, x: Queued, r: map<string, nat>)
    ensures Budget(queue + [x], r) == Budget(queue, r) + ItemLeft(x.entries, 0, r)
  {
    if queue != [] {
      assert (queue + [x])[1..] == queue[1..] + [x];
      BudgetSnoc(queue[1..], x, r);
    } else {
      assert [x][1..] == [];
    }
  }

  /**
   * A failed attempt that does not give up puts the mapping back with
   * raised counters: the attempts left shrink, so the loop ends.
   */
  lemma RetryShrinks(queue: seq<Queued>, retries: map<string, nat>)
    requires queue != [] && queue[0].entries != []
    requires !Bump(retries, queue[0].entries, 0).1
    ensures Budget(queue[1..] + [queue[0]], Bump(retries, queue[0].entries, 0).0) < Budget(queue, retries)
  {
    var es := queue[0].entries;
    var r' := Bump(retries, es, 0).0;
    BumpEffect(retries, es, 0);
    BudgetSnoc(queue[1..], queue[0], r');
    BudgetMono(queue[1..], retries, r');
    ItemLeftMono(es, 1, retries, r');
    assert Left(r', es[0].0) < Left(retries, es[0].0);
  }

  /** The `is_entity` a retried mapping is processed with: none is passed, so False, as written. */
  function RetryFlagAsWritten(item: Queued): bool
  {
    false
  }

  /** The corrected flag: the section the mapping was queued from. */
  function RetryFlag(item: Queued): bool
  {
    item.isEntity
  }

  /**
   * The loop `while not self.grammar_queue.empty()` from the given queue and
   * counters: the registry it leaves and the exception it ends with.
   * `asWritten` selects the flag the retries are processed with.
   */
  function Drain(reg: Registry, queue: seq<Queued>, retries: map<string, nat>, env: Env, asWritten: bool): (Registry, Option<Error>)
    decreases Budget(queue, retries), |queue|
  {
    if queue == [] then (reg, None)
    else
      var data := queue[0];
      var rest := queue[1..];
      var flag := if asWritten then RetryFlagAsWritten(data) else RetryFlag(data);
      var r := ProcessEntries(reg, rest, data.entries, 0, flag, true, env);
      if r.2.None? then Drain(r.0, rest, retries, env, asWritten)
      else if !r.2.value.PlaceholderError? || rest == [] then (r.0, r.2)
      else
        var b := Bump(retries, data.entries, 0);
        if b.1 then (r.0, r.2)
        else
          RetryShrinks(queue, retries);
          Drain(r.0, rest + [data], b.0, env, asWritten)
  }

  /** A reference whose expansion raises PlaceholderError whatever grammars are registered. */
  ghost predicate Unresolvable(v: Grammar.GrammarData, env: Env)
  {
    v.GStr? && '{' in v.text
    && forall known :: env.expand(known, v.text).Err? && env.expand(known, v.text).error.PlaceholderError?
  }

  /** Loading a definition that is such a reference raises PlaceholderError and leaves it registered, empty. */
  lemma LoadOneUnresolvable(reg: Registry, raw: string, value: Grammar.GrammarData, isEntity: bool, env: Env)
    requires Unresolvable(value, env)
    ensures LoadOne(reg, raw, value, isEntity, env).1 == Some(PlaceholderError(Name(raw)))
    ensures Get(LoadOne(reg, raw, value, isEntity, env).0, Name(raw)) == Some(Registered(isEntity, NoTables))
  {
    var name := Name(raw);
    var reg1 := Put(reg, name, Registered(isEntity, NoTables));
    var known := Known(reg1);
    assert env.expand(known, value.text).Err?;
    assert Grammar.LoadSpec(NoTables, name, value, known, env.expand) == (NoTables, Some(env.expand(known, value.text).error));
    PutGet(reg1, name, Registered(isEntity, NoTables), name);
  }

  /**
   * A mapping definition whose `j`-th value is the first to raise, with a
   * PlaceholderError, leaves its grammar registered with what it loaded
   * before: the names up to and including the `j`-th as choices, those
   * before it as recorded synonym keys, and the `j`-th name's key stored.
   * The exception carries the grammar's name.
   */
  lemma LoadOneKeepsPartial(reg: Registry, raw: string, es: seq<(string, Grammar.SynonymData)>, j: nat,
                            isEntity: bool, env: Env)
    requires j < |es|
    requires forall a :: 0 <= a < j ==>
               Grammar.SynonymsOf(es[a].1, Known(Put(reg, Name(raw), Registered(isEntity, NoTables))), env.expand).1.None?
    requires var e := Grammar.SynonymsOf(es[j].1, Known(Put(reg, Name(raw), Registered(isEntity, NoTables))), env.expand).1;
             e.Some? && e.value.PlaceholderError?
    ensures KeptPartial(LoadOne(reg, raw, Grammar.GMap(es), isEntity, env), Name(raw), isEntity, Grammar.EntryKeys(es), j)
  {
    var name := Name(raw);
    var reg1 := Put(reg, name, Registered(isEntity, NoTables));
    var known := Known(reg1);
    var ld := Grammar.LoadSpec(NoTables, name, Grammar.GMap(es), known, env.expand);
    Grammar.LoadMapStops(NoTables, es, 0, j, known, env.expand);
    Grammar.LoadSpecMap(NoTables, name, es, known, env.expand);
    LoadOneUnfold(reg, raw, Grammar.GMap(es), isEntity, env);
    PartialRegistered(reg1, name, isEntity, ld, Grammar.EntryKeys(es), j);
  }

  /**
   * `r` is the outcome of loading the grammar `name` that raised a
   * PlaceholderError at its `j`-th key: the exception carries the name, and
   * the grammar stays registered, with its flag, the keys up to and including
   * the `j`-th as choices, those before it as recorded synonym keys, and the
   * `j`-th key stored in its synonyms.
   */
  ghost predicate KeptPartial(r: (Registry, Option<Error>), name: string, isEntity: bool, ks: seq<string>, j: nat)
  {
    && r.1 == Some(PlaceholderError(name))
    && Get(r.0, name).Some?
    && Get(r.0, name).value.isEntity == isEntity
    && j < |ks|
    && Get(r.0, name).value.tables.choices == ks[0..j + 1]
    && Get(r.0, name).value.tables.usedSynonyms == ks[0..j]
    && ks[j] in Keys(Get(r.0, name).value.tables.synonyms)
  }

  /** `LoadOne`, its loaded tables and exception named. */
  lemma LoadOneUnfold(reg: Registry, raw: string, value: Grammar.GrammarData, isEntity: bool, env: Env)
    ensures var reg1 := Put(reg, Name(raw), Registered(isEntity, NoTables));
            var ld := Grammar.LoadSpec(NoTables, Name(raw), value, Known(reg1), env.expand);
            LoadOne(reg, raw, value, isEntity, env) == (Put(reg1, Name(raw), Registered(isEntity, ld.0)), Tagged(ld.1, Name(raw)))
  {
  }

  /** A grammar registered with tables loaded from empty ones up to the `j`-th key, where a PlaceholderError stopped it. */
  lemma PartialRegistered(reg1: Registry, name: string, isEntity: bool, ld: (Grammar.Tables, Option<Error>),
                          ks: seq<string>, j: nat)
    requires j < |ks| && ld.1.Some? && ld.1.value.PlaceholderError?
    requires ld.0.choices == [] + ks[0..j + 1] && ld.0.usedSynonyms == [] + ks[0..j]
    requires ks[j] in Keys(ld.0.synonyms)
    ensures KeptPartial((Put(reg1, name, Registered(isEntity, ld.0)), Tagged(ld.1, name)), name, isEntity, ks, j)
  {
    PutGet(reg1, name, Registered(isEntity, ld.0), name);
    EmptyConcat(ks[0..j + 1]);
    EmptyConcat(ks[0..j]);
  }

  lemma EmptyConcat(s: seq<string>)
    ensures [] + s == s
  {
  }

  /**
   * Definitions that never stop failing end the loop with PlaceholderError:
   * the error of the last one, or of the first whose name has failed more
   * than three times.
   */
  lemma {:induction false} DrainAllFail(reg: Registry, queue: seq<Queued>, retries: map<string, nat>, env: Env, asWritten: bool)
    requires forall j :: 0 <= j < |queue| ==> queue[j].entries != [] && Unresolvable(queue[j].entries[0].1, env)
    ensures queue != [] ==> Drain(reg, queue, retries, env, asWritten).1.Some?
    ensures queue != [] ==> Drain(reg, queue, retries, env, asWritten).1.value.PlaceholderError?
    decreases Budget(queue, retries), |queue|
  {
    if queue != [] {
      var data := queue[0];
      var rest := queue[1..];
      var flag := if asWritten then RetryFlagAsWritten(data) else RetryFlag(data);
      var r := ProcessEntries(reg, rest, data.entries, 0, flag, true, env);
      var one := LoadOne(reg, data.entries[0].0, data.entries[0].1, flag, env);
      LoadOneUnresolvable(reg, data.entries[0].0, data.entries[0].1, flag, env);
      assert r == (one.0, rest, one.1);
      var b := Bump(retries, data.entries, 0);
      if rest != [] && !b.1 {
        RetryShrinks(queue, retries);
        DrainAllFail(r.0, rest + [data], b.0, env, asWritten);
      }
    }
  }

  /**
   * With the corrected flag, a retry that goes through registers every name
   * of the mapping as an entity exactly when the mapping came from the
   * `entities` section.
   */
  lemma RetryKeepsFlag(reg: Registry, data: Queued, rest: seq<Queued>, env: Env)
    ensures var r := ProcessEntries(reg, rest, data.entries, 0, RetryFlag(data), true, env);
            r.2.None? ==> forall j :: 0 <= j < |data.entries| ==> Flagged(r.0, Name(data.entries[j].0), data.isEntity)
  {
    ProcessEntriesFlags(reg, rest, data.entries, 0, RetryFlag(data), true, env);
  }

  /**
   * As written, an entity definition that had to wait for another one is
   * registered on its retry as a plain grammar.
   */
  lemma EntityFlagLostAsWritten(env: Env, es: seq<(string, Grammar.GrammarData)>)
    requires es == [("city", Grammar.GNone)]
    ensures Flagged(Drain([], [Queued(es, true)], map[], env, true).0, Name("city"), false)
    ensures Flagged(Drain([], [Queued(es, true)], map[], env, false).0, Name("city"), true)
  {
    DrainNoneEntry(env, es, true);
    DrainNoneEntry(env, es, false);
  }

  /** The queued entity mapping `{city: None}` is retried, as written or corrected, and goes through. */
  lemma DrainNoneEntry(env: Env, es: seq<(string, Grammar.GrammarData)>, asWritten: bool)
    requires es == [("city", Grammar.GNone)]
    ensures Flagged(Drain([], [Queued(es, true)], map[], env, asWritten).0, Name("city"), !asWritten)
  {
    var q := Queued(es, true);
    var flag := if asWritten then RetryFlagAsWritten(q) else RetryFlag(q);
    NoneEntryLoads(env, es, flag);
    var r := ProcessEntries([], [], es, 0, flag, true, env);
    ProcessEntriesFlags([], [], es, 0, flag, true, env);
    assert [q][1..] == [];
    assert Drain([], [q], map[], env, asWritten) == Drain(r.0, [], map[], env, asWritten);
  }

  /** `{city: None}` loads without an exception and queues nothing. */
  lemma NoneEntryLoads(env: Env, es: seq<(string, Grammar.GrammarData)>, isEntity: bool)
    requires es == [("city", Grammar.GNone)]
    ensures ProcessEntries([], [], es, 0, isEntity, true, env).1 == []
    ensures ProcessEntries([], [], es, 0, isEntity, true, env).2.None?
  {
    var one := LoadOne([], "city", Grammar.GNone, isEntity, env);
    assert one.1.None?;
    assert ProcessEntries([], [], es, 0, isEntity, true, env) == ProcessEntries(one.0, [], es, 1, isEntity, true, env);
  }

  /**
   * Loading the grammars, then the entities, then draining the queue. A
   * section the intent data lacks (None) raises KeyError when `load` comes
   * to it: `grammars` before anything is registered, `entities` after the
   * grammars are.
   */
  function Registration(reg: Registry, queue: seq<Queued>, grammarDefs: Option<GrammarDefs>,
                        entityDefs: Option<GrammarDefs>, env: Env): (Registry, Option<Error>)
  {
    if grammarDefs.None? then (reg, Some(KeyError(GrammarsKey)))
    else
      var r1 := ProcessDefs(reg, queue, grammarDefs.value, false, false, env);
      if r1.2.Some? then (r1.0, r1.2)
      else if entityDefs.None? then (r1.0, Some(KeyError(EntitiesKey)))
      else
        var r2 := ProcessDefs(r1.0, r1.1, entityDefs.value, true, false, env);
        if r2.2.Some? then (r2.0, r2.2)
        else Drain(r2.0, r2.1, map[], env, false)
  }

  /** The keys `load` reads from the intent data. */
  const TextKey := "text"
  const GrammarsKey := "grammars"
  const EntitiesKey := "entities"

  /** `for grammar in grammars.values(): synonyms.update(grammar.synonyms)`. */
  function MergeSynonyms(d: Dict<string, seq<string>>, reg: Registry): Dict<string, seq<string>>
    decreases |reg|
  {
    if reg == [] then d else MergeSynonyms(Update(d, reg[0].1.tables.synonyms), reg[1..])
  }

  /** The last registered grammar whose synonyms hold `k`, or -1. */
  function LastWith(reg: Registry, k: string): (l: int)
    ensures -1 <= l < |reg|
    ensures l == -1 <==> forall j :: 0 <= j < |reg| ==> k !in Keys(reg[j].1.tables.synonyms)
    ensures l != -1 ==> k in Keys(reg[l].1.tables.synonyms)
    ensures forall j :: l < j < |reg| ==> k !in Keys(reg[j].1.tables.synonyms)
  {
    if reg == [] then -1
    else
      var l := LastWith(reg[1..], k);
      assert forall j :: 1 <= j < |reg| ==> reg[j] == reg[1..][j - 1];
      if l != -1 then l + 1
      else if k in Keys(reg[0].1.tables.synonyms) then 0
      else -1
  }

  /**
   * After the merge, a key holds the synonyms of the last grammar that has
   * it; a key no grammar has keeps what the intent held before.
   */
  lemma {:induction false} MergeSynonymsGet(d: Dict<string, seq<string>>, reg: Registry, k: string)
    requires forall j :: 0 <= j < |reg| ==> KeysUnique(reg[j].1.tables.synonyms)
    ensures var l := LastWith(reg, k);
            Get(MergeSynonyms(d, reg), k) == if l == -1 then Get(d, k) else Get(reg[l].1.tables.synonyms, k)
    decreases |reg|
  {
    if reg != [] {
      var s0 := reg[0].1.tables.synonyms;
      assert forall j :: 1 <= j < |reg| ==> reg[j] == reg[1..][j - 1];
      UpdateGet(d, s0, k);
      MergeSynonymsGet(Update(d, s0), reg[1..], k);
    }
  }

  // ---------------------------------------------------------------------
  // The intent

  class Intent {
    const name: string
    var texts: Texts.Texts
    var parsers: seq<Parser>
    var parserMap: map<string, Parser>
    var grammars: Registry
    var synonyms: Dict<string, seq<string>>
    var queue: seq<Queued>

    constructor(name: string)
      ensures this.name == name && fresh(texts)
      ensures texts.available == [] && texts.used == [] && texts.importantCount == 0
      ensures parsers == [] && parserMap == map[] && grammars == [] && synonyms == [] && queue == []
    {
      this.name := name;
      texts := new Texts.Texts();
      parsers := [];
      parserMap := map[];
      grammars := [];
      synonyms := [];
      queue := [];
    }

    /** Each parser's text with its possible count, in parser order. */
    function PossiblePairs(): (ps: seq<(string, nat)>)
      reads this
      ensures |ps| == |parsers| && forall i :: 0 <= i < |parsers| ==> ps[i] == (parsers[i].text, parsers[i].possibleCombinations)
    {
      seq(|parsers|, i requires 0 <= i < |parsers| reads this => (parsers[i].text, parsers[i].possibleCombinations))
    }

    /** `get_possible_combination_count`. */
    function GetPossibleCombinationCount(): (n: nat)
      reads this
      ensures n >= 1
    {
      PossibleCount(PossiblePairs())
    }

    /** `_get_minimum_num(num)`. */
    function GetMinimumNum(num: nat): (n: nat)
      reads this, texts
      ensures n >= Sum(MinsOf(parsers)) + texts.importantCount
      ensures n >= (if num == 0 then GetPossibleCombinationCount() else num)
    {
      MinimumNum(num, GetPossibleCombinationCount(), MinsOf(parsers), texts.importantCount)
    }

    /**
     * `get_parser_combination(parser)`: the next combination of the parser's
     * combinator; once there is none, the parser's template is invalidated
     * and a combination handed out before (or None) is returned instead.
     */
    method GetParserCombination(p: Parser) returns (c: Option<Combination>)
      requires p.combinator.Valid()
      modifies p.combinator`available, p.combinator`used, texts`available, texts`used
      ensures p.combinator.Valid()
      ensures old(p.combinator.available) != {} ==>
                && c.Some? && c.value in old(p.combinator.available)
                && p.combinator.available == old(p.combinator.available) - {c.value}
                && p.combinator.used == old(p.combinator.used) + {c.value}
                && texts.available == old(texts.available) && texts.used == old(texts.used)
      ensures old(p.combinator.available) == {} ==>
                && p.combinator.available == {} && p.combinator.used == old(p.combinator.used)
                && (c.None? <==> p.combinator.used == {})
                && (c.Some? ==> c.value in p.combinator.used)
                && (p.text in old(texts.available) ==>
                      texts.available == Texts.RemoveFirst(old(texts.available), p.text)
                      && texts.used == old(texts.used) + [p.text])
                && (p.text !in old(texts.available) ==>
                      texts.available == old(texts.available) && texts.used == old(texts.used))
    {
      c := p.combinator.Get();
      if c.None? {
        texts.InvalidateText(p.text);
        c := p.combinator.GetUsed();
      }
    }

    /**
     * `choose_text()`: the template on top of the stack, moved to `used`;
     * once the stack is empty, a used one (`pick` stands for the random
     * choice), or None when there is none.
     */
    method ChooseText(pick: nat) returns (t: Option<string>)
      modifies texts`available, texts`used
      ensures old(texts.available) != [] ==>
                && t == Some(old(texts.available)[|old(texts.available)| - 1])
                && texts.available == old(texts.available)[..|old(texts.available)| - 1]
                && texts.used == old(texts.used) + [t.value]
      ensures old(texts.available) == [] ==>
                && texts.available == [] && texts.used == old(texts.used)
                && (t.None? <==> texts.used == [])
                && (t.Some? ==> t.value in texts.used)
    {
      t := texts.Get();
      if t.None? {
        t := texts.GetUsed(pick);
      }
    }

    /** One `name: value` item of a mapping section. */
    method RegisterGrammar(raw: string, value: Grammar.GrammarData, isEntity: bool, env: Env) returns (err: Option<Error>)
      modifies this`grammars
      ensures (grammars, err) == LoadOne(old(grammars), raw, value, isEntity, env)
    {
      var name := Name(raw);
      var g := new Grammar.Grammar(name, isEntity);
      grammars := Put(grammars, name, Registered(isEntity, g.TablesOf()));
      var e := g.LoadData(value, Known(grammars), env.expand);
      grammars := Put(grammars, name, Registered(isEntity, g.TablesOf()));
      err := Tagged(e, name);
    }

    /** `process_grammars(data, is_entity, raise_on_error)`. */
    method ProcessGrammars(data: GrammarDefs, isEntity: bool, raiseOnError: bool, env: Env) returns (err: Option<Error>)
      modifies this`grammars, this`queue
      ensures (grammars, queue, err) == ProcessDefs(old(grammars), old(queue), data, isEntity, raiseOnError, env)
      decreases data, 1
    {
      match data {
        case DOther =>
          err := Some(AttributeError);
        case DList(items) =>
          err := ProcessItems(items, isEntity, env);
        case DMap(es) =>
          err := ProcessMapping(es, isEntity, raiseOnError, env);
      }
    }

    /** The list branch of `process_grammars`: each element without `raise_on_error`. */
    method ProcessItems(items: seq<GrammarDefs>, isEntity: bool, env: Env) returns (err: Option<Error>)
      modifies this`grammars, this`queue
      ensures (grammars, queue, err) == ProcessList(old(grammars), old(queue), items, 0, isEntity, env)
      decreases DList(items), 0
    {
      for i := 0 to |items|
        invariant ProcessList(grammars, queue, items, i, isEntity, env)
               == ProcessList(old(grammars), old(queue), items, 0, isEntity, env)
      {
        err := ProcessGrammars(items[i], isEntity, false, env);
        if err.Some? {
          return;
        }
      }
      err := None;
    }

    /** The mapping branch of `process_grammars`. */
    method ProcessMapping(es: seq<(string, Grammar.GrammarData)>, isEntity: bool, raiseOnError: bool, env: Env)
        returns (err: Option<Error>)
      modifies this`grammars, this`queue
      ensures (grammars, queue, err) == ProcessEntries(old(grammars), old(queue), es, 0, isEntity, raiseOnError, env)
    {
      for i := 0 to |es|
        invariant ProcessEntries(grammars, queue, es, i, isEntity, raiseOnError, env)
               == ProcessEntries(old(grammars), old(queue), es, 0, isEntity, raiseOnError, env)
      {
        EntriesStep(grammars, queue, es, i, isEntity, raiseOnError, env);
        var e := RegisterGrammar(es[i].0, es[i].1, isEntity, env);
        if e.Some? {
          if e.value.PlaceholderError? && !raiseOnError {
            queue := queue + [Queued(es, isEntity)];
          } else {
            return e;
          }
        }
      }
      err := None;
    }

    /** The retry loop of `load`, with the corrected flag. */
    method Retry(env: Env) returns (err: Option<Error>)
      modifies this`grammars, this`queue
      ensures (grammars, err) == Drain(old(grammars), old(queue), map[], env, false)
      ensures err.None? ==> queue == []
    {
      var retries: map<string, nat> := map[];
      while queue != []
        invariant Drain(grammars, queue, retries, env, false) == Drain(old(grammars), old(queue), map[], env, false)
        decreases Budget(queue, retries), |queue|
      {
        var data := queue[0];
        queue := queue[1..];
        ProcessEntriesRaising(grammars, queue, data.entries, 0, RetryFlag(data), env);
        var e := ProcessGrammars(DMap(data.entries), RetryFlag(data), true, env);
        if e.Some? {
          if !e.value.PlaceholderError? || queue == [] {
            return e;
          }
          var bumped, over := CountFailure(retries, data.entries);
          if over {
            return e;
          }
          RetryShrinks([data] + queue, retries);
          retries := bumped;
          queue := queue + [data];
        }
      }
      return None;
    }

    /** `for grammar in self.grammars.values(): self.synonyms.update(grammar.synonyms)`. */
    method MergeGrammarSynonyms()
      modifies this`synonyms
      ensures synonyms == MergeSynonyms(old(synonyms), grammars)
    {
      assert grammars[0..] == grammars;
      for i := 0 to |grammars|
        invariant MergeSynonyms(synonyms, grammars[i..]) == MergeSynonyms(old(synonyms), grammars)
      {
        assert grammars[i..][1..] == grammars[i + 1..];
        synonyms := Update(synonyms, grammars[i].1.tables.synonyms);
      }
    }

    /** One parser per available template, appended in order; `parser_map` maps each template to its parser. */
    method BuildParsers(parse: string -> (seq<Placeholder.PlaceHolder>, nat))
      modifies this`parsers, this`parserMap
      ensures |old(parsers)| <= |parsers| && parsers[..|old(parsers)|] == old(parsers)
      ensures AllBuilt(parsers[|old(parsers)|..], texts.available, parse)
      ensures forall p :: p in parsers[|old(parsers)|..] ==> fresh(p)
      ensures Indexed(parserMap, old(parserMap), texts.available)
    {
      var avail := texts.available;
      ghost var built: seq<Parser> := [];
      for i := 0 to |avail|
        invariant parsers == old(parsers) + built
        invariant AllBuilt(built, avail[..i], parse)
        invariant forall p :: p in built ==> fresh(p)
        invariant Indexed(parserMap, old(parserMap), avail[..i])
      {
        SliceSnoc(avail, 0, i);
        ghost var pm := parserMap;
        var p := AddParser(avail[i], parse);
        AllBuiltSnoc(built, avail[..i], p, avail[i], parse);
        IndexedSnoc(pm, old(parserMap), avail[..i], avail[i], p);
        built := built + [p];
      }
      SliceAll(avail, 0);
      assert parsers[|old(parsers)|..] == built;
    }

    /** One iteration of the parser loop of `load`: a parser for `text`, appended and indexed. */
    method AddParser(text: string, parse: string -> (seq<Placeholder.PlaceHolder>, nat)) returns (p: Parser)
      modifies this`parsers, this`parserMap
      ensures fresh(p) && fresh(p.combinator) && Built(p, text, parse)
      ensures parsers == old(parsers) + [p] && parserMap == old(parserMap)[text := p]
    {
      var layout := parse(text);
      p := new Parser(text, layout.0, layout.1);
      parsers := parsers + [p];
      parserMap := parserMap[text := p];
    }

    /**
     * `load(intent_data)`: the templates, the grammars, the entities, the
     * retry loop (with the corrected flag), the synonyms, then a parser per
     * available template. The exception raised, if any. Each section is None
     * when the intent data lacks its key: `intent_data['text']` raises
     * KeyError once the new `Texts` is in place, before anything else changes.
     */
    method Load(text: Option<seq<Texts.TextEntry>>, grammarDefs: Option<GrammarDefs>, entityDefs: Option<GrammarDefs>,
                env: Env, parse: string -> (seq<Placeholder.PlaceHolder>, nat)) returns (err: Option<Error>)
      modifies this
      ensures fresh(texts) && texts.used == []
      ensures text.None? ==> err == Some(KeyError(TextKey)) && texts.available == [] && texts.importantCount == 0
      ensures text.Some? ==>
                && (texts.available, texts.importantCount) == (Texts.LoadTexts([], 0, text.value).0,
                                                               Texts.LoadTexts([], 0, text.value).1)
                && (Texts.LoadTexts([], 0, text.value).2.Some? ==> err == Texts.LoadTexts([], 0, text.value).2)
                && (Texts.LoadTexts([], 0, text.value).2.None? ==>
                      (grammars, err) == Registration(old(grammars), old(queue), grammarDefs, entityDefs, env))
      ensures text.None? || Texts.LoadTexts([], 0, text.value).2.Some? ==>
                grammars == old(grammars) && queue == old(queue) && synonyms == old(synonyms)
      ensures err.Some? ==> parsers == old(parsers) && parserMap == old(parserMap) && synonyms == old(synonyms)
      ensures err.None? ==> queue == [] && synonyms == MergeSynonyms(old(synonyms), grammars)
      ensures err.None? ==> |old(parsers)| <= |parsers| && parsers[..|old(parsers)|] == old(parsers)
      ensures err.None? ==> AllBuilt(parsers[|old(parsers)|..], texts.available, parse)
      ensures err.None? ==> Indexed(parserMap, old(parserMap), texts.available)
    {
      texts := new Texts.Texts();
      if text.None? {
        return Some(KeyError(TextKey));
      }
      err := texts.Load(text.value);
      if err.Some? {
        return;
      }
      err := LoadGrammars(grammarDefs, entityDefs, env);
      if err.Some? {
        return;
      }
      BuildParsers(parse);
    }

    /**
     * The grammar part of `load`: both sections, the retry loop, then the
     * synonyms; KeyError for a section the intent data lacks.
     */
    method LoadGrammars(grammarDefs: Option<GrammarDefs>, entityDefs: Option<GrammarDefs>, env: Env)
      returns (err: Option<Error>)
      modifies this`grammars, this`queue, this`synonyms
      ensures (grammars, err) == Registration(old(grammars), old(queue), grammarDefs, entityDefs, env)
      ensures err.None? ==> queue == [] && synonyms == MergeSynonyms(old(synonyms), grammars)
      ensures err.Some? ==> synonyms == old(synonyms)
    {
      if grammarDefs.None? {
        return Some(KeyError(GrammarsKey));
      }
      err := ProcessGrammars(grammarDefs.value, false, false, env);
      if err.Some? {
        return;
      }
      if entityDefs.None? {
        return Some(KeyError(EntitiesKey));
      }
      err := ProcessGrammars(entityDefs.value, true, false, env);
      if err.Some? {
        return;
      }
      err := Retry(env);
      if err.Some? {
        return;
      }
      MergeGrammarSynonyms();
    }
  }

  /** `p` is the parser of `text`: its layout and count come from `parse`, its combinator is fresh. */
  ghost predicate Built(p: Parser, text: string, parse: string -> (seq<Placeholder.PlaceHolder>, nat))
    reads p.combinator
  {
    && p.text == text
    && p.combinator.placeholders == parse(text).0
    && p.possibleCombinations == parse(text).1
    && p.combinator.Valid()
    && p.combinator.used == {}
  }

  /** `ps` are the parsers of `ts`, one each, in order. */
  ghost predicate AllBuilt(ps: seq<Parser>, ts: seq<string>, parse: string -> (seq<Placeholder.PlaceHolder>, nat))
    reads set p | p in ps :: p.combinator
  {
    |ps| == |ts| && forall j :: 0 <= j < |ps| ==> Built(ps[j], ts[j], parse)
  }

  lemma AllBuiltSnoc(ps: seq<Parser>, ts: seq<string>, p: Parser, t: string, parse: string -> (seq<Placeholder.PlaceHolder>, nat))
    requires AllBuilt(ps, ts, parse) && Built(p, t, parse)
    ensures AllBuilt(ps + [p], ts + [t], parse)
  {
    forall j | 0 <= j < |ps| + 1 ensures Built((ps + [p])[j], (ts + [t])[j], parse) {
      if j < |ps| {
        assert (ps + [p])[j] == ps[j];
      }
    }
  }

  /** `pm` maps every template of `ts` to a parser of that template, and otherwise has the keys of `pm0`. */
  ghost predicate Indexed(pm: map<string, Parser>, pm0: map<string, Parser>, ts: seq<string>)
  {
    && (forall t :: t in pm <==> t in pm0 || t in ts)
    && (forall t :: t in ts ==> pm[t].text == t)
  }

  lemma IndexedSnoc(pm: map<string, Parser>, pm0: map<string, Parser>, ts: seq<string>, t: string, p: Parser)
    requires Indexed(pm, pm0, ts) && p.text == t
    ensures Indexed(pm[t := p], pm0, ts + [t])
  {
  }

  /** The number of training examples: what is left once the testing ones are set aside. */
  function TrainingCount(num: nat, ratio: nat): (k: nat)
    ensures k <= num
    ensures TestingCount(num, ratio) <= num ==> k + TestingCount(num, ratio) == num
    ensures TestingCount(num, ratio) > num ==> k == 0
  {
    var t := TestingCount(num, ratio);
    if t >= num then 0 else num - t
  }

  /** A slice grows by the element after it. */
  lemma SliceSnoc<T>(s: seq<T>, a: nat, b: nat)
    requires a <= b < |s| || a == b == |s|
    ensures b < |s| ==> s[a..b + 1] == s[a..b] + [s[b]] && s[..b + 1][..b] == s[..b] && s[..b + 1][b] == s[b]
    ensures s[b..b] == []
  {
  }

  /** Where the examples stop going to training: `trainingCount` clamped to `0..n`. */
  function SplitPoint(trainingCount: int, n: nat): (s: nat)
    ensures s <= n
    ensures 0 <= trainingCount <= n ==> s == trainingCount
  {
    if trainingCount < 0 then 0 else if trainingCount > n then n else trainingCount
  }

  function Lesser(a: nat, b: nat): nat
  {
    if a <= b then a else b
  }

  /** One more element placed: before `split` it extends the front part, after it the back part. */
  lemma PlaceStep<T>(s: seq<T>, split: nat, i: nat)
    requires split <= |s| && i < |s|
    ensures i < split ==> (s[..Lesser(i + 1, split)] == s[..Lesser(i, split)] + [s[i]]
                           && s[Lesser(i + 1, split)..i + 1] == s[Lesser(i, split)..i])
    ensures i >= split ==> (s[..Lesser(i + 1, split)] == s[..Lesser(i, split)]
                            && s[Lesser(i + 1, split)..i + 1] == s[Lesser(i, split)..i] + [s[i]])
  {
  }

  lemma SliceAll<T>(s: seq<T>, k: nat)
    requires k <= |s|
    ensures s[..|s|] == s && s[0..|s|] == s && s[|s|..|s|] == [] && s[k..|s|] == s[k..]
  {
  }

  /** `synonyms_used.update(example.synonyms_used)` for the first `k` examples in turn. */
  function UsedMerged(d: Dict<string, seq<string>>, used: seq<Dict<string, seq<string>>>, k: nat): Dict<string, seq<string>>
    requires k <= |used|
  {
    if k == 0 then d else Update(UsedMerged(d, used, k - 1), used[k - 1])
  }

  /** The synonyms each example used, in order. */
  function UsedBy(exs: seq<CommonExample.CommonExample>): (used: seq<Dict<string, seq<string>>>)
    reads set e | e in exs
    ensures |used| == |exs| && forall i :: 0 <= i < |exs| ==> used[i] == exs[i].synonymsUsed
  {
    seq(|exs|, i requires 0 <= i < |exs| reads set e | e in exs => exs[i].synonymsUsed)
  }

  /**
   * The loop of `RasaNLUIntent.process`: the synonyms each example used
   * (`used`) are merged in turn, and an example goes to testing once its
   * index reaches `trainingCount`.
   */
  method Distribute<T>(synonyms: Dict<string, seq<string>>, training: seq<T>, testing: seq<T>,
                       examples: seq<T>, used: seq<Dict<string, seq<string>>>, trainingCount: int)
      returns (synonyms': Dict<string, seq<string>>, training': seq<T>, testing': seq<T>)
    requires |used| == |examples|
    ensures training' == training + examples[..SplitPoint(trainingCount, |examples|)]
    ensures testing' == testing + examples[SplitPoint(trainingCount, |examples|)..]
    ensures synonyms' == UsedMerged(synonyms, used, |examples|)
  {
    ghost var split := SplitPoint(trainingCount, |examples|);
    synonyms', training', testing' := synonyms, training, testing;
    for index := 0 to |examples|
      invariant synonyms' == UsedMerged(synonyms, used, index)
      invariant training' == training + examples[..Lesser(index, split)]
      invariant testing' == testing + examples[Lesser(index, split)..index]
    {
      PlaceStep(examples, split, index);
      synonyms' := Update(synonyms', used[index]);
      if index >= trainingCount {
        testing' := testing' + [examples[index]];
      } else {
        training' := training' + [examples[index]];
      }
    }
    assert examples[split..|examples|] == examples[split..];
  }

  /** One entry of `entity_synonyms()`. */
  datatype SynonymEntry = SynonymEntry(value: string, synonyms: seq<string>)

  /**
   * `RasaNLUIntent`: an intent with the examples it generated, split into
   * training and testing, and the synonyms the examples used.
   */
  class RasaNluIntent {
    const intent: Intent
    var synonymsUsed: Dict<string, seq<string>>
    var trainingExamples: seq<CommonExample.CommonExample>
    var testingExamples: seq<CommonExample.CommonExample>

    constructor(name: string)
      ensures fresh(intent) && intent.name == name
      ensures synonymsUsed == [] && trainingExamples == [] && testingExamples == []
    {
      intent := new Intent(name);
      synonymsUsed := [];
      trainingExamples := [];
      testingExamples := [];
    }

    /**
     * `process(num, test_ratio)` over `examples`, the examples the intent
     * generates for the minimum number: the first `TrainingCount` of them go
     * to training and the rest to testing, both in order; the synonyms each
     * used are merged in order.
     */
    method Process(num: nat, testRatio: nat, examples: seq<CommonExample.CommonExample>)
      requires |examples| == intent.GetMinimumNum(num)
      modifies this`synonymsUsed, this`trainingExamples, this`testingExamples
      ensures var split := TrainingCount(|examples|, testRatio);
              && trainingExamples == old(trainingExamples) + examples[..split]
              && testingExamples == old(testingExamples) + examples[split..]
      ensures synonymsUsed == UsedMerged(old(synonymsUsed), UsedBy(examples), |examples|)
    {
      var n := intent.GetMinimumNum(num);
      var testingCount := TestingCount(n, testRatio);
      var trainingCount := n as int - testingCount as int;
      synonymsUsed, trainingExamples, testingExamples :=
        Distribute(synonymsUsed, trainingExamples, testingExamples, examples, UsedBy(examples), trainingCount);
    }

    /** `entity_synonyms()`: one entry per name in `synonyms_used`, in insertion order. */
    function EntitySynonyms(): (r: seq<SynonymEntry>)
      reads this
      ensures |r| == |synonymsUsed|
      ensures forall i :: 0 <= i < |r| ==> r[i] == SynonymEntry(synonymsUsed[i].0, synonymsUsed[i].1)
    {
      seq(|synonymsUsed|, i requires 0 <= i < |synonymsUsed| reads this => SynonymEntry(synonymsUsed[i].0, synonymsUsed[i].1))
    }
  }
}
