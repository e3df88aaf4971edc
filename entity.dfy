/**
 * `Entity`: a grammar whose chosen value is reported as an entity of the
 * generated text, with the span it occupies.
 *
 * The value `update` reads from `grammar.entity_value` is an attribute the
 * shown `Grammar` does not define; it is the parameter `grammarEntityValue`.
 */
module Entity {
  import opened Wrappers
  import opened Errors
  import opened PyStr
  import opened PyDict
  import Grammar

  /** What `to_example` reports. */
  datatype Example = Example(start: int, end: int, value: Option<string>, entity: string)

  /**
   * The span arithmetic of `update`: with `start` one past the position of
   * the placeholder, a replacement `v` occupies the text from `start - 1` to
   * `start - 1 + |v|`, so `end - 1` is where it stops when `v` is the
   * canonical value.
   */
  lemma ValueAtSpan(text: string, placeholderText: string, v: string)
    requires placeholderText != [] && Contains(text, placeholderText)
    ensures var start := Find(text, placeholderText) + 1;
            && 1 <= start
            && start - 1 + |v| <= |ReplaceAll(text, placeholderText, v)|
            && ReplaceAll(text, placeholderText, v)[start - 1..start - 1 + |v|] == v
            && ReplaceAll(text, placeholderText, v)[..start - 1] == text[..start - 1]
  {
    ReplaceAllFirst(text, placeholderText, v);
  }

  /** The fields of an entity that `update` writes. */
  datatype Record = Record(start: int, end: int, value: Option<string>, entityValue: Option<string>,
                           usedSynonyms: seq<string>)

  /**
   * The entity after `update(placeholder_text, text, value)` over a grammar
   * with these choices and synonyms: `start` always moves to the
   * placeholder, and the rest follows the chosen value only when the
   * grammar's `update` succeeds.
   */
  function Updated(rec: Record, choices: seq<string>, synonyms: Dict<string, seq<string>>, placeholderText: string,
                   text: string, index: Option<int>, pick: nat, synPick: nat, grammarEntityValue: string): (r: Record)
    ensures r.start == Find(text, placeholderText) + 1
    ensures Grammar.Substituted(choices, synonyms, placeholderText, text, index, pick, synPick).Err? ==>
              r == rec.(start := r.start)
    ensures Grammar.Substituted(choices, synonyms, placeholderText, text, index, pick, synPick).Ok? ==>
              && Grammar.ChosenIndex(choices, index, pick).Some?
              && r.value == Some(choices[Grammar.ChosenIndex(choices, index, pick).value])
              && r.end == r.start + |r.value.value|
              && r.entityValue == Some(grammarEntityValue)
              && r.usedSynonyms == rec.usedSynonyms + (if r.entityValue != r.value then [grammarEntityValue] else [])
  {
    var start := Find(text, placeholderText) + 1;
    match Grammar.ChosenIndex(choices, index, pick)
    case None => rec.(start := start)
    case Some(i) =>
      if Grammar.Substituted(choices, synonyms, placeholderText, text, index, pick, synPick).Err? then
        rec.(start := start)
      else
        Record(start, start + |choices[i]|, Some(choices[i]), Some(grammarEntityValue),
               rec.usedSynonyms + (if grammarEntityValue != choices[i] then [grammarEntityValue] else []))
  }

  class Entity {
    const grammar: Grammar.Grammar
    const name: string
    var value: Option<string>
    var entityValue: Option<string>
    var start: int
    var end: int
    var usedSynonyms: seq<string>

    constructor(grammar: Grammar.Grammar)
      ensures this.grammar == grammar && name == grammar.name
      ensures value == None && entityValue == None && start == 0 && end == 0 && usedSynonyms == []
    {
      this.grammar := grammar;
      name := grammar.name;
      value := None;
      entityValue := None;
      start := 0;
      end := 0;
      usedSynonyms := [];
    }

    /** The `choices` property: the grammar's own list. */
    function Choices(): (cs: seq<string>)
      reads this, grammar
      ensures cs == grammar.choices
    {
      grammar.choices
    }

    /**
     * `update(placeholder_text, text, value)`. `start` is one past the
     * position of the placeholder in the text before substitution (so 0 when
     * it is absent) and is set even when the grammar then raises. On success
     * the text is exactly what the grammar's `update` produced, `value` is
     * the grammar's canonical choice and `end` is `start` plus its length,
     * even when a synonym of another length went into the text; the entity
     * value is recorded as a used synonym only when it differs from `value`.
     */
    method Update(placeholderText: string, text: string, index: Option<int>, pick: nat, synPick: nat,
                  grammarEntityValue: string) returns (r: Result<string, Error>)
      modifies this`start, this`end, this`value, this`entityValue, this`usedSynonyms, grammar`value
      ensures start == Find(text, placeholderText) + 1
      ensures start == 0 <==> !Contains(text, placeholderText)
      ensures r == Grammar.Substituted(grammar.choices, grammar.synonyms, placeholderText, text, index, pick, synPick)
      ensures r.Err? ==> && end == old(end) && value == old(value) && entityValue == old(entityValue)
                         && usedSynonyms == old(usedSynonyms)
      ensures r.Ok? ==>
                && grammar.value.Some? && value == grammar.value
                && value == Some(grammar.choices[Grammar.ChosenIndex(grammar.choices, index, pick).value])
                && end == start + |value.value|
                && entityValue == Some(grammarEntityValue)
                && usedSynonyms == old(usedSynonyms) + (if entityValue != value then [grammarEntityValue] else [])
      ensures var i := Grammar.ChosenIndex(grammar.choices, index, pick);
              grammar.value == if i.Some? then Some(grammar.choices[i.value]) else old(grammar.value)
      ensures State() == Updated(old(State()), grammar.choices, grammar.synonyms, placeholderText, text, index, pick,
                                 synPick, grammarEntityValue)
    {
      start := Find(text, placeholderText) + 1;
      r := grammar.Update(placeholderText, text, index, pick, synPick);
      if r.Err? {
        return;
      }
      var v := grammar.value.value;
      end := start + |v|;
      value := grammar.value;
      entityValue := Some(grammarEntityValue);
      if entityValue != value {
        usedSynonyms := usedSynonyms + [grammarEntityValue];
      }
    }

    /** The fields `update` writes. */
    function State(): Record
      reads this
    {
      Record(start, end, value, entityValue, usedSynonyms)
    }

    /** `to_example()`: the span, the entity value and the grammar's name. */
    function ToExample(): (e: Example)
      reads this
      ensures e.start == start && e.end == end && e.value == entityValue && e.entity == name
    {
      Example(start, end, entityValue, name)
    }
  }
}
