/**
 * The older revision's `IntentBase` (models/base.py): an intent's templates
 * and its grammar and entity tables, each merged from the `included` and
 * `contents` parts of its section. Its `load` and `_parse_data` follow the
 * same rules as `load` and `get_data` of `chatter.intents`, so the meaning
 * of both is the one `Intents.Loaded` and `Intents.Merged` give.
 */
module ModelsBase {
  import opened Wrappers
  import opened Errors
  import opened PyDict
  import Intents

  class IntentBase {
    const name: Option<string>
    var domain: Option<string>
    var templates: seq<string>
    var grammers: Intents.Table
    var entities: Intents.Table
    var synonyms: Dict<string, Intents.Table>

    /** `IntentBase(intent_name)`: no domain, no templates and empty tables. */
    constructor(intentName: Option<string>)
      ensures name == intentName
      ensures State() == Intents.IntentState(None, [], [], [], [])
    {
      name := intentName;
      domain, templates := None, [];
      grammers, entities, synonyms := [], [], [];
    }

    /** The attributes `load` writes. */
    function State(): Intents.IntentState
      reads this
    {
      Intents.IntentState(domain, templates, grammers, entities, synonyms)
    }

    /**
     * `_parse_data(data)`: the `included` mappings merged in list order,
     * then `contents`; one entry per key, present exactly when `contents`
     * or some `included` mapping holds it, and nothing at all when both
     * parts are missing or empty.
     */
    static method ParseData(data: Intents.Section) returns (rv: Intents.Table)
      ensures rv == Intents.Merged(data)
      ensures KeysUnique(rv)
      ensures forall k :: k in Keys(rv) <==> k in Keys(data.contents) || LastValue(data.included, |data.included|, k).Some?
      ensures data.included == [] && data.contents == [] ==> rv == []
    {
      rv := Intents.GetData(data);
      Intents.MergedKeys(data);
      if data.included == [] && data.contents == [] {
        Intents.MergedNothing(data);
      }
    }

    /**
     * `load(intent_data)`: KeyError for the first missing key among
     * `domain`, `text`, `grammers` and `entities`, with what was assigned
     * before it kept; otherwise the templates, the merged tables and, when
     * the entities' `synonyms` part is present and not empty, the same
     * merged synonyms mapping for every entity name.
     */
    method Load(data: Intents.IntentData) returns (err: Option<Error>)
      modifies this`domain, this`templates, this`grammers, this`entities, this`synonyms
      ensures (State(), err) == Intents.Loaded(old(State()), data)
    {
      if data.domain.None? {
        return Some(KeyError("domain"));
      }
      domain := data.domain;
      if data.text.None? {
        return Some(KeyError("text"));
      }
      templates := data.text.value;
      if data.grammers.None? {
        return Some(KeyError("grammers"));
      }
      var g := ParseData(data.grammers.value);
      grammers := Intents.AssignAll(grammers, g);
      if data.entities.None? {
        return Some(KeyError("entities"));
      }
      var es := data.entities.value;
      var m := ParseData(es.defs);
      entities, synonyms := Intents.AssignEntities(entities, synonyms, m, es.synonyms);
      err := None;
    }
  }
}
