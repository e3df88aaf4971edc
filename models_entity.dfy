/**
 * The older revision's `Entity` (models/entity.py): where a replacement value
 * lands in a text. `update` records the position just past the start of the
 * placeholder, the end of the value and the value itself.
 */
module ModelsEntity {
  import opened Wrappers
  import opened PyStr
  import EntitySpan = Entity

  /** `to_dict()`: exactly the keys `start`, `end`, `value` and `entity`. */
  datatype EntityDict = EntityDict(start: int, end: int, value: Option<string>, entity: string)

  /**
   * The record after `update(replacement, placeholder, text)`: `start` is
   * one past the first occurrence of the placeholder (0 when it does not
   * occur), `end` is `start` plus the length of the replacement, `value` is
   * the replacement and the entity name is kept.
   */
  function Updated(d: EntityDict, replacement: string, placeholder: string, text: string): (r: EntityDict)
    ensures r.entity == d.entity && r.value == Some(replacement)
    ensures r.end - r.start == |replacement|
    ensures r.start == 0 <==> !Contains(text, placeholder)
    ensures r.start > 0 ==> && OccursAt(text, placeholder, r.start - 1)
                            && forall j :: 0 <= j < r.start - 1 ==> !OccursAt(text, placeholder, j)
  {
    var start := Find(text, placeholder) + 1;
    EntityDict(start, start + |replacement|, Some(replacement), d.entity)
  }

  /**
   * For a placeholder that starts with `{` and no `{` earlier in the text,
   * `start` is the length of the text before the first `{`, plus one.
   */
  lemma StartAfterFirstBrace(d: EntityDict, replacement: string, placeholder: string, text: string)
    requires placeholder != [] && placeholder[0] == '{' && Contains(text, placeholder)
    requires forall j :: 0 <= j < Find(text, placeholder) ==> text[j] != '{'
    ensures Find(text, "{") >= 0 && Updated(d, replacement, placeholder, text).start == |text[..Find(text, "{")]| + 1
  {
    var f := Find(text, placeholder);
    assert text[f..f + 1] == "{" by {
      assert text[f..f + |placeholder|][0] == placeholder[0];
    }
    assert OccursAt(text, "{", f);
    forall j | 0 <= j < f
      ensures !OccursAt(text, "{", j)
    {
      assert text[j..j + 1][0] == text[j];
    }
  }

  /**
   * After replacing the placeholder by `replacement`, the replacement sits
   * in the new text from `start - 1` up to `end - 1`, and the text before it
   * is unchanged.
   */
  lemma UpdatedSpan(d: EntityDict, replacement: string, placeholder: string, text: string)
    requires placeholder != [] && Contains(text, placeholder)
    ensures var r := Updated(d, replacement, placeholder, text);
            var t := ReplaceAll(text, placeholder, replacement);
            && 1 <= r.start <= r.end <= |t| + 1
            && t[r.start - 1..r.end - 1] == replacement
            && t[..r.start - 1] == text[..r.start - 1]
  {
    EntitySpan.ValueAtSpan(text, placeholder, replacement);
  }

  class Entity {
    var start: int
    var end: int
    var value: Option<string>
    var entity: string

    /** `Entity(entity_name)`: no span and no value yet. */
    constructor(entityName: string)
      ensures ToDict() == EntityDict(0, 0, None, entityName)
    {
      start, end, value := 0, 0, None;
      entity := entityName;
    }

    /** `to_dict()`: the four fields. */
    function ToDict(): (d: EntityDict)
      reads this
      ensures d.start == start && d.end == end && d.value == value && d.entity == entity
    {
      EntityDict(start, end, value, entity)
    }

    /** `update(replacement, placeholder, text)`: returns the same object; only `start`, `end` and `value` change. */
    method Update(replacement: string, placeholder: string, text: string) returns (self: Entity)
      modifies this`start, this`end, this`value
      ensures self == this
      ensures ToDict() == Updated(old(ToDict()), replacement, placeholder, text)
    {
      start := Find(text, placeholder) + 1;
      end := start + |replacement|;
      value := Some(replacement);
      self := this;
    }
  }
}
