/**
 * `Texts`: the stack of text templates of one intent. `available` holds the
 * templates not handed out yet (the next one is at the end), `used` those
 * handed out, `importantCount` the number of `important` blocks loaded.
 *
 * The `text` section of an intent lists plain templates and mappings; the
 * `important` key of a mapping holds templates that go to the front of the
 * stack, so they are handed out last.
 */
module Texts {
  import opened Wrappers
  import opened Errors

  /** The value of one key of a mapping in the `text` section. */
  datatype TextValue =
    | VList(items: seq<string>)
      /** A string: `+=` on a list adds its characters one by one. */
    | VText(text: string)
      /** A value that cannot be iterated (`None`, a number): `+=` raises TypeError. */
    | VNone

  /** One entry of the `text` section. */
  datatype TextEntry =
    | TText(text: string)
    | TMapping(entries: seq<(string, TextValue)>)
      /** Any other type: a number, a list. */
    | TOther

  const ImportantKey: string := "important"

  /** What `list += value` adds, or None when it raises. */
  function Items(v: TextValue): (r: Option<seq<string>>)
    ensures v.VList? ==> r == Some(v.items)
    ensures v.VText? ==> r.Some? && |r.value| == |v.text| && forall i :: 0 <= i < |v.text| ==> r.value[i] == [v.text[i]]
    ensures r.None? <==> v.VNone?
  {
    match v
    case VList(items) => Some(items)
    case VText(s) => Some(seq(|s|, i requires 0 <= i < |s| => [s[i]]))
    case VNone => None
  }

  /** The entries of one mapping from the `i`-th on: the new stack, block count and error. */
  function LoadMapping(avail: seq<string>, count: nat, es: seq<(string, TextValue)>, i: nat): (seq<string>, nat, Option<Error>)
    requires i <= |es|
    decreases |es| - i
  {
    if i == |es| then (avail, count, None)
    else if es[i].0 != ImportantKey then LoadMapping(avail, count, es, i + 1)
    else
      match Items(es[i].1)
      case None => (avail, count, Some(TypeError))
      case Some(xs) => LoadMapping(xs + avail, count + 1, es, i + 1)
  }

  /** The loop over the `text` section from the `i`-th entry on. */
  function LoadFrom(avail: seq<string>, count: nat, texts: seq<TextEntry>, i: nat): (seq<string>, nat, Option<Error>)
    requires i <= |texts|
    decreases |texts| - i
  {
    if i == |texts| then (avail, count, None)
    else
      match texts[i]
      case TText(s) => LoadFrom(avail + [s], count, texts, i + 1)
      case TMapping(es) =>
        var r := LoadMapping(avail, count, es, 0);
        if r.2.Some? then r else LoadFrom(r.0, r.1, texts, i + 1)
      case TOther => (avail, count, Some(RuntimeError("Unknown type in 'texts' section")))
  }

  /** `load(texts)` from the stack `avail` and `count` blocks: an empty section is refused. */
  function LoadTexts(avail: seq<string>, count: nat, texts: seq<TextEntry>): (seq<string>, nat, Option<Error>)
  {
    if texts == [] then (avail, count, Some(RuntimeError("Need text templates to process Intents!")))
    else LoadFrom(avail, count, texts, 0)
  }

  // A reference description of a successful load: important blocks in front,
  // the latest first, then the stack as it was, then the plain templates in order.

  /** The templates a mapping puts in front, from its `i`-th entry on. */
  function FrontOf(es: seq<(string, TextValue)>, i: nat): seq<string>
    requires i <= |es|
    decreases |es| - i
  {
    if i == |es| then []
    else FrontOf(es, i + 1) + (if es[i].0 == ImportantKey && Items(es[i].1).Some? then Items(es[i].1).value else [])
  }

  function BlocksOf(es: seq<(string, TextValue)>, i: nat): nat
    requires i <= |es|
    decreases |es| - i
  {
    if i == |es| then 0 else (if es[i].0 == ImportantKey then 1 else 0) + BlocksOf(es, i + 1)
  }

  function Front(texts: seq<TextEntry>, i: nat): seq<string>
    requires i <= |texts|
    decreases |texts| - i
  {
    if i == |texts| then []
    else Front(texts, i + 1) + (if texts[i].TMapping? then FrontOf(texts[i].entries, 0) else [])
  }

  function Back(texts: seq<TextEntry>, i: nat): seq<string>
    requires i <= |texts|
    decreases |texts| - i
  {
    if i == |texts| then [] else (if texts[i].TText? then [texts[i].text] else []) + Back(texts, i + 1)
  }

  function Blocks(texts: seq<TextEntry>, i: nat): nat
    requires i <= |texts|
    decreases |texts| - i
  {
    if i == |texts| then 0 else (if texts[i].TMapping? then BlocksOf(texts[i].entries, 0) else 0) + Blocks(texts, i + 1)
  }

  /** An entry `load` accepts: a template, or a mapping whose `important` values can be iterated. */
  ghost predicate Accepted(t: TextEntry)
  {
    match t
    case TText(_) => true
    case TMapping(es) => forall j :: 0 <= j < |es| && es[j].0 == ImportantKey ==> !es[j].1.VNone?
    case TOther => false
  }

  lemma Assoc3(a: seq<string>, b: seq<string>, c: seq<string>, d: seq<string>)
    ensures a + (b + c) + d == a + b + (c + d)
  {
  }

  /** A mapping puts its `important` templates in front, the later ones first. */
  lemma {:induction false} LoadMappingShape(avail: seq<string>, count: nat, es: seq<(string, TextValue)>, i: nat)
    requires i <= |es|
    ensures var r := LoadMapping(avail, count, es, i);
            && (r.2.None? <==> forall j :: i <= j < |es| && es[j].0 == ImportantKey ==> !es[j].1.VNone?)
            && (r.2.Some? ==> r.2 == Some(TypeError))
            && (r.2.None? ==> r.0 == FrontOf(es, i) + avail && r.1 == count + BlocksOf(es, i))
    decreases |es| - i
  {
    if i < |es| {
      if es[i].0 != ImportantKey {
        LoadMappingShape(avail, count, es, i + 1);
      } else if Items(es[i].1).Some? {
        var xs := Items(es[i].1).value;
        LoadMappingShape(xs + avail, count + 1, es, i + 1);
        assert FrontOf(es, i + 1) + (xs + avail) == FrontOf(es, i + 1) + xs + avail;
      }
    }
  }

  /** A mapping loads without error exactly when it is `Accepted`. */
  lemma MappingAccepted(avail: seq<string>, count: nat, es: seq<(string, TextValue)>)
    ensures LoadMapping(avail, count, es, 0).2.None? <==> Accepted(TMapping(es))
  {
    LoadMappingShape(avail, count, es, 0);
  }

  /**
   * `load` raises exactly when an entry is neither a template nor a mapping,
   * or an `important` value cannot be iterated.
   */
  lemma {:induction false} LoadFromFails(avail: seq<string>, count: nat, texts: seq<TextEntry>, i: nat)
    requires i <= |texts|
    ensures LoadFrom(avail, count, texts, i).2.None? <==> forall j :: i <= j < |texts| ==> Accepted(texts[j])
    decreases |texts| - i
  {
    if i < |texts| {
      match texts[i]
      case TText(s) =>
        LoadFromFails(avail + [s], count, texts, i + 1);
      case TMapping(es) =>
        MappingAccepted(avail, count, es);
        var r := LoadMapping(avail, count, es, 0);
        if r.2.None? {
          LoadFromFails(r.0, r.1, texts, i + 1);
        }
      case TOther =>
    }
  }

  /**
   * A load that raises nothing leaves the `important` blocks in front, the
   * latest block first, then what was on the stack, then the plain templates
   * in the order given; it counts one block per `important` key.
   */
  lemma {:induction false} LoadFromShape(avail: seq<string>, count: nat, texts: seq<TextEntry>, i: nat)
    requires i <= |texts|
    ensures var r := LoadFrom(avail, count, texts, i);
            r.2.None? ==> r.0 == Front(texts, i) + avail + Back(texts, i) && r.1 == count + Blocks(texts, i)
    decreases |texts| - i
  {
    if i < |texts| {
      match texts[i]
      case TText(s) =>
        LoadFromShape(avail + [s], count, texts, i + 1);
        Assoc3(Front(texts, i + 1), avail, [s], Back(texts, i + 1));
      case TMapping(es) =>
        LoadMappingShape(avail, count, es, 0);
        var r := LoadMapping(avail, count, es, 0);
        if r.2.None? {
          LoadFromShape(r.0, r.1, texts, i + 1);
          assert Front(texts, i + 1) + (FrontOf(es, 0) + avail) == Front(texts, i) + avail;
        }
      case TOther =>
    }
  }

  /** `load` on the whole section: refused when empty, otherwise as `LoadFrom` describes. */
  lemma LoadTextsShape(avail: seq<string>, count: nat, texts: seq<TextEntry>)
    ensures var r := LoadTexts(avail, count, texts);
            && (r.2.None? <==> texts != [] && forall j :: 0 <= j < |texts| ==> Accepted(texts[j]))
            && (r.2.None? ==> r.0 == Front(texts, 0) + avail + Back(texts, 0) && r.1 == count + Blocks(texts, 0))
  {
    if texts != [] {
      LoadFromFails(avail, count, texts, 0);
      LoadFromShape(avail, count, texts, 0);
    }
  }

  /** The corrected `count` is the number of templates on both lists. */
  function CountOf(available: seq<string>, used: seq<string>): (n: nat)
    ensures n == |available + used|
  {
    |available| + |used|
  }

  /** `count` as written: `sum` of a list of strings starts from 0 and cannot add a string. */
  function CountAsWritten(available: seq<string>, used: seq<string>): (r: Result<nat, Error>)
    ensures r.Ok? <==> available + used == []
    ensures r.Ok? ==> r.value == 0
  {
    if available + used == [] then Ok(0) else Err(TypeError)
  }

  /** One loaded template is enough for the `count` as written to raise. */
  lemma CountAsWrittenFails(available: seq<string>, used: seq<string>)
    requires available == ["hello"] && used == []
    ensures CountAsWritten(available, used) == Err(TypeError)
    ensures CountOf(available, used) == 1
  {
    assert available + used != [];
  }

  /** Where `list.remove(x)` and `list.index(x)` look: the first occurrence of `x`. */
  function FirstIndex(s: seq<string>, x: string): (i: nat)
    requires x in s
    ensures i < |s| && s[i] == x && forall j :: 0 <= j < i ==> s[j] != x
  {
    if s[0] == x then 0 else 1 + FirstIndex(s[1..], x)
  }

  /** `list.remove(x)`: one copy of `x`, the first, taken out; the rest keeps its order. */
  function RemoveFirst(s: seq<string>, x: string): (r: seq<string>)
    requires x in s
    ensures |r| == |s| - 1 && multiset(r) == multiset(s) - multiset{x}
    ensures var i := FirstIndex(s, x); r[..i] == s[..i] && r[i..] == s[i + 1..]
  {
    var i := FirstIndex(s, x);
    assert s == s[..i] + [x] + s[i + 1..];
    s[..i] + s[i + 1..]
  }

  function Reversed(s: seq<string>): (r: seq<string>)
    ensures |r| == |s| && forall i :: 0 <= i < |s| ==> r[i] == s[|s| - 1 - i]
  {
    if s == [] then [] else [s[|s| - 1]] + Reversed(s[..|s| - 1])
  }

  class Texts {
    var available: seq<string>
    var used: seq<string>
    var importantCount: nat

    constructor()
      ensures available == [] && used == [] && importantCount == 0
    {
      available := [];
      used := [];
      importantCount := 0;
    }

    /** The number of templates, handed out or not. */
    function Count(): (n: nat)
      reads this
      ensures n == CountOf(available, used)
    {
      |available| + |used|
    }

    /** `load(texts)`: the stack and block count become what `LoadTexts` says; the exception raised, if any. */
    method Load(texts: seq<TextEntry>) returns (err: Option<Error>)
      modifies this`available, this`importantCount
      ensures (available, importantCount, err) == LoadTexts(old(available), old(importantCount), texts)
    {
      if texts == [] {
        return Some(RuntimeError("Need text templates to process Intents!"));
      }
      for i := 0 to |texts|
        invariant LoadFrom(available, importantCount, texts, i) == LoadFrom(old(available), old(importantCount), texts, 0)
      {
        match texts[i] {
          case TText(s) =>
            available := available + [s];
          case TMapping(es) =>
            err := LoadEntries(es);
            if err.Some? {
              return;
            }
          case TOther =>
            return Some(RuntimeError("Unknown type in 'texts' section"));
        }
      }
      return None;
    }

    /** The inner loop of `load` over one mapping. */
    method LoadEntries(es: seq<(string, TextValue)>) returns (err: Option<Error>)
      modifies this`available, this`importantCount
      ensures (available, importantCount, err) == LoadMapping(old(available), old(importantCount), es, 0)
    {
      for i := 0 to |es|
        invariant LoadMapping(available, importantCount, es, i) == LoadMapping(old(available), old(importantCount), es, 0)
      {
        if es[i].0 == ImportantKey {
          match Items(es[i].1) {
            case None =>
              return Some(TypeError);
            case Some(xs) =>
              available := xs + available;
              importantCount := importantCount + 1;
          }
        }
      }
      return None;
    }

    /** `invalidate_text(text)`: a template still available moves to `used`; otherwise nothing changes. */
    method InvalidateText(text: string)
      modifies this`available, this`used
      ensures text !in old(available) ==> available == old(available) && used == old(used)
      ensures text in old(available) ==> available == RemoveFirst(old(available), text) && used == old(used) + [text]
      ensures Count() == old(Count())
      ensures multiset(available + used) == multiset(old(available + used))
    {
      if text in available {
        available := RemoveFirst(available, text);
        used := used + [text];
      }
    }

    /** One step of the `get` generator: the template on top of the stack moves to `used`. */
    method Get() returns (t: Option<string>)
      modifies this`available, this`used
      ensures old(available) == [] ==> t == None && available == [] && used == old(used)
      ensures old(available) != [] ==>
                && t == Some(old(available)[|old(available)| - 1])
                && available == old(available)[..|old(available)| - 1]
                && used == old(used) + [t.value]
      ensures Count() == old(Count())
    {
      if available == [] {
        return None;
      }
      var text := available[|available| - 1];
      available := available[..|available| - 1];
      used := used + [text];
      return Some(text);
    }

    /**
     * Running the `get` generator to its end: the templates come out in the
     * reverse of their order on the stack, so the `important` ones last,
     * and all of them end up in `used`.
     */
    method TakeAll() returns (drawn: seq<string>)
      modifies this`available, this`used
      ensures drawn == Reversed(old(available))
      ensures available == [] && used == old(used) + drawn
      ensures Count() == old(Count())
    {
      drawn := [];
      while available != []
        invariant |available| + |drawn| == |old(available)|
        invariant available == old(available)[..|available|]
        invariant drawn == Reversed(old(available)[|available|..])
        invariant used == old(used) + drawn
        decreases |available|
      {
        ghost var before := available;
        var t := Get();
        assert old(available)[|available|..] == [before[|before| - 1]] + old(available)[|before|..];
        drawn := drawn + [t.value];
      }
      assert old(available)[0..] == old(available);
    }

    /** `get_used()`: a template from `used` (`pick` stands for `random.choice`), or None when there is none. */
    function GetUsed(pick: nat): (t: Option<string>)
      reads this
      ensures t.None? <==> used == []
      ensures t.Some? ==> t.value in used
    {
      if used == [] then None else Some(used[pick % |used|])
    }
  }
}
