/**
 * `PlaceHolder`: one `{...}` token of a template. Its flags and name are
 * derived from the raw token text when it is built; `index_range` (the number
 * of choices of the grammar it names) is filled in later by the template
 * parser, which is not part of this model.
 */
module Placeholder {
  import opened Wrappers
  import PyStr

  /** The marker of an optional token, `{name?}`. */
  const OptionalMarker: char := '?'
  /** The marker of a priority token, `{name>}`. */
  const PriorityMarker: char := '>'
  /** The characters stripped from both ends of a token to obtain its name. */
  const ReservedChars: set<char> := {'{', '}', OptionalMarker, PriorityMarker}

  datatype PlaceHolder = PlaceHolder(
    pattern: string,
    optional: bool,
    priority: bool,
    name: string,
    indexRange: nat,
    value: Option<string>,
    synonym: Option<string>,
    start: int,
    end: int)

  /** `PlaceHolder(pattern, value=None, synonym=None, start=0, end=0)`. */
  function NewPlaceHolder(pattern: string, value: Option<string> := None, synonym: Option<string> := None,
                          start: int := 0, end: int := 0): (p: PlaceHolder)
    ensures p.pattern == pattern && p.indexRange == 0
    ensures p.value == value && p.synonym == synonym && p.start == start && p.end == end
    ensures p.optional <==> exists k :: 0 <= k < |pattern| && pattern[k] == OptionalMarker
    ensures p.priority <==> exists k :: 0 <= k < |pattern| && pattern[k] == PriorityMarker
    ensures exists lo, hi :: PyStr.StrippedAt(pattern, ReservedChars, lo, hi, p.name)
    ensures p.name == [] || (p.name[0] !in ReservedChars && p.name[|p.name| - 1] !in ReservedChars)
  {
    PlaceHolder(pattern, OptionalMarker in pattern, PriorityMarker in pattern,
                PyStr.Strip(pattern, ReservedChars), 0, value, synonym, start, end)
  }

  /**
   * The name of `{name}`, `{name?}` or `{name>}` is `name` itself whenever
   * `name` neither starts nor ends with a reserved character; reserved
   * characters inside it survive.
   */
  lemma NameOfToken(n: string, marker: string)
    requires n != [] && n[0] !in ReservedChars && n[|n| - 1] !in ReservedChars
    requires marker == [] || marker == [OptionalMarker] || marker == [PriorityMarker]
    ensures NewPlaceHolder("{" + n + marker + "}").name == n
  {
    var t := "{" + n + marker + "}";
    var q := marker + "}";
    assert t == "{" + n + q;
    assert forall k :: 0 <= k < |q| ==> q[k] in ReservedChars;
    PyStr.StripSurrounded("{", n, q, ReservedChars);
  }

  /**
   * The flags of `{name}`, `{name?}` or `{name>}`: a marker anywhere inside
   * `name` sets the flag too, so `{a?b}` is optional.
   */
  lemma FlagsOfToken(n: string, marker: string)
    requires marker == [] || marker == [OptionalMarker] || marker == [PriorityMarker]
    ensures NewPlaceHolder("{" + n + marker + "}").optional <==> OptionalMarker in n || marker == [OptionalMarker]
    ensures NewPlaceHolder("{" + n + marker + "}").priority <==> PriorityMarker in n || marker == [PriorityMarker]
  {
    MarkerInToken(OptionalMarker, n, marker);
    MarkerInToken(PriorityMarker, n, marker);
  }

  /** A marker character is in `{` + `n` + `marker` + `}` exactly when it is in `n` or `marker`. */
  lemma MarkerInToken(c: char, n: string, marker: string)
    requires c != '{' && c != '}'
    ensures c in "{" + n + marker + "}" <==> c in n || c in marker
  {
    InConcat(c, "{", n);
    InConcat(c, "{" + n, marker);
    InConcat(c, "{" + n + marker, "}");
  }

  lemma InConcat(c: char, a: string, b: string)
    ensures c in a + b <==> c in a || c in b
  {
  }
}
