/**
 * `REPLACEMENT_PATTERN = re.compile(r'([{].+?[}])')` and its `findall`.
 *
 * A match starts at a `{` and ends at the first `}` that leaves at least one
 * character between them; `.` does not match a newline, so a newline before
 * that `}` means there is no match from this `{`, and the search resumes at
 * the next character. Matches do not overlap: after one, the search resumes
 * just past its closing `}`.
 */
module ReplacementPattern {

  /** What a match of the pattern looks like. */
  predicate IsToken(t: string)
  {
    && |t| >= 3 && t[0] == '{' && t[|t| - 1] == '}'
    && (forall k :: 0 <= k < |t| ==> t[k] != '\n')
    && (forall k :: 2 <= k < |t| - 1 ==> t[k] != '}')
  }

  /**
   * Scanning from `j` for the `}` that closes the `{` at `i`: its index, or
   * -1 when a newline or the end of the text comes first.
   */
  function CloseFrom(s: string, i: nat, j: nat): (r: int)
    requires i < |s| && i + 1 <= j <= |s|
    requires forall k :: i + 1 <= k < j ==> s[k] != '\n' && (k >= i + 2 ==> s[k] != '}')
    ensures r == -1 || (j <= r < |s| && r >= i + 2 && s[r] == '}')
    ensures r != -1 ==> forall k :: i + 1 <= k < r ==> s[k] != '\n' && (k >= i + 2 ==> s[k] != '}')
    decreases |s| - j
  {
    if j == |s| then -1
    else if s[j] == '\n' then -1
    else if s[j] == '}' && j >= i + 2 then j
    else CloseFrom(s, i, j + 1)
  }

  /** The spans `[start, end)` of the matches found from index `i` on, left to right. */
  function SpansFrom(s: string, i: nat): (r: seq<(nat, nat)>)
    requires i <= |s|
    ensures forall m :: 0 <= m < |r| ==> i <= r[m].0 < r[m].1 <= |s| && IsToken(s[r[m].0..r[m].1])
    ensures forall m, n :: 0 <= m < n < |r| ==> r[m].1 <= r[n].0
    decreases |s| - i
  {
    if i == |s| then []
    else if s[i] == '{' && CloseFrom(s, i, i + 1) != -1 then
      var c := CloseFrom(s, i, i + 1);
      var t := s[i..c + 1];
      assert forall k :: 0 <= k < |t| ==> t[k] == s[i + k];
      [(i, c + 1)] + SpansFrom(s, c + 1)
    else SpansFrom(s, i + 1)
  }

  /** The spans of all matches in `s`. */
  function Spans(s: string): seq<(nat, nat)>
  {
    SpansFrom(s, 0)
  }

  /** `REPLACEMENT_PATTERN.findall(s)`: the matched texts, left to right. */
  function FindAll(s: string): (tokens: seq<string>)
    ensures |tokens| == |Spans(s)|
    ensures forall m :: 0 <= m < |tokens| ==> tokens[m] == s[Spans(s)[m].0..Spans(s)[m].1]
    ensures forall m :: 0 <= m < |tokens| ==> IsToken(tokens[m])
  {
    var sp := Spans(s);
    seq(|sp|, m requires 0 <= m < |sp| => s[sp[m].0..sp[m].1])
  }

  /** Text without `{` has no match. */
  lemma {:induction false} NoBraceNoToken(s: string, i: nat)
    requires i <= |s|
    requires forall k :: i <= k < |s| ==> s[k] != '{'
    ensures SpansFrom(s, i) == []
    decreases |s| - i
  {
    if i < |s| {
      NoBraceNoToken(s, i + 1);
    }
  }
}
