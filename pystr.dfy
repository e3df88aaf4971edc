/**
 * The few Python `str` operations the engine relies on, written out with
 * Python's semantics: `find`, replace-all `replace`, `strip(chars)`,
 * `endswith`, and `str()` of a non-negative integer.
 */
module PyStr {

  /** `sub` occurs in `s` starting at index `i`. */
  ghost predicate OccursAt(s: string, sub: string, i: int)
  {
    0 <= i && i + |sub| <= |s| && s[i..i + |sub|] == sub
  }

  /** `str.find` started at index `i`: the first occurrence at or after `i`, or -1. */
  function FindFrom(s: string, sub: string, i: nat): (r: int)
    requires i <= |s| + 1
    ensures r == -1 || (i <= r && OccursAt(s, sub, r))
    ensures forall j :: i <= j < (if r == -1 then |s| + 1 else r) ==> !OccursAt(s, sub, j)
    decreases |s| + 1 - i
  {
    if i + |sub| > |s| then
      assert forall j :: i <= j ==> !OccursAt(s, sub, j);
      -1
    else if s[i..i + |sub|] == sub then i
    else FindFrom(s, sub, i + 1)
  }

  /** `s.find(sub)`: the index of the first occurrence of `sub` in `s`, or -1. */
  function Find(s: string, sub: string): (r: int)
    ensures r == -1 <==> forall j :: 0 <= j <= |s| ==> !OccursAt(s, sub, j)
    ensures r != -1 ==> OccursAt(s, sub, r) && forall j :: 0 <= j < r ==> !OccursAt(s, sub, j)
  {
    FindFrom(s, sub, 0)
  }

  /** `sub in s` for strings. */
  predicate Contains(s: string, sub: string)
  {
    Find(s, sub) != -1
  }

  /**
   * `s.replace(pat, rep)`: every non-overlapping occurrence of `pat`, taken
   * left to right, replaced by `rep`. For an empty `pat` Python inserts
   * `rep` before every character and at the end.
   */
  function ReplaceAll(s: string, pat: string, rep: string): string
  {
    ReplaceFrom(s, pat, rep, 0)
  }

  /** `s[i..].replace(pat, rep)`, scanning `s` from index `i`. */
  function ReplaceFrom(s: string, pat: string, rep: string, i: nat): string
    requires i <= |s|
    decreases |s| - i
  {
    if pat == [] then
      rep + (if i == |s| then [] else [s[i]] + ReplaceFrom(s, pat, rep, i + 1))
    else if |s| - i < |pat| then s[i..]
    else if s[i..i + |pat|] == pat then rep + ReplaceFrom(s, pat, rep, i + |pat|)
    else [s[i]] + ReplaceFrom(s, pat, rep, i + 1)
  }

  /** From `i` on, text without the pattern is copied unchanged. */
  lemma {:induction false} ReplaceFromAbsent(s: string, pat: string, rep: string, i: nat)
    requires pat != [] && i <= |s|
    requires forall j :: i <= j <= |s| ==> !OccursAt(s, pat, j)
    ensures ReplaceFrom(s, pat, rep, i) == s[i..]
    decreases |s| - i
  {
    if |s| - i >= |pat| {
      assert !OccursAt(s, pat, i);
      ReplaceFromAbsent(s, pat, rep, i + 1);
      assert s[i..] == [s[i]] + s[i + 1..];
    }
  }

  /** Text without the pattern is returned unchanged. */
  lemma ReplaceAllAbsent(s: string, pat: string, rep: string)
    requires pat != []
    requires !Contains(s, pat)
    ensures ReplaceAll(s, pat, rep) == s
  {
    ReplaceFromAbsent(s, pat, rep, 0);
  }

  /** Replacing a pattern by itself changes nothing. */
  lemma {:induction false} ReplaceAllSelf(s: string, pat: string, i: nat)
    requires pat != [] && i <= |s|
    ensures ReplaceFrom(s, pat, pat, i) == s[i..]
    ensures i == 0 ==> ReplaceAll(s, pat, pat) == s
    decreases |s| - i
  {
    if |s| - i >= |pat| {
      if s[i..i + |pat|] == pat {
        ReplaceAllSelf(s, pat, i + |pat|);
        assert s[i..] == pat + s[i + |pat|..];
      } else {
        ReplaceAllSelf(s, pat, i + 1);
        assert s[i..] == [s[i]] + s[i + 1..];
      }
    }
  }

  lemma ConsConcat(c: char, b: string, x: string)
    ensures [c] + (b + x) == ([c] + b) + x
  {
  }

  /**
   * Scanning from `i`, the text up to the first occurrence of `pat` at `f`
   * is copied unchanged and that occurrence becomes `rep`.
   */
  lemma {:induction false} ReplaceFromFirst(s: string, pat: string, rep: string, i: nat, f: nat)
    requires pat != [] && i <= f && OccursAt(s, pat, f)
    requires forall j :: i <= j < f ==> !OccursAt(s, pat, j)
    ensures ReplaceFrom(s, pat, rep, i) == s[i..f] + (rep + ReplaceFrom(s, pat, rep, f + |pat|))
    decreases f - i
  {
    var tail := rep + ReplaceFrom(s, pat, rep, f + |pat|);
    if i == f {
      assert s[i..f] + tail == tail;
    } else {
      assert !OccursAt(s, pat, i);
      ReplaceFromFirst(s, pat, rep, i + 1, f);
      ConsConcat(s[i], s[i + 1..f], tail);
      assert [s[i]] + s[i + 1..f] == s[i..f];
    }
  }

  /**
   * Up to the first occurrence of `pat` the text is copied unchanged, and
   * that occurrence becomes `rep`.
   */
  lemma ReplaceAllFirst(s: string, pat: string, rep: string)
    requires pat != [] && Contains(s, pat)
    ensures var f := Find(s, pat);
            ReplaceAll(s, pat, rep) == s[..f] + (rep + ReplaceFrom(s, pat, rep, f + |pat|))
  {
    ReplaceFromFirst(s, pat, rep, 0, Find(s, pat));
  }

  /** The first index from `i` on whose character is not in `chars` (`|s|` if none). */
  function Leading(s: string, chars: set<char>, i: nat): (n: nat)
    requires i <= |s|
    ensures i <= n <= |s|
    ensures forall k :: i <= k < n ==> s[k] in chars
    ensures n < |s| ==> s[n] !in chars
    decreases |s| - i
  {
    if i < |s| && s[i] in chars then Leading(s, chars, i + 1) else i
  }

  /** The end of `s[lo..j]` once the characters of `chars` are dropped from its back. */
  function Trailing(s: string, chars: set<char>, lo: nat, j: nat): (n: nat)
    requires lo <= j <= |s|
    ensures lo <= n <= j
    ensures forall k :: n <= k < j ==> s[k] in chars
    ensures n > lo ==> s[n - 1] !in chars
    decreases j
  {
    if j > lo && s[j - 1] in chars then Trailing(s, chars, lo, j - 1) else j
  }

  /**
   * `s.strip(chars)`: the characters of `chars` removed from both ends only.
   * The result is the slice `s[lo..hi]` whose outside is made of `chars` and
   * whose first and last characters are not in `chars`.
   */
  function Strip(s: string, chars: set<char>): (r: string)
    ensures exists lo, hi :: StrippedAt(s, chars, lo, hi, r)
    ensures r == [] || (r[0] !in chars && r[|r| - 1] !in chars)
  {
    var lo := Leading(s, chars, 0);
    var hi := Trailing(s, chars, lo, |s|);
    assert StrippedAt(s, chars, lo, hi, s[lo..hi]);
    s[lo..hi]
  }

  /** `r` is `s[lo..hi]` and everything of `s` outside it is in `chars`. */
  ghost predicate StrippedAt(s: string, chars: set<char>, lo: int, hi: int, r: string)
  {
    && 0 <= lo <= hi <= |s| && r == s[lo..hi]
    && (forall k :: 0 <= k < lo ==> s[k] in chars)
    && (forall k :: hi <= k < |s| ==> s[k] in chars)
  }

  /**
   * The characters `str.strip()` removes when called without arguments: those
   * for which `str.isspace()` holds, namely the ASCII whitespace, the four
   * information separators `\x1c`-`\x1f`, and the Unicode separators.
   */
  const Whitespace: set<char> :=
    {'\t', '\n', '\U{B}', '\U{C}', '\r', '\U{1C}', '\U{1D}', '\U{1E}', '\U{1F}', ' ', '\U{85}', '\U{A0}',
     '\U{1680}', '\U{2000}', '\U{2001}', '\U{2002}', '\U{2003}', '\U{2004}', '\U{2005}', '\U{2006}',
     '\U{2007}', '\U{2008}', '\U{2009}', '\U{200A}', '\U{2028}', '\U{2029}', '\U{202F}', '\U{205F}', '\U{3000}'}

  /** `s.endswith(suffix)`. */
  predicate EndsWith(s: string, suffix: string)
  {
    |suffix| <= |s| && s[|s| - |suffix|..] == suffix
  }

  /** The decimal digit for `d`. */
  function Digit(d: nat): char
    requires d < 10
  {
    "0123456789"[d]
  }

  /** `str(n)` for a non-negative integer: its decimal digits, most significant first. */
  function Decimal(n: nat): (r: string)
    ensures |r| >= 1
    ensures forall k :: 0 <= k < |r| ==> '0' <= r[k] <= '9'
  {
    if n < 10 then [Digit(n)] else Decimal(n / 10) + [Digit(n % 10)]
  }

  /** `strip` removes exactly the surrounding characters from `chars`. */
  lemma StripSurrounded(p: string, s: string, q: string, chars: set<char>)
    requires forall k :: 0 <= k < |p| ==> p[k] in chars
    requires forall k :: 0 <= k < |q| ==> q[k] in chars
    requires s == [] || (s[0] !in chars && s[|s| - 1] !in chars)
    ensures Strip(p + s + q, chars) == s
  {
    var t := p + s + q;
    var lo := Leading(t, chars, 0);
    if s == [] {
      assert forall k :: 0 <= k < |t| ==> t[k] in chars;
      assert lo == |t|;
    } else {
      assert t[|p|] == s[0];
      assert lo == |p|;
      var hi := Trailing(t, chars, lo, |t|);
      assert t[|p| + |s| - 1] == s[|s| - 1];
      assert forall k :: |p| + |s| <= k < |t| ==> t[k] == q[k - |p| - |s|];
      assert hi == |p| + |s|;
      assert t[lo..hi] == s;
    }
  }

  /** Stripping twice removes nothing more. */
  lemma StripTwice(s: string, chars: set<char>)
    ensures Strip(Strip(s, chars), chars) == Strip(s, chars)
  {
    var r := Strip(s, chars);
    assert [] + r + [] == r;
    StripSurrounded([], r, [], chars);
  }
}
