/**
 * The JavaScript string operations the modelled code relies on:
 * `trim`, `startsWith`, `includes`, `split('.')[0]`, `join` and the
 * decimal rendering of a number inside a template literal.
 */
module Text {
  import opened Wrappers
  import opened Seqs

  /**
   * The characters `String.prototype.trim` removes: ECMAScript WhiteSpace
   * (tab, vertical tab, form feed, space, no-break space, byte order mark and
   * the Unicode space separators) and LineTerminator (LF, CR, U+2028, U+2029).
   */
  predicate IsSpace(c: char) {
    || c == '\t' || c == '\U{0B}' || c == '\U{0C}' || c == ' ' || c == '\U{A0}' || c == '\U{FEFF}'
    || c == '\U{1680}' || ('\U{2000}' <= c <= '\U{200A}') || c == '\U{202F}' || c == '\U{205F}' || c == '\U{3000}'
    || c == '\n' || c == '\r' || c == '\U{2028}' || c == '\U{2029}'
  }

  predicate AllSpace(s: string) {
    forall i :: 0 <= i < |s| ==> IsSpace(s[i])
  }

  /** A string with no whitespace at either end. */
  predicate IsTrimmed(s: string) {
    s == [] || (!IsSpace(s[0]) && !IsSpace(s[|s| - 1]))
  }

  /** The number of whitespace characters at the start of `s`. */
  function LeadingSpace(s: string): (k: nat)
    ensures k <= |s|
    ensures AllSpace(s[..k])
    ensures k < |s| ==> !IsSpace(s[k])
  {
    if s == [] || !IsSpace(s[0]) then 0 else 1 + LeadingSpace(s[1..])
  }

  /** The number of whitespace characters at the end of `s`. */
  function TrailingSpace(s: string): (k: nat)
    ensures k <= |s|
    ensures AllSpace(s[|s| - k..])
    ensures k < |s| ==> !IsSpace(s[|s| - 1 - k])
  {
    if s == [] || !IsSpace(s[|s| - 1]) then 0 else 1 + TrailingSpace(s[..|s| - 1])
  }

  /** `r` sits at offset `i` of `s` with only whitespace around it. */
  predicate PaddedAt(s: string, r: string, i: int) {
    && 0 <= i <= |s| - |r|
    && s[i..i + |r|] == r
    && AllSpace(s[..i])
    && AllSpace(s[i + |r|..])
  }

  /** Past the leading whitespace of a string that is not all whitespace, some text is left before the trailing whitespace. */
  lemma TrailingAfterLeading(s: string)
    requires LeadingSpace(s) < |s|
    ensures LeadingSpace(s) < |s| - TrailingSpace(s)
  {
    var a, k := LeadingSpace(s), TrailingSpace(s);
    forall j | |s| - k <= j < |s|
      ensures IsSpace(s[j])
    {
      assert s[j] == s[|s| - k..][j - (|s| - k)];
    }
    assert !IsSpace(s[a]);
  }

  /** `s.trim()`: `s` without its leading and trailing whitespace. */
  function Trim(s: string): (r: string)
    ensures IsTrimmed(r)
    ensures exists i :: PaddedAt(s, r, i)
    ensures r == [] <==> AllSpace(s)
  {
    var a := LeadingSpace(s);
    if a == |s| then
      assert s[..a] == s;
      assert PaddedAt(s, [], |s|);
      []
    else
      TrailingAfterLeading(s);
      var b := |s| - TrailingSpace(s);
      var r := s[a..b];
      assert r[0] == s[a] && r[|r| - 1] == s[b - 1];
      assert PaddedAt(s, r, a);
      r
  }

  /** `!s || s.trim() === ''`. */
  predicate IsBlank(s: string) {
    Trim(s) == []
  }

  /** A trimmed string is its own trim. */
  lemma TrimTrimmed(s: string)
    requires IsTrimmed(s)
    ensures Trim(s) == s
  {
  }

  /** `s.startsWith(p)`. */
  predicate StartsWith(s: string, p: string) {
    |p| <= |s| && s[..|p|] == p
  }

  predicate OccursAt(s: string, p: string, i: int) {
    0 <= i <= |s| - |p| && s[i..i + |p|] == p
  }

  /** `s.includes(p)`. */
  predicate Contains(s: string, p: string) {
    exists i :: 0 <= i <= |s| - |p| && OccursAt(s, p, i)
  }

  /** Whatever stands, whole, inside a concatenation is contained in it. */
  lemma ContainsInside(a: string, p: string, b: string)
    ensures Contains(a + p + b, p)
  {
    assert (a + p + b)[|a|..|a| + |p|] == p;
    assert OccursAt(a + p + b, p, |a|);
  }

  /** Containment is transitive. */
  lemma ContainsTrans(s: string, t: string, p: string)
    requires Contains(s, t) && Contains(t, p)
    ensures Contains(s, p)
  {
    var i :| 0 <= i <= |s| - |t| && OccursAt(s, t, i);
    var j :| 0 <= j <= |t| - |p| && OccursAt(t, p, j);
    assert forall k :: 0 <= k < |t| ==> s[i + k] == t[k];
    assert s[i + j..i + j + |p|] == t[j..j + |p|];
    assert OccursAt(s, p, i + j);
  }

  /** `s.split(sep)[0]`: the text before the first `sep`, or all of `s` when there is none. */
  function BeforeFirst(s: string, sep: char): (r: string)
    ensures r <= s
    ensures sep !in r
    ensures r == s || s[|r|] == sep
  {
    if s == [] || s[0] == sep then [] else [s[0]] + BeforeFirst(s[1..], sep)
  }

  /** `xs.join(sep)`. */
  function Join(xs: seq<string>, sep: string): (r: string)
    ensures xs == [] ==> r == []
    ensures |xs| == 1 ==> r == xs[0]
  {
    if xs == [] then []
    else if |xs| == 1 then xs[0]
    else xs[0] + sep + Join(xs[1..], sep)
  }

  /** Every joined element stands whole in the result. */
  lemma {:induction false} JoinContains(xs: seq<string>, sep: string, k: nat)
    requires k < |xs|
    ensures Contains(Join(xs, sep), xs[k])
  {
    if |xs| == 1 {
      ContainsInside([], xs[0], []);
      assert [] + xs[0] + [] == xs[0];
    } else if k == 0 {
      ContainsInside([], xs[0], sep + Join(xs[1..], sep));
      assert [] + xs[0] + (sep + Join(xs[1..], sep)) == Join(xs, sep);
    } else {
      JoinContains(xs[1..], sep, k - 1);
      ContainsInside(xs[0] + sep, Join(xs[1..], sep), []);
      assert xs[0] + sep + Join(xs[1..], sep) + [] == Join(xs, sep);
      ContainsTrans(Join(xs, sep), Join(xs[1..], sep), xs[k]);
    }
  }

  /** A join of non-empty strings is empty exactly when the list is. */
  lemma {:induction false} JoinEmpty(xs: seq<string>, sep: string)
    requires forall i :: 0 <= i < |xs| ==> xs[i] != []
    ensures Join(xs, sep) == [] <==> xs == []
  {
    if |xs| > 1 {
      assert |Join(xs, sep)| >= |xs[0]| > 0;
    }
  }

  /** An optional string JavaScript treats as true: present and not empty. */
  predicate Truthy(o: Option<string>) {
    o.Some? && o.value != ""
  }

  /** `const t = text.trim(); if (t) out.push(t)`: the trimmed text, unless it is empty. */
  function KeepText(text: string): Option<string> {
    var t := Trim(text);
    if t == [] then None else Some(t)
  }

  /** The trimmed texts of a list of elements, empty ones dropped, in document order. */
  function TrimmedTexts(texts: seq<string>): seq<string> {
    FilterMap(texts, KeepText)
  }

  /**
   * Exactly the non-empty trims of the inputs are kept: every kept text is
   * non-empty and trimmed, and is the trim of some input.
   */
  lemma TrimmedTextsMembers(texts: seq<string>, t: string)
    ensures t in TrimmedTexts(texts) <==> exists i :: 0 <= i < |texts| && Trim(texts[i]) == t && t != []
    ensures t in TrimmedTexts(texts) ==> t != [] && IsTrimmed(t)
  {
    FilterMapMembers(texts, KeepText, t);
  }

  /** A first text that is not blank comes first, trimmed. */
  lemma TrimmedTextsFirst(texts: seq<string>)
    requires texts != [] && !IsBlank(texts[0])
    ensures TrimmedTexts(texts) != [] && TrimmedTexts(texts)[0] == Trim(texts[0])
  {
    assert texts == [texts[0]] + texts[1..];
    FilterMapAppend([texts[0]], texts[1..], KeepText);
    FilterMapSingle(texts[0], KeepText);
  }

  /** The digit character for `d`. */
  function DigitChar(d: nat): (c: char)
    requires d < 10
    ensures c as int == '0' as int + d
  {
    "0123456789"[d]
  }

  /** The number a string of decimal digits denotes, its last digit least significant. */
  function DigitsValue(r: string): nat
    requires forall i :: 0 <= i < |r| ==> '0' <= r[i] <= '9'
  {
    if r == [] then 0 else DigitsValue(r[..|r| - 1]) * 10 + (r[|r| - 1] as int - '0' as int)
  }

  /** Decimal digits of `n`, as `${n}` renders a non-negative integer. */
  function Decimal(n: nat): (r: string)
    ensures 0 < |r|
    ensures forall i :: 0 <= i < |r| ==> '0' <= r[i] <= '9'
    ensures |r| > 1 ==> r[0] != '0'
    ensures DigitsValue(r) == n
  {
    if n < 10 then [DigitChar(n)]
    else
      var init := Decimal(n / 10);
      var r := init + [DigitChar(n % 10)];
      assert r[..|r| - 1] == init;
      r
  }
}
