/** The JavaScript string operations the pages and the signup route rely on:
    `trim`, `toLowerCase`, `includes`, `split(c)[0]`, and the `||`/`??`
    idioms that move between empty strings and missing values. */
module Text {
  import opened Wrappers

  /** The code points `String.prototype.trim` removes: ECMAScript WhiteSpace
      (tab, vertical tab, form feed, space, no-break space, the byte order
      mark and the Unicode space separators) and LineTerminator. */
  predicate IsWhitespace(c: char) {
    || c == '\t' || c == '\n' || c == '\U{000B}' || c == '\U{000C}' || c == '\r'
    || c == ' ' || c == '\U{00A0}' || c == '\U{1680}'
    || ('\U{2000}' <= c <= '\U{200A}')
    || c == '\U{2028}' || c == '\U{2029}' || c == '\U{202F}' || c == '\U{205F}'
    || c == '\U{3000}' || c == '\U{FEFF}'
  }

  predicate AllWhitespace(s: string) {
    forall i :: 0 <= i < |s| ==> IsWhitespace(s[i])
  }

  /** Drops the leading whitespace: what is left is a suffix of `s` that is
      empty or starts with a non-whitespace character. */
  function TrimStart(s: string): (r: string)
    ensures |r| <= |s| && r == s[|s| - |r|..]
    ensures AllWhitespace(s[..|s| - |r|])
    ensures r == [] || !IsWhitespace(r[0])
  {
    if |s| > 0 && IsWhitespace(s[0]) then
      var r := TrimStart(s[1..]);
      TrimStartStep(s, r);
      r
    else
      assert s[0..] == s && s[..0] == [];
      s
  }

  /** A suffix of the tail, after whitespace only, is a suffix of the whole
      text after whitespace only when the head is whitespace too. */
  lemma TrimStartStep(s: string, r: string)
    requires |s| > 0 && IsWhitespace(s[0])
    requires |r| <= |s| - 1 && r == s[1..][|s| - 1 - |r|..] && AllWhitespace(s[1..][..|s| - 1 - |r|])
    ensures r == s[|s| - |r|..] && AllWhitespace(s[..|s| - |r|])
  {
    assert s[1..][|s| - 1 - |r|..] == s[|s| - |r|..];
    WhitespaceCons(s[0], s[1..][..|s| - 1 - |r|]);
    assert s[..|s| - |r|] == [s[0]] + s[1..][..|s| - 1 - |r|];
  }

  lemma WhitespaceCons(c: char, t: string)
    requires IsWhitespace(c) && AllWhitespace(t)
    ensures AllWhitespace([c] + t)
  {
    assert forall i :: 0 < i <= |t| ==> ([c] + t)[i] == t[i - 1];
  }

  /** Drops the trailing whitespace: what is left is a prefix of `s` that is
      empty or ends with a non-whitespace character. */
  function TrimEnd(s: string): (r: string)
    ensures |r| <= |s| && r == s[..|r|]
    ensures AllWhitespace(s[|r|..])
    ensures r == [] || !IsWhitespace(r[|r| - 1])
  {
    if |s| > 0 && IsWhitespace(s[|s| - 1]) then
      var r := TrimEnd(s[..|s| - 1]);
      TrimEndStep(s, r);
      r
    else
      assert s[..|s|] == s && s[|s|..] == [];
      s
  }

  /** A prefix of all but the last character, before whitespace only, is a
      prefix of the whole text before whitespace only when the last
      character is whitespace too. */
  lemma TrimEndStep(s: string, r: string)
    requires |s| > 0 && IsWhitespace(s[|s| - 1])
    requires |r| <= |s| - 1 && r == s[..|s| - 1][..|r|] && AllWhitespace(s[..|s| - 1][|r|..])
    ensures r == s[..|r|] && AllWhitespace(s[|r|..])
  {
    assert s[..|s| - 1][..|r|] == s[..|r|];
    WhitespaceSnoc(s[..|s| - 1][|r|..], s[|s| - 1]);
    assert s[|r|..] == s[..|s| - 1][|r|..] + [s[|s| - 1]];
  }

  lemma WhitespaceSnoc(t: string, c: char)
    requires AllWhitespace(t) && IsWhitespace(c)
    ensures AllWhitespace(t + [c])
  {
    assert forall i :: 0 <= i < |t| ==> (t + [c])[i] == t[i];
  }

  /** `s.trim()`: empty exactly when `s` is blank, and otherwise bounded by
      non-whitespace characters on both sides. */
  function Trim(s: string): (r: string)
    ensures |r| <= |s|
    ensures exists i :: Trimmed(s, r, i)
    ensures r == [] <==> AllWhitespace(s)
    ensures r != [] ==> !IsWhitespace(r[0]) && !IsWhitespace(r[|r| - 1])
  {
    var t := TrimStart(s);
    var r := TrimEnd(t);
    SliceOfSuffix(s, t, r);
    TrimEnds(s, t, r);
    r
  }

  /** Both ends of the trimmed text are non-whitespace, and it is empty
      exactly when the whole text is whitespace. */
  lemma TrimEnds(s: string, t: string, r: string)
    requires |t| <= |s| && t == s[|s| - |t|..] && AllWhitespace(s[..|s| - |t|])
    requires t == [] || !IsWhitespace(t[0])
    requires |r| <= |t| && r == t[..|r|] && AllWhitespace(t[|r|..])
    requires r == [] || !IsWhitespace(r[|r| - 1])
    ensures r == [] <==> AllWhitespace(s)
    ensures r != [] ==> !IsWhitespace(r[0]) && !IsWhitespace(r[|r| - 1])
  {
    if t == [] {
      assert s[..|s|] == s;
    } else {
      var k := |s| - |t|;
      assert s[k] == t[0];
      assert r[0] == t[0];
    }
  }

  lemma SliceOfSuffix(s: string, t: string, r: string)
    requires |t| <= |s| && t == s[|s| - |t|..] && AllWhitespace(s[..|s| - |t|])
    requires |r| <= |t| && r == t[..|r|] && AllWhitespace(t[|r|..])
    ensures Trimmed(s, r, |s| - |t|)
  {
    var i := |s| - |t|;
    assert r == s[i..i + |r|];
    assert s[i + |r|..] == t[|r|..];
  }

  /** `r` is the slice of `s` that starts at `i`, with only whitespace
      before and after it. */
  predicate Trimmed(s: string, r: string, i: int) {
    0 <= i && i + |r| <= |s| && r == s[i..i + |r|]
    && AllWhitespace(s[..i]) && AllWhitespace(s[i + |r|..])
  }

  /** `s.length`: the length in UTF-16 code units, where a character beyond
      the Basic Multilingual Plane takes two (a surrogate pair). */
  function Utf16Len(s: string): (n: nat)
    ensures |s| <= n <= 2 * |s|
    ensures n == |s| <==> forall i :: 0 <= i < |s| ==> s[i] as int < 0x1_0000
  {
    if s == [] then 0
    else
      var rest := Utf16Len(s[1..]);
      assert forall i :: 0 < i < |s| ==> s[i] == s[1..][i - 1];
      (if s[0] as int < 0x1_0000 then 1 else 2) + rest
  }

  /** `toLowerCase` on one character: the ASCII and Latin-1 capitals (the
      letters Portuguese text uses) map to their small letters; every other
      character is kept. */
  function LowerChar(c: char): (r: char)
    ensures IsWhitespace(r) <==> IsWhitespace(c)
  {
    if 'A' <= c <= 'Z' || ('\U{00C0}' <= c <= '\U{00DE}' && c != '\U{00D7}')
    then (c as int + 32) as char
    else c
  }

  /** `s.toLowerCase()`. */
  function Lower(s: string): (r: string)
    ensures |r| == |s|
    ensures forall i :: 0 <= i < |s| ==> r[i] == LowerChar(s[i])
  {
    if s == [] then [] else [LowerChar(s[0])] + Lower(s[1..])
  }

  predicate StartsWith(s: string, prefix: string) {
    |prefix| <= |s| && s[..|prefix|] == prefix
  }

  /** `q` is spelled by the window of `s` that starts at `i`. */
  predicate OccursAt(s: string, q: string, i: int) {
    0 <= i && i + |q| <= |s| && s[i..i + |q|] == q
  }

  /** `s.includes(q)`: some window of `s` spells `q`. */
  function Contains(s: string, q: string): (b: bool)
    ensures b <==> exists i :: OccursAt(s, q, i)
  {
    if StartsWith(s, q) then
      assert OccursAt(s, q, 0);
      true
    else if |s| <= |q| then
      assert forall i :: OccursAt(s, q, i) ==> i == 0;
      false
    else
      var b := Contains(s[1..], q);
      assert b ==> exists i :: OccursAt(s, q, i) by {
        if b {
          var j :| OccursAt(s[1..], q, j);
          assert s[j + 1..j + 1 + |q|] == s[1..][j..j + |q|];
          assert OccursAt(s, q, j + 1);
        }
      }
      assert (exists i :: OccursAt(s, q, i)) ==> b by {
        if exists i :: OccursAt(s, q, i) {
          var i :| OccursAt(s, q, i);
          assert i != 0;
          assert s[1..][i - 1..i - 1 + |q|] == s[i..i + |q|];
          assert OccursAt(s[1..], q, i - 1);
        }
      }
      b
  }

  /** `s.split(c)[0]`: the longest prefix of `s` without `c`; when it is
      shorter than `s`, the character that ends it is `c`. */
  function BeforeFirst(s: string, c: char): (r: string)
    ensures |r| <= |s| && r == s[..|r|]
    ensures c !in r
    ensures |r| < |s| ==> s[|r|] == c
  {
    if |s| == 0 || s[0] == c then [] else [s[0]] + BeforeFirst(s[1..], c)
  }

  /** `iso.split('T')[0]`: the date part of an ISO timestamp. */
  function DatePart(iso: string): (r: string)
    ensures StartsWith(iso, r) && 'T' !in r
    ensures |r| < |iso| ==> iso[|r|] == 'T'
  {
    BeforeFirst(iso, 'T')
  }

  /** Truthiness of an optional string: present and not empty. */
  predicate Truthy(o: Option<string>) {
    o.Some? && o.value != ""
  }

  /** `s || undefined` and `s || null`: the empty string becomes missing. */
  function OrNone(s: string): (r: Option<string>)
    ensures r.None? <==> s == ""
    ensures r.Some? ==> r.value == s
  {
    if s == "" then None else Some(s)
  }

  /** `o ?? ''` and `o || ''`: a missing value becomes the empty string. */
  function OrEmpty(o: Option<string>): (r: string)
    ensures r == "" <==> !Truthy(o)
    ensures Truthy(o) ==> r == o.value
  {
    if o.Some? then o.value else ""
  }

  /** An optional value after a trip through a text field (`o ?? ''`, then
      `|| undefined`): kept when it is non-empty text, absent otherwise. */
  function Normalized(o: Option<string>): (r: Option<string>)
    ensures r.Some? <==> Truthy(o)
    ensures r.Some? ==> r == o
  {
    if Truthy(o) then o else None
  }

  /** `OrNone` undoes `OrEmpty` except that a present empty string is lost. */
  lemma OrNoneOrEmpty(o: Option<string>)
    ensures OrNone(OrEmpty(o)) == Normalized(o)
  {
  }
}
