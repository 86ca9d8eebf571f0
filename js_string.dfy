/**
 * The two JavaScript string built-ins the components rely on:
 * `String.prototype.trim` and `String.prototype.toLowerCase`.
 *
 * `trim` removes, from both ends, every code point of ECMAScript's
 * WhiteSpace and LineTerminator productions. That set is fixed, so it is
 * written out below as `IsWhitespace`.
 */
module JsString {

  /** ECMAScript WhiteSpace (TAB, VT, FF, ZWNBSP and every Unicode "Zs" space)
      and LineTerminator (LF, CR, LINE SEPARATOR, PARAGRAPH SEPARATOR). */
  predicate IsWhitespace(c: char)
    // no printable ASCII character, no DEL and no C1 control is whitespace
    ensures IsWhitespace(c) ==> c as int <= 0x20 || c as int >= 0xA0
    // NEXT LINE, MONGOLIAN VOWEL SEPARATOR and ZERO WIDTH SPACE are not in the set
    ensures c == '\U{0085}' || c == '\U{180E}' || c == '\U{200B}' ==> !IsWhitespace(c)
  {
    || c == '\t' || c == '\n' || c == '\U{000B}' || c == '\U{000C}' || c == '\r'
    || c == ' ' || c == '\U{00A0}' || c == '\U{1680}'
    || ('\U{2000}' <= c <= '\U{200A}')
    || c == '\U{2028}' || c == '\U{2029}' || c == '\U{202F}' || c == '\U{205F}'
    || c == '\U{3000}' || c == '\U{FEFF}'
  }

  /** Every character of `s` is whitespace (this includes the empty string). */
  predicate AllWhitespace(s: string) {
    forall i :: 0 <= i < |s| ==> IsWhitespace(s[i])
  }

  /** Neither the first nor the last character of `s` is whitespace. */
  predicate NoEdgeWhitespace(s: string) {
    s == [] || (!IsWhitespace(s[0]) && !IsWhitespace(s[|s| - 1]))
  }

  /** `s` with its leading whitespace removed. */
  function TrimStart(s: string): string {
    if s != [] && IsWhitespace(s[0]) then TrimStart(s[1..]) else s
  }

  /** `TrimStart` cuts off a whitespace prefix, and what is left does not
      start with whitespace. */
  lemma {:induction false} TrimStartCutsWhitespacePrefix(s: string)
    ensures |TrimStart(s)| <= |s| && TrimStart(s) == s[|s| - |TrimStart(s)|..]
    ensures AllWhitespace(s[..|s| - |TrimStart(s)|])
    ensures TrimStart(s) != [] ==> !IsWhitespace(TrimStart(s)[0])
  {
    if s != [] && IsWhitespace(s[0]) {
      TrimStartCutsWhitespacePrefix(s[1..]);
      var r := TrimStart(s[1..]);
      assert s[1..][..|s[1..]| - |r|] == s[1..|s| - |r|];
      assert s[..|s| - |r|] == [s[0]] + s[1..|s| - |r|];
    } else {
      assert s[..0] == [];
    }
  }

  /** `s` with its trailing whitespace removed. */
  function TrimEnd(s: string): string {
    if s != [] && IsWhitespace(s[|s| - 1]) then TrimEnd(s[..|s| - 1]) else s
  }

  /** `TrimEnd` cuts off a whitespace suffix, and what is left does not end
      with whitespace. */
  lemma {:induction false} TrimEndCutsWhitespaceSuffix(s: string)
    ensures |TrimEnd(s)| <= |s| && TrimEnd(s) == s[..|TrimEnd(s)|]
    ensures AllWhitespace(s[|TrimEnd(s)|..])
    ensures TrimEnd(s) != [] ==> !IsWhitespace(TrimEnd(s)[|TrimEnd(s)| - 1])
  {
    if s != [] && IsWhitespace(s[|s| - 1]) {
      var p := s[..|s| - 1];
      TrimEndCutsWhitespaceSuffix(p);
      var r := TrimEnd(p);
      assert p[..|r|] == s[..|r|];
      assert s[|r|..] == p[|r|..] + [s[|s| - 1]];
    } else {
      assert s[|s|..] == [];
    }
  }

  /** JavaScript's `s.trim()`. */
  function Trim(s: string): (r: string)
    ensures NoEdgeWhitespace(r)
    ensures |r| <= |s|
  {
    TrimStartCutsWhitespacePrefix(s);
    TrimEndCutsWhitespaceSuffix(TrimStart(s));
    var t := TrimStart(s);
    var r := TrimEnd(t);
    assert r != [] ==> r[0] == t[0];
    r
  }

  /** A string is blank (JavaScript treats `s.trim()` as false) exactly when
      every character is whitespace. */
  lemma {:induction false} TrimEmptyIffBlank(s: string)
    ensures Trim(s) == [] <==> AllWhitespace(s)
  {
    var t := TrimStart(s);
    TrimStartCutsWhitespacePrefix(s);
    TrimEndCutsWhitespaceSuffix(t);
    var k := |s| - |t|;
    assert s == s[..k] + t;
    if Trim(s) == [] {
      assert AllWhitespace(t[0..]);
      assert t == [];
      assert s[..k] == s;
    } else {
      var r := Trim(s);
      assert r == t[..|r|] && r[0] == t[0] == s[k];
      assert !IsWhitespace(s[k]);
    }
  }

  /** Trimming keeps the middle of the string: `s` is the trimmed string with
      whitespace around it. */
  lemma TrimIsInfix(s: string) returns (p: string, q: string)
    ensures s == p + Trim(s) + q
    ensures AllWhitespace(p) && AllWhitespace(q)
  {
    var t := TrimStart(s);
    var r := TrimEnd(t);
    TrimStartCutsWhitespacePrefix(s);
    TrimEndCutsWhitespaceSuffix(t);
    p := s[..|s| - |t|];
    q := t[|r|..];
    assert AllWhitespace(p) && AllWhitespace(q);
    assert Trim(s) == r;
    calc {
      s;
      p + t;
      { assert t == r + q; }
      p + (r + q);
      p + r + q;
    }
  }

  lemma {:induction false} TrimStartOfPadded(p: string, r: string, q: string)
    requires AllWhitespace(p) && AllWhitespace(q) && NoEdgeWhitespace(r)
    ensures TrimStart(p + r + q) == if r == [] then [] else r + q
    decreases |p| + |q|
  {
    if p != [] {
      assert (p + r + q)[1..] == p[1..] + r + q;
      TrimStartOfPadded(p[1..], r, q);
    } else if r == [] && q != [] {
      assert p + r + q == q;
      assert ([] + [] + q)[1..] == [] + [] + q[1..];
      TrimStartOfPadded([], [], q[1..]);
    } else {
      assert p + r + q == r + q;
    }
  }

  lemma {:induction false} TrimEndOfPadded(r: string, q: string)
    requires AllWhitespace(q) && NoEdgeWhitespace(r)
    ensures TrimEnd(r + q) == r
    decreases |q|
  {
    if q != [] {
      assert (r + q)[..|r + q| - 1] == r + q[..|q| - 1];
      TrimEndOfPadded(r, q[..|q| - 1]);
    } else {
      assert r + q == r;
    }
  }

  /** `Trim` is the one way of writing `s` as whitespace, a string with no
      whitespace at either end, and whitespace. */
  lemma {:induction false} TrimUnique(s: string, p: string, r: string, q: string)
    requires s == p + r + q && AllWhitespace(p) && AllWhitespace(q) && NoEdgeWhitespace(r)
    ensures Trim(s) == r
  {
    TrimStartOfPadded(p, r, q);
    if r != [] {
      TrimEndOfPadded(r, q);
    }
  }

  /** Trimming twice trims nothing more. */
  lemma TrimIdempotent(s: string)
    ensures Trim(Trim(s)) == Trim(s)
  {
    var r := Trim(s);
    assert r == [] + r + [];
    TrimUnique(r, [], r, []);
  }

  /** JavaScript's `toLowerCase` on one character, for the letters A to Z.
      Other characters are left alone; see `LowerCaseIsDone` for why this
      suffices for the one comparison the components make. */
  function LowerChar(c: char): (d: char)
    ensures 'A' <= c <= 'Z' ==> d as int == c as int + 32
    ensures !('A' <= c <= 'Z') ==> d == c
  {
    if 'A' <= c <= 'Z' then (c as int + 32) as char else c
  }

  /** JavaScript's `s.toLowerCase()`, character by character. */
  function LowerCase(s: string): (r: string)
    ensures |r| == |s|
    ensures forall i :: 0 <= i < |s| ==> r[i] == LowerChar(s[i])
  {
    seq(|s|, i requires 0 <= i < |s| => LowerChar(s[i]))
  }

  /** `name` spells "done" in any mix of upper and lower case. */
  predicate SpellsDoneInAnyCase(name: string) {
    && |name| == 4
    && (name[0] == 'd' || name[0] == 'D')
    && (name[1] == 'o' || name[1] == 'O')
    && (name[2] == 'n' || name[2] == 'N')
    && (name[3] == 'e' || name[3] == 'E')
  }

  /** `name.toLowerCase() === 'done'` holds exactly for the sixteen case
      variants of "done". */
  lemma LowerCaseIsDone(name: string)
    ensures LowerCase(name) == "done" <==> SpellsDoneInAnyCase(name)
  {
    var l := LowerCase(name);
    if SpellsDoneInAnyCase(name) {
      assert l[0] == 'd' && l[1] == 'o' && l[2] == 'n' && l[3] == 'e';
      assert l == "done";
    }
    if l == "done" {
      assert l[0] == 'd' && l[1] == 'o' && l[2] == 'n' && l[3] == 'e';
    }
  }
}
