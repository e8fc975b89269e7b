/**
  The three JavaScript string operations the core relies on:
  `String.prototype.toLowerCase` (on the ASCII letters),
  `String.prototype.includes` (raw substring search) and
  `String.prototype.trim` (with the full ECMAScript white-space set).
 */
module Text {

  predicate IsUpperAscii(c: char) {
    'A' <= c <= 'Z'
  }

  /** `toLowerCase` on one character: ASCII capitals move down by 32, every other character stays. */
  function LowerChar(c: char): (d: char)
    ensures IsUpperAscii(c) ==> d as int == c as int + 32
    ensures !IsUpperAscii(c) ==> d == c
    ensures !IsUpperAscii(d)
  {
    if IsUpperAscii(c) then (c as int + 32) as char else c
  }

  /** `s.toLowerCase()`: same length, character by character. */
  function Lower(s: string): (r: string)
    ensures |r| == |s|
    ensures forall i :: 0 <= i < |s| ==> r[i] == LowerChar(s[i])
  {
    if s == [] then [] else [LowerChar(s[0])] + Lower(s[1..])
  }

  /** A lowered string has no ASCII capital left. */
  predicate IsLowered(s: string) {
    forall i :: 0 <= i < |s| ==> !IsUpperAscii(s[i])
  }

  lemma LowerIsLowered(s: string)
    ensures IsLowered(Lower(s))
  {
  }

  /** Lowering text that has no capitals changes nothing; in particular lowering twice is lowering once. */
  lemma LowerOfLowered(s: string)
    requires IsLowered(s)
    ensures Lower(s) == s
  {
    assert forall i :: 0 <= i < |s| ==> Lower(s)[i] == s[i];
  }

  lemma LowerIdempotent(s: string)
    ensures Lower(Lower(s)) == Lower(s)
  {
    LowerIsLowered(s);
    LowerOfLowered(Lower(s));
  }

  /** The window of `s` starting at `i` spells `t`. */
  predicate OccursAt(s: string, t: string, i: int) {
    0 <= i <= |s| - |t| && s[i..i + |t|] == t
  }

  /** `s.includes(t)`: some window of `s` equals `t` (the empty `t` is found in every `s`). */
  predicate Contains(s: string, t: string) {
    exists i | 0 <= i <= |s| - |t| :: OccursAt(s, t, i)
  }

  /** Whatever sits around `t`, the search finds it: the raw substring test sees inside words. */
  lemma ContainsInfix(a: string, t: string, b: string)
    ensures Contains(a + t + b, t)
  {
    var s := a + t + b;
    assert OccursAt(s, t, |a|);
  }

  /** A text without some character of `t` cannot contain `t`. */
  lemma MissingCharExcludes(s: string, t: string, c: char)
    requires c in t && c !in s
    ensures !Contains(s, t)
  {
    var k :| 0 <= k < |t| && t[k] == c;
    forall i | 0 <= i <= |s| - |t| ensures !OccursAt(s, t, i) {
      assert s[i..i + |t|][k] == s[i + k] != c;
    }
  }

  /** A text in which two adjacent characters of `t` never appear side by side cannot contain `t`. */
  lemma MissingPairExcludes(s: string, t: string, k: nat)
    requires k + 1 < |t|
    requires forall i :: 0 <= i < |s| - 1 ==> s[i] != t[k] || s[i + 1] != t[k + 1]
    ensures !Contains(s, t)
  {
    forall i | 0 <= i <= |s| - |t| ensures !OccursAt(s, t, i) {
      assert s[i..i + |t|][k] == s[i + k] && s[i..i + |t|][k + 1] == s[i + k + 1];
    }
  }

  /** Case-insensitivity: an occurrence of `t` in `s` is an occurrence of lowered `t` in lowered `s`. */
  lemma ContainsLowered(s: string, t: string)
    requires Contains(s, t)
    ensures Contains(Lower(s), Lower(t))
  {
    var i :| 0 <= i <= |s| - |t| && OccursAt(s, t, i);
    assert s[i..i + |t|] == t;
    assert Lower(s)[i..i + |t|] == Lower(t);
    assert OccursAt(Lower(s), Lower(t), i);
  }

  /** An occurrence of an already lower-case `t` in `s` survives lowering `s`. */
  lemma OccursLowered(s: string, t: string, i: int)
    requires OccursAt(s, t, i) && IsLowered(t)
    ensures OccursAt(Lower(s), t, i)
  {
    assert forall k :: 0 <= k < |t| ==> Lower(s)[i + k] == LowerChar(s[i + k]) == t[k];
    assert Lower(s)[i..i + |t|] == t;
  }

  /**
    The characters `trim` removes: the ECMAScript WhiteSpace code points (tab, vertical tab,
    form feed, space, no-break space, byte order mark and the other space separators) and
    the LineTerminator code points.
   */
  predicate IsJsSpace(c: char) {
    || c == '\U{0009}' || c == '\U{000B}' || c == '\U{000C}' || c == ' ' || c == '\U{00A0}'
    || c == '\U{FEFF}' || c == '\U{1680}' || ('\U{2000}' <= c <= '\U{200A}') || c == '\U{202F}'
    || c == '\U{205F}' || c == '\U{3000}'
    || c == '\U{000A}' || c == '\U{000D}' || c == '\U{2028}' || c == '\U{2029}'
  }

  predicate AllSpace(s: string) {
    forall i :: 0 <= i < |s| ==> IsJsSpace(s[i])
  }

  /** Drops the leading white space: the result is the suffix of `s` after a white-space prefix. */
  function TrimStart(s: string): (r: string)
    ensures |r| <= |s| && r == s[|s| - |r|..]
    ensures AllSpace(s[..|s| - |r|])
    ensures r == [] || !IsJsSpace(r[0])
  {
    if s != [] && IsJsSpace(s[0]) then TrimStart(s[1..]) else s
  }

  /** Drops the trailing white space: the result is the prefix of `s` before a white-space suffix. */
  function TrimEnd(s: string): (r: string)
    ensures |r| <= |s| && r == s[..|r|]
    ensures AllSpace(s[|r|..])
    ensures r == [] || !IsJsSpace(r[|r| - 1])
  {
    if s != [] && IsJsSpace(s[|s| - 1]) then TrimEnd(s[..|s| - 1]) else s
  }

  /** Neither the first nor the last character is white space. */
  predicate Trimmed(s: string) {
    s == [] || (!IsJsSpace(s[0]) && !IsJsSpace(s[|s| - 1]))
  }

  /** `s.trim()`: a piece of `s` that begins and ends with a visible character. */
  function Trim(s: string): (r: string)
    ensures Trimmed(r)
    ensures Contains(s, r)
  {
    var a := TrimStart(s);
    var r := TrimEnd(a);
    assert r == a[..|r|];
    assert s[|s| - |a|..|s| - |a| + |r|] == r;
    assert OccursAt(s, r, |s| - |a|);
    r
  }

  lemma {:induction false} TrimStartOfSpace(s: string)
    requires AllSpace(s)
    ensures TrimStart(s) == []
  {
    if s != [] {
      TrimStartOfSpace(s[1..]);
    }
  }

  lemma {:induction false} TrimEndOfSpace(s: string)
    requires AllSpace(s)
    ensures TrimEnd(s) == []
  {
    if s != [] {
      TrimEndOfSpace(s[..|s| - 1]);
    }
  }

  /** `trim` leaves nothing exactly when the text is white space only (or empty). */
  lemma TrimEmptyIffAllSpace(s: string)
    ensures Trim(s) == [] <==> AllSpace(s)
  {
    var a := TrimStart(s);
    if AllSpace(s) {
      TrimStartOfSpace(s);
      assert a == [];
    }
    if Trim(s) == [] {
      assert TrimEnd(a) == [];
      assert a[0..] == a;
      assert AllSpace(a);
      assert a == [];
      assert s[..|s| - |a|] == s;
    }
  }

}
