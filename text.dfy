/** The string operations the site's code borrows from the JavaScript runtime:
    `toLowerCase`, `trim`, `includes`, and the character classes `\s` and `.` of
    regular expressions.  Strings are sequences of UTF-16 code units, as in JavaScript. */
module Text {

  /** The upper-case letters this model lowers: ASCII `A`-`Z` and the Latin-1 capitals
      `À`-`Þ` except the multiplication sign. */
  predicate IsUpper(c: char) {
    ('A' <= c <= 'Z') || ('\U{00C0}' <= c <= '\U{00DE}' && c != '\U{00D7}')
  }

  /** `toLowerCase` on one code unit (restricted to the letters of `IsUpper`). */
  function LowerChar(c: char): (r: char)
    ensures !IsUpper(r)
    ensures r == c || IsUpper(c)
    ensures IsUpper(c) ==> r as int == c as int + 32
  {
    if IsUpper(c) then (c as int + 32) as char else c
  }

  /** `String.prototype.toLowerCase`, one code unit at a time. */
  function ToLower(s: string): (r: string)
    ensures |r| == |s|
    ensures forall i :: 0 <= i < |s| ==> r[i] == LowerChar(s[i])
  {
    seq(|s|, i requires 0 <= i < |s| => LowerChar(s[i]))
  }

  /** Lowering works code unit by code unit, so it distributes over concatenation. */
  lemma ToLowerAppend(a: string, b: string)
    ensures ToLower(a + b) == ToLower(a) + ToLower(b)
  {
  }

  /** Lowering is idempotent: a lowered string has nothing left to lower. */
  lemma ToLowerIdempotent(s: string)
    ensures ToLower(ToLower(s)) == ToLower(s)
  {
  }

  /** JavaScript's LineTerminator: what the regular-expression `.` does not match. */
  predicate IsLineTerminator(c: char) {
    c == '\n' || c == '\r' || c == '\U{2028}' || c == '\U{2029}'
  }

  /** JavaScript's WhiteSpace and LineTerminator code units: what `trim` removes and
      what the regular-expression class `\s` matches. */
  predicate IsWhiteSpace(c: char) {
    || c == '\t' || c == '\U{000B}' || c == '\U{000C}' || c == ' ' || c == '\U{00A0}'
    || c == '\U{FEFF}' || c == '\U{1680}' || ('\U{2000}' <= c <= '\U{200A}')
    || c == '\U{202F}' || c == '\U{205F}' || c == '\U{3000}'
    || IsLineTerminator(c)
  }

  /** Every code unit of `s` is white space (true of the empty string). */
  predicate IsBlank(s: string) {
    forall i :: 0 <= i < |s| ==> IsWhiteSpace(s[i])
  }

  /** Leading white space removed: `r` is the longest suffix of `s` that does not start with
      white space, and everything cut off is white space. */
  function TrimStart(s: string): (r: string)
    ensures |r| <= |s| && r == s[|s| - |r|..]
    ensures IsBlank(s[..|s| - |r|])
    ensures r == [] || !IsWhiteSpace(r[0])
  {
    if s != [] && IsWhiteSpace(s[0]) then
      var r := TrimStart(s[1..]);
      assert s[..|s| - |r|] == [s[0]] + s[1..][..|s| - 1 - |r|];
      r
    else
      s
  }

  /** Trailing white space removed: `r` is the longest prefix of `s` that does not end with
      white space, and everything cut off is white space. */
  function TrimEnd(s: string): (r: string)
    ensures |r| <= |s| && r == s[..|r|]
    ensures IsBlank(s[|r|..])
    ensures r == [] || !IsWhiteSpace(r[|r| - 1])
  {
    if s != [] && IsWhiteSpace(s[|s| - 1]) then
      var r := TrimEnd(s[..|s| - 1]);
      assert s[|r|..] == s[..|s| - 1][|r|..] + [s[|s| - 1]];
      r
    else
      s
  }

  /** `r` is `s` with the white space `s[..a]` cut from its front and the white space `s[b..]`
      cut from its back, and nothing else changed. */
  predicate CutsTo(s: string, r: string, a: int, b: int) {
    0 <= a <= b <= |s| && r == s[a..b] && IsBlank(s[..a]) && IsBlank(s[b..])
  }

  /** Trimming both ends cuts off a white-space prefix and a white-space suffix, nothing more. */
  lemma TrimCutsEnds(s: string)
    ensures exists a, b :: CutsTo(s, TrimEnd(TrimStart(s)), a, b)
  {
    var t := TrimStart(s);
    var r := TrimEnd(t);
    var a := |s| - |t|;
    var b := a + |r|;
    assert r == s[a..b] by {
      assert t == s[a..];
    }
    assert IsBlank(s[b..]) by {
      assert s[b..] == t[|r|..];
    }
    assert CutsTo(s, r, a, b);
  }

  /** `String.prototype.trim`: the input with its leading and trailing white space cut off,
      and nothing else. */
  function Trim(s: string): (r: string)
    ensures |r| <= |s|
    ensures exists a, b :: CutsTo(s, r, a, b)
    ensures r == [] || (!IsWhiteSpace(r[0]) && !IsWhiteSpace(r[|r| - 1]))
  {
    TrimCutsEnds(s);
    TrimEnd(TrimStart(s))
  }

  /** A string trims to the empty string exactly when it is all white space. */
  lemma {:induction false} TrimEmptyIffBlank(s: string)
    ensures Trim(s) == "" <==> IsBlank(s)
  {
    var t := TrimStart(s);
    var k := |s| - |t|;
    if Trim(s) == "" {
      assert IsBlank(t[0..]);
      assert t[0..] == t;
      assert s == s[..k] + t;
    }
  }

  /** `p` occurs in `s` starting at index `i`. */
  predicate PrefixAt(s: string, p: string, i: nat) {
    i + |p| <= |s| && s[i..i + |p|] == p
  }

  /** `p` is a substring of `s`. */
  ghost predicate Occurs(s: string, p: string) {
    exists i: nat :: PrefixAt(s, p, i)
  }

  /** Left-to-right search for `p` in `s` from index `i` on. */
  function IncludesFrom(s: string, p: string, i: nat): (b: bool)
    decreases |s| - i
    ensures b <==> exists j: nat :: i <= j && PrefixAt(s, p, j)
  {
    if i + |p| > |s| then false
    else if PrefixAt(s, p, i) then true
    else
      assert p != [];
      var b := IncludesFrom(s, p, i + 1);
      assert forall j: nat :: i <= j && PrefixAt(s, p, j) ==> i + 1 <= j;
      b
  }

  /** `String.prototype.includes`: true exactly when `p` is a substring of `s`. */
  function Includes(s: string, p: string): (b: bool)
    ensures b <==> Occurs(s, p)
  {
    IncludesFrom(s, p, 0)
  }

  /** Lowering keeps occurrences: where `p` occurs in `s`, the lowering of `p` occurs in
      the lowering of `s`, at the same index. */
  lemma PrefixAtLowered(s: string, p: string, i: nat)
    requires PrefixAt(s, p, i)
    ensures PrefixAt(ToLower(s), ToLower(p), i)
  {
  }

  /** A non-empty `t` does not occur at an index where its first code unit is absent. */
  lemma NotPrefixAt(s: string, t: string, i: nat)
    requires t != [] && (i + |t| > |s| || s[i] != t[0])
    ensures !PrefixAt(s, t, i)
  {
    if i + |t| <= |s| {
      assert s[i..i + |t|][0] == s[i];
    }
  }
}
