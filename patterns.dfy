/** The case-insensitive regular expressions of the chat gate's blocklist, in the restricted
    shapes the blocklist actually uses, with a declarative meaning (`Matches`) and the
    left-to-right search that `RegExp.prototype.test` performs (`Test`). */
module Patterns {
  import opened Text

  datatype Pattern =
    /** `/text/i`: the text occurs anywhere. */
    | Literal(text: string)
    /** `/trigger(?!e1|...|en)/i`: the trigger occurs somewhere not immediately followed
        by any of the exempt continuations. */
    | NotFollowedBy(trigger: string, exempt: seq<string>)
    /** `/trigger(?!\s+word)/i`: the trigger occurs somewhere not followed by one or more
        white-space code units and then the word. */
    | NotFollowedBySpaces(trigger: string, word: string)
    /** `/first.*last/i`: `first` occurs, and `last` occurs later with no line terminator
        in between. */
    | Ordered(first: string, last: string)

  /** No code unit of `s` is a line terminator, so `.*` can span it. */
  predicate NoLineTerminator(s: string) {
    forall i :: 0 <= i < |s| ==> !IsLineTerminator(s[i])
  }

  /** The lookahead body `\s+word` matches at index `j` of `f`. */
  ghost predicate SpacesThenAt(f: string, w: string, j: nat) {
    exists k: nat :: j < k && PrefixAt(f, w, k) && IsBlank(f[j..k])
  }

  /** The tail `.*last` matches at index `j` of `f`. */
  ghost predicate GapThenAt(f: string, b: string, j: nat) {
    exists k: nat :: j <= k && PrefixAt(f, b, k) && NoLineTerminator(f[j..k])
  }

  /** Pattern `p` matches the lowered subject `f` at index `i`.  Both the subject and the
      pattern's texts are compared lowered, which is what the `i` flag does for patterns
      written in lower-case ASCII and Arabic letters. */
  ghost predicate MatchesAt(p: Pattern, f: string, i: nat) {
    match p
    case Literal(t) => PrefixAt(f, ToLower(t), i)
    case NotFollowedBy(t, ex) =>
      PrefixAt(f, ToLower(t), i) && forall e :: e in ex ==> !PrefixAt(f, ToLower(e), i + |t|)
    case NotFollowedBySpaces(t, w) =>
      PrefixAt(f, ToLower(t), i) && !SpacesThenAt(f, ToLower(w), i + |t|)
    case Ordered(a, b) =>
      PrefixAt(f, ToLower(a), i) && GapThenAt(f, ToLower(b), i + |a|)
  }

  /** Pattern `p` matches somewhere in `message`. */
  ghost predicate Matches(p: Pattern, message: string) {
    exists i: nat :: MatchesAt(p, ToLower(message), i)
  }

  /** Tries `\s+word` at index `j`, one white-space code unit at a time. */
  function SpacesThen(f: string, w: string, j: nat): (b: bool)
    decreases |f| - j
    ensures b <==> SpacesThenAt(f, w, j)
  {
    if j >= |f| || !IsWhiteSpace(f[j]) then
      assert forall k: nat :: j < k <= |f| ==> f[j..k][0] == f[j];
      false
    else if PrefixAt(f, w, j + 1) then
      assert IsBlank(f[j..j + 1]);
      true
    else
      var b := SpacesThen(f, w, j + 1);
      if b then
        var k: nat :| j + 1 < k && PrefixAt(f, w, k) && IsBlank(f[j + 1..k]);
        assert f[j..k] == [f[j]] + f[j + 1..k];
        b
      else
        assert forall k: nat :: j + 1 < k <= |f| ==> f[j + 1..k] == f[j..k][1..];
        b
  }

  /** Tries `.*last` at index `j`: `last` here, or one more code unit that is not a line
      terminator and `.*last` after it. */
  function GapThen(f: string, b: string, j: nat): (r: bool)
    decreases |f| - j
    ensures r <==> GapThenAt(f, b, j)
  {
    if PrefixAt(f, b, j) then
      assert NoLineTerminator(f[j..j]);
      true
    else if j >= |f| || IsLineTerminator(f[j]) then
      assert forall k: nat :: j < k <= |f| ==> f[j..k][0] == f[j];
      false
    else
      var r := GapThen(f, b, j + 1);
      if r then
        var k: nat :| j + 1 <= k && PrefixAt(f, b, k) && NoLineTerminator(f[j + 1..k]);
        assert f[j..k] == [f[j]] + f[j + 1..k];
        r
      else
        assert forall k: nat :: j < k <= |f| ==> f[j + 1..k] == f[j..k][1..];
        r
  }

  /** One of the exempt continuations occurs at index `j`. */
  function AnyPrefixAt(f: string, exempt: seq<string>, j: nat): (b: bool)
    ensures b <==> exists e :: e in exempt && PrefixAt(f, ToLower(e), j)
  {
    if exempt == [] then false
    else PrefixAt(f, ToLower(exempt[0]), j) || AnyPrefixAt(f, exempt[1..], j)
  }

  /** Matching at one start index, as the regular-expression engine does it. */
  function MatchAt(p: Pattern, f: string, i: nat): (b: bool)
    ensures b <==> MatchesAt(p, f, i)
  {
    match p
    case Literal(t) => PrefixAt(f, ToLower(t), i)
    case NotFollowedBy(t, ex) => PrefixAt(f, ToLower(t), i) && !AnyPrefixAt(f, ex, i + |t|)
    case NotFollowedBySpaces(t, w) =>
      PrefixAt(f, ToLower(t), i) && !SpacesThen(f, ToLower(w), i + |t|)
    case Ordered(a, c) => PrefixAt(f, ToLower(a), i) && GapThen(f, ToLower(c), i + |a|)
  }

  /** Tries every start index from `i` on, left to right. */
  function SearchFrom(p: Pattern, f: string, i: nat): (b: bool)
    decreases |f| + 1 - i
    ensures b <==> exists j: nat :: i <= j && MatchesAt(p, f, j)
  {
    if i > |f| then
      assert forall j: nat :: i <= j ==> !MatchesAt(p, f, j);
      false
    else if MatchAt(p, f, i) then true
    else
      var b := SearchFrom(p, f, i + 1);
      assert forall j: nat :: i <= j && MatchesAt(p, f, j) ==> i + 1 <= j;
      b
  }

  /** `RegExp.prototype.test`: the pattern matches somewhere in the message. */
  function Test(p: Pattern, message: string): (b: bool)
    ensures b <==> Matches(p, message)
  {
    SearchFrom(p, ToLower(message), 0)
  }

  /** `patterns.some(pattern => pattern.test(message))`. */
  function TestAny(patterns: seq<Pattern>, message: string): (b: bool)
    ensures b <==> exists p :: p in patterns && Matches(p, message)
  {
    if patterns == [] then false
    else Test(patterns[0], message) || TestAny(patterns[1..], message)
  }

  /** The negative lookahead of `/what is (?!haian)/i` spares a question about the subject:
      the only place the trigger occurs is followed by the exempt name. */
  lemma LookaheadSparesSubject()
    ensures !Matches(NotFollowedBy("what is ", ["haian"]), "What is Haian?")
  {
    var m := "What is Haian?";
    var f := ToLower(m);
    assert m[8..13] == "Haian" && ToLower("Haian") == ToLower("haian");
    PrefixAtLowered(m, "Haian", 8);
    forall i: nat | 0 < i
      ensures !PrefixAt(f, ToLower("what is "), i)
    {
      assert i + 8 > |f| || f[i] != 'w';
      NotPrefixAt(f, ToLower("what is "), i);
    }
  }

  /** ... and catches the same question about anything else. */
  lemma LookaheadCatchesOther()
    ensures Matches(NotFollowedBy("what is ", ["haian"]), "What is React?")
  {
    var m := "What is React?";
    var f := ToLower(m);
    assert m[..8] == "What is " && ToLower("What is ") == ToLower("what is ");
    PrefixAtLowered(m, "What is ", 0);
    assert f[8] == 'r' && ToLower("haian")[0] == 'h';
    NotPrefixAt(f, ToLower("haian"), 8);
    assert MatchesAt(NotFollowedBy("what is ", ["haian"]), f, 0);
  }
}
