/**
  The few java.lang.String operations the listener relies on, on `seq<char>`:
  `toLowerCase`, `replace("+", "")`, `contains` and `split(" ")[0]`.
 */
module Strings {
  import opened Common

  predicate IsUpper(c: char) {
    'A' <= c <= 'Z'
  }

  /** Lower-casing of one character (ASCII letters only). */
  function LowerChar(c: char): char {
    if IsUpper(c) then (c as int + 32) as char else c
  }

  /** `String.toLowerCase`: every character lowered, nothing else changed. */
  function Lower(s: string): (r: string)
    ensures |r| == |s|
    ensures forall i :: 0 <= i < |s| ==> r[i] == LowerChar(s[i])
    ensures forall i :: 0 <= i < |r| ==> !IsUpper(r[i])
  {
    if s == [] then [] else [LowerChar(s[0])] + Lower(s[1..])
  }

  /** Lowering an already lowered string changes nothing. */
  lemma LowerIdempotent(s: string)
    ensures Lower(Lower(s)) == Lower(s)
  {
  }

  /** `String.replace("+", "")`: the plus signs dropped, every other character kept in order. */
  function StripPlus(s: string): (r: string)
    ensures '+' !in r
    ensures '+' !in s ==> r == s
  {
    if s == [] then [] else (if s[0] == '+' then [] else [s[0]]) + StripPlus(s[1..])
  }

  /** Every character other than `+` keeps its count, and the length drops by the number of plus signs. */
  lemma {:induction false} StripPlusCounts(s: string)
    ensures forall c | c != '+' :: multiset(StripPlus(s))[c] == multiset(s)[c]
    ensures |StripPlus(s)| == |s| - multiset(s)['+']
  {
    if s != [] {
      assert s == [s[0]] + s[1..];
      StripPlusCounts(s[1..]);
    }
  }

  /** Stripping works piecewise, so the characters kept stay in their order. */
  lemma {:induction false} StripPlusAppend(a: string, b: string)
    ensures StripPlus(a + b) == StripPlus(a) + StripPlus(b)
    decreases |a|
  {
    if a == [] {
      assert a + b == b;
    } else {
      StripPlusAppend(a[1..], b);
      StripPlusAppendStep(a[0], a[1..], b);
      HeadTail(a, b);
    }
  }

  /** The inductive step of `StripPlusAppend`, with the head split off. */
  lemma StripPlusAppendStep(c: char, t: string, b: string)
    requires StripPlus(t + b) == StripPlus(t) + StripPlus(b)
    ensures StripPlus([c] + (t + b)) == StripPlus([c] + t) + StripPlus(b)
  {
    StripPlusCons(c, t + b);
    StripPlusCons(c, t);
    AppendAssoc(if c == '+' then [] else [c], StripPlus(t), StripPlus(b));
  }

  /** Concatenation is associative; stated once so the stripping proofs need not rediscover it. */
  lemma AppendAssoc<T>(x: seq<T>, y: seq<T>, z: seq<T>)
    ensures x + (y + z) == (x + y) + z
  {
  }

  /** A non-empty sequence is its head followed by its tail, also under concatenation. */
  lemma HeadTail<T>(a: seq<T>, b: seq<T>)
    requires a != []
    ensures [a[0]] + a[1..] == a
    ensures [a[0]] + (a[1..] + b) == a + b
  {
  }

  /** Unfolding one step: the head is kept unless it is a plus sign. */
  lemma StripPlusCons(c: char, t: string)
    ensures StripPlus([c] + t) == (if c == '+' then [] else [c]) + StripPlus(t)
  {
    assert ([c] + t)[0] == c;
    assert ([c] + t)[1..] == t;
  }

  /** A single character survives stripping unless it is a plus sign. */
  lemma StripPlusChar(c: char)
    ensures StripPlus([c]) == (if c == '+' then [] else [c])
  {
  }

  /** `pat` occurs in `s` starting at index `i`. */
  ghost predicate OccursAt(s: string, pat: string, i: int) {
    0 <= i && i + |pat| <= |s| && s[i..i + |pat|] == pat
  }

  /** `String.contains`. */
  function Contains(s: string, pat: string): (b: bool)
    ensures b <==> exists i :: OccursAt(s, pat, i)
    decreases |s|
  {
    if |s| < |pat| then
      false
    else if s[..|pat|] == pat then
      assert OccursAt(s, pat, 0);
      true
    else
      OccursInTail(s, pat);
      Contains(s[1..], pat)
  }

  /** When `pat` is not at the front of `s`, it occurs in `s` exactly when it occurs in `s[1..]`. */
  lemma OccursInTail(s: string, pat: string)
    requires |pat| <= |s| && s[..|pat|] != pat
    ensures |s| > 0
    ensures (exists i :: OccursAt(s, pat, i)) <==> (exists j :: OccursAt(s[1..], pat, j))
  {
    forall i | OccursAt(s, pat, i)
      ensures OccursAt(s[1..], pat, i - 1)
    {
      assert i != 0;
      assert s[1..][i - 1..i - 1 + |pat|] == s[i..i + |pat|];
    }
    forall j | OccursAt(s[1..], pat, j)
      ensures OccursAt(s, pat, j + 1)
    {
      assert s[1..][j..j + |pat|] == s[j + 1..j + 1 + |pat|];
    }
  }

  /** Whoever contains a pattern contains every prefix of it. */
  lemma {:induction false} ContainsPrefix(s: string, pat: string, k: nat)
    requires k <= |pat|
    requires Contains(s, pat)
    ensures Contains(s, pat[..k])
  {
    var i :| OccursAt(s, pat, i);
    assert s[i..i + k] == s[i..i + |pat|][..k];
    assert OccursAt(s, pat[..k], i);
  }

  predicate AllSpaces(s: string) {
    forall i :: 0 <= i < |s| ==> s[i] == ' '
  }

  /** `t` is the text of `s` before its first space (all of `s` when it has none). */
  ghost predicate IsFirstWord(t: string, s: string) {
    |t| <= |s| && s[..|t|] == t && ' ' !in t && (|t| == |s| || s[|t|] == ' ')
  }

  /** At most one string is the first word of `s`. */
  lemma FirstWordUnique(t1: string, t2: string, s: string)
    requires IsFirstWord(t1, s) && IsFirstWord(t2, s)
    ensures t1 == t2
  {
  }

  function UpToSpace(s: string): (t: string)
    ensures IsFirstWord(t, s)
  {
    if s == [] || s[0] == ' ' then [] else [s[0]] + UpToSpace(s[1..])
  }

  /**
    `s.split(" ")[0]`. Java drops trailing empty pieces, so a non-empty string of
    spaces splits into no pieces and the index fails; otherwise the result is the
    text before the first space.
   */
  function FirstToken(s: string): (r: Option<string>)
    ensures r.None? <==> |s| > 0 && AllSpaces(s)
    ensures r.Some? ==> IsFirstWord(r.value, s)
  {
    if |s| > 0 && AllSpaces(s) then None else Some(UpToSpace(s))
  }

}
