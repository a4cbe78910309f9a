/**
 * ASCII text helpers used by the chatbot: case folding, digit classes and
 * substring search. Python's `str.lower`, `str.upper`, `\d` and the `in`
 * operator on strings are modelled on the ASCII range only.
 */
module Text {

  predicate IsUpperAscii(c: char) { 'A' <= c <= 'Z' }

  predicate IsLowerAscii(c: char) { 'a' <= c <= 'z' }

  predicate IsDigit(c: char) { '0' <= c <= '9' }

  function LowerChar(c: char): char
  {
    if IsUpperAscii(c) then (c as int + 32) as char else c
  }

  function UpperChar(c: char): char
  {
    if IsLowerAscii(c) then (c as int - 32) as char else c
  }

  /** `s.lower()` restricted to ASCII letters. */
  function Lower(s: string): string
  {
    seq(|s|, i requires 0 <= i < |s| => LowerChar(s[i]))
  }

  /** `s.upper()` restricted to ASCII letters. */
  function Upper(s: string): string
  {
    seq(|s|, i requires 0 <= i < |s| => UpperChar(s[i]))
  }

  /** Lowering twice is lowering once. */
  lemma LowerIdempotent(s: string)
    ensures Lower(Lower(s)) == Lower(s)
  {
  }

  /** Upper-casing forgets any earlier lowering: `s.lower().upper() == s.upper()` on ASCII. */
  lemma UpperOfLower(s: string)
    ensures Upper(Lower(s)) == Upper(s)
  {
  }

  /** Lowering forgets any earlier upper-casing: `s.upper().lower() == s.lower()` on ASCII. */
  lemma LowerOfUpper(s: string)
    ensures Lower(Upper(s)) == Lower(s)
  {
  }

  /** `w` occurs in `s` starting at index `i`. */
  predicate OccursAt(s: string, w: string, i: int)
  {
    0 <= i && i + |w| <= |s| && s[i..i + |w|] == w
  }

  /** Characters `k..` of `w` match `s` from position `i + k` on. */
  predicate MatchesFrom(s: string, w: string, i: nat, k: nat)
    requires i + |w| <= |s|
    requires k <= |w|
    decreases |w| - k
  {
    k == |w| || (s[i + k] == w[k] && MatchesFrom(s, w, i, k + 1))
  }

  /** `w` starts at some position `j >= i` of `s`; scanned left to right. */
  predicate ContainsFrom(s: string, w: string, i: nat)
    decreases |s| - i
  {
    if i + |w| > |s| then false
    else MatchesFrom(s, w, i, 0) || ContainsFrom(s, w, i + 1)
  }

  /** Python's `w in s` for strings: `w` is a contiguous substring of `s`. */
  predicate Contains(s: string, w: string)
  {
    ContainsFrom(s, w, 0)
  }

  /** The character-wise comparison agrees with slice equality. */
  lemma {:induction false} MatchesFromIff(s: string, w: string, i: nat, k: nat)
    requires i + |w| <= |s|
    requires k <= |w|
    ensures MatchesFrom(s, w, i, k) <==> s[i + k..i + |w|] == w[k..]
    decreases |w| - k
  {
    if k < |w| {
      MatchesFromIff(s, w, i, k + 1);
      assert s[i + k..i + |w|] == [s[i + k]] + s[i + k + 1..i + |w|];
      assert w[k..] == [w[k]] + w[k + 1..];
    }
  }

  /** The scan from `i` finds `w` exactly when it occurs at some position at or after `i`. */
  lemma {:induction false} ContainsFromIff(s: string, w: string, i: nat)
    ensures ContainsFrom(s, w, i) <==> exists j :: i <= j && OccursAt(s, w, j)
    decreases |s| - i
  {
    if i + |w| > |s| {
      assert forall j :: i <= j ==> !OccursAt(s, w, j);
    } else {
      MatchesFromIff(s, w, i, 0);
      ContainsFromIff(s, w, i + 1);
      if MatchesFrom(s, w, i, 0) {
        assert OccursAt(s, w, i);
      } else {
        forall j | i <= j && OccursAt(s, w, j)
          ensures i + 1 <= j
        {
        }
      }
    }
  }

  /** Substring membership in positional terms. */
  lemma ContainsIffOccurs(s: string, w: string)
    ensures Contains(s, w) <==> exists i :: OccursAt(s, w, i)
  {
    ContainsFromIff(s, w, 0);
  }

  /** Substring membership survives extending the text on either side. */
  lemma ContainsInContext(pre: string, s: string, post: string, w: string)
    requires Contains(s, w)
    ensures Contains(pre + s + post, w)
  {
    ContainsIffOccurs(s, w);
    var i :| OccursAt(s, w, i);
    var t := pre + s + post;
    assert t[|pre| + i..|pre| + i + |w|] == s[i..i + |w|];
    assert OccursAt(t, w, |pre| + i);
    ContainsIffOccurs(t, w);
  }

  /** A substring of a substring is a substring. */
  lemma ContainsTransitive(s: string, w: string, v: string)
    requires Contains(s, w) && Contains(w, v)
    ensures Contains(s, v)
  {
    ContainsIffOccurs(s, w);
    var i :| OccursAt(s, w, i);
    assert s == s[..i] + w + s[i + |w|..];
    ContainsInContext(s[..i], w, s[i + |w|..], v);
  }
}
