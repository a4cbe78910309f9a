/**
 * Tracking numbers: the literal `TRK` followed by six decimal digits, and the
 * leftmost-match search `re.search(r'TRK\d{6}', text)` the chatbot runs on the
 * upper-cased user input.
 */
module TrackingNumbers {
  import opened Wrappers
  import opened Text

  const Prefix: string := "TRK"

  const DigitCount: nat := 6

  /** Length of a tracking number: the prefix plus the digits. */
  const NumberLength: nat := |Prefix| + DigitCount

  /** A tracking number starts at index `i` of `text`. */
  predicate NumberAt(text: string, i: int)
  {
    && 0 <= i
    && i + NumberLength <= |text|
    && text[i] == Prefix[0] && text[i + 1] == Prefix[1] && text[i + 2] == Prefix[2]
    && forall k :: i + |Prefix| <= k < i + NumberLength ==> IsDigit(text[k])
  }

  /** `n` is itself a tracking number: the prefix, then six digits and nothing more. */
  predicate WellFormed(n: string)
  {
    && |n| == NumberLength
    && n[..|Prefix|] == Prefix
    && forall k :: |Prefix| <= k < NumberLength ==> IsDigit(n[k])
  }

  /** A tracking number starts at `i` and at no earlier index. */
  predicate LeftmostAt(text: string, i: int)
  {
    NumberAt(text, i) && forall j :: 0 <= j < i ==> !NumberAt(text, j)
  }

  /** Index of the first tracking number at or after `from`, if any. */
  function FirstNumberFrom(text: string, from: nat): (r: Option<nat>)
    ensures r.Some? ==> from <= r.value && NumberAt(text, r.value)
    ensures r.Some? ==> forall j :: from <= j < r.value ==> !NumberAt(text, j)
    ensures r.None? ==> forall j :: from <= j ==> !NumberAt(text, j)
    decreases |text| - from
  {
    if from + NumberLength > |text| then None
    else if NumberAt(text, from) then Some(from)
    else FirstNumberFrom(text, from + 1)
  }

  /**
   * `re.search(r'TRK\d{6}', text).group()`: the leftmost tracking number in
   * `text`, or nothing when the text holds none. Extra digits after the sixth
   * are not part of the match.
   */
  function Search(text: string): (r: Option<string>)
    ensures r.None? <==> forall i :: !NumberAt(text, i)
    ensures r.Some? ==> WellFormed(r.value)
    ensures r.Some? ==> exists i :: LeftmostAt(text, i) && r.value == text[i..i + NumberLength]
  {
    match FirstNumberFrom(text, 0)
    case None => None
    case Some(i) =>
      assert LeftmostAt(text, i);
      var n := text[i..i + NumberLength];
      assert n[..|Prefix|] == [text[i], text[i + 1], text[i + 2]] == Prefix;
      Some(n)
  }

  /** There is at most one leftmost match, so the search result is determined by it. */
  lemma SearchFindsLeftmost(text: string, i: int)
    requires LeftmostAt(text, i)
    ensures Search(text) == Some(text[i..i + NumberLength])
  {
    var r := Search(text);
    assert r.Some?;
    var j :| LeftmostAt(text, j) && r.value == text[j..j + NumberLength];
    assert j == i;
  }

  /** Text appended after a match cannot move it: the leftmost number stays the answer. */
  lemma SearchIgnoresSuffix(text: string, suffix: string)
    requires Search(text).Some?
    ensures Search(text + suffix) == Search(text)
  {
    var t := text + suffix;
    var i :| LeftmostAt(text, i) && Search(text).value == text[i..i + NumberLength];
    assert t[i..i + NumberLength] == text[i..i + NumberLength];
    forall j | 0 <= j < i
      ensures !NumberAt(t, j)
    {
      assert forall k :: j <= k < j + NumberLength ==> t[k] == text[k];
      assert !NumberAt(text, j);
    }
    SearchFindsLeftmost(t, i);
  }

  /** Digits beyond the sixth are not part of the number: `TRK1234567` yields `TRK123456`. */
  lemma TrailingDigitsIgnored()
    ensures Search("TRK1234567") == Some("TRK123456")
  {
    var text := "TRK1234567";
    assert LeftmostAt(text, 0);
    assert text[0..NumberLength] == "TRK123456";
    SearchFindsLeftmost(text, 0);
  }
}
