/**
 * `StringManipulator.conformIcdString`: the normal form of an ICD code used
 * as a lookup key — whitespace deleted, and a dot inserted after the third
 * character of any code longer than three characters.
 */
module StringManipulator {
  import opened Text

  function ConformIcdString(icdCode: string): (r: string)
    ensures forall i :: 0 <= i < |r| ==> !IsSpace(r[i])
    ensures |StripSpaces(icdCode)| <= 3 ==> r == StripSpaces(icdCode)
    ensures |StripSpaces(icdCode)| > 3 ==> |r| == |StripSpaces(icdCode)| + 1 && r[3] == '.'
  {
    var s := StripSpaces(icdCode);
    if |s| > 3 then s[..3] + "." + s[3..] else s
  }

  /** Deleting the character at index 3 of a long result gives back the stripped code. */
  lemma DeleteDotRoundTrip(icdCode: string)
    requires |StripSpaces(icdCode)| > 3
    ensures var r := ConformIcdString(icdCode); r[..3] + r[4..] == StripSpaces(icdCode)
  {
    var s := StripSpaces(icdCode);
    var r := ConformIcdString(icdCode);
    assert r[..3] == s[..3];
    assert r[4..] == s[3..];
    assert s[..3] + s[3..] == s;
  }

  /** Whitespace in the input plays no part: stripping it first changes nothing. */
  lemma SpacesIrrelevant(icdCode: string)
    ensures ConformIcdString(StripSpaces(icdCode)) == ConformIcdString(icdCode)
  {
    StripSpacesIdempotent(icdCode);
  }

  /** Two codes share a key exactly when they agree once whitespace is deleted. */
  lemma ConformInjective(a: string, b: string)
    ensures ConformIcdString(a) == ConformIcdString(b) <==> StripSpaces(a) == StripSpaces(b)
  {
    if ConformIcdString(a) == ConformIcdString(b) {
      var sa, sb := StripSpaces(a), StripSpaces(b);
      if |sa| > 3 && |sb| > 3 {
        DeleteDotRoundTrip(a);
        DeleteDotRoundTrip(b);
      }
    }
  }

  /** A long code is not a fixed point: the dot is inserted again even when one is already there. */
  lemma NotIdempotent(icdCode: string)
    requires |StripSpaces(icdCode)| > 3
    ensures ConformIcdString(ConformIcdString(icdCode)) != ConformIcdString(icdCode)
  {
    var r := ConformIcdString(icdCode);
    StripSpacesKeepsClean(r);
    assert |ConformIcdString(r)| == |r| + 1;
  }

  /** A short code is returned unchanged by a second application. */
  lemma ShortIdempotent(icdCode: string)
    requires |StripSpaces(icdCode)| <= 3
    ensures ConformIcdString(ConformIcdString(icdCode)) == ConformIcdString(icdCode)
  {
    StripSpacesIdempotent(icdCode);
  }

  /** The already-dotted code "250.1" becomes "250..1". */
  lemma DottedCodeGetsSecondDot()
    ensures ConformIcdString("250.1") == "250..1"
  {
    StripSpacesKeepsClean("250.1");
    assert "250.1"[..3] == "250";
    assert "250.1"[3..] == ".1";
  }
}
