/** Shortening of description text for the preview card. */
module Text {

  /** The end index that `slice(0, end)` uses on a string of length len:
      a negative end counts back from the end of the string, and the
      result is kept within 0..len. */
  function SliceEnd(len: nat, end: int): (k: nat)
    ensures k <= len
  {
    if end < 0 then (if len + end > 0 then len + end else 0)
    else if end < len then end
    else len
  }

  /** `text.slice(0, end)`. */
  function Slice(text: string, end: int): (r: string)
    ensures |r| <= |text| && r == text[..|r|]
  {
    text[..SliceEnd(|text|, end)]
  }

  /** Text no longer than maxLength is returned as it is; longer text is
      cut with `slice(0, maxLength)` and "..." is appended. */
  function TruncateText(text: string, maxLength: int): (r: string)
    ensures |text| <= maxLength ==> r == text
    ensures |text| > maxLength ==>
      3 <= |r| <= |text| + 3 && r[|r| - 3..] == "..." && r[..|r| - 3] == text[..|r| - 3]
  {
    if |text| <= maxLength then text
    else Slice(text, maxLength) + "..."
  }

  /** When the text is cut, the result is exactly the first maxLength
      characters followed by "...", so it has maxLength + 3 characters. */
  lemma TruncateTextCut(text: string, maxLength: int)
    requires 0 <= maxLength < |text|
    ensures TruncateText(text, maxLength) == text[..maxLength] + "..."
    ensures |TruncateText(text, maxLength)| == maxLength + 3
  {
  }

  /** Cutting can make the text longer: one character too many becomes
      three dots, two characters longer than the input. */
  lemma TruncateTextCanGrow(text: string, maxLength: int)
    requires 0 <= maxLength && |text| == maxLength + 1
    ensures |TruncateText(text, maxLength)| == |text| + 2
  {
  }

  /** The result always starts with the first min(|text|, maxLength)
      characters of the text. */
  lemma TruncateTextKeepsPrefix(text: string, maxLength: int)
    requires 0 <= maxLength
    ensures var k := if |text| < maxLength then |text| else maxLength;
      k <= |TruncateText(text, maxLength)| && TruncateText(text, maxLength)[..k] == text[..k]
  {
    var r := TruncateText(text, maxLength);
    if |text| > maxLength {
      assert r == text[..maxLength] + "...";
      assert r[..maxLength] == text[..maxLength];
    }
  }

  /** Truncating twice is truncating once, for a non-negative limit. */
  lemma TruncateTextIdempotent(text: string, maxLength: int)
    requires 0 <= maxLength
    ensures TruncateText(TruncateText(text, maxLength), maxLength) == TruncateText(text, maxLength)
  {
    if |text| > maxLength {
      var r := TruncateText(text, maxLength);
      assert r == text[..maxLength] + "...";
      assert r[..maxLength] == text[..maxLength];
    }
  }

  /** A negative limit counts from the end, as `slice` does. */
  lemma TruncateTextNegativeLimit(text: string, maxLength: int)
    requires maxLength < 0
    ensures var k := if |text| + maxLength > 0 then |text| + maxLength else 0;
      TruncateText(text, maxLength) == text[..k] + "..."
  {
  }

  /** With a negative limit truncation is not idempotent: the dots are
      truncated and appended again. */
  lemma TruncateTextNegativeNotIdempotent()
    ensures TruncateText("", -1) == "..."
    ensures TruncateText("...", -1) == "....."
  {
    assert "..."[..2] == "..";
  }
}
