/** The three string operations of Python's `str` that the core relies on:
    `lower()`, the substring test `needle in text`, and `sep.join(parts)`. */
module Text {

  predicate IsUpper(c: char) {
    'A' <= c <= 'Z'
  }

  /** No character of `s` is an upper-case ASCII letter. */
  predicate NoUpper(s: string) {
    forall i :: 0 <= i < |s| ==> !IsUpper(s[i])
  }

  /** Python's `str.lower()` on one character, restricted to the ASCII letters. */
  function LowerChar(c: char): (r: char)
    ensures !IsUpper(r)
    ensures !IsUpper(c) ==> r == c
    ensures IsUpper(c) ==> 'a' <= r <= 'z' && r as int - 'a' as int == c as int - 'A' as int
  {
    if IsUpper(c) then (c as int + 32) as char else c
  }

  /** Python's `str.lower()`: every character mapped on its own, nothing added or removed. */
  function Lower(s: string): (r: string)
    ensures |r| == |s|
    ensures forall i :: 0 <= i < |s| ==> r[i] == LowerChar(s[i])
    ensures NoUpper(r)
  {
    seq(|s|, i requires 0 <= i < |s| => LowerChar(s[i]))
  }

  /** Lower-casing works character by character, so it distributes over concatenation. */
  lemma LowerConcat(a: string, b: string)
    ensures Lower(a + b) == Lower(a) + Lower(b)
  {
    assert forall i :: 0 <= i < |a + b| ==> Lower(a + b)[i] == (Lower(a) + Lower(b))[i];
  }

  /** Python's `needle in text`: `needle` occurs as a contiguous block of `text`
      (the empty needle occurs in every text). */
  predicate Contains(text: string, needle: string)
    ensures Contains(text, needle) ==> |needle| <= |text|
    ensures needle == [] ==> Contains(text, needle)
  {
    assert needle == [] ==> OccursAt(text, needle, 0);
    exists i | 0 <= i <= |text| - |needle| :: OccursAt(text, needle, i)
  }

  /** `needle` starts at position `i` of `text`. */
  predicate OccursAt(text: string, needle: string, i: int) {
    0 <= i <= |text| - |needle| && text[i..i + |needle|] == needle
  }

  /** Adding text on either side never removes an occurrence. */
  lemma ContainsExtended(pre: string, text: string, post: string, needle: string)
    requires Contains(text, needle)
    ensures Contains(pre + text + post, needle)
  {
    var i :| 0 <= i <= |text| - |needle| && OccursAt(text, needle, i);
    var big := pre + text + post;
    var j := |pre| + i;
    assert big[j..j + |needle|] == text[i..i + |needle|];
    assert OccursAt(big, needle, j);
  }

  /** A needle holding an upper-case letter never occurs in a text without one. */
  lemma UpperNeverContained(text: string, needle: string, k: nat)
    requires NoUpper(text)
    requires k < |needle| && IsUpper(needle[k])
    ensures !Contains(text, needle)
  {
    forall i | 0 <= i <= |text| - |needle|
      ensures !OccursAt(text, needle, i)
    {
      assert text[i..i + |needle|][k] == text[i + k];
    }
  }

  /** Python's `sep.join(parts)`. */
  function Join(parts: seq<string>, sep: string): (r: string)
    ensures |parts| > 0 ==> parts[0] <= r
  {
    if |parts| == 0 then ""
    else if |parts| == 1 then parts[0]
    else parts[0] + sep + Join(parts[1..], sep)
  }

  /** Appending one more part adds the separator and that part at the end. */
  lemma {:induction false} JoinAppend(parts: seq<string>, p: string, sep: string)
    requires |parts| > 0
    ensures Join(parts + [p], sep) == Join(parts, sep) + sep + p
  {
    if |parts| == 1 {
      assert (parts + [p])[1..] == [p];
    } else {
      assert (parts + [p])[1..] == parts[1..] + [p];
      JoinAppend(parts[1..], p, sep);
    }
  }
}
