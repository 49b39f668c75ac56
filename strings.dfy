/** Substring search on strings, as JavaScript's `String.prototype.includes`. */
module Strings {

  /** `needle` occurs in `s` starting at index `i`. */
  predicate OccursAt(s: string, needle: string, i: int) {
    0 <= i <= |s| - |needle| && s[i..i + |needle|] == needle
  }

  /**
   * `needle` occurs as a contiguous piece of `s`: the empty needle occurs in
   * every string, and no needle is longer than a string that includes it.
   */
  predicate Includes(s: string, needle: string)
    ensures needle == [] ==> Includes(s, needle)
    ensures Includes(s, needle) ==> |needle| <= |s|
  {
    assert OccursAt(s, [], 0);
    exists i :: 0 <= i <= |s| - |needle| && OccursAt(s, needle, i)
  }

  /** Whatever surrounds it, a string includes each piece it is built from. */
  lemma IncludesMiddle(pre: string, needle: string, post: string)
    ensures Includes(pre + needle + post, needle)
  {
    var s := pre + needle + post;
    assert s[|pre|..|pre| + |needle|] == needle;
    assert OccursAt(s, needle, |pre|);
  }

  /** Each character of an included needle is a character of the string. */
  lemma IncludesNeedsChar(s: string, needle: string, k: nat)
    requires k < |needle|
    ensures Includes(s, needle) ==> needle[k] in s
  {
    if Includes(s, needle) {
      var i :| 0 <= i <= |s| - |needle| && OccursAt(s, needle, i);
      assert s[i + k] == needle[k];
    }
  }

  /** A needle holding a character that `s` lacks is not included in `s`. */
  lemma MissingCharNotIncluded(s: string, needle: string, k: nat)
    requires k < |needle| && needle[k] !in s
    ensures !Includes(s, needle)
  {
  }
}
