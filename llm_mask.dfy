/**
 * API-key masking for the LLM configuration list (`mask_api_key`). Rust slices a
 * `str` by byte offsets and panics when an offset falls inside a multi-byte
 * character; the model returns `None` where the slice would panic.
 */
module LlmMask {
  import opened Wrappers
  import Text

  /** The UTF-8 length of a concatenation is the sum of the lengths. */
  lemma {:induction false} Utf8LenAppend(a: string, b: string)
    ensures Text.Utf8Len(a + b) == Text.Utf8Len(a) + Text.Utf8Len(b)
    decreases |a|
  {
    if a == [] {
      assert a + b == b;
    } else {
      assert (a + b)[0] == a[0];
      assert (a + b)[1..] == a[1..] + b;
      Utf8LenAppend(a[1..], b);
    }
  }

  /** A longer prefix never has a shorter encoding. */
  lemma PrefixLenMonotone(s: string, i: nat, j: nat)
    requires i <= j <= |s|
    ensures Text.Utf8Len(s[..i]) <= Text.Utf8Len(s[..j])
  {
    assert s[..j] == s[..i] + s[i..j];
    Utf8LenAppend(s[..i], s[i..j]);
  }

  /** The encoding of a non-empty prefix: the first character's bytes, then the rest. */
  lemma PrefixLenStep(s: string, k: nat)
    requires 1 <= k <= |s|
    ensures Text.Utf8Len(s[..k]) == Text.Utf8Width(s[0]) + Text.Utf8Len(s[1..][..k - 1])
  {
    assert s[..k][1..] == s[1..][..k - 1];
  }

  /** The number of leading characters that take exactly `b` bytes, when byte `b` is a character boundary. */
  function BoundaryAt(s: string, b: nat): (r: Option<nat>)
    ensures r.Some? ==> r.value <= |s| && Text.Utf8Len(s[..r.value]) == b
    decreases |s|
  {
    if b == 0 then Some(0)
    else if s == [] || Text.Utf8Width(s[0]) > b then None
    else
      match BoundaryAt(s[1..], b - Text.Utf8Width(s[0]))
      case None => None
      case Some(k) => PrefixLenStep(s, k + 1); Some(k + 1)
  }

  /** `BoundaryAt` finds the boundary whenever there is one. */
  lemma {:induction false} BoundaryAtComplete(s: string, b: nat, k: nat)
    requires k <= |s| && Text.Utf8Len(s[..k]) == b
    ensures BoundaryAt(s, b) == Some(k)
    decreases |s|
  {
    if b != 0 {
      assert k != 0;
      PrefixLenStep(s, k);
      BoundaryAtComplete(s[1..], b - Text.Utf8Width(s[0]), k - 1);
    }
  }

  /** A byte offset that is no character boundary makes the slice panic. */
  predicate IsBoundary(s: string, b: nat) {
    exists k :: 0 <= k <= |s| && Text.Utf8Len(s[..k]) == b
  }

  lemma BoundaryAtIff(s: string, b: nat)
    ensures BoundaryAt(s, b).Some? <==> IsBoundary(s, b)
  {
    if IsBoundary(s, b) {
      var k :| 0 <= k <= |s| && Text.Utf8Len(s[..k]) == b;
      BoundaryAtComplete(s, b, k);
    }
  }

  const SHORT_MASK: string := "********"

  /**
   * `mask_api_key` as written: eight asterisks for a key of at most 8 bytes, otherwise
   * its first 4 bytes, "..." and its last 4 bytes; `None` where a slice offset falls
   * inside a character and Rust panics.
   */
  function MaskApiKey(key: string): (r: Option<string>)
    ensures Text.Utf8Len(key) <= 8 ==> r == Some(SHORT_MASK)
    ensures Text.Utf8Len(key) > 8 ==>
      (r.Some? <==> IsBoundary(key, 4) && IsBoundary(key, Text.Utf8Len(key) - 4))
    ensures r.Some? && Text.Utf8Len(key) > 8 ==>
      exists i, j :: 0 <= i < j <= |key| && Text.Utf8Len(key[..i]) == 4 && Text.Utf8Len(key[j..]) == 4
        && r.value == key[..i] + "..." + key[j..]
    ensures r.Some? ==> Text.Utf8Len(r.value) == if Text.Utf8Len(key) <= 8 then 8 else 11
  {
    var n := Text.Utf8Len(key);
    if n <= 8 then ShortMaskLen(); Some(SHORT_MASK)
    else
      var front, back := BoundaryAt(key, 4), BoundaryAt(key, n - 4);
      BoundaryAtIff(key, 4);
      BoundaryAtIff(key, n - 4);
      if front.Some? && back.Some? then
        MaskShape(key, front.value, back.value);
        Some(key[..front.value] + "..." + key[back.value..])
      else None
  }

  /** A prefix and the rest of the string share out its bytes. */
  lemma SplitLen(s: string, j: nat)
    requires j <= |s|
    ensures Text.Utf8Len(s[..j]) + Text.Utf8Len(s[j..]) == Text.Utf8Len(s)
  {
    assert s == s[..j] + s[j..];
    Utf8LenAppend(s[..j], s[j..]);
  }

  /** The pieces of a long key's mask, given the two boundaries. */
  lemma MaskShape(key: string, i: nat, j: nat)
    requires i <= |key| && j <= |key| && Text.Utf8Len(key) > 8
    requires Text.Utf8Len(key[..i]) == 4 && Text.Utf8Len(key[..j]) == Text.Utf8Len(key) - 4
    ensures i < j && Text.Utf8Len(key[j..]) == 4
    ensures Text.Utf8Len(key[..i] + "..." + key[j..]) == 11
  {
    if j <= i {
      PrefixLenMonotone(key, j, i);
    }
    SplitLen(key, j);
    var dots := "...";
    assert Text.Utf8Len(dots) == 3 by {
      assert dots[1..] == ".." && dots[1..][1..] == ".";
    }
    Utf8LenAppend(key[..i], dots);
    Utf8LenAppend(key[..i] + dots, key[j..]);
  }

  /** The characters of `s` are all ASCII. */
  predicate IsAscii(s: string) {
    forall k :: 0 <= k < |s| ==> s[k] as int < 0x80
  }

  lemma {:induction false} AsciiPrefixLen(s: string, k: nat)
    requires IsAscii(s) && k <= |s|
    ensures Text.Utf8Len(s[..k]) == k
    decreases k
  {
    if k > 0 {
      PrefixLenStep(s, k);
      AsciiPrefixLen(s[1..], k - 1);
    }
  }

  lemma ShortMaskLen()
    ensures Text.Utf8Len(SHORT_MASK) == 8
  {
    AsciiPrefixLen(SHORT_MASK, 8);
    assert SHORT_MASK[..8] == SHORT_MASK;
  }

  /** For an ASCII key (what API keys are) the mask never panics: first 4, "...", last 4. */
  lemma AsciiKeyMask(key: string)
    requires IsAscii(key) && |key| > 8
    ensures MaskApiKey(key) == Some(key[..4] + "..." + key[|key| - 4..])
  {
    AsciiPrefixLen(key, |key|);
    assert key[..|key|] == key;
    AsciiPrefixLen(key, 4);
    AsciiPrefixLen(key, |key| - 4);
    BoundaryAtComplete(key, 4, 4);
    BoundaryAtComplete(key, |key| - 4, |key| - 4);
  }

  /** A 9-byte key whose fourth byte ends inside 'é' makes the slice `&key[..4]` panic. */
  lemma MaskPanicsInsideCharacter()
    ensures Text.Utf8Len("aéééé") == 9
    ensures MaskApiKey("aéééé").None?
  {
    var key := "aéééé";
    assert key[..2] == "aé" && key[..3] == "aéé";
    assert Text.Utf8Len("é") == 2;
    assert Text.Utf8Len("éé") == 4;
    assert Text.Utf8Len(key[..2]) == 3 && Text.Utf8Len(key[..3]) == 5;
    forall k | 0 <= k <= |key| ensures Text.Utf8Len(key[..k]) != 4 {
      if k >= 3 {
        PrefixLenMonotone(key, 3, k);
      } else {
        PrefixLenMonotone(key, k, 2);
      }
    }
  }

  /**
   * The mask as evidently intended, counting characters instead of bytes: never
   * fails, shows at most four characters from each end, and agrees with the byte
   * version on ASCII keys.
   */
  function MaskApiKeyChars(key: string): (r: string)
    ensures |key| <= 8 ==> r == SHORT_MASK
    ensures |key| > 8 ==> |r| == 11 && r[..4] == key[..4] && r[4..7] == "..." && r[7..] == key[|key| - 4..]
  {
    if |key| <= 8 then SHORT_MASK else key[..4] + "..." + key[|key| - 4..]
  }

  lemma CharMaskAgreesOnAscii(key: string)
    requires IsAscii(key)
    ensures MaskApiKey(key) == Some(MaskApiKeyChars(key))
  {
    AsciiPrefixLen(key, |key|);
    assert key[..|key|] == key;
    if |key| > 8 {
      AsciiKeyMask(key);
    }
  }
}
