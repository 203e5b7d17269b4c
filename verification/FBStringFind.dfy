/** basic_fbstring::find on 64-bit sizes. */
module FBStringFind {
  import FBStringState

  type Char = FBStringState.Byte

  const WORD: nat := 0x1_0000_0000_0000_0000
  const NPOS: nat := WORD - 1

  predicate OccursAt(text: seq<Char>, needle: seq<Char>, k: nat) {
    k + |needle| <= |text| && text[k..k + |needle|] == needle
  }

  /** No occurrence starts at a position from lo up to hi. */
  ghost predicate Absent(text: seq<Char>, needle: seq<Char>, lo: nat, hi: nat) {
    forall k | lo <= k < hi :: !OccursAt(text, needle, k)
  }

  /** The last character does not recur in the skip - 1 places before it. */
  ghost predicate IsSkip(needle: seq<Char>, skip: nat) {
    && 0 < skip <= |needle|
    && forall q | |needle| - skip <= q < |needle| - 1 :: needle[q] != needle[|needle| - 1]
  }

  /** A character that differs rules an occurrence out. */
  lemma Differs(text: seq<Char>, needle: seq<Char>, i: nat, j: nat)
    requires i + |needle| <= |text| && j < |needle| && text[i + j] != needle[j]
    ensures !OccursAt(text, needle, i)
  {
    assert text[i..i + |needle|][j] == text[i + j];
  }

  /** Where the last character matches, shifts shorter than the skip cannot. */
  lemma ShiftsMiss(text: seq<Char>, needle: seq<Char>, pos: nat, i: nat, skip: nat)
    requires needle != [] && i + |needle| <= |text| && text[i + |needle| - 1] == needle[|needle| - 1]
    requires IsSkip(needle, skip) && Absent(text, needle, pos, i) && !OccursAt(text, needle, i)
    ensures Absent(text, needle, pos, i + skip)
  {
    forall k | pos <= k < i + skip ensures !OccursAt(text, needle, k) {
      if i < k && k + |needle| <= |text| {
        var q := |needle| - 1 - (k - i);
        assert needle[q] != needle[|needle| - 1];
        Differs(text, needle, k, q);
      }
    }
  }

  method SkipOf(needle: seq<Char>) returns (skip: nat)
    requires needle != []
    ensures IsSkip(needle, skip)
  {
    var last := |needle| - 1;
    skip := 1;
    while skip <= last && needle[last - skip] != needle[last]
      invariant 0 < skip <= |needle|
      invariant forall q | |needle| - skip <= q < last :: needle[q] != needle[last]
    {
      skip := skip + 1;
    }
  }

  /** The first place where the needle differs from the text at i, or its length. */
  method Matching(text: seq<Char>, needle: seq<Char>, i: nat) returns (j: nat)
    requires i + |needle| <= |text|
    ensures j <= |needle| && (j < |needle| ==> text[i + j] != needle[j])
    ensures j == |needle| <==> OccursAt(text, needle, i)
  {
    j := 0;
    while j < |needle|
      invariant j <= |needle| && text[i..i + j] == needle[..j]
    {
      if text[i + j] != needle[j] {
        Differs(text, needle, i, j);
        return;
      }
      j := j + 1;
      assert text[i..i + j] == text[i..i + j - 1] + [text[i + j - 1]];
    }
  }

  /** The first position from pos on where the needle occurs, or npos if there is none. */
  method Find(text: seq<Char>, needle: seq<Char>, pos: nat) returns (r: nat)
    requires |text| < NPOS && |needle| < WORD && pos < WORD
    ensures r == NPOS <==> Absent(text, needle, pos, |text| + 1)
    ensures r != NPOS ==> pos <= r && OccursAt(text, needle, r) && Absent(text, needle, pos, r)
  {
    var n := |needle|;
    var sum := (n + pos) % WORD;
    if sum > |text| || sum < pos {
      return NPOS;
    }
    if n == 0 {
      assert OccursAt(text, needle, pos);
      return pos;
    }
    r := Search(text, needle, pos);
  }

  /** The two nested loops, for a needle that fits. */
  method Search(text: seq<Char>, needle: seq<Char>, pos: nat) returns (r: nat)
    requires |text| < NPOS && needle != [] && pos + |needle| <= |text|
    ensures r == NPOS <==> Absent(text, needle, pos, |text| + 1)
    ensures r != NPOS ==> pos <= r && OccursAt(text, needle, r) && Absent(text, needle, pos, r)
  {
    var last := |needle| - 1;
    var skip: nat := 0;
    var i := pos;
    var end := |text| - last;
    while i < end
      invariant pos <= i && Absent(text, needle, pos, i)
      invariant skip == 0 || IsSkip(needle, skip)
    {
      while text[i + last] != needle[last]
        invariant pos <= i < end && Absent(text, needle, pos, i)
        decreases end - i
      {
        Differs(text, needle, i, last);
        i := i + 1;
        if i == end {
          return NPOS;
        }
      }
      var j := Matching(text, needle, i);
      if j == |needle| {
        return i;
      }
      if skip == 0 {
        skip := SkipOf(needle);
      }
      ShiftsMiss(text, needle, pos, i, skip);
      i := i + skip;
    }
    return NPOS;
  }
}
