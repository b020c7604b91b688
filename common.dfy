// Small value types and helpers shared by the LoudGain model.
module Common {

  datatype Option<T> = None | Some(value: T)

  /** A filesystem path, split into its parent directory and its leaf name. */
  datatype Path = Path(dir: string, leaf: string)

  /** std::max on doubles: the first argument unless it is smaller. */
  function Max(a: real, b: real): real
  {
    if a < b then b else a
  }

  /**
   * The peak accumulator LoudGain uses twice: start from 0.0 and take
   * std::max with each value in turn (per channel for a track, per member
   * for an album).
   */
  function PeakOf(xs: seq<real>): real
  {
    if |xs| == 0 then 0.0 else Max(PeakOf(xs[..|xs| - 1]), xs[|xs| - 1])
  }

  /** The accumulated peak is never negative, bounds every value, and is 0.0 or one of them. */
  lemma {:induction false} PeakOfBounds(xs: seq<real>)
    ensures PeakOf(xs) >= 0.0
    ensures forall i :: 0 <= i < |xs| ==> xs[i] <= PeakOf(xs)
    ensures PeakOf(xs) == 0.0 || exists i :: 0 <= i < |xs| && xs[i] == PeakOf(xs)
  {
    if |xs| > 0 {
      var init := xs[..|xs| - 1];
      PeakOfBounds(init);
      assert forall i :: 0 <= i < |init| ==> init[i] == xs[i];
      if PeakOf(xs) != 0.0 && PeakOf(xs) == PeakOf(init) {
        var i :| 0 <= i < |init| && init[i] == PeakOf(init);
        assert xs[i] == PeakOf(xs);
      }
    }
  }

  /** ASCII upper-casing of one character, as TagLib::String::upper does. */
  function UpperChar(c: char): char
  {
    if 'a' <= c <= 'z' then (c as int - 32) as char else c
  }

  function Upper(s: string): string
  {
    seq(|s|, i requires 0 <= i < |s| => UpperChar(s[i]))
  }

  lemma UpperIdempotent(s: string)
    ensures Upper(Upper(s)) == Upper(s)
  {
  }

  lemma UpperConcat(a: string, b: string)
    ensures Upper(a + b) == Upper(a) + Upper(b)
  {
    assert forall i :: 0 <= i < |a| + |b| ==> Upper(a + b)[i] == (Upper(a) + Upper(b))[i];
  }

  /** Whether needle occurs in haystack starting at position i. */
  predicate OccursAt(haystack: string, needle: string, i: int)
  {
    0 <= i <= |haystack| - |needle| && haystack[i..i + |needle|] == needle
  }

  /** Whether needle occurs in haystack (std::string::find reports a position). */
  predicate ContainsSubstring(haystack: string, needle: string)
  {
    exists i :: 0 <= i <= |haystack| - |needle| && OccursAt(haystack, needle, i)
  }

  /** A needle matching the haystack character by character from position i is contained in it. */
  lemma ContainsAt(h: string, n: string, i: nat)
    requires i + |n| <= |h|
    requires forall k :: 0 <= k < |n| ==> h[i + k] == n[k]
    ensures ContainsSubstring(h, n)
  {
    assert h[i..i + |n|] == n;
    assert OccursAt(h, n, i);
  }

  /** A needle using a character the haystack lacks is not contained in it. */
  lemma MissingChar(h: string, n: string, j: nat)
    requires j < |n| && n[j] !in h
    ensures !ContainsSubstring(h, n)
  {
    forall i | 0 <= i <= |h| - |n|
      ensures !OccursAt(h, n, i)
    {
      assert h[i..i + |n|][j] == h[i + j];
    }
  }
}
