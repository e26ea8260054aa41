/**
  The few pieces of JavaScript string semantics that the aggregator relies on:
  `undefined` for a missing object property, the `||` operator applied to an
  optional string, and `String.prototype.replace` with a string pattern and an
  empty replacement.
 */
module JsString {

  /** A property read: `None` is JavaScript's `undefined`. */
  datatype Option<+T> = None | Some(value: T)

  /** The property `key` of a plain object whose own properties are `m`. */
  function Lookup(m: map<string, string>, key: string): (r: Option<string>)
    ensures r.Some? <==> key in m
    ensures r.Some? ==> r.value == m[key]
  {
    if key in m then Some(m[key]) else None
  }

  /** A string property is truthy when it is present and not the empty string. */
  predicate Truthy(v: Option<string>) {
    v.Some? && v.value != ""
  }

  /** `v || fallback` where `v` is a string property. */
  function OrElse(v: Option<string>, fallback: string): (r: string)
    ensures Truthy(v) ==> r == v.value
    ensures !Truthy(v) ==> r == fallback
  {
    if v.Some? && v.value != "" then v.value else fallback
  }

  /** `pat` occurs in `s` starting at index `i`. */
  predicate OccursAt(s: string, pat: string, i: int) {
    0 <= i && i + |pat| <= |s| && s[i..i + |pat|] == pat
  }

  /** `i` is the leftmost index where `pat` occurs in `s`. */
  predicate FirstOccurrence(s: string, pat: string, i: int) {
    OccursAt(s, pat, i) && forall j :: 0 <= j < i ==> !OccursAt(s, pat, j)
  }

  /**
    `s.replace(pat, '')`: the leftmost occurrence of `pat` is cut out of `s`;
    when `pat` does not occur, `s` comes back unchanged (see RemoveFirstAt and
    RemoveFirstAbsent).
   */
  function RemoveFirst(s: string, pat: string): (r: string)
    ensures r == s || |r| + |pat| == |s|
    decreases |s|
  {
    if |s| < |pat| then s
    else if s[..|pat|] == pat then s[|pat|..]
    else [s[0]] + RemoveFirst(s[1..], pat)
  }

  /** `replace` cuts out the leftmost match of the pattern, and only that. */
  lemma {:induction false} RemoveFirstAt(s: string, pat: string, i: int)
    requires FirstOccurrence(s, pat, i)
    ensures RemoveFirst(s, pat) == s[..i] + s[i + |pat|..]
    decreases |s|
  {
    assert |pat| <= |s| && s[0..|pat|] == s[..|pat|];
    if s[..|pat|] == pat {
      assert OccursAt(s, pat, 0);
      assert i == 0;
    } else {
      assert i > 0;
      assert RemoveFirst(s, pat) == [s[0]] + RemoveFirst(s[1..], pat);
      FirstOccurrenceShift(s, pat, i);
      RemoveFirstAt(s[1..], pat, i - 1);
      SpliceShift(s, i, i + |pat|);
    }
  }

  /** A leftmost match after the first character is a leftmost match in the tail. */
  lemma FirstOccurrenceShift(s: string, pat: string, i: int)
    requires FirstOccurrence(s, pat, i) && i > 0
    ensures FirstOccurrence(s[1..], pat, i - 1)
  {
    ShiftOccurrence(s, pat);
    forall j | 0 <= j < i - 1 ensures !OccursAt(s[1..], pat, j) {
      assert !OccursAt(s, pat, j + 1);
    }
  }

  /** Cutting `s[i..j]` out of the tail and putting the head back cuts it out of `s`. */
  lemma SpliceShift(s: string, i: int, j: int)
    requires 1 <= i <= j <= |s|
    ensures [s[0]] + (s[1..][..i - 1] + s[1..][j - 1..]) == s[..i] + s[j..]
  {
    assert s[1..][..i - 1] == s[1..i];
    assert s[1..][j - 1..] == s[j..];
    assert [s[0]] + s[1..i] == s[..i];
  }

  /** `replace` leaves a string in which the pattern does not occur unchanged. */
  lemma {:induction false} RemoveFirstAbsent(s: string, pat: string)
    requires forall i :: !OccursAt(s, pat, i)
    ensures RemoveFirst(s, pat) == s
    decreases |s|
  {
    if |s| >= |pat| {
      assert !OccursAt(s, pat, 0);
      ShiftOccurrence(s, pat);
      forall j ensures !OccursAt(s[1..], pat, j) {
        if 0 <= j {
          assert !OccursAt(s, pat, j + 1);
        }
      }
      RemoveFirstAbsent(s[1..], pat);
      assert [s[0]] + s[1..] == s;
    }
  }

  /** Occurrences in `s[1..]` are the occurrences in `s` shifted left by one. */
  lemma ShiftOccurrence(s: string, pat: string)
    requires |s| > 0
    ensures forall i | 0 <= i :: OccursAt(s[1..], pat, i) <==> OccursAt(s, pat, i + 1)
  {
    forall i | 0 <= i
      ensures OccursAt(s[1..], pat, i) <==> OccursAt(s, pat, i + 1)
    {
      if i + |pat| <= |s| - 1 {
        assert s[1..][i..i + |pat|] == s[i + 1..i + 1 + |pat|];
      }
    }
  }

  /** Removing a pattern that the string starts with leaves the rest of it. */
  lemma RemoveLeadingPattern(pat: string, rest: string)
    ensures RemoveFirst(pat + rest, pat) == rest
  {
    assert OccursAt(pat + rest, pat, 0);
    RemoveFirstAt(pat + rest, pat, 0);
  }
}
