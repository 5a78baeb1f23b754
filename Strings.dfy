/**
 * The few Python string operations the service relies on: `str.find`,
 * `str.split` on a one-character separator (with its inverse, `join`),
 * slicing from an index, and the alphabet of generated salts and keys.
 */
module Strings {

  /** `pat` occurs in `s` starting at index `i`. */
  predicate OccursAt(s: string, pat: string, i: int) {
    0 <= i && i + |pat| <= |s| && s[i..i + |pat|] == pat
  }

  lemma OccursAtShift(s: string, pat: string, i: int)
    requires |s| > 0 && 0 <= i
    ensures OccursAt(s, pat, i + 1) <==> OccursAt(s[1..], pat, i)
  {
    if 0 <= i && i + 1 + |pat| <= |s| {
      assert s[1..][i..i + |pat|] == s[i + 1..i + 1 + |pat|];
    }
  }

  /** Each character of an occurrence matches the pattern. */
  lemma OccursAtIndex(s: string, pat: string, i: int, j: int)
    requires OccursAt(s, pat, i) && 0 <= j < |pat|
    ensures s[i + j] == pat[j]
  {
    assert s[i..i + |pat|][j] == s[i + j];
  }

  /** A one-character pattern occurs exactly where that character stands. */
  lemma OccursAtChar(s: string, c: char, i: int)
    ensures OccursAt(s, [c], i) <==> 0 <= i < |s| && s[i] == c
  {
    if 0 <= i < |s| {
      assert s[i..i + 1] == [s[i]];
    }
  }

  /** Python's `s.find(pat)`: the index of the first occurrence of `pat`, or -1. */
  function Find(s: string, pat: string): (r: int)
    ensures -1 <= r
    ensures r == -1 <==> forall i :: !OccursAt(s, pat, i)
    ensures r >= 0 ==> OccursAt(s, pat, r) && forall i :: 0 <= i < r ==> !OccursAt(s, pat, i)
    decreases |s|
  {
    if |s| < |pat| then -1
    else if s[..|pat|] == pat then
      assert OccursAt(s, pat, 0);
      0
    else
      var k := Find(s[1..], pat);
      assert forall i :: 0 <= i ==> (OccursAt(s, pat, i + 1) <==> OccursAt(s[1..], pat, i)) by {
        forall i | 0 <= i ensures OccursAt(s, pat, i + 1) <==> OccursAt(s[1..], pat, i) {
          OccursAtShift(s, pat, i);
        }
      }
      assert !OccursAt(s, pat, 0);
      assert forall i :: OccursAt(s, pat, i) ==> OccursAt(s[1..], pat, i - 1) by {
        forall i | OccursAt(s, pat, i) ensures OccursAt(s[1..], pat, i - 1) {
          assert i != 0;
          OccursAtShift(s, pat, i - 1);
        }
      }
      if k == -1 then -1 else k + 1
  }

  /** Python's `s[k:]` for a non-negative start: empty once `k` passes the end. */
  function SliceFrom(s: string, k: nat): (r: string)
    ensures k <= |s| ==> s == s[..k] + r
    ensures |s| <= k ==> r == []
  {
    if k <= |s| then s[k..] else []
  }

  /** The inverse of `Split`: the parts glued together with `sep` between them. */
  function Join(parts: seq<string>, sep: char): (r: string)
    requires |parts| >= 1
    ensures parts[0] <= r
    decreases |parts|
  {
    if |parts| == 1 then parts[0] else parts[0] + [sep] + Join(parts[1..], sep)
  }

  /** Joining `n` separator-free parts puts exactly `n - 1` separators in the text. */
  lemma {:induction false} JoinSeparatorCount(parts: seq<string>, sep: char)
    requires |parts| >= 1
    requires forall k :: 0 <= k < |parts| ==> sep !in parts[k]
    ensures multiset(Join(parts, sep))[sep] == |parts| - 1
    decreases |parts|
  {
    assert sep !in parts[0];
    if |parts| > 1 {
      JoinSeparatorCount(parts[1..], sep);
      assert multiset(Join(parts, sep)) == multiset(parts[0]) + multiset([sep]) + multiset(Join(parts[1..], sep));
    }
  }

  /** Python's `s.split(sep)` for a one-character separator. */
  function Split(s: string, sep: char): (parts: seq<string>)
    ensures |parts| >= 1
    ensures forall k :: 0 <= k < |parts| ==> sep !in parts[k]
    ensures Join(parts, sep) == s
    decreases |s|
  {
    var k := Find(s, [sep]);
    if k == -1 then
      assert sep !in s by {
        forall i | 0 <= i < |s| ensures s[i] != sep {
          OccursAtChar(s, sep, i);
        }
      }
      [s]
    else
      OccursAtChar(s, sep, k);
      assert sep !in s[..k] by {
        forall i | 0 <= i < k ensures s[i] != sep {
          OccursAtChar(s, sep, i);
        }
      }
      var rest := Split(s[k + 1..], sep);
      assert s == s[..k] + [sep] + s[k + 1..];
      [s[..k]] + rest
  }

  /** In `a + [sep] + b` with no `sep` in `a`, the first separator is at `|a|`. */
  lemma FindFirstSeparator(a: string, sep: char, b: string)
    requires sep !in a
    ensures Find(a + [sep] + b, [sep]) == |a|
  {
    var s := a + [sep] + b;
    OccursAtChar(s, sep, |a|);
    var k := Find(s, [sep]);
    OccursAtChar(s, sep, k);
  }

  /** Splitting undoes joining, as long as no part holds the separator. */
  lemma {:induction false} SplitJoin(parts: seq<string>, sep: char)
    requires |parts| >= 1
    requires forall k :: 0 <= k < |parts| ==> sep !in parts[k]
    ensures Split(Join(parts, sep), sep) == parts
    decreases |parts|
  {
    var s := Join(parts, sep);
    if |parts| == 1 {
      var k := Find(s, [sep]);
      if k != -1 {
        OccursAtChar(s, sep, k);
        assert false;
      }
    } else {
      var rest := Join(parts[1..], sep);
      assert s == parts[0] + [sep] + rest;
      FindFirstSeparator(parts[0], sep, rest);
      assert s[..|parts[0]|] == parts[0];
      assert s[|parts[0]| + 1..] == rest;
      SplitJoin(parts[1..], sep);
    }
  }

  /** Python's `string.ascii_letters + string.digits`. */
  predicate IsAlnumChar(c: char) {
    ('a' <= c <= 'z') || ('A' <= c <= 'Z') || ('0' <= c <= '9')
  }

  predicate IsAlnum(s: string) {
    forall i :: 0 <= i < |s| ==> IsAlnumChar(s[i])
  }
}
