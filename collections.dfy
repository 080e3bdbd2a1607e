/**
 * Sequence operations the dashboard borrows from its libraries: pandas' `unique`
 * (distinct values in order of first appearance), Python's `str.join`, and the
 * order-preserving subsequence relation that row selection satisfies.
 */
module Collections {

  predicate NoDuplicates<T(==)>(s: seq<T>) {
    forall i, j :: 0 <= i < j < |s| ==> s[i] != s[j]
  }

  /** Position of the first occurrence of `x` in `s`. */
  function FirstIndex<T(==)>(s: seq<T>, x: T): (k: nat)
    requires x in s
    ensures k < |s| && s[k] == x && x !in s[..k]
  {
    var n := |s| - 1;
    assert s == s[..n] + [s[n]];
    if x in s[..n] then
      var k := FirstIndex(s[..n], x);
      assert s[..n][..k] == s[..k];
      k
    else
      n
  }

  /**
   * pandas `Series.unique`: each value once, in the order of its first appearance.
   * The last element is kept exactly when it did not occur earlier.
   */
  function Distinct<T(==,!new)>(s: seq<T>): (r: seq<T>)
    ensures forall x :: x in r <==> x in s
    ensures NoDuplicates(r)
  {
    if s == [] then []
    else
      var n := |s| - 1;
      assert s == s[..n] + [s[n]];
      var earlier := Distinct(s[..n]);
      if s[n] in s[..n] then earlier else earlier + [s[n]]
  }

  /** Values of `Distinct(s)` are listed in the order in which they first occur in `s`. */
  lemma {:induction false} DistinctKeepsFirstAppearanceOrder<T(!new)>(s: seq<T>, i: nat, j: nat)
    requires i < j < |Distinct(s)|
    ensures FirstIndex(s, Distinct(s)[i]) < FirstIndex(s, Distinct(s)[j])
  {
    var n := |s| - 1;
    var prefix := s[..n];
    var earlier := Distinct(prefix);
    var r := Distinct(s);
    FirstIndexOfPrefix(s, n, r[i]);
    if j < |earlier| {
      assert r[i] == earlier[i] && r[j] == earlier[j];
      FirstIndexOfPrefix(s, n, r[j]);
      DistinctKeepsFirstAppearanceOrder(prefix, i, j);
    } else {
      assert r[j] == s[n] && s[n] !in prefix;
      assert FirstIndex(s, r[j]) == n;
    }
  }

  /** A value already present in a prefix is first found inside that prefix. */
  lemma FirstIndexOfPrefix<T>(s: seq<T>, n: nat, x: T)
    requires n <= |s| && x in s[..n]
    ensures FirstIndex(s, x) == FirstIndex(s[..n], x)
  {
    var k := FirstIndex(s, x);
    var k' := FirstIndex(s[..n], x);
    assert s[..n][..k'] == s[..k'];
  }

  /** `Distinct` leaves a sequence without repetitions unchanged. */
  lemma {:induction false} DistinctOfDistinct<T(!new)>(s: seq<T>)
    requires NoDuplicates(s)
    ensures Distinct(s) == s
  {
    if s != [] {
      var n := |s| - 1;
      assert NoDuplicates(s[..n]);
      DistinctOfDistinct(s[..n]);
      assert s[n] !in s[..n];
      assert s == s[..n] + [s[n]];
    }
  }

  /** The lengths of the parts, added up. */
  function TotalLength(parts: seq<string>): nat {
    if parts == [] then 0 else |parts[0]| + TotalLength(parts[1..])
  }

  /**
   * Python `sep.join(parts)`: the parts with `sep` between neighbours; empty for no parts.
   * The text opens with the first part.
   */
  function Join(parts: seq<string>, sep: string): (joined: string)
    ensures parts != [] ==> parts[0] <= joined
  {
    if parts == [] then ""
    else if |parts| == 1 then parts[0]
    else parts[0] + sep + Join(parts[1..], sep)
  }

  /** The joined text holds every part and one separator per gap between neighbours. */
  lemma {:induction false} JoinLength(parts: seq<string>, sep: string)
    ensures |Join(parts, sep)| == TotalLength(parts) + (if parts == [] then 0 else (|parts| - 1) * |sep|)
  {
    if |parts| >= 2 {
      JoinLength(parts[1..], sep);
      assert (|parts| - 1) * |sep| == (|parts| - 2) * |sep| + |sep|;
    }
  }

  /** Joining two or more parts puts every character of the separator into the result. */
  lemma JoinShowsSeparator(parts: seq<string>, sep: string, c: char)
    requires |parts| >= 2 && c in sep
    ensures c in Join(parts, sep)
  {
    var k :| 0 <= k < |sep| && sep[k] == c;
    var joined := Join(parts, sep);
    assert joined == parts[0] + sep + Join(parts[1..], sep);
    assert joined[|parts[0]| + k] == c;
  }

  /** `a` can be obtained from `b` by deleting elements, keeping the order of the rest. */
  predicate IsSubsequence<T(==)>(a: seq<T>, b: seq<T>)
    decreases |b|
  {
    a == [] ||
    (b != [] &&
     ((a[0] == b[0] && IsSubsequence(a[1..], b[1..])) || IsSubsequence(a, b[1..])))
  }
}
