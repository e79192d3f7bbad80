/** LINQ's `Distinct` on a sequence of ids: the first occurrence of each element, in order. */
module Sequences {

  /** No element occurs twice. */
  predicate NoDuplicates<T(==)>(s: seq<T>) {
    forall i, j :: 0 <= i < j < |s| ==> s[i] != s[j]
  }

  /** Index of the first occurrence of `x` in `s`. */
  function FirstIndex(s: seq<int>, x: int): (k: nat)
    requires x in s
    ensures k < |s| && s[k] == x
    ensures forall j :: 0 <= j < k ==> s[j] != x
  {
    if s[0] == x then 0 else 1 + FirstIndex(s[1..], x)
  }

  /** The elements of `s` without repetitions, each at the place it first occurs, as LINQ's
      `Distinct` enumerates them. */
  function Distinct(s: seq<int>): (r: seq<int>)
    ensures forall x :: x in r <==> x in s
    ensures NoDuplicates(r)
    ensures forall i, j :: 0 <= i < j < |r| ==> FirstIndex(s, r[i]) < FirstIndex(s, r[j])
    ensures |r| <= |s|
    decreases |s|
  {
    if |s| == 0 then []
    else
      var init := s[..|s| - 1];
      var prior := Distinct(init);
      FirstIndexOfPrefix(s, |s| - 1);
      if s[|s| - 1] in prior then prior else prior + [s[|s| - 1]]
  }

  /** A first occurrence inside a prefix is the first occurrence in the whole sequence. */
  lemma FirstIndexOfPrefix(s: seq<int>, n: nat)
    requires n <= |s|
    ensures forall x :: x in s[..n] ==> x in s && FirstIndex(s[..n], x) == FirstIndex(s, x)
  {
    forall x | x in s[..n]
      ensures x in s && FirstIndex(s[..n], x) == FirstIndex(s, x)
    {
      var k := FirstIndex(s[..n], x);
      assert s[k] == x;
      FirstIndexUnique(s, x, k);
    }
  }

  /** The first occurrence is the only index holding `x` with no `x` before it. */
  lemma FirstIndexUnique(s: seq<int>, x: int, k: nat)
    requires k < |s| && s[k] == x
    requires forall j :: 0 <= j < k ==> s[j] != x
    ensures FirstIndex(s, x) == k
  {
  }

  /** A sequence without duplicates has as many elements as its set of elements. */
  lemma {:induction false} NoDuplicatesCardinality(s: seq<int>)
    requires NoDuplicates(s)
    ensures |set x | x in s| == |s|
  {
    if |s| > 0 {
      var init := s[..|s| - 1];
      assert NoDuplicates(init);
      NoDuplicatesCardinality(init);
      var last := s[|s| - 1];
      assert last !in init by {
        forall k | 0 <= k < |init| ensures init[k] != last {
          assert init[k] == s[k];
        }
      }
      assert (set x | x in s) == (set x | x in init) + {last} by {
        assert s == init + [last];
      }
    }
  }

  /** `Distinct` has one element per distinct value of its input. */
  lemma DistinctCardinality(s: seq<int>)
    ensures |Distinct(s)| == |set x | x in s|
  {
    var r := Distinct(s);
    NoDuplicatesCardinality(r);
    assert (set x | x in r) == (set x | x in s);
  }

  /** `Distinct` is the only duplicate-free sequence with the same elements ordered by first
      occurrence: the contract above pins down its result completely. */
  lemma {:induction false} DistinctIsUnique(s: seq<int>, r: seq<int>)
    requires forall x :: x in r <==> x in s
    requires NoDuplicates(r)
    requires forall i, j :: 0 <= i < j < |r| ==> FirstIndex(s, r[i]) < FirstIndex(s, r[j])
    ensures r == Distinct(s)
  {
    var d := Distinct(s);
    NoDuplicatesCardinality(r);
    NoDuplicatesCardinality(d);
    assert (set x | x in r) == (set x | x in d);
    forall i | 0 <= i < |r|
      ensures r[i] == d[i]
    {
      OrderedByFirstIndex(s, r, d, i);
    }
  }

  /** Two duplicate-free sequences over the same elements, both ordered by first occurrence in
      `s`, agree at every index. */
  lemma {:induction false} OrderedByFirstIndex(s: seq<int>, r: seq<int>, d: seq<int>, i: nat)
    requires forall x :: x in r ==> x in s
    requires forall x :: x in r <==> x in d
    requires |r| == |d|
    requires forall a, b :: 0 <= a < b < |r| ==> FirstIndex(s, r[a]) < FirstIndex(s, r[b])
    requires forall a, b :: 0 <= a < b < |d| ==> FirstIndex(s, d[a]) < FirstIndex(s, d[b])
    requires i < |r|
    ensures r[i] == d[i]
  {
    // r[i] has exactly i elements of r before it in first-occurrence order, hence of d too.
    var x := r[i];
    RankInOrdered(s, r, i);
    assert x in d;
    var k :| 0 <= k < |d| && d[k] == x;
    RankInOrdered(s, d, k);
    assert Before(s, d, x) == Before(s, r, x);
    assert k == i;
  }

  /** The elements of `r` that occur in `s` before `y` first does. */
  function Before(s: seq<int>, r: seq<int>, y: int): set<int>
    requires forall x :: x in r ==> x in s
    requires y in s
  {
    set x | x in r && FirstIndex(s, x) < FirstIndex(s, y)
  }

  /** In a sequence ordered by first occurrence, exactly `i` elements come before position `i`. */
  lemma RankInOrdered(s: seq<int>, r: seq<int>, i: nat)
    requires forall x :: x in r ==> x in s
    requires forall a, b :: 0 <= a < b < |r| ==> FirstIndex(s, r[a]) < FirstIndex(s, r[b])
    requires i < |r|
    ensures |Before(s, r, r[i])| == i
  {
    var prefix := r[..i];
    OrderedPrefixNoDuplicates(s, r, i);
    NoDuplicatesCardinality(prefix);
    BeforeIsPrefix(s, r, i);
  }

  /** A prefix of a sequence ordered by first occurrence repeats nothing. */
  lemma OrderedPrefixNoDuplicates(s: seq<int>, r: seq<int>, i: nat)
    requires forall x :: x in r ==> x in s
    requires forall a, b :: 0 <= a < b < |r| ==> FirstIndex(s, r[a]) < FirstIndex(s, r[b])
    requires i <= |r|
    ensures NoDuplicates(r[..i])
  {
    forall a, b | 0 <= a < b < i ensures r[..i][a] != r[..i][b] {
      assert FirstIndex(s, r[a]) < FirstIndex(s, r[b]);
    }
  }

  /** What comes before position `i` in first-occurrence order is what the prefix holds. */
  lemma BeforeIsPrefix(s: seq<int>, r: seq<int>, i: nat)
    requires forall x :: x in r ==> x in s
    requires forall a, b :: 0 <= a < b < |r| ==> FirstIndex(s, r[a]) < FirstIndex(s, r[b])
    requires i < |r|
    ensures Before(s, r, r[i]) == set x | x in r[..i]
  {
    var below := Before(s, r, r[i]);
    var prefix := r[..i];
    assert forall k :: i <= k < |r| ==> FirstIndex(s, r[i]) <= FirstIndex(s, r[k]);
    forall x | x in below ensures x in prefix {
      var k :| 0 <= k < |r| && r[k] == x;
      assert prefix[k] == x;
    }
    forall x | x in prefix ensures x in below {
      var k :| 0 <= k < i && prefix[k] == x;
      assert FirstIndex(s, r[k]) < FirstIndex(s, r[i]);
    }
  }

  /** Appending elements that already occur changes nothing: `Distinct` keeps first
      occurrences only. */
  lemma DistinctIgnoresRepeats(s: seq<int>, t: seq<int>)
    requires forall x :: x in t ==> x in s
    ensures Distinct(s + t) == Distinct(s)
  {
    var d := Distinct(s);
    assert (s + t)[..|s|] == s;
    FirstIndexOfPrefix(s + t, |s|);
    forall x ensures x in d <==> x in s + t {
    }
    forall i, j | 0 <= i < j < |d| ensures FirstIndex(s + t, d[i]) < FirstIndex(s + t, d[j]) {
    }
    DistinctIsUnique(s + t, d);
  }
}
