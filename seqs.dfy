/**
 * Order-preserving subsequences and the array `filter` the dashboard applies
 * to its timeline points and to its state rows.
 */
module Seqs {

  /** `a` can be obtained from `b` by deleting elements, keeping the order of the rest. */
  predicate IsSubsequence<T(==)>(a: seq<T>, b: seq<T>)
    decreases |b|
  {
    a == [] ||
    (b != [] && ((a[0] == b[0] && IsSubsequence(a[1..], b[1..])) || IsSubsequence(a, b[1..])))
  }

  /**
   * `Array.prototype.filter`: the elements of `s` that satisfy `keep`, in order.
   * The result is a subsequence of `s` holding every kept element exactly as
   * often as `s` does and no other element.
   */
  function Filter<T(==,!new)>(keep: T -> bool, s: seq<T>): (r: seq<T>)
    ensures IsSubsequence(r, s)
    ensures forall x :: multiset(r)[x] == if keep(x) then multiset(s)[x] else 0
    ensures |r| <= |s|
  {
    if s == [] then []
    else
      var rest := Filter(keep, s[1..]);
      assert s == [s[0]] + s[1..];
      if keep(s[0]) then [s[0]] + rest else rest
  }

  /** One step of `Filter`: the head is kept or dropped, then the tail is filtered. */
  lemma FilterCons<T(!new)>(keep: T -> bool, s: seq<T>)
    requires s != []
    ensures Filter(keep, s) == if keep(s[0]) then [s[0]] + Filter(keep, s[1..]) else Filter(keep, s[1..])
  {
  }

  lemma SliceOfTail<T>(s: seq<T>, i: nat, j: nat)
    requires s != [] && i <= j <= |s| - 1
    ensures s[1..][i..j] == s[i + 1..j + 1]
  {
  }

  lemma PrefixOfTail<T>(s: seq<T>, j: nat)
    requires s != [] && j <= |s| - 1
    ensures [s[0]] + s[1..][..j] == s[..j + 1]
  {
  }

  lemma {:induction false} SubsequenceReflexive<T(!new)>(s: seq<T>)
    ensures IsSubsequence(s, s)
    decreases |s|
  {
    if s != [] {
      SubsequenceReflexive(s[1..]);
    }
  }

  /** Deleting elements can only lower how often each value occurs. */
  lemma {:induction false} SubsequenceMultiset<T(!new)>(a: seq<T>, b: seq<T>)
    requires IsSubsequence(a, b)
    ensures multiset(a) <= multiset(b)
    decreases |b|
  {
    if a == [] {
    } else {
      assert b == [b[0]] + b[1..];
      if a[0] == b[0] && IsSubsequence(a[1..], b[1..]) {
        SubsequenceMultiset(a[1..], b[1..]);
        assert a == [a[0]] + a[1..];
      } else {
        SubsequenceMultiset(a, b[1..]);
      }
    }
  }

  /**
   * The contract of `Filter` pins its result down: any subsequence of `s` with
   * the filtered multiplicities is the filtered sequence itself.
   */
  lemma {:induction false} FilterIsUnique<T(!new)>(keep: T -> bool, s: seq<T>, r: seq<T>)
    requires IsSubsequence(r, s)
    requires forall x :: multiset(r)[x] == if keep(x) then multiset(s)[x] else 0
    ensures r == Filter(keep, s)
    decreases |s|
  {
    if s == [] {
      assert r == [];
    } else {
      var h, t := s[0], s[1..];
      assert s == [h] + t;
      if keep(h) {
        assert multiset(r)[h] == multiset(t)[h] + 1;
        if !(r != [] && r[0] == h && IsSubsequence(r[1..], t)) {
          SubsequenceMultiset(r, t);
          assert false;
        }
        assert r == [h] + r[1..];
        FilterIsUnique(keep, t, r[1..]);
      } else {
        assert multiset(r)[h] == 0;
        if r != [] && r[0] == h {
          assert false;
        }
        FilterIsUnique(keep, t, r);
      }
    }
  }

  /** Filtering twice with the same test is filtering once. */
  lemma FilterIdempotent<T(!new)>(keep: T -> bool, s: seq<T>)
    ensures Filter(keep, Filter(keep, s)) == Filter(keep, s)
  {
    var once := Filter(keep, s);
    var twice := Filter(keep, once);
    assert forall x :: multiset(twice)[x] == if keep(x) then multiset(s)[x] else 0;
    SubsequenceTransitive(twice, once, s);
    FilterIsUnique(keep, s, twice);
  }

  lemma {:induction false} SubsequenceTransitive<T(!new)>(a: seq<T>, b: seq<T>, c: seq<T>)
    requires IsSubsequence(a, b) && IsSubsequence(b, c)
    ensures IsSubsequence(a, c)
    decreases |c|
  {
    if a == [] {
    } else if b[0] == c[0] && IsSubsequence(b[1..], c[1..]) {
      if a[0] == b[0] && IsSubsequence(a[1..], b[1..]) {
        SubsequenceTransitive(a[1..], b[1..], c[1..]);
      } else {
        SubsequenceTransitive(a, b[1..], c[1..]);
      }
    } else {
      SubsequenceTransitive(a, b, c[1..]);
    }
  }

  /** Filtering a concatenation filters each part. */
  lemma {:induction false} FilterAppend<T(!new)>(keep: T -> bool, a: seq<T>, b: seq<T>)
    ensures Filter(keep, a + b) == Filter(keep, a) + Filter(keep, b)
    decreases |a|
  {
    if a == [] {
      assert a + b == b;
    } else {
      assert (a + b)[1..] == a[1..] + b;
      FilterAppend(keep, a[1..], b);
    }
  }

  /** A filter that rejects every element leaves nothing. */
  lemma {:induction false} FilterRejectsAll<T(!new)>(keep: T -> bool, s: seq<T>)
    requires forall i :: 0 <= i < |s| ==> !keep(s[i])
    ensures Filter(keep, s) == []
    decreases |s|
  {
    if s != [] {
      FilterRejectsAll(keep, s[1..]);
    }
  }

  /** A filter that accepts every element leaves the sequence as it is. */
  lemma {:induction false} FilterKeepsAll<T(!new)>(keep: T -> bool, s: seq<T>)
    requires forall i :: 0 <= i < |s| ==> keep(s[i])
    ensures Filter(keep, s) == s
    decreases |s|
  {
    if s != [] {
      FilterKeepsAll(keep, s[1..]);
      assert s == [s[0]] + s[1..];
    }
  }
}
