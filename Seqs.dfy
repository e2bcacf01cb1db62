/** Order-preserving sequence operations behind the pandas calls the model uses:
    boolean-mask selection (`Filter`) and `drop_duplicates()` with its default
    `keep='first'` (`Dedup`). Both are defined element by element from the back,
    the way pandas decides each row: keep it or not, looking only at the row and
    at the rows before it. */
module Seqs {

  predicate Distinct<T(==)>(s: seq<T>) {
    forall i, j :: 0 <= i < j < |s| ==> s[i] != s[j]
  }

  /** `a` is obtained from `b` by deleting elements, keeping the order of the rest. */
  predicate IsSubsequence<T(==)>(a: seq<T>, b: seq<T>)
    decreases |b|
  {
    if a == [] then true
    else if b == [] then false
    else if a[|a| - 1] == b[|b| - 1] then IsSubsequence(a[..|a| - 1], b[..|b| - 1])
    else IsSubsequence(a, b[..|b| - 1])
  }

  lemma {:induction false} SubsequenceExtend<T>(a: seq<T>, b: seq<T>, x: T)
    requires IsSubsequence(a, b)
    ensures IsSubsequence(a, b + [x])
    decreases |a| + |b| + 1
  {
    var c := b + [x];
    assert c[..|c| - 1] == b;
    if a != [] && a[|a| - 1] == x {
      SubsequenceDropLast(a, b);
    }
  }

  lemma {:induction false} SubsequenceDropLast<T>(a: seq<T>, b: seq<T>)
    requires a != [] && IsSubsequence(a, b)
    ensures IsSubsequence(a[..|a| - 1], b)
    decreases |a| + |b|
  {
    var fb := b[..|b| - 1];
    assert b == fb + [b[|b| - 1]];
    if a[|a| - 1] == b[|b| - 1] {
      SubsequenceExtend(a[..|a| - 1], fb, b[|b| - 1]);
    } else {
      SubsequenceDropLast(a, fb);
      SubsequenceExtend(a[..|a| - 1], fb, b[|b| - 1]);
    }
  }

  lemma {:induction false} SubsequenceAppendBoth<T>(a: seq<T>, b: seq<T>, x: T)
    requires IsSubsequence(a, b)
    ensures IsSubsequence(a + [x], b + [x])
  {
    assert (a + [x])[..|a|] == a;
    assert (b + [x])[..|b|] == b;
  }

  /** The elements of `s` that satisfy `keep`, in their original order. */
  function Filter<T>(s: seq<T>, keep: T -> bool): (r: seq<T>)
    ensures |r| <= |s|
  {
    if s == [] then []
    else Filter(s[..|s| - 1], keep) + (if keep(s[|s| - 1]) then [s[|s| - 1]] else [])
  }

  /** An element is in the selection exactly when it is in the input and passes the test. */
  lemma {:induction false} FilterMembership<T>(s: seq<T>, keep: T -> bool, x: T)
    ensures x in Filter(s, keep) <==> x in s && keep(x)
  {
    if s != [] {
      var t := s[..|s| - 1];
      assert s == t + [s[|s| - 1]];
      FilterMembership(t, keep, x);
    }
  }

  /** Every element of the selection passes the test. */
  lemma {:induction false} FilterPasses<T>(s: seq<T>, keep: T -> bool)
    ensures forall i :: 0 <= i < |Filter(s, keep)| ==> keep(Filter(s, keep)[i])
  {
    forall i | 0 <= i < |Filter(s, keep)| ensures keep(Filter(s, keep)[i]) {
      FilterMembership(s, keep, Filter(s, keep)[i]);
    }
  }

  /** Each element is kept as often as it occurs, or not at all. */
  lemma {:induction false} FilterCount<T>(s: seq<T>, keep: T -> bool, x: T)
    ensures multiset(Filter(s, keep))[x] == if keep(x) then multiset(s)[x] else 0
  {
    if s != [] {
      var t := s[..|s| - 1];
      assert s == t + [s[|s| - 1]];
      FilterCount(t, keep, x);
    }
  }

  /** The selection keeps the input's order. */
  lemma {:induction false} FilterSubsequence<T>(s: seq<T>, keep: T -> bool)
    ensures IsSubsequence(Filter(s, keep), s)
  {
    if s != [] {
      var t, z := s[..|s| - 1], s[|s| - 1];
      assert s == t + [z];
      FilterSubsequence(t, keep);
      if keep(z) {
        assert Filter(s, keep) == Filter(t, keep) + [z];
        SubsequenceAppendBoth(Filter(t, keep), t, z);
      } else {
        assert Filter(s, keep) == Filter(t, keep);
        SubsequenceExtend(Filter(t, keep), t, z);
      }
    }
  }

  /** A test that everything passes selects everything. */
  lemma {:induction false} FilterKeepsAll<T>(s: seq<T>, keep: T -> bool)
    requires forall k :: 0 <= k < |s| ==> keep(s[k])
    ensures Filter(s, keep) == s
  {
    if s != [] {
      var t := s[..|s| - 1];
      assert s == t + [s[|s| - 1]];
      FilterKeepsAll(t, keep);
    }
  }

  /** A more permissive test selects a supersequence: nothing the stricter test kept is lost. */
  lemma {:induction false} FilterMonotone<T>(s: seq<T>, strict: T -> bool, loose: T -> bool)
    requires forall k :: 0 <= k < |s| && strict(s[k]) ==> loose(s[k])
    ensures IsSubsequence(Filter(s, strict), Filter(s, loose))
  {
    if s != [] {
      var t, z := s[..|s| - 1], s[|s| - 1];
      FilterMonotone(t, strict, loose);
      assert s == t + [z];
      if strict(z) {
        SubsequenceAppendBoth(Filter(t, strict), Filter(t, loose), z);
      } else if loose(z) {
        assert Filter(s, strict) == Filter(t, strict);
        assert Filter(s, loose) == Filter(t, loose) + [z];
        SubsequenceExtend(Filter(t, strict), Filter(t, loose), z);
      } else {
        assert Filter(s, strict) == Filter(t, strict);
        assert Filter(s, loose) == Filter(t, loose);
      }
    }
  }

  /** `drop_duplicates()`: an element is dropped when an equal one comes earlier. */
  function Dedup<T(==)>(s: seq<T>): (r: seq<T>)
    ensures |r| <= |s|
  {
    if s == [] then []
    else if s[|s| - 1] in s[..|s| - 1] then Dedup(s[..|s| - 1])
    else Dedup(s[..|s| - 1]) + [s[|s| - 1]]
  }

  /** Deduplication loses no value and invents none. */
  lemma {:induction false} DedupMembership<T>(s: seq<T>, x: T)
    ensures x in Dedup(s) <==> x in s
  {
    if s != [] {
      var t := s[..|s| - 1];
      assert s == t + [s[|s| - 1]];
      DedupMembership(t, x);
    }
  }

  /** After deduplication no two elements are equal. */
  lemma {:induction false} DedupDistinct<T>(s: seq<T>)
    ensures Distinct(Dedup(s))
  {
    if s != [] {
      var t, z := s[..|s| - 1], s[|s| - 1];
      DedupDistinct(t);
      if z !in t {
        DedupMembership(t, z);
      }
    }
  }

  /** A sequence without duplicates is left as it is. */
  lemma {:induction false} DedupOfDistinct<T>(s: seq<T>)
    requires Distinct(s)
    ensures Dedup(s) == s
  {
    if s != [] {
      var t, z := s[..|s| - 1], s[|s| - 1];
      assert s == t + [z];
      assert z !in t;
      DedupOfDistinct(t);
    }
  }

  /** Dropping duplicates twice is dropping them once. */
  lemma DedupIdempotent<T>(s: seq<T>)
    ensures Dedup(Dedup(s)) == Dedup(s)
  {
    DedupDistinct(s);
    DedupOfDistinct(Dedup(s));
  }

  /** Deduplication keeps the order of what it keeps. */
  lemma {:induction false} DedupSubsequence<T>(s: seq<T>)
    ensures IsSubsequence(Dedup(s), s)
  {
    if s != [] {
      var t, z := s[..|s| - 1], s[|s| - 1];
      assert s == t + [z];
      DedupSubsequence(t);
      if z in t {
        SubsequenceExtend(Dedup(t), t, z);
      } else {
        SubsequenceAppendBoth(Dedup(t), t, z);
      }
    }
  }

  /** The position of the first occurrence of `x`. */
  function FirstIndex<T(==)>(s: seq<T>, x: T): (i: nat)
    requires x in s
    ensures i < |s| && s[i] == x && x !in s[..i]
  {
    if s[0] == x then 0
    else
      assert x in s[1..] by { var k :| 0 <= k < |s| && s[k] == x; assert s[1..][k - 1] == x; }
      var j := FirstIndex(s[1..], x);
      assert s[..j + 1] == [s[0]] + s[1..][..j];
      1 + j
  }

  /** The first occurrence is the only position before which the value never appears. */
  lemma FirstIndexUnique<T>(s: seq<T>, x: T, i: nat)
    requires i < |s| && s[i] == x && x !in s[..i]
    ensures FirstIndex(s, x) == i
  {
    var f := FirstIndex(s, x);
  }

  lemma FirstIndexAppend<T>(t: seq<T>, z: T, x: T)
    requires x in t + [z]
    ensures x in t ==> FirstIndex(t + [z], x) == FirstIndex(t, x)
    ensures x !in t ==> FirstIndex(t + [z], x) == |t|
  {
    var s := t + [z];
    if x in t {
      var i := FirstIndex(t, x);
      assert s[..i] == t[..i];
      FirstIndexUnique(s, x, i);
    } else {
      assert s[..|t|] == t;
      FirstIndexUnique(s, x, |t|);
    }
  }

  /** First occurrence wins: values keep the order of their first occurrences. */
  lemma {:induction false} DedupKeepsFirstOrder<T>(s: seq<T>, x: T, y: T)
    requires x in s && y in s
    requires FirstIndex(s, x) < FirstIndex(s, y)
    ensures x in Dedup(s) && y in Dedup(s)
    ensures FirstIndex(Dedup(s), x) < FirstIndex(Dedup(s), y)
  {
    DedupMembership(s, x);
    DedupMembership(s, y);
    var t, z := s[..|s| - 1], s[|s| - 1];
    assert s == t + [z];
    FirstIndexAppend(t, z, x);
    FirstIndexAppend(t, z, y);
    DedupMembership(t, x);
    DedupMembership(t, y);
    var d := Dedup(t);
    if y in t {
      assert x in t;
      DedupKeepsFirstOrder(t, x, y);
      if z !in t {
        FirstIndexAppend(d, z, x);
        FirstIndexAppend(d, z, y);
      }
    } else {
      assert z == y && z !in t;
      if x in t {
        DedupMembership(t, z);
        FirstIndexAppend(d, z, x);
        FirstIndexAppend(d, z, y);
      }
    }
  }
}
