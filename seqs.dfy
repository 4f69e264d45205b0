/** Generic facts about sequences used as the tables of the store. */
module Seqs {

  /** The elements of `xs` that satisfy `p`, in their original order
      (a `WHERE` clause, or a bulk `DELETE` seen from the rows it keeps). */
  function Filter<T>(xs: seq<T>, p: T -> bool): (r: seq<T>)
    ensures |r| <= |xs|
    ensures forall x :: x in r ==> x in xs && p(x)
    ensures forall x :: x in xs && p(x) ==> x in r
  {
    if xs == [] then []
    else if p(xs[0]) then [xs[0]] + Filter(xs[1..], p)
    else Filter(xs[1..], p)
  }

  /** Each element satisfying `p` is kept as often as it occurs, and no other is kept. */
  lemma {:induction false} FilterCounts<T>(xs: seq<T>, p: T -> bool)
    ensures forall x :: x in xs ==> multiset(Filter(xs, p))[x] == if p(x) then multiset(xs)[x] else 0
  {
    if xs != [] {
      var rest := Filter(xs[1..], p);
      FilterCounts(xs[1..], p);
      assert xs == [xs[0]] + xs[1..];
      assert xs[0] !in xs[1..] ==> multiset(rest)[xs[0]] == 0;
    }
  }

  /** Filtering a concatenation filters each part: the kept rows stay in table order. */
  lemma {:induction false} FilterAppend<T>(a: seq<T>, b: seq<T>, p: T -> bool)
    ensures Filter(a + b, p) == Filter(a, p) + Filter(b, p)
  {
    if a == [] {
      assert a + b == b;
    } else {
      var ab := a + b;
      assert ab[0] == a[0] && ab[1..] == a[1..] + b;
      FilterAppend(a[1..], b, p);
      if p(a[0]) {
        calc {
          Filter(ab, p);
          [a[0]] + Filter(a[1..] + b, p);
          [a[0]] + (Filter(a[1..], p) + Filter(b, p));
          ([a[0]] + Filter(a[1..], p)) + Filter(b, p);
        }
      }
    }
  }

  /** A single row is kept exactly when it satisfies `p`. */
  lemma FilterOfOne<T>(x: T, p: T -> bool)
    ensures Filter([x], p) == if p(x) then [x] else []
  {
  }

  /** A row added at the end of the table is kept at the end exactly when it satisfies
      `p`; with `FilterAppend`, this fixes the order of `Filter` completely. */
  lemma FilterSnoc<T>(xs: seq<T>, x: T, p: T -> bool)
    ensures Filter(xs + [x], p) == Filter(xs, p) + (if p(x) then [x] else [])
  {
    FilterAppend(xs, [x], p);
    FilterOfOne(x, p);
  }

  /** No two rows of `xs` share a key: a primary key or a UNIQUE constraint. */
  ghost predicate DistinctBy<T, K>(xs: seq<T>, key: T -> K) {
    forall i, j :: 0 <= i < j < |xs| ==> key(xs[i]) != key(xs[j])
  }

  /** `xs` without its element at index `i`. */
  function RemoveAt<T>(xs: seq<T>, i: nat): (r: seq<T>)
    requires i < |xs|
    ensures |r| == |xs| - 1
    ensures forall x :: x in xs && x != xs[i] ==> x in r
    ensures forall x :: x in r ==> x in xs
  {
    var r := xs[..i] + xs[i + 1..];
    assert forall x :: x in xs && x != xs[i] ==> x in r by {
      forall x | x in xs && x != xs[i] ensures x in r {
        var k :| 0 <= k < |xs| && xs[k] == x;
        if k < i { assert r[k] == x; } else { assert r[k - 1] == x; }
      }
    }
    r
  }

  lemma {:induction false} FilterKeepsDistinct<T, K>(xs: seq<T>, p: T -> bool, key: T -> K)
    requires DistinctBy(xs, key)
    ensures DistinctBy(Filter(xs, p), key)
  {
    if xs != [] {
      var tail := xs[1..];
      assert DistinctBy(tail, key) by {
        forall i, j | 0 <= i < j < |tail| ensures key(tail[i]) != key(tail[j]) {
          assert tail[i] == xs[i + 1] && tail[j] == xs[j + 1];
        }
      }
      FilterKeepsDistinct(tail, p, key);
      if p(xs[0]) {
        var r := Filter(tail, p);
        forall j | 0 <= j < |r| ensures key(xs[0]) != key(r[j]) {
          assert r[j] in tail;
          var k :| 0 <= k < |tail| && tail[k] == r[j];
          assert xs[k + 1] == r[j];
        }
        var full := [xs[0]] + r;
        forall i, j | 0 <= i < j < |full| ensures key(full[i]) != key(full[j]) {
          if i == 0 { assert full[j] == r[j - 1]; }
          else { assert full[i] == r[i - 1] && full[j] == r[j - 1]; }
        }
      }
    }
  }

  lemma RemoveAtKeepsDistinct<T, K>(xs: seq<T>, i: nat, key: T -> K)
    requires i < |xs| && DistinctBy(xs, key)
    ensures DistinctBy(RemoveAt(xs, i), key)
  {
    var r := RemoveAt(xs, i);
    assert r == xs[..i] + xs[i + 1..];
    forall a, b | 0 <= a < b < |r| ensures key(r[a]) != key(r[b]) {
      var a' := if a < i then a else a + 1;
      var b' := if b < i then b else b + 1;
      assert r[a] == xs[a'] && r[b] == xs[b'];
    }
  }

  lemma AppendKeepsDistinct<T, K>(xs: seq<T>, x: T, key: T -> K)
    requires DistinctBy(xs, key)
    requires forall y :: y in xs ==> key(y) != key(x)
    ensures DistinctBy(xs + [x], key)
  {
    var r := xs + [x];
    forall a, b | 0 <= a < b < |r| ensures key(r[a]) != key(r[b]) {
      assert r[a] == xs[a];
      if b < |xs| { assert r[b] == xs[b]; } else { assert r[a] in xs; }
    }
  }

  lemma UpdateKeepsDistinct<T, K>(xs: seq<T>, i: nat, x: T, key: T -> K)
    requires i < |xs| && DistinctBy(xs, key)
    requires key(x) == key(xs[i])
    ensures DistinctBy(xs[i := x], key)
  {
    var r := xs[i := x];
    forall a, b | 0 <= a < b < |r| ensures key(r[a]) != key(r[b]) {
      assert key(r[a]) == key(xs[a]) && key(r[b]) == key(xs[b]);
    }
  }
}
