// Newest-first ordering as the services use it: a stable sort by a time stamp, largest first.
module Sorting {
  import opened Seqs

  ghost predicate Newest<T>(s: seq<T>, time: T -> int) {
    forall i, j :: 0 <= i < j < |s| ==> time(s[i]) >= time(s[j])
  }

  function At<T>(time: T -> int, k: int): T -> bool {
    x => time(x) == k
  }

  // t is a stable newest-first sort of s: ordered, and every group of equal
  // time stamps holds the same elements in the same order as in s.
  ghost predicate IsStableSort<T>(s: seq<T>, t: seq<T>, time: T -> int) {
    Newest(t, time) && forall k {:trigger At(time, k)} :: Filter(t, At(time, k)) == Filter(s, At(time, k))
  }

  function Insert<T>(x: T, s: seq<T>, time: T -> int): seq<T> {
    if s == [] || time(x) >= time(s[0]) then [x] + s else [s[0]] + Insert(x, s[1..], time)
  }

  // Array.prototype.sort with the comparator (a, b) => time(b) - time(a).
  function SortNewest<T>(s: seq<T>, time: T -> int): seq<T> {
    if s == [] then [] else Insert(s[0], SortNewest(s[1..], time), time)
  }

  // Merge of two newest-first lists; on equal time stamps the first list goes first.
  function Merge<T>(a: seq<T>, b: seq<T>, time: T -> int): seq<T>
    decreases |a| + |b|
  {
    if a == [] then b
    else if b == [] then a
    else if time(a[0]) >= time(b[0]) then [a[0]] + Merge(a[1..], b, time)
    else [b[0]] + Merge(a, b[1..], time)
  }

  lemma {:induction false} InsertMember<T>(x: T, s: seq<T>, time: T -> int, y: T)
    ensures y in Insert(x, s, time) <==> y == x || y in s
  {
    if s == [] || time(x) >= time(s[0]) {
    } else {
      InsertMember(x, s[1..], time, y);
    }
  }

  lemma {:induction false} InsertIsStable<T>(x: T, s: seq<T>, time: T -> int)
    requires Newest(s, time)
    ensures IsStableSort([x] + s, Insert(x, s, time), time)
  {
    if s == [] || time(x) >= time(s[0]) {
    } else {
      InsertIsStable(x, s[1..], time);
      var rest := Insert(x, s[1..], time);
      forall j | 0 <= j < |rest|
        ensures time(s[0]) >= time(rest[j])
      {
        InsertMember(x, s[1..], time, rest[j]);
        if rest[j] != x {
          var k :| 0 <= k < |s[1..]| && s[1..][k] == rest[j];
          assert s[k + 1] == rest[j];
        }
      }
      forall k
        ensures Filter([s[0]] + rest, At(time, k)) == Filter([x] + s, At(time, k))
      {
        var p := At(time, k);
        assert Filter(rest, p) == Filter([x] + s[1..], p);
        InsertGroup(x, s, rest, p);
      }
    }
  }

  // The induction step of InsertIsStable for one time stamp.
  lemma InsertGroup<T>(x: T, s: seq<T>, rest: seq<T>, p: T -> bool)
    requires s != [] && !(p(x) && p(s[0]))
    requires Filter(rest, p) == Filter([x] + s[1..], p)
    ensures Filter([s[0]] + rest, p) == Filter([x] + s, p)
  {
    FilterCons(s[0], rest, p);
    FilterCons(x, s[1..], p);
    FilterCons(x, s, p);
  }

  lemma {:induction false} SortNewestIsStable<T>(s: seq<T>, time: T -> int)
    ensures IsStableSort(s, SortNewest(s, time), time)
  {
    if s != [] {
      var rest := SortNewest(s[1..], time);
      SortNewestIsStable(s[1..], time);
      InsertIsStable(s[0], rest, time);
      forall k
        ensures Filter(SortNewest(s, time), At(time, k)) == Filter(s, At(time, k))
      {
        var p := At(time, k);
        FilterConcat([s[0]], rest, p);
        assert s == [s[0]] + s[1..];
        FilterConcat([s[0]], s[1..], p);
        assert Filter(rest, p) == Filter(s[1..], p);
      }
    }
  }

  // A stable sort is a permutation: no element is lost, none is repeated.
  lemma StableSortKeepsElements<T>(s: seq<T>, t: seq<T>, time: T -> int)
    requires IsStableSort(s, t, time)
    ensures multiset(s) == multiset(t)
  {
    forall x: T
      ensures multiset(s)[x] == multiset(t)[x]
    {
      var p := At(time, time(x));
      FilterMultiplicity(s, p, x);
      FilterMultiplicity(t, p, x);
      assert Filter(t, p) == Filter(s, p);
    }
  }

  // There is only one stable sort, so any correct sorting routine returns it.
  lemma {:induction false} StableSortUnique<T>(s: seq<T>, t: seq<T>, u: seq<T>, time: T -> int)
    requires IsStableSort(s, t, time) && IsStableSort(s, u, time)
    ensures t == u
  {
    SameGroupsSameList(t, u, time);
  }

  lemma {:induction false} SameGroupsSameList<T>(t: seq<T>, u: seq<T>, time: T -> int)
    requires Newest(t, time) && Newest(u, time)
    requires forall k {:trigger At(time, k)} :: Filter(t, At(time, k)) == Filter(u, At(time, k))
    ensures t == u
  {
    if t == [] {
    } else {
      var p := At(time, time(t[0]));
      assert Filter(t, p)[0] == t[0];
      assert Filter(u, p) == Filter(t, p);
      FilterMember(u, p, t[0]);
      assert t[0] in Filter(u, p);
      assert u != [];
      var q := At(time, time(u[0]));
      assert Filter(u, q)[0] == u[0];
      assert Filter(t, q) == Filter(u, q);
      FilterMember(t, q, u[0]);
      assert u[0] in t && t[0] in u;
      assert time(t[0]) == time(u[0]);
      assert p == q;
      assert t[0] == u[0];
      forall k
        ensures Filter(t[1..], At(time, k)) == Filter(u[1..], At(time, k))
      {
        var r := At(time, k);
        assert Filter(t, r) == Filter(u, r);
        if r(t[0]) {
          assert Filter(t[1..], r) == Filter(t, r)[1..];
          assert Filter(u[1..], r) == Filter(u, r)[1..];
        }
      }
      SameGroupsSameList(t[1..], u[1..], time);
      assert t == [t[0]] + t[1..] && u == [u[0]] + u[1..];
    }
  }

  lemma {:induction false} MergeMember<T>(a: seq<T>, b: seq<T>, time: T -> int, x: T)
    ensures x in Merge(a, b, time) <==> x in a || x in b
    decreases |a| + |b|
  {
    if a == [] || b == [] {
    } else if time(a[0]) >= time(b[0]) {
      MergeMember(a[1..], b, time, x);
    } else {
      MergeMember(a, b[1..], time, x);
    }
  }

  // Merging two newest-first lists is the stable sort of their concatenation.
  lemma {:induction false} MergeIsStableSort<T>(a: seq<T>, b: seq<T>, time: T -> int)
    requires Newest(a, time) && Newest(b, time)
    ensures IsStableSort(a + b, Merge(a, b, time), time)
    decreases |a| + |b|
  {
    if a == [] {
      assert a + b == b;
    } else if b == [] {
      assert a + b == a;
    } else {
      var fromA := time(a[0]) >= time(b[0]);
      var head := if fromA then a[0] else b[0];
      var rest := if fromA then Merge(a[1..], b, time) else Merge(a, b[1..], time);
      if fromA { MergeIsStableSort(a[1..], b, time); } else { MergeIsStableSort(a, b[1..], time); }
      forall j | 0 <= j < |rest|
        ensures time(head) >= time(rest[j])
      {
        if fromA { MergeMember(a[1..], b, time, rest[j]); } else { MergeMember(a, b[1..], time, rest[j]); }
        assert rest[j] in a || rest[j] in b;
      }
      forall k
        ensures Filter([head] + rest, At(time, k)) == Filter(a + b, At(time, k))
      {
        var p := At(time, k);
        if fromA {
          assert Filter(rest, p) == Filter(a[1..] + b, p);
          MergeFirst(a, b, rest, p);
        } else {
          assert Filter(rest, p) == Filter(a + b[1..], p);
          if p(b[0]) { FilterNone(a, p); }
          MergeSecond(a, b, rest, p);
        }
      }
    }
  }

  // The induction steps of MergeIsStableSort for one time stamp.
  lemma MergeFirst<T>(a: seq<T>, b: seq<T>, rest: seq<T>, p: T -> bool)
    requires a != [] && Filter(rest, p) == Filter(a[1..] + b, p)
    ensures Filter([a[0]] + rest, p) == Filter(a + b, p)
  {
    FilterCons(a[0], rest, p);
    FilterConcat(a[1..], b, p);
    FilterConcat(a, b, p);
  }

  lemma MergeSecond<T>(a: seq<T>, b: seq<T>, rest: seq<T>, p: T -> bool)
    requires b != [] && Filter(rest, p) == Filter(a + b[1..], p)
    requires p(b[0]) ==> Filter(a, p) == []
    ensures Filter([b[0]] + rest, p) == Filter(a + b, p)
  {
    FilterCons(b[0], rest, p);
    FilterConcat(a, b[1..], p);
    FilterConcat(a, b, p);
  }

  // Merging prefixes starts with the same element as merging the whole lists.
  lemma MergeStep<T>(a: seq<T>, b: seq<T>, time: T -> int, ma: nat, mb: nat)
    requires 1 <= ma && 1 <= mb && a != [] && b != []
    ensures Merge(Take(a, ma), Take(b, mb), time)
         == if time(a[0]) >= time(b[0]) then [a[0]] + Merge(Take(a[1..], ma - 1), Take(b, mb), time)
            else [b[0]] + Merge(Take(a, ma), Take(b[1..], mb - 1), time)
  {
    assert Take(a, ma)[1..] == Take(a[1..], ma - 1);
    assert Take(b, mb)[1..] == Take(b[1..], mb - 1);
    assert Take(a, ma)[0] == a[0] && Take(b, mb)[0] == b[0];
  }

  lemma TakeCons<T>(x: T, s: seq<T>, t: seq<T>, n: nat)
    requires n >= 1 && Take(s, n - 1) == Take(t, n - 1)
    ensures Take([x] + s, n) == Take([x] + t, n)
  {
    assert Take([x] + s, n) == [x] + Take(s, n - 1);
    assert Take([x] + t, n) == [x] + Take(t, n - 1);
  }

  // The first n elements of a merge depend only on the first n elements of each list.
  lemma {:induction false} MergePrefix<T>(a: seq<T>, b: seq<T>, time: T -> int, n: nat, ma: nat, mb: nat)
    requires n <= ma && n <= mb
    ensures Take(Merge(a, b, time), n) == Take(Merge(Take(a, ma), Take(b, mb), time), n)
    decreases |a| + |b|
  {
    if n == 0 {
    } else if a == [] || b == [] {
      MergeWithEmpty(a, b, time, n, ma, mb);
    } else {
      MergeStep(a, b, time, ma, mb);
      if time(a[0]) >= time(b[0]) {
        MergePrefix(a[1..], b, time, n - 1, ma - 1, mb);
        TakeCons(a[0], Merge(a[1..], b, time), Merge(Take(a[1..], ma - 1), Take(b, mb), time), n);
      } else {
        MergePrefix(a, b[1..], time, n - 1, ma, mb - 1);
        TakeCons(b[0], Merge(a, b[1..], time), Merge(Take(a, ma), Take(b[1..], mb - 1), time), n);
      }
    }
  }

  lemma MergeWithEmpty<T>(a: seq<T>, b: seq<T>, time: T -> int, n: nat, ma: nat, mb: nat)
    requires n <= ma && n <= mb && (a == [] || b == [])
    ensures Take(Merge(a, b, time), n) == Take(Merge(Take(a, ma), Take(b, mb), time), n)
  {
    assert Take(Take(a, ma), n) == Take(a, n);
    assert Take(Take(b, mb), n) == Take(b, n);
  }

  lemma SortOfNewestLists<T>(a: seq<T>, b: seq<T>, time: T -> int)
    requires Newest(a, time) && Newest(b, time)
    ensures SortNewest(a + b, time) == Merge(a, b, time)
    ensures |SortNewest(a + b, time)| == |a| + |b|
  {
    MergeIsStableSort(a, b, time);
    SortNewestIsStable(a + b, time);
    StableSortUnique(a + b, SortNewest(a + b, time), Merge(a, b, time), time);
    StableSortKeepsElements(a + b, SortNewest(a + b, time), time);
    assert |multiset(a + b)| == |multiset(SortNewest(a + b, time))|;
  }

  lemma SliceOfPrefix<T>(s: seq<T>, t: seq<T>, n: nat, from: nat)
    requires Take(s, n) == Take(t, n) && from <= n
    ensures Slice(s, from, n) == Slice(t, from, n)
  {
    assert Slice(s, from, n) == Slice(Take(s, n), from, n);
    assert Slice(t, from, n) == Slice(Take(t, n), from, n);
  }

  // A window that ends at n can be cut from the sort of the two lists' first n elements.
  lemma PrefixSortIsExact<T>(a: seq<T>, b: seq<T>, time: T -> int, from: nat, n: nat)
    requires Newest(a, time) && Newest(b, time) && from <= n
    ensures Slice(SortNewest(Take(a, n) + Take(b, n), time), from, n) == Slice(SortNewest(a + b, time), from, n)
  {
    SortOfNewestLists(a, b, time);
    SortOfNewestLists(Take(a, n), Take(b, n), time);
    MergePrefix(a, b, time, n, n, n);
    SliceOfPrefix(Merge(Take(a, n), Take(b, n), time), Merge(a, b, time), n, from);
  }
}
