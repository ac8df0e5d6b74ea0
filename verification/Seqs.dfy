// Sequence helpers shared by every module: prefixes, filters, maps, sums and sizes.
module Seqs {

  datatype Option<+T> = None | Some(value: T) {
    function GetOr(default: T): T {
      if Some? then value else default
    }

    // The source's `a ?? b` between two optional values.
    function OrElse(other: Option<T>): Option<T> {
      if Some? then this else other
    }
  }

  // The outcome of a request: a value, or the exception it ends with.
  datatype Result<+T, +E> = Ok(value: T) | Err(error: E)

  // A patch field of a request body: left out, sent as null, or sent with a value.
  datatype Patch<+T> = Keep | Clear | Put(value: T) {
    function Apply(current: Option<T>): Option<T> {
      match this
      case Keep => current
      case Clear => None
      case Put(v) => Some(v)
    }
  }

  // A field that is replaced when something is sent for it, and else stays.
  predicate Replaces<A(==)>(sent: Option<A>, before: A, after: A) {
    if sent.Some? then after == sent.value else after == before
  }

  predicate ReplacesOption<A(==)>(sent: Option<A>, before: Option<A>, after: Option<A>) {
    if sent.Some? then after == sent else after == before
  }

  // A field a value is put in, null clears, and nothing keeps.
  predicate Patches<A(==)>(sent: Patch<A>, before: Option<A>, after: Option<A>) {
    match sent
    case Keep => after == before
    case Clear => after == None
    case Put(value) => after == Some(value)
  }

  // An optional text the source tests by truthiness: present and not empty.
  predicate Given(o: Option<string>) {
    o.Some? && o.value != ""
  }

  function Min(a: int, b: int): int {
    if a <= b then a else b
  }

  function Max(a: int, b: int): int {
    if a >= b then a else b
  }

  // The first n elements, or all of them when there are fewer.
  function Take<T>(s: seq<T>, n: nat): seq<T> {
    if n <= |s| then s[..n] else s
  }

  // JavaScript's s.slice(from, to) for 0 <= from <= to.
  function Slice<T>(s: seq<T>, from: nat, to: nat): seq<T>
    requires from <= to
  {
    s[Min(from, |s|)..Min(to, |s|)]
  }

  function Filter<T>(s: seq<T>, p: T -> bool): seq<T> {
    if s == [] then []
    else if p(s[0]) then [s[0]] + Filter(s[1..], p)
    else Filter(s[1..], p)
  }

  function Map<T, U>(s: seq<T>, f: T -> U): (r: seq<U>)
    ensures |r| == |s|
    ensures forall i :: 0 <= i < |s| ==> r[i] == f(s[i])
  {
    seq(|s|, i requires 0 <= i < |s| => f(s[i]))
  }

  function Sum<T>(s: seq<T>, f: T -> int): int {
    if s == [] then 0 else f(s[0]) + Sum(s[1..], f)
  }

  // The position of the first element satisfying p, or |s|.
  function IndexOf<T>(s: seq<T>, p: T -> bool): (i: nat)
    ensures i <= |s|
    ensures i < |s| ==> p(s[i])
    ensures forall j :: 0 <= j < i ==> !p(s[j])
  {
    if s == [] then 0
    else if p(s[0]) then 0
    else 1 + IndexOf(s[1..], p)
  }

  function FindFirst<T>(s: seq<T>, p: T -> bool): (r: Option<T>)
    ensures r.Some? ==> r.value in s && p(r.value)
    ensures r.None? ==> forall x :: x in s ==> !p(x)
  {
    var i := IndexOf(s, p);
    if i < |s| then Some(s[i]) else None
  }

  ghost predicate NoDuplicates<T>(s: seq<T>) {
    forall i, j :: 0 <= i < j < |s| ==> s[i] != s[j]
  }

  lemma {:induction false} FilterMember<T>(s: seq<T>, p: T -> bool, x: T)
    ensures x in Filter(s, p) <==> x in s && p(x)
  {
    if s != [] {
      FilterMember(s[1..], p, x);
    }
  }

  lemma {:induction false} FilterConcat<T>(a: seq<T>, b: seq<T>, p: T -> bool)
    ensures Filter(a + b, p) == Filter(a, p) + Filter(b, p)
  {
    if a == [] {
      assert a + b == b;
    } else {
      assert (a + b)[1..] == a[1..] + b;
      FilterConcat(a[1..], b, p);
    }
  }

  lemma FilterCons<T>(x: T, s: seq<T>, p: T -> bool)
    ensures Filter([x] + s, p) == (if p(x) then [x] else []) + Filter(s, p)
  {
    assert ([x] + s)[1..] == s;
  }

  lemma {:induction false} FilterNone<T>(s: seq<T>, p: T -> bool)
    requires forall x :: x in s ==> !p(x)
    ensures Filter(s, p) == []
  {
    if s != [] {
      FilterNone(s[1..], p);
    }
  }

  // Two predicates that agree on the elements of s select the same elements.
  lemma {:induction false} FilterAgree<T>(s: seq<T>, p: T -> bool, q: T -> bool)
    requires forall x :: x in s ==> p(x) == q(x)
    ensures Filter(s, p) == Filter(s, q)
  {
    if s != [] {
      FilterAgree(s[1..], p, q);
    }
  }

  lemma {:induction false} FilterMultiplicity<T>(s: seq<T>, p: T -> bool, x: T)
    ensures multiset(Filter(s, p))[x] == if p(x) then multiset(s)[x] else 0
  {
    if s != [] {
      FilterMultiplicity(s[1..], p, x);
      assert s == [s[0]] + s[1..];
    }
  }

  // A filter keeps elements in their order, so it keeps distinctness of any key.
  lemma {:induction false} FilterKeepsDistinct<T, K>(s: seq<T>, p: T -> bool, key: T -> K)
    requires NoDuplicates(Map(s, key))
    ensures NoDuplicates(Map(Filter(s, p), key))
  {
    if s != [] {
      var rest := Map(s[1..], key);
      assert forall i :: 0 <= i < |rest| ==> rest[i] == Map(s, key)[i + 1];
      FilterKeepsDistinct(s[1..], p, key);
      if p(s[0]) {
        var kept := Filter(s[1..], p);
        forall i | 0 <= i < |kept|
          ensures key(kept[i]) != key(s[0])
        {
          FilterMember(s[1..], p, kept[i]);
          var j :| 0 <= j < |s[1..]| && s[1..][j] == kept[i];
          assert Map(s, key)[0] != Map(s, key)[j + 1];
        }
      }
    }
  }

  lemma {:induction false} SumConcat<T>(a: seq<T>, b: seq<T>, f: T -> int)
    ensures Sum(a + b, f) == Sum(a, f) + Sum(b, f)
  {
    if a == [] {
      assert a + b == b;
    } else {
      assert (a + b)[1..] == a[1..] + b;
      SumConcat(a[1..], b, f);
    }
  }

  lemma {:induction false} SumNonNegative<T>(s: seq<T>, f: T -> int)
    requires forall x :: x in s ==> f(x) >= 0
    ensures Sum(s, f) >= 0
  {
    if s != [] {
      SumNonNegative(s[1..], f);
    }
  }

  // Splitting a sequence by a predicate splits its sum.
  lemma {:induction false} SumSplit<T>(s: seq<T>, p: T -> bool, q: T -> bool, f: T -> int)
    requires forall x :: x in s ==> q(x) == !p(x)
    ensures Sum(s, f) == Sum(Filter(s, p), f) + Sum(Filter(s, q), f)
  {
    if s != [] {
      SumSplit(s[1..], p, q, f);
      if p(s[0]) {
        assert ([s[0]] + Filter(s[1..], p))[1..] == Filter(s[1..], p);
      } else {
        assert ([s[0]] + Filter(s[1..], q))[1..] == Filter(s[1..], q);
      }
    }
  }

  lemma SubsetSize<T>(a: set<T>, b: set<T>)
    requires a <= b
    ensures |a| <= |b|
  {
    assert b == a + (b - a);
  }
}
