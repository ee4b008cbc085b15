/** Small generic vocabulary shared by every component: optional values and the
    filter/map/count operations the Rust iterators provide. */
module Prelude {

  newtype byte = x: int | 0 <= x < 256

  datatype Option<+T> = None | Some(value: T) {
    function GetOr(default: T): T {
      match this
      case Some(v) => v
      case None => default
    }
  }

  datatype Result<+T> = Ok(value: T) | Err(reason: string)

  function Filter<T>(xs: seq<T>, p: T -> bool): (r: seq<T>)
    ensures |r| <= |xs|
    ensures forall x :: x in r ==> x in xs && p(x)
    ensures forall x :: x in xs && p(x) ==> x in r
  {
    if xs == [] then []
    else if p(xs[0]) then [xs[0]] + Filter(xs[1..], p)
    else Filter(xs[1..], p)
  }

  function MapSeq<T, U>(xs: seq<T>, f: T -> U): (r: seq<U>)
    ensures |r| == |xs|
    ensures forall i :: 0 <= i < |xs| ==> r[i] == f(xs[i])
  {
    seq(|xs|, i requires 0 <= i < |xs| => f(xs[i]))
  }

  function Count<T>(xs: seq<T>, p: T -> bool): nat {
    |Filter(xs, p)|
  }

  function Take<T>(xs: seq<T>, n: nat): seq<T> {
    if n <= |xs| then xs[..n] else xs
  }

  ghost predicate NoDup<T>(xs: seq<T>) {
    forall i, j :: 0 <= i < j < |xs| ==> xs[i] != xs[j]
  }

  /** `order` lists every element of `s` exactly once: one possible iteration
      order of a hash set or hash map. */
  ghost predicate Enumerates<T>(order: seq<T>, s: set<T>) {
    NoDup(order) && (forall x :: x in order ==> x in s) && (forall x :: x in s ==> x in order)
  }

  /** A hash set's elements in some iteration order. */
  method Enumerate<T(==)>(s: set<T>) returns (order: seq<T>)
    ensures Enumerates(order, s)
  {
    order := [];
    var todo := s;
    while todo != {}
      invariant todo <= s && Enumerates(order, s - todo)
      decreases todo
    {
      var x :| x in todo;
      order, todo := order + [x], todo - {x};
    }
  }

  lemma Regroup<T>(a: seq<T>, b: seq<T>, c: seq<T>)
    ensures (a + b) + c == a + (b + c)
  {
  }

  lemma FilterCons<T>(x: T, xs: seq<T>, p: T -> bool)
    ensures Filter([x] + xs, p) == (if p(x) then [x] + Filter(xs, p) else Filter(xs, p))
  {
    assert ([x] + xs)[1..] == xs;
  }

  lemma {:induction false} FilterAppend<T>(xs: seq<T>, ys: seq<T>, p: T -> bool)
    ensures Filter(xs + ys, p) == Filter(xs, p) + Filter(ys, p)
  {
    if xs == [] {
      assert xs + ys == ys;
    } else {
      var x, rest := xs[0], xs[1..];
      FilterAppend(rest, ys, p);
      assert xs == [x] + rest;
      Regroup([x], rest, ys);
      FilterCons(x, rest, p);
      FilterCons(x, rest + ys, p);
      Regroup([x], Filter(rest, p), Filter(ys, p));
    }
  }

  lemma FilterNext<T>(xs: seq<T>, i: nat, p: T -> bool)
    requires i < |xs|
    ensures Filter(xs[..i + 1], p) == (if p(xs[i]) then Filter(xs[..i], p) + [xs[i]] else Filter(xs[..i], p))
  {
    assert xs[..i + 1] == xs[..i] + [xs[i]];
    FilterAppend(xs[..i], [xs[i]], p);
  }

  /** Filtering on `q` first does not disturb a later filter on `p`, when the
      two tests together are `r`. */
  lemma {:induction false} FilterCompose<T>(xs: seq<T>, p: T -> bool, q: T -> bool, r: T -> bool)
    requires forall x :: x in xs ==> r(x) == (p(x) && q(x))
    ensures Filter(Filter(xs, q), p) == Filter(xs, r)
  {
    if xs != [] {
      FilterCompose(xs[1..], p, q, r);
      assert xs[0] in xs && xs == [xs[0]] + xs[1..];
      FilterCons(xs[0], xs[1..], q);
      FilterCons(xs[0], xs[1..], r);
      FilterCons(xs[0], Filter(xs[1..], q), p);
    }
  }

  lemma {:induction false} FilterAgree<T>(xs: seq<T>, p: T -> bool, q: T -> bool)
    requires forall x :: x in xs ==> p(x) == q(x)
    ensures Filter(xs, p) == Filter(xs, q)
  {
    if xs != [] {
      assert xs[0] in xs;
      FilterAgree(xs[1..], p, q);
    }
  }

  lemma {:induction false} FilterAll<T>(xs: seq<T>, p: T -> bool)
    requires forall x :: x in xs ==> p(x)
    ensures Filter(xs, p) == xs
  {
    if xs != [] {
      assert xs[0] in xs;
      FilterAll(xs[1..], p);
    }
  }

  lemma {:induction false} FilterMap<T, U>(xs: seq<T>, f: T -> U, p: U -> bool, q: T -> bool)
    requires forall x :: x in xs ==> p(f(x)) == q(x)
    ensures Filter(MapSeq(xs, f), p) == MapSeq(Filter(xs, q), f)
  {
    if xs != [] {
      assert xs[0] in xs && xs == [xs[0]] + xs[1..];
      FilterMap(xs[1..], f, p, q);
      MapCons(xs[0], xs[1..], f);
      FilterCons(f(xs[0]), MapSeq(xs[1..], f), p);
      FilterCons(xs[0], xs[1..], q);
      MapCons(xs[0], Filter(xs[1..], q), f);
    }
  }

  lemma MapAppend<T, U>(xs: seq<T>, ys: seq<T>, f: T -> U)
    ensures MapSeq(xs + ys, f) == MapSeq(xs, f) + MapSeq(ys, f)
  {
  }

  lemma PushBack<T>(xs: seq<T>, x: T, ys: seq<T>)
    ensures xs + ([x] + ys) == (xs + [x]) + ys
  {
  }

  lemma MapPrefix<T, U>(xs: seq<T>, f: T -> U, n: nat)
    requires n <= |xs|
    ensures MapSeq(xs, f)[..n] == MapSeq(xs[..n], f)
  {
  }

  lemma FilterMultiset<T(!new)>(xs: seq<T>, ys: seq<T>, p: T -> bool)
    requires multiset(xs) == multiset(ys)
    ensures multiset(Filter(xs, p)) == multiset(Filter(ys, p))
  {
    var left, right := multiset(Filter(xs, p)), multiset(Filter(ys, p));
    forall x: T ensures left[x] == right[x] {
      FilterMultiplicity(xs, p, x);
      FilterMultiplicity(ys, p, x);
    }
    assert left == right;
  }

  lemma {:induction false} FilterMultiplicity<T>(xs: seq<T>, p: T -> bool, x: T)
    ensures multiset(Filter(xs, p))[x] == if p(x) then multiset(xs)[x] else 0
  {
    if xs != [] {
      FilterMultiplicity(xs[1..], p, x);
      var rest := Filter(xs[1..], p);
      assert xs == [xs[0]] + xs[1..];
      FilterCons(xs[0], xs[1..], p);
      assert multiset([xs[0]] + xs[1..]) == multiset{xs[0]} + multiset(xs[1..]);
      assert multiset([xs[0]] + rest) == multiset{xs[0]} + multiset(rest);
    }
  }

  lemma CountMultiset<T(!new)>(xs: seq<T>, ys: seq<T>, p: T -> bool)
    requires multiset(xs) == multiset(ys)
    ensures Count(xs, p) == Count(ys, p)
  {
    FilterMultiset(xs, ys, p);
    assert |multiset(Filter(xs, p))| == |multiset(Filter(ys, p))|;
  }

  lemma SameElements<T>(xs: seq<T>, ys: seq<T>, x: T)
    requires multiset(xs) == multiset(ys)
    ensures x in xs <==> x in ys
  {
    assert x in multiset(xs) <==> x in multiset(ys);
  }

  /** A duplicate-free listing of a finite set is as long as the set. */
  lemma {:induction false} EnumerationLength<T>(order: seq<T>, s: set<T>)
    requires Enumerates(order, s)
    ensures |order| == |s|
  {
    if order == [] {
      assert s == {};
    } else {
      var rest := s - {order[0]};
      forall x ensures x in order[1..] <==> x in rest {
        assert order == [order[0]] + order[1..];
      }
      EnumerationLength(order[1..], rest);
    }
  }

  lemma {:induction false} FilterNoDup<T>(xs: seq<T>, p: T -> bool)
    requires NoDup(xs)
    ensures NoDup(Filter(xs, p))
  {
    if xs != [] {
      FilterNoDup(xs[1..], p);
      assert xs[0] !in xs[1..];
      assert xs[0] !in Filter(xs[1..], p);
    }
  }

  lemma {:induction false} NoDupMultiplicity<T>(xs: seq<T>, x: T)
    requires NoDup(xs)
    ensures multiset(xs)[x] == if x in xs then 1 else 0
  {
    if xs != [] {
      assert xs[0] !in xs[1..];
      NoDupMultiplicity(xs[1..], x);
      assert xs == [xs[0]] + xs[1..];
    }
  }

  lemma OccursTwice<T>(xs: seq<T>, i: nat, j: nat)
    requires i < j < |xs|
    ensures xs[i] == xs[j] ==> multiset(xs)[xs[i]] >= 2
  {
    assert xs == xs[..i] + [xs[i]] + xs[i + 1..j] + [xs[j]] + xs[j + 1..];
  }

  lemma PermutationNoDup<T>(xs: seq<T>, ys: seq<T>)
    requires NoDup(xs) && multiset(xs) == multiset(ys)
    ensures NoDup(ys)
  {
    forall i, j | 0 <= i < j < |ys| ensures ys[i] != ys[j] {
      NoDupMultiplicity(xs, ys[i]);
      OccursTwice(ys, i, j);
    }
  }

  lemma EnumerationsSameMultiset<T(!new)>(xs: seq<T>, ys: seq<T>, s: set<T>)
    requires Enumerates(xs, s) && Enumerates(ys, s)
    ensures multiset(xs) == multiset(ys)
  {
    var left, right := multiset(xs), multiset(ys);
    forall x: T ensures left[x] == right[x] {
      NoDupMultiplicity(xs, x);
      NoDupMultiplicity(ys, x);
    }
    assert left == right;
  }

  lemma MapCons<T, U>(x: T, xs: seq<T>, f: T -> U)
    ensures MapSeq([x] + xs, f) == [f(x)] + MapSeq(xs, f)
  {
  }

  lemma {:induction false} FilterFewer<T>(xs: seq<T>, p: T -> bool)
    requires exists x :: x in xs && !p(x)
    ensures |Filter(xs, p)| < |xs|
  {
    if p(xs[0]) {
      var x :| x in xs && !p(x);
      assert x in xs[1..];
      FilterFewer(xs[1..], p);
    }
  }

  lemma {:induction false} FilterNone<T>(xs: seq<T>, p: T -> bool)
    requires forall x :: x in xs ==> !p(x)
    ensures Filter(xs, p) == []
  {
    if xs != [] {
      assert xs[0] in xs;
      FilterNone(xs[1..], p);
    }
  }

  // ---------------------------------------------------------------- splitting

  /** The parts between separators, one more than there are separators. */
  function Split<T(==)>(s: seq<T>, at: T): (parts: seq<seq<T>>)
    ensures |parts| >= 1
  {
    if s == [] then [[]]
    else if s[0] == at then [[]] + Split(s[1..], at)
    else
      var rest := Split(s[1..], at);
      [[s[0]] + rest[0]] + rest[1..]
  }

  lemma {:induction false} SplitFree<T>(s: seq<T>, at: T)
    requires at !in s
    ensures Split(s, at) == [s]
  {
    if s != [] {
      SplitFree(s[1..], at);
      assert [s[0]] + s[1..] == s;
    }
  }

  lemma {:induction false} SplitParts<T>(s: seq<T>, at: T)
    ensures forall part :: part in Split(s, at) ==> at !in part
  {
    if s != [] {
      SplitParts(s[1..], at);
      var rest := Split(s[1..], at);
      assert rest[0] in rest;
    }
  }

  lemma JoinParts<T>(x: seq<T>, y: seq<T>)
    requires |x| >= 1
    ensures (x + y)[0] == x[0] && (x + y)[1..] == x[1..] + y
  {
  }

  /** Splitting at the seams: joining two texts with a separator joins their parts. */
  lemma {:induction false} SplitJoin<T>(a: seq<T>, b: seq<T>, at: T)
    ensures Split(a + [at] + b, at) == Split(a, at) + Split(b, at)
  {
    var s := a + [at] + b;
    if a == [] {
      assert s[1..] == b;
    } else {
      SplitJoin(a[1..], b, at);
      assert s[0] == a[0] && s[1..] == a[1..] + [at] + b;
      JoinParts(Split(a[1..], at), Split(b, at));
      if a[0] == at {
        Regroup([[]], Split(a[1..], at), Split(b, at));
      } else {
        Regroup([[a[0]] + Split(a[1..], at)[0]], Split(a[1..], at)[1..], Split(b, at));
      }
    }
  }
}
