/** Rust's `slice::sort_by` and JavaScript's `Array.prototype.sort`: a stable
    sort under a total preorder. `Sort` is one way to compute it;
    `StableSortUnique` shows that stability leaves no other answer. */
module StableSort {
  import opened Prelude

  ghost predicate TotalPreorder<T(!new)>(le: (T, T) -> bool) {
    && (forall a, b :: le(a, b) || le(b, a))
    && (forall a, b, c :: le(a, b) && le(b, c) ==> le(a, c))
  }

  ghost predicate Sorted<T>(xs: seq<T>, le: (T, T) -> bool) {
    forall i, j :: 0 <= i < j < |xs| ==> le(xs[i], xs[j])
  }

  function Insert<T>(x: T, xs: seq<T>, le: (T, T) -> bool): (r: seq<T>)
    ensures |r| == |xs| + 1
    ensures multiset(r) == multiset(xs) + multiset{x}
  {
    if xs == [] || le(x, xs[0]) then [x] + xs
    else
      assert xs == [xs[0]] + xs[1..];
      [xs[0]] + Insert(x, xs[1..], le)
  }

  function Sort<T>(xs: seq<T>, le: (T, T) -> bool): (r: seq<T>)
    ensures |r| == |xs|
    ensures multiset(r) == multiset(xs)
  {
    if xs == [] then []
    else
      assert xs == [xs[0]] + xs[1..];
      Insert(xs[0], Sort(xs[1..], le), le)
  }

  lemma SortElements<T>(xs: seq<T>, le: (T, T) -> bool)
    ensures forall x :: x in Sort(xs, le) <==> x in xs
  {
    forall x ensures x in Sort(xs, le) <==> x in xs {
      SameElements(Sort(xs, le), xs, x);
    }
  }

  lemma SortNoDup<T>(xs: seq<T>, le: (T, T) -> bool)
    requires NoDup(xs)
    ensures NoDup(Sort(xs, le))
  {
    PermutationNoDup(xs, Sort(xs, le));
  }

  lemma {:induction false} InsertSorted<T(!new)>(x: T, xs: seq<T>, le: (T, T) -> bool)
    requires TotalPreorder(le) && Sorted(xs, le)
    ensures Sorted(Insert(x, xs, le), le)
  {
    if xs == [] || le(x, xs[0]) {
    } else {
      InsertSorted(x, xs[1..], le);
      var r := Insert(x, xs[1..], le);
      forall y | y in r ensures le(xs[0], y) {
        assert y in multiset(xs[1..]) + multiset{x} by { assert y in multiset(r); }
      }
    }
  }

  lemma {:induction false} SortSorted<T(!new)>(xs: seq<T>, le: (T, T) -> bool)
    requires TotalPreorder(le)
    ensures Sorted(Sort(xs, le), le)
  {
    if xs != [] {
      SortSorted(xs[1..], le);
      InsertSorted(xs[0], Sort(xs[1..], le), le);
    }
  }

  lemma InsertFront<T>(x: T, xs: seq<T>, le: (T, T) -> bool)
    requires forall y :: y in xs ==> le(x, y)
    ensures Insert(x, xs, le) == [x] + xs
  {
    assert xs != [] ==> xs[0] in xs;
  }

  lemma {:induction false} SortOfSorted<T>(xs: seq<T>, le: (T, T) -> bool)
    requires Sorted(xs, le)
    ensures Sort(xs, le) == xs
  {
    if xs != [] {
      SortOfSorted(xs[1..], le);
      InsertFront(xs[0], xs[1..], le);
      assert xs == [xs[0]] + xs[1..];
    }
  }

  lemma {:induction false} InsertFilter<T(!new)>(x: T, xs: seq<T>, le: (T, T) -> bool, p: T -> bool)
    requires TotalPreorder(le) && Sorted(xs, le)
    ensures Filter(Insert(x, xs, le), p)
         == if p(x) then Insert(x, Filter(xs, p), le) else Filter(xs, p)
  {
    if xs == [] || le(x, xs[0]) {
      FilterAppend([x], xs, p);
      if p(x) {
        forall y | y in Filter(xs, p) ensures le(x, y) {
          assert y in xs;
        }
        InsertFront(x, Filter(xs, p), le);
      }
    } else {
      InsertFilter(x, xs[1..], le, p);
      FilterAppend([xs[0]], Insert(x, xs[1..], le), p);
      assert xs == [xs[0]] + xs[1..];
    }
  }

  /** Sorting commutes with filtering. */
  lemma {:induction false} SortFilter<T(!new)>(xs: seq<T>, le: (T, T) -> bool, p: T -> bool)
    requires TotalPreorder(le)
    ensures Filter(Sort(xs, le), p) == Sort(Filter(xs, p), le)
  {
    if xs != [] {
      SortFilter(xs[1..], le, p);
      SortSorted(xs[1..], le);
      InsertFilter(xs[0], Sort(xs[1..], le), le, p);
    }
  }

  lemma {:induction false} InsertMap<T, U>(x: T, xs: seq<T>, f: T -> U, le: (T, T) -> bool, le': (U, U) -> bool)
    requires forall y :: y in xs ==> le(x, y) == le'(f(x), f(y))
    ensures MapSeq(Insert(x, xs, le), f) == Insert(f(x), MapSeq(xs, f), le')
  {
    if xs == [] {
    } else {
      assert xs[0] in xs && xs == [xs[0]] + xs[1..];
      if le(x, xs[0]) {
        MapCons(x, xs, f);
      } else {
        InsertMap(x, xs[1..], f, le, le');
        MapCons(xs[0], Insert(x, xs[1..], le), f);
        MapCons(xs[0], xs[1..], f);
        assert MapSeq(xs, f)[1..] == MapSeq(xs[1..], f);
      }
    }
  }

  lemma {:induction false} InsertMapMultiset<T, U>(x: T, xs: seq<T>, le: (T, T) -> bool, f: T -> U)
    ensures multiset(MapSeq(Insert(x, xs, le), f)) == multiset(MapSeq(xs, f)) + multiset{f(x)}
  {
    if xs == [] || le(x, xs[0]) {
      MapCons(x, xs, f);
    } else {
      assert xs == [xs[0]] + xs[1..];
      InsertMapMultiset(x, xs[1..], le, f);
      MapCons(xs[0], xs[1..], f);
      MapCons(xs[0], Insert(x, xs[1..], le), f);
    }
  }

  /** Any projection of the sorted items is a permutation of that of the input. */
  lemma {:induction false} SortMapMultiset<T, U>(xs: seq<T>, le: (T, T) -> bool, f: T -> U)
    ensures multiset(MapSeq(Sort(xs, le), f)) == multiset(MapSeq(xs, f))
  {
    if xs != [] {
      assert xs == [xs[0]] + xs[1..];
      SortMapMultiset(xs[1..], le, f);
      InsertMapMultiset(xs[0], Sort(xs[1..], le), le, f);
      MapCons(xs[0], xs[1..], f);
    }
  }

  ghost predicate SameOrder<T, U>(xs: seq<T>, f: T -> U, le: (T, T) -> bool, le': (U, U) -> bool) {
    forall i, j :: 0 <= i < |xs| && 0 <= j < |xs| ==> le(xs[i], xs[j]) == le'(f(xs[i]), f(xs[j]))
  }

  /** Sorting commutes with a map that preserves the comparison. */
  lemma {:induction false} SortMap<T, U>(xs: seq<T>, f: T -> U, le: (T, T) -> bool, le': (U, U) -> bool)
    requires SameOrder(xs, f, le, le')
    ensures MapSeq(Sort(xs, le), f) == Sort(MapSeq(xs, f), le')
  {
    if xs != [] {
      var rest := xs[1..];
      assert MapSeq(xs, f)[1..] == MapSeq(rest, f);
      SortMap(rest, f, le, le');
      forall y | y in Sort(rest, le) ensures le(xs[0], y) == le'(f(xs[0]), f(y)) {
        SameElements(Sort(rest, le), rest, y);
        var j :| 0 <= j < |rest| && rest[j] == y;
        assert xs[j + 1] == y;
      }
      InsertMap(xs[0], Sort(rest, le), f, le, le');
    }
  }

  function Tie<T>(le: (T, T) -> bool, k: T): T -> bool {
    x => le(x, k) && le(k, x)
  }

  function Ties<T>(xs: seq<T>, le: (T, T) -> bool, k: T): seq<T> {
    Filter(xs, Tie(le, k))
  }

  /** `ys` keeps every class of equivalent elements in the order `xs` had. */
  ghost predicate KeepsTies<T(!new)>(xs: seq<T>, ys: seq<T>, le: (T, T) -> bool) {
    forall k: T :: Ties(ys, le, k) == Ties(xs, le, k)
  }

  lemma SortedFirst<T>(xs: seq<T>, le: (T, T) -> bool, y: T)
    requires xs != [] && Sorted(xs, le) && y in xs && le(y, y)
    ensures le(xs[0], y)
  {
  }

  lemma DropFirst<T>(xs: seq<T>, ys: seq<T>)
    requires xs != [] && ys != [] && xs[0] == ys[0] && multiset(xs) == multiset(ys)
    ensures multiset(xs[1..]) == multiset(ys[1..])
  {
    assert xs == [xs[0]] + xs[1..] && ys == [ys[0]] + ys[1..];
    assert multiset(xs[1..]) == multiset(xs) - multiset{xs[0]};
    assert multiset(ys[1..]) == multiset(ys) - multiset{xs[0]};
  }

  lemma {:induction false} SortedSameTies<T(!new)>(xs: seq<T>, ys: seq<T>, le: (T, T) -> bool)
    requires TotalPreorder(le) && Sorted(xs, le) && Sorted(ys, le)
    requires multiset(xs) == multiset(ys) && KeepsTies(xs, ys, le)
    ensures xs == ys
  {
    assert |xs| == |multiset(xs)| == |multiset(ys)| == |ys|;
    if xs != [] {
      var k := xs[0];
      SameElements(xs, ys, k);
      SameElements(xs, ys, ys[0]);
      assert le(k, k) && le(ys[0], ys[0]);
      SortedFirst(ys, le, k);
      SortedFirst(xs, le, ys[0]);
      assert Ties(ys, le, k) == Ties(xs, le, k);
      assert Ties(xs, le, k)[0] == k && Ties(ys, le, k)[0] == ys[0];
      DropFirst(xs, ys);
      forall j: T ensures Ties(ys[1..], le, j) == Ties(xs[1..], le, j) {
        assert Ties(ys, le, j) == Ties(xs, le, j);
        if Tie(le, j)(k) {
          assert Ties(ys[1..], le, j) == Ties(ys, le, j)[1..];
          assert Ties(xs[1..], le, j) == Ties(xs, le, j)[1..];
        }
      }
      SortedSameTies(xs[1..], ys[1..], le);
    }
  }

  /** The result of a stable sort is unique: any sorted permutation that keeps
      ties in order is `Sort(xs, le)`. */
  lemma StableSortUnique<T(!new)>(xs: seq<T>, ys: seq<T>, le: (T, T) -> bool)
    requires TotalPreorder(le)
    requires Sorted(ys, le) && multiset(ys) == multiset(xs) && KeepsTies(xs, ys, le)
    ensures ys == Sort(xs, le)
  {
    var zs := Sort(xs, le);
    SortSorted(xs, le);
    forall k: T ensures Ties(ys, le, k) == Ties(zs, le, k) {
      SortKeepsTies(xs, le, k);
      assert Ties(ys, le, k) == Ties(xs, le, k);
    }
    SortedSameTies(zs, ys, le);
  }

  lemma SortKeepsTies<T(!new)>(xs: seq<T>, le: (T, T) -> bool, k: T)
    requires TotalPreorder(le)
    ensures Ties(Sort(xs, le), le, k) == Ties(xs, le, k)
  {
    var same := Ties(xs, le, k);
    SortFilter(xs, le, Tie(le, k));
    forall i, j | 0 <= i < j < |same| ensures le(same[i], same[j]) {
      assert same[i] in same && same[j] in same;
    }
    SortOfSorted(same, le);
  }

  ghost predicate Antisymmetric<T(!new)>(s: set<T>, le: (T, T) -> bool) {
    forall x, y :: x in s && y in s && le(x, y) && le(y, x) ==> x == y
  }

  /** When equivalent elements are equal, sorting forgets the input order. */
  lemma SortCanonical<T(!new)>(xs: seq<T>, ys: seq<T>, le: (T, T) -> bool)
    requires TotalPreorder(le)
    requires multiset(xs) == multiset(ys)
    requires Antisymmetric((set x | x in xs), le)
    ensures Sort(xs, le) == Sort(ys, le)
  {
    SortSorted(xs, le);
    SortSorted(ys, le);
    SortElements(xs, le);
    SortedUnique(Sort(xs, le), Sort(ys, le), le, (set x | x in xs));
  }

  lemma {:induction false} SortedUnique<T(!new)>(xs: seq<T>, ys: seq<T>, le: (T, T) -> bool, s: set<T>)
    requires TotalPreorder(le) && Sorted(xs, le) && Sorted(ys, le) && multiset(xs) == multiset(ys)
    requires (forall x :: x in xs ==> x in s) && Antisymmetric(s, le)
    ensures xs == ys
  {
    assert |xs| == |multiset(xs)| == |multiset(ys)| == |ys|;
    if xs != [] {
      SameElements(xs, ys, xs[0]);
      SameElements(xs, ys, ys[0]);
      assert le(xs[0], xs[0]) && le(ys[0], ys[0]);
      SortedFirst(ys, le, xs[0]);
      SortedFirst(xs, le, ys[0]);
      DropFirst(xs, ys);
      SortedUnique(xs[1..], ys[1..], le, s);
    }
  }
}
