/** The stable sort by a text key, and when its answer is independent of the
    order the elements came in. */
module Sorting {
  import opened Options

  /** JavaScript's `<` on strings of the basic plane. */
  predicate Less(a: string, b: string) {
    b != "" && (a == "" || a[0] < b[0] || (a[0] == b[0] && Less(a[1..], b[1..])))
  }

  /** The order of strings, character by character: `a` is a proper prefix of `b`, or they
      first differ in a character that is less in `a`. */
  ghost predicate Before(a: string, b: string) {
    (|a| < |b| && b[..|a|] == a) || exists k :: DiffersAt(a, b, k)
  }

  predicate DiffersAt(a: string, b: string, k: int) { 0 <= k < |a| && k < |b| && a[..k] == b[..k] && a[k] < b[k] }

  lemma {:induction false} LessIsBefore(a: string, b: string)
    ensures Less(a, b) <==> Before(a, b)
    decreases |a|
  {
    if a != "" && b != "" && a[0] == b[0] {
      LessIsBefore(a[1..], b[1..]);
      TailBefore(a, b);
    } else if a != "" && b != "" && a[0] < b[0] {
      assert DiffersAt(a, b, 0);
    } else if a != "" && b != "" && Before(a, b) {
      FirstNotGreater(a, b);
    }
  }

  lemma FirstNotGreater(a: string, b: string)
    requires Before(a, b) && a != "" && b != ""
    ensures a[0] <= b[0]
  {
    if |a| < |b| && b[..|a|] == a {
      assert a[0] == b[..|a|][0];
    } else {
      var k :| DiffersAt(a, b, k);
      if k > 0 { assert a[..k][0] == b[..k][0]; }
    }
  }

  /** Behind a common first character the order is that of the rest. */
  lemma TailBefore(a: string, b: string)
    requires a != "" && b != "" && a[0] == b[0]
    ensures Before(a, b) <==> Before(a[1..], b[1..])
  {
    if |a| < |b| {
      assert b[..|a|] == [b[0]] + b[1..][..|a| - 1] && a == [a[0]] + a[1..];
    }
    forall k | DiffersAt(a, b, k) ensures DiffersAt(a[1..], b[1..], k - 1) {
      if k > 0 { assert a[1..][..k - 1] == a[..k][1..] && b[1..][..k - 1] == b[..k][1..]; }
    }
    forall k | DiffersAt(a[1..], b[1..], k) ensures DiffersAt(a, b, k + 1) {
      assert a[..k + 1] == [a[0]] + a[1..][..k] && b[..k + 1] == [b[0]] + b[1..][..k];
    }
  }

  lemma {:induction false} LessTotal(a: string, b: string)
    ensures Less(a, b) || Less(b, a) || a == b
    ensures !(Less(a, b) && Less(b, a))
    ensures !Less(a, a)
  {
    if a != "" { LessTotal(a[1..], a[1..]); }
    if a != "" && b != "" { LessTotal(a[1..], b[1..]); }
  }

  lemma {:induction false} LessTransitive(a: string, b: string, c: string)
    requires !Less(b, a) && !Less(c, b)
    ensures !Less(c, a)
  {
    if a != "" && b != "" && c != "" && a[0] == b[0] == c[0] { LessTransitive(a[1..], b[1..], c[1..]); }
  }

  /** After every element whose key is not greater. */
  function Insert<T>(key: T -> string, xs: seq<T>, x: T): seq<T> {
    if xs == [] then [x]
    else if Less(key(x), key(xs[0])) then [x] + xs
    else [xs[0]] + Insert(key, xs[1..], x)
  }

  function Sort<T>(key: T -> string, xs: seq<T>): seq<T> {
    if xs == [] then [] else Insert(key, Sort(key, xs[..|xs| - 1]), xs[|xs| - 1])
  }

  ghost predicate Sorted<T>(key: T -> string, xs: seq<T>) {
    forall i, j | 0 <= i < j < |xs| :: !Less(key(xs[j]), key(xs[i]))
  }

  lemma {:induction false} InsertAdds<T>(key: T -> string, xs: seq<T>, x: T)
    ensures multiset(Insert(key, xs, x)) == multiset(xs) + multiset{x}
  {
    if xs != [] {
      assert xs == [xs[0]] + xs[1..];
      if !Less(key(x), key(xs[0])) { InsertAdds(key, xs[1..], x); }
    }
  }

  /** Something not greater than all of a sorted list may go in front of it. */
  lemma FrontSorted<T>(key: T -> string, x: T, xs: seq<T>)
    requires Sorted(key, xs) && forall y | y in xs :: !Less(key(y), key(x))
    ensures Sorted(key, [x] + xs)
  {
  }

  lemma {:induction false} InsertSorts<T>(key: T -> string, xs: seq<T>, x: T)
    requires Sorted(key, xs)
    ensures Sorted(key, Insert(key, xs, x))
    ensures multiset(Insert(key, xs, x)) == multiset(xs) + multiset{x}
  {
    InsertAdds(key, xs, x);
    if xs != [] {
      LessTotal(key(x), key(xs[0]));
      if Less(key(x), key(xs[0])) {
        forall y | y in xs ensures !Less(key(y), key(x)) {
          LessTotal(key(xs[0]), key(xs[0]));
          LessTransitive(key(x), key(xs[0]), key(y));
        }
        FrontSorted(key, x, xs);
      } else {
        InsertSorts(key, xs[1..], x);
        InsertAdds(key, xs[1..], x);
        var r := Insert(key, xs[1..], x);
        forall y | y in r ensures !Less(key(y), key(xs[0])) {
          assert y in multiset(r);
          assert y == x || y in xs[1..];
        }
        FrontSorted(key, xs[0], r);
      }
    }
  }

  lemma {:induction false} SortSorts<T>(key: T -> string, xs: seq<T>)
    ensures Sorted(key, Sort(key, xs))
    ensures multiset(Sort(key, xs)) == multiset(xs)
    ensures |Sort(key, xs)| == |xs|
  {
    if xs != [] {
      SortSorts(key, xs[..|xs| - 1]);
      InsertSorts(key, Sort(key, xs[..|xs| - 1]), xs[|xs| - 1]);
      assert xs == xs[..|xs| - 1] + [xs[|xs| - 1]];
    }
    SameSize(Sort(key, xs), xs);
  }

  lemma SameSize<T>(xs: seq<T>, ys: seq<T>)
    requires multiset(xs) == multiset(ys)
    ensures |xs| == |ys| && forall x :: x in xs <==> x in ys
  {
    assert |multiset(xs)| == |xs| && |multiset(ys)| == |ys|;
    forall x ensures x in xs <==> x in ys {
      assert x in xs <==> x in multiset(xs);
      assert x in ys <==> x in multiset(ys);
    }
  }

  /** Elements that share a key are the same element. */
  ghost predicate Unambiguous<T(!new)>(key: T -> string, xs: seq<T>) {
    forall x, y | x in xs && y in xs && key(x) == key(y) :: x == y
  }

  lemma SameFirst<T(!new)>(key: T -> string, xs: seq<T>, ys: seq<T>)
    requires Sorted(key, xs) && Sorted(key, ys) && Unambiguous(key, xs)
    requires xs != [] && ys != [] && xs[0] in ys && ys[0] in xs
    ensures xs[0] == ys[0]
  {
    var i :| 0 <= i < |ys| && ys[i] == xs[0];
    var j :| 0 <= j < |xs| && xs[j] == ys[0];
    LessTotal(key(xs[0]), key(ys[0]));
    assert xs[0] in xs;
  }

  lemma DropFirst<T>(xs: seq<T>)
    requires xs != []
    ensures multiset(xs[1..]) == multiset(xs) - multiset{xs[0]}
  {
    assert xs == [xs[0]] + xs[1..];
  }

  /** Two sorted arrangements of the same unambiguous elements are one. */
  lemma {:induction false} SortedUnique<T(!new)>(key: T -> string, xs: seq<T>, ys: seq<T>)
    requires Sorted(key, xs) && Sorted(key, ys) && multiset(xs) == multiset(ys) && Unambiguous(key, xs)
    ensures xs == ys
  {
    SameSize(xs, ys);
    if xs != [] {
      assert xs[0] in xs && ys[0] in ys;
      SameFirst(key, xs, ys);
      DropFirst(xs);
      DropFirst(ys);
      SortedUnique(key, xs[1..], ys[1..]);
    }
  }

  lemma SortDetermined<T(!new)>(key: T -> string, xs: seq<T>, ys: seq<T>)
    requires multiset(xs) == multiset(ys) && Unambiguous(key, xs)
    ensures Sort(key, xs) == Sort(key, ys)
  {
    SortSorts(key, xs);
    SortSorts(key, ys);
    SameSize(xs, Sort(key, xs));
    SortedUnique(key, Sort(key, xs), Sort(key, ys));
  }

  /** The first element with a given key. */
  function FirstWith<T>(key: T -> string, k: string, xs: seq<T>): Option<T> {
    if xs == [] then None else if key(xs[0]) == k then Some(xs[0]) else FirstWith(key, k, xs[1..])
  }

  lemma {:induction false} FirstWithInsert<T>(key: T -> string, k: string, xs: seq<T>, x: T)
    requires Sorted(key, xs)
    ensures FirstWith(key, k, Insert(key, xs, x)) ==
            if FirstWith(key, k, xs).Some? then FirstWith(key, k, xs) else if key(x) == k then Some(x) else None
  {
    if xs != [] {
      LessTotal(key(x), key(xs[0]));
      if Less(key(x), key(xs[0])) {
        assert ([x] + xs)[1..] == xs;
        if key(x) == k { NoneWith(key, k, xs); }
      } else {
        FirstWithInsert(key, k, xs[1..], x);
        assert Insert(key, xs, x)[1..] == Insert(key, xs[1..], x);
      }
    }
  }

  lemma {:induction false} NoneWith<T>(key: T -> string, k: string, xs: seq<T>)
    requires forall x | x in xs :: key(x) != k
    ensures FirstWith(key, k, xs) == None
  {
    if xs != [] { NoneWith(key, k, xs[1..]); }
  }

  lemma {:induction false} FirstWithSnoc<T>(key: T -> string, k: string, xs: seq<T>, x: T)
    ensures FirstWith(key, k, xs + [x]) ==
            if FirstWith(key, k, xs).Some? then FirstWith(key, k, xs) else if key(x) == k then Some(x) else None
  {
    if xs != [] {
      FirstWithSnoc(key, k, xs[1..], x);
      assert (xs + [x])[1..] == xs[1..] + [x];
    } else {
      assert xs + [x] == [x];
    }
  }

  /** Stability: among equals, whoever came first stays first. */
  lemma {:induction false} SortStable<T>(key: T -> string, k: string, xs: seq<T>)
    ensures FirstWith(key, k, Sort(key, xs)) == FirstWith(key, k, xs)
  {
    if xs != [] {
      var before, last := xs[..|xs| - 1], xs[|xs| - 1];
      SortStable(key, k, before);
      SortSorts(key, before);
      FirstWithInsert(key, k, Sort(key, before), last);
      FirstWithSnoc(key, k, before, last);
      assert xs == before + [last];
    }
  }

  lemma MoveToFront<T>(xs: seq<T>, x: T) returns (ys: seq<T>)
    requires x in xs
    ensures multiset(ys) == multiset(xs) && ys != [] && ys[0] == x
  {
    var i :| 0 <= i < |xs| && xs[i] == x;
    ys := [x] + xs[..i] + xs[i + 1..];
    assert xs == xs[..i] + [xs[i]] + xs[i + 1..];
  }

  /** Sorting a batch erases the order it came in exactly when no two different
      elements share a key. */
  lemma SortOrderIndependentIff<T(!new)>(key: T -> string, xs: seq<T>)
    ensures (forall ys | multiset(ys) == multiset(xs) :: Sort(key, ys) == Sort(key, xs)) <==> Unambiguous(key, xs)
  {
    if Unambiguous(key, xs) {
      forall ys | multiset(ys) == multiset(xs) ensures Sort(key, ys) == Sort(key, xs) {
        SortDetermined(key, xs, ys);
      }
    } else {
      var x, y :| x in xs && y in xs && key(x) == key(y) && x != y;
      var xfirst := MoveToFront(xs, x);
      var yfirst := MoveToFront(xs, y);
      SortStable(key, key(x), xfirst);
      SortStable(key, key(x), yfirst);
      assert FirstWith(key, key(x), xfirst) == Some(x) && FirstWith(key, key(x), yfirst) == Some(y);
      assert Sort(key, xfirst) != Sort(key, yfirst);
    }
  }
}
