/** `slice::sort_by` with a descending real-valued key, as a specification function.

    `Sort` is one concrete algorithm; `SortUnique` shows that every stable sort
    returns the same sequence, so nothing depends on that choice. */
module StableSort {
  import opened Common

  /** Put `x` behind every leading element that is at least as large. */
  function Insert<T>(s: seq<T>, x: T, key: T -> real): seq<T> {
    if s == [] then [x]
    else if key(s[0]) >= key(x) then [s[0]] + Insert(s[1..], x, key)
    else [x] + s
  }

  function Sort<T>(s: seq<T>, key: T -> real): seq<T> {
    if s == [] then [] else Insert(Sort(s[..|s| - 1], key), s[|s| - 1], key)
  }

  ghost predicate Descending<T>(s: seq<T>, key: T -> real) {
    forall i, j :: 0 <= i < j < |s| ==> key(s[i]) >= key(s[j])
  }

  // Key tests, named so that equal tests are equal function values.
  function Exactly<T>(key: T -> real, t: real): T -> bool { e => key(e) == t }
  function AtLeast<T>(key: T -> real, t: real): T -> bool { e => key(e) >= t }
  function Over<T>(key: T -> real, t: real): T -> bool { e => key(e) > t }
  function AtMost<T>(key: T -> real, t: real): T -> bool { e => key(e) <= t }
  function Under<T>(key: T -> real, t: real): T -> bool { e => key(e) < t }

  /** The elements whose key is exactly `t`, in order. */
  function AtKey<T>(s: seq<T>, key: T -> real, t: real): seq<T> {
    Filter(s, Exactly(key, t))
  }

  lemma {:induction false} InsertPermutes<T>(s: seq<T>, x: T, key: T -> real)
    ensures multiset(Insert(s, x, key)) == multiset(s) + multiset{x}
  {
    if s != [] {
      assert s == [s[0]] + s[1..];
      if key(s[0]) >= key(x) {
        InsertPermutes(s[1..], x, key);
      }
    }
  }

  lemma InsertMember<T>(s: seq<T>, x: T, key: T -> real, y: T)
    ensures y in Insert(s, x, key) <==> y in s || y == x
  {
    InsertPermutes(s, x, key);
    assert y in Insert(s, x, key) <==> y in multiset(Insert(s, x, key));
    assert y in s <==> y in multiset(s);
  }

  lemma {:induction false} InsertDescending<T>(s: seq<T>, x: T, key: T -> real)
    requires Descending(s, key)
    ensures Descending(Insert(s, x, key), key)
  {
    if s != [] && key(s[0]) >= key(x) {
      InsertDescending(s[1..], x, key);
      forall y | y in Insert(s[1..], x, key) ensures key(s[0]) >= key(y) {
        InsertMember(s[1..], x, key, y);
      }
    }
  }

  lemma {:induction false} SortFacts<T>(s: seq<T>, key: T -> real)
    ensures multiset(Sort(s, key)) == multiset(s)
    ensures |Sort(s, key)| == |s|
    ensures Descending(Sort(s, key), key)
  {
    if s != [] {
      SortFacts(s[..|s| - 1], key);
      InsertPermutes(Sort(s[..|s| - 1], key), s[|s| - 1], key);
      InsertDescending(Sort(s[..|s| - 1], key), s[|s| - 1], key);
      InitLast(s);
    }
    assert |multiset(Sort(s, key))| == |Sort(s, key)|;
  }

  lemma SortMember<T>(s: seq<T>, key: T -> real, x: T)
    ensures x in Sort(s, key) <==> x in s
  {
    SortFacts(s, key);
    assert x in Sort(s, key) <==> x in multiset(Sort(s, key));
    assert x in s <==> x in multiset(s);
  }

  // ----- how insertion meets concatenation -----

  /** Everything in `a` ranks at or above `x`: insertion happens behind `a`. */
  lemma {:induction false} InsertBehind<T>(a: seq<T>, b: seq<T>, x: T, key: T -> real)
    requires forall y :: y in a ==> key(y) >= key(x)
    ensures Insert(a + b, x, key) == a + Insert(b, x, key)
  {
    if a == [] {
      assert a + b == b;
    } else {
      assert (a + b)[1..] == a[1..] + b;
      InsertBehind(a[1..], b, x, key);
    }
  }

  /** Everything in `b` ranks strictly below `x`: insertion happens in front of `b`. */
  lemma {:induction false} InsertBefore<T>(a: seq<T>, b: seq<T>, x: T, key: T -> real)
    requires forall y :: y in b ==> key(y) < key(x)
    ensures Insert(a + b, x, key) == Insert(a, x, key) + b
  {
    if a == [] {
      assert a + b == b;
    } else {
      assert (a + b)[1..] == a[1..] + b;
      if key(a[0]) >= key(x) {
        InsertBefore(a[1..], b, x, key);
      }
    }
  }

  // ----- stability and uniqueness -----

  lemma {:induction false} InsertAtKey<T>(s: seq<T>, x: T, key: T -> real, t: real)
    requires Descending(s, key)
    ensures AtKey(Insert(s, x, key), key, t) == AtKey(s + [x], key, t)
  {
    var p := Exactly(key, t);
    if s == [] {
      assert s + [x] == [x];
    } else if key(s[0]) >= key(x) {
      InsertAtKey(s[1..], x, key, t);
      assert (s + [x])[1..] == s[1..] + [x];
    } else {
      FilterAppend([x], s, p);
      FilterAppend(s, [x], p);
      if key(x) == t {
        NoneAtKey(s, key, t);
      }
    }
  }

  lemma {:induction false} NoneAtKey<T>(s: seq<T>, key: T -> real, t: real)
    requires forall y :: y in s ==> key(y) != t
    ensures AtKey(s, key, t) == []
  {
    if s != [] {
      NoneAtKey(s[1..], key, t);
    }
  }

  /** Stability: elements that tie keep their original order. */
  lemma {:induction false} SortStable<T>(s: seq<T>, key: T -> real, t: real)
    ensures AtKey(Sort(s, key), key, t) == AtKey(s, key, t)
  {
    if s != [] {
      var init, last := s[..|s| - 1], s[|s| - 1];
      var p := Exactly(key, t);
      SortStable(init, key, t);
      SortFacts(init, key);
      InsertAtKey(Sort(init, key), last, key, t);
      FilterAppend(Sort(init, key), [last], p);
      FilterAppend(init, [last], p);
      InitLast(s);
    }
  }

  lemma {:induction false} SortedUnique<T>(a: seq<T>, b: seq<T>, key: T -> real)
    requires Descending(a, key) && Descending(b, key)
    requires forall t :: AtKey(a, key, t) == AtKey(b, key, t)
    ensures a == b
  {
    SameEmptiness(a, b, key);
    SameEmptiness(b, a, key);
    if a != [] {
      HeadKeyAtMost(a, b, key);
      HeadKeyAtMost(b, a, key);
      var k := key(a[0]);
      assert AtKey(a, key, k)[0] == a[0] && AtKey(b, key, k)[0] == b[0];
      forall t ensures AtKey(a[1..], key, t) == AtKey(b[1..], key, t) {
        assert AtKey(a, key, t) == AtKey(b, key, t);
        TailAtKey(a, key, t);
        TailAtKey(b, key, t);
      }
      SortedUnique(a[1..], b[1..], key);
    }
  }

  lemma SameEmptiness<T>(a: seq<T>, b: seq<T>, key: T -> real)
    requires forall t :: AtKey(a, key, t) == AtKey(b, key, t)
    ensures a == [] ==> b == []
  {
    if b != [] {
      TailAtKey(b, key, key(b[0]));
      assert AtKey(a, key, key(b[0])) != [];
    }
  }

  lemma TailAtKey<T>(a: seq<T>, key: T -> real, t: real)
    requires a != []
    ensures key(a[0]) == t ==> AtKey(a, key, t) != [] && AtKey(a, key, t)[1..] == AtKey(a[1..], key, t)
    ensures key(a[0]) != t ==> AtKey(a, key, t) == AtKey(a[1..], key, t)
  {
  }

  lemma HeadKeyAtMost<T>(a: seq<T>, b: seq<T>, key: T -> real)
    requires a != [] && b != [] && Descending(b, key)
    requires AtKey(a, key, key(a[0])) == AtKey(b, key, key(a[0]))
    ensures key(a[0]) <= key(b[0])
  {
    var k := key(a[0]);
    assert a[0] in AtKey(b, key, k);
    FilterMember(b, Exactly(key, k), a[0]);
  }

  /** Any descending arrangement that keeps every tie class in order is `Sort`. */
  lemma SortUnique<T>(s: seq<T>, r: seq<T>, key: T -> real)
    requires Descending(r, key)
    requires forall t :: AtKey(r, key, t) == AtKey(s, key, t)
    ensures r == Sort(s, key)
  {
    SortFacts(s, key);
    forall t ensures AtKey(r, key, t) == AtKey(Sort(s, key), key, t) {
      SortStable(s, key, t);
    }
    SortedUnique(r, Sort(s, key), key);
  }

  lemma SortOfSorted<T>(s: seq<T>, key: T -> real)
    requires Descending(s, key)
    ensures Sort(s, key) == s
  {
    SortUnique(s, s, key);
  }

  // ----- sorting commutes with deletion -----

  lemma {:induction false} InsertFilter<T>(s: seq<T>, x: T, key: T -> real, p: T -> bool)
    requires Descending(s, key)
    ensures Filter(Insert(s, x, key), p)
         == if p(x) then Insert(Filter(s, p), x, key) else Filter(s, p)
  {
    if s == [] {
    } else if key(s[0]) >= key(x) {
      InsertFilter(s[1..], x, key, p);
      if p(s[0]) && p(x) {
        assert Filter(s, p)[1..] == Filter(s[1..], p);
      }
    } else {
      FilterAppend([x], s, p);
      if p(x) {
        forall y | y in Filter(s, p) ensures key(y) < key(x) {
          FilterMember(s, p, y);
        }
        assert Filter([x], p) == [x];
        InsertBefore([], Filter(s, p), x, key);
        assert [] + Filter(s, p) == Filter(s, p);
      }
    }
  }

  lemma {:induction false} SortFilter<T>(s: seq<T>, key: T -> real, p: T -> bool)
    ensures Sort(Filter(s, p), key) == Filter(Sort(s, key), p)
  {
    if s != [] {
      var init, last := s[..|s| - 1], s[|s| - 1];
      SortFilter(init, key, p);
      SortFacts(init, key);
      InsertFilter(Sort(init, key), last, key, p);
      FilterAppend(init, [last], p);
      InitLast(s);
      if p(last) {
        var f := Filter(init, p);
        assert Filter(s, p) == f + [last];
        assert (f + [last])[..|f|] == f;
      } else {
        assert Filter(s, p) == Filter(init, p);
      }
    }
  }

  // ----- cutting a sorted sequence at a bid -----

  /** The elements a newcomer with key `t` would stand behind, given that it arrives
      after all of `x` and before all of `y`; `Behind` holds the others. */
  function Ahead<T>(x: seq<T>, y: seq<T>, key: T -> real, t: real): seq<T> {
    Filter(x, AtLeast(key, t)) + Filter(y, Over(key, t))
  }

  function Behind<T>(x: seq<T>, y: seq<T>, key: T -> real, t: real): seq<T> {
    Filter(x, Under(key, t)) + Filter(y, AtMost(key, t))
  }

  ghost predicate CutsAt<T>(x: seq<T>, y: seq<T>, key: T -> real, t: real) {
    Sort(x + y, key) == Sort(Ahead(x, y, key, t), key) + Sort(Behind(x, y, key, t), key)
  }

  lemma {:induction false} CutSort<T>(x: seq<T>, y: seq<T>, key: T -> real, t: real)
    ensures CutsAt(x, y, key, t)
    decreases |x| + |y|
  {
    if y != [] {
      var init, last := y[..|y| - 1], y[|y| - 1];
      CutSort(x, init, key, t);
      CutRight(x, init, last, key, t);
      InitLast(y);
    } else if x != [] {
      var init, last := x[..|x| - 1], x[|x| - 1];
      CutSort(init, [], key, t);
      CutLeft(init, last, key, t);
      InitLast(x);
    } else {
      assert x + y == [];
    }
  }

  lemma CutRight<T>(x: seq<T>, y: seq<T>, last: T, key: T -> real, t: real)
    requires CutsAt(x, y, key, t)
    ensures CutsAt(x, y + [last], key, t)
  {
    CutGrowsRight(x, y, last, key, t);
    assert x + (y + [last]) == x + y + [last];
    CutStep(x, y, last, key, t, key(last) > t, x + (y + [last]),
            Ahead(x, y + [last], key, t), Behind(x, y + [last], key, t));
  }

  lemma CutLeft<T>(x: seq<T>, last: T, key: T -> real, t: real)
    requires CutsAt(x, [], key, t)
    ensures CutsAt(x + [last], [], key, t)
  {
    CutGrowsLeft(x, last, key, t);
    assert x + [last] + [] == x + [] + [last];
    CutStep(x, [], last, key, t, key(last) >= t, x + [last] + [],
            Ahead(x + [last], [], key, t), Behind(x + [last], [], key, t));
  }

  lemma CutGrowsRight<T>(x: seq<T>, y: seq<T>, last: T, key: T -> real, t: real)
    ensures Ahead(x, y + [last], key, t)
         == if key(last) > t then Ahead(x, y, key, t) + [last] else Ahead(x, y, key, t)
    ensures Behind(x, y + [last], key, t)
         == if key(last) > t then Behind(x, y, key, t) else Behind(x, y, key, t) + [last]
  {
    FilterSnoc(y, last, Over(key, t));
    FilterSnoc(y, last, AtMost(key, t));
    var xa, ya := Filter(x, AtLeast(key, t)), Filter(y, Over(key, t));
    var xb, yb := Filter(x, Under(key, t)), Filter(y, AtMost(key, t));
    if key(last) > t {
      assert xa + (ya + [last]) == xa + ya + [last];
    } else {
      assert xb + (yb + [last]) == xb + yb + [last];
    }
  }

  lemma CutGrowsLeft<T>(x: seq<T>, last: T, key: T -> real, t: real)
    ensures Ahead(x + [last], [], key, t)
         == if key(last) >= t then Ahead(x, [], key, t) + [last] else Ahead(x, [], key, t)
    ensures Behind(x + [last], [], key, t)
         == if key(last) >= t then Behind(x, [], key, t) else Behind(x, [], key, t) + [last]
  {
    FilterSnoc(x, last, AtLeast(key, t));
    FilterSnoc(x, last, Under(key, t));
    var xa, xb := Filter(x, AtLeast(key, t)), Filter(x, Under(key, t));
    if key(last) >= t {
      assert xa + [last] + [] == xa + [] + [last];
    } else {
      assert xb + [last] + [] == xb + [] + [last];
    }
  }

  /** One more element lands on the side of the cut that its key selects. */
  lemma CutStep<T>(
    x: seq<T>, y: seq<T>, last: T, key: T -> real, t: real, front: bool, whole: seq<T>, a': seq<T>, b': seq<T>)
    requires CutsAt(x, y, key, t)
    requires if front then key(last) > t || (y == [] && key(last) == t) else key(last) <= t
    requires whole == x + y + [last]
    requires a' == if front then Ahead(x, y, key, t) + [last] else Ahead(x, y, key, t)
    requires b' == if front then Behind(x, y, key, t) else Behind(x, y, key, t) + [last]
    ensures Sort(whole, key) == Sort(a', key) + Sort(b', key)
  {
    var a, b := Ahead(x, y, key, t), Behind(x, y, key, t);
    SortAppend(x + y, last, key);
    SortAppend(a, last, key);
    SortAppend(b, last, key);
    if front {
      forall e | e in Sort(b, key) ensures key(e) < key(last) {
        SortMember(b, key, e);
        FilterMember(x, Under(key, t), e);
        FilterMember(y, AtMost(key, t), e);
      }
      InsertBefore(Sort(a, key), Sort(b, key), last, key);
    } else {
      forall e | e in Sort(a, key) ensures key(e) >= key(last) {
        SortMember(a, key, e);
        FilterMember(x, AtLeast(key, t), e);
        FilterMember(y, Over(key, t), e);
      }
      InsertBehind(Sort(a, key), Sort(b, key), last, key);
    }
  }

  lemma SortAppend<T>(s: seq<T>, x: T, key: T -> real)
    ensures Sort(s + [x], key) == Insert(Sort(s, key), x, key)
  {
    assert (s + [x])[..|s|] == s;
  }

  /** Where one element ends up: behind `Ahead`, in front of `Behind`. */
  lemma {:induction false} SortAround<T>(x: seq<T>, b: T, y: seq<T>, key: T -> real)
    ensures Sort(x + [b] + y, key)
         == Sort(Ahead(x, y, key, key(b)), key) + [b] + Sort(Behind(x, y, key, key(b)), key)
  {
    var t := key(b);
    CutSort(x, y, key, t);
    CutSort(x + [b], y, key, t);
    FilterAppend(x, [b], AtLeast(key, t));
    FilterAppend(x, [b], Under(key, t));
    var xa := Filter(x, AtLeast(key, t));
    var ya := Filter(y, Over(key, t));
    assert Ahead(x + [b], y, key, t) == xa + [b] + ya;
    assert Behind(x + [b], y, key, t) == Behind(x, y, key, t);
    forall e | e in xa ensures key(e) >= key(b) {
      FilterMember(x, AtLeast(key, t), e);
    }
    forall e | e in ya ensures key(e) > key(b) {
      FilterMember(y, Over(key, t), e);
    }
    SortsLast(xa, b, ya, key);
  }

  /** When every other element outranks `b`, it sorts last. */
  lemma {:induction false} SortsLast<T>(x: seq<T>, b: T, y: seq<T>, key: T -> real)
    requires forall e :: e in x ==> key(e) >= key(b)
    requires forall e :: e in y ==> key(e) > key(b)
    ensures Sort(x + [b] + y, key) == Sort(x + y, key) + [b]
    decreases |y|
  {
    if y == [] {
      forall e | e in Sort(x, key) ensures key(e) >= key(b) {
        SortMember(x, key, e);
      }
      SortAppend(x, b, key);
      InsertBehind(Sort(x, key), [], b, key);
      assert Sort(x, key) + [] == Sort(x, key);
      assert x + [b] + y == x + [b] && x + y == x;
    } else {
      var init, last := y[..|y| - 1], y[|y| - 1];
      SortsLast(x, b, init, key);
      SortAppend(x + [b] + init, last, key);
      SortAppend(x + init, last, key);
      InsertBefore(Sort(x + init, key), [b], last, key);
      assert x + [b] + y == x + [b] + init + [last] && x + y == x + init + [last];
    }
  }
}
