/** Machine integers, options and sequence vocabulary shared by every component. */
module Common {

  const U64_MAX: int := 0xFFFF_FFFF_FFFF_FFFF

  type u64 = x: int | 0 <= x <= 0xFFFF_FFFF_FFFF_FFFF

  datatype Option<+T> = None | Some(value: T)

  /** `u64::saturating_add`. */
  function SatAdd(a: u64, b: u64): u64 {
    if a + b > U64_MAX then U64_MAX else a + b
  }

  /** Unchecked `+` on `u64` as a release build executes it. */
  function WrapAdd(a: u64, b: u64): u64 {
    if a + b > U64_MAX then a + b - (U64_MAX + 1) else a + b
  }

  function Max(a: int, b: int): int {
    if a >= b then a else b
  }

  /** `a.saturating_sub(b)` on unsigned operands, also `Instant::duration_since`. */
  function SatSub(a: nat, b: nat): nat {
    if a >= b then a - b else 0
  }

  // ----- filtering -----

  function Filter<T>(s: seq<T>, p: T -> bool): seq<T> {
    if s == [] then []
    else if p(s[0]) then [s[0]] + Filter(s[1..], p)
    else Filter(s[1..], p)
  }

  lemma {:induction false} FilterAppend<T>(a: seq<T>, b: seq<T>, p: T -> bool)
    ensures Filter(a + b, p) == Filter(a, p) + Filter(b, p)
  {
    if a == [] {
      assert a + b == b;
    } else {
      FilterAppend(a[1..], b, p);
      assert (a + b)[1..] == a[1..] + b;
      assert Filter(a + b, p) == if p(a[0]) then [a[0]] + Filter(a[1..] + b, p) else Filter(a[1..] + b, p);
    }
  }

  lemma FilterSnoc<T>(s: seq<T>, x: T, p: T -> bool)
    ensures Filter(s + [x], p) == if p(x) then Filter(s, p) + [x] else Filter(s, p)
  {
    FilterAppend(s, [x], p);
    assert Filter([x], p) == if p(x) then [x] else [];
  }

  lemma {:induction false} FilterMember<T>(s: seq<T>, p: T -> bool, x: T)
    ensures x in Filter(s, p) <==> x in s && p(x)
  {
    if s != [] {
      FilterMember(s[1..], p, x);
    }
  }

  lemma {:induction false} FilterAll<T>(s: seq<T>, p: T -> bool)
    requires forall x :: x in s ==> p(x)
    ensures Filter(s, p) == s
  {
    if s != [] {
      FilterAll(s[1..], p);
    }
  }

  // ----- taking sequences apart -----

  lemma InitLast<T>(s: seq<T>)
    requires s != []
    ensures s == s[..|s| - 1] + [s[|s| - 1]]
  {
  }

  lemma AroundIndex<T>(s: seq<T>, i: nat)
    requires i < |s|
    ensures s == s[..i] + [s[i]] + s[i + 1..]
  {
  }

  // ----- subsequences -----

  /** `a` can be obtained from `b` by deleting positions. */
  predicate Subsequence<T(==)>(a: seq<T>, b: seq<T>) {
    if a == [] then true
    else if b == [] then false
    else if a[0] == b[0] then Subsequence(a[1..], b[1..])
    else Subsequence(a, b[1..])
  }

  lemma {:induction false} SubsequenceWeaken<T>(a: seq<T>, b: seq<T>)
    requires b != [] && Subsequence(a, b[1..])
    ensures Subsequence(a, b)
  {
    if a != [] && a[0] == b[0] {
      SubsequenceTail(a, b[1..]);
    }
  }

  lemma {:induction false} SubsequenceTail<T>(a: seq<T>, b: seq<T>)
    requires a != [] && Subsequence(a, b)
    ensures Subsequence(a[1..], b)
  {
    if a[0] == b[0] {
      SubsequenceWeaken(a[1..], b);
    } else {
      SubsequenceTail(a, b[1..]);
      SubsequenceWeaken(a[1..], b);
    }
  }

  lemma {:induction false} SubsequenceRefl<T>(a: seq<T>)
    ensures Subsequence(a, a)
  {
    if a != [] {
      SubsequenceRefl(a[1..]);
    }
  }

  lemma {:induction false} SubsequencePrefix<T>(a: seq<T>, b: seq<T>)
    requires a <= b
    ensures Subsequence(a, b)
  {
    if a != [] {
      SubsequencePrefix(a[1..], b[1..]);
    }
  }

  lemma {:induction false} SubsequenceSuffix<T>(a: seq<T>, k: nat)
    requires k <= |a|
    ensures Subsequence(a[k..], a)
  {
    if k == 0 {
      assert a[0..] == a;
      SubsequenceRefl(a);
    } else {
      SubsequenceSuffix(a[1..], k - 1);
      assert a[1..][k - 1..] == a[k..];
      SubsequenceWeaken(a[k..], a);
    }
  }

  lemma {:induction false} SubsequenceGrow<T>(a: seq<T>, b: seq<T>, x: T)
    requires Subsequence(a, b)
    ensures Subsequence(a, b + [x])
    ensures Subsequence(a + [x], b + [x])
  {
    if b == [] {
      assert a == [];
      assert b + [x] == [x] && a + [x] == [x];
      assert [x][1..] == [];
      assert Subsequence<T>([x][1..], [x][1..]);
    } else {
      assert (b + [x])[1..] == b[1..] + [x];
      if a == [] {
        SubsequenceGrow(a, b[1..], x);
        assert a + [x] == [x];
        SubsequenceWeaken([x], b + [x]);
      } else if a[0] == b[0] {
        SubsequenceGrow(a[1..], b[1..], x);
        assert (a + [x])[1..] == a[1..] + [x];
      } else {
        SubsequenceGrow(a, b[1..], x);
      }
    }
  }

  lemma {:induction false} SubsequenceTrans<T>(a: seq<T>, b: seq<T>, c: seq<T>)
    requires Subsequence(a, b) && Subsequence(b, c)
    ensures Subsequence(a, c)
  {
    if a != [] && c != [] {
      if b[0] == c[0] {
        if a[0] == b[0] {
          SubsequenceTrans(a[1..], b[1..], c[1..]);
        } else {
          SubsequenceTrans(a, b[1..], c[1..]);
        }
      } else {
        SubsequenceTrans(a, b, c[1..]);
        SubsequenceWeaken(a, c);
      }
    }
  }

  lemma {:induction false} SubsequenceFilter<T>(a: seq<T>, b: seq<T>, p: T -> bool)
    requires Subsequence(a, b)
    ensures Subsequence(Filter(a, p), Filter(b, p))
  {
    if a != [] {
      if a[0] == b[0] {
        SubsequenceFilter(a[1..], b[1..], p);
        if p(a[0]) {
          assert Filter(a, p)[1..] == Filter(a[1..], p);
          assert Filter(b, p)[1..] == Filter(b[1..], p);
        }
      } else {
        SubsequenceFilter(a, b[1..], p);
        if p(b[0]) {
          assert Filter(b, p)[1..] == Filter(b[1..], p);
          SubsequenceWeaken(Filter(a, p), Filter(b, p));
        }
      }
    }
  }

  lemma {:induction false} SubsequenceMember<T>(a: seq<T>, b: seq<T>, x: T)
    requires Subsequence(a, b) && x in a
    ensures x in b
  {
    if a[0] == b[0] {
      if x != a[0] {
        SubsequenceMember(a[1..], b[1..], x);
      }
    } else {
      SubsequenceMember(a, b[1..], x);
    }
  }

  function Map<A, B>(s: seq<A>, f: A -> B): seq<B> {
    seq(|s|, i requires 0 <= i < |s| => f(s[i]))
  }

  lemma {:induction false} SubsequenceMap<A, B>(a: seq<A>, b: seq<A>, f: A -> B)
    requires Subsequence(a, b)
    ensures Subsequence(Map(a, f), Map(b, f))
  {
    if a != [] {
      assert Map(b, f)[1..] == Map(b[1..], f);
      if a[0] == b[0] {
        SubsequenceMap(a[1..], b[1..], f);
        assert Map(a, f)[1..] == Map(a[1..], f);
      } else {
        SubsequenceMap(a, b[1..], f);
        SubsequenceWeaken(Map(a, f), Map(b, f));
      }
    }
  }

  /** No element occurs twice. */
  ghost predicate Distinct<T>(s: seq<T>) {
    forall i, j :: 0 <= i < j < |s| ==> s[i] != s[j]
  }

  lemma {:induction false} SubsequenceDistinct<T>(a: seq<T>, b: seq<T>)
    requires Subsequence(a, b) && Distinct(b)
    ensures Distinct(a)
  {
    if a != [] {
      if a[0] == b[0] {
        SubsequenceDistinct(a[1..], b[1..]);
        forall j | 0 < j < |a| ensures a[0] != a[j] {
          assert a[j] == a[1..][j - 1];
          SubsequenceMember(a[1..], b[1..], a[j]);
        }
        assert a == [a[0]] + a[1..];
      } else {
        SubsequenceDistinct(a, b[1..]);
      }
    }
  }
}
