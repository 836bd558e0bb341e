/**
 Sums and filters over sequences. The measures and selections used by the rest of the project are
 named functions that return a closure, so one lemma here serves every ledger.
 */
module Seqs {

  function Min(a: int, b: int): int { if a <= b then a else b }

  function Max(a: int, b: int): int { if a >= b then a else b }

  function Sum<T>(f: T -> int, s: seq<T>): int {
    if |s| == 0 then 0 else f(s[0]) + Sum(f, s[1..])
  }

  function Filter<T>(keep: T -> bool, s: seq<T>): seq<T> {
    if |s| == 0 then []
    else if keep(s[0]) then [s[0]] + Filter(keep, s[1..])
    else Filter(keep, s[1..])
  }

  lemma {:induction false} SumConcat<T>(f: T -> int, a: seq<T>, b: seq<T>)
    ensures Sum(f, a + b) == Sum(f, a) + Sum(f, b)
  {
    if |a| == 0 {
      assert a + b == b;
    } else {
      assert (a + b)[1..] == a[1..] + b;
      SumConcat(f, a[1..], b);
    }
  }

  lemma SumPush<T>(f: T -> int, s: seq<T>, x: T)
    ensures Sum(f, s + [x]) == Sum(f, s) + f(x)
  {
    SumConcat(f, s, [x]);
    assert [x][1..] == [];
  }

  lemma SumOne<T>(f: T -> int, x: T)
    ensures Sum(f, [x]) == f(x)
  {
    SumPush(f, [], x);
    assert [] + [x] == [x];
  }

  lemma {:induction false} SumUpdate<T>(f: T -> int, s: seq<T>, i: nat, x: T)
    requires i < |s|
    ensures Sum(f, s[i := x]) == Sum(f, s) - f(s[i]) + f(x)
  {
    if i > 0 {
      assert s[i := x][1..] == s[1..][i - 1 := x];
      SumUpdate(f, s[1..], i - 1, x);
    } else {
      assert s[i := x][1..] == s[1..];
    }
  }

  lemma {:induction false} SumNonNegative<T>(f: T -> int, s: seq<T>)
    requires forall x | x in s :: f(x) >= 0
    ensures Sum(f, s) >= 0
    ensures forall x | x in s :: f(x) <= Sum(f, s)
  {
    if |s| > 0 {
      SumNonNegative(f, s[1..]);
      forall x | x in s ensures f(x) <= Sum(f, s) {
        assert x == s[0] || x in s[1..];
      }
    }
  }

  lemma {:induction false} SumRemove<T>(f: T -> int, s: seq<T>, i: nat)
    requires i < |s|
    ensures Sum(f, s[..i] + s[i + 1..]) == Sum(f, s) - f(s[i])
  {
    var rest := s[..i] + s[i + 1..];
    if i == 0 {
      assert rest == s[1..];
    } else {
      assert rest[0] == s[0];
      assert rest[1..] == s[1..][..i - 1] + s[1..][i..];
      SumRemove(f, s[1..], i - 1);
    }
  }

  lemma MultisetRemove<T>(s: seq<T>, i: nat)
    requires i < |s|
    ensures multiset(s[..i] + s[i + 1..]) == multiset(s) - multiset{s[i]}
  {
    assert s == s[..i] + [s[i]] + s[i + 1..];
  }

  function PlaceOf<T(==)>(s: seq<T>, x: T): (i: nat)
    requires x in s
    ensures i < |s| && s[i] == x
  {
    if s[0] == x then 0 else 1 + PlaceOf(s[1..], x)
  }

  /** Removing a common element leaves equal multisets. */
  lemma RestsAgree<T>(a: seq<T>, b: seq<T>, i: nat)
    requires multiset(a) == multiset(b) && |a| > 0 && i < |b| && b[i] == a[0]
    ensures multiset(a[1..]) == multiset(b[..i] + b[i + 1..])
  {
    MultisetRemove(b, i);
    assert a == [a[0]] + a[1..];
    assert multiset(a) == multiset{a[0]} + multiset(a[1..]);
    assert multiset(a[1..]) == multiset(a) - multiset{a[0]};
  }

  lemma FirstOfBoth<T>(a: seq<T>, b: seq<T>)
    requires multiset(a) == multiset(b)
    ensures |a| == |b| && (|a| > 0 ==> a[0] in b)
  {
    assert |multiset(a)| == |a| && |multiset(b)| == |b|;
    assert |a| > 0 ==> a[0] in multiset(a);
  }

  /** A sum sees only which elements occur, and how often. */
  lemma {:induction false} SumPermutation<T>(f: T -> int, a: seq<T>, b: seq<T>)
    requires multiset(a) == multiset(b)
    ensures Sum(f, a) == Sum(f, b)
  {
    FirstOfBoth(a, b);
    if |a| > 0 {
      var i := PlaceOf(b, a[0]);
      RestsAgree(a, b, i);
      SumPermutation(f, a[1..], b[..i] + b[i + 1..]);
      SumRemove(f, b, i);
    }
  }

  /** Two complementary filters split a sum. */
  lemma {:induction false} SumSplit<T>(f: T -> int, keep: T -> bool, drop: T -> bool, s: seq<T>)
    requires forall x | x in s :: drop(x) == !keep(x)
    ensures Sum(f, s) == Sum(f, Filter(keep, s)) + Sum(f, Filter(drop, s))
  {
    if |s| > 0 {
      SumSplit(f, keep, drop, s[1..]);
      SumConcat(f, [s[0]], Filter(keep, s[1..]));
      SumConcat(f, [s[0]], Filter(drop, s[1..]));
      assert [s[0]][1..] == [];
    }
  }

  lemma {:induction false} FilterConcat<T>(keep: T -> bool, a: seq<T>, b: seq<T>)
    ensures Filter(keep, a + b) == Filter(keep, a) + Filter(keep, b)
  {
    if |a| == 0 {
      assert a + b == b;
    } else {
      assert (a + b)[1..] == a[1..] + b;
      FilterConcat(keep, a[1..], b);
    }
  }

  lemma {:induction false} FilterPush<T>(keep: T -> bool, s: seq<T>, x: T)
    ensures Filter(keep, s + [x]) == Filter(keep, s) + (if keep(x) then [x] else [])
  {
    FilterConcat(keep, s, [x]);
    assert [x][1..] == [];
  }

  lemma FilterStep<T>(keep: T -> bool, s: seq<T>, i: nat)
    requires i <= |s|
    ensures Filter(keep, s[i..]) ==
            if i == |s| then [] else if keep(s[i]) then [s[i]] + Filter(keep, s[i + 1..]) else Filter(keep, s[i + 1..])
  {
    if i < |s| {
      assert s[i..][1..] == s[i + 1..];
    }
  }

  lemma {:induction false} FilterMembers<T>(keep: T -> bool, s: seq<T>)
    ensures forall x | x in Filter(keep, s) :: x in s && keep(x)
    ensures forall x | x in s && keep(x) :: x in Filter(keep, s)
  {
    if |s| > 0 {
      FilterMembers(keep, s[1..]);
    }
  }

  lemma {:induction false} FilterAll<T>(keep: T -> bool, s: seq<T>)
    requires forall x | x in s :: keep(x)
    ensures Filter(keep, s) == s
  {
    if |s| > 0 {
      FilterAll(keep, s[1..]);
    }
  }

  lemma {:induction false} FilterNone<T>(keep: T -> bool, s: seq<T>)
    requires forall x | x in s :: !keep(x)
    ensures Filter(keep, s) == []
  {
    if |s| > 0 {
      FilterNone(keep, s[1..]);
    }
  }

  /** Filtering keeps the multiplicity of what it keeps and drops the rest altogether. */
  lemma {:induction false} FilterCount<T>(keep: T -> bool, s: seq<T>, x: T)
    ensures multiset(Filter(keep, s))[x] == if keep(x) then multiset(s)[x] else 0
  {
    if |s| > 0 {
      FilterCount(keep, s[1..], x);
      assert s == [s[0]] + s[1..];
      assert multiset(s)[x] == multiset{s[0]}[x] + multiset(s[1..])[x];
    }
  }
}
