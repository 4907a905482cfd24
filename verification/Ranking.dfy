/** Ranking by a Go `less` function: `sort.Slice` is unstable, so everything
    here is stated for every arrangement that the order permits. */
module Ranking {
  import opened Basics

  /** What `sort.Slice` asks of its argument: irreflexive, transitive, and "not
      less" is transitive too. */
  ghost predicate StrictWeakOrder<T(!new)>(less: (T, T) -> bool) {
    && (forall x :: !less(x, x))
    && (forall x, y, z :: less(x, y) && less(y, z) ==> less(x, z))
    && (forall x, y, z :: !less(x, y) && !less(y, z) ==> !less(x, z))
  }

  ghost predicate SortedBy<T>(s: seq<T>, less: (T, T) -> bool) {
    forall i, j :: 0 <= i < j < |s| ==> !less(s[j], s[i])
  }

  /** `items` lists the elements of `pool`, each once, best first. */
  ghost predicate Ranked<T(!new)>(items: seq<T>, pool: set<T>, less: (T, T) -> bool) {
    Enumerates(items, pool) && SortedBy(items, less)
  }

  /** `top` is what a ranking of `pool` leaves after truncation to `limit`. */
  ghost predicate TopOf<T(!new)>(top: seq<T>, limit: nat, pool: set<T>, less: (T, T) -> bool) {
    exists ranking :: Ranked(ranking, pool, less) && top == Truncate(ranking, limit)
  }

  function Truncate<T>(s: seq<T>, limit: nat): seq<T> {
    if limit > |s| then s else s[..limit]
  }

  /** `sort.Slice`. Only its contract is used: which permutation it picks among
      equally ranked elements is left open. */
  method SortSlice<T(!new)>(s: seq<T>, less: (T, T) -> bool) returns (r: seq<T>)
    requires StrictWeakOrder(less)
    ensures multiset(r) == multiset(s)
    ensures SortedBy(r, less)
  {
    r := [];
    for n := 0 to |s|
      invariant multiset(r) == multiset(s[..n])
      invariant SortedBy(r, less)
    {
      var at := 0;
      while at < |r| && !less(s[n], r[at])
        invariant 0 <= at <= |r|
        invariant forall i :: 0 <= i < at ==> !less(s[n], r[i])
      {
        at := at + 1;
      }
      assert s[..n + 1] == s[..n] + [s[n]];
      assert r == r[..at] + r[at..];
      InsertSorted(r, s[n], at, less);
      r := r[..at] + [s[n]] + r[at..];
    }
    assert s[..|s|] == s;
  }

  lemma InsertSorted<T(!new)>(r: seq<T>, x: T, at: nat, less: (T, T) -> bool)
    requires StrictWeakOrder(less) && SortedBy(r, less) && at <= |r|
    requires forall i :: 0 <= i < at ==> !less(x, r[i])
    requires at < |r| ==> less(x, r[at])
    ensures SortedBy(r[..at] + [x] + r[at..], less)
  {
    if at < |r| {
      forall j | at <= j < |r|
        ensures !less(r[j], x)
      {
        assert !less(r[j], r[at]);
      }
    }
  }

  lemma SameMultisetSameElements<T>(r: seq<T>, s: seq<T>, x: T)
    requires multiset(r) == multiset(s)
    ensures x in r <==> x in s
  {
    assert x in r <==> x in multiset(r);
    assert x in s <==> x in multiset(s);
  }

  lemma {:induction false} NoDupCounts<T(!new)>(s: seq<T>)
    ensures NoDup(s) <==> forall x :: multiset(s)[x] <= 1
  {
    if s != [] {
      var n := |s| - 1;
      NoDupCounts(s[..n]);
      assert s == s[..n] + [s[n]];
      if NoDup(s) {
        assert s[n] !in s[..n];
      } else if NoDup(s[..n]) {
        assert s[n] in s[..n];
        assert multiset(s)[s[n]] >= 2;
      } else {
        var x :| multiset(s[..n])[x] > 1;
        assert multiset(s)[x] > 1;
      }
    }
  }

  /** Sorting a listing of `pool` yields a ranking of `pool`. */
  lemma SortedListingIsRanked<T(!new)>(r: seq<T>, s: seq<T>, pool: set<T>, less: (T, T) -> bool)
    requires Enumerates(s, pool) && multiset(r) == multiset(s) && SortedBy(r, less)
    ensures Ranked(r, pool, less)
  {
    NoDupCounts(r);
    NoDupCounts(s);
    forall x
      ensures x in r <==> x in pool
    {
      SameMultisetSameElements(r, s, x);
    }
  }

  ghost function Weight<T>(s: set<T>, w: T -> nat): nat
    decreases |s|
  {
    if s == {} then 0 else var x := Pick(s); Weight(s - {x}, w) + w(x)
  }

  lemma WeightOfNothing<T>(w: T -> nat)
    ensures Weight({}, w) == 0
  {
  }

  lemma {:induction false} WeightRemove<T>(s: set<T>, w: T -> nat, x: T)
    requires x in s
    ensures Weight(s, w) == Weight(s - {x}, w) + w(x)
    decreases |s|
  {
    var p := Pick(s);
    if p != x {
      WeightRemove(s - {p}, w, x);
      WeightRemove(s - {x}, w, p);
      assert s - {p} - {x} == s - {x} - {p};
    }
  }

  ghost predicate PrefersHeavy<T(!new)>(less: (T, T) -> bool, w: T -> nat) {
    forall x, y :: w(x) > w(y) ==> less(x, y)
  }

  lemma WeightOfPrefix<T(!new)>(s: seq<T>, k: nat, w: T -> nat)
    requires NoDup(s) && k < |s|
    ensures Weight(Elements(s[..k + 1]), w) == Weight(Elements(s[1..][..k]), w) + w(s[0])
  {
    assert s[..k + 1] == [s[0]] + s[1..][..k];
    assert s[0] !in s[1..][..k];
    assert Elements(s[..k + 1]) - {s[0]} == Elements(s[1..][..k]);
    WeightRemove(Elements(s[..k + 1]), w, s[0]);
  }

  lemma HeadIsHeaviest<T(!new)>(ranking: seq<T>, pool: set<T>, less: (T, T) -> bool, w: T -> nat, x: T)
    requires Ranked(ranking, pool, less) && x in pool
    requires PrefersHeavy(less, w)
    ensures ranking != [] && w(x) <= w(ranking[0])
  {
    assert x in ranking;
    var i :| 0 <= i < |ranking| && ranking[i] == x;
    if i > 0 {
      assert !less(ranking[i], ranking[0]);
    }
  }

  lemma TailIsRanked<T(!new)>(ranking: seq<T>, pool: set<T>, less: (T, T) -> bool)
    requires Ranked(ranking, pool, less) && ranking != []
    ensures Ranked(ranking[1..], pool - {ranking[0]}, less)
  {
    forall k
      ensures k in ranking[1..] <==> k in pool - {ranking[0]}
    {
      assert k in ranking <==> k in pool;
      assert ranking == [ranking[0]] + ranking[1..];
    }
  }

  lemma ExchangeStep<T(!new)>(ranking: seq<T>, pool: set<T>, less: (T, T) -> bool,
                              w: T -> nat, chosen: set<T>, x: T)
    requires Ranked(ranking, pool, less)
    requires PrefersHeavy(less, w)
    requires x in chosen && chosen <= pool && |chosen| <= |ranking|
    requires Weight(chosen - {x}, w) <= Weight(Elements(ranking[1..][..|chosen| - 1]), w)
    ensures Weight(chosen, w) <= Weight(Elements(ranking[..|chosen|]), w)
  {
    hide Weight;
    HeadIsHeaviest(ranking, pool, less, w, x);
    WeightRemove(chosen, w, x);
    WeightOfPrefix(ranking, |chosen| - 1, w);
  }

  /** Exchange argument: the first k of a ranking outweigh any k others. */
  lemma {:induction false} PrefixOutweighs<T(!new)>(ranking: seq<T>, pool: set<T>, less: (T, T) -> bool,
                                                    w: T -> nat, chosen: set<T>)
    requires Ranked(ranking, pool, less)
    requires PrefersHeavy(less, w)
    requires chosen <= pool && |chosen| <= |ranking|
    ensures Weight(chosen, w) <= Weight(Elements(ranking[..|chosen|]), w)
    decreases |ranking|
  {
    hide Weight, PrefersHeavy, Ranked;
    if chosen == {} {
      WeightOfNothing(w);
    } else {
      var x := if ranking[0] in chosen then ranking[0] else Pick(chosen);
      TailIsRanked(ranking, pool, less);
      PrefixOutweighs(ranking[1..], pool - {ranking[0]}, less, w, chosen - {x});
      ExchangeStep(ranking, pool, less, w, chosen, x);
    }
  }

  /** Top-k is optimal: its size is min(limit, |pool|), it is sorted, and no
      other choice of as many elements of the pool weighs more. */
  lemma TopIsOptimal<T(!new)>(top: seq<T>, limit: nat, pool: set<T>, less: (T, T) -> bool, w: T -> nat)
    requires TopOf(top, limit, pool, less)
    requires PrefersHeavy(less, w)
    ensures |top| == if limit > |pool| then |pool| else limit
    ensures NoDup(top) && SortedBy(top, less) && Elements(top) <= pool
    ensures forall chosen: set<T> :: chosen <= pool && |chosen| <= |top| ==>
              Weight(chosen, w) <= Weight(Elements(top), w)
  {
    var ranking :| Ranked(ranking, pool, less) && top == Truncate(ranking, limit);
    NoDupElements(ranking);
    assert Elements(ranking) == pool;
    forall chosen: set<T> | chosen <= pool && |chosen| <= |top|
      ensures Weight(chosen, w) <= Weight(Elements(top), w)
    {
      PrefixOutweighs(ranking, pool, less, w, chosen);
      assert ranking[..|chosen|] == top[..|chosen|];
      WeightMonotone(Elements(top[..|chosen|]), Elements(top), w);
    }
  }

  /** In what is shown, nothing beats anything in front of it; and nothing left out
      beats anything shown. */
  lemma TopIsOrdered<T(!new)>(top: seq<T>, limit: nat, pool: set<T>, less: (T, T) -> bool)
    requires TopOf(top, limit, pool, less)
    ensures forall i, j :: 0 <= i < j < |top| ==> !less(top[j], top[i])
    ensures forall i, x :: 0 <= i < |top| && x in pool && x !in top ==> !less(x, top[i])
  {
    var ranking :| Ranked(ranking, pool, less) && top == Truncate(ranking, limit);
    forall i, x | 0 <= i < |top| && x in pool && x !in top
      ensures !less(x, top[i])
    {
      assert x in ranking;
      var j :| 0 <= j < |ranking| && ranking[j] == x;
      assert forall l :: 0 <= l < |top| ==> top[l] == ranking[l] && top[l] in top;
      assert j >= |top|;
    }
  }

  lemma {:induction false} WeightMonotone<T>(s: set<T>, t: set<T>, w: T -> nat)
    requires s <= t
    ensures Weight(s, w) <= Weight(t, w)
    decreases |t|
  {
    if t - s == {} {
      assert s == t;
    } else {
      var x := Pick(t - s);
      WeightRemove(t, w, x);
      WeightMonotone(s, t - {x}, w);
    }
  }

  /** Two sorts of the same records may disagree on their heads, but the two
      heads always tie. */
  lemma HeadsTie<T(!new)>(a: seq<T>, b: seq<T>, pool: set<T>, less: (T, T) -> bool)
    requires StrictWeakOrder(less)
    requires Ranked(a, pool, less) && Ranked(b, pool, less) && pool != {}
    ensures a != [] && b != [] && !less(a[0], b[0]) && !less(b[0], a[0])
    ensures forall x :: x in pool && x != a[0] ==> !less(x, a[0])
  {
    var x :| x in pool;
    assert x in a && x in b;
    assert a[0] in b && b[0] in a;
    if a[0] != b[0] {
      var i :| 0 < i < |b| && b[i] == a[0];
      var j :| 0 < j < |a| && a[j] == b[0];
      assert !less(b[i], b[0]) && !less(a[j], a[0]);
    }
  }
}
