/** Byte and observation counters, and order-free sums of them over maps. */
module Tallies {
  import opened Basics

  /** The counters of a record; bytes are counted in two directions. */
  datatype Field = RX | TX | SEEN
  type Direction = f: Field | f != SEEN witness RX

  /** The three counters that every network record carries. */
  datatype Tally = Tally(rx: nat, tx: nat, seen: nat) {
    function Plus(t: Tally): Tally {
      Tally(rx + t.rx, tx + t.tx, seen + t.seen)
    }

    predicate AtMost(t: Tally) {
      rx <= t.rx && tx <= t.tx && seen <= t.seen
    }

    function At(f: Field): nat {
      match f
      case RX => rx
      case TX => tx
      case SEEN => seen
    }
  }

  const ZERO := Tally(0, 0, 0)

  lemma PlusZero(t: Tally)
    ensures t.Plus(ZERO) == t
  {
  }

  function Get(m: map<string, Tally>, k: string): Tally {
    if k in m then m[k] else ZERO
  }

  /** Sum of one counter over the keys in `s`. */
  ghost function SumOn(m: map<string, Tally>, s: set<string>, f: Field): nat
    decreases |s|
  {
    if s == {} then 0
    else
      var k := Pick(s);
      SumOn(m, s - {k}, f) + Get(m, k).At(f)
  }

  ghost function Sum(m: map<string, Tally>): Tally {
    Tally(SumOn(m, m.Keys, RX), SumOn(m, m.Keys, TX), SumOn(m, m.Keys, SEEN))
  }

  /** The sum does not depend on the order in which keys are taken out. */
  lemma {:induction false} SumOnRemove(m: map<string, Tally>, s: set<string>, f: Field, k: string)
    requires k in s
    ensures SumOn(m, s, f) == SumOn(m, s - {k}, f) + Get(m, k).At(f)
    decreases |s|
  {
    var p := Pick(s);
    if p != k {
      SumOnRemove(m, s - {p}, f, k);
      SumOnRemove(m, s - {k}, f, p);
      assert s - {p} - {k} == s - {k} - {p};
    }
  }

  lemma SumOnNothing(m: map<string, Tally>, f: Field)
    ensures SumOn(m, {}, f) == 0
  {
  }

  /** Keys that hold nothing may be left out of a sum. */
  lemma {:induction false} SumOnIgnore(m: map<string, Tally>, s: set<string>, t: set<string>, f: Field)
    requires t <= s
    requires forall k :: k in s - t ==> Get(m, k) == ZERO
    ensures SumOn(m, s, f) == SumOn(m, t, f)
    decreases |s|
  {
    if s - t == {} {
      assert s == t;
    } else {
      var k :| k in s - t;
      SumOnRemove(m, s, f, k);
      SumOnIgnore(m, s - {k}, t, f);
    }
  }

  lemma {:induction false} SumOnPlus(m: map<string, Tally>, a: map<string, Tally>, b: map<string, Tally>,
                                     s: set<string>, f: Field)
    requires forall k :: k in s ==> Get(m, k).At(f) == Get(a, k).At(f) + Get(b, k).At(f)
    ensures SumOn(m, s, f) == SumOn(a, s, f) + SumOn(b, s, f)
    decreases |s|
  {
    if s != {} {
      SumOnPlus(m, a, b, s - {Pick(s)}, f);
    }
  }

  lemma SumOnPlusKeys(m: map<string, Tally>, a: map<string, Tally>, b: map<string, Tally>, f: Field)
    requires m.Keys == a.Keys + b.Keys
    requires forall k :: k in m.Keys ==> Get(m, k).At(f) == Get(a, k).At(f) + Get(b, k).At(f)
    ensures SumOn(m, m.Keys, f) == SumOn(a, a.Keys, f) + SumOn(b, b.Keys, f)
  {
    SumOnPlus(m, a, b, m.Keys, f);
    SumOnIgnore(a, m.Keys, a.Keys, f);
    SumOnIgnore(b, m.Keys, b.Keys, f);
  }

  /** Pointwise addition of two maps adds their sums. */
  lemma SumPlus(m: map<string, Tally>, a: map<string, Tally>, b: map<string, Tally>)
    requires m.Keys == a.Keys + b.Keys
    requires forall k, f: Field :: k in m ==> Get(m, k).At(f) == Get(a, k).At(f) + Get(b, k).At(f)
    ensures Sum(m) == Sum(a).Plus(Sum(b))
  {
    hide SumOn;
    SumOnPlusKeys(m, a, b, RX);
    SumOnPlusKeys(m, a, b, TX);
    SumOnPlusKeys(m, a, b, SEEN);
  }

  /** A sum splits over any partition of the keys. */
  lemma SumSplit(m: map<string, Tally>, a: map<string, Tally>, b: map<string, Tally>)
    requires a.Keys !! b.Keys && m == a + b
    ensures Sum(m) == Sum(a).Plus(Sum(b))
  {
    SumPlus(m, a, b);
  }

  lemma SumOne(k: string, v: Tally)
    ensures Sum(map[k := v]) == v
  {
    var m := map[k := v];
    assert m.Keys == {k};
    forall f: Field
      ensures SumOn(m, m.Keys, f) == v.At(f)
    {
      SumOnRemove(m, {k}, f, k);
      assert {k} - {k} == {};
    }
  }

  /** Crediting one entry, created at zero if need be, credits the sum by the
      same amount. */
  lemma SumCredit(m: map<string, Tally>, k: string, v: Tally)
    ensures Sum(m[k := Get(m, k).Plus(v)]) == Sum(m).Plus(v)
  {
    SumPlus(m[k := Get(m, k).Plus(v)], m, map[k := v]);
    SumOne(k, v);
  }

  lemma SumAtLeast(m: map<string, Tally>, k: string)
    requires k in m
    ensures m[k].AtMost(Sum(m))
  {
    forall f: Field
      ensures m[k].At(f) <= SumOn(m, m.Keys, f)
    {
      SumOnRemove(m, m.Keys, f, k);
    }
  }
}
