/** The model counts in unbounded naturals. These lemmas bound every counter by
    what the run has credited, so that nothing wraps in 64 bits as long as the
    credited total stays below 2^64. */
module Bounds {
  import opened Basics
  import opened Hosts
  import opened Tallies
  import opened Accounts
  import opened ServiceModel
  import opened Ledger

  ghost function ServiceSum(c: Core): Tally {
    Sum(DomainTallies(BooksOf(c).domains))
  }

  lemma ObserveAddsToService(env: Env, c: Core, order: seq<string>, key: string, obs: map<string, Observation>,
                             now: int)
    requires key in obs && key !in order && forall k :: k in order ==> k in obs
    ensures var b := ObserveAllCore(env, c, order, obs, now);
            ServiceSum(ObserveCore(env, b, key, obs[key], now)) ==
            ServiceSum(b).Plus(Charge(c.samples, Readings(obs), key))
  {
    hide ObserveAllCore, Credit, PostingOf, Charge, Sum, Books.Post;
    var b := ObserveAllCore(env, c, order, obs, now);
    var p := PostingOf(env, b, key, obs[key]);
    BaselineUntouched(env, c, order, key, obs, now);
    CreditPosts(b, p, now);
    PostCreditsDomains(BooksOf(b), p);
  }

  lemma {:induction false} ObserveAllAddsToService(env: Env, c: Core, order: seq<string>,
                                                   obs: map<string, Observation>, now: int, f: Field)
    requires NoDup(order) && forall k :: k in order ==> k in obs
    ensures ServiceSum(ObserveAllCore(env, c, order, obs, now)).At(f) ==
            ServiceSum(c).At(f) + SumOn(Charges(c.samples, Readings(obs)), Elements(order), f)
  {
    hide SumOn, ObserveCore, ServiceSum;
    var charges := Charges(c.samples, Readings(obs));
    if order == [] {
      assert Elements(order) == {};
      SumOnNothing(charges, f);
    } else {
      var n := |order| - 1;
      var key := order[n];
      ObserveAllAddsToService(env, c, order[..n], obs, now, f);
      assert order == order[..n] + [key];
      assert Elements(order) - {key} == Elements(order[..n]);
      SumOnRemove(charges, Elements(order), f, key);
      ObserveAddsToService(env, c, order[..n], key, obs, now);
    }
  }

  lemma PartAtMost(part: map<string, Tally>, whole: map<string, Tally>)
    requires part.Keys <= whole.Keys && forall k :: k in part ==> part[k] == whole[k]
    ensures Sum(part).AtMost(Sum(whole))
  {
    hide Sum;
    assert whole == part + (whole - part.Keys);
    SumSplit(whole, part, whole - part.Keys);
  }

  /** A poll adds at most its charges; eviction only takes away. */
  lemma PollNetworkBounded(env: Env, c: Core, order: seq<string>, obs: map<string, Observation>, now: int)
    requires Enumerates(order, obs.Keys)
    ensures ServiceSum(PollNetworkCore(env, c, order, obs, now))
            .AtMost(ServiceSum(c).Plus(Sum(Charges(c.samples, Readings(obs)))))
  {
    hide ObserveAllCore, SumOn;
    var observed := ObserveAllCore(env, c, order, obs, now);
    assert Elements(order) == Charges(c.samples, Readings(obs)).Keys;
    ObserveAllAddsToService(env, c, order, obs, now, RX);
    ObserveAllAddsToService(env, c, order, obs, now, TX);
    ObserveAllAddsToService(env, c, order, obs, now, SEEN);
    PartAtMost(DomainTallies(BooksOf(PollNetworkCore(env, c, order, obs, now)).domains),
               DomainTallies(BooksOf(observed).domains));
  }

  lemma CompleteKeepsServiceSum(s: ServiceState, ip: string, name: string)
    ensures ServiceSum(CompleteLookup(s, ip, name).core) == ServiceSum(s.core)
  {
    assert DomainTallies(BooksOf(CompleteLookup(s, ip, name).core).domains) == DomainTallies(BooksOf(s.core).domains);
  }

  /** Each record counts at most what all domains together count. */
  lemma RecordsWithinBooks(b: Books, carried: map<string, Tally>)
    requires b.Keyed() && b.Linked() && b.Balanced(carried)
    ensures forall d :: d in b.domains ==> b.domains[d].tally.AtMost(Sum(DomainTallies(b.domains)))
    ensures forall k :: k in b.connections ==> b.connections[k].tally.AtMost(Sum(DomainTallies(b.domains)))
  {
    hide Sum;
    forall d | d in b.domains
      ensures b.domains[d].tally.AtMost(Sum(DomainTallies(b.domains)))
    {
      SumAtLeast(DomainTallies(b.domains), d);
    }
    forall k | k in b.connections
      ensures b.connections[k].tally.AtMost(Sum(DomainTallies(b.domains)))
    {
      var d := b.connections[k].domain;
      SumAtLeast(ByDomain(b.connections, d), k);
      SumAtLeast(DomainTallies(b.domains), d);
    }
  }
}
