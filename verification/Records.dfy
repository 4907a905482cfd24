/** The service's two record maps: linked although they are aged out
    independently, and conserving every byte they counted. */
module Records {
  import opened Tallies
  import opened Accounts
  import opened Processes
  import opened ServiceModel

  /** No connection was seen after its domain ... */
  ghost predicate Ordered(c: Core) {
    forall k :: k in c.connections && c.connections[k].snapshot.domain in c.domains ==>
      c.connections[k].lastSeen <= c.domains[c.connections[k].snapshot.domain].lastSeen
  }

  ghost predicate LastSeenBy(c: Core, d: string, k: string)
    requires d in c.domains
  {
    k in c.connections && c.connections[k].snapshot.domain == d && c.connections[k].lastSeen == c.domains[d].lastSeen
  }

  /** ... and some connection was seen together with it. */
  ghost predicate Witnessed(c: Core) {
    forall d :: d in c.domains ==> exists k :: LastSeenBy(c, d, k)
  }

  ghost predicate NotAfter(c: Core, clock: int) {
    forall d :: d in c.domains ==> c.domains[d].lastSeen <= clock
  }

  /** `carried` is what each tracked domain still counts for connections that
      have been evicted since the domain's record was created. */
  ghost predicate Linkage(c: Core, clock: int) {
    && BooksOf(c).Keyed()
    && BooksOf(c).Linked()
    && Ordered(c)
    && Witnessed(c)
    && NotAfter(c, clock)
  }

  ghost predicate Conserved(c: Core, carried: map<string, Tally>) {
    BooksOf(c).Balanced(carried) && carried.Keys <= c.domains.Keys
  }

  lemma CreditKeepsLinkage(c: Core, p: Posting, clock: int, now: int)
    requires Linkage(c, clock) && clock <= now
    ensures Linkage(Credit(c, p, now), now)
  {
    hide Books.Post;
    CreditPosts(c, p, now);
    PostKeepsKeyed(BooksOf(c), p);
    PostKeepsLinked(BooksOf(c), p);
    CreditKeepsOrder(c, p, clock, now);
  }

  /** The link, spelled out on the records. */
  lemma LinkedRecords(c: Core)
    requires BooksOf(c).Linked()
    ensures forall k :: k in c.connections ==> c.connections[k].snapshot.domain in c.domains
  {
    forall k | k in c.connections
      ensures c.connections[k].snapshot.domain in c.domains
    {
      assert BooksOf(c).connections[k].domain in BooksOf(c).domains;
    }
  }

  /** The record under a posting's key belongs to the posting's domain. */
  lemma CreditedRecord(c: Core, p: Posting, now: int)
    requires BooksOf(c).Keyed()
    ensures p.Key() in c.connections ==> c.connections[p.Key()].snapshot.domain == p.domain
    ensures Credit(c, p, now).connections[p.Key()].snapshot.domain == p.domain
  {
    if p.Key() in c.connections {
      SameKeySameConnection(BooksOf(c), p);
    }
  }

  lemma CreditKeepsOrder(c: Core, p: Posting, clock: int, now: int)
    requires Linkage(c, clock) && clock <= now
    ensures Ordered(Credit(c, p, now)) && Witnessed(Credit(c, p, now)) && NotAfter(Credit(c, p, now), now)
  {
    var after := Credit(c, p, now);
    LinkedRecords(c);
    CreditedRecord(c, p, now);
    hide Books.Keyed, Books.Linked, PostDomain, PostConnection, UploadWindow.RecordNetwork;
    forall d | d in after.domains
      ensures exists k :: LastSeenBy(after, d, k)
    {
      if d == p.domain {
        assert LastSeenBy(after, d, p.Key());
      } else {
        var k :| LastSeenBy(c, d, k);
        assert LastSeenBy(after, d, k);
      }
    }
  }

  lemma CreditKeepsConserved(c: Core, p: Posting, carried: map<string, Tally>, now: int)
    requires BooksOf(c).Keyed() && BooksOf(c).Linked() && Conserved(c, carried)
    ensures Conserved(Credit(c, p, now), carried)
  {
    hide Books.Post, Books.Balanced;
    CreditPosts(c, p, now);
    PostKeepsBalanced(BooksOf(c), p, carried);
  }

  // ---- eviction ----


  /** Both maps drop what has not been seen for twelve intervals; because a
      domain is as young as its youngest connection, the link holds. */
  lemma EvictKeepsLinkage(c: Core, clock: int, now: int)
    requires Linkage(c, clock) && clock <= now
    ensures Linkage(EvictRecords(c, now), now)
  {
    var after := EvictRecords(c, now);
    LinkedRecords(c);
    forall d | d in after.domains
      ensures exists k :: LastSeenBy(after, d, k)
    {
      var k :| LastSeenBy(c, d, k);
      assert LastSeenBy(after, d, k);
    }
    assert BooksOf(after).Keyed() by {
      assert forall d :: d in after.domains ==> BooksOf(after).domains[d] == BooksOf(c).domains[d];
      assert forall k :: k in after.connections ==> BooksOf(after).connections[k] == BooksOf(c).connections[k];
    }
    assert Ordered(after) && NotAfter(after, now);
  }

  function Dropped(c: Core, now: int): map<string, ConnectionSnapshot> {
    map k | k in c.connections && Expired(c.connections[k].lastSeen, now, 12) :: c.connections[k].snapshot
  }

  ghost function CarryOver(c: Core, carried: map<string, Tally>, now: int): map<string, Tally> {
    map d | d in EvictRecords(c, now).domains :: Get(carried, d).Plus(Sum(ByDomain(Dropped(c, now), d)))
  }

  lemma EvictSplits(c: Core, now: int, d: string)
    ensures Sum(ByDomain(BooksOf(c).connections, d)) ==
            Sum(ByDomain(BooksOf(EvictRecords(c, now)).connections, d)).Plus(Sum(ByDomain(Dropped(c, now), d)))
  {
    hide Sum;
    var whole := ByDomain(BooksOf(c).connections, d);
    var kept, gone := ByDomain(BooksOf(EvictRecords(c, now)).connections, d), ByDomain(Dropped(c, now), d);
    assert whole == kept + gone;
    SumSplit(whole, kept, gone);
  }

  lemma EvictConservesDomain(c: Core, carried: map<string, Tally>, now: int, d: string)
    requires BooksOf(c).Balanced(carried) && d in EvictRecords(c, now).domains
    ensures BooksOf(EvictRecords(c, now)).domains[d].tally ==
            Sum(ByDomain(BooksOf(EvictRecords(c, now)).connections, d)).Plus(Get(CarryOver(c, carried, now), d))
  {
    hide Sum;
    EvictSplits(c, now, d);
    assert BooksOf(c).domains[d].tally == Sum(ByDomain(BooksOf(c).connections, d)).Plus(Get(carried, d));
    assert BooksOf(EvictRecords(c, now)).domains[d] == BooksOf(c).domains[d];
  }

  /** Eviction moves counters from the live connections to the carried sum. */
  lemma EvictKeepsConserved(c: Core, carried: map<string, Tally>, now: int)
    requires Conserved(c, carried)
    ensures Conserved(EvictRecords(c, now), CarryOver(c, carried, now))
  {
    hide Sum;
    forall d | d in EvictRecords(c, now).domains
      ensures BooksOf(EvictRecords(c, now)).domains[d].tally ==
              Sum(ByDomain(BooksOf(EvictRecords(c, now)).connections, d)).Plus(Get(CarryOver(c, carried, now), d))
    {
      EvictConservesDomain(c, carried, now, d);
    }
  }

  // ---- what the invariants mean ----

  function DomainsOf(c: Core): set<string> {
    set k | k in c.connections :: c.connections[k].snapshot.domain
  }

  /** The tracked domains are exactly the domains of the tracked connections,
      and a domain was last seen with the latest of its connections. */
  lemma LinkageMeaning(c: Core, clock: int)
    requires Linkage(c, clock)
    ensures DomainsOf(c) == c.domains.Keys
    ensures forall d :: d in c.domains ==>
              (forall k :: k in c.connections && c.connections[k].snapshot.domain == d ==>
                             c.connections[k].lastSeen <= c.domains[d].lastSeen) &&
              (exists k :: LastSeenBy(c, d, k))
    ensures |c.domains| <= |c.connections|
  {
    LinkedRecords(c);
    forall d | d in c.domains
      ensures d in DomainsOf(c)
    {
      var k :| LastSeenBy(c, d, k);
      assert k in c.connections;
    }
    ImageAtMost(c.connections, c.connections.Keys);
  }

  lemma {:induction false} ImageAtMost(m: map<string, ConnectionRecord>, keys: set<string>)
    requires keys <= m.Keys
    ensures |set k | k in keys :: m[k].snapshot.domain| <= |keys|
    decreases |keys|
  {
    var image := set k | k in keys :: m[k].snapshot.domain;
    if keys == {} {
      assert image == {};
    } else {
      var k :| k in keys;
      var rest := set l | l in keys - {k} :: m[l].snapshot.domain;
      ImageAtMost(m, keys - {k});
      assert image == rest + {m[k].snapshot.domain};
    }
  }

  /** A domain counts its live connections and what was carried over, so never
      less than the former. */
  lemma ConservedDomain(c: Core, carried: map<string, Tally>, d: string)
    requires Conserved(c, carried) && d in c.domains
    ensures var live := Sum(ByDomain(BooksOf(c).connections, d));
            && c.domains[d].snapshot.tally == live.Plus(Get(carried, d))
            && live.AtMost(c.domains[d].snapshot.tally)
  {
    hide Sum;
    assert BooksOf(c).domains[d].tally == Sum(ByDomain(BooksOf(c).connections, d)).Plus(Get(carried, d));
  }
}
