/** What one network poll does to one record, without mentioning the loop: the
    record gains the deltas of exactly the observed sockets that belong to it. */
module PollEffects {
  import opened Basics
  import opened Hosts
  import opened Tallies
  import opened Accounts
  import opened UploadWindow
  import opened ServiceModel
  import opened Lookups
  import opened Ledger

  /** The posting that an observation gives rise to, judged before the poll. */
  function Due(env: Env, c: Core, obs: map<string, Observation>, key: string): Posting
    requires key in obs
  {
    PostingOf(env, c, key, obs[key])
  }

  /** The amounts that some of the observations owe to connection `k` ... */
  function ConnectionShare(env: Env, c: Core, obs: map<string, Observation>, keys: set<string>, k: string):
    map<string, Tally>
    requires keys <= obs.Keys
  {
    map key | key in keys && Due(env, c, obs, key).Key() == k :: Due(env, c, obs, key).Amount()
  }

  /** ... and to domain `d`. */
  function DomainShare(env: Env, c: Core, obs: map<string, Observation>, keys: set<string>, d: string):
    map<string, Tally>
    requires keys <= obs.Keys
  {
    map key | key in keys && Due(env, c, obs, key).domain == d :: Due(env, c, obs, key).Amount()
  }

  function ConnectionTally(b: Books, k: string): Tally {
    if k in b.connections then b.connections[k].tally else ZERO
  }

  function DomainTally(b: Books, d: string): Tally {
    if d in b.domains then b.domains[d].tally else ZERO
  }

  /** The record shows the process, the protocol, the host and the names of the
      posting. */
  predicate Shows(r: ConnectionSnapshot, p: Posting) {
    && r.pid == p.pid && r.protocol == p.protocol && r.domain == p.domain
    && r.processName == p.processName && r.displayName == p.displayName
  }

  /** Whatever observation belongs to connection `k`, the record shows it. */
  ghost predicate ConnectionShown(env: Env, c: Core, obs: map<string, Observation>, keys: set<string>,
                                  after: Books, k: string)
    requires keys <= obs.Keys
  {
    forall key :: key in keys && Due(env, c, obs, key).Key() == k ==>
      k in after.connections && Shows(after.connections[k], Due(env, c, obs, key))
  }

  /** Connection `k` has gained `share` and otherwise kept what it was. */
  ghost predicate Gained(before: Books, after: Books, k: string, share: map<string, Tally>) {
    && ConnectionTally(after, k) == ConnectionTally(before, k).Plus(Sum(share))
    && (k in after.connections <==> k in before.connections || share.Keys != {})
    && (share.Keys == {} && k in before.connections ==> after.connections[k] == before.connections[k])
  }

  ghost predicate ConnectionPosted(env: Env, c: Core, obs: map<string, Observation>, keys: set<string>,
                                   before: Books, after: Books, k: string)
    requires keys <= obs.Keys
  {
    Gained(before, after, k, ConnectionShare(env, c, obs, keys, k))
  }

  ghost predicate DomainPosted(env: Env, c: Core, obs: map<string, Observation>, keys: set<string>,
                               before: Books, after: Books, d: string)
    requires keys <= obs.Keys
  {
    var share := DomainShare(env, c, obs, keys, d);
    && DomainTally(after, d) == DomainTally(before, d).Plus(Sum(share))
    && (d in after.domains <==> d in before.domains || share.Keys != {})
    && (share.Keys != {} ==> after.domains[d].displayName == CachedName(env, c.cache, d))
    && (share.Keys == {} && d in before.domains ==> after.domains[d] == before.domains[d])
  }

  lemma ConnectionShareStep(env: Env, c: Core, obs: map<string, Observation>, keys: set<string>, key: string, k: string)
    requires keys + {key} <= obs.Keys && key !in keys
    ensures var p := Due(env, c, obs, key);
            var share := ConnectionShare(env, c, obs, keys, k);
            ConnectionShare(env, c, obs, keys + {key}, k) == if p.Key() == k then share[key := p.Amount()] else share
  {
    hide Due;
  }

  lemma DomainShareStep(env: Env, c: Core, obs: map<string, Observation>, keys: set<string>, key: string, d: string)
    requires keys + {key} <= obs.Keys && key !in keys
    ensures var p := Due(env, c, obs, key);
            var share := DomainShare(env, c, obs, keys, d);
            && DomainShare(env, c, obs, keys + {key}, d) == (if p.domain == d then share[key := p.Amount()] else share)
            && Sum(DomainShare(env, c, obs, keys + {key}, d)) ==
               (if p.domain == d then Sum(share).Plus(p.Amount()) else Sum(share))
  {
    hide Sum;
    var p := Due(env, c, obs, key);
    var share := DomainShare(env, c, obs, keys, d);
    assert DomainShare(env, c, obs, keys + {key}, d) == if p.domain == d then share[key := p.Amount()] else share;
    SumCredit(share, key, p.Amount());
  }

  /** Observations of one connection show the same names. */
  lemma SameConnectionSameNames(env: Env, c: Core, obs: map<string, Observation>, key: string, other: string)
    requires key in obs && other in obs && Due(env, c, obs, key).Key() == Due(env, c, obs, other).Key()
    ensures var p, q := Due(env, c, obs, key), Due(env, c, obs, other);
            && p.pid == q.pid && p.protocol == q.protocol && p.domain == q.domain
            && p.processName == q.processName && p.displayName == q.displayName
  {
    var p, q := Due(env, c, obs, key), Due(env, c, obs, other);
    Keys.ConnectionKeyInjective(p.pid, p.protocol, p.domain, q.pid, q.protocol, q.domain);
  }

  /** What a posting leaves under its own key, and under any other. */
  lemma PostedRecord(b: Books, p: Posting)
    requires b.Keyed()
    ensures b.Post(p).connections.Keys == b.connections.Keys + {p.Key()}
    ensures Shows(b.Post(p).connections[p.Key()], p)
    ensures b.Post(p).connections[p.Key()].tally == ConnectionTally(b, p.Key()).Plus(p.Amount())
    ensures forall k :: k in b.connections && k != p.Key() ==> b.Post(p).connections[k] == b.connections[k]
  {
    if p.Key() in b.connections {
      SameKeySameConnection(b, p);
    }
  }

  lemma PostStepShown(env: Env, c: Core, obs: map<string, Observation>, keys: set<string>, key: string,
                      after: Books, k: string)
    requires keys + {key} <= obs.Keys && after.Keyed()
    requires ConnectionShown(env, c, obs, keys, after, k)
    ensures ConnectionShown(env, c, obs, keys + {key}, after.Post(Due(env, c, obs, key)), k)
  {
    hide Due, Books.Post, Books.Keyed, Posting.Key;
    var p := Due(env, c, obs, key);
    PostedRecord(after, p);
    forall other | other in keys + {key} && Due(env, c, obs, other).Key() == k
      ensures k in after.Post(p).connections && Shows(after.Post(p).connections[k], Due(env, c, obs, other))
    {
      if p.Key() == k {
        SameConnectionSameNames(env, c, obs, key, other);
      }
    }
  }

  lemma PostGains(before: Books, after: Books, p: Posting, k: string, key: string, share: map<string, Tally>)
    requires after.Keyed() && Gained(before, after, k, share) && key !in share
    ensures Gained(before, after.Post(p), k, if p.Key() == k then share[key := p.Amount()] else share)
  {
    hide Sum, Books.Post, Books.Keyed, Shows, Posting.Key, Posting.Amount;
    PostedRecord(after, p);
    if p.Key() == k {
      SumNewEntry(share, key, p.Amount());
      assert key in share[key := p.Amount()].Keys;
    }
  }

  lemma SumNewEntry(share: map<string, Tally>, key: string, v: Tally)
    requires key !in share
    ensures Sum(share[key := v]) == Sum(share).Plus(v)
  {
    SumCredit(share, key, v);
  }

  lemma PostStepConnection(env: Env, c: Core, obs: map<string, Observation>, keys: set<string>, key: string,
                           before: Books, after: Books, k: string)
    requires keys + {key} <= obs.Keys && key !in keys && after.Keyed()
    requires ConnectionPosted(env, c, obs, keys, before, after, k)
    ensures ConnectionPosted(env, c, obs, keys + {key}, before, after.Post(Due(env, c, obs, key)), k)
  {
    hide Due, Books.Post, Books.Keyed, Posting.Key, Posting.Amount, Gained;
    PostGains(before, after, Due(env, c, obs, key), k, key, ConnectionShare(env, c, obs, keys, k));
    ConnectionShareStep(env, c, obs, keys, key, k);
  }

  lemma PostStepDomain(env: Env, c: Core, obs: map<string, Observation>, keys: set<string>, key: string,
                       before: Books, after: Books, d: string)
    requires keys + {key} <= obs.Keys && key !in keys && after.Keyed()
    requires DomainPosted(env, c, obs, keys, before, after, d)
    ensures DomainPosted(env, c, obs, keys + {key}, before, after.Post(Due(env, c, obs, key)), d)
  {
    hide Sum, DomainShare;
    DomainShareStep(env, c, obs, keys, key, d);
  }

  // ---- the loop, in any order ----

  function PostDue(env: Env, c: Core, obs: map<string, Observation>, order: seq<string>, b: Books): Books
    requires forall key :: key in order ==> key in obs
  {
    if order == [] then b
    else
      var n := |order| - 1;
      PostDue(env, c, obs, order[..n], b).Post(Due(env, c, obs, order[n]))
  }

  lemma {:induction false} PostDueEffects(env: Env, c: Core, obs: map<string, Observation>, order: seq<string>,
                                          b: Books, k: string, d: string)
    requires NoDup(order) && (forall key :: key in order ==> key in obs) && b.Keyed()
    ensures var after := PostDue(env, c, obs, order, b);
            && after.Keyed()
            && ConnectionPosted(env, c, obs, Elements(order), b, after, k)
            && ConnectionShown(env, c, obs, Elements(order), after, k)
            && DomainPosted(env, c, obs, Elements(order), b, after, d)
  {
    hide ConnectionPosted, ConnectionShown, DomainPosted, Books.Post, Books.Keyed, Due;
    if order == [] {
      NothingPosted(env, c, obs, Elements(order), b, k);
      NothingPostedTo(env, c, obs, Elements(order), b, d);
    } else {
      var n := |order| - 1;
      var key, earlier := order[n], order[..n];
      PostDueEffects(env, c, obs, earlier, b, k, d);
      assert order == earlier + [key];
      assert Elements(order) == Elements(earlier) + {key};
      var before := PostDue(env, c, obs, earlier, b);
      PostKeepsKeyed(before, Due(env, c, obs, key));
      PostStepConnection(env, c, obs, Elements(earlier), key, b, before, k);
      PostStepShown(env, c, obs, Elements(earlier), key, before, k);
      PostStepDomain(env, c, obs, Elements(earlier), key, b, before, d);
    }
  }

  lemma NoShare(env: Env, c: Core, obs: map<string, Observation>, keys: set<string>, k: string)
    requires keys == {}
    ensures ConnectionShare(env, c, obs, keys, k) == map[]
    ensures DomainShare(env, c, obs, keys, k) == map[]
  {
    hide Due;
  }

  lemma NothingPosted(env: Env, c: Core, obs: map<string, Observation>, keys: set<string>, b: Books, k: string)
    requires keys == {}
    ensures ConnectionPosted(env, c, obs, keys, b, b, k) && ConnectionShown(env, c, obs, keys, b, k)
  {
    hide Sum, Due, ConnectionShare, ConnectionTally;
    NoShare(env, c, obs, keys, k);
    SumEmpty();
    PlusZero(ConnectionTally(b, k));
  }

  lemma NothingPostedTo(env: Env, c: Core, obs: map<string, Observation>, keys: set<string>, b: Books, d: string)
    requires keys == {}
    ensures DomainPosted(env, c, obs, keys, b, b, d)
  {
    hide Sum, Due, DomainShare, DomainTally;
    NoShare(env, c, obs, keys, d);
    SumEmpty();
    PlusZero(DomainTally(b, d));
  }

  /** Within the loop every posting is the one that was due before it. */
  lemma DueInLoop(env: Env, c: Core, order: seq<string>, key: string, obs: map<string, Observation>, now: int)
    requires key in obs && key !in order && forall k :: k in order ==> k in obs
    ensures PostingOf(env, ObserveAllCore(env, c, order, obs, now), key, obs[key]) == Due(env, c, obs, key)
  {
    hide ObserveAllCore;
    ObserveAllSamples(env, c, order, obs, now);
    ObserveAllFrame(env, c, order, obs, now);
  }

  /** The service's books and the window's books get the same postings. */
  lemma {:induction false} ObserveAllPosts(env: Env, c: Core, order: seq<string>, obs: map<string, Observation>,
                                           now: int)
    requires NoDup(order) && forall key :: key in order ==> key in obs
    requires c.window.Some? ==> c.window.value.startedAt.Some?
    ensures var after := ObserveAllCore(env, c, order, obs, now);
            && BooksOf(after) == PostDue(env, c, obs, order, BooksOf(c))
            && (c.window.Some? ==>
                  && after.window.Some? && after.window.value.startedAt.Some?
                  && after.window.value.books == PostDue(env, c, obs, order, c.window.value.books))
            && after.window.Some? == c.window.Some?
  {
    if order != [] {
      hide Due, PostingOf, Books.Post, BooksOf, PostDomain, PostConnection;
      var n := |order| - 1;
      ObserveAllPosts(env, c, order[..n], obs, now);
      DueInLoop(env, c, order[..n], order[n], obs, now);
      var before := ObserveAllCore(env, c, order[..n], obs, now);
      ObservePosts(env, before, order[n], obs[order[n]], now);
    }
  }

  lemma ObservePosts(env: Env, c: Core, key: string, o: Observation, now: int)
    ensures BooksOf(ObserveCore(env, c, key, o, now)) == BooksOf(c).Post(PostingOf(env, c, key, o))
    ensures c.window.Some? && c.window.value.startedAt.Some? ==>
              var w := ObserveCore(env, c, key, o, now).window;
              && w.Some? && w.value.startedAt.Some?
              && w.value.books == c.window.value.books.Post(PostingOf(env, c, key, o))
    ensures ObserveCore(env, c, key, o, now).window.Some? == c.window.Some?
  {
    hide PostingOf, Books.Post;
    CreditPosts(c, PostingOf(env, c, key, o), now);
  }

  lemma ObserveTouches(env: Env, c: Core, key: string, o: Observation, now: int)
    ensures var p := PostingOf(env, c, key, o);
            var after := ObserveCore(env, c, key, o, now);
            && after.connections.Keys == c.connections.Keys + {p.Key()}
            && after.connections[p.Key()].lastSeen == now
            && (forall k :: k in c.connections && k != p.Key() ==> after.connections[k] == c.connections[k])
            && after.domains.Keys == c.domains.Keys + {p.domain}
            && after.domains[p.domain].lastSeen == now
            && (forall d :: d in c.domains && d != p.domain ==> after.domains[d] == c.domains[d])
  {
    hide PostingOf, PostDomain, PostConnection, UploadWindow.RecordNetwork;
  }

  /** Observed connections are as old as the poll, the others as old as before. */
  lemma {:induction false} ConnectionAges(env: Env, c: Core, order: seq<string>, obs: map<string, Observation>,
                                          now: int, k: string)
    requires NoDup(order) && forall key :: key in order ==> key in obs
    ensures var after := ObserveAllCore(env, c, order, obs, now);
            k in after.connections ==>
              if ConnectionShare(env, c, obs, Elements(order), k).Keys != {}
              then after.connections[k].lastSeen == now
              else k in c.connections && after.connections[k].lastSeen == c.connections[k].lastSeen
  {
    hide ConnectionShare, Due, PostingOf, ObserveCore, Posting.Key;
    if order == [] {
      NoShare(env, c, obs, Elements(order), k);
    } else {
      var n := |order| - 1;
      var key, earlier := order[n], order[..n];
      ConnectionAges(env, c, earlier, obs, now, k);
      DueInLoop(env, c, earlier, key, obs, now);
      ObserveTouches(env, ObserveAllCore(env, c, earlier, obs, now), key, obs[key], now);
      assert order == earlier + [key];
      assert Elements(order) == Elements(earlier) + {key};
      ConnectionShareStep(env, c, obs, Elements(earlier), key, k);
      if Due(env, c, obs, key).Key() == k {
        assert key in ConnectionShare(env, c, obs, Elements(order), k).Keys;
      }
    }
  }

  lemma {:induction false} DomainAges(env: Env, c: Core, order: seq<string>, obs: map<string, Observation>,
                                      now: int, d: string)
    requires NoDup(order) && forall key :: key in order ==> key in obs
    ensures var after := ObserveAllCore(env, c, order, obs, now);
            d in after.domains ==>
              if DomainShare(env, c, obs, Elements(order), d).Keys != {}
              then after.domains[d].lastSeen == now
              else d in c.domains && after.domains[d].lastSeen == c.domains[d].lastSeen
  {
    hide DomainShare, Due, PostingOf, ObserveCore, Sum;
    if order == [] {
      NoShare(env, c, obs, Elements(order), d);
    } else {
      var n := |order| - 1;
      var key, earlier := order[n], order[..n];
      DomainAges(env, c, earlier, obs, now, d);
      DueInLoop(env, c, earlier, key, obs, now);
      ObserveTouches(env, ObserveAllCore(env, c, earlier, obs, now), key, obs[key], now);
      assert order == earlier + [key];
      assert Elements(order) == Elements(earlier) + {key};
      DomainShareStep(env, c, obs, Elements(earlier), key, d);
      if Due(env, c, obs, key).domain == d {
        assert key in DomainShare(env, c, obs, Elements(order), d).Keys;
      }
    }
  }

  // ---- what a poll does ----

  /** A tracked connection after a poll: there if and only if it was observed or
      is at most twelve intervals, sixty seconds, old; if observed, it gained exactly the deltas
      of its observed sockets and shows their process, host and names; if not,
      it is what it was. */
  lemma PollOfConnection(env: Env, c: Core, order: seq<string>, obs: map<string, Observation>, now: int, k: string)
    requires Enumerates(order, obs.Keys) && BooksOf(c).Keyed()
    requires c.window.Some? ==> c.window.value.startedAt.Some?
    ensures var after := PollNetworkCore(env, c, order, obs, now).connections;
            var share := ConnectionShare(env, c, obs, obs.Keys, k);
            && (k in after <==>
                  share.Keys != {} || (k in c.connections && now - c.connections[k].lastSeen <= 60_000_000_000))
            && (share.Keys != {} ==>
                  && after[k].lastSeen == now
                  && after[k].snapshot.tally == ConnectionTally(BooksOf(c), k).Plus(Sum(share))
                  && forall key :: key in share ==> Shows(after[k].snapshot, Due(env, c, obs, key)))
            && (share.Keys == {} && k in after ==> after[k] == c.connections[k])
  {
    hide ObserveAllCore, Sum, Due, PostDue, DomainPosted, Books.Keyed, Shows;
    var observed := ObserveAllCore(env, c, order, obs, now);
    assert Elements(order) == obs.Keys;
    ObserveAllPosts(env, c, order, obs, now);
    PostDueEffects(env, c, obs, order, BooksOf(c), k, k);
    ConnectionAges(env, c, order, obs, now, k);
    assert k in observed.connections ==> BooksOf(observed).connections[k] == observed.connections[k].snapshot;
  }

  /** The same for a tracked domain. */
  lemma PollOfDomain(env: Env, c: Core, order: seq<string>, obs: map<string, Observation>, now: int, d: string)
    requires Enumerates(order, obs.Keys) && BooksOf(c).Keyed()
    requires c.window.Some? ==> c.window.value.startedAt.Some?
    ensures var after := PollNetworkCore(env, c, order, obs, now).domains;
            var share := DomainShare(env, c, obs, obs.Keys, d);
            && (d in after <==>
                  share.Keys != {} || (d in c.domains && now - c.domains[d].lastSeen <= 60_000_000_000))
            && (share.Keys != {} ==>
                  && after[d].lastSeen == now
                  && after[d].snapshot.tally == DomainTally(BooksOf(c), d).Plus(Sum(share))
                  && after[d].snapshot.displayName == CachedName(env, c.cache, d))
            && (share.Keys == {} && d in after ==> after[d] == c.domains[d])
  {
    hide ObserveAllCore, Sum, Due, PostDue, ConnectionPosted, ConnectionShown, Books.Keyed, CachedName;
    var observed := ObserveAllCore(env, c, order, obs, now);
    assert Elements(order) == obs.Keys;
    ObserveAllPosts(env, c, order, obs, now);
    PostDueEffects(env, c, obs, order, BooksOf(c), d, d);
    DomainAges(env, c, order, obs, now, d);
    assert d in observed.domains ==> BooksOf(observed).domains[d] == observed.domains[d].snapshot;
  }

  /** The upload window gets exactly the same shares, and forgets nothing. */
  lemma PollOfWindow(env: Env, c: Core, order: seq<string>, obs: map<string, Observation>, now: int,
                     k: string, d: string)
    requires Enumerates(order, obs.Keys)
    requires c.window.Some? && c.window.value.startedAt.Some? && c.window.value.books.Keyed()
    ensures var after := PollNetworkCore(env, c, order, obs, now).window;
            && after.Some?
            && ConnectionPosted(env, c, obs, obs.Keys, c.window.value.books, after.value.books, k)
            && ConnectionShown(env, c, obs, obs.Keys, after.value.books, k)
            && DomainPosted(env, c, obs, obs.Keys, c.window.value.books, after.value.books, d)
  {
    hide ObserveAllCore, PostDue, ConnectionPosted, ConnectionShown, DomainPosted, Books.Keyed;
    assert Elements(order) == obs.Keys;
    ObserveAllPosts(env, c, order, obs, now);
    PostDueEffects(env, c, obs, order, c.window.value.books, k, d);
  }

  // ---- the same in terms of the observations ----

  /** What the observed sockets of one connection are charged ... */
  function ConnectionCharges(samples: Collection, obs: map<string, Observation>, pid: int, protocol: string,
                             domain: string): map<string, Tally>
  {
    map key | key in obs && obs[key].pid == pid && obs[key].protocol == protocol && obs[key].domain == domain ::
      Charge(samples, Readings(obs), key)
  }

  /** ... and those of one host. */
  function DomainCharges(samples: Collection, obs: map<string, Observation>, domain: string): map<string, Tally> {
    map key | key in obs && obs[key].domain == domain :: Charge(samples, Readings(obs), key)
  }

  lemma DueFields(env: Env, c: Core, obs: map<string, Observation>, key: string)
    requires key in obs && CacheSound(env, c.cache)
    ensures var p, o := Due(env, c, obs, key), obs[key];
            && p.pid == o.pid && p.protocol == o.protocol && p.domain == o.domain
            && p.processName == (if o.pid in c.pids then c.pids[o.pid].snapshot.name else "")
            && p.displayName == NameIn(c.cache, o.domain)
            && p.Key() == Keys.ConnectionKey(o.pid, o.protocol, o.domain)
            && p.Amount() == Charge(c.samples, Readings(obs), key)
  {
    hide Delta, Keys.ConnectionKey, CachedName;
    CachedNameIsNameIn(env, c.cache, obs[key].domain);
  }

  lemma SharesAreCharges(env: Env, c: Core, obs: map<string, Observation>, key: string)
    requires key in obs && CacheSound(env, c.cache)
    ensures var o := obs[key];
            && ConnectionShare(env, c, obs, obs.Keys, Keys.ConnectionKey(o.pid, o.protocol, o.domain)) ==
               ConnectionCharges(c.samples, obs, o.pid, o.protocol, o.domain)
            && DomainShare(env, c, obs, obs.Keys, o.domain) == DomainCharges(c.samples, obs, o.domain)
  {
    hide Due, Charge, Keys.ConnectionKey, CacheSound, NameIn;
    var o := obs[key];
    var k := Keys.ConnectionKey(o.pid, o.protocol, o.domain);
    forall other | other in obs
      ensures Due(env, c, obs, other).Key() == k <==>
              obs[other].pid == o.pid && obs[other].protocol == o.protocol && obs[other].domain == o.domain
      ensures Due(env, c, obs, other).Amount() == Charge(c.samples, Readings(obs), other)
      ensures Due(env, c, obs, other).domain == obs[other].domain
    {
      DueFields(env, c, obs, other);
      var q := obs[other];
      if Keys.ConnectionKey(q.pid, q.protocol, q.domain) == k {
        Keys.ConnectionKeyInjective(q.pid, q.protocol, q.domain, o.pid, o.protocol, o.domain);
      }
    }
  }

  /** After a poll an observed connection shows its process, protocol and host, the
      cached name of the host and the name of the tracked process, and it has been
      charged for exactly the observed sockets with its process, protocol and
      host. */
  lemma ObservedConnection(env: Env, c: Core, order: seq<string>, obs: map<string, Observation>, now: int, key: string)
    requires Enumerates(order, obs.Keys) && key in obs
    requires BooksOf(c).Keyed() && CacheSound(env, c.cache)
    requires c.window.Some? ==> c.window.value.startedAt.Some?
    ensures var after := PollNetworkCore(env, c, order, obs, now).connections;
            var o := obs[key];
            var k := Keys.ConnectionKey(o.pid, o.protocol, o.domain);
            && k in after && after[k].lastSeen == now
            && after[k].snapshot.pid == o.pid && after[k].snapshot.protocol == o.protocol
            && after[k].snapshot.domain == o.domain
            && after[k].snapshot.displayName == NameIn(c.cache, o.domain)
            && after[k].snapshot.processName == (if o.pid in c.pids then c.pids[o.pid].snapshot.name else "")
            && after[k].snapshot.tally ==
               (if k in c.connections then c.connections[k].snapshot.tally else ZERO)
               .Plus(Sum(ConnectionCharges(c.samples, obs, o.pid, o.protocol, o.domain)))
  {
    hide PollNetworkCore, Sum, Due, ConnectionCharges, Books.Keyed, CacheSound, NameIn, ConnectionShare,
         Keys.ConnectionKey;
    var o := obs[key];
    var k := Keys.ConnectionKey(o.pid, o.protocol, o.domain);
    DueFields(env, c, obs, key);
    SharesAreCharges(env, c, obs, key);
    ObservedShares(env, c, obs, key, k);
    PollOfConnection(env, c, order, obs, now, k);
    assert ConnectionTally(BooksOf(c), k) == if k in c.connections then c.connections[k].snapshot.tally else ZERO;
  }

  lemma ObservedShares(env: Env, c: Core, obs: map<string, Observation>, key: string, k: string)
    requires key in obs && Due(env, c, obs, key).Key() == k
    ensures key in ConnectionShare(env, c, obs, obs.Keys, k)
    ensures key in DomainShare(env, c, obs, obs.Keys, Due(env, c, obs, key).domain)
  {
    hide Due;
  }

  /** The same for the host of an observation. */
  lemma ObservedDomain(env: Env, c: Core, order: seq<string>, obs: map<string, Observation>, now: int, key: string)
    requires Enumerates(order, obs.Keys) && key in obs
    requires BooksOf(c).Keyed() && CacheSound(env, c.cache)
    requires c.window.Some? ==> c.window.value.startedAt.Some?
    ensures var after := PollNetworkCore(env, c, order, obs, now).domains;
            var d := obs[key].domain;
            && d in after && after[d].lastSeen == now
            && after[d].snapshot.displayName == NameIn(c.cache, d)
            && after[d].snapshot.tally ==
               (if d in c.domains then c.domains[d].snapshot.tally else ZERO)
               .Plus(Sum(DomainCharges(c.samples, obs, d)))
  {
    hide PollNetworkCore, Sum, Due, DomainCharges, Books.Keyed, CacheSound, NameIn, DomainShare, CachedName;
    var d := obs[key].domain;
    DueFields(env, c, obs, key);
    SharesAreCharges(env, c, obs, key);
    ObservedShares(env, c, obs, key, Due(env, c, obs, key).Key());
    PollOfDomain(env, c, order, obs, now, d);
    CachedNameIsNameIn(env, c.cache, d);
    assert DomainTally(BooksOf(c), d) == if d in c.domains then c.domains[d].snapshot.tally else ZERO;
  }

  /** And the window's records of an observation. */
  lemma ObservedInWindow(env: Env, c: Core, order: seq<string>, obs: map<string, Observation>, now: int, key: string)
    requires Enumerates(order, obs.Keys) && key in obs && CacheSound(env, c.cache)
    requires c.window.Some? && c.window.value.startedAt.Some? && c.window.value.books.Keyed()
    ensures var w := PollNetworkCore(env, c, order, obs, now).window;
            w.Some? &&
            var before, after := c.window.value.books, w.value.books;
            var o := obs[key];
            var k := Keys.ConnectionKey(o.pid, o.protocol, o.domain);
            && k in after.connections && o.domain in after.domains
            && after.connections[k].pid == o.pid && after.connections[k].protocol == o.protocol
            && after.connections[k].domain == o.domain
            && after.connections[k].displayName == NameIn(c.cache, o.domain)
            && after.connections[k].processName == (if o.pid in c.pids then c.pids[o.pid].snapshot.name else "")
            && after.connections[k].tally ==
               (if k in before.connections then before.connections[k].tally else ZERO)
               .Plus(Sum(ConnectionCharges(c.samples, obs, o.pid, o.protocol, o.domain)))
            && after.domains[o.domain].displayName == NameIn(c.cache, o.domain)
            && after.domains[o.domain].tally ==
               (if o.domain in before.domains then before.domains[o.domain].tally else ZERO)
               .Plus(Sum(DomainCharges(c.samples, obs, o.domain)))
  {
    hide PollNetworkCore, Sum, Due, ConnectionCharges, DomainCharges, Books.Keyed, CacheSound, NameIn,
         ConnectionShare, DomainShare, Keys.ConnectionKey, CachedName;
    var o := obs[key];
    var k := Keys.ConnectionKey(o.pid, o.protocol, o.domain);
    DueFields(env, c, obs, key);
    SharesAreCharges(env, c, obs, key);
    ObservedShares(env, c, obs, key, k);
    PollOfWindow(env, c, order, obs, now, k, o.domain);
    CachedNameIsNameIn(env, c.cache, o.domain);
  }

  function HostsObserved(obs: map<string, Observation>, keys: set<string>): set<string>
    requires keys <= obs.Keys
  {
    set key | key in keys :: obs[key].domain
  }

  function ConnectionsObserved(obs: map<string, Observation>, keys: set<string>): set<string>
    requires keys <= obs.Keys
  {
    set key | key in keys :: Keys.ConnectionKey(obs[key].pid, obs[key].protocol, obs[key].domain)
  }

  /** A high-water mark after the map has reached `size`, if it was looked at. */
  function Mark(before: nat, size: nat, looked: bool): nat {
    if looked && size > before then size else before
  }

  ghost predicate Marked(before: Window, after: Window, domains: nat, connections: nat, looked: bool) {
    && after.maxTrackedDomains == Mark(before.maxTrackedDomains, domains, looked)
    && after.maxTrackedConnections == Mark(before.maxTrackedConnections, connections, looked)
  }

  lemma ObserveMarks(env: Env, before: Window, c: Core, key: string, o: Observation, now: int, looked: bool)
    requires c.window.Some? && c.window.value.startedAt.Some?
    requires Marked(before, c.window.value, |c.domains|, |c.connections|, looked)
    ensures var after := ObserveCore(env, c, key, o, now);
            after.window.Some? && Marked(before, after.window.value, |after.domains|, |after.connections|, true)
  {
    hide PostingOf, PostDomain, PostConnection, Books.Post;
    var after := ObserveCore(env, c, key, o, now);
    SubsetSize(c.domains.Keys, after.domains.Keys);
    SubsetSize(c.connections.Keys, after.connections.Keys);
    assert |c.domains| == |c.domains.Keys| && |after.domains| == |after.domains.Keys|;
    assert |c.connections| == |c.connections.Keys| && |after.connections| == |after.connections.Keys|;
  }

  lemma {:induction false} ObserveAllMarks(env: Env, c: Core, order: seq<string>, obs: map<string, Observation>,
                                           now: int)
    requires forall key :: key in order ==> key in obs
    requires c.window.Some? && c.window.value.startedAt.Some?
    ensures var after := ObserveAllCore(env, c, order, obs, now);
            && after.window.Some? && after.window.value.startedAt.Some?
            && Marked(c.window.value, after.window.value, |after.domains|, |after.connections|, order != [])
  {
    hide ObserveCore;
    if order != [] {
      hide Marked;
      var n := |order| - 1;
      var before := ObserveAllCore(env, c, order[..n], obs, now);
      ObserveAllMarks(env, c, order[..n], obs, now);
      ObserveMarks(env, c.window.value, before, order[n], obs[order[n]], now, n > 0);
      ObservePosts(env, before, order[n], obs[order[n]], now);
    }
  }

  lemma ObservedNext(obs: map<string, Observation>, order: seq<string>)
    requires order != [] && forall key :: key in order ==> key in obs
    ensures var earlier, last := Elements(order[..|order| - 1]), obs[order[|order| - 1]];
            && HostsObserved(obs, Elements(order)) == HostsObserved(obs, earlier) + {last.domain}
            && ConnectionsObserved(obs, Elements(order)) ==
               ConnectionsObserved(obs, earlier) + {Keys.ConnectionKey(last.pid, last.protocol, last.domain)}
  {
    hide Keys.ConnectionKey;
    assert order == order[..|order| - 1] + [order[|order| - 1]];
  }

  lemma {:induction false} ObserveAllTracks(env: Env, c: Core, order: seq<string>, obs: map<string, Observation>,
                                            now: int)
    requires forall key :: key in order ==> key in obs
    ensures var after := ObserveAllCore(env, c, order, obs, now);
            && after.domains.Keys == c.domains.Keys + HostsObserved(obs, Elements(order))
            && after.connections.Keys == c.connections.Keys + ConnectionsObserved(obs, Elements(order))
  {
    hide ObserveCore, Keys.ConnectionKey;
    if order != [] {
      hide HostsObserved, ConnectionsObserved;
      var n := |order| - 1;
      ObserveAllTracks(env, c, order[..n], obs, now);
      ObserveTouches(env, ObserveAllCore(env, c, order[..n], obs, now), order[n], obs[order[n]], now);
      ObservedNext(obs, order);
    }
  }

  /** The window's high-water marks after a poll that observed anything: the
      larger of the old mark and the number of records that are tracked before
      the old ones are dropped, whatever the order. */
  lemma PollOfMarks(env: Env, c: Core, order: seq<string>, obs: map<string, Observation>, now: int)
    requires Enumerates(order, obs.Keys)
    requires c.window.Some? && c.window.value.startedAt.Some?
    ensures var after := PollNetworkCore(env, c, order, obs, now).window;
            && after.Some?
            && Marked(c.window.value, after.value, |c.domains.Keys + HostsObserved(obs, obs.Keys)|,
                      |c.connections.Keys + ConnectionsObserved(obs, obs.Keys)|, obs.Keys != {})
  {
    hide ObserveAllCore, Marked, HostsObserved, ConnectionsObserved;
    var observed := ObserveAllCore(env, c, order, obs, now);
    assert Elements(order) == obs.Keys;
    assert order == [] <==> obs.Keys == {} by {
      assert order != [] ==> order[0] in obs.Keys;
    }
    ObserveAllMarks(env, c, order, obs, now);
    ObserveAllTracks(env, c, order, obs, now);
    assert |observed.domains| == |observed.domains.Keys| && |observed.connections| == |observed.connections.Keys|;
  }
}
