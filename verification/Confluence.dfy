/** The network poll is confluent: the order in which Go visits the observation
    map does not matter to the records, the samples or the upload window. */
module Confluence {
  import opened Basics
  import opened Hosts
  import opened Keys
  import opened Accounts
  import opened UploadWindow
  import opened ServiceModel

  /** Two postings of one poll: the name depends on the host alone, the process
      name on the pid alone. */
  ghost predicate SamePoll(p: Posting, q: Posting) {
    && (p.domain == q.domain ==> p.displayName == q.displayName)
    && (p.pid == q.pid ==> p.processName == q.processName)
  }

  lemma KeysDecide(p: Posting, q: Posting)
    requires SamePoll(p, q) && p.Key() == q.Key()
    ensures p.domain == q.domain && p.protocol == q.protocol && p.pid == q.pid
    ensures p.displayName == q.displayName && p.processName == q.processName
  {
    ConnectionKeyInjective(p.pid, p.protocol, p.domain, q.pid, q.protocol, q.domain);
  }

  lemma PostedDomainsCommute(m: map<string, DomainSnapshot>, p: Posting, q: Posting)
    requires SamePoll(p, q)
    ensures PostDomains(PostDomains(m, p), q) == PostDomains(PostDomains(m, q), p)
  {
  }

  lemma PostedConnectionsCommute(m: map<string, ConnectionSnapshot>, p: Posting, q: Posting)
    requires SamePoll(p, q)
    ensures PostConnections(PostConnections(m, p), q) == PostConnections(PostConnections(m, q), p)
  {
    if p.Key() == q.Key() {
      KeysDecide(p, q);
    }
  }

  lemma PostsCommute(b: Books, p: Posting, q: Posting)
    requires SamePoll(p, q)
    ensures b.Post(p).Post(q) == b.Post(q).Post(p)
  {
    hide PostDomains, PostConnections;
    PostedDomainsCommute(b.domains, p, q);
    PostedConnectionsCommute(b.connections, p, q);
  }

  function CreditDomains(m: map<string, DomainRecord>, p: Posting, now: int): map<string, DomainRecord> {
    m[p.domain := DomainRecord(PostDomain(FindDomain(m, p.domain), p), now)]
  }

  function CreditConnections(m: map<string, ConnectionRecord>, p: Posting, now: int): map<string, ConnectionRecord> {
    m[p.Key() := ConnectionRecord(PostConnection(FindConnection(m, p.Key()), p), now)]
  }

  lemma DomainsCommute(m: map<string, DomainRecord>, p: Posting, q: Posting, now: int)
    requires SamePoll(p, q)
    ensures CreditDomains(CreditDomains(m, p, now), q, now) == CreditDomains(CreditDomains(m, q, now), p, now)
  {
  }

  lemma ConnectionsCommute(m: map<string, ConnectionRecord>, p: Posting, q: Posting, now: int)
    requires SamePoll(p, q)
    ensures CreditConnections(CreditConnections(m, p, now), q, now) ==
            CreditConnections(CreditConnections(m, q, now), p, now)
  {
    if p.Key() == q.Key() {
      KeysDecide(p, q);
    }
  }

  /** The two high-water marks end at the final sizes either way. */
  lemma WindowsCommute(w: Window, p: Posting, q: Posting, now: int,
                       dp: nat, dq: nat, dpq: nat, cp: nat, cq: nat, cpq: nat)
    requires SamePoll(p, q)
    requires dp <= dpq && dq <= dpq && cp <= cpq && cq <= cpq
    ensures UploadWindow.RecordNetwork(UploadWindow.RecordNetwork(w, now, p, dp, cp), now, q, dpq, cpq) ==
            UploadWindow.RecordNetwork(UploadWindow.RecordNetwork(w, now, q, dq, cq), now, p, dpq, cpq)
  {
    hide Books.Post;
    PostsCommute(Ensure(w, now).books, p, q);
  }

  lemma CreditDomainsGrows(m: map<string, DomainRecord>, p: Posting, now: int)
    ensures |m| <= |CreditDomains(m, p, now)|
  {
    SubsetSize(m.Keys, CreditDomains(m, p, now).Keys);
  }

  lemma CreditConnectionsGrows(m: map<string, ConnectionRecord>, p: Posting, now: int)
    ensures |m| <= |CreditConnections(m, p, now)|
  {
    SubsetSize(m.Keys, CreditConnections(m, p, now).Keys);
  }

  /** A credit, map by map. */
  lemma CreditApart(c: Core, p: Posting, now: int)
    ensures var domains, connections := CreditDomains(c.domains, p, now), CreditConnections(c.connections, p, now);
            Credit(c, p, now) ==
            c.(domains := domains, connections := connections,
               window := if c.window.None? then None
                         else Some(UploadWindow.RecordNetwork(c.window.value, now, p, |domains|, |connections|)))
  {
    hide PostDomain, PostConnection, UploadWindow.RecordNetwork, FindDomain, FindConnection;
  }

  lemma CreditsCommute(c: Core, p: Posting, q: Posting, now: int)
    requires SamePoll(p, q)
    ensures Credit(Credit(c, p, now), q, now) == Credit(Credit(c, q, now), p, now)
  {
    hide UploadWindow.RecordNetwork, PostDomain, PostConnection;
    var dp, dq := CreditDomains(c.domains, p, now), CreditDomains(c.domains, q, now);
    var cp, cq := CreditConnections(c.connections, p, now), CreditConnections(c.connections, q, now);
    var dpq, cpq := CreditDomains(dp, q, now), CreditConnections(cp, q, now);
    DomainsCommute(c.domains, p, q, now);
    ConnectionsCommute(c.connections, p, q, now);
    CreditDomainsGrows(dp, q, now);
    CreditDomainsGrows(dq, p, now);
    CreditConnectionsGrows(cp, q, now);
    CreditConnectionsGrows(cq, p, now);
    hide CreditDomains, CreditConnections;
    CreditApart(c, p, now);
    CreditApart(c, q, now);
    CreditApart(Credit(c, p, now), q, now);
    CreditApart(Credit(c, q, now), p, now);
    hide Credit;
    if c.window.Some? {
      WindowsCommute(c.window.value, p, q, now, |dp|, |dq|, |dpq|, |cp|, |cq|, |cpq|);
    }
  }

  lemma ObservationsCommute(env: Env, c: Core, k: string, o: Observation, l: string, q: Observation, now: int)
    requires k != l
    ensures ObserveCore(env, ObserveCore(env, c, k, o, now), l, q, now) ==
            ObserveCore(env, ObserveCore(env, c, l, q, now), k, o, now)
  {
    var first, second := PostingOf(env, c, k, o), PostingOf(env, c, l, q);
    CreditsCommute(c, first, second, now);
    assert c.samples[k := o.sample][l := q.sample] == c.samples[l := q.sample][k := o.sample];
    ObserveTwice(env, c, k, o, l, q, now);
    ObserveTwice(env, c, l, q, k, o, now);
  }

  /** The second of two iterations posts what it would have posted first. */
  lemma ObserveTwice(env: Env, c: Core, k: string, o: Observation, l: string, q: Observation, now: int)
    requires k != l
    ensures ObserveCore(env, ObserveCore(env, c, k, o, now), l, q, now) ==
            Credit(Credit(c, PostingOf(env, c, k, o), now), PostingOf(env, c, l, q), now)
            .(samples := c.samples[k := o.sample][l := q.sample])
  {
    hide UploadWindow.RecordNetwork, PostDomain, PostConnection;
    assert PostingOf(env, ObserveCore(env, c, k, o, now), l, q) == PostingOf(env, c, l, q);
  }

  lemma {:induction false} MoveToEnd(env: Env, c: Core, before: seq<string>, x: string, after: seq<string>,
                                     obs: map<string, Observation>, now: int)
    requires forall k :: k in before + [x] + after ==> k in obs
    requires x !in after
    ensures forall k :: k in before + after + [x] ==> k in obs
    ensures ObserveAllCore(env, c, before + [x] + after, obs, now) ==
            ObserveAllCore(env, c, before + after + [x], obs, now)
    decreases |after|
  {
    assert forall k :: k in before + after + [x] <==> k in before + [x] + after;
    if after == [] {
      assert before + [x] + after == before + after + [x];
    } else {
      hide ObserveCore;
      var n := |after| - 1;
      var y, rest := after[n], after[..n];
      assert before + [x] + after == (before + [x] + rest) + [y];
      assert before + after + [x] == (before + rest + [y]) + [x];
      MoveToEnd(env, c, before, x, rest, obs, now);
      ObserveAllAppend(env, c, before + [x] + rest, y, obs, now);
      ObserveAllAppend(env, c, before + rest, x, obs, now);
      ObserveAllAppend(env, c, before + rest, y, obs, now);
      ObserveAllAppend(env, c, before + rest + [y], x, obs, now);
      ObservationsCommute(env, ObserveAllCore(env, c, before + rest, obs, now), x, obs[x], y, obs[y], now);
    }
  }

  /** Any two enumerations of the same keys lead to the same core. */
  lemma {:induction false} OrderIrrelevant(env: Env, c: Core, p: seq<string>, q: seq<string>,
                                           obs: map<string, Observation>, now: int)
    requires NoDup(p) && NoDup(q) && Elements(p) == Elements(q)
    requires (forall k :: k in p ==> k in obs) && (forall k :: k in q ==> k in obs)
    ensures ObserveAllCore(env, c, p, obs, now) == ObserveAllCore(env, c, q, obs, now)
    decreases |p|
  {
    if p == [] {
      NoDupElements(q);
      assert Elements(p) == {};
    } else {
      hide ObserveCore;
      var n := |p| - 1;
      var x := p[n];
      assert x in Elements(p);
      var i :| 0 <= i < |q| && q[i] == x;
      var before, after := q[..i], q[i + 1..];
      assert q == before + [x] + after;
      MoveToEnd(env, c, before, x, after, obs, now);
      SameWithoutLast(p, q, i);
      OrderIrrelevant(env, c, p[..n], before + after, obs, now);
      ObserveAllAppend(env, c, before + after, x, obs, now);
    }
  }

  lemma SameWithoutLast(p: seq<string>, q: seq<string>, i: nat)
    requires NoDup(p) && NoDup(q) && Elements(p) == Elements(q)
    requires p != [] && i < |q| && q[i] == p[|p| - 1]
    ensures NoDup(p[..|p| - 1]) && NoDup(q[..i] + q[i + 1..])
    ensures Elements(p[..|p| - 1]) == Elements(q[..i] + q[i + 1..])
  {
    var x := q[i];
    assert p == p[..|p| - 1] + [x];
    assert q == q[..i] + [x] + q[i + 1..];
    assert Elements(p[..|p| - 1]) == Elements(p) - {x};
    assert Elements(q[..i] + q[i + 1..]) == Elements(q) - {x};
  }

  /** The hosts that a poll would like to have looked up. */
  function Wanted(env: Env, cache: Cache, b: Backlog, order: seq<string>, obs: map<string, Observation>): set<string>
    requires forall k :: k in order ==> k in obs
  {
    set k | k in order && env.isPublicIP(obs[k].domain) && !Resolved(cache, obs[k].domain) &&
            !b.Pending(obs[k].domain) :: obs[k].domain
  }

  predicate Wants(env: Env, cache: Cache, b: Backlog, host: string) {
    env.isPublicIP(host) && !Resolved(cache, host) && !b.Pending(host)
  }

  function Min(a: nat, b: nat): nat {
    if a < b then a else b
  }

  /** What the requests of a poll have appended to the queue. */
  function Added(b: Backlog, after: Backlog): seq<string>
    requires |b.queue| <= |after.queue|
  {
    after.queue[|b.queue|..]
  }

  /** A mark for every wanted host: true if it was added, false if the queue
      was full. */
  function Marks(wanted: set<string>, added: seq<string>): map<string, bool> {
    map h | h in wanted :: h in added
  }

  /** The wanted hosts have been admitted as far as the queue has room: entries
      and marks from before stay, the hosts added are wanted, each added once,
      as many as fit; exactly they have become pending. */
  ghost predicate Filled(b: Backlog, wanted: set<string>, after: Backlog) {
    && b.queue <= after.queue
    && |after.queue| == Min(256, |b.queue| + |wanted|)
    && NoDup(Added(b, after))
    && Elements(Added(b, after)) <= wanted
    && after.pending == b.pending + Marks(wanted, Added(b, after))
  }

  lemma NothingFilled(b: Backlog)
    requires |b.queue| <= QUEUE_CAPACITY
    ensures Filled(b, {}, b)
  {
    assert Added(b, b) == [];
    assert b.pending + Marks({}, Added(b, b)) == b.pending;
  }

  /** A backlog in which some wanted host is missing is full. */
  lemma MissingMeansFull(b: Backlog, wanted: set<string>, after: Backlog, host: string)
    requires Filled(b, wanted, after) && host in wanted && host !in Added(b, after)
    ensures |after.queue| == QUEUE_CAPACITY
  {
    var added := Added(b, after);
    NoDupElements(added);
    SubsetSize(Elements(added), wanted - {host});
  }

  lemma FillNew(b: Backlog, earlier: set<string>, before: Backlog, host: string)
    requires Filled(b, earlier, before) && host !in earlier && |before.queue| < QUEUE_CAPACITY
    ensures Filled(b, earlier + {host}, Backlog(before.pending[host := true], before.queue + [host]))
  {
    var after := Backlog(before.pending[host := true], before.queue + [host]);
    assert Added(b, after) == Added(b, before) + [host];
    assert host !in Elements(Added(b, before));
    NoDupAppend(Added(b, before), host);
    assert |earlier + {host}| == |earlier| + 1;
    assert forall h :: h in Added(b, after) <==> h in Added(b, before) || h == host;
    assert after.pending == b.pending + Marks(earlier + {host}, Added(b, after));
  }

  lemma FillFull(b: Backlog, earlier: set<string>, before: Backlog, host: string)
    requires Filled(b, earlier, before) && host !in Added(b, before) && |before.queue| == QUEUE_CAPACITY
    ensures Filled(b, earlier + {host}, Backlog(before.pending[host := false], before.queue))
  {
    var after := Backlog(before.pending[host := false], before.queue);
    assert Added(b, after) == Added(b, before);
    SubsetSize(earlier, earlier + {host});
    assert after.pending == b.pending + Marks(earlier + {host}, Added(b, after));
  }

  lemma FillOne(env: Env, cache: Cache, b: Backlog, earlier: set<string>, before: Backlog, host: string)
    requires Filled(b, earlier, before)
    requires host in earlier ==> Wants(env, cache, b, host)
    ensures Filled(b, if Wants(env, cache, b, host) then earlier + {host} else earlier,
                   Request(env, cache, before, host))
  {
    hide Filled;
    FilledPending(b, earlier, before, host);
    if Wants(env, cache, b, host) {
      if host in earlier {
        assert earlier + {host} == earlier;
      }
      if host !in Added(b, before) {
        if |before.queue| < QUEUE_CAPACITY {
          if host in earlier {
            MissingMeansFull(b, earlier, before, host);
            assert false;
          }
          FillNew(b, earlier, before, host);
        } else {
          FillFull(b, earlier, before, host);
        }
      }
    }
  }

  lemma FilledPending(b: Backlog, wanted: set<string>, after: Backlog, host: string)
    requires Filled(b, wanted, after)
    ensures |b.queue| <= |after.queue| <= QUEUE_CAPACITY
    ensures host in Added(b, after) ==> host in wanted
    ensures after.Pending(host) <==> (if host in wanted then host in Added(b, after) else b.Pending(host))
  {
    assert host in Added(b, after) ==> host in Elements(Added(b, after));
  }

  lemma WantedNext(env: Env, cache: Cache, b: Backlog, order: seq<string>, obs: map<string, Observation>)
    requires order != [] && forall k :: k in order ==> k in obs
    ensures var n := |order| - 1;
            var earlier := Wanted(env, cache, b, order[..n], obs);
            var host := obs[order[n]].domain;
            && Wanted(env, cache, b, order, obs) == (if Wants(env, cache, b, host) then earlier + {host} else earlier)
            && (host in earlier ==> Wants(env, cache, b, host))
  {
    var n := |order| - 1;
    assert order == order[..n] + [order[n]];
  }

  /** Whatever the order and however full the queue, a poll fills it with wanted
      hosts. */
  lemma {:induction false} RequestsFill(env: Env, cache: Cache, b: Backlog, order: seq<string>,
                                        obs: map<string, Observation>)
    requires forall k :: k in order ==> k in obs
    requires |b.queue| <= QUEUE_CAPACITY
    ensures Filled(b, Wanted(env, cache, b, order, obs), RequestAll(env, cache, b, order, obs))
  {
    if order == [] {
      NothingFilled(b);
      assert Wanted(env, cache, b, order, obs) == {};
    } else {
      hide Request, Filled, Wanted, Wants;
      var n := |order| - 1;
      WantedNext(env, cache, b, order, obs);
      RequestsFill(env, cache, b, order[..n], obs);
      FillOne(env, cache, b, Wanted(env, cache, b, order[..n], obs), RequestAll(env, cache, b, order[..n], obs),
              obs[order[n]].domain);
    }
  }

  /** Read on the hosts: who is queued, how many, and who is pending. */
  lemma FilledMeaning(env: Env, cache: Cache, b: Backlog, order: seq<string>, obs: map<string, Observation>,
                      host: string)
    requires forall k :: k in order ==> k in obs
    requires |b.queue| <= QUEUE_CAPACITY
    ensures var after := RequestAll(env, cache, b, order, obs);
            && b.queue <= after.queue
            && (host in Added(b, after) ==> host in Wanted(env, cache, b, order, obs))
            && (after.Pending(host) <==> b.Pending(host) || host in Added(b, after))
  {
    hide RequestAll;
    RequestsFill(env, cache, b, order, obs);
    FilledPending(b, Wanted(env, cache, b, order, obs), RequestAll(env, cache, b, order, obs), host);
  }

  /** So for any two orders the queues are equally long and the same marks
      exist; only which hosts enter a full queue, and in what order, differs. */
  lemma BacklogIsConfluent(env: Env, cache: Cache, b: Backlog, p: seq<string>, q: seq<string>,
                           obs: map<string, Observation>)
    requires Enumerates(p, obs.Keys) && Enumerates(q, obs.Keys)
    requires |b.queue| <= QUEUE_CAPACITY
    ensures var wanted := Wanted(env, cache, b, p, obs);
            var x, y := RequestAll(env, cache, b, p, obs), RequestAll(env, cache, b, q, obs);
            && Filled(b, wanted, x) && Filled(b, wanted, y)
            && |x.queue| == |y.queue| && x.pending.Keys == y.pending.Keys
            && (|b.queue| + |wanted| <= QUEUE_CAPACITY ==>
                  x.pending == y.pending && Elements(x.queue) == Elements(y.queue))
  {
    hide RequestAll;
    var wanted := Wanted(env, cache, b, p, obs);
    assert wanted == Wanted(env, cache, b, q, obs);
    RequestsFill(env, cache, b, p, obs);
    RequestsFill(env, cache, b, q, obs);
    if |b.queue| + |wanted| <= QUEUE_CAPACITY {
      FilledWithRoom(b, wanted, RequestAll(env, cache, b, p, obs));
      FilledWithRoom(b, wanted, RequestAll(env, cache, b, q, obs));
    }
  }

  function AllTrue(hosts: set<string>): map<string, bool> {
    map h | h in hosts :: true
  }

  ghost predicate Admitted(b: Backlog, wanted: set<string>, after: Backlog) {
    && after.pending == b.pending + AllTrue(wanted)
    && Elements(after.queue) == Elements(b.queue) + wanted
    && |after.queue| == |b.queue| + |wanted|
  }

  lemma ElementsOfAppend(s: seq<string>, t: seq<string>)
    ensures Elements(s + t) == Elements(s) + Elements(t)
  {
  }

  lemma AllMarked(wanted: set<string>, added: seq<string>)
    requires Elements(added) == wanted
    ensures Marks(wanted, added) == AllTrue(wanted)
  {
    assert forall h :: h in wanted ==> h in Elements(added);
  }

  lemma FilledWithRoom(b: Backlog, wanted: set<string>, after: Backlog)
    requires Filled(b, wanted, after) && |b.queue| + |wanted| <= QUEUE_CAPACITY
    ensures Admitted(b, wanted, after)
  {
    hide Marks, AllTrue, Elements, NoDup;
    var added := Added(b, after);
    NoDupElements(added);
    EqualSize(Elements(added), wanted);
    ElementsOfAppend(b.queue, added);
    assert after.queue == b.queue + added;
    AllMarked(wanted, added);
  }

  lemma EqualSize(a: set<string>, b: set<string>)
    requires a <= b && |a| == |b|
    ensures a == b
  {
    assert b == a + (b - a);
  }

  /** With room for all of them, every wanted host becomes pending and queued,
      once; nothing else changes. */
  lemma RequestsWithRoom(env: Env, cache: Cache, b: Backlog, order: seq<string>, obs: map<string, Observation>)
    requires forall k :: k in order ==> k in obs
    requires |b.queue| + |Wanted(env, cache, b, order, obs)| <= QUEUE_CAPACITY
    ensures Admitted(b, Wanted(env, cache, b, order, obs), RequestAll(env, cache, b, order, obs))
  {
    hide RequestAll, Admitted, Filled, Wanted;
    RequestsFill(env, cache, b, order, obs);
    FilledWithRoom(b, Wanted(env, cache, b, order, obs), RequestAll(env, cache, b, order, obs));
  }

  // ---- a receive in the middle ----

  lemma {:induction false} RequestAllAppend(env: Env, cache: Cache, b: Backlog, p: seq<string>, q: seq<string>,
                                            obs: map<string, Observation>)
    requires forall k :: k in p + q ==> k in obs
    ensures RequestAll(env, cache, b, p + q, obs) ==
            RequestAll(env, cache, RequestAll(env, cache, b, p, obs), q, obs)
  {
    hide Request;
    if q == [] {
      assert p + q == p;
    } else {
      var n := |q| - 1;
      assert (p + q)[..|p| + n] == p + q[..n];
      RequestAllAppend(env, cache, b, p, q[..n], obs);
    }
  }

  /** Receiving changes neither what is wanted nor, with room, what is admitted. */
  lemma {:induction false} RequestsAfterReceive(env: Env, cache: Cache, b: Backlog, order: seq<string>,
                                                obs: map<string, Observation>)
    requires b.queue != [] && forall k :: k in order ==> k in obs
    requires |b.queue| + |Wanted(env, cache, b, order, obs)| <= QUEUE_CAPACITY
    ensures RequestAll(env, cache, b, order, obs).queue != []
    ensures RequestAll(env, cache, Receive(b), order, obs) == Receive(RequestAll(env, cache, b, order, obs))
  {
    if order != [] {
      hide Request, Wanted, Wants, Filled;
      var n := |order| - 1;
      var host := obs[order[n]].domain;
      var earlier, wanted := Wanted(env, cache, b, order[..n], obs), Wanted(env, cache, b, order, obs);
      WantedNext(env, cache, b, order, obs);
      SubsetSize(earlier, wanted);
      RequestsAfterReceive(env, cache, b, order[..n], obs);
      var before := RequestAll(env, cache, b, order[..n], obs);
      RequestsFill(env, cache, b, order[..n], obs);
      RequestFits(env, cache, b, earlier, before, host, |wanted|);
      ReceiveThenRequest(env, cache, before, host);
    }
  }

  /** A request is refused only if the queue is full. */
  lemma RequestFits(env: Env, cache: Cache, b: Backlog, earlier: set<string>, before: Backlog, host: string,
                    size: nat)
    requires Filled(b, earlier, before) && |b.queue| + size <= QUEUE_CAPACITY && |earlier| <= size
    requires host in earlier ==> Wants(env, cache, b, host)
    requires Wants(env, cache, b, host) && host !in earlier ==> size == |earlier| + 1
    ensures Wants(env, cache, before, host) ==> |before.queue| < QUEUE_CAPACITY
  {
    FilledPending(b, earlier, before, host);
    FilledWithRoom(b, earlier, before);
    assert host in earlier ==> host in AllTrue(earlier);
  }

  lemma ReceiveThenRequest(env: Env, cache: Cache, b: Backlog, host: string)
    requires b.queue != []
    requires Wants(env, cache, b, host) ==> |b.queue| < QUEUE_CAPACITY
    ensures Request(env, cache, b, host).queue != []
    ensures Request(env, cache, Receive(b), host) == Receive(Request(env, cache, b, host))
  {
  }

  /** What is wanted in the rest of a poll, once the first part is pending. */
  lemma WantedRest(env: Env, cache: Cache, b: Backlog, middle: Backlog, order: seq<string>,
                   obs: map<string, Observation>, n: nat)
    requires n <= |order| && forall k :: k in order ==> k in obs
    requires forall h :: middle.Pending(h) <==> b.Pending(h) || h in Wanted(env, cache, b, order[..n], obs)
    ensures Wanted(env, cache, middle, order[n..], obs) ==
            Wanted(env, cache, b, order, obs) - Wanted(env, cache, b, order[..n], obs)
  {
    hide Backlog.Pending, Resolved;
    assert order == order[..n] + order[n..];
    assert forall k :: k in order <==> k in order[..n] || k in order[n..];
  }

  lemma WantedPrefix(env: Env, cache: Cache, b: Backlog, order: seq<string>, obs: map<string, Observation>, n: nat)
    requires n <= |order| && forall k :: k in order ==> k in obs
    ensures Wanted(env, cache, b, order[..n], obs) <= Wanted(env, cache, b, order, obs)
  {
    hide Backlog.Pending, Resolved;
    assert order == order[..n] + order[n..];
  }

  lemma WantedSplit(env: Env, cache: Cache, b: Backlog, order: seq<string>, obs: map<string, Observation>, n: nat)
    requires n <= |order| && forall k :: k in order ==> k in obs
    requires |b.queue| + |Wanted(env, cache, b, order, obs)| <= QUEUE_CAPACITY
    ensures var middle := RequestAll(env, cache, b, order[..n], obs);
            |middle.queue| + |Wanted(env, cache, middle, order[n..], obs)| ==
            |b.queue| + |Wanted(env, cache, b, order, obs)|
  {
    hide RequestAll, Wanted;
    var middle := RequestAll(env, cache, b, order[..n], obs);
    var first, wanted := Wanted(env, cache, b, order[..n], obs), Wanted(env, cache, b, order, obs);
    WantedPrefix(env, cache, b, order, obs, n);
    SubsetSize(first, wanted);
    RequestsWithRoom(env, cache, b, order[..n], obs);
    AdmittedPending(b, first, middle);
    WantedRest(env, cache, b, middle, order, obs, n);
    assert wanted == first + (wanted - first);
  }

  lemma AdmittedPending(b: Backlog, wanted: set<string>, after: Backlog)
    requires Admitted(b, wanted, after)
    ensures forall h :: after.Pending(h) <==> b.Pending(h) || h in wanted
  {
    assert forall h :: h in wanted <==> h in AllTrue(wanted);
  }

  /** With room for all wanted hosts, a receive only moves the head of the queue
      to the worker. */
  lemma ReceiveWithRoom(env: Env, cache: Cache, b: Backlog, order: seq<string>, obs: map<string, Observation>, n: nat)
    requires forall k :: k in order ==> k in obs
    requires CanReceive(env, cache, b, order, obs, n)
    requires |b.queue| + |Wanted(env, cache, b, order, obs)| <= QUEUE_CAPACITY
    ensures var whole, around := RequestAll(env, cache, b, order, obs),
                                 RequestsAround(env, cache, b, order, obs, Some(n));
            && around.pending == whole.pending
            && [ReceivedHost(env, cache, b, order, obs, n)] + around.queue == whole.queue
  {
    hide RequestAll, Wanted;
    var middle := RequestAll(env, cache, b, order[..n], obs);
    assert order == order[..n] + order[n..];
    RequestAllAppend(env, cache, b, order[..n], order[n..], obs);
    WantedSplit(env, cache, b, order, obs, n);
    RequestsAfterReceive(env, cache, middle, order[n..], obs);
    RequestsFill(env, cache, middle, order[n..], obs);
  }

  lemma RequestsLength(env: Env, cache: Cache, b: Backlog, order: seq<string>, obs: map<string, Observation>)
    requires |b.queue| <= QUEUE_CAPACITY && forall k :: k in order ==> k in obs
    ensures |RequestAll(env, cache, b, order, obs).queue| ==
            Min(QUEUE_CAPACITY, |b.queue| + |Wanted(env, cache, b, order, obs)|)
  {
    hide RequestAll, Wanted;
    RequestsFill(env, cache, b, order, obs);
  }

  /** However full the queue, a receive makes it shorter by one at most. */
  lemma ReceiveShortens(env: Env, cache: Cache, b: Backlog, order: seq<string>, obs: map<string, Observation>,
                        receive: Option<nat>)
    requires forall k :: k in order ==> k in obs
    requires receive.Some? ==> CanReceive(env, cache, b, order, obs, receive.value)
    requires |b.queue| <= QUEUE_CAPACITY
    ensures var whole, around := RequestAll(env, cache, b, order, obs),
                                 RequestsAround(env, cache, b, order, obs, receive);
            |whole.queue| - 1 <= |around.queue| <= |whole.queue| <= QUEUE_CAPACITY
  {
    hide RequestAll, Wanted;
    RequestsLength(env, cache, b, order, obs);
    if receive.Some? {
      var n := receive.value;
      var middle := RequestAll(env, cache, b, order[..n], obs);
      assert order == order[..n] + order[n..];
      RequestAllAppend(env, cache, b, order[..n], order[n..], obs);
      RequestsLength(env, cache, b, order[..n], obs);
      RequestsLength(env, cache, middle, order[n..], obs);
      RequestsLength(env, cache, Receive(middle), order[n..], obs);
      SameWanted(env, cache, middle, Receive(middle), order[n..], obs);
    }
  }

  lemma SameWanted(env: Env, cache: Cache, b: Backlog, c: Backlog, order: seq<string>, obs: map<string, Observation>)
    requires b.pending == c.pending && forall k :: k in order ==> k in obs
    ensures Wanted(env, cache, b, order, obs) == Wanted(env, cache, c, order, obs)
  {
  }

  /** The host that the worker has taken, if any, and then the queue. */
  function Outstanding(env: Env, cache: Cache, b: Backlog, order: seq<string>, obs: map<string, Observation>,
                       receive: Option<nat>): seq<string>
    requires forall k :: k in order ==> k in obs
    requires receive.Some? ==> CanReceive(env, cache, b, order, obs, receive.value)
  {
    (if receive.None? then [] else [ReceivedHost(env, cache, b, order, obs, receive.value)]) +
    RequestsAround(env, cache, b, order, obs, receive).queue
  }

  lemma OutstandingWithRoom(env: Env, cache: Cache, b: Backlog, order: seq<string>, obs: map<string, Observation>,
                            receive: Option<nat>)
    requires forall k :: k in order ==> k in obs
    requires receive.Some? ==> CanReceive(env, cache, b, order, obs, receive.value)
    requires |b.queue| + |Wanted(env, cache, b, order, obs)| <= QUEUE_CAPACITY
    ensures Outstanding(env, cache, b, order, obs, receive) == RequestAll(env, cache, b, order, obs).queue
    ensures RequestsAround(env, cache, b, order, obs, receive).pending == RequestAll(env, cache, b, order, obs).pending
  {
    hide RequestAll, Wanted;
    if receive.Some? {
      ReceiveWithRoom(env, cache, b, order, obs, receive.value);
    }
  }

  /** Any two orders, with a receive anywhere or nowhere: the queues differ in
      length by one at most; and with room for all wanted hosts the same hosts are
      pending, and the same hosts are queued or taken. */
  lemma BacklogIsConfluentAround(env: Env, cache: Cache, b: Backlog, p: seq<string>, q: seq<string>,
                                 obs: map<string, Observation>, m: Option<nat>, n: Option<nat>)
    requires Enumerates(p, obs.Keys) && Enumerates(q, obs.Keys)
    requires m.Some? ==> CanReceive(env, cache, b, p, obs, m.value)
    requires n.Some? ==> CanReceive(env, cache, b, q, obs, n.value)
    requires |b.queue| <= QUEUE_CAPACITY
    ensures var x, y := RequestsAround(env, cache, b, p, obs, m), RequestsAround(env, cache, b, q, obs, n);
            && |x.queue| - 1 <= |y.queue| <= |x.queue| + 1
            && |x.queue| <= QUEUE_CAPACITY && |y.queue| <= QUEUE_CAPACITY
            && (m.Some? == n.Some? && |b.queue| + |Wanted(env, cache, b, p, obs)| <= QUEUE_CAPACITY ==>
                  |x.queue| == |y.queue|)
            && (|b.queue| + |Wanted(env, cache, b, p, obs)| <= QUEUE_CAPACITY ==>
                  x.pending == y.pending &&
                  Elements(Outstanding(env, cache, b, p, obs, m)) == Elements(Outstanding(env, cache, b, q, obs, n)))
  {
    hide RequestAll, RequestsAround, Filled;
    var wanted := Wanted(env, cache, b, p, obs);
    assert wanted == Wanted(env, cache, b, q, obs);
    hide Wanted;
    BacklogIsConfluent(env, cache, b, p, q, obs);
    ReceiveShortens(env, cache, b, p, obs, m);
    ReceiveShortens(env, cache, b, q, obs, n);
    if |b.queue| + |wanted| <= QUEUE_CAPACITY {
      OutstandingWithRoom(env, cache, b, p, obs, m);
      OutstandingWithRoom(env, cache, b, q, obs, n);
    }
  }

  /** Confluence of `pollDomainsLocked`: for any two iteration orders the whole
      core comes out the same, whenever the worker receives. The backlogs are
      as alike as the room in the queue permits. */
  lemma PollIsConfluent(env: Env, s: ServiceState, p: seq<string>, q: seq<string>,
                        obs: map<string, Observation>, m: Option<nat>, n: Option<nat>, now: int)
    requires Enumerates(p, obs.Keys) && Enumerates(q, obs.Keys)
    requires m.Some? ==> CanReceive(env, s.core.cache, s.backlog, p, obs, m.value)
    requires n.Some? ==> CanReceive(env, s.core.cache, s.backlog, q, obs, n.value)
    ensures PollNetwork(env, s, p, obs, m, now).core == PollNetwork(env, s, q, obs, n, now).core
    ensures PollNetwork(env, s, p, obs, m, now).polls == PollNetwork(env, s, q, obs, n, now).polls
    ensures m == n == None && |s.backlog.queue| <= QUEUE_CAPACITY ==>
              var wanted := Wanted(env, s.core.cache, s.backlog, p, obs);
              var x, y := PollNetwork(env, s, p, obs, m, now).backlog, PollNetwork(env, s, q, obs, n, now).backlog;
              Filled(s.backlog, wanted, x) && Filled(s.backlog, wanted, y) && |x.queue| == |y.queue|
    ensures |s.backlog.queue| <= QUEUE_CAPACITY ==>
              var x, y := PollNetwork(env, s, p, obs, m, now).backlog, PollNetwork(env, s, q, obs, n, now).backlog;
              && |x.queue| - 1 <= |y.queue| <= |x.queue| + 1
              && (|s.backlog.queue| + |Wanted(env, s.core.cache, s.backlog, p, obs)| <= QUEUE_CAPACITY ==>
                    && x.pending == y.pending
                    && Elements(Outstanding(env, s.core.cache, s.backlog, p, obs, m)) ==
                       Elements(Outstanding(env, s.core.cache, s.backlog, q, obs, n)))
  {
    hide ObserveAllCore, RequestAll, Filled;
    assert Elements(p) == obs.Keys == Elements(q);
    OrderIrrelevant(env, s.core, p, q, obs, now);
    if |s.backlog.queue| <= QUEUE_CAPACITY {
      BacklogIsConfluent(env, s.core.cache, s.backlog, p, q, obs);
      BacklogIsConfluentAround(env, s.core.cache, s.backlog, p, q, obs, m, n);
    }
  }
}
