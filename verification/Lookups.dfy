/** The reverse-lookup protocol: a bounded queue, a pending set, a write-once
    cache, and copies of resolved names in every record. */
module Lookups {
  import opened Basics
  import opened Hosts
  import opened Accounts
  import opened UploadWindow
  import opened ServiceModel

  ghost predicate InFlight(inFlight: Option<string>, host: string) {
    inFlight == Some(host)
  }

  /** A host is pending exactly when it is queued or being looked up, in one
      place only; pending hosts are public and not cached. */
  ghost predicate Protocol(env: Env, cache: Cache, b: Backlog, inFlight: Option<string>) {
    && NoDup(b.queue)
    && |b.queue| <= QUEUE_CAPACITY
    && (inFlight.Some? ==> inFlight.value !in b.queue)
    && (forall h :: b.Pending(h) <==> h in b.queue || InFlight(inFlight, h))
    && (forall h :: b.Pending(h) ==> env.isPublicIP(h) && h !in cache)
  }

  /** Only names of public addresses are cached, ready and not empty. */
  ghost predicate CacheSound(env: Env, cache: Cache) {
    forall h :: h in cache ==> env.isPublicIP(h) && cache[h].ready && cache[h].name != ""
  }

  /** Resolved names are never changed or removed. */
  ghost predicate Grows(before: Cache, after: Cache) {
    forall h :: h in before ==> h in after && after[h] == before[h]
  }

  lemma RequestKeepsProtocol(env: Env, cache: Cache, b: Backlog, inFlight: Option<string>, host: string)
    requires CacheSound(env, cache) && Protocol(env, cache, b, inFlight)
    ensures Protocol(env, cache, Request(env, cache, b, host), inFlight)
  {
    var after := Request(env, cache, b, host);
    if after.queue != b.queue {
      NoDupAppend(b.queue, host);
      assert forall h :: h in after.queue <==> h in b.queue || h == host;
    }
    assert forall h :: h != host ==> (after.Pending(h) <==> b.Pending(h));
  }

  lemma {:induction false} RequestAllKeepsProtocol(env: Env, cache: Cache, b: Backlog, inFlight: Option<string>,
                                                   order: seq<string>, obs: map<string, Observation>)
    requires forall k :: k in order ==> k in obs
    requires CacheSound(env, cache) && Protocol(env, cache, b, inFlight)
    ensures Protocol(env, cache, RequestAll(env, cache, b, order, obs), inFlight)
  {
    if order != [] {
      hide Protocol, CacheSound, Request;
      var n := |order| - 1;
      RequestAllKeepsProtocol(env, cache, b, inFlight, order[..n], obs);
      RequestKeepsProtocol(env, cache, RequestAll(env, cache, b, order[..n], obs), inFlight, obs[order[n]].domain);
    }
  }

  /** The worker takes the head of the queue. */
  lemma DequeueKeepsProtocol(env: Env, cache: Cache, b: Backlog)
    requires Protocol(env, cache, b, None) && b.queue != []
    ensures Protocol(env, cache, Receive(b), Some(b.queue[0]))
  {
    assert forall h :: h in b.queue <==> h == b.queue[0] || h in b.queue[1..];
  }

  /** So does a poll in the middle of which the worker takes a host. */
  lemma RequestsAroundKeepProtocol(env: Env, cache: Cache, b: Backlog, inFlight: Option<string>,
                                   order: seq<string>, obs: map<string, Observation>, receive: Option<nat>)
    requires forall k :: k in order ==> k in obs
    requires CacheSound(env, cache) && Protocol(env, cache, b, inFlight)
    requires receive.Some? ==> inFlight.None? && CanReceive(env, cache, b, order, obs, receive.value)
    ensures Protocol(env, cache, RequestsAround(env, cache, b, order, obs, receive),
                     if receive.None? then inFlight
                     else Some(ReceivedHost(env, cache, b, order, obs, receive.value)))
  {
    hide Protocol, CacheSound, RequestAll;
    if receive.None? {
      RequestAllKeepsProtocol(env, cache, b, inFlight, order, obs);
    } else {
      var n := receive.value;
      var middle := RequestAll(env, cache, b, order[..n], obs);
      RequestAllKeepsProtocol(env, cache, b, None, order[..n], obs);
      DequeueKeepsProtocol(env, cache, middle);
      RequestAllKeepsProtocol(env, cache, Receive(middle), Some(middle.queue[0]), order[n..], obs);
    }
  }

  /** The worker reports: the protocol is kept, the cache only grows, and
      clearing the cache for an unnamed host does nothing. */
  lemma CompleteKeepsProtocol(env: Env, s: ServiceState, ip: string, name: string)
    requires CacheSound(env, s.core.cache) && Protocol(env, s.core.cache, s.backlog, Some(ip))
    ensures var after := CompleteLookup(s, ip, name);
            && CacheSound(env, after.core.cache)
            && Protocol(env, after.core.cache, after.backlog, None)
            && Grows(s.core.cache, after.core.cache)
            && (name == "" ==> after.core.cache == s.core.cache)
  {
    var after := CompleteLookup(s, ip, name);
    assert InFlight(Some(ip), ip);
    assert s.backlog.Pending(ip);
    forall h
      ensures after.backlog.Pending(h) <==> h in after.backlog.queue || InFlight(None, h)
    {
      if h != ip {
        assert after.backlog.Pending(h) <==> s.backlog.Pending(h);
        assert !InFlight(Some(ip), h);
      }
    }
    assert forall h :: after.backlog.Pending(h) ==> h != ip && s.backlog.Pending(h);
  }

  /** At most 257 hosts are pending: a full queue and one in flight. */
  lemma PendingAtMost(env: Env, cache: Cache, b: Backlog, inFlight: Option<string>)
    requires Protocol(env, cache, b, inFlight)
    ensures |set h | h in b.pending && b.Pending(h)| <= QUEUE_CAPACITY + 1
  {
    var pending := set h | h in b.pending && b.Pending(h);
    var extra := if inFlight.Some? then {inFlight.value} else {};
    ElementsAtMost(b.queue);
    forall h | h in pending
      ensures h in Elements(b.queue) + extra
    {
      assert h in b.queue || InFlight(inFlight, h);
    }
    SubsetSize(pending, Elements(b.queue) + extra);
  }

  // ---- display names ----

  function NameIn(cache: Cache, host: string): string {
    if host in cache then cache[host].name else ""
  }

  /** Every record shows the cached name of its host, or none. */
  ghost predicate Copies(c: Core) {
    && (forall d :: d in c.domains ==> c.domains[d].snapshot.displayName == NameIn(c.cache, d))
    && (forall k :: k in c.connections ==>
          c.connections[k].snapshot.displayName == NameIn(c.cache, c.connections[k].snapshot.domain))
  }

  lemma CachedNameIsNameIn(env: Env, cache: Cache, host: string)
    requires CacheSound(env, cache)
    ensures CachedName(env, cache, host) == NameIn(cache, host)
  {
  }

  lemma CreditKeepsCopies(c: Core, p: Posting, now: int)
    requires BooksOf(c).Keyed() && Copies(c)
    requires p.displayName == NameIn(c.cache, p.domain)
    ensures Copies(Credit(c, p, now))
  {
    if p.Key() in c.connections {
      SameKeySameConnection(BooksOf(c), p);
    }
  }

  /** The worker updates every copy in the region that updates the cache. */
  lemma CompleteKeepsCopies(s: ServiceState, ip: string, name: string)
    requires Copies(s.core) && BooksOf(s.core).Keyed()
    ensures Copies(CompleteLookup(s, ip, name).core)
  {
    var after := CompleteLookup(s, ip, name).core;
    assert forall h :: NameIn(after.cache, h) == if h == ip then name else NameIn(s.core.cache, h);
  }

  lemma EvictKeepsCopies(c: Core, now: int)
    requires Copies(c)
    ensures Copies(EvictRecords(c, now))
  {
  }

  // ---- names in the upload window ----

  /** The worker does not touch the window: a domain there is unnamed or has
      its cached name, and its connections agree with it. */
  ghost predicate WindowNames(w: Window, cache: Cache) {
    && w.books.NamesAgree()
    && (forall d :: d in w.books.domains ==>
          w.books.domains[d].displayName == "" ||
          (d in cache && w.books.domains[d].displayName == cache[d].name))
  }

  lemma RecordNetworkKeepsNames(w: Window, cache: Cache, now: int, p: Posting, td: nat, tc: nat)
    requires w.books.Keyed() && w.books.Linked() && WindowNames(w, cache)
    requires p.displayName == NameIn(cache, p.domain)
    ensures WindowNames(UploadWindow.RecordNetwork(w, now, p, td, tc), cache)
  {
    PostKeepsNamesAgree(Ensure(w, now).books, p);
  }

  lemma CacheGrowthKeepsNames(w: Window, before: Cache, after: Cache)
    requires WindowNames(w, before) && Grows(before, after)
    ensures WindowNames(w, after)
  {
  }
}
