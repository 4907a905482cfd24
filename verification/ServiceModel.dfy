/** The service's state as a value, and each locked region of the watcher as a
    function on it. Where Go iterates over a map the order is an argument. */
module ServiceModel {
  import opened Basics
  import opened Hosts
  import opened Keys
  import opened Accounts
  import opened Processes
  import opened UploadWindow
  import opened Payloads

  const QUEUE_CAPACITY: nat := 256

  /** Cumulative socket counters. */
  datatype Sample = Sample(rx: nat, tx: nat)

  datatype Observation = Observation(pid: int, domain: string, protocol: Protocol, sample: Sample)

  datatype DomainRecord = DomainRecord(snapshot: DomainSnapshot, lastSeen: int)

  datatype ConnectionRecord = ConnectionRecord(snapshot: ConnectionSnapshot, lastSeen: int)

  datatype LookupResult = LookupResult(ready: bool, name: string)

  type Cache = map<string, LookupResult>

  /** Everything but the lookup backlog. `window` is `None` when uploading is
      switched off. */
  datatype Core = Core(
    pids: ProcessTable,
    domains: map<string, DomainRecord>,
    connections: map<string, ConnectionRecord>,
    samples: map<string, Sample>,
    cache: Cache,
    window: Option<Window>)

  /** Hosts asked for, and the buffered channel to the lookup worker. */
  datatype Backlog = Backlog(pending: map<string, bool>, queue: seq<string>) {
    predicate Pending(host: string) {
      host in pending && pending[host]
    }
  }

  datatype ServiceState = ServiceState(polls: nat, core: Core, backlog: Backlog)

  function Initial(uploading: bool): ServiceState {
    ServiceState(0, Core(map[], map[], map[], map[], map[], if uploading then Some(UNSTARTED) else None),
                 Backlog(map[], []))
  }

  // ---- pollProcessesLocked ----

  function PollProcessesCore(c: Core, readings: seq<Reading>, now: int): Core {
    var pids := PollProcesses(c.pids, readings, now);
    c.(pids := pids,
       window := if c.window.Some? then Some(UploadWindow.RecordProcesses(c.window.value, now, pids)) else None)
  }

  // ---- pollDomainsLocked ----

  function DiffOrCurrent(current: nat, previous: nat): nat {
    if current >= previous then current - previous else current
  }

  function Delta(samples: map<string, Sample>, key: string, s: Sample): Sample {
    if key in samples then Sample(DiffOrCurrent(s.rx, samples[key].rx), DiffOrCurrent(s.tx, samples[key].tx))
    else s
  }

  predicate Resolved(cache: Cache, host: string) {
    host in cache && cache[host].ready
  }

  /** The name that `cachedDisplayNameLocked` returns ... */
  function CachedName(env: Env, cache: Cache, host: string): string {
    if env.isPublicIP(host) && Resolved(cache, host) then cache[host].name else ""
  }

  /** ... and what it does to the backlog: a public host that is neither
      resolved nor pending is queued unless the queue is full. */
  function Request(env: Env, cache: Cache, b: Backlog, host: string): Backlog {
    if !env.isPublicIP(host) || Resolved(cache, host) || b.Pending(host) then b
    else if |b.queue| < QUEUE_CAPACITY then Backlog(b.pending[host := true], b.queue + [host])
    else Backlog(b.pending[host := false], b.queue)
  }

  function ProcessName(pids: ProcessTable, pid: int): string {
    if pid in pids then pids[pid].snapshot.name else ""
  }

  function PostingOf(env: Env, c: Core, key: string, o: Observation): Posting {
    var delta := Delta(c.samples, key, o.sample);
    Posting(o.pid, o.protocol, o.domain, CachedName(env, c.cache, o.domain), ProcessName(c.pids, o.pid),
            delta.rx, delta.tx)
  }

  function FindDomain(m: map<string, DomainRecord>, d: string): Option<DomainSnapshot> {
    var r := Find(m, d);
    if r.Some? then Some(r.value.snapshot) else None
  }

  function FindConnection(m: map<string, ConnectionRecord>, k: string): Option<ConnectionSnapshot> {
    var r := Find(m, k);
    if r.Some? then Some(r.value.snapshot) else None
  }

  /** Books one credited delta in the service's own records and in the window. */
  function Credit(c: Core, p: Posting, now: int): Core {
    var domains := c.domains[p.domain := DomainRecord(PostDomain(FindDomain(c.domains, p.domain), p), now)];
    var connections :=
      c.connections[p.Key() := ConnectionRecord(PostConnection(FindConnection(c.connections, p.Key()), p), now)];
    c.(domains := domains,
       connections := connections,
       window := if c.window.None? then None
                 else Some(UploadWindow.RecordNetwork(c.window.value, now, p, |domains|, |connections|)))
  }

  /** One iteration of the loop over the observations. */
  function ObserveCore(env: Env, c: Core, key: string, o: Observation, now: int): Core {
    Credit(c, PostingOf(env, c, key, o), now).(samples := c.samples[key := o.sample])
  }

  function ObserveAllCore(env: Env, c: Core, order: seq<string>, obs: map<string, Observation>, now: int): Core
    requires forall k :: k in order ==> k in obs
  {
    if order == [] then c
    else
      var n := |order| - 1;
      ObserveCore(env, ObserveAllCore(env, c, order[..n], obs, now), order[n], obs[order[n]], now)
  }

  /** The lookups requested along the way; the cache does not change. */
  function RequestAll(env: Env, cache: Cache, b: Backlog, order: seq<string>, obs: map<string, Observation>): Backlog
    requires forall k :: k in order ==> k in obs
  {
    if order == [] then b
    else
      var n := |order| - 1;
      Request(env, cache, RequestAll(env, cache, b, order[..n], obs), obs[order[n]].domain)
  }

  /** The lookup worker takes the head of the queue. */
  function Receive(b: Backlog): Backlog
    requires b.queue != []
  {
    b.(queue := b.queue[1..])
  }

  /** Receiving from a channel needs no lock: the idle worker may take a host in
      the middle of a poll, after the first `n` observations. It can do so only
      once, because it needs the lock before it asks for another. */
  predicate CanReceive(env: Env, cache: Cache, b: Backlog, order: seq<string>, obs: map<string, Observation>, n: nat)
    requires forall k :: k in order ==> k in obs
  {
    n <= |order| && RequestAll(env, cache, b, order[..n], obs).queue != []
  }

  function ReceivedHost(env: Env, cache: Cache, b: Backlog, order: seq<string>, obs: map<string, Observation>, n: nat):
    string
    requires (forall k :: k in order ==> k in obs) && CanReceive(env, cache, b, order, obs, n)
  {
    RequestAll(env, cache, b, order[..n], obs).queue[0]
  }

  /** The requests of a poll with one receive among them, if there is one. */
  function RequestsAround(env: Env, cache: Cache, b: Backlog, order: seq<string>, obs: map<string, Observation>,
                          receive: Option<nat>): Backlog
    requires forall k :: k in order ==> k in obs
    requires receive.Some? ==> CanReceive(env, cache, b, order, obs, receive.value)
  {
    if receive.None? then RequestAll(env, cache, b, order, obs)
    else
      var n := receive.value;
      RequestAll(env, cache, Receive(RequestAll(env, cache, b, order[..n], obs)), order[n..], obs)
  }

  /** When a worker that is ready to receive after `ready` observations does so:
      then, if the loop goes on and the queue is not empty. */
  function ReceivedAt(env: Env, cache: Cache, b: Backlog, order: seq<string>, obs: map<string, Observation>,
                      ready: Option<nat>): (at: Option<nat>)
    requires forall k :: k in order ==> k in obs
    ensures at.Some? ==> CanReceive(env, cache, b, order, obs, at.value)
  {
    if ready.Some? && ready.value < |order| && CanReceive(env, cache, b, order, obs, ready.value) then ready
    else None
  }

  function TakenHost(env: Env, cache: Cache, b: Backlog, order: seq<string>, obs: map<string, Observation>,
                     receive: Option<nat>): Option<string>
    requires forall k :: k in order ==> k in obs
    requires receive.Some? ==> CanReceive(env, cache, b, order, obs, receive.value)
  {
    if receive.None? then None else Some(ReceivedHost(env, cache, b, order, obs, receive.value))
  }

  function ForgetSamples(c: Core, keys: set<string>): Core {
    c.(samples := map k | k in c.samples && k in keys :: c.samples[k])
  }

  function EvictRecords(c: Core, now: int): Core {
    c.(domains := map d | d in c.domains && !Expired(c.domains[d].lastSeen, now, 12) :: c.domains[d],
       connections := map k | k in c.connections && !Expired(c.connections[k].lastSeen, now, 12) :: c.connections[k])
  }

  function PollNetworkCore(env: Env, c: Core, order: seq<string>, obs: map<string, Observation>, now: int): Core
    requires forall k :: k in order ==> k in obs
  {
    EvictRecords(ForgetSamples(ObserveAllCore(env, c, order, obs, now), obs.Keys), now)
  }

  function PollNetwork(env: Env, s: ServiceState, order: seq<string>, obs: map<string, Observation>,
                       receive: Option<nat>, now: int): ServiceState
    requires forall k :: k in order ==> k in obs
    requires receive.Some? ==> CanReceive(env, s.core.cache, s.backlog, order, obs, receive.value)
  {
    s.(core := PollNetworkCore(env, s.core, order, obs, now),
       backlog := RequestsAround(env, s.core.cache, s.backlog, order, obs, receive))
  }

  // ---- the last locked region of pollOnce ----

  function FinishPoll(s: ServiceState, now: int): ServiceState {
    s.(polls := s.polls + 1,
       core := s.core.(window := if s.core.window.None? then None
                                 else Some(UploadWindow.IncrementPoll(s.core.window.value, now))))
  }

  function CountsOf(c: Core, running: bool): Counts {
    Counts(running, |c.pids|, |c.domains|, |c.connections|)
  }

  // ---- the locked region of the lookup worker ----

  function Rename(m: map<string, DomainRecord>, ip: string, name: string): map<string, DomainRecord> {
    if ip in m then m[ip := m[ip].(snapshot := m[ip].snapshot.(displayName := name))] else m
  }

  function RenameConnection(r: ConnectionRecord, ip: string, name: string): ConnectionRecord {
    if r.snapshot.domain == ip then r.(snapshot := r.snapshot.(displayName := name)) else r
  }

  function RenameConnections(m: map<string, ConnectionRecord>, ip: string, name: string):
    map<string, ConnectionRecord>
  {
    map k | k in m :: RenameConnection(m[k], ip, name)
  }

  function CompleteLookup(s: ServiceState, ip: string, name: string): ServiceState {
    s.(core := s.core.(cache := if name != "" then s.core.cache[ip := LookupResult(true, name)]
                                else s.core.cache - {ip},
                       domains := Rename(s.core.domains, ip, name),
                       connections := RenameConnections(s.core.connections, ip, name)),
       backlog := s.backlog.(pending := s.backlog.pending[ip := false]))
  }

  /** The service's records as books. */
  function BooksOf(c: Core): Books {
    Books(map d | d in c.domains :: c.domains[d].snapshot, map k | k in c.connections :: c.connections[k].snapshot)
  }

  lemma CreditPosts(c: Core, p: Posting, now: int)
    ensures BooksOf(Credit(c, p, now)) == BooksOf(c).Post(p)
  {
    assert Find(BooksOf(c).domains, p.domain) == FindDomain(c.domains, p.domain);
    assert Find(BooksOf(c).connections, p.Key()) == FindConnection(c.connections, p.Key());
    assert BooksOf(Credit(c, p, now)).domains == BooksOf(c).Post(p).domains;
    assert BooksOf(Credit(c, p, now)).connections == BooksOf(c).Post(p).connections;
  }

  /** Appending one key runs one more iteration; nothing in the loop touches
      the cache or the process table. */
  lemma {:induction false} ObserveAllFrame(env: Env, c: Core, order: seq<string>, obs: map<string, Observation>,
                                           now: int)
    requires forall k :: k in order ==> k in obs
    ensures ObserveAllCore(env, c, order, obs, now).cache == c.cache
    ensures ObserveAllCore(env, c, order, obs, now).pids == c.pids
    ensures ObserveAllCore(env, c, order, obs, now).window.Some? == c.window.Some?
  {
    if order != [] {
      ObserveAllFrame(env, c, order[..|order| - 1], obs, now);
    }
  }

  lemma ObserveAllAppend(env: Env, c: Core, order: seq<string>, key: string, obs: map<string, Observation>, now: int)
    requires key in obs && forall k :: k in order ==> k in obs
    ensures ObserveAllCore(env, c, order + [key], obs, now) ==
            ObserveCore(env, ObserveAllCore(env, c, order, obs, now), key, obs[key], now)
  {
    hide ObserveCore;
    assert (order + [key])[..|order|] == order;
  }

  lemma CanReceiveAppend(env: Env, cache: Cache, b: Backlog, order: seq<string>, key: string,
                         obs: map<string, Observation>, n: nat)
    requires key in obs && (forall k :: k in order ==> k in obs) && n <= |order|
    ensures CanReceive(env, cache, b, order + [key], obs, n) == CanReceive(env, cache, b, order, obs, n)
    ensures CanReceive(env, cache, b, order, obs, n) ==>
              ReceivedHost(env, cache, b, order + [key], obs, n) == ReceivedHost(env, cache, b, order, obs, n)
  {
    assert (order + [key])[..n] == order[..n];
  }

  lemma RequestAppend(env: Env, cache: Cache, b: Backlog, order: seq<string>, key: string,
                      obs: map<string, Observation>)
    requires key in obs && forall k :: k in order ==> k in obs
    ensures RequestAll(env, cache, b, order + [key], obs) ==
            Request(env, cache, RequestAll(env, cache, b, order, obs), obs[key].domain)
  {
    hide Request;
    assert (order + [key])[..|order|] == order;
  }

  /** A receive stays where it was while the loop goes on. */
  lemma RequestsAroundAppend(env: Env, cache: Cache, b: Backlog, order: seq<string>, key: string,
                             obs: map<string, Observation>, receive: Option<nat>)
    requires key in obs && forall k :: k in order ==> k in obs
    requires receive.Some? ==> CanReceive(env, cache, b, order, obs, receive.value)
    ensures receive.Some? ==> CanReceive(env, cache, b, order + [key], obs, receive.value)
    ensures RequestsAround(env, cache, b, order + [key], obs, receive) ==
            Request(env, cache, RequestsAround(env, cache, b, order, obs, receive), obs[key].domain)
  {
    hide Request, RequestAll;
    if receive.None? {
      RequestAppend(env, cache, b, order, key, obs);
    } else {
      var n := receive.value;
      CanReceiveAppend(env, cache, b, order, key, obs, n);
      assert (order + [key])[..n] == order[..n];
      assert (order + [key])[n..] == order[n..] + [key];
      RequestAppend(env, cache, Receive(RequestAll(env, cache, b, order[..n], obs)), order[n..], key, obs);
    }
  }

  /** One more iteration, with a receive in front of it if the worker is ready. */
  lemma AroundNext(env: Env, cache: Cache, b: Backlog, order: seq<string>, key: string,
                   obs: map<string, Observation>, ready: Option<nat>)
    requires key in obs && forall k :: k in order ==> k in obs
    ensures var at := ReceivedAt(env, cache, b, order, obs, ready);
            var next := ReceivedAt(env, cache, b, order + [key], obs, ready);
            var here := RequestsAround(env, cache, b, order, obs, at);
            var received := ready == Some(|order|) && here.queue != [];
            && (ready == Some(|order|) ==> at == None)
            && TakenHost(env, cache, b, order + [key], obs, next) ==
               (if received then Some(here.queue[0]) else TakenHost(env, cache, b, order, obs, at))
            && RequestsAround(env, cache, b, order + [key], obs, next) ==
               Request(env, cache, if received then Receive(here) else here, obs[key].domain)
  {
    hide Request, RequestAll;
    var next := ReceivedAt(env, cache, b, order + [key], obs, ready);
    if ready == Some(|order|) {
      assert (order + [key])[..|order|] == order && (order + [key])[|order|..] == [] + [key];
      RequestAppend(env, cache, b, order, key, obs);
      if next.Some? {
        var after := Receive(RequestAll(env, cache, b, order, obs));
        RequestAppend(env, cache, after, [], key, obs);
        NothingRequested(env, cache, after, obs);
      }
    } else {
      if ready.Some? && ready.value <= |order| {
        CanReceiveAppend(env, cache, b, order, key, obs, ready.value);
      }
      RequestsAroundAppend(env, cache, b, order, key, obs, ReceivedAt(env, cache, b, order, obs, ready));
    }
  }

  lemma NothingRequested(env: Env, cache: Cache, b: Backlog, obs: map<string, Observation>)
    ensures RequestAll(env, cache, b, [], obs) == b
  {
  }

  lemma NobodyReceived(env: Env, cache: Cache, b: Backlog, obs: map<string, Observation>, ready: Option<nat>)
    ensures ReceivedAt(env, cache, b, [], obs, ready) == None
    ensures TakenHost(env, cache, b, [], obs, None) == None && RequestsAround(env, cache, b, [], obs, None) == b
  {
  }
}
