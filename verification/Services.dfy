/** The service object. Its methods are the locked regions of the watcher; each
    one is tied to the function of the same region in ServiceModel. */
module Services {
  import opened Basics
  import opened Hosts
  import opened Accounts
  import opened Processes
  import opened UploadWindow
  import opened Payloads
  import opened Uploaders
  import opened Ranking
  import opened ServiceModel
  import opened Summaries

  class Service {
    const env: Env
    const uploader: Uploader?
    var polls: nat
    var pids: ProcessTable
    var domains: map<string, DomainRecord>
    var connections: map<string, ConnectionRecord>
    var networkSamples: map<string, Sample>
    var lookupCache: Cache
    var lookupPending: map<string, bool>
    var lookupQueue: seq<string>

    constructor (env: Env, uploader: Uploader?)
      requires uploader != null ==> uploader.window == UNSTARTED
      ensures this.env == env && this.uploader == uploader
      ensures State() == Initial(uploader != null)
    {
      this.env, this.uploader := env, uploader;
      polls := 0;
      pids, domains, connections, networkSamples := map[], map[], map[], map[];
      lookupCache, lookupPending, lookupQueue := map[], map[], [];
    }

    ghost function CoreState(): Core
      reads this, uploader
    {
      Core(pids, domains, connections, networkSamples, lookupCache,
           if uploader == null then None else Some(uploader.window))
    }

    ghost function State(): ServiceState
      reads this, uploader
    {
      ServiceState(polls, CoreState(), Backlog(lookupPending, lookupQueue))
    }

    method RefreshProcess(r: Reading, now: int)
      modifies `pids
      ensures pids == Refresh(old(pids), r, now)
    {
      var seen := if r.pid in pids then pids[r.pid].snapshot.pollsSeen else 0;
      var snapshot := ProcessSnapshot(r.pid, r.name, r.command, r.cpu, r.rss, seen + 1);
      pids := pids[r.pid := ProcessRecord(snapshot, now)];
    }

    /** pollProcessesLocked */
    method PollProcesses(readings: seq<Reading>, now: int)
      modifies `pids, uploader
      ensures State() == old(State()).(core := PollProcessesCore(old(CoreState()), readings, now))
    {
      hide Refresh, RefreshAll, EvictProcesses, UploadWindow.RecordProcesses;
      RefreshAllNothing(pids, readings, now);
      var current: set<int> := {};
      for n := 0 to |readings|
        modifies `pids
        invariant pids == RefreshAll(old(pids), readings[..n], now)
        invariant current == Listed(readings[..n])
      {
        RefreshAllNext(old(pids), readings, n, now);
        current := current + {readings[n].pid};
        RefreshProcess(readings[n], now);
      }
      assert readings[..|readings|] == readings;
      EvictStaleProcesses(current, now);
      if uploader != null {
        uploader.RecordProcesses(now, pids);
      }
    }

    method EvictStaleProcesses(current: set<int>, now: int)
      modifies `pids
      ensures pids == EvictProcesses(old(pids), current, now)
    {
      var remaining := pids.Keys;
      while remaining != {}
        invariant remaining <= pids.Keys <= old(pids).Keys
        invariant forall pid :: pid in pids ==> pids[pid] == old(pids)[pid]
        invariant forall pid :: pid in old(pids) ==>
                    (pid in pids <==>
                       pid in remaining || pid in current || !Expired(old(pids)[pid].lastSeen, now, 2))
        decreases |remaining|
      {
        var pid := Choose(remaining);
        if pid !in current && now - pids[pid].lastSeen > POLL_INTERVAL * 2 {
          pids := pids - {pid};
        }
        remaining := remaining - {pid};
      }
      assert forall pid: int :: pid !in remaining;
      assert forall pid: int :: pid in old(pids) ==>
                 (pid in pids <==> pid in current || !Expired(old(pids)[pid].lastSeen, now, 2));
      assert pids.Keys == EvictProcesses(old(pids), current, now).Keys;
      assert forall pid: int :: pid in pids ==> pids[pid] == EvictProcesses(old(pids), current, now)[pid];
    }

    /** cachedDisplayNameLocked */
    method CachedDisplayName(host: string) returns (name: string)
      modifies `lookupPending, `lookupQueue
      ensures name == CachedName(env, lookupCache, host)
      ensures Backlog(lookupPending, lookupQueue) ==
              Request(env, lookupCache, old(Backlog(lookupPending, lookupQueue)), host)
    {
      if !env.isPublicIP(host) {
        return "";
      }
      if host in lookupCache && lookupCache[host].ready {
        return lookupCache[host].name;
      }
      if host in lookupPending && lookupPending[host] {
        return "";
      }
      lookupPending := lookupPending[host := true];
      if |lookupQueue| < QUEUE_CAPACITY {
        lookupQueue := lookupQueue + [host];
      } else {
        lookupPending := lookupPending[host := false];
      }
      name := "";
    }

    /** The bookings of one credited delta. */
    method Credit(posting: Posting, now: int)
      modifies `domains, `connections, uploader
      ensures CoreState() == ServiceModel.Credit(old(CoreState()), posting, now)
    {
      var domain := PostDomain(FindDomain(domains, posting.domain), posting);
      domains := domains[posting.domain := DomainRecord(domain, now)];

      var connectionKey := posting.Key();
      var connection := PostConnection(FindConnection(connections, connectionKey), posting);
      connections := connections[connectionKey := ConnectionRecord(connection, now)];

      if uploader != null {
        uploader.RecordNetwork(now, posting, |domains|, |connections|);
      }
    }

    /** One iteration of the loop over the observations. */
    method Observe(key: string, observation: Observation, now: int)
      modifies `domains, `connections, `networkSamples, `lookupPending, `lookupQueue, uploader
      ensures State() ==
              old(State()).(core := ObserveCore(env, old(CoreState()), key, observation, now),
                            backlog := Request(env, lookupCache, old(Backlog(lookupPending, lookupQueue)),
                                               observation.domain))
    {
      hide ServiceModel.Credit;
      var sample := observation.sample;
      if key in networkSamples {
        var previous := networkSamples[key];
        sample := Sample(DiffOrCurrent(sample.rx, previous.rx), DiffOrCurrent(sample.tx, previous.tx));
      }

      var displayName := CachedDisplayName(observation.domain);
      var processName := if observation.pid in pids then pids[observation.pid].snapshot.name else "";
      Credit(Posting(observation.pid, observation.protocol, observation.domain, displayName, processName,
                     sample.rx, sample.tx), now);
      networkSamples := networkSamples[key := observation.sample];
    }

    method ForgetAbsentSamples(keys: set<string>)
      modifies `networkSamples
      ensures networkSamples == map k | k in old(networkSamples) && k in keys :: old(networkSamples)[k]
    {
      var remaining := networkSamples.Keys;
      while remaining != {}
        invariant remaining <= networkSamples.Keys <= old(networkSamples).Keys
        invariant forall k :: k in networkSamples ==> networkSamples[k] == old(networkSamples)[k]
        invariant forall k :: k in old(networkSamples) ==> (k in networkSamples <==> k in remaining || k in keys)
        decreases |remaining|
      {
        var key := Choose(remaining);
        if key !in keys {
          networkSamples := networkSamples - {key};
        }
        remaining := remaining - {key};
      }
    }

    method EvictStaleDomains(now: int)
      modifies `domains
      ensures domains == EvictRecords(old(CoreState()), now).domains
    {
      var remaining := domains.Keys;
      while remaining != {}
        invariant remaining <= domains.Keys <= old(domains).Keys
        invariant forall d :: d in domains ==> domains[d] == old(domains)[d]
        invariant forall d :: d in old(domains) ==>
                    (d in domains <==> d in remaining || !Expired(old(domains)[d].lastSeen, now, 12))
        decreases |remaining|
      {
        var domain := Choose(remaining);
        if now - domains[domain].lastSeen > POLL_INTERVAL * 12 {
          domains := domains - {domain};
        }
        remaining := remaining - {domain};
      }
    }

    method EvictStaleConnections(now: int)
      modifies `connections
      ensures connections == EvictRecords(old(CoreState()), now).connections
    {
      var remaining := connections.Keys;
      while remaining != {}
        invariant remaining <= connections.Keys <= old(connections).Keys
        invariant forall k :: k in connections ==> connections[k] == old(connections)[k]
        invariant forall k :: k in old(connections) ==>
                    (k in connections <==> k in remaining || !Expired(old(connections)[k].lastSeen, now, 12))
        decreases |remaining|
      {
        var key := Choose(remaining);
        if now - connections[key].lastSeen > POLL_INTERVAL * 12 {
          connections := connections - {key};
        }
        remaining := remaining - {key};
      }
    }

    /** The loop of pollDomainsLocked; `order` is the order Go happened to take.
        An idle worker may be ready to receive once `ready` observations have
        been handled; `taken` is the host that it got. */
    method ObserveAll(observations: map<string, Observation>, now: int, ready: Option<nat>)
      returns (ghost order: seq<string>, taken: Option<string>)
      modifies `domains, `connections, `networkSamples, `lookupPending, `lookupQueue, uploader
      ensures Enumerates(order, observations.Keys)
      ensures var before := old(Backlog(lookupPending, lookupQueue));
              var at := ReceivedAt(env, lookupCache, before, order, observations, ready);
              && taken == TakenHost(env, lookupCache, before, order, observations, at)
              && State() == old(State()).(core := ObserveAllCore(env, old(CoreState()), order, observations, now),
                                          backlog := RequestsAround(env, lookupCache, before, order, observations, at))
    {
      hide ObserveCore, Request, RequestAll, RequestsAround, ReceivedAt, TakenHost;
      ghost var before := Backlog(lookupPending, lookupQueue);
      order, taken := [], None;
      NobodyReceived(env, lookupCache, before, observations, ready);
      var handled := 0;
      var remaining := observations.Keys;
      while remaining != {}
        invariant remaining <= observations.Keys && handled == |order|
        invariant Enumerates(order, observations.Keys - remaining)
        invariant var at := ReceivedAt(env, lookupCache, before, order, observations, ready);
                  && taken == TakenHost(env, lookupCache, before, order, observations, at)
                  && State() == old(State()).(core := ObserveAllCore(env, old(CoreState()), order, observations, now),
                                              backlog := RequestsAround(env, lookupCache, before, order, observations,
                                                                        at))
        decreases |remaining|
      {
        var key := Choose(remaining);
        AroundNext(env, lookupCache, before, order, key, observations, ready);
        ObserveAllAppend(env, old(CoreState()), order, key, observations, now);
        if ready == Some(handled) && |lookupQueue| > 0 {
          var ip := TakeJob();
          taken := Some(ip);
        }
        Observe(key, observations[key], now);
        handled := handled + 1;
        order := order + [key];
        remaining := remaining - {key};
      }
    }

    /** pollDomainsLocked */
    method PollDomains(observations: map<string, Observation>, now: int, ready: Option<nat>)
      returns (ghost order: seq<string>, taken: Option<string>)
      modifies `domains, `connections, `networkSamples, `lookupPending, `lookupQueue, uploader
      ensures Enumerates(order, observations.Keys)
      ensures var before := old(Backlog(lookupPending, lookupQueue));
              var at := ReceivedAt(env, lookupCache, before, order, observations, ready);
              && taken == TakenHost(env, lookupCache, before, order, observations, at)
              && State() == PollNetwork(env, old(State()), order, observations, at, now)
    {
      hide ObserveAllCore, RequestsAround, ReceivedAt, TakenHost;
      order, taken := ObserveAll(observations, now, ready);
      ForgetAbsentSamples(observations.Keys);
      EvictStaleDomains(now);
      EvictStaleConnections(now);
    }

    /** The last locked region of pollOnce; the upload happens after it. */
    method FinishPoll(now: int) returns (counts: Counts, shouldUpload: bool)
      modifies `polls, uploader
      ensures State() == ServiceModel.FinishPoll(old(State()), now)
      ensures counts == CountsOf(CoreState(), true)
      ensures shouldUpload <==> uploader != null && ShouldUpload(uploader.window, now, uploader.interval)
    {
      polls := polls + 1;
      if uploader != null {
        uploader.IncrementPoll(now);
      }
      counts := Counts(true, |pids|, |domains|, |connections|);
      shouldUpload := false;
      if uploader != null {
        shouldUpload := uploader.ShouldUpload(now);
      }
    }

    /** The worker receives the next host from the channel. */
    method TakeJob() returns (ip: string)
      requires lookupQueue != []
      modifies `lookupQueue
      ensures [ip] + lookupQueue == old(lookupQueue)
    {
      ip := lookupQueue[0];
      lookupQueue := lookupQueue[1..];
    }

    /** The locked region of the lookup worker, for host `ip` and whatever name
        the lookup commands came up with. */
    method CompleteLookup(ip: string, name: string)
      modifies `lookupPending, `lookupCache, `domains, `connections
      ensures State() == ServiceModel.CompleteLookup(old(State()), ip, name)
    {
      lookupPending := lookupPending[ip := false];
      if name != "" {
        lookupCache := lookupCache[ip := LookupResult(true, name)];
      } else {
        lookupCache := lookupCache - {ip};
      }
      if ip in domains {
        var record := domains[ip];
        domains := domains[ip := record.(snapshot := record.snapshot.(displayName := name))];
      }
      RenameConnectionsOf(ip, name);
    }

    method RenameConnectionsOf(ip: string, name: string)
      modifies `connections
      ensures connections == RenameConnections(old(connections), ip, name)
    {
      var remaining := connections.Keys;
      while remaining != {}
        invariant remaining <= connections.Keys == old(connections).Keys
        invariant forall k :: k in connections ==>
                    connections[k] == if k in remaining then old(connections)[k]
                                      else RenameConnection(old(connections)[k], ip, name)
        decreases |remaining|
      {
        var key := Choose(remaining);
        var record := connections[key];
        if record.snapshot.domain == ip {
          connections := connections[key := record.(snapshot := record.snapshot.(displayName := name))];
        }
        remaining := remaining - {key};
      }
    }

    // ---- the local summary ----

    method TopProcesses(limit: nat) returns (top: seq<ProcessSnapshot>)
      requires forall pid :: pid in pids ==> pids[pid].snapshot.pid == pid
      ensures TopOf(top, limit, ProcessesShown(pids), PROCESS_LESS)
    {
      var records: seq<ProcessSnapshot> := [];
      var remaining := pids.Keys;
      while remaining != {}
        invariant remaining <= pids.Keys
        invariant NoDup(records)
        invariant forall p :: p in records <==>
                                p.pid in pids && p.pid !in remaining && pids[p.pid].snapshot == p
        decreases |remaining|
      {
        var pid := Choose(remaining);
        records := records + [pids[pid].snapshot];
        remaining := remaining - {pid};
      }
      ProcessOrder();
      var sorted := SortSlice(records, PROCESS_LESS);
      SortedListingIsRanked(sorted, records, ProcessesShown(pids), PROCESS_LESS);
      top := Truncate(sorted, limit);
    }

    /** The first of a sort of its own, if there is any process. */
    method TopProcess() returns (top: Option<ProcessSnapshot>)
      requires forall pid :: pid in pids ==> pids[pid].snapshot.pid == pid
      ensures top.None? ==> TopOf([], 1, ProcessesShown(pids), PROCESS_LESS)
      ensures top.Some? ==> TopOf([top.value], 1, ProcessesShown(pids), PROCESS_LESS)
    {
      var one := TopProcesses(1);
      if |one| == 0 {
        return None;
      }
      assert one == [one[0]];
      top := Some(one[0]);
    }

    method TopDomains(limit: nat) returns (top: seq<DomainSnapshot>)
      requires forall d :: d in domains ==> domains[d].snapshot.domain == d
      ensures TopOf(top, limit, DomainsShown(env, domains), DOMAIN_LESS)
    {
      hide SortedBy, StrictWeakOrder;
      var records: seq<DomainSnapshot> := [];
      var remaining := domains.Keys;
      while remaining != {}
        invariant remaining <= domains.Keys
        invariant NoDup(records)
        invariant forall r :: r in records <==>
                                r.domain in domains && r.domain !in remaining && domains[r.domain].snapshot == r &&
                                env.Includable(r.displayName, r.domain)
        decreases |remaining|
      {
        var domain := Choose(remaining);
        if env.Includable(domains[domain].snapshot.displayName, domains[domain].snapshot.domain) {
          records := records + [domains[domain].snapshot];
        }
        remaining := remaining - {domain};
      }
      DomainOrder();
      var sorted := SortSlice(records, DOMAIN_LESS);
      SortedListingIsRanked(sorted, records, DomainsShown(env, domains), DOMAIN_LESS);
      top := Truncate(sorted, limit);
    }

    method TopConnections(limit: nat) returns (top: seq<ConnectionSnapshot>)
      requires forall k :: k in connections ==> connections[k].snapshot.Key() == k
      ensures TopOf(top, limit, ConnectionsShown(env, connections), CONNECTION_LESS)
    {
      hide ConnectionSnapshot.Key, SortedBy, StrictWeakOrder;
      var records: seq<ConnectionSnapshot> := [];
      var remaining := connections.Keys;
      while remaining != {}
        invariant remaining <= connections.Keys
        invariant NoDup(records)
        invariant forall c :: c in records <==>
                                c.Key() in connections && c.Key() !in remaining &&
                                connections[c.Key()].snapshot == c && env.Includable(c.displayName, c.domain)
        decreases |remaining|
      {
        var key := Choose(remaining);
        if env.Includable(connections[key].snapshot.displayName, connections[key].snapshot.domain) {
          records := records + [connections[key].snapshot];
        }
        remaining := remaining - {key};
      }
      ConnectionOrder();
      var sorted := SortSlice(records, CONNECTION_LESS);
      SortedListingIsRanked(sorted, records, ConnectionsShown(env, connections), CONNECTION_LESS);
      top := Truncate(sorted, limit);
    }

    /** currentSummaryLocked */
    method CurrentSummary(running: bool) returns (summary: Summary)
      requires forall pid :: pid in pids ==> pids[pid].snapshot.pid == pid
      requires BooksOf(CoreState()).Keyed()
      ensures summary.polls == polls && summary.counts == CountsOf(CoreState(), running)
      ensures summary.topProcess.Some? ==> TopOf([summary.topProcess.value], 1, ProcessesShown(pids), PROCESS_LESS)
      ensures summary.topProcess.None? ==> TopOf([], 1, ProcessesShown(pids), PROCESS_LESS)
      ensures TopOf(summary.topProcesses, 6, ProcessesShown(pids), PROCESS_LESS)
      ensures TopOf(summary.topDomains, 60, DomainsShown(env, domains), DOMAIN_LESS)
      ensures TopOf(summary.topConnections, 20, ConnectionsShown(env, connections), CONNECTION_LESS)
    {
      hide TopOf;
      assert forall d :: d in domains ==> BooksOf(CoreState()).domains[d] == domains[d].snapshot;
      assert forall k :: k in connections ==> BooksOf(CoreState()).connections[k] == connections[k].snapshot;
      var topProcess := TopProcess();
      var topProcesses := TopProcesses(6);
      var topDomains := TopDomains(60);
      var topConnections := TopConnections(20);
      summary := Summary(polls, Counts(running, |pids|, |domains|, |connections|), topProcess, topProcesses,
                         topDomains, topConnections);
    }

    /** The state that `shutdown` leaves behind; `accepted` is the outcome of the
        last upload. The lock is held throughout. */
    method Shutdown(now: int, accepted: bool) returns (sent: Option<Payload>)
      requires uploader != null ==>
                 && uploader.env == env && uploader.window.books.Keyed()
                 && forall pid :: pid in uploader.window.processes ==> uploader.window.processes[pid].pid == pid
      modifies uploader
      ensures sent.Some? <==> old(CoreState()).window.Some? && Flushable(old(CoreState()).window.value)
      ensures sent.Some? ==> IsPayload(env, sent.value, old(CoreState()).window.value, now,
                                       CountsOf(old(CoreState()), false))
      ensures State() ==
              if sent.Some? && accepted then old(State()).(core := old(CoreState()).(window := Some(Fresh(now))))
              else old(State())
    {
      sent := None;
      if uploader != null {
        var counts := Counts(false, |pids|, |domains|, |connections|);
        var ok: bool;
        sent, ok := uploader.Flush(now, counts, accepted);
      }
    }
  }
}
