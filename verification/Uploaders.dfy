/** The uploader object: one window, reassigned field by field as the service
    records into it, replaced as a whole when an upload is acknowledged. */
module Uploaders {
  import opened Basics
  import opened Hosts
  import opened Accounts
  import opened Processes
  import opened Ranking
  import opened UploadWindow
  import opened Payloads

  /** `allUploadProcesses`: Go visits the map in any order. */
  method AllUploadProcesses(records: map<int, ProcessUpload>) returns (items: seq<ProcessUpload>)
    requires forall pid :: pid in records ==> records[pid].pid == pid
    ensures Ranked(items, ProcessPool(records), UPLOAD_PROCESS_LESS)
  {
    var listed: seq<ProcessUpload> := [];
    var remaining := records.Keys;
    while remaining != {}
      invariant remaining <= records.Keys
      invariant NoDup(listed)
      invariant forall u :: u in listed <==>
                              u.pid in records && u.pid !in remaining && Uploadable(records[u.pid]) &&
                              Exported(records[u.pid]) == u
      decreases |remaining|
    {
      var pid := Choose(remaining);
      if Uploadable(records[pid]) {
        listed := listed + [Exported(records[pid])];
      }
      remaining := remaining - {pid};
    }
    UploadOrders();
    items := SortSlice(listed, UPLOAD_PROCESS_LESS);
    SortedListingIsRanked(items, listed, ProcessPool(records), UPLOAD_PROCESS_LESS);
  }

  method AllUploadDomains(env: Env, records: map<string, DomainSnapshot>) returns (items: seq<DomainSnapshot>)
    requires forall d :: d in records ==> records[d].domain == d
    ensures Ranked(items, DomainPool(env, records), UPLOAD_DOMAIN_LESS)
  {
    hide SortedBy, StrictWeakOrder;
    var listed: seq<DomainSnapshot> := [];
    var remaining := records.Keys;
    while remaining != {}
      invariant remaining <= records.Keys
      invariant NoDup(listed)
      invariant forall r :: r in listed <==>
                              r.domain in records && r.domain !in remaining && records[r.domain] == r &&
                              env.Exportable(r.displayName, r.domain)
      decreases |remaining|
    {
      var d := Choose(remaining);
      if !(env.normalizeHost(records[d].displayName) == "" && env.isPublicIP(records[d].domain)) {
        listed := listed + [records[d]];
      }
      remaining := remaining - {d};
    }
    UploadOrders();
    items := SortSlice(listed, UPLOAD_DOMAIN_LESS);
    SortedListingIsRanked(items, listed, DomainPool(env, records), UPLOAD_DOMAIN_LESS);
  }

  method AllUploadConnections(env: Env, records: map<string, ConnectionSnapshot>)
    returns (items: seq<ConnectionSnapshot>)
    requires forall k :: k in records ==> records[k].Key() == k
    ensures Ranked(items, ConnectionPool(env, records), UPLOAD_CONNECTION_LESS)
  {
    hide ConnectionSnapshot.Key, SortedBy, StrictWeakOrder;
    var listed: seq<ConnectionSnapshot> := [];
    var remaining := records.Keys;
    while remaining != {}
      invariant remaining <= records.Keys
      invariant NoDup(listed)
      invariant forall c :: c in listed <==>
                              c.Key() in records && c.Key() !in remaining && records[c.Key()] == c &&
                              env.Exportable(c.displayName, c.domain)
      decreases |remaining|
    {
      var k := Choose(remaining);
      if !(env.normalizeHost(records[k].displayName) == "" && env.isPublicIP(records[k].domain)) {
        listed := listed + [records[k]];
      }
      remaining := remaining - {k};
    }
    UploadOrders();
    items := SortSlice(listed, UPLOAD_CONNECTION_LESS);
    SortedListingIsRanked(items, listed, ConnectionPool(env, records), UPLOAD_CONNECTION_LESS);
  }

  class Uploader {
    const env: Env
    const interval: int
    var window: Window

    constructor (env: Env, interval: int)
      ensures this.env == env && this.interval == interval && window == UNSTARTED
    {
      this.env := env;
      this.interval := interval;
      window := UNSTARTED;
    }

    method EnsureWindow(now: int)
      modifies this
      ensures window == Ensure(old(window), now)
    {
      if window.startedAt.Some? {
        return;
      }
      ResetWindow(now);
    }

    method ResetWindow(now: int)
      modifies this
      ensures window == Fresh(now)
    {
      window := Window(Some(now), 0, 0, 0, 0, 0, 0, map[], Books(map[], map[]));
    }

    method RecordProcesses(now: int, pids: ProcessTable)
      modifies this
      ensures window == UploadWindow.RecordProcesses(old(window), now, pids)
    {
      hide RecordProcess, RecordedUpTo;
      EnsureWindow(now);
      ghost var started := window;
      RecordedUpToNothing(started.processes, pids);
      assert pids.Keys - pids.Keys == {};
      var remaining := pids.Keys;
      while remaining != {}
        invariant remaining <= pids.Keys
        invariant window == started.(processes := RecordedUpTo(started.processes, pids, pids.Keys - remaining))
        decreases |remaining|
      {
        var pid := Choose(remaining);
        RecordedUpToStep(started.processes, pids, pids.Keys - remaining, pid);
        assert pids.Keys - (remaining - {pid}) == pids.Keys - remaining + {pid};
        var current := Find(window.processes, pid);
        window := window.(processes := window.processes[pid := RecordProcess(current, pids[pid].snapshot)]);
        remaining := remaining - {pid};
      }
      assert pids.Keys - {} == pids.Keys;
      if |pids| > window.maxTrackedProcesses {
        window := window.(maxTrackedProcesses := |pids|);
      }
    }

    method RecordNetwork(now: int, p: Posting, trackedDomains: nat, trackedConnections: nat)
      modifies this
      ensures window == UploadWindow.RecordNetwork(old(window), now, p, trackedDomains, trackedConnections)
    {
      EnsureWindow(now);
      window := window.(totalRx := window.totalRx + p.rx, totalTx := window.totalTx + p.tx);

      var domain := PostDomain(Find(window.books.domains, p.domain), p);
      window := window.(books := window.books.(domains := window.books.domains[p.domain := domain]));

      var connection := PostConnection(Find(window.books.connections, p.Key()), p);
      window := window.(books := window.books.(connections := window.books.connections[p.Key() := connection]));

      if trackedDomains > window.maxTrackedDomains {
        window := window.(maxTrackedDomains := trackedDomains);
      }
      if trackedConnections > window.maxTrackedConnections {
        window := window.(maxTrackedConnections := trackedConnections);
      }
    }

    method IncrementPoll(now: int)
      modifies this
      ensures window == UploadWindow.IncrementPoll(old(window), now)
    {
      EnsureWindow(now);
      window := window.(polls := window.polls + 1);
    }

    method ShouldUpload(now: int) returns (due: bool)
      ensures due == UploadWindow.ShouldUpload(window, now, interval)
    {
      if window.startedAt.None? || window.polls == 0 {
        return false;
      }
      return now - window.startedAt.value >= interval;
    }

    method BuildPayload(now: int, counts: Counts) returns (p: Payload)
      requires window.startedAt.Some?
      requires window.books.Keyed()
      requires forall pid :: pid in window.processes ==> window.processes[pid].pid == pid
      ensures IsPayload(env, p, window, now, counts)
    {
      var processes := AllUploadProcesses(window.processes);
      var domains := AllUploadDomains(env, window.books.domains);
      var connections := AllUploadConnections(env, window.books.connections);
      p := Payload(
        SCHEMA_VERSION,
        now,
        window.startedAt.value,
        now,
        TruncatedQuotient(now - window.startedAt.value, SECOND),
        window.polls,
        counts.running,
        Max(counts.processes, window.maxTrackedProcesses),
        Max(counts.domains, window.maxTrackedDomains),
        Max(counts.connections, window.maxTrackedConnections),
        window.totalRx,
        window.totalTx,
        processes,
        domains,
        connections);
    }

    /** `accepted` is the outcome of the HTTP exchange. Nothing is sent for an
        empty window; a refused payload leaves the window as it was. */
    method Flush(now: int, counts: Counts, accepted: bool) returns (sent: Option<Payload>, ok: bool)
      requires window.books.Keyed()
      requires forall pid :: pid in window.processes ==> window.processes[pid].pid == pid
      modifies this
      ensures sent.Some? <==> Flushable(old(window))
      ensures sent.Some? ==> IsPayload(env, sent.value, old(window), now, counts)
      ensures ok <==> !(sent.Some? && !accepted)
      ensures window == if sent.Some? && accepted then Fresh(now) else old(window)
    {
      if window.startedAt.None? || window.polls == 0 {
        return None, true;
      }
      var payload := BuildPayload(now, counts);
      sent := Some(payload);
      if !accepted {
        return sent, false;
      }
      ResetWindow(now);
      ok := true;
    }
  }
}
