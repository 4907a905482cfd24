/** What an upload contains, and what a reader of one payload may rely on. */
module Payloads {
  import opened Basics
  import opened Tallies
  import opened Hosts
  import opened Accounts
  import opened Processes
  import opened Ranking
  import opened UploadWindow

  const SECOND: int := 1_000_000_000
  const SCHEMA_VERSION: nat := 1

  /** The fields of the local summary that an upload uses. */
  datatype Counts = Counts(running: bool, processes: nat, domains: nat, connections: nat)

  datatype Payload = Payload(
    schemaVersion: nat, sentAt: int, startedAt: int, endedAt: int, durationSeconds: int, polls: nat,
    running: bool, trackedProcesses: nat, trackedDomains: nat, trackedConnections: nat,
    totalRx: nat, totalTx: nat,
    processes: seq<ProcessUpload>, domains: seq<DomainSnapshot>, connections: seq<ConnectionSnapshot>)
  {
    function Bytes(dir: Direction): nat {
      if dir == RX then totalRx else totalTx
    }
  }

  function TruncatedQuotient(a: int, b: int): int
    requires b > 0
  {
    if a >= 0 then a / b else -(-a / b)
  }

  function Traffic(t: Tally): nat {
    t.rx + t.tx
  }

  const UPLOAD_PROCESS_LESS: (ProcessUpload, ProcessUpload) -> bool :=
    (a: ProcessUpload, b: ProcessUpload) =>
      if a.averageCPU == b.averageCPU then
        if a.averageRSS == b.averageRSS then a.pollsSeen > b.pollsSeen
        else a.averageRSS > b.averageRSS
      else a.averageCPU > b.averageCPU

  predicate UploadLess(a: Tally, b: Tally) {
    if Traffic(a) == Traffic(b) then a.seen > b.seen else Traffic(a) > Traffic(b)
  }

  const UPLOAD_DOMAIN_LESS: (DomainSnapshot, DomainSnapshot) -> bool :=
    (a: DomainSnapshot, b: DomainSnapshot) => UploadLess(a.tally, b.tally)

  const UPLOAD_CONNECTION_LESS: (ConnectionSnapshot, ConnectionSnapshot) -> bool :=
    (a: ConnectionSnapshot, b: ConnectionSnapshot) => UploadLess(a.tally, b.tally)

  /** All three orders meet the demands of `sort.Slice`. */
  lemma UploadOrders()
    ensures StrictWeakOrder(UPLOAD_PROCESS_LESS)
    ensures StrictWeakOrder(UPLOAD_DOMAIN_LESS)
    ensures StrictWeakOrder(UPLOAD_CONNECTION_LESS)
  {
  }

  predicate Uploadable(u: ProcessUpload) {
    u.name != "" && u.pollsSeen != 0
  }

  /** The exported copy of a record. */
  function Exported(u: ProcessUpload): ProcessUpload {
    if u.commandPresent then u else u.(command := "")
  }

  function ProcessPool(m: map<int, ProcessUpload>): set<ProcessUpload> {
    set pid | pid in m && Uploadable(m[pid]) :: Exported(m[pid])
  }

  function DomainPool(env: Env, m: map<string, DomainSnapshot>): set<DomainSnapshot> {
    set d | d in m && env.Exportable(m[d].displayName, m[d].domain) :: m[d]
  }

  function ConnectionPool(env: Env, m: map<string, ConnectionSnapshot>): set<ConnectionSnapshot> {
    set k | k in m && env.Exportable(m[k].displayName, m[k].domain) :: m[k]
  }

  /** `p` is a payload for window `w`: everything exportable, ranked. */
  ghost predicate IsPayload(env: Env, p: Payload, w: Window, now: int, counts: Counts)
    requires w.startedAt.Some?
  {
    && p.schemaVersion == SCHEMA_VERSION && p.sentAt == now
    && p.startedAt == w.startedAt.value
    && p.endedAt == now
    && p.durationSeconds == TruncatedQuotient(now - w.startedAt.value, SECOND)
    && p.polls == w.polls
    && p.running == counts.running
    && p.trackedProcesses == Max(counts.processes, w.maxTrackedProcesses)
    && p.trackedDomains == Max(counts.domains, w.maxTrackedDomains)
    && p.trackedConnections == Max(counts.connections, w.maxTrackedConnections)
    && p.totalRx == w.totalRx && p.totalTx == w.totalTx
    && Ranked(p.processes, ProcessPool(w.processes), UPLOAD_PROCESS_LESS)
    && Ranked(p.domains, DomainPool(env, w.books.domains), UPLOAD_DOMAIN_LESS)
    && Ranked(p.connections, ConnectionPool(env, w.books.connections), UPLOAD_CONNECTION_LESS)
  }

  /** Exported counters of the connections of one domain. */
  function ConnectionTotal(items: seq<ConnectionSnapshot>, d: string, f: Field): nat {
    if items == [] then 0
    else
      var last := items[|items| - 1];
      ConnectionTotal(items[..|items| - 1], d, f) + if last.domain == d then last.tally.At(f) else 0
  }

  function DomainTotal(items: seq<DomainSnapshot>, f: Field): nat {
    if items == [] then 0 else DomainTotal(items[..|items| - 1], f) + items[|items| - 1].tally.At(f)
  }

  lemma {:induction false} SumOnMonotone(m: map<string, Tally>, s: set<string>, t: set<string>, f: Field)
    requires s <= t
    ensures SumOn(m, s, f) <= SumOn(m, t, f)
    decreases |t|
  {
    if t - s == {} {
      assert s == t;
    } else {
      var k :| k in t - s;
      SumOnRemove(m, t, f, k);
      SumOnMonotone(m, s, t - {k}, f);
    }
  }

  function ConnectionKeys(items: seq<ConnectionSnapshot>, d: string): set<string> {
    set c | c in items && c.domain == d :: c.Key()
  }

  lemma {:induction false} ConnectionTotalIsSum(items: seq<ConnectionSnapshot>, m: map<string, ConnectionSnapshot>,
                                                d: string, f: Field)
    requires NoDup(items)
    requires forall c :: c in items ==> c.Key() in m && m[c.Key()] == c
    ensures ConnectionTotal(items, d, f) == SumOn(ByDomain(m, d), ConnectionKeys(items, d), f)
  {
    if items == [] {
      assert ConnectionKeys(items, d) == {};
    } else {
      var n := |items| - 1;
      var last := items[n];
      assert items == items[..n] + [last];
      ConnectionTotalIsSum(items[..n], m, d, f);
      if last.domain == d {
        assert ConnectionKeys(items, d) - {last.Key()} == ConnectionKeys(items[..n], d) by {
          forall c | c in items[..n]
            ensures c.Key() != last.Key()
          {
            assert c != last;
          }
        }
        SumOnRemove(ByDomain(m, d), ConnectionKeys(items, d), f, last.Key());
      } else {
        assert ConnectionKeys(items, d) == ConnectionKeys(items[..n], d);
      }
    }
  }

  lemma ConnectionTotalAtMost(items: seq<ConnectionSnapshot>, m: map<string, ConnectionSnapshot>, d: string, f: Field)
    requires NoDup(items)
    requires forall c :: c in items ==> c.Key() in m && m[c.Key()] == c
    ensures ConnectionTotal(items, d, f) <= Sum(ByDomain(m, d)).At(f)
  {
    hide SumOn;
    ConnectionTotalIsSum(items, m, d, f);
    SumOnMonotone(ByDomain(m, d), ConnectionKeys(items, d), ByDomain(m, d).Keys, f);
  }

  function DomainKeys(items: seq<DomainSnapshot>): set<string> {
    set r | r in items :: r.domain
  }

  lemma {:induction false} DomainTotalIsSum(items: seq<DomainSnapshot>, m: map<string, DomainSnapshot>, f: Field)
    requires NoDup(items)
    requires forall r :: r in items ==> r.domain in m && m[r.domain] == r
    ensures DomainTotal(items, f) == SumOn(DomainTallies(m), DomainKeys(items), f)
  {
    if items == [] {
      assert DomainKeys(items) == {};
    } else {
      var n := |items| - 1;
      var last := items[n];
      assert items == items[..n] + [last];
      DomainTotalIsSum(items[..n], m, f);
      assert DomainKeys(items) - {last.domain} == DomainKeys(items[..n]) by {
        forall r | r in items[..n]
          ensures r.domain != last.domain
        {
          assert r != last;
        }
      }
      SumOnRemove(DomainTallies(m), DomainKeys(items), f, last.domain);
    }
  }

  lemma DomainTotalAtMost(items: seq<DomainSnapshot>, m: map<string, DomainSnapshot>, f: Field)
    requires NoDup(items)
    requires forall r :: r in items ==> r.domain in m && m[r.domain] == r
    ensures DomainTotal(items, f) <= Sum(DomainTallies(m)).At(f)
  {
    hide SumOn;
    DomainTotalIsSum(items, m, f);
    SumOnMonotone(DomainTallies(m), DomainKeys(items), DomainTallies(m).Keys, f);
  }

  /** The connection's domain is listed, under the same name or with the
      connection still unnamed. */
  ghost predicate DomainListed(domains: seq<DomainSnapshot>, c: ConnectionSnapshot) {
    exists r ::
      r in domains && r.domain == c.domain && (c.displayName == "" || c.displayName == r.displayName)
  }

  /** Every exported connection has its domain exported. */
  lemma ConnectionsHaveDomains(env: Env, p: Payload, w: Window, now: int, counts: Counts, c: ConnectionSnapshot)
    requires env.Sane() && w.startedAt.Some? && IsPayload(env, p, w, now, counts)
    requires w.books.Keyed() && w.books.Linked() && w.books.NamesAgree()
    requires c in p.connections
    ensures DomainListed(p.domains, c)
  {
    assert c in ConnectionPool(env, w.books.connections);
    var r := w.books.domains[c.domain];
    assert r in DomainPool(env, w.books.domains);
    assert r in p.domains;
  }

  /** Exported connection counters never exceed their domain's. */
  lemma ConnectionsWithinDomain(env: Env, p: Payload, w: Window, now: int, counts: Counts,
                                r: DomainSnapshot, f: Field)
    requires w.startedAt.Some? && IsPayload(env, p, w, now, counts)
    requires w.books.Keyed() && w.books.Balanced(map[])
    requires r in p.domains
    ensures ConnectionTotal(p.connections, r.domain, f) <= r.tally.At(f)
  {
    hide Sum;
    var m := w.books.connections;
    forall c | c in p.connections
      ensures c.Key() in m && m[c.Key()] == c
    {
      assert c in ConnectionPool(env, m);
    }
    ConnectionTotalAtMost(p.connections, m, r.domain, f);
    assert r in DomainPool(env, w.books.domains);
  }

  /** Exported domain bytes never exceed the totals of the payload. */
  lemma DomainsWithinTotals(env: Env, p: Payload, w: Window, now: int, counts: Counts, recorded: nat, dir: Direction)
    requires w.startedAt.Some? && IsPayload(env, p, w, now, counts)
    requires w.books.Keyed() && Partition(w, recorded)
    ensures DomainTotal(p.domains, dir) <= p.Bytes(dir)
  {
    hide Sum;
    var m := w.books.domains;
    forall r | r in p.domains
      ensures r.domain in m && m[r.domain] == r
    {
      assert r in DomainPool(env, m);
    }
    DomainTotalAtMost(p.domains, m, dir);
  }

  /** Exported averages never exceed exported peaks. */
  lemma ProcessAveragesWithinPeaks(env: Env, p: Payload, w: Window, now: int, counts: Counts, recorded: nat,
                                   u: ProcessUpload)
    requires w.startedAt.Some? && IsPayload(env, p, w, now, counts) && Consistent(w, recorded)
    requires u in p.processes
    ensures u.averageCPU <= u.peakCPU && u.averageRSS <= u.peakRSS && u.pollsSeen > 0
  {
    hide Recorded, Books.Balanced, Sum;
    assert u in ProcessPool(w.processes);
    var pid :| pid in w.processes && Uploadable(w.processes[pid]) && Exported(w.processes[pid]) == u;
    var samples: seq<ProcessSnapshot> :| samples != [] && Recorded(samples) == Some(w.processes[pid]);
    AverageAtMostPeak(samples);
  }

  // ---- what is listed, and in which order ----

  /** Higher average CPU, then higher average memory, then at least as many polls. */
  predicate AtLeastAsBusy(a: ProcessUpload, b: ProcessUpload) {
    || a.averageCPU > b.averageCPU
    || (a.averageCPU == b.averageCPU && a.averageRSS > b.averageRSS)
    || (a.averageCPU == b.averageCPU && a.averageRSS == b.averageRSS && a.pollsSeen >= b.pollsSeen)
  }

  /** More bytes, then at least as many observations. */
  predicate AtLeastAsMuch(a: Tally, b: Tally) {
    a.rx + a.tx > b.rx + b.tx || (a.rx + a.tx == b.rx + b.tx && a.seen >= b.seen)
  }

  lemma PayloadIsOrdered(env: Env, p: Payload, w: Window, now: int, counts: Counts)
    requires w.startedAt.Some? && IsPayload(env, p, w, now, counts)
    ensures forall i, j :: 0 <= i < j < |p.processes| ==> AtLeastAsBusy(p.processes[i], p.processes[j])
    ensures forall i, j :: 0 <= i < j < |p.domains| ==> AtLeastAsMuch(p.domains[i].tally, p.domains[j].tally)
    ensures forall i, j :: 0 <= i < j < |p.connections| ==>
              AtLeastAsMuch(p.connections[i].tally, p.connections[j].tally)
  {
    hide Enumerates, ProcessPool, DomainPool, ConnectionPool;
  }

  /** Exactly the records of the window are listed, each once, except those of
      public addresses for which no usable name is known. */
  lemma PayloadListsRecords(env: Env, p: Payload, w: Window, now: int, counts: Counts)
    requires w.startedAt.Some? && IsPayload(env, p, w, now, counts) && w.books.Keyed()
    ensures NoDup(p.domains) && NoDup(p.connections)
    ensures forall r :: r in p.domains <==>
              && r.domain in w.books.domains && w.books.domains[r.domain] == r
              && (env.normalizeHost(r.displayName) != "" || !env.isPublicIP(r.domain))
    ensures forall c :: c in p.connections <==>
              && c.Key() in w.books.connections && w.books.connections[c.Key()] == c
              && (env.normalizeHost(c.displayName) != "" || !env.isPublicIP(c.domain))
  {
    hide SortedBy, ProcessPool, ConnectionSnapshot.Key;
    assert forall r :: r in p.domains <==> r in DomainPool(env, w.books.domains);
    assert forall c :: c in p.connections <==> c in ConnectionPool(env, w.books.connections);
  }

  /** The duration is the length of the period in whole seconds. */
  lemma PayloadDuration(env: Env, p: Payload, w: Window, now: int, counts: Counts)
    requires w.startedAt.Some? && IsPayload(env, p, w, now, counts)
    ensures p.endedAt >= p.startedAt ==>
              0 <= p.endedAt - p.startedAt - p.durationSeconds * 1_000_000_000 < 1_000_000_000
    ensures p.endedAt < p.startedAt ==>
              0 <= p.startedAt - p.endedAt + p.durationSeconds * 1_000_000_000 < 1_000_000_000
  {
    hide Ranked;
  }

  /** What a reader of a payload may rely on. */
  ghost predicate Sound(p: Payload) {
    && p.polls > 0
    && p.startedAt <= p.endedAt
    && p.trackedDomains <= p.trackedConnections
    && (forall c :: c in p.connections ==> DomainListed(p.domains, c))
    && (forall r, f: Field :: r in p.domains ==> ConnectionTotal(p.connections, r.domain, f) <= r.tally.At(f))
    && (forall dir: Direction :: DomainTotal(p.domains, dir) <= p.Bytes(dir))
    && (forall u :: u in p.processes ==> u.averageCPU <= u.peakCPU && u.averageRSS <= u.peakRSS)
  }

  /** Payload integrity: every payload of a consistent window is sound. */
  lemma PayloadIsSound(env: Env, p: Payload, w: Window, now: int, counts: Counts, recorded: nat)
    requires env.Sane() && Flushable(w) && IsPayload(env, p, w, now, counts)
    requires Consistent(w, recorded) && w.books.NamesAgree()
    requires w.startedAt.value <= now && counts.domains <= counts.connections
    ensures Sound(p)
  {
    hide ConnectionTotal, DomainTotal, Sum, Statistical;
    forall c | c in p.connections
      ensures DomainListed(p.domains, c)
    {
      ConnectionsHaveDomains(env, p, w, now, counts, c);
    }
    forall r, f: Field | r in p.domains
      ensures ConnectionTotal(p.connections, r.domain, f) <= r.tally.At(f)
    {
      ConnectionsWithinDomain(env, p, w, now, counts, r, f);
    }
    forall dir: Direction
      ensures DomainTotal(p.domains, dir) <= p.Bytes(dir)
    {
      DomainsWithinTotals(env, p, w, now, counts, recorded, dir);
    }
    forall u | u in p.processes
      ensures u.averageCPU <= u.peakCPU && u.averageRSS <= u.peakRSS
    {
      ProcessAveragesWithinPeaks(env, p, w, now, counts, recorded, u);
    }
  }
}
