/** The local summary: which records are shown, and in which order. */
module Summaries {
  import opened Basics
  import opened Hosts
  import opened Accounts
  import opened Processes
  import opened Ranking
  import opened Payloads
  import opened ServiceModel

  const PROCESS_LESS: (ProcessSnapshot, ProcessSnapshot) -> bool :=
    (a: ProcessSnapshot, b: ProcessSnapshot) =>
      if a.cpu == b.cpu then
        if a.rss == b.rss then a.pollsSeen > b.pollsSeen
        else a.rss > b.rss
      else a.cpu > b.cpu

  const DOMAIN_LESS: (DomainSnapshot, DomainSnapshot) -> bool :=
    (a: DomainSnapshot, b: DomainSnapshot) =>
      if Traffic(a.tally) == Traffic(b.tally) then
        if a.tally.rx == b.tally.rx then
          if a.tally.tx == b.tally.tx then a.tally.seen > b.tally.seen
          else a.tally.tx > b.tally.tx
        else a.tally.rx > b.tally.rx
      else Traffic(a.tally) > Traffic(b.tally)

  const CONNECTION_LESS: (ConnectionSnapshot, ConnectionSnapshot) -> bool :=
    (a: ConnectionSnapshot, b: ConnectionSnapshot) =>
      if Traffic(a.tally) == Traffic(b.tally) then
        if a.tally.seen == b.tally.seen then
          if a.processName == b.processName then StringLess(a.domain, b.domain)
          else StringLess(a.processName, b.processName)
        else a.tally.seen > b.tally.seen
      else Traffic(a.tally) > Traffic(b.tally)

  function DomainWeight(d: DomainSnapshot): nat {
    Traffic(d.tally)
  }

  function ConnectionWeight(c: ConnectionSnapshot): nat {
    Traffic(c.tally)
  }

  function ProcessesShown(m: ProcessTable): set<ProcessSnapshot> {
    set pid | pid in m :: m[pid].snapshot
  }

  function DomainsShown(env: Env, m: map<string, DomainRecord>): set<DomainSnapshot> {
    set d | d in m && env.Includable(m[d].snapshot.displayName, m[d].snapshot.domain) :: m[d].snapshot
  }

  function ConnectionsShown(env: Env, m: map<string, ConnectionRecord>): set<ConnectionSnapshot> {
    set k | k in m && env.Includable(m[k].snapshot.displayName, m[k].snapshot.domain) :: m[k].snapshot
  }

  /** What `currentSummaryLocked` gathers, apart from host data. */
  datatype Summary = Summary(
    polls: nat, counts: Counts, topProcess: Option<ProcessSnapshot>, topProcesses: seq<ProcessSnapshot>,
    topDomains: seq<DomainSnapshot>, topConnections: seq<ConnectionSnapshot>)

  /** The TX tie-break of the domain order can never decide anything. */
  lemma TxTieBreakUnreachable(a: DomainSnapshot, b: DomainSnapshot)
    ensures DOMAIN_LESS(a, b) <==>
              || Traffic(a.tally) > Traffic(b.tally)
              || (Traffic(a.tally) == Traffic(b.tally) && a.tally.rx > b.tally.rx)
              || (Traffic(a.tally) == Traffic(b.tally) && a.tally.rx == b.tally.rx && a.tally.seen > b.tally.seen)
  {
  }

  lemma ProcessOrder()
    ensures StrictWeakOrder(PROCESS_LESS)
  {
  }

  lemma DomainOrder()
    ensures StrictWeakOrder(DOMAIN_LESS)
    ensures PrefersHeavy(DOMAIN_LESS, DomainWeight)
  {
  }

  lemma ConnectionOrder()
    ensures StrictWeakOrder(CONNECTION_LESS)
    ensures PrefersHeavy(CONNECTION_LESS, ConnectionWeight)
  {
    hide StringLess;
    forall x
      ensures !CONNECTION_LESS(x, x)
    {
      StringLessTotal(x.domain, x.domain);
    }
    forall x, y, z | CONNECTION_LESS(x, y) && CONNECTION_LESS(y, z)
      ensures CONNECTION_LESS(x, z)
    {
      ConnectionLessTransitive(x, y, z);
    }
    forall x, y, z | !CONNECTION_LESS(x, y) && !CONNECTION_LESS(y, z)
      ensures !CONNECTION_LESS(x, z)
    {
      ConnectionNotLessTransitive(x, y, z);
    }
  }

  /** Not less, on strings, is equal or greater. */
  lemma StringNotLessTransitive(a: string, b: string, c: string)
    requires !StringLess(a, b) && !StringLess(b, c)
    ensures !StringLess(a, c)
  {
    StringLessTotal(a, b);
    StringLessTotal(b, c);
    StringLessTotal(a, c);
    if a != b && b != c {
      StringLessTransitive(c, b, a);
    }
  }

  lemma ConnectionLessTransitive(x: ConnectionSnapshot, y: ConnectionSnapshot, z: ConnectionSnapshot)
    requires CONNECTION_LESS(x, y) && CONNECTION_LESS(y, z)
    ensures CONNECTION_LESS(x, z)
  {
    hide StringLess;
    if StringLess(x.processName, y.processName) && StringLess(y.processName, z.processName) {
      StringLessTransitive(x.processName, y.processName, z.processName);
    }
    if StringLess(x.domain, y.domain) && StringLess(y.domain, z.domain) {
      StringLessTransitive(x.domain, y.domain, z.domain);
    }
    StringLessTotal(x.processName, y.processName);
    StringLessTotal(x.processName, x.processName);
  }

  lemma ConnectionNotLessTransitive(x: ConnectionSnapshot, y: ConnectionSnapshot, z: ConnectionSnapshot)
    requires !CONNECTION_LESS(x, y) && !CONNECTION_LESS(y, z)
    ensures !CONNECTION_LESS(x, z)
  {
    hide StringLess;
    StringLessTotal(x.processName, y.processName);
    StringLessTotal(y.processName, z.processName);
    StringLessTotal(x.processName, z.processName);
    if !StringLess(x.processName, y.processName) && !StringLess(y.processName, z.processName) {
      StringNotLessTransitive(x.processName, y.processName, z.processName);
    }
    if StringLess(y.processName, x.processName) && StringLess(z.processName, y.processName) {
      StringLessTransitive(z.processName, y.processName, x.processName);
    }
    if !StringLess(x.domain, y.domain) && !StringLess(y.domain, z.domain) {
      StringNotLessTransitive(x.domain, y.domain, z.domain);
    }
  }

  /** The domains shown are as many as fit, sorted, and no other choice of as
      many eligible domains carries more traffic. */
  lemma TopDomainsOptimal(env: Env, m: map<string, DomainRecord>, top: seq<DomainSnapshot>, limit: nat)
    requires TopOf(top, limit, DomainsShown(env, m), DOMAIN_LESS)
    ensures |top| == if limit > |DomainsShown(env, m)| then |DomainsShown(env, m)| else limit
    ensures SortedBy(top, DOMAIN_LESS) && NoDup(top) && Elements(top) <= DomainsShown(env, m)
    ensures forall chosen: set<DomainSnapshot> :: chosen <= DomainsShown(env, m) && |chosen| <= |top| ==>
              Weight(chosen, DomainWeight) <= Weight(Elements(top), DomainWeight)
  {
    hide TopOf, Weight, DomainsShown, SortedBy, NoDup;
    DomainOrder();
    TopIsOptimal(top, limit, DomainsShown(env, m), DOMAIN_LESS, DomainWeight);
  }

  lemma TopConnectionsOptimal(env: Env, m: map<string, ConnectionRecord>, top: seq<ConnectionSnapshot>, limit: nat)
    requires TopOf(top, limit, ConnectionsShown(env, m), CONNECTION_LESS)
    ensures |top| == if limit > |ConnectionsShown(env, m)| then |ConnectionsShown(env, m)| else limit
    ensures SortedBy(top, CONNECTION_LESS) && NoDup(top) && Elements(top) <= ConnectionsShown(env, m)
    ensures forall chosen: set<ConnectionSnapshot> :: chosen <= ConnectionsShown(env, m) && |chosen| <= |top| ==>
              Weight(chosen, ConnectionWeight) <= Weight(Elements(top), ConnectionWeight)
  {
    hide TopOf, Weight, ConnectionsShown, SortedBy, NoDup;
    ConnectionOrder();
    TopIsOptimal(top, limit, ConnectionsShown(env, m), CONNECTION_LESS, ConnectionWeight);
  }

  /** `TopProcess` and the head of `TopProcesses` come from two separate unstable
      sorts; they may be different processes, but they tie, and nothing beats
      either of them. */
  lemma TopProcessTies(m: ProcessTable, one: seq<ProcessSnapshot>, many: seq<ProcessSnapshot>, limit: nat)
    requires TopOf(one, 1, ProcessesShown(m), PROCESS_LESS)
    requires TopOf(many, limit, ProcessesShown(m), PROCESS_LESS) && limit > 0
    requires ProcessesShown(m) != {}
    ensures |one| == 1 && many != []
    ensures !PROCESS_LESS(one[0], many[0]) && !PROCESS_LESS(many[0], one[0])
    ensures forall p :: p in ProcessesShown(m) && p != one[0] ==> !PROCESS_LESS(p, one[0])
  {
    hide SortedBy;
    var pool := ProcessesShown(m);
    var a :| Ranked(a, pool, PROCESS_LESS) && one == Truncate(a, 1);
    var b :| Ranked(b, pool, PROCESS_LESS) && many == Truncate(b, limit);
    ProcessOrder();
    HeadsTie(a, b, pool, PROCESS_LESS);
  }

  // ---- the orders, spelled out ----

  /** More CPU, then more memory, then at least as many polls. */
  predicate AtLeastAsBusy(a: ProcessSnapshot, b: ProcessSnapshot) {
    || a.cpu > b.cpu
    || (a.cpu == b.cpu && a.rss > b.rss)
    || (a.cpu == b.cpu && a.rss == b.rss && a.pollsSeen >= b.pollsSeen)
  }

  /** The busiest processes are shown, busiest first. */
  lemma TopProcessesAreBusiest(m: ProcessTable, top: seq<ProcessSnapshot>, limit: nat)
    requires TopOf(top, limit, ProcessesShown(m), PROCESS_LESS)
    ensures forall i, j :: 0 <= i < j < |top| ==> AtLeastAsBusy(top[i], top[j])
    ensures forall i, pid :: 0 <= i < |top| && pid in m && m[pid].snapshot !in top ==>
              AtLeastAsBusy(top[i], m[pid].snapshot)
  {
    TopIsOrdered(top, limit, ProcessesShown(m), PROCESS_LESS);
    hide TopOf;
    forall i, pid | 0 <= i < |top| && pid in m && m[pid].snapshot !in top
      ensures AtLeastAsBusy(top[i], m[pid].snapshot)
    {
      assert m[pid].snapshot in ProcessesShown(m);
    }
  }

  /** As many processes are shown as there are, up to the limit, each once. */
  lemma TopProcessesSize(m: ProcessTable, top: seq<ProcessSnapshot>, limit: nat)
    requires TopOf(top, limit, ProcessesShown(m), PROCESS_LESS)
    requires forall pid :: pid in m ==> m[pid].snapshot.pid == pid
    ensures |top| == if limit > |m| then |m| else limit
    ensures NoDup(top) && forall p :: p in top ==> p.pid in m && m[p.pid].snapshot == p
  {
    var ranking :| Ranked(ranking, ProcessesShown(m), PROCESS_LESS) && top == Truncate(ranking, limit);
    NoDupElements(ranking);
    assert Elements(ranking) == ProcessesShown(m);
    SnapshotCount(m, m.Keys);
    assert |m| == |m.Keys|;
    assert forall p :: p in top ==> p in ranking;
  }

  lemma {:induction false} SnapshotCount(m: ProcessTable, pids: set<int>)
    requires pids <= m.Keys && forall pid :: pid in m ==> m[pid].snapshot.pid == pid
    ensures |set pid | pid in pids :: m[pid].snapshot| == |pids|
    decreases |pids|
  {
    var shown := set pid | pid in pids :: m[pid].snapshot;
    if pids == {} {
      assert shown == {};
    } else {
      var pid := Pick(pids);
      var rest := set other | other in pids - {pid} :: m[other].snapshot;
      SnapshotCount(m, pids - {pid});
      assert shown == rest + {m[pid].snapshot};
      assert m[pid].snapshot !in rest;
    }
  }

  /** More bytes, then more received bytes, then at least as many observations. */
  predicate AtLeastAsMuch(a: DomainSnapshot, b: DomainSnapshot) {
    var x, y := a.tally.rx + a.tally.tx, b.tally.rx + b.tally.tx;
    || x > y
    || (x == y && a.tally.rx > b.tally.rx)
    || (x == y && a.tally.rx == b.tally.rx && a.tally.seen >= b.tally.seen)
  }

  lemma TopDomainsAreBiggest(env: Env, m: map<string, DomainRecord>, top: seq<DomainSnapshot>, limit: nat)
    requires TopOf(top, limit, DomainsShown(env, m), DOMAIN_LESS)
    ensures forall i, j :: 0 <= i < j < |top| ==> AtLeastAsMuch(top[i], top[j])
    ensures forall i, r :: 0 <= i < |top| && r in DomainsShown(env, m) && r !in top ==> AtLeastAsMuch(top[i], r)
  {
    TopIsOrdered(top, limit, DomainsShown(env, m), DOMAIN_LESS);
  }

  /** More bytes, then more observations, then the smaller process name, then the
      smaller host or the same. */
  predicate NotBehind(a: ConnectionSnapshot, b: ConnectionSnapshot) {
    var x, y := a.tally.rx + a.tally.tx, b.tally.rx + b.tally.tx;
    || x > y
    || (x == y && a.tally.seen > b.tally.seen)
    || (x == y && a.tally.seen == b.tally.seen && StringLess(a.processName, b.processName))
    || (x == y && a.tally.seen == b.tally.seen && a.processName == b.processName &&
        (StringLess(a.domain, b.domain) || a.domain == b.domain))
  }

  lemma NotLessIsNotBehind(a: ConnectionSnapshot, b: ConnectionSnapshot)
    requires !CONNECTION_LESS(b, a)
    ensures NotBehind(a, b)
  {
    hide StringLess;
    StringLessTotal(a.processName, b.processName);
    StringLessTotal(a.domain, b.domain);
  }

  lemma TopConnectionsAreBiggest(env: Env, m: map<string, ConnectionRecord>, top: seq<ConnectionSnapshot>, limit: nat)
    requires TopOf(top, limit, ConnectionsShown(env, m), CONNECTION_LESS)
    ensures forall i, j :: 0 <= i < j < |top| ==> NotBehind(top[i], top[j])
    ensures forall i, r :: 0 <= i < |top| && r in ConnectionsShown(env, m) && r !in top ==> NotBehind(top[i], r)
  {
    hide TopOf, ConnectionsShown, NotBehind;
    TopIsOrdered(top, limit, ConnectionsShown(env, m), CONNECTION_LESS);
    forall a, b | !CONNECTION_LESS(b, a)
      ensures NotBehind(a, b)
    {
      NotLessIsNotBehind(a, b);
    }
  }

  // ---- the filter, spelled out ----

  /** A domain is eligible unless its own name and the name shown for it are both
      unusable: public addresses, or nothing once normalised. */
  lemma DomainEligible(env: Env, m: map<string, DomainRecord>, d: string)
    requires d in m
    ensures m[d].snapshot in DomainsShown(env, m) <==>
              var shown, domain := m[d].snapshot.displayName, m[d].snapshot.domain;
              !((env.normalizeHost(shown) == "" || env.isPublicIP(shown)) &&
                (env.normalizeHost(domain) == "" || env.isPublicIP(domain)))
  {
  }

  lemma ConnectionEligible(env: Env, m: map<string, ConnectionRecord>, k: string)
    requires k in m
    ensures m[k].snapshot in ConnectionsShown(env, m) <==>
              var shown, domain := m[k].snapshot.displayName, m[k].snapshot.domain;
              !((env.normalizeHost(shown) == "" || env.isPublicIP(shown)) &&
                (env.normalizeHost(domain) == "" || env.isPublicIP(domain)))
  {
  }
}
