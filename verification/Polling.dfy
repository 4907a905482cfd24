/** One poll keeps all record invariants together. */
module Polling {
  import opened Basics
  import opened Hosts
  import opened Tallies
  import opened Accounts
  import opened Processes
  import opened UploadWindow
  import opened ServiceModel
  import opened Records
  import opened Lookups

  ghost predicate WindowOk(window: Option<Window>, cache: Cache, recorded: nat) {
    window.Some? ==> Consistent(window.value, recorded) && WindowNames(window.value, cache)
  }

  ghost predicate PidsKeyed(pids: ProcessTable) {
    forall pid :: pid in pids ==> pids[pid].snapshot.pid == pid
  }

  /** The state between two locked regions. `recorded` counts the postings in
      the current window. */
  ghost predicate CoreOk(env: Env, c: Core, clock: int, carried: map<string, Tally>, recorded: nat) {
    && Linkage(c, clock)
    && Conserved(c, carried)
    && CacheSound(env, c.cache)
    && Copies(c)
    && PidsKeyed(c.pids)
    && WindowOk(c.window, c.cache, recorded)
  }

  ghost predicate WindowStarted(c: Core) {
    c.window.Some? ==> c.window.value.startedAt.Some?
  }

  lemma CreditKeepsWindowOk(c: Core, p: Posting, now: int, recorded: nat)
    requires WindowOk(c.window, c.cache, recorded) && WindowStarted(c)
    requires p.displayName == NameIn(c.cache, p.domain)
    requires |Credit(c, p, now).domains| <= |Credit(c, p, now).connections|
    ensures WindowOk(Credit(c, p, now).window, c.cache, recorded + 1) && WindowStarted(Credit(c, p, now))
  {
    if c.window.Some? {
      var after := Credit(c, p, now);
      RecordNetworkKeepsConsistent(c.window.value, recorded, now, p, |after.domains|, |after.connections|);
      RecordNetworkKeepsNames(c.window.value, c.cache, now, p, |after.domains|, |after.connections|);
    }
  }

  lemma CreditKeepsOk(env: Env, c: Core, p: Posting, clock: int, now: int, carried: map<string, Tally>, recorded: nat)
    requires CoreOk(env, c, clock, carried, recorded) && WindowStarted(c) && clock <= now
    requires p.displayName == NameIn(c.cache, p.domain)
    ensures CoreOk(env, Credit(c, p, now), now, carried, recorded + 1) && WindowStarted(Credit(c, p, now))
  {
    CreditKeepsLinkage(c, p, clock, now);
    CreditKeepsConserved(c, p, carried, now);
    CreditKeepsCopies(c, p, now);
    LinkageMeaning(Credit(c, p, now), now);
    CreditKeepsWindowOk(c, p, now, recorded);
    hide Linkage, Conserved, Copies, WindowOk;
  }

  lemma SamplesDoNotMatter(env: Env, c: Core, samples: map<string, Sample>, clock: int,
                           carried: map<string, Tally>, recorded: nat)
    requires CoreOk(env, c, clock, carried, recorded)
    ensures CoreOk(env, c.(samples := samples), clock, carried, recorded)
  {
    hide Books.Balanced, Consistent, WindowNames;
    assert BooksOf(c.(samples := samples)) == BooksOf(c);
    assert forall d, k :: d in c.domains ==> (LastSeenBy(c.(samples := samples), d, k) <==> LastSeenBy(c, d, k));
  }

  lemma ObserveKeepsOk(env: Env, c: Core, key: string, o: Observation, clock: int, now: int,
                       carried: map<string, Tally>, recorded: nat)
    requires CoreOk(env, c, clock, carried, recorded) && WindowStarted(c) && clock <= now
    ensures CoreOk(env, ObserveCore(env, c, key, o, now), now, carried, recorded + 1)
    ensures WindowStarted(ObserveCore(env, c, key, o, now))
  {
    var p := PostingOf(env, c, key, o);
    CachedNameIsNameIn(env, c.cache, o.domain);
    CreditKeepsOk(env, c, p, clock, now, carried, recorded);
    hide CoreOk, Credit;
    SamplesDoNotMatter(env, Credit(c, p, now), c.samples[key := o.sample], now, carried, recorded + 1);
  }

  lemma {:induction false} ObserveAllKeepsOk(env: Env, c: Core, order: seq<string>, obs: map<string, Observation>,
                                             now: int, carried: map<string, Tally>, recorded: nat)
    requires forall k :: k in order ==> k in obs
    requires CoreOk(env, c, now, carried, recorded) && WindowStarted(c)
    ensures CoreOk(env, ObserveAllCore(env, c, order, obs, now), now, carried, recorded + |order|)
    ensures WindowStarted(ObserveAllCore(env, c, order, obs, now))
  {
    hide CoreOk, ObserveCore;
    if order != [] {
      var n := |order| - 1;
      ObserveAllKeepsOk(env, c, order[..n], obs, now, carried, recorded);
      ObserveKeepsOk(env, ObserveAllCore(env, c, order[..n], obs, now), order[n], obs[order[n]], now, now,
                     carried, recorded + n);
    }
  }

  lemma EvictKeepsOk(env: Env, c: Core, now: int, carried: map<string, Tally>, recorded: nat)
    requires CoreOk(env, c, now, carried, recorded)
    ensures CoreOk(env, EvictRecords(c, now), now, CarryOver(c, carried, now), recorded)
  {
    EvictKeepsLinkage(c, now, now);
    EvictKeepsConserved(c, carried, now);
    EvictKeepsCopies(c, now);
    hide Linkage, Conserved, Copies, WindowOk;
  }

  /** What eviction at the end of a network poll carries over. */
  ghost function CarriedAfterPoll(env: Env, c: Core, order: seq<string>, obs: map<string, Observation>, now: int,
                                  carried: map<string, Tally>): map<string, Tally>
    requires forall k :: k in order ==> k in obs
  {
    CarryOver(ForgetSamples(ObserveAllCore(env, c, order, obs, now), obs.Keys), carried, now)
  }

  lemma PollNetworkKeepsOk(env: Env, c: Core, order: seq<string>, obs: map<string, Observation>, now: int,
                           carried: map<string, Tally>, recorded: nat)
    requires forall k :: k in order ==> k in obs
    requires CoreOk(env, c, now, carried, recorded) && WindowStarted(c)
    ensures CoreOk(env, PollNetworkCore(env, c, order, obs, now), now,
                   CarriedAfterPoll(env, c, order, obs, now, carried), recorded + |order|)
  {
    hide CoreOk, ObserveAllCore, CarryOver, EvictRecords;
    var observed := ObserveAllCore(env, c, order, obs, now);
    ObserveAllKeepsOk(env, c, order, obs, now, carried, recorded);
    var forgotten := ForgetSamples(observed, obs.Keys);
    SamplesDoNotMatter(env, observed, forgotten.samples, now, carried, recorded + |order|);
    EvictKeepsOk(env, forgotten, now, carried, recorded + |order|);
  }

  lemma TimePasses(c: Core, clock: int, now: int)
    requires Linkage(c, clock) && clock <= now
    ensures Linkage(c, now)
  {
  }

  lemma {:induction false} RefreshAllKeepsKeyed(pids: ProcessTable, readings: seq<Reading>, now: int)
    requires PidsKeyed(pids)
    ensures PidsKeyed(RefreshAll(pids, readings, now))
  {
    if readings != [] {
      RefreshAllKeepsKeyed(pids, readings[..|readings| - 1], now);
    }
  }

  /** Replacing the process table and the window leaves the records alone. */
  lemma RecordsDoNotMatter(c: Core, d: Core, clock: int, carried: map<string, Tally>)
    requires Linkage(c, clock) && Conserved(c, carried) && Copies(c)
    requires d.domains == c.domains && d.connections == c.connections && d.cache == c.cache
    ensures Linkage(d, clock) && Conserved(d, carried) && Copies(d)
  {
    hide Books.Balanced;
    assert BooksOf(d) == BooksOf(c);
    assert forall h, k :: h in c.domains ==> (LastSeenBy(d, h, k) <==> LastSeenBy(c, h, k));
  }

  lemma PollProcessesKeepsWindowOk(c: Core, readings: seq<Reading>, now: int, recorded: nat)
    requires PidsKeyed(c.pids) && WindowOk(c.window, c.cache, recorded)
    ensures var after := PollProcessesCore(c, readings, now);
            PidsKeyed(after.pids) && WindowOk(after.window, after.cache, recorded) && WindowStarted(after)
  {
    hide Consistent, RefreshAll, RecordedUpTo;
    RefreshAllKeepsKeyed(c.pids, readings, now);
    if c.window.Some? {
      var after := PollProcessesCore(c, readings, now);
      RecordProcessesKeepsConsistent(c.window.value, recorded, now, after.pids);
      assert after.window.value.books == Ensure(c.window.value, now).books;
    }
  }

  lemma PollProcessesKeepsOk(env: Env, c: Core, readings: seq<Reading>, clock: int, now: int,
                             carried: map<string, Tally>, recorded: nat)
    requires CoreOk(env, c, clock, carried, recorded) && clock <= now
    ensures CoreOk(env, PollProcessesCore(c, readings, now), now, carried, recorded)
    ensures WindowStarted(PollProcessesCore(c, readings, now))
  {
    TimePasses(c, clock, now);
    RecordsDoNotMatter(c, PollProcessesCore(c, readings, now), now, carried);
    PollProcessesKeepsWindowOk(c, readings, now, recorded);
    hide Linkage, Conserved, Copies, WindowOk, PollProcesses, PidsKeyed;
  }

  // ---- the lookup worker ----

  /** Two cores whose records differ in nothing but display names. */
  ghost predicate SameButNames(c: Core, d: Core) {
    && d.domains.Keys == c.domains.Keys
    && d.connections.Keys == c.connections.Keys
    && (forall h :: h in c.domains ==>
          d.domains[h].lastSeen == c.domains[h].lastSeen &&
          d.domains[h].snapshot.domain == c.domains[h].snapshot.domain &&
          d.domains[h].snapshot.tally == c.domains[h].snapshot.tally)
    && (forall k :: k in c.connections ==>
          d.connections[k].lastSeen == c.connections[k].lastSeen &&
          d.connections[k].snapshot.domain == c.connections[k].snapshot.domain &&
          d.connections[k].snapshot.Key() == c.connections[k].snapshot.Key() &&
          d.connections[k].snapshot.tally == c.connections[k].snapshot.tally)
  }

  lemma RenamingChangesNames(c: Core, d: Core, ip: string, name: string)
    requires d.domains == Rename(c.domains, ip, name) && d.connections == RenameConnections(c.connections, ip, name)
    ensures SameButNames(c, d)
  {
  }

  lemma NamesDoNotMatterToBooks(c: Core, d: Core)
    requires SameButNames(c, d) && BooksOf(c).Keyed() && BooksOf(c).Linked()
    ensures BooksOf(d).Keyed() && BooksOf(d).Linked()
  {
    LinkedRecords(c);
    assert forall h :: h in c.domains ==> BooksOf(c).domains[h].domain == h;
    assert forall k :: k in c.connections ==> BooksOf(c).connections[k].Key() == k;
  }

  lemma NamesDoNotMatterToLinkage(c: Core, d: Core, clock: int)
    requires SameButNames(c, d) && Linkage(c, clock)
    ensures Linkage(d, clock)
  {
    NamesDoNotMatterToBooks(c, d);
    hide Books.Keyed, Books.Linked;
    assert forall h, k :: h in c.domains ==> (LastSeenBy(d, h, k) <==> LastSeenBy(c, h, k));
  }

  lemma NamesDoNotMatterToSums(c: Core, d: Core, h: string)
    requires SameButNames(c, d)
    ensures ByDomain(BooksOf(d).connections, h) == ByDomain(BooksOf(c).connections, h)
  {
  }

  lemma NamesDoNotMatterToConserved(c: Core, d: Core, carried: map<string, Tally>)
    requires SameButNames(c, d) && Conserved(c, carried)
    ensures Conserved(d, carried)
  {
    hide Sum, ByDomain;
    forall h | h in BooksOf(d).domains
      ensures BooksOf(d).domains[h].tally == Sum(ByDomain(BooksOf(d).connections, h)).Plus(Get(carried, h))
    {
      NamesDoNotMatterToSums(c, d, h);
      assert BooksOf(c).domains[h].tally == Sum(ByDomain(BooksOf(c).connections, h)).Plus(Get(carried, h));
    }
  }

  lemma CompleteKeepsOk(env: Env, s: ServiceState, ip: string, name: string, clock: int,
                        carried: map<string, Tally>, recorded: nat)
    requires CoreOk(env, s.core, clock, carried, recorded)
    requires Protocol(env, s.core.cache, s.backlog, Some(ip))
    ensures CoreOk(env, CompleteLookup(s, ip, name).core, clock, carried, recorded)
  {
    var after := CompleteLookup(s, ip, name).core;
    RenamingChangesNames(s.core, after, ip, name);
    NamesDoNotMatterToLinkage(s.core, after, clock);
    NamesDoNotMatterToConserved(s.core, after, carried);
    CompleteKeepsCopies(s, ip, name);
    CompleteKeepsProtocol(env, s, ip, name);
    hide Linkage, Conserved, Copies, Protocol;
    if s.core.window.Some? {
      CacheGrowthKeepsNames(s.core.window.value, s.core.cache, after.cache);
    }
  }
}
