/** The main results, for every run of the watcher: any processes, any network
    readings visited in any order, any failures, and any interleaving with the
    lookup worker. */
module Theorems {
  import opened Basics
  import opened Hosts
  import opened Decimal
  import opened Tallies
  import opened Accounts
  import opened Processes
  import opened UploadWindow
  import opened Payloads
  import opened Ranking
  import opened ServiceModel
  import opened Records
  import opened Lookups
  import opened Ledger
  import opened Polling
  import opened Bounds
  import opened Watcher
  import opened Safety

  // ---- what a run consists of, read off its steps ----

  /** The successful network collections of a run, in order. */
  function Collections(steps: seq<Step>): seq<Collection> {
    if steps == [] then []
    else
      var last := steps[|steps| - 1];
      Collections(steps[..|steps| - 1]) +
      if last.ReadNetwork? then [Readings(last.observations)] else []
  }

  /** The payloads the server acknowledged. */
  function Acknowledged(steps: seq<Step>): seq<Payload> {
    if steps == [] then []
    else
      var last := steps[|steps| - 1];
      Acknowledged(steps[..|steps| - 1]) +
      if last.UploadAccepted? then [last.payload]
      else if last.Shutdown? && last.last.Some? && last.accepted then [last.last.value]
      else []
  }

  function CompletedPolls(steps: seq<Step>): nat {
    if steps == [] then 0
    else CompletedPolls(steps[..|steps| - 1]) + if steps[|steps| - 1].EndPoll? then 1 else 0
  }

  function FirstPoll(steps: seq<Step>): Option<int> {
    if steps == [] then None
    else
      var earlier := FirstPoll(steps[..|steps| - 1]);
      var last := steps[|steps| - 1];
      if earlier.None? && last.ReadProcesses? then Some(last.now) else earlier
  }

  /** Observations collected since the last acknowledgement. */
  function PostingsSinceAck(steps: seq<Step>): nat {
    if steps == [] then 0
    else
      var last := steps[|steps| - 1];
      if last.UploadAccepted? || (last.Shutdown? && last.last.Some? && last.accepted) then 0
      else PostingsSinceAck(steps[..|steps| - 1]) + if last.ReadNetwork? then |last.order| else 0
  }

  /** What each tracked domain still counts for connections that were evicted
      since its record was created: only network polls evict, and eviction adds
      the counters of the connections that it drops (`CarryOver`). */
  ghost function Carried(cfg: Config, clock: int, steps: seq<Step>): map<string, Tally>
    requires Run(cfg, clock, steps).Some?
  {
    if steps == [] then map[]
    else
      var n := |steps| - 1;
      var before := Run(cfg, clock, steps[..n]).value;
      var earlier := Carried(cfg, clock, steps[..n]);
      if steps[n].ReadNetwork? then
        CarriedAfterPoll(cfg.env, before.svc.core, steps[n].order, steps[n].observations, before.phase.now, earlier)
      else earlier
  }

  /** The bookkeeping fields say what the steps say. */
  lemma {:induction false} AuditIsTrace(cfg: Config, clock: int, steps: seq<Step>, s: System)
    requires Reaches(cfg, clock, steps, s)
    ensures s.audit.hist == Collections(steps)
            && s.audit.acked == Acknowledged(steps)
            && s.svc.polls == CompletedPolls(steps)
            && s.audit.firstPoll == FirstPoll(steps)
            && s.audit.recorded == PostingsSinceAck(steps)
            && s.audit.carried == Carried(cfg, clock, steps)
  {
    if steps != [] {
      hide PollProcessesCore, PollNetworkCore, RequestsAround, CarriedAfterPoll, Enabled, CompleteLookup;
      hide Reaches;
      var before := LastStep(cfg, clock, steps, s);
      AuditIsTrace(cfg, clock, steps[..|steps| - 1], before);
      StepIsTrace(cfg, before, steps[|steps| - 1]);
    }
  }

  lemma StepIsTrace(cfg: Config, s: System, step: Step)
    requires Enabled(cfg, s, step)
    ensures var t := Apply(cfg, s, step);
            && t.audit.hist == s.audit.hist + (if step.ReadNetwork? then [Readings(step.observations)] else [])
            && t.audit.acked == s.audit.acked +
                                (if step.UploadAccepted? then [step.payload]
                                 else if step.Shutdown? && step.last.Some? && step.accepted then [step.last.value]
                                 else [])
            && t.svc.polls == s.svc.polls + (if step.EndPoll? then 1 else 0)
            && t.audit.firstPoll == (if s.audit.firstPoll.None? && step.ReadProcesses? then Some(step.now)
                                     else s.audit.firstPoll)
            && t.audit.recorded ==
               (if step.UploadAccepted? || (step.Shutdown? && step.last.Some? && step.accepted) then 0
                else s.audit.recorded + if step.ReadNetwork? then |step.order| else 0)
            && t.audit.carried ==
               if step.ReadNetwork? then
                 CarriedAfterPoll(cfg.env, s.svc.core, step.order, step.observations, s.phase.now, s.audit.carried)
               else s.audit.carried
  {
    hide PollProcessesCore, PollNetworkCore, RequestsAround, CarriedAfterPoll, IsPayload, ShouldUpload;
  }

  // ---- the end-to-end ledger ----

  /** Every byte is uploaded once: the acknowledged totals and the current
      window together are worth, over all sockets, the last value of every closed
      counter segment and the live sample of every open one. Failed collections
      and failed uploads lose nothing. */
  lemma EndToEndLedger(cfg: Config, clock: int, steps: seq<Step>, s: System, dir: Direction)
    requires cfg.env.Sane() && cfg.uploading && Reaches(cfg, clock, steps, s)
    ensures s.svc.core.window.Some?
    ensures AckedBytes(Acknowledged(steps), dir) + s.svc.core.window.value.Bytes(dir) ==
            Sum(Bill(Collections(steps))).At(dir)
  {
    RunKeepsInv(cfg, clock, steps, s);
    AuditIsTrace(cfg, clock, steps, s);
    hide Reaches, CoreOk, Protocol, Periods, PhaseOk, AllSound, Sum, Bill, AckedBytes, Collections, Acknowledged;
  }

  lemma AcceptedShutdownEmptiesWindow(cfg: Config, s: System, step: Step)
    requires Inv(cfg, s) && Enabled(cfg, s, step) && step.Shutdown? && step.accepted
    ensures Apply(cfg, s, step).svc.core.window.Some? ==> Empty(Apply(cfg, s, step).svc.core.window.value)
  {
    hide CoreOk, Protocol, Accounted, Periods, AllSound, IsPayload, Consistent;
    WindowOfInv(cfg, s);
  }

  /** After a shutdown whose last upload, if any, was accepted, every byte of the
      run has been acknowledged. */
  lemma CleanShutdownLosesNothing(cfg: Config, clock: int, steps: seq<Step>, s: System, dir: Direction)
    requires cfg.env.Sane() && cfg.uploading && Reaches(cfg, clock, steps, s)
    requires steps != [] && steps[|steps| - 1].Shutdown? && steps[|steps| - 1].accepted
    ensures AckedBytes(Acknowledged(steps), dir) == Sum(Bill(Collections(steps))).At(dir)
  {
    hide Sum, Bill, AckedBytes, Collections, Acknowledged, Inv, Reaches, Enabled, Apply;
    EndToEndLedger(cfg, clock, steps, s, dir);
    var before := LastStep(cfg, clock, steps, s);
    RunKeepsInv(cfg, clock, steps[..|steps| - 1], before);
    AcceptedShutdownEmptiesWindow(cfg, before, steps[|steps| - 1]);
  }

  // ---- periods ----

  /** Acknowledged periods partition the run: the first starts with the first
      poll, each next one where the previous one ended, the window where the last
      one ended; none is shorter than the interval, save one cut short by the
      shutdown; and every completed poll is in exactly one of them. */
  lemma PeriodsPartitionRun(cfg: Config, clock: int, steps: seq<Step>, s: System)
    requires cfg.env.Sane() && cfg.uploading && Reaches(cfg, clock, steps, s)
    ensures s.svc.core.window.Some?
            && (FirstPoll(steps).Some? ==>
                  && Chained(Acknowledged(steps), FirstPoll(steps).value)
                  && s.svc.core.window.value.startedAt ==
                     Some(PeriodEnd(Acknowledged(steps), FirstPoll(steps).value)))
            && (FirstPoll(steps).None? ==> Acknowledged(steps) == [])
            && LongEnough(Acknowledged(steps), cfg.interval, s.phase.Stopped?)
            && AckedPolls(Acknowledged(steps)) + s.svc.core.window.value.polls == CompletedPolls(steps)
  {
    RunKeepsInv(cfg, clock, steps, s);
    AuditIsTrace(cfg, clock, steps, s);
    hide Reaches, CoreOk, Protocol, Accounted, PhaseOk, AllSound, AckedPolls, Collections, Acknowledged, CompletedPolls;
    hide FirstPoll, Chained, LongEnough;
  }

  /** The server acknowledges payload `p` in this step. */
  predicate Accepts(step: Step, p: Payload) {
    step == UploadAccepted(p) || (step.Shutdown? && step.last == Some(p) && step.accepted)
  }

  lemma AcceptedIsPayload(cfg: Config, s: System, step: Step, p: Payload)
    requires Inv(cfg, s) && Enabled(cfg, s, step) && Accepts(step, p)
    ensures var w := s.svc.core.window;
            && w.Some? && w.value.startedAt.Some?
            && p.totalRx == w.value.totalRx && p.totalTx == w.value.totalTx && p.polls == w.value.polls
            && forall u :: u in p.processes <==> u in ProcessPool(w.value.processes)
  {
    hide Inv, DomainPool, ConnectionPool, ProcessPool, SortedBy;
  }

  /** An accepted payload carries exactly the bytes and the polls of the run so
      far that no earlier one carried. */
  lemma PayloadIsPeriod(cfg: Config, clock: int, steps: seq<Step>, s: System, step: Step, p: Payload, dir: Direction)
    requires cfg.env.Sane() && cfg.uploading && Reaches(cfg, clock, steps, s)
    requires Enabled(cfg, s, step) && Accepts(step, p)
    ensures AckedBytes(Acknowledged(steps), dir) + p.Bytes(dir) == Sum(Bill(Collections(steps))).At(dir)
    ensures AckedPolls(Acknowledged(steps)) + p.polls == CompletedPolls(steps)
  {
    hide Reaches, Enabled, Inv, Sum, Bill, Collections, Acknowledged, AckedBytes, AckedPolls, CompletedPolls;
    RunKeepsInv(cfg, clock, steps, s);
    AcceptedIsPayload(cfg, s, step, p);
    EndToEndLedger(cfg, clock, steps, s, dir);
    PeriodsPartitionRun(cfg, clock, steps, s);
  }

  // ---- process statistics ----

  /** The process table, as the process polls of a run have left it. */
  function Table(steps: seq<Step>): ProcessTable {
    if steps == [] then map[]
    else
      var last := steps[|steps| - 1];
      var earlier := Table(steps[..|steps| - 1]);
      if last.ReadProcesses? then PollProcesses(earlier, last.readings, last.now) else earlier
  }

  /** The snapshots of one process, one for each process poll that found it
      tracked since the last acknowledgement. */
  function Snapshots(steps: seq<Step>, pid: int): seq<ProcessSnapshot> {
    if steps == [] then []
    else
      var last := steps[|steps| - 1];
      var earlier := Snapshots(steps[..|steps| - 1], pid);
      if last.UploadAccepted? || (last.Shutdown? && last.last.Some? && last.accepted) then []
      else if last.ReadProcesses? && pid in Table(steps) then earlier + [Table(steps)[pid].snapshot]
      else earlier
  }

  lemma StepRecordsProcesses(cfg: Config, s: System, step: Step, pid: int)
    requires Enabled(cfg, s, step)
    requires s.svc.core.window.Some? && Started(s.svc.core.window.value)
    ensures var t := Apply(cfg, s, step);
            && t.svc.core.pids == (if step.ReadProcesses? then PollProcesses(s.svc.core.pids, step.readings, step.now)
                                   else s.svc.core.pids)
            && t.svc.core.window.Some?
            && var before, after := Find(s.svc.core.window.value.processes, pid),
                                    Find(t.svc.core.window.value.processes, pid);
               after == if step.UploadAccepted? || (step.Shutdown? && step.last.Some? && step.accepted) then None
                        else if step.ReadProcesses? && pid in t.svc.core.pids
                        then Some(RecordProcess(before, t.svc.core.pids[pid].snapshot))
                        else before
  {
    hide PollProcesses, RecordProcess, RequestsAround, ReceivedHost, ObserveAllCore, CarriedAfterPoll, IsPayload,
         ShouldUpload;
    if step.ReadNetwork? {
      ObserveAllFrame(cfg.env, s.svc.core, step.order, step.observations, s.phase.now);
      ObserveAllProcesses(cfg.env, s.svc.core, step.order, step.observations, s.phase.now);
    }
  }

  lemma {:induction false} ObserveAllProcesses(env: Env, c: Core, order: seq<string>, obs: map<string, Observation>,
                                               now: int)
    requires forall k :: k in order ==> k in obs
    requires c.window.Some? && Started(c.window.value)
    ensures var w := ObserveAllCore(env, c, order, obs, now).window;
            w.Some? && Started(w.value) && w.value.processes == c.window.value.processes
  {
    if order != [] {
      hide PostingOf, Books.Post;
      ObserveAllProcesses(env, c, order[..|order| - 1], obs, now);
    }
  }

  /** At every point of every run the window's statistics of a process are those
      of exactly these snapshots. */
  lemma {:induction false} ProcessesAreRecorded(cfg: Config, clock: int, steps: seq<Step>, s: System, pid: int)
    requires cfg.env.Sane() && cfg.uploading && Reaches(cfg, clock, steps, s)
    ensures s.svc.core.pids == Table(steps)
    ensures s.svc.core.window.Some?
    ensures Find(s.svc.core.window.value.processes, pid) == Recorded(Snapshots(steps, pid))
  {
    if steps != [] {
      hide Reaches, Inv, Enabled, Apply, PollProcesses, RecordProcess;
      var n := |steps| - 1;
      var before := LastStep(cfg, clock, steps, s);
      ProcessesAreRecorded(cfg, clock, steps[..n], before, pid);
      RunKeepsInv(cfg, clock, steps[..n], before);
      WindowOfInv(cfg, before);
      StepRecordsProcesses(cfg, before, steps[n], pid);
      if pid in Table(steps) {
        RecordedAppend(Snapshots(steps[..n], pid), Table(steps)[pid].snapshot);
      }
      hide Recorded;
      assert Recorded([]) == None by {
        RecordedAppend([], ProcessSnapshot(pid, "", "", 0.0, 0.0, 0));
      }
    }
  }

  /** What an uploaded process record says: the statistics of the snapshots since
      the previous acknowledgement, for every process with a name. */
  lemma PayloadStatistics(cfg: Config, clock: int, steps: seq<Step>, s: System, step: Step, p: Payload,
                          u: ProcessUpload)
    requires cfg.env.Sane() && cfg.uploading && Reaches(cfg, clock, steps, s)
    requires Enabled(cfg, s, step) && Accepts(step, p)
    ensures u in p.processes <==> exists pid :: Reported(Recorded(Snapshots(steps, pid)), u)
  {
    hide Reaches, Enabled, Inv, Recorded, Snapshots, Reported;
    RunKeepsInv(cfg, clock, steps, s);
    AcceptedIsPayload(cfg, s, step, p);
    var m := s.svc.core.window.value.processes;
    PoolMember(m, u);
    forall pid
      ensures Find(m, pid) == Recorded(Snapshots(steps, pid))
    {
      ProcessesAreRecorded(cfg, clock, steps, s, pid);
    }
    if pid: int :| Reported(Find(m, pid), u) {
      assert Reported(Recorded(Snapshots(steps, pid)), u);
    }
    if pid: int :| Reported(Recorded(Snapshots(steps, pid)), u) {
      assert Reported(Find(m, pid), u);
    }
  }

  predicate Reported(record: Option<ProcessUpload>, u: ProcessUpload) {
    record.Some? && Uploadable(record.value) && u == Exported(record.value)
  }

  lemma PoolMember(m: map<int, ProcessUpload>, u: ProcessUpload)
    ensures u in ProcessPool(m) <==> exists pid :: Reported(Find(m, pid), u)
  {
    if u in ProcessPool(m) {
      var pid :| pid in m && Uploadable(m[pid]) && Exported(m[pid]) == u;
      assert Reported(Find(m, pid), u);
    }
  }

  // ---- payloads ----

  /** Every acknowledged payload is sound on its own. */
  lemma PayloadIntegrity(cfg: Config, clock: int, steps: seq<Step>, s: System, p: Payload)
    requires cfg.env.Sane() && cfg.uploading && Reaches(cfg, clock, steps, s)
    requires p in Acknowledged(steps)
    ensures Sound(p)
  {
    RunKeepsInv(cfg, clock, steps, s);
    AuditIsTrace(cfg, clock, steps, s);
    hide Reaches, CoreOk, Protocol, Accounted, PhaseOk, Periods, Acknowledged, Sound;
  }

  /** Payload `p` is put together for sending: after a poll that is due for an
      upload, or by the shutdown. */
  ghost predicate Offered(cfg: Config, s: System, p: Payload, now: int, counts: Counts) {
    && s.svc.core.window.Some? && Flushable(s.svc.core.window.value)
    && IsPayload(cfg.env, p, s.svc.core.window.value, now, counts)
    && (|| s.phase == Flushing(now, counts)
        || (s.phase.Idle? && s.clock <= now && counts == CountsOf(s.svc.core, false)))
  }

  /** Every payload that is sent is sound, whether it is accepted or refused. */
  lemma SentPayloadIsSound(cfg: Config, clock: int, steps: seq<Step>, s: System, p: Payload, now: int, counts: Counts)
    requires cfg.env.Sane() && Reaches(cfg, clock, steps, s) && Offered(cfg, s, p, now, counts)
    ensures Sound(p)
  {
    RunKeepsInv(cfg, clock, steps, s);
    OfferedIsSound(cfg, s, p, now, counts);
  }

  lemma OfferedIsSound(cfg: Config, s: System, p: Payload, now: int, counts: Counts)
    requires cfg.env.Sane() && Inv(cfg, s) && Offered(cfg, s, p, now, counts)
    ensures Sound(p)
  {
    PhaseOfInv(cfg, s);
    SizesOfInv(cfg, s);
    hide CoreOk, Protocol, UploadsOk, IsPayload, Sound;
    PayloadOfInvIsSound(cfg, s, p, now, counts);
  }

  // ---- the lookup protocol ----

  /** At every point where the lock is free, under every interleaving: queued or
      in flight if and only if pending, never twice, never while cached, at most
      257 at a time. */
  lemma LookupSafety(cfg: Config, clock: int, steps: seq<Step>, s: System)
    requires cfg.env.Sane() && Reaches(cfg, clock, steps, s)
    ensures Protocol(cfg.env, s.svc.core.cache, s.svc.backlog, s.inFlight)
            && |set h | h in s.svc.backlog.pending && s.svc.backlog.Pending(h)| <= 257
  {
    RunKeepsInv(cfg, clock, steps, s);
    hide Reaches, CoreOk, Protocol, UploadsOk;
    PendingAtMost(cfg.env, s.svc.core.cache, s.svc.backlog, s.inFlight);
  }

  /** Every display name agrees with the cache, also in records that the latest
      poll did not observe. */
  lemma NamesAgreeWithCache(cfg: Config, clock: int, steps: seq<Step>, s: System)
    requires cfg.env.Sane() && Reaches(cfg, clock, steps, s)
    ensures Copies(s.svc.core)
  {
    RunKeepsInv(cfg, clock, steps, s);
    hide Reaches, Protocol, UploadsOk, Linkage, Conserved, Copies, WindowOk;
  }

  lemma CollectKeepsCache(cfg: Config, s: System, obs: map<string, Observation>, order: seq<string>,
                          receive: Option<nat>)
    requires Enabled(cfg, s, ReadNetwork(obs, order, receive))
    ensures Apply(cfg, s, ReadNetwork(obs, order, receive)).svc.core.cache == s.svc.core.cache
  {
    hide PollNetworkCore, RequestsAround, CarriedAfterPoll;
    PollNetworkFrame(cfg.env, s.svc.core, order, obs, s.phase.now);
  }

  lemma StepGrowsCache(cfg: Config, s: System, step: Step)
    requires Inv(cfg, s) && Enabled(cfg, s, step)
    ensures Grows(s.svc.core.cache, Apply(cfg, s, step).svc.core.cache)
    ensures step.Complete? && step.name == "" ==> Apply(cfg, s, step).svc.core.cache == s.svc.core.cache
  {
    hide Protocol, UploadsOk, CoreOk, IsPayload, PollNetworkCore, RequestsAround, CarriedAfterPoll, PollProcessesCore,
         CompleteLookup, ShouldUpload, CacheSound;
    if step.Complete? {
      WindowOfInv(cfg, s);
      CompleteKeepsProtocol(cfg.env, s.svc, s.inFlight.value, step.name);
    } else if step.ReadNetwork? {
      CollectKeepsCache(cfg, s, step.observations, step.order, step.receive);
    } else if step.ReadProcesses? {
      BeginPollKeepsCache(s.svc.core, step.readings, step.now);
    }
  }

  lemma BeginPollKeepsCache(c: Core, readings: seq<Reading>, now: int)
    ensures PollProcessesCore(c, readings, now).cache == c.cache
  {
  }

  lemma ReachesOne(cfg: Config, clock: int, steps: seq<Step>, s: System, t: System)
    requires Reaches(cfg, clock, steps, s) && Reaches(cfg, clock, steps, t)
    ensures s == t
  {
    hide Run;
  }

  /** A resolved name is never changed or removed for the rest of the run. */
  lemma {:induction false} ResolvedForever(cfg: Config, clock: int, steps: seq<Step>, s: System,
                                           more: seq<Step>, t: System)
    requires cfg.env.Sane() && Reaches(cfg, clock, steps, s) && Reaches(cfg, clock, steps + more, t)
    ensures Grows(s.svc.core.cache, t.svc.core.cache)
    decreases |more|
  {
    hide Inv, Apply, Enabled, Reaches;
    if more == [] {
      assert steps + more == steps;
      ReachesOne(cfg, clock, steps, s, t);
    } else {
      var n := |more| - 1;
      assert (steps + more)[..|steps| + n] == steps + more[..n];
      var before := LastStep(cfg, clock, steps + more, t);
      ResolvedForever(cfg, clock, steps, s, more[..n], before);
      RunKeepsInv(cfg, clock, steps + more[..n], before);
      StepGrowsCache(cfg, before, more[n]);
    }
  }

  // ---- the service's records ----

  /** The tracked domains are the domains of the tracked connections, last seen
      together, although the two maps are aged out independently. */
  lemma TrackedMapsLinked(cfg: Config, clock: int, steps: seq<Step>, s: System)
    requires cfg.env.Sane() && Reaches(cfg, clock, steps, s)
    ensures var c := s.svc.core;
            && DomainsOf(c) == c.domains.Keys
            && Ordered(c) && Witnessed(c)
            && |c.domains| <= |c.connections|
  {
    RunKeepsInv(cfg, clock, steps, s);
    hide Reaches, Protocol, UploadsOk, Conserved, Copies, WindowOk;
    LinkageMeaning(s.svc.core, s.clock);
  }

  /** Byte conservation under eviction: a tracked domain counts exactly what its
      live connections count plus what its evicted ones had counted, so never
      less than the live ones. */
  lemma EvictionConserves(cfg: Config, clock: int, steps: seq<Step>, s: System, d: string)
    requires cfg.env.Sane() && Reaches(cfg, clock, steps, s)
    requires d in s.svc.core.domains
    ensures var live := Sum(ByDomain(BooksOf(s.svc.core).connections, d));
            && s.svc.core.domains[d].snapshot.tally == live.Plus(Get(Carried(cfg, clock, steps), d))
            && live.AtMost(s.svc.core.domains[d].snapshot.tally)
  {
    hide Run, Inv, Conserved, Sum, Carried;
    RunKeepsInv(cfg, clock, steps, s);
    AuditIsTrace(cfg, clock, steps, s);
    ConservedOfInv(cfg, s);
    ConservedDomain(s.svc.core, s.audit.carried, d);
  }

  lemma ConservedOfInv(cfg: Config, s: System)
    requires Inv(cfg, s)
    ensures Conserved(s.svc.core, s.audit.carried)
  {
    hide Protocol, UploadsOk, Linkage, Conserved, Copies, WindowOk;
  }

  /** The window's three ledgers are exact partitions of each other, and count
      every observation since the last acknowledgement once. */
  lemma WindowLedgersPartition(cfg: Config, clock: int, steps: seq<Step>, s: System)
    requires cfg.env.Sane() && cfg.uploading && Reaches(cfg, clock, steps, s)
    ensures s.svc.core.window.Some? &&
            var w := s.svc.core.window.value;
            && Sum(DomainTallies(w.books.domains)) == Tally(w.totalRx, w.totalTx, PostingsSinceAck(steps))
            && w.books.Linked() && w.books.Balanced(map[])
  {
    RunKeepsInv(cfg, clock, steps, s);
    AuditIsTrace(cfg, clock, steps, s);
    WindowOfInv(cfg, s);
    hide Reaches, Sum, CoreOk, Protocol, UploadsOk;
    hide Collections, Acknowledged, CompletedPolls, FirstPoll, PostingsSinceAck;
  }

  // ---- no counter wraps ----

  ghost predicate Bounded(c: Core, hist: seq<Collection>) {
    && c.samples == Last(hist)
    && ServiceSum(c).AtMost(Sum(Bill(hist)))
  }

  lemma StepKeepsBounded(cfg: Config, s: System, step: Step)
    requires Enabled(cfg, s, step) && Bounded(s.svc.core, s.audit.hist)
    ensures Bounded(Apply(cfg, s, step).svc.core, Apply(cfg, s, step).audit.hist)
  {
    hide Sum, Bill, Charges, PollNetworkCore, RequestsAround, CarriedAfterPoll, PollProcesses, IsPayload, ShouldUpload;
    match step
    case ReadNetwork(obs, order, _) =>
      PollNetworkBounded(cfg.env, s.svc.core, order, obs, s.phase.now);
      PollStoresCollection(cfg.env, s.svc.core, order, obs, s.phase.now);
      BillStep(s.audit.hist, Readings(obs));
    case Complete(name) =>
      CompleteKeepsServiceSum(s.svc, s.inFlight.value, name);
    case _ =>
      assert BooksOf(Apply(cfg, s, step).svc.core) == BooksOf(s.svc.core);
  }

  lemma StartIsBounded(cfg: Config, clock: int)
    ensures Bounded(Start(cfg, clock).svc.core, [])
  {
    assert DomainTallies(BooksOf(Start(cfg, clock).svc.core).domains) == map[];
    SumEmpty();
    hide Sum;
  }

  lemma {:induction false} RunIsBounded(cfg: Config, clock: int, steps: seq<Step>, s: System)
    requires Reaches(cfg, clock, steps, s)
    ensures Bounded(s.svc.core, s.audit.hist)
  {
    hide Bounded, Apply, Enabled;
    if steps == [] {
      StartIsBounded(cfg, clock);
    } else {
      var n := |steps| - 1;
      var before := LastStep(cfg, clock, steps, s);
      RunIsBounded(cfg, clock, steps[..n], before);
      StepKeepsBounded(cfg, before, steps[n]);
    }
  }

  /** The run's observations since the last acknowledgement are among the
      sightings that the bill counts. */
  lemma {:induction false} PostingsAtMostSightings(cfg: Config, clock: int, steps: seq<Step>, s: System)
    requires Reaches(cfg, clock, steps, s)
    ensures PostingsSinceAck(steps) <= Sum(Bill(Collections(steps))).seen
  {
    hide Reaches, Enabled, Apply, Sum, Bill;
    if steps != [] {
      var n := |steps| - 1;
      var before := LastStep(cfg, clock, steps, s);
      PostingsAtMostSightings(cfg, clock, steps[..n], before);
      if steps[n].ReadNetwork? {
        var hist, obs := Collections(steps[..n]), steps[n].observations;
        BillStep(hist, Readings(obs));
        ChargesSeen(Last(hist), Readings(obs), obs.Keys);
        OrderLength(cfg, before, steps[n]);
      } else {
        assert Collections(steps) == Collections(steps[..n]);
      }
    }
  }

  lemma OrderLength(cfg: Config, s: System, step: Step)
    requires Enabled(cfg, s, step) && step.ReadNetwork?
    ensures |step.order| == |step.observations.Keys|
  {
    NoDupElements(step.order);
    assert Elements(step.order) == step.observations.Keys;
  }

  lemma ChargesSeen(samples: Collection, r: Collection, keys: set<string>)
    requires keys == r.Keys
    ensures Sum(Charges(samples, r)).seen == |keys|
  {
    SumOfOnes(Charges(samples, r), keys);
    assert Charges(samples, r).Keys == keys;
  }

  lemma {:induction false} SumOfOnes(m: map<string, Tally>, keys: set<string>)
    requires keys <= m.Keys && forall k :: k in keys ==> m[k].seen == 1
    ensures SumOn(m, keys, SEEN) == |keys|
    decreases |keys|
  {
    if keys != {} {
      SumOfOnes(m, keys - {Pick(keys)});
    }
  }

  /** Every byte and observation counter of the service and of the window is at
      most what the bill counts over all sockets. */
  lemma CountersWithinBill(cfg: Config, clock: int, steps: seq<Step>, s: System)
    requires cfg.env.Sane() && Reaches(cfg, clock, steps, s)
    ensures var bill := Sum(Bill(Collections(steps)));
            var c := s.svc.core;
            && (forall d :: d in c.domains ==> c.domains[d].snapshot.tally.AtMost(bill))
            && (forall k :: k in c.connections ==> c.connections[k].snapshot.tally.AtMost(bill))
            && (c.window.Some? ==>
                  var w := c.window.value;
                  && w.totalRx <= bill.rx && w.totalTx <= bill.tx
                  && (forall d :: d in w.books.domains ==> w.books.domains[d].tally.AtMost(bill))
                  && (forall k :: k in w.books.connections ==> w.books.connections[k].tally.AtMost(bill)))
  {
    hide Reaches, Sum, Bill, Collections, Inv, Bounded, Tally.AtMost, PostingsSinceAck;
    RunKeepsInv(cfg, clock, steps, s);
    AuditIsTrace(cfg, clock, steps, s);
    RunIsBounded(cfg, clock, steps, s);
    RecordsBounded(cfg, s);
    if s.svc.core.window.Some? {
      PostingsAtMostSightings(cfg, clock, steps, s);
      WindowBounded(cfg, s);
    }
  }

  /** As long as the run has credited fewer than 2^64 bytes, received and sent
      together, every byte counter of the program, and every RX + TX that it
      compares, fits in 64 bits. */
  lemma NoCounterWraps(cfg: Config, clock: int, steps: seq<Step>, s: System)
    requires cfg.env.Sane() && Reaches(cfg, clock, steps, s)
    requires Traffic(Sum(Bill(Collections(steps)))) < TWO_TO_THE_64
    ensures var c := s.svc.core;
            && (forall d :: d in c.domains ==> Traffic(c.domains[d].snapshot.tally) < TWO_TO_THE_64)
            && (forall k :: k in c.connections ==> Traffic(c.connections[k].snapshot.tally) < TWO_TO_THE_64)
            && (c.window.Some? ==>
                  var w := c.window.value;
                  && w.totalRx + w.totalTx < TWO_TO_THE_64
                  && (forall d :: d in w.books.domains ==> Traffic(w.books.domains[d].tally) < TWO_TO_THE_64)
                  && (forall k :: k in w.books.connections ==>
                        Traffic(w.books.connections[k].tally) < TWO_TO_THE_64))
  {
    hide Reaches, Sum, Bill, Collections;
    CountersWithinBill(cfg, clock, steps, s);
  }

  /** How many processes the process polls of a run have listed, all told. */
  function Listings(steps: seq<Step>): nat {
    if steps == [] then 0
    else
      var last := steps[|steps| - 1];
      Listings(steps[..|steps| - 1]) + if last.ReadProcesses? then |last.readings| else 0
  }

  function ProcessPolls(steps: seq<Step>): nat {
    if steps == [] then 0
    else ProcessPolls(steps[..|steps| - 1]) + if steps[|steps| - 1].ReadProcesses? then 1 else 0
  }

  lemma {:induction false} RefreshAllCounts(pids: ProcessTable, readings: seq<Reading>, now: int, most: nat)
    requires forall pid :: pid in pids ==> pids[pid].snapshot.pollsSeen <= most
    ensures forall pid :: pid in RefreshAll(pids, readings, now) ==>
              RefreshAll(pids, readings, now)[pid].snapshot.pollsSeen <= most + |readings|
  {
    if readings != [] {
      RefreshAllCounts(pids, readings[..|readings| - 1], now, most);
    }
  }

  lemma {:induction false} TableCounts(steps: seq<Step>)
    ensures forall pid :: pid in Table(steps) ==> Table(steps)[pid].snapshot.pollsSeen <= Listings(steps)
  {
    if steps != [] {
      hide RefreshAll;
      var n := |steps| - 1;
      TableCounts(steps[..n]);
      if steps[n].ReadProcesses? {
        RefreshAllCounts(Table(steps[..n]), steps[n].readings, steps[n].now, Listings(steps[..n]));
      }
    }
  }

  lemma {:induction false} SnapshotCounts(steps: seq<Step>, pid: int)
    ensures |Snapshots(steps, pid)| <= ProcessPolls(steps)
  {
    if steps != [] {
      hide Table;
      SnapshotCounts(steps[..|steps| - 1], pid);
    }
  }

  /** Poll counters: completed polls are counted once each, a window counts some
      of them, a process at most as often as it was listed, and the window's
      record of it at most once for each process poll. */
  lemma PollCountersBounded(cfg: Config, clock: int, steps: seq<Step>, s: System, pid: int)
    requires cfg.env.Sane() && cfg.uploading && Reaches(cfg, clock, steps, s)
    ensures s.svc.polls == CompletedPolls(steps)
    ensures s.svc.core.window.Some? && s.svc.core.window.value.polls <= CompletedPolls(steps)
    ensures pid in s.svc.core.pids ==> s.svc.core.pids[pid].snapshot.pollsSeen <= Listings(steps)
    ensures pid in s.svc.core.window.value.processes ==>
              s.svc.core.window.value.processes[pid].pollsSeen <= ProcessPolls(steps)
  {
    hide Reaches, Table, Snapshots, Recorded, Listings, ProcessPolls, CompletedPolls, Acknowledged, AckedPolls,
         Chained, LongEnough, FirstPoll;
    AuditIsTrace(cfg, clock, steps, s);
    PeriodsPartitionRun(cfg, clock, steps, s);
    ProcessesAreRecorded(cfg, clock, steps, s, pid);
    TableCounts(steps);
    SnapshotCounts(steps, pid);
    var samples := Snapshots(steps, pid);
    if samples != [] {
      RecordedMeans(samples);
    } else {
      RecordedAppend([], ProcessSnapshot(pid, "", "", 0.0, 0.0, 0));
    }
  }

  lemma RecordsBounded(cfg: Config, s: System)
    requires Inv(cfg, s) && Bounded(s.svc.core, s.audit.hist)
    ensures var c := s.svc.core;
            var bill := Sum(Bill(s.audit.hist));
            && (forall d :: d in c.domains ==> c.domains[d].snapshot.tally.AtMost(bill))
            && (forall k :: k in c.connections ==> c.connections[k].snapshot.tally.AtMost(bill))
  {
    hide Inv, Sum, Bill, Books.Balanced, Books.Keyed, Books.Linked, DomainTallies;
    RecordsOfInv(cfg, s);
    RecordsWithinBooks(BooksOf(s.svc.core), s.audit.carried);
    assert forall d :: d in s.svc.core.domains ==> s.svc.core.domains[d].snapshot == BooksOf(s.svc.core).domains[d];
    assert forall k :: k in s.svc.core.connections ==>
             s.svc.core.connections[k].snapshot == BooksOf(s.svc.core).connections[k];
  }

  lemma RecordsOfInv(cfg: Config, s: System)
    requires Inv(cfg, s)
    ensures BooksOf(s.svc.core).Keyed() && BooksOf(s.svc.core).Linked()
    ensures BooksOf(s.svc.core).Balanced(s.audit.carried)
  {
    hide Protocol, UploadsOk, Copies, WindowOk, Books.Balanced, Books.Keyed, Books.Linked;
  }

  lemma WindowBounded(cfg: Config, s: System)
    requires Inv(cfg, s) && s.svc.core.window.Some? && s.audit.recorded <= Sum(Bill(s.audit.hist)).seen
    ensures var w := s.svc.core.window.value;
            var bill := Sum(Bill(s.audit.hist));
            && w.totalRx <= bill.rx && w.totalTx <= bill.tx
            && (forall d :: d in w.books.domains ==> w.books.domains[d].tally.AtMost(bill))
            && (forall k :: k in w.books.connections ==> w.books.connections[k].tally.AtMost(bill))
  {
    hide Sum, Bill, Books.Balanced, AckedBytes;
    WindowOfInv(cfg, s);
    var w := s.svc.core.window.value;
    RecordsWithinBooks(w.books, map[]);
    hide CoreOk, Protocol, Periods, PhaseOk, AllSound;
    assert AckedBytes(s.audit.acked, RX) + w.Bytes(RX) == Sum(Bill(s.audit.hist)).At(RX);
    assert AckedBytes(s.audit.acked, TX) + w.Bytes(TX) == Sum(Bill(s.audit.hist)).At(TX);
  }
}
