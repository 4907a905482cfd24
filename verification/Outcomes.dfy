/** What a reader of the records, the uploads and the cache sees, in terms of
    what was put in: readings, observations, lookup results and times. */
module Outcomes {
  import opened Basics
  import opened Hosts
  import opened Accounts
  import opened Processes
  import opened UploadWindow
  import opened Payloads
  import opened ServiceModel
  import opened Lookups
  import opened Ledger
  import opened PollEffects
  import opened Watcher
  import opened Safety
  import opened Theorems

  // ---- processes ----

  function LastOf(readings: seq<Reading>, pid: int): Option<Reading> {
    if readings == [] then None
    else
      var n := |readings| - 1;
      if readings[n].pid == pid then Some(readings[n]) else LastOf(readings[..n], pid)
  }

  /** The latest reading of a process in a run. */
  function LatestReading(steps: seq<Step>, pid: int): Option<Reading> {
    if steps == [] then None
    else
      var last := steps[|steps| - 1];
      var found := if last.ReadProcesses? then LastOf(last.readings, pid) else None;
      if found.Some? then found else LatestReading(steps[..|steps| - 1], pid)
  }

  /** How often a process has been listed since it is tracked without a break. */
  function SeenSince(steps: seq<Step>, pid: int): nat {
    if steps == [] then 0
    else
      var last := steps[|steps| - 1];
      var earlier := SeenSince(steps[..|steps| - 1], pid);
      if !last.ReadProcesses? then earlier
      else if pid in Table(steps) then earlier + Occurrences(last.readings, pid)
      else 0
  }

  lemma {:induction false} LastIndex(readings: seq<Reading>, pid: int) returns (i: nat)
    requires pid in Listed(readings)
    ensures i < |readings| && LastOf(readings, pid) == Some(readings[i]) && readings[i].pid == pid
    ensures forall j :: i < j < |readings| ==> readings[j].pid != pid
  {
    var n := |readings| - 1;
    if readings[n].pid == pid {
      i := n;
    } else {
      assert readings == readings[..n] + [readings[n]];
      i := LastIndex(readings[..n], pid);
    }
  }

  lemma {:induction false} NotLast(readings: seq<Reading>, pid: int)
    requires pid !in Listed(readings)
    ensures LastOf(readings, pid) == None && Occurrences(readings, pid) == 0
  {
    if readings != [] {
      var n := |readings| - 1;
      assert readings == readings[..n] + [readings[n]];
      NotLast(readings[..n], pid);
    }
  }

  lemma {:induction false} TableShowsLatest(steps: seq<Step>, pid: int)
    ensures pid in Table(steps) ==>
              && LatestReading(steps, pid).Some? && LatestReading(steps, pid).value.pid == pid
              && Depicts(Table(steps)[pid].snapshot, LatestReading(steps, pid).value)
    ensures SeenSince(steps, pid) == SeenBefore(Table(steps), pid)
  {
    if steps != [] {
      hide PollProcesses, Occurrences;
      var n := |steps| - 1;
      TableShowsLatest(steps[..n], pid);
      if steps[n].ReadProcesses? {
        var readings, now := steps[n].readings, steps[n].now;
        if pid in Listed(readings) {
          var i := LastIndex(readings, pid);
          ListedProcessShown(Table(steps[..n]), readings, now, i);
        } else {
          NotLast(readings, pid);
          TrackedProcesses(Table(steps[..n]), readings, now, pid);
        }
      }
    }
  }

  lemma {:induction false} PidsAreTable(cfg: Config, clock: int, steps: seq<Step>, s: System)
    requires Reaches(cfg, clock, steps, s)
    ensures s.svc.core.pids == Table(steps)
  {
    if steps != [] {
      hide Reaches, Enabled, Apply, PollProcesses;
      var before := LastStep(cfg, clock, steps, s);
      PidsAreTable(cfg, clock, steps[..|steps| - 1], before);
      StepPids(cfg, before, steps[|steps| - 1]);
    }
  }

  lemma StepPids(cfg: Config, s: System, step: Step)
    requires Enabled(cfg, s, step)
    ensures Apply(cfg, s, step).svc.core.pids ==
            if step.ReadProcesses? then PollProcesses(s.svc.core.pids, step.readings, step.now) else s.svc.core.pids
  {
    hide PollProcesses, RequestsAround, ReceivedHost, ObserveAllCore, Polling.CarriedAfterPoll, IsPayload, ShouldUpload;
    if step.ReadNetwork? {
      ObserveAllFrame(cfg.env, s.svc.core, step.order, step.observations, s.phase.now);
    }
  }

  /** At every point of every run a tracked process shows its latest reading, and
      has been seen as often as it was listed since it is tracked. */
  lemma TrackedProcessShown(cfg: Config, clock: int, steps: seq<Step>, s: System, pid: int)
    requires Reaches(cfg, clock, steps, s) && pid in s.svc.core.pids
    ensures LatestReading(steps, pid).Some?
    ensures var shown, r := s.svc.core.pids[pid].snapshot, LatestReading(steps, pid).value;
            && shown.pid == r.pid == pid && shown.name == r.name && shown.command == r.command
            && shown.cpu == r.cpu && shown.rss == r.rss
            && shown.pollsSeen == SeenSince(steps, pid)
  {
    hide Reaches, Table, LatestReading, SeenSince;
    PidsAreTable(cfg, clock, steps, s);
    TableShowsLatest(steps, pid);
  }

  // ---- uploaded processes ----

  predicate IsPeakCPU(samples: seq<ProcessSnapshot>, peak: real) {
    && peak >= 0.0 && (forall s :: s in samples ==> s.cpu <= peak)
    && (peak == 0.0 || exists s :: s in samples && s.cpu == peak)
  }

  predicate IsPeakRSS(samples: seq<ProcessSnapshot>, peak: real) {
    && peak >= 0.0 && (forall s :: s in samples ==> s.rss <= peak)
    && (peak == 0.0 || exists s :: s in samples && s.rss == peak)
  }

  /** `u` sums up these snapshots of process `pid`. */
  ghost predicate Describes(u: ProcessUpload, pid: int, samples: seq<ProcessSnapshot>) {
    && samples != []
    && u.pid == pid
    && u.name == samples[|samples| - 1].name
    && u.command == LatestCommand(samples) && (u.commandPresent <==> u.command != "")
    && u.pollsSeen == |samples|
    && u.cpuTotal == TotalCPU(samples) && u.averageCPU == TotalCPU(samples) / |samples| as real
    && u.rssTotal == TotalRSS(samples) && u.averageRSS == TotalRSS(samples) / |samples| as real
    && IsPeakCPU(samples, u.peakCPU) && IsPeakRSS(samples, u.peakRSS)
  }

  lemma OnePeak(samples: seq<ProcessSnapshot>, p: real, q: real)
    ensures IsPeakCPU(samples, p) && IsPeakCPU(samples, q) ==> p == q
    ensures IsPeakRSS(samples, p) && IsPeakRSS(samples, q) ==> p == q
  {
  }

  lemma DescribedOnce(u: ProcessUpload, v: ProcessUpload, pid: int, samples: seq<ProcessSnapshot>)
    requires Describes(u, pid, samples) && Describes(v, pid, samples)
    ensures u == v
  {
    hide IsPeakCPU, IsPeakRSS, TotalCPU, TotalRSS, LatestCommand;
    OnePeak(samples, u.peakCPU, v.peakCPU);
    OnePeak(samples, u.peakRSS, v.peakRSS);
  }

  lemma ExportDescribes(pid: int, samples: seq<ProcessSnapshot>)
    requires samples != [] && samples[0].pid == pid
    ensures Recorded(samples).Some?
    ensures Describes(Exported(Recorded(samples).value), pid, samples)
  {
    hide Recorded, TotalCPU, TotalRSS, LatestCommand;
    RecordedStatistics(samples);
    ReadableCommand(samples);
  }

  lemma {:induction false} SnapshotsOfProcess(steps: seq<Step>, pid: int)
    ensures forall s :: s in Snapshots(steps, pid) ==> s.pid == pid
  {
    if steps != [] {
      hide Table;
      SnapshotsOfProcess(steps[..|steps| - 1], pid);
      TableShowsLatest(steps, pid);
    }
  }

  /** Process `pid` is listed as `u`. */
  ghost predicate ListedAs(samples: seq<ProcessSnapshot>, pid: int, u: ProcessUpload) {
    samples != [] && samples[|samples| - 1].name != "" && Describes(u, pid, samples)
  }

  lemma ReportedIsListed(samples: seq<ProcessSnapshot>, pid: int, u: ProcessUpload)
    requires samples != [] ==> samples[0].pid == pid
    ensures Reported(Recorded(samples), u) <==> ListedAs(samples, pid, u)
  {
    hide Describes, Exported;
    if samples != [] {
      ExportDescribes(pid, samples);
      ExportedName(pid, samples);
      if ListedAs(samples, pid, u) {
        DescribedOnce(u, Exported(Recorded(samples).value), pid, samples);
      }
    }
  }

  lemma ExportedName(pid: int, samples: seq<ProcessSnapshot>)
    requires samples != []
    ensures Recorded(samples).Some?
    ensures Uploadable(Recorded(samples).value) <==> samples[|samples| - 1].name != ""
  {
    hide Recorded, TotalCPU, TotalRSS, LatestCommand;
    RecordedStatistics(samples);
  }

  /** What an accepted payload says about processes: it lists exactly those that
      were tracked in the period and have a name, each with the statistics of its
      snapshots. */
  lemma PayloadListsProcesses(cfg: Config, clock: int, steps: seq<Step>, s: System, step: Step, p: Payload,
                              u: ProcessUpload)
    requires cfg.env.Sane() && cfg.uploading && Reaches(cfg, clock, steps, s)
    requires Enabled(cfg, s, step) && Accepts(step, p)
    ensures u in p.processes <==> exists pid :: ListedAs(Snapshots(steps, pid), pid, u)
  {
    hide Reaches, Enabled, Recorded, Snapshots, Reported, ListedAs;
    PayloadStatistics(cfg, clock, steps, s, step, p, u);
    forall pid
      ensures Reported(Recorded(Snapshots(steps, pid)), u) <==> ListedAs(Snapshots(steps, pid), pid, u)
    {
      SnapshotsOfProcess(steps, pid);
      ReportedIsListed(Snapshots(steps, pid), pid, u);
    }
    if pid: int :| Reported(Recorded(Snapshots(steps, pid)), u) {
      assert ListedAs(Snapshots(steps, pid), pid, u);
    }
    if pid: int :| ListedAs(Snapshots(steps, pid), pid, u) {
      assert Reported(Recorded(Snapshots(steps, pid)), u);
    }
  }

  // ---- the upload decision ----

  /** After a poll an upload is due if and only if the upload interval has passed
      since the end of the last acknowledged period, or since the first poll. */
  lemma UploadDecision(cfg: Config, clock: int, steps: seq<Step>, s: System)
    requires cfg.env.Sane() && cfg.uploading && Reaches(cfg, clock, steps, s)
    requires steps != [] && steps[|steps| - 1].EndPoll?
    ensures FirstPoll(steps).Some?
    ensures s.phase.Flushing? <==>
            s.clock - PeriodEnd(Acknowledged(steps), FirstPoll(steps).value) >= cfg.interval
    ensures !s.phase.Flushing? ==> s.phase.Idle?
    ensures s.phase.Flushing? ==> s.phase.now == s.clock
  {
    hide Reaches, Acknowledged, FirstPoll, PeriodEnd, Chained, LongEnough, AckedPolls, CompletedPolls;
    var before := LastStep(cfg, clock, steps, s);
    RunKeepsInv(cfg, clock, steps[..|steps| - 1], before);
    RunKeepsInv(cfg, clock, steps, s);
    AuditIsTrace(cfg, clock, steps, s);
    PeriodsPartitionRun(cfg, clock, steps, s);
    DecisionOfStep(cfg, before);
  }

  lemma DecisionOfStep(cfg: Config, s: System)
    requires Inv(cfg, s) && s.phase.Collected? && cfg.uploading
    ensures var t := Apply(cfg, s, EndPoll);
            && t.audit.firstPoll.Some? && t.svc.core.window.Some? && t.svc.core.window.value.startedAt.Some?
            && (t.phase.Flushing? <==> t.clock - t.svc.core.window.value.startedAt.value >= cfg.interval)
            && (!t.phase.Flushing? ==> t.phase.Idle?)
            && (t.phase.Flushing? ==> t.phase.now == t.clock)
  {
    hide Polling.CoreOk, Protocol, Accounted, AllSound, Chained;
  }

  // ---- resolved names ----

  /** The names that lookups have come up with in a run. */
  ghost function Resolutions(cfg: Config, clock: int, steps: seq<Step>): map<string, string>
    requires Run(cfg, clock, steps).Some?
  {
    if steps == [] then map[]
    else
      var n := |steps| - 1;
      var earlier := Resolutions(cfg, clock, steps[..n]);
      var inFlight := Run(cfg, clock, steps[..n]).value.inFlight;
      if steps[n].Complete? && steps[n].name != "" then earlier[inFlight.value := steps[n].name] else earlier
  }

  lemma StepResolves(cfg: Config, s: System, step: Step)
    requires Inv(cfg, s) && Enabled(cfg, s, step)
    ensures Apply(cfg, s, step).svc.core.cache ==
            if step.Complete? && step.name != ""
            then s.svc.core.cache[s.inFlight.value := LookupResult(true, step.name)]
            else s.svc.core.cache
  {
    hide Protocol, UploadsOk, Polling.CoreOk, IsPayload, PollNetworkCore, RequestsAround, Polling.CarriedAfterPoll,
         PollProcessesCore, ShouldUpload, CacheSound;
    if step.Complete? {
      WindowOfInv(cfg, s);
      CompleteKeepsProtocol(cfg.env, s.svc, s.inFlight.value, step.name);
    } else if step.ReadNetwork? {
      CollectKeepsCache(cfg, s, step.observations, step.order, step.receive);
    } else if step.ReadProcesses? {
      BeginPollKeepsCache(s.svc.core, step.readings, step.now);
    }
  }

  /** At every point of every run the cache holds exactly the names that lookups
      have come up with. */
  lemma {:induction false} CacheIsResolutions(cfg: Config, clock: int, steps: seq<Step>, s: System)
    requires cfg.env.Sane() && Reaches(cfg, clock, steps, s)
    ensures s.svc.core.cache.Keys == Resolutions(cfg, clock, steps).Keys
    ensures forall h :: h in s.svc.core.cache ==>
              s.svc.core.cache[h] == LookupResult(true, Resolutions(cfg, clock, steps)[h])
  {
    if steps != [] {
      hide Reaches, Inv, Enabled, Apply;
      var n := |steps| - 1;
      var before := LastStep(cfg, clock, steps, s);
      ReachesRun(cfg, clock, steps[..n], before);
      RunKeepsInv(cfg, clock, steps[..n], before);
      CacheIsResolutions(cfg, clock, steps[..n], before);
      StepResolves(cfg, before, steps[n]);
    }
  }

  lemma ReachesRun(cfg: Config, clock: int, steps: seq<Step>, s: System)
    requires Reaches(cfg, clock, steps, s)
    ensures Run(cfg, clock, steps) == Some(s)
  {
    hide Run;
  }

  /** So a record shows the name that was found for its host, or none. */
  lemma RecordsShowResolutions(cfg: Config, clock: int, steps: seq<Step>, s: System)
    requires cfg.env.Sane() && Reaches(cfg, clock, steps, s)
    ensures var names := Resolutions(cfg, clock, steps);
            && (forall d :: d in s.svc.core.domains ==>
                  s.svc.core.domains[d].snapshot.displayName == if d in names then names[d] else "")
            && (forall k :: k in s.svc.core.connections ==>
                  var c := s.svc.core.connections[k].snapshot;
                  c.displayName == if c.domain in names then names[c.domain] else "")
  {
    hide Run, Resolutions;
    NamesAgreeWithCache(cfg, clock, steps, s);
    CacheIsResolutions(cfg, clock, steps, s);
  }

  // ---- high-water marks ----

  predicate Acknowledges(step: Step) {
    step.UploadAccepted? || (step.Shutdown? && step.last.Some? && step.accepted)
  }

  /** The most processes tracked after a process poll of the period. */
  function PeakProcesses(steps: seq<Step>): nat {
    if steps == [] then 0
    else
      var earlier := PeakProcesses(steps[..|steps| - 1]);
      var last := steps[|steps| - 1];
      if Acknowledges(last) then 0
      else if last.ReadProcesses? && |Table(steps)| > earlier then |Table(steps)|
      else earlier
  }

  /** The hosts and the connections tracked within a network poll: the records
      from before and the observed ones. */
  function TrackedWithin(c: Core, obs: map<string, Observation>): (nat, nat) {
    (|c.domains.Keys + HostsObserved(obs, obs.Keys)|, |c.connections.Keys + ConnectionsObserved(obs, obs.Keys)|)
  }

  function LargerPair(a: (nat, nat), b: (nat, nat)): (nat, nat) {
    (Larger(a.0, b.0), Larger(a.1, b.1))
  }

  /** The most hosts, and the most connections, tracked within a network poll of
      the period. */
  ghost function PeakRecords(cfg: Config, clock: int, steps: seq<Step>): (nat, nat)
    requires Run(cfg, clock, steps).Some?
  {
    if steps == [] then (0, 0)
    else
      var n := |steps| - 1;
      var earlier := PeakRecords(cfg, clock, steps[..n]);
      var before := Run(cfg, clock, steps[..n]).value.svc.core;
      if Acknowledges(steps[n]) then (0, 0)
      else if steps[n].ReadNetwork? && steps[n].observations.Keys != {} then
        LargerPair(TrackedWithin(before, steps[n].observations), earlier)
      else earlier
  }

  /** What a step does to the marks of the window. */
  ghost predicate MarksMove(cfg: Config, s: System, step: Step, w: Window, v: Window) {
    if Acknowledges(step) then
      v.maxTrackedProcesses == v.maxTrackedDomains == v.maxTrackedConnections == 0
    else if step.ReadProcesses? then
      var tracked := |PollProcesses(s.svc.core.pids, step.readings, step.now)|;
      && v.maxTrackedProcesses == Mark(w.maxTrackedProcesses, tracked, true)
      && Marked(w, v, 0, 0, false)
    else if step.ReadNetwork? then
      var c, obs := s.svc.core, step.observations;
      && v.maxTrackedProcesses == w.maxTrackedProcesses
      && Marked(w, v, |c.domains.Keys + HostsObserved(obs, obs.Keys)|,
                |c.connections.Keys + ConnectionsObserved(obs, obs.Keys)|, obs.Keys != {})
    else v.maxTrackedProcesses == w.maxTrackedProcesses && Marked(w, v, 0, 0, false)
  }

  lemma {:induction false} ObserveAllProcessMark(env: Env, c: Core, order: seq<string>,
                                                 obs: map<string, Observation>, now: int)
    requires forall k :: k in order ==> k in obs
    requires c.window.Some? && c.window.value.startedAt.Some?
    ensures var w := ObserveAllCore(env, c, order, obs, now).window;
            w.Some? && w.value.startedAt.Some? && w.value.maxTrackedProcesses == c.window.value.maxTrackedProcesses
  {
    if order != [] {
      hide PostingOf, Books.Post;
      ObserveAllProcessMark(env, c, order[..|order| - 1], obs, now);
    }
  }

  lemma StepMarks(cfg: Config, s: System, step: Step)
    requires Enabled(cfg, s, step)
    requires s.svc.core.window.Some? && Started(s.svc.core.window.value)
    requires s.phase.Polled? ==> s.svc.core.window.value.startedAt.Some?
    ensures Apply(cfg, s, step).svc.core.window.Some?
    ensures MarksMove(cfg, s, step, s.svc.core.window.value, Apply(cfg, s, step).svc.core.window.value)
  {
    if step.ReadNetwork? {
      NetworkMarks(cfg, s, step);
    } else if step.ReadProcesses? {
      hide PollProcesses, RecordedUpTo;
    } else {
      QuietMarks(cfg, s, step);
    }
  }

  lemma QuietMarks(cfg: Config, s: System, step: Step)
    requires Enabled(cfg, s, step) && !step.ReadNetwork? && !step.ReadProcesses?
    requires s.svc.core.window.Some? && Started(s.svc.core.window.value)
    ensures Apply(cfg, s, step).svc.core.window.Some?
    ensures MarksMove(cfg, s, step, s.svc.core.window.value, Apply(cfg, s, step).svc.core.window.value)
  {
    hide PollProcesses, PollProcessesCore, PollNetwork, Polling.CarriedAfterPoll, Rename, RenameConnections, IsPayload,
         ShouldUpload, HostsObserved, ConnectionsObserved;
  }

  lemma NetworkMarks(cfg: Config, s: System, step: Step)
    requires Enabled(cfg, s, step) && step.ReadNetwork?
    requires s.svc.core.window.Some? && s.svc.core.window.value.startedAt.Some?
    ensures Apply(cfg, s, step).svc.core.window.Some?
    ensures MarksMove(cfg, s, step, s.svc.core.window.value, Apply(cfg, s, step).svc.core.window.value)
  {
    hide RequestsAround, ReceivedHost, ObserveAllCore, Polling.CarriedAfterPoll, HostsObserved, ConnectionsObserved,
         Marked;
    PollOfMarks(cfg.env, s.svc.core, step.order, step.observations, s.phase.now);
    ObserveAllProcessMark(cfg.env, s.svc.core, step.order, step.observations, s.phase.now);
  }

  lemma PhaseStarts(cfg: Config, s: System)
    requires Inv(cfg, s) && s.svc.core.window.Some?
    ensures s.phase.Polled? ==> s.svc.core.window.value.startedAt.Some?
  {
    hide Polling.CoreOk, Protocol, UploadsOk;
  }

  ghost predicate AtPeaks(w: Window, processes: nat, records: (nat, nat)) {
    w.maxTrackedProcesses == processes && w.maxTrackedDomains == records.0 && w.maxTrackedConnections == records.1
  }

  lemma PeaksMove(cfg: Config, clock: int, steps: seq<Step>, before: System, w: Window, v: Window)
    requires steps != [] && Run(cfg, clock, steps).Some?
    requires Run(cfg, clock, steps[..|steps| - 1]) == Some(before)
    requires before.svc.core.pids == Table(steps[..|steps| - 1])
    requires AtPeaks(w, PeakProcesses(steps[..|steps| - 1]), PeakRecords(cfg, clock, steps[..|steps| - 1]))
    requires MarksMove(cfg, before, steps[|steps| - 1], w, v)
    ensures AtPeaks(v, PeakProcesses(steps), PeakRecords(cfg, clock, steps))
  {
    hide Run, Enabled, Apply, PollProcesses, HostsObserved, ConnectionsObserved;
  }

  /** At every point of every run the window's high-water marks are these. */
  lemma {:induction false} MarksArePeaks(cfg: Config, clock: int, steps: seq<Step>, s: System)
    requires cfg.env.Sane() && cfg.uploading && Reaches(cfg, clock, steps, s)
    ensures s.svc.core.window.Some?
    ensures var w := s.svc.core.window.value;
            && w.maxTrackedProcesses == PeakProcesses(steps)
            && w.maxTrackedDomains == PeakRecords(cfg, clock, steps).0
            && w.maxTrackedConnections == PeakRecords(cfg, clock, steps).1
  {
    if steps != [] {
      hide Run, Inv, Enabled, Apply, MarksMove, PeakProcesses, PeakRecords, Table;
      var n := |steps| - 1;
      var before := LastStep(cfg, clock, steps, s);
      RunKeepsInv(cfg, clock, steps[..n], before);
      MarksArePeaks(cfg, clock, steps[..n], before);
      PidsAreTable(cfg, clock, steps[..n], before);
      WindowOfInv(cfg, before);
      PhaseStarts(cfg, before);
      StepMarks(cfg, before, steps[n]);
      PeaksMove(cfg, clock, steps, before, before.svc.core.window.value, s.svc.core.window.value);
    }
  }

  // ---- what is sent ----

  /** While an upload is on its way the counts are still those of the records. */
  lemma {:induction false} FlushingCounts(cfg: Config, clock: int, steps: seq<Step>, s: System)
    requires Reaches(cfg, clock, steps, s) && s.phase.Flushing?
    ensures s.phase.counts ==
            Counts(true, |s.svc.core.pids|, |s.svc.core.domains|, |s.svc.core.connections|)
  {
    hide Reaches, Enabled, Apply;
    if steps == [] {
      NotFlushingAtStart(cfg, clock, s);
    } else {
      var before := LastStep(cfg, clock, steps, s);
      StepCounts(cfg, before, steps[|steps| - 1]);
      if before.phase.Flushing? {
        FlushingCounts(cfg, clock, steps[..|steps| - 1], before);
      }
    }
  }

  lemma NotFlushingAtStart(cfg: Config, clock: int, s: System)
    requires Reaches(cfg, clock, [], s)
    ensures !s.phase.Flushing?
  {
  }

  function Sizes(c: Core): (nat, nat, nat) {
    (|c.pids|, |c.domains|, |c.connections|)
  }

  lemma StepCounts(cfg: Config, s: System, step: Step)
    requires Enabled(cfg, s, step) && Apply(cfg, s, step).phase.Flushing?
    ensures var t := Apply(cfg, s, step);
            if s.phase.Flushing? then t.phase.counts == s.phase.counts && Sizes(t.svc.core) == Sizes(s.svc.core)
            else t.phase.counts == Counts(true, |t.svc.core.pids|, |t.svc.core.domains|, |t.svc.core.connections|)
  {
    hide IsPayload, ShouldUpload, PollNetwork, PollProcessesCore, ReceivedHost, Polling.CarriedAfterPoll;
    if step.Complete? {
      RenamingKeepsSizes(s.svc.core, s.inFlight.value, step.name);
    }
  }

  lemma RenamingKeepsSizes(c: Core, ip: string, name: string)
    ensures |Rename(c.domains, ip, name)| == |c.domains|
    ensures |RenameConnections(c.connections, ip, name)| == |c.connections|
  {
    assert Rename(c.domains, ip, name).Keys == c.domains.Keys;
    assert RenameConnections(c.connections, ip, name).Keys == c.connections.Keys;
    assert |Rename(c.domains, ip, name)| == |Rename(c.domains, ip, name).Keys| && |c.domains| == |c.domains.Keys|;
    assert |RenameConnections(c.connections, ip, name)| == |RenameConnections(c.connections, ip, name).Keys|;
    assert |c.connections| == |c.connections.Keys|;
  }

  function Larger(a: nat, b: nat): nat {
    if a > b then a else b
  }

  /** The head of every payload that is sent: its period, its duration in whole
      seconds, and for processes, hosts and connections the larger of the number
      tracked now and the peak of the period. It is marked as running unless the
      shutdown sends it. */
  lemma SentPayloadHead(cfg: Config, clock: int, steps: seq<Step>, s: System, p: Payload, now: int, counts: Counts)
    requires cfg.env.Sane() && cfg.uploading && Reaches(cfg, clock, steps, s) && Offered(cfg, s, p, now, counts)
    ensures FirstPoll(steps).Some?
    ensures p.schemaVersion == 1 && p.sentAt == now && p.endedAt == now
    ensures p.startedAt == PeriodEnd(Acknowledged(steps), FirstPoll(steps).value)
    ensures 0 <= now - p.startedAt - p.durationSeconds * 1_000_000_000 < 1_000_000_000
    ensures p.running <==> s.phase.Flushing?
    ensures p.trackedProcesses == Larger(|s.svc.core.pids|, PeakProcesses(steps))
    ensures p.trackedDomains == Larger(|s.svc.core.domains|, PeakRecords(cfg, clock, steps).0)
    ensures p.trackedConnections == Larger(|s.svc.core.connections|, PeakRecords(cfg, clock, steps).1)
  {
    hide Reaches, Run, Inv, IsPayload, FirstPoll, Acknowledged, PeriodEnd, Chained, LongEnough, AckedPolls,
         CompletedPolls, PeakProcesses, PeakRecords;
    PeriodsPartitionRun(cfg, clock, steps, s);
    MarksArePeaks(cfg, clock, steps, s);
    if s.phase.Flushing? {
      FlushingCounts(cfg, clock, steps, s);
    }
    RunKeepsInv(cfg, clock, steps, s);
    StartedBefore(cfg, s);
    ClockOfInv(cfg, s);
    HeadOfPayload(cfg.env, p, s.svc.core.window.value, now, counts);
    PayloadDuration(cfg.env, p, s.svc.core.window.value, now, counts);
    NothingAcknowledgedBefore(cfg, clock, steps, s);
  }

  lemma HeadOfPayload(env: Env, p: Payload, w: Window, now: int, counts: Counts)
    requires w.startedAt.Some? && IsPayload(env, p, w, now, counts)
    ensures p.schemaVersion == 1 && p.sentAt == now && p.endedAt == now && p.startedAt == w.startedAt.value
    ensures p.running == counts.running
    ensures p.trackedProcesses == Larger(counts.processes, w.maxTrackedProcesses)
    ensures p.trackedDomains == Larger(counts.domains, w.maxTrackedDomains)
    ensures p.trackedConnections == Larger(counts.connections, w.maxTrackedConnections)
  {
    hide Ranking.Ranked;
  }

  lemma StartedBefore(cfg: Config, s: System)
    requires Inv(cfg, s) && s.svc.core.window.Some? && s.svc.core.window.value.startedAt.Some?
    ensures s.svc.core.window.value.startedAt.value <= s.clock
  {
    hide Polling.CoreOk, Protocol, Accounted, PhaseOk, AllSound, Chained, LongEnough, AckedPolls;
  }

  lemma ClockOfInv(cfg: Config, s: System)
    requires Inv(cfg, s)
    ensures s.phase.Flushing? ==> s.phase.now == s.clock
  {
    hide Polling.CoreOk, Protocol, UploadsOk;
  }

  /** A started window means that there was a first poll. */
  lemma NothingAcknowledgedBefore(cfg: Config, clock: int, steps: seq<Step>, s: System)
    requires cfg.env.Sane() && cfg.uploading && Reaches(cfg, clock, steps, s)
    requires s.svc.core.window.Some? && s.svc.core.window.value.startedAt.Some?
    ensures FirstPoll(steps).Some?
  {
    hide Reaches, FirstPoll, Acknowledged, Collections, CompletedPolls, PostingsSinceAck;
    RunKeepsInv(cfg, clock, steps, s);
    AuditIsTrace(cfg, clock, steps, s);
    FirstPollOfInv(cfg, s);
  }

  lemma FirstPollOfInv(cfg: Config, s: System)
    requires Inv(cfg, s) && s.svc.core.window.Some? && s.svc.core.window.value.startedAt.Some?
    ensures s.audit.firstPoll.Some?
  {
    hide Polling.CoreOk, Protocol, Accounted, PhaseOk, AllSound, Chained, LongEnough, AckedPolls;
  }
}
