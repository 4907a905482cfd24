/** The process table and the per-window process statistics. CPU and memory are
    reals: rounding is not modelled. */
module Processes {
  import opened Basics

  /** Five seconds; times are in nanoseconds. */
  const POLL_INTERVAL: int := 5_000_000_000

  /** What one poll reads about one process. */
  datatype Reading = Reading(pid: int, name: string, command: string, cpu: real, rss: real)

  datatype ProcessSnapshot = ProcessSnapshot(
    pid: int, name: string, command: string, cpu: real, rss: real, pollsSeen: nat)

  datatype ProcessRecord = ProcessRecord(snapshot: ProcessSnapshot, lastSeen: int)

  type ProcessTable = map<int, ProcessRecord>

  function Refresh(pids: ProcessTable, r: Reading, now: int): ProcessTable {
    var seen := if r.pid in pids then pids[r.pid].snapshot.pollsSeen else 0;
    pids[r.pid := ProcessRecord(ProcessSnapshot(r.pid, r.name, r.command, r.cpu, r.rss, seen + 1), now)]
  }

  function RefreshAll(pids: ProcessTable, readings: seq<Reading>, now: int): ProcessTable {
    if readings == [] then pids
    else
      var n := |readings| - 1;
      Refresh(RefreshAll(pids, readings[..n], now), readings[n], now)
  }

  function Listed(readings: seq<Reading>): set<int> {
    set r | r in readings :: r.pid
  }

  predicate Expired(lastSeen: int, now: int, polls: int) {
    now - lastSeen > POLL_INTERVAL * polls
  }

  function EvictProcesses(pids: ProcessTable, current: set<int>, now: int): ProcessTable {
    map pid | pid in pids && (pid in current || !Expired(pids[pid].lastSeen, now, 2)) :: pids[pid]
  }

  function PollProcesses(pids: ProcessTable, readings: seq<Reading>, now: int): ProcessTable {
    EvictProcesses(RefreshAll(pids, readings, now), Listed(readings), now)
  }

  lemma RefreshAllNothing(pids: ProcessTable, readings: seq<Reading>, now: int)
    ensures RefreshAll(pids, readings[..0], now) == pids && Listed(readings[..0]) == {}
  {
  }

  lemma RefreshAllNext(pids: ProcessTable, readings: seq<Reading>, n: nat, now: int)
    requires n < |readings|
    ensures RefreshAll(pids, readings[..n + 1], now) == Refresh(RefreshAll(pids, readings[..n], now), readings[n], now)
    ensures Listed(readings[..n + 1]) == Listed(readings[..n]) + {readings[n].pid}
  {
    hide Refresh;
    assert readings[..n + 1][..n] == readings[..n];
    assert readings[..n + 1] == readings[..n] + [readings[n]];
  }

  lemma {:induction false} RefreshAllTable(pids: ProcessTable, readings: seq<Reading>, now: int)
    ensures RefreshAll(pids, readings, now).Keys == pids.Keys + Listed(readings)
    ensures forall pid :: pid in pids && pid !in Listed(readings) ==> RefreshAll(pids, readings, now)[pid] == pids[pid]
    ensures forall pid :: pid in Listed(readings) ==> RefreshAll(pids, readings, now)[pid].lastSeen == now
  {
    if readings != [] {
      var n := |readings| - 1;
      RefreshAllTable(pids, readings[..n], now);
      assert readings == readings[..n] + [readings[n]];
      assert Listed(readings) == Listed(readings[..n]) + {readings[n].pid};
    }
  }

  /** A process is tracked exactly when it was listed in this poll or was seen
      at most two intervals, ten seconds, ago; one that was not listed keeps its record. */
  lemma TrackedProcesses(pids: ProcessTable, readings: seq<Reading>, now: int, pid: int)
    ensures pid in PollProcesses(pids, readings, now) <==>
              pid in Listed(readings) || (pid in pids && now - pids[pid].lastSeen <= 10_000_000_000)
    ensures pid in PollProcesses(pids, readings, now) ==>
              if pid in Listed(readings) then PollProcesses(pids, readings, now)[pid].lastSeen == now
              else PollProcesses(pids, readings, now)[pid] == pids[pid]
  {
    RefreshAllTable(pids, readings, now);
  }

  /** How often a process occurs in a listing. */
  function Occurrences(readings: seq<Reading>, pid: int): nat {
    if readings == [] then 0
    else
      var n := |readings| - 1;
      Occurrences(readings[..n], pid) + if readings[n].pid == pid then 1 else 0
  }

  function SeenBefore(pids: ProcessTable, pid: int): nat {
    if pid in pids then pids[pid].snapshot.pollsSeen else 0
  }

  /** The snapshot shows what was read. */
  predicate Depicts(s: ProcessSnapshot, r: Reading) {
    s.pid == r.pid && s.name == r.name && s.command == r.command && s.cpu == r.cpu && s.rss == r.rss
  }

  lemma {:induction false} RefreshedCount(pids: ProcessTable, readings: seq<Reading>, now: int, pid: int)
    requires pid in Listed(readings)
    ensures pid in RefreshAll(pids, readings, now)
    ensures RefreshAll(pids, readings, now)[pid].snapshot.pollsSeen ==
            SeenBefore(pids, pid) + Occurrences(readings, pid)
  {
    var n := |readings| - 1;
    assert readings == readings[..n] + [readings[n]];
    RefreshAllTable(pids, readings[..n], now);
    RefreshAllTable(pids, readings, now);
    if pid in Listed(readings[..n]) {
      RefreshedCount(pids, readings[..n], now, pid);
    } else {
      UnlistedCount(readings[..n], pid);
    }
  }

  lemma {:induction false} UnlistedCount(readings: seq<Reading>, pid: int)
    requires pid !in Listed(readings)
    ensures Occurrences(readings, pid) == 0
  {
    if readings != [] {
      var n := |readings| - 1;
      assert readings == readings[..n] + [readings[n]];
      UnlistedCount(readings[..n], pid);
    }
  }

  lemma {:induction false} RefreshedReading(pids: ProcessTable, readings: seq<Reading>, now: int, i: nat)
    requires i < |readings| && forall j :: i < j < |readings| ==> readings[j].pid != readings[i].pid
    ensures var pid := readings[i].pid;
            && pid in RefreshAll(pids, readings, now)
            && Depicts(RefreshAll(pids, readings, now)[pid].snapshot, readings[i])
  {
    var n := |readings| - 1;
    if i < n {
      RefreshedReading(pids, readings[..n], now, i);
    }
  }

  /** A listed process shows the last reading of it in the listing, and counts
      every occurrence. */
  lemma ListedProcessShown(pids: ProcessTable, readings: seq<Reading>, now: int, i: nat)
    requires i < |readings| && forall j :: i < j < |readings| ==> readings[j].pid != readings[i].pid
    ensures var pid := readings[i].pid;
            && pid in PollProcesses(pids, readings, now)
            && var record := PollProcesses(pids, readings, now)[pid];
               && Depicts(record.snapshot, readings[i])
               && record.snapshot.pollsSeen == SeenBefore(pids, pid) + Occurrences(readings, pid)
               && record.lastSeen == now
  {
    RefreshedReading(pids, readings, now, i);
    assert readings[i] in readings;
    RefreshedCount(pids, readings, now, readings[i].pid);
    RefreshAllTable(pids, readings, now);
  }

  lemma {:induction false} ListedOnce(readings: seq<Reading>, r: Reading)
    requires r in readings
    requires forall i, j :: 0 <= i < j < |readings| ==> readings[i].pid != readings[j].pid
    ensures Occurrences(readings, r.pid) == 1
  {
    var n := |readings| - 1;
    if readings[n] == r {
      UnlistedCount(readings[..n], r.pid);
    } else {
      var i :| 0 <= i < |readings| && readings[i] == r;
      assert i < n && readings[..n][i] == r;
      ListedOnce(readings[..n], r);
    }
  }

  /** So for a listing without repetition every process shows its reading and has
      been seen once more. */
  lemma EachReadingShown(pids: ProcessTable, readings: seq<Reading>, now: int, r: Reading)
    requires r in readings
    requires forall i, j :: 0 <= i < j < |readings| ==> readings[i].pid != readings[j].pid
    ensures r.pid in PollProcesses(pids, readings, now)
    ensures var s := PollProcesses(pids, readings, now)[r.pid].snapshot;
            && s.pid == r.pid && s.name == r.name && s.command == r.command && s.cpu == r.cpu && s.rss == r.rss
            && s.pollsSeen == (if r.pid in pids then pids[r.pid].snapshot.pollsSeen else 0) + 1
  {
    hide PollProcesses, Occurrences;
    var i :| 0 <= i < |readings| && readings[i] == r;
    ListedProcessShown(pids, readings, now, i);
    ListedOnce(readings, r);
  }

  datatype ProcessUpload = ProcessUpload(
    pid: int, name: string, command: string,
    averageCPU: real, peakCPU: real, averageRSS: real, peakRSS: real,
    pollsSeen: nat, commandPresent: bool, cpuTotal: real, rssTotal: real)

  function RecordProcess(prior: Option<ProcessUpload>, s: ProcessSnapshot): ProcessUpload {
    var record :=
      if prior.Some? then prior.value
      else ProcessUpload(s.pid, s.name, "", 0.0, 0.0, 0.0, 0.0, 0, false, 0.0, 0.0);
    var seen := record.pollsSeen + 1;
    var cpuTotal := record.cpuTotal + s.cpu;
    var rssTotal := record.rssTotal + s.rss;
    record.(
      name := s.name,
      command := if s.command != "" then s.command else record.command,
      commandPresent := s.command != "" || record.commandPresent,
      cpuTotal := cpuTotal,
      rssTotal := rssTotal,
      pollsSeen := seen,
      averageCPU := cpuTotal / seen as real,
      averageRSS := rssTotal / seen as real,
      peakCPU := if s.cpu > record.peakCPU then s.cpu else record.peakCPU,
      peakRSS := if s.rss > record.peakRSS then s.rss else record.peakRSS)
  }

  /** The statistics after a run of snapshots of one process. */
  function Recorded(samples: seq<ProcessSnapshot>): Option<ProcessUpload> {
    if samples == [] then None
    else
      var n := |samples| - 1;
      Some(RecordProcess(Recorded(samples[..n]), samples[n]))
  }

  function TotalCPU(samples: seq<ProcessSnapshot>): real {
    if samples == [] then 0.0 else TotalCPU(samples[..|samples| - 1]) + samples[|samples| - 1].cpu
  }

  function TotalRSS(samples: seq<ProcessSnapshot>): real {
    if samples == [] then 0.0 else TotalRSS(samples[..|samples| - 1]) + samples[|samples| - 1].rss
  }

  /** The last command that was readable, or "". */
  function LatestCommand(samples: seq<ProcessSnapshot>): string {
    if samples == [] then ""
    else
      var n := |samples| - 1;
      if samples[n].command != "" then samples[n].command else LatestCommand(samples[..n])
  }

  lemma {:induction false} RecordedMeans(samples: seq<ProcessSnapshot>)
    requires samples != []
    ensures Recorded(samples).Some?
    ensures var u := Recorded(samples).value;
            && u.pid == samples[0].pid
            && u.pollsSeen == |samples|
            && u.cpuTotal == TotalCPU(samples) && u.averageCPU == TotalCPU(samples) / |samples| as real
            && u.rssTotal == TotalRSS(samples) && u.averageRSS == TotalRSS(samples) / |samples| as real
  {
    var n := |samples| - 1;
    if n > 0 {
      RecordedMeans(samples[..n]);
    } else {
      assert samples[..n] == [];
    }
  }

  lemma {:induction false} RecordedPeaks(samples: seq<ProcessSnapshot>)
    requires samples != []
    ensures Recorded(samples).Some?
    ensures var u := Recorded(samples).value;
            && u.peakCPU >= 0.0 && u.peakRSS >= 0.0
            && (forall s :: s in samples ==> s.cpu <= u.peakCPU && s.rss <= u.peakRSS)
            && (u.peakCPU == 0.0 || exists s :: s in samples && s.cpu == u.peakCPU)
            && (u.peakRSS == 0.0 || exists s :: s in samples && s.rss == u.peakRSS)
  {
    var n := |samples| - 1;
    assert samples == samples[..n] + [samples[n]];
    assert forall s :: s in samples <==> s in samples[..n] || s == samples[n];
    if n > 0 {
      RecordedPeaks(samples[..n]);
    } else {
      assert samples[..n] == [];
    }
  }

  lemma {:induction false} RecordedText(samples: seq<ProcessSnapshot>)
    requires samples != []
    ensures Recorded(samples).Some?
    ensures var u := Recorded(samples).value;
            && u.name == samples[|samples| - 1].name
            && u.command == LatestCommand(samples)
            && (u.commandPresent <==> u.command != "")
  {
    var n := |samples| - 1;
    if n > 0 {
      RecordedText(samples[..n]);
    } else {
      assert samples[..n] == [];
    }
  }

  lemma {:induction false} ReadableCommand(samples: seq<ProcessSnapshot>)
    ensures LatestCommand(samples) != "" <==> exists s :: s in samples && s.command != ""
  {
    if samples != [] {
      var n := |samples| - 1;
      ReadableCommand(samples[..n]);
      assert samples == samples[..n] + [samples[n]];
      assert forall s :: s in samples <==> s in samples[..n] || s == samples[n];
    }
  }

  /** The incremental statistics are the count, the means and the maxima (never
      below zero) of all samples, with the latest name and the latest command
      that was readable. */
  lemma RecordedStatistics(samples: seq<ProcessSnapshot>)
    requires samples != []
    ensures Recorded(samples).Some?
    ensures var u := Recorded(samples).value;
            && u.pid == samples[0].pid
            && u.pollsSeen == |samples|
            && u.cpuTotal == TotalCPU(samples) && u.averageCPU == TotalCPU(samples) / |samples| as real
            && u.rssTotal == TotalRSS(samples) && u.averageRSS == TotalRSS(samples) / |samples| as real
            && u.name == samples[|samples| - 1].name
            && u.peakCPU >= 0.0 && u.peakRSS >= 0.0
            && (forall s :: s in samples ==> s.cpu <= u.peakCPU && s.rss <= u.peakRSS)
            && (u.peakCPU == 0.0 || exists s :: s in samples && s.cpu == u.peakCPU)
            && (u.peakRSS == 0.0 || exists s :: s in samples && s.rss == u.peakRSS)
            && u.command == LatestCommand(samples)
            && (u.commandPresent <==> exists s :: s in samples && s.command != "")
  {
    hide Recorded, TotalCPU, TotalRSS, LatestCommand;
    RecordedMeans(samples);
    RecordedPeaks(samples);
    RecordedText(samples);
    ReadableCommand(samples);
  }

  lemma {:induction false} TotalsAtMostPeaks(samples: seq<ProcessSnapshot>, cpu: real, rss: real)
    requires forall s :: s in samples ==> s.cpu <= cpu && s.rss <= rss
    ensures TotalCPU(samples) <= cpu * |samples| as real
    ensures TotalRSS(samples) <= rss * |samples| as real
  {
    if samples != [] {
      var n := |samples| - 1;
      TotalsAtMostPeaks(samples[..n], cpu, rss);
      assert samples[n] in samples;
      assert |samples| as real == n as real + 1.0;
    }
  }

  lemma MeanAtMost(total: real, peak: real, n: real)
    requires n > 0.0 && total <= peak * n
    ensures total / n <= peak
  {
    assert total / n * n == total;
  }

  /** An exported average never exceeds the exported peak. */
  lemma AverageAtMostPeak(samples: seq<ProcessSnapshot>)
    requires samples != []
    ensures Recorded(samples).Some?
    ensures Recorded(samples).value.averageCPU <= Recorded(samples).value.peakCPU
    ensures Recorded(samples).value.averageRSS <= Recorded(samples).value.peakRSS
  {
    hide Recorded, TotalCPU, TotalRSS;
    RecordedStatistics(samples);
    var u := Recorded(samples).value;
    TotalsAtMostPeaks(samples, u.peakCPU, u.peakRSS);
    MeanAtMost(TotalCPU(samples), u.peakCPU, |samples| as real);
    MeanAtMost(TotalRSS(samples), u.peakRSS, |samples| as real);
  }
}
