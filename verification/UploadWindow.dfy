/** The upload window: what accumulates between two acknowledged uploads. */
module UploadWindow {
  import opened Basics
  import opened Tallies
  import opened Accounts
  import opened Processes

  datatype Window = Window(
    startedAt: Option<int>,
    polls: nat,
    maxTrackedProcesses: nat,
    maxTrackedDomains: nat,
    maxTrackedConnections: nat,
    totalRx: nat,
    totalTx: nat,
    processes: map<int, ProcessUpload>,
    books: Books)
  {
    function Bytes(dir: Direction): nat {
      if dir == RX then totalRx else totalTx
    }
  }

  /** The zero value; a zero start time is `None`. */
  const UNSTARTED := Window(None, 0, 0, 0, 0, 0, 0, map[], NO_BOOKS)

  function Fresh(now: int): Window {
    UNSTARTED.(startedAt := Some(now))
  }

  function Ensure(w: Window, now: int): Window {
    if w.startedAt.Some? then w else Fresh(now)
  }

  /** Window statistics after the processes in `done` have been recorded. */
  function RecordedUpTo(m: map<int, ProcessUpload>, pids: ProcessTable, done: set<int>): map<int, ProcessUpload>
    requires done <= pids.Keys
  {
    map pid | pid in m.Keys + done ::
      if pid in done then RecordProcess(Find(m, pid), pids[pid].snapshot) else m[pid]
  }

  lemma RecordedUpToNothing(m: map<int, ProcessUpload>, pids: ProcessTable)
    ensures RecordedUpTo(m, pids, {}) == m
  {
  }

  /** Recording one more process touches only that process. */
  lemma RecordedUpToStep(m: map<int, ProcessUpload>, pids: ProcessTable, done: set<int>, pid: int)
    requires done <= pids.Keys && pid in pids && pid !in done
    ensures var before := RecordedUpTo(m, pids, done);
            RecordedUpTo(m, pids, done + {pid}) ==
            before[pid := RecordProcess(Find(before, pid), pids[pid].snapshot)]
  {
    hide RecordProcess;
  }

  function RecordProcesses(w: Window, now: int, pids: ProcessTable): Window {
    var started := Ensure(w, now);
    started.(processes := RecordedUpTo(started.processes, pids, pids.Keys),
             maxTrackedProcesses := Max(started.maxTrackedProcesses, |pids|))
  }

  function RecordNetwork(w: Window, now: int, p: Posting, trackedDomains: nat, trackedConnections: nat): Window {
    var started := Ensure(w, now);
    started.(totalRx := started.totalRx + p.rx,
             totalTx := started.totalTx + p.tx,
             books := started.books.Post(p),
             maxTrackedDomains := Max(started.maxTrackedDomains, trackedDomains),
             maxTrackedConnections := Max(started.maxTrackedConnections, trackedConnections))
  }

  function IncrementPoll(w: Window, now: int): Window {
    var started := Ensure(w, now);
    started.(polls := started.polls + 1)
  }

  /** There is something to send. */
  predicate Flushable(w: Window) {
    w.startedAt.Some? && w.polls != 0
  }

  predicate ShouldUpload(w: Window, now: int, interval: int) {
    Flushable(w) && now - w.startedAt.value >= interval
  }

  /** Some run of readings of one process explains the statistics. */
  ghost predicate Statistical(u: ProcessUpload) {
    exists samples: seq<ProcessSnapshot> :: samples != [] && Recorded(samples) == Some(u)
  }

  /** The totals are the sum over the domains, and `recorded` postings were
      counted: the ledgers partition the window. */
  ghost predicate Partition(w: Window, recorded: nat) {
    Sum(DomainTallies(w.books.domains)) == Tally(w.totalRx, w.totalTx, recorded)
  }

  ghost predicate Consistent(w: Window, recorded: nat) {
    && (w.startedAt.None? ==> w == UNSTARTED)
    && w.books.Keyed()
    && w.books.Linked()
    && w.books.Balanced(map[])
    && Partition(w, recorded)
    && w.maxTrackedDomains <= w.maxTrackedConnections
    && (forall pid :: pid in w.processes ==> w.processes[pid].pid == pid && Statistical(w.processes[pid]))
  }

  lemma FreshIsConsistent(now: int)
    ensures Consistent(Fresh(now), 0) && Consistent(UNSTARTED, 0)
    ensures Fresh(now).books.NamesAgree()
  {
    assert DomainTallies(NO_BOOKS.domains) == map[];
  }

  lemma RecordNetworkKeepsPartition(w: Window, recorded: nat, now: int, p: Posting,
                                    trackedDomains: nat, trackedConnections: nat)
    requires Partition(w, recorded)
    requires w.startedAt.Some?
    ensures Partition(RecordNetwork(w, now, p, trackedDomains, trackedConnections), recorded + 1)
  {
    hide Sum;
    PostCreditsDomains(w.books, p);
  }

  /** Before the window is started nothing has been recorded. */
  lemma EnsureKeepsConsistent(w: Window, recorded: nat, now: int)
    requires Consistent(w, recorded)
    ensures Consistent(Ensure(w, now), recorded)
  {
    assert DomainTallies(NO_BOOKS.domains) == map[];
    FreshIsConsistent(now);
  }

  lemma RecordNetworkKeepsConsistent(w: Window, recorded: nat, now: int, p: Posting,
                                     trackedDomains: nat, trackedConnections: nat)
    requires Consistent(w, recorded)
    requires trackedDomains <= trackedConnections
    ensures Consistent(RecordNetwork(w, now, p, trackedDomains, trackedConnections), recorded + 1)
  {
    hide Sum, Books.Balanced;
    var started := Ensure(w, now);
    EnsureKeepsConsistent(w, recorded, now);
    RecordNetworkKeepsPartition(started, recorded, now, p, trackedDomains, trackedConnections);
    PostKeepsKeyed(started.books, p);
    PostKeepsLinked(started.books, p);
    PostKeepsBalanced(started.books, p, map[]);
  }

  lemma RecordedAppend(samples: seq<ProcessSnapshot>, s: ProcessSnapshot)
    ensures Recorded([]) == None
    ensures Recorded(samples + [s]) == Some(RecordProcess(Recorded(samples), s))
  {
    hide RecordProcess;
    assert (samples + [s])[..|samples|] == samples;
  }

  lemma RecordProcessKeepsStatistical(prior: Option<ProcessUpload>, s: ProcessSnapshot)
    requires prior.Some? ==> Statistical(prior.value)
    ensures Statistical(RecordProcess(prior, s))
  {
    hide RecordProcess, Recorded;
    var samples: seq<ProcessSnapshot> := [];
    RecordedAppend(samples, s);
    if prior.Some? {
      samples :| samples != [] && Recorded(samples) == Some(prior.value);
    }
    RecordedAppend(samples, s);
  }

  lemma RecordProcessesKeepsConsistent(w: Window, recorded: nat, now: int, pids: ProcessTable)
    requires Consistent(w, recorded)
    requires forall pid :: pid in pids ==> pids[pid].snapshot.pid == pid
    ensures Consistent(RecordProcesses(w, now, pids), recorded)
  {
    hide Sum, Statistical;
    EnsureKeepsConsistent(w, recorded, now);
    var started := Ensure(w, now);
    var recordedProcesses := RecordProcesses(w, now, pids).processes;
    forall pid | pid in recordedProcesses
      ensures recordedProcesses[pid].pid == pid && Statistical(recordedProcesses[pid])
    {
      if pid in pids {
        RecordProcessKeepsStatistical(Find(started.processes, pid), pids[pid].snapshot);
      }
    }
  }
}
