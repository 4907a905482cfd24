/** The whole watcher as a transition system. The main goroutine and the lookup
    worker interleave at every point where the service's lock is free. */
module Watcher {
  import opened Basics
  import opened Hosts
  import opened Tallies
  import opened Accounts
  import opened Processes
  import opened UploadWindow
  import opened Payloads
  import opened ServiceModel
  import opened Records
  import opened Lookups
  import opened Ledger
  import opened Polling

  /** Upload interval, and whether uploading is switched on at all. */
  datatype Config = Config(env: Env, interval: int, uploading: bool)

  /** Where the main goroutine stands. */
  datatype Phase =
    | Idle
    | Polled(now: int)                       // processes recorded
    | Collected(now: int)                    // network recorded, or collection failed
    | Flushing(now: int, counts: Counts)     // payload on its way
    | Stopped

  /** Bookkeeping for the theorems; no step reads it. */
  datatype Audit = Audit(
    hist: seq<Collection>,           // successful network collections
    acked: seq<Payload>,             // acknowledged uploads
    carried: map<string, Tally>,     // counters of evicted connections
    recorded: nat,                   // postings since the last reset
    firstPoll: Option<int>)          // time of the first poll

  datatype System = System(svc: ServiceState, inFlight: Option<string>, phase: Phase, clock: int, audit: Audit)

  datatype Step =
    | ReadProcesses(now: int, readings: seq<Reading>)
    | ReadNetwork(observations: map<string, Observation>, order: seq<string>, receive: Option<nat>)
    | NetworkFailed
    | EndPoll
    | UploadAccepted(payload: Payload)
    | UploadRefused
    | Dequeue
    | Complete(name: string)
    | Shutdown(now: int, last: Option<Payload>, accepted: bool)

  function Start(cfg: Config, clock: int): System {
    System(Initial(cfg.uploading), None, Idle, clock, Audit([], [], map[], 0, None))
  }

  ghost predicate Enabled(cfg: Config, s: System, step: Step) {
    match step
    case ReadProcesses(now, _) => s.phase.Idle? && s.clock <= now
    case ReadNetwork(observations, order, receive) =>
      && s.phase.Polled? && Enumerates(order, observations.Keys)
      && (receive.Some? ==>
            && s.inFlight.None?
            && CanReceive(cfg.env, s.svc.core.cache, s.svc.backlog, order, observations, receive.value))
    case NetworkFailed => s.phase.Polled?
    case EndPoll => s.phase.Collected?
    case UploadAccepted(payload) =>
      s.phase.Flushing? && s.svc.core.window.Some? && Flushable(s.svc.core.window.value) &&
      IsPayload(cfg.env, payload, s.svc.core.window.value, s.phase.now, s.phase.counts)
    case UploadRefused => s.phase.Flushing?
    case Dequeue => s.inFlight.None? && s.svc.backlog.queue != []
    case Complete(_) => s.inFlight.Some?
    case Shutdown(now, payload, _) =>
      && s.phase.Idle? && s.clock <= now
      && (payload.Some? <==> s.svc.core.window.Some? && Flushable(s.svc.core.window.value))
      && (payload.Some? ==>
            IsPayload(cfg.env, payload.value, s.svc.core.window.value, now, CountsOf(s.svc.core, false)))
  }

  function ResetWindow(s: ServiceState, now: int): ServiceState {
    s.(core := s.core.(window := Some(Fresh(now))))
  }

  /** The acknowledged payload is filed and the window starts afresh. */
  function Acknowledge(s: System, payload: Payload, now: int): System {
    s.(svc := ResetWindow(s.svc, now),
       audit := s.audit.(acked := s.audit.acked + [payload], recorded := 0))
  }

  function AfterPoll(cfg: Config, svc: ServiceState, now: int): Phase {
    if svc.core.window.Some? && ShouldUpload(svc.core.window.value, now, cfg.interval)
    then Flushing(now, CountsOf(svc.core, true))
    else Idle
  }

  function BeginPoll(s: System, now: int, readings: seq<Reading>): System {
    s.(svc := s.svc.(core := PollProcessesCore(s.svc.core, readings, now)),
       phase := Polled(now),
       clock := now,
       audit := s.audit.(firstPoll := if s.audit.firstPoll.None? then Some(now) else s.audit.firstPoll))
  }

  /** A network poll, in the middle of which the idle worker may take a host. */
  ghost function Collect(cfg: Config, s: System, obs: map<string, Observation>, order: seq<string>,
                         receive: Option<nat>): System
    requires s.phase.Polled? && Enumerates(order, obs.Keys)
    requires receive.Some? ==> CanReceive(cfg.env, s.svc.core.cache, s.svc.backlog, order, obs, receive.value)
  {
    s.(svc := PollNetwork(cfg.env, s.svc, order, obs, receive, s.phase.now),
       inFlight := if receive.None? then s.inFlight
                   else Some(ReceivedHost(cfg.env, s.svc.core.cache, s.svc.backlog, order, obs, receive.value)),
       phase := Collected(s.phase.now),
       audit := s.audit.(hist := s.audit.hist + [Readings(obs)],
                         carried := CarriedAfterPoll(cfg.env, s.svc.core, order, obs, s.phase.now, s.audit.carried),
                         recorded := s.audit.recorded + |order|))
  }

  function CompletePoll(cfg: Config, s: System): System
    requires s.phase.Collected?
  {
    var svc := FinishPoll(s.svc, s.phase.now);
    s.(svc := svc, phase := AfterPoll(cfg, svc, s.phase.now))
  }

  function TakeJob(s: System): System
    requires s.svc.backlog.queue != []
  {
    s.(svc := s.svc.(backlog := Receive(s.svc.backlog)),
       inFlight := Some(s.svc.backlog.queue[0]))
  }

  ghost function Apply(cfg: Config, s: System, step: Step): System
    requires Enabled(cfg, s, step)
  {
    match step
    case ReadProcesses(now, readings) => BeginPoll(s, now, readings)
    case ReadNetwork(observations, order, receive) => Collect(cfg, s, observations, order, receive)
    case NetworkFailed => s.(phase := Collected(s.phase.now))
    case EndPoll => CompletePoll(cfg, s)
    case UploadAccepted(payload) => Acknowledge(s, payload, s.phase.now).(phase := Idle)
    case UploadRefused => s.(phase := Idle)
    case Dequeue => TakeJob(s)
    case Complete(name) => s.(svc := CompleteLookup(s.svc, s.inFlight.value, name), inFlight := None)
    case Shutdown(now, payload, accepted) =>
      var stopped := s.(phase := Stopped, clock := now);
      if payload.Some? && accepted then Acknowledge(stopped, payload.value, now) else stopped
  }

  /** The state after a run, if every step of it was enabled in turn. */
  ghost function Run(cfg: Config, clock: int, steps: seq<Step>): Option<System> {
    if steps == [] then Some(Start(cfg, clock))
    else
      var n := |steps| - 1;
      var before := Run(cfg, clock, steps[..n]);
      if before.Some? && Enabled(cfg, before.value, steps[n]) then Some(Apply(cfg, before.value, steps[n]))
      else None
  }

  /** The system is in state `s` after a run of these steps. */
  ghost predicate Reaches(cfg: Config, clock: int, steps: seq<Step>, s: System) {
    Run(cfg, clock, steps) == Some(s)
  }

  lemma LastStep(cfg: Config, clock: int, steps: seq<Step>, s: System) returns (before: System)
    requires steps != [] && Reaches(cfg, clock, steps, s)
    ensures Reaches(cfg, clock, steps[..|steps| - 1], before)
    ensures Enabled(cfg, before, steps[|steps| - 1]) && s == Apply(cfg, before, steps[|steps| - 1])
  {
    hide Enabled, Apply;
    before := Run(cfg, clock, steps[..|steps| - 1]).value;
  }

  // ---- the invariant ----

  function AckedBytes(acked: seq<Payload>, dir: Direction): nat {
    if acked == [] then 0 else AckedBytes(acked[..|acked| - 1], dir) + acked[|acked| - 1].Bytes(dir)
  }

  function AckedPolls(acked: seq<Payload>): nat {
    if acked == [] then 0 else AckedPolls(acked[..|acked| - 1]) + acked[|acked| - 1].polls
  }

  /** Everything credited is in an acknowledged payload or in the window. */
  ghost predicate Accounted(w: Window, hist: seq<Collection>, acked: seq<Payload>) {
    forall dir: Direction :: AckedBytes(acked, dir) + w.Bytes(dir) == Sum(Bill(hist)).At(dir)
  }

  /** The end of the last acknowledged period. */
  function PeriodEnd(acked: seq<Payload>, first: int): int {
    if acked == [] then first else acked[|acked| - 1].endedAt
  }

  /** Acknowledged periods follow each other without gap or overlap. */
  ghost predicate Chained(acked: seq<Payload>, first: int) {
    forall i :: 0 <= i < |acked| ==> acked[i].startedAt == PeriodEnd(acked[..i], first)
  }

  /** Every acknowledged period lasted at least the upload interval, except
      that the last one may have been cut short by the shutdown. */
  ghost predicate LongEnough(acked: seq<Payload>, interval: int, stopped: bool) {
    forall i :: 0 <= i < |acked| ==>
      (stopped && i == |acked| - 1) || acked[i].endedAt - acked[i].startedAt >= interval
  }

  ghost predicate Periods(cfg: Config, s: System, w: Window) {
    && (if s.audit.firstPoll.None? then w == UNSTARTED && s.audit.acked == []
        else
          && w.startedAt.Some?
          && Chained(s.audit.acked, s.audit.firstPoll.value)
          && w.startedAt.value == PeriodEnd(s.audit.acked, s.audit.firstPoll.value)
          && w.startedAt.value <= s.clock)
    && LongEnough(s.audit.acked, cfg.interval, s.phase.Stopped?)
    && AckedPolls(s.audit.acked) + w.polls == s.svc.polls
  }

  ghost predicate Empty(w: Window) {
    forall dir: Direction :: w.Bytes(dir) == 0
  }

  ghost predicate PhaseOk(cfg: Config, s: System, w: Window) {
    match s.phase
    case Idle => w.polls == 0 ==> Empty(w)
    case Stopped => w.polls == 0 ==> Empty(w)
    case Polled(now) => now == s.clock && s.audit.firstPoll.Some?
    case Collected(now) => now == s.clock && s.audit.firstPoll.Some?
    case Flushing(now, counts) =>
      now == s.clock && ShouldUpload(w, now, cfg.interval) && counts.domains <= counts.connections
  }

  ghost predicate AllSound(acked: seq<Payload>) {
    forall i :: 0 <= i < |acked| ==> Sound(acked[i])
  }

  ghost predicate UploadsOk(cfg: Config, s: System) {
    s.svc.core.window.Some? ==>
      var w := s.svc.core.window.value;
      && Accounted(w, s.audit.hist, s.audit.acked)
      && Periods(cfg, s, w)
      && PhaseOk(cfg, s, w)
      && AllSound(s.audit.acked)
  }

  ghost predicate ClockOk(s: System) {
    && (s.phase.Polled? || s.phase.Collected? || s.phase.Flushing? ==> s.phase.now == s.clock)
    && (s.phase.Polled? ==> WindowStarted(s.svc.core))
    && (s.phase.Flushing? ==> s.svc.core.window.Some?)
  }

  ghost predicate Inv(cfg: Config, s: System) {
    && CoreOk(cfg.env, s.svc.core, s.clock, s.audit.carried, s.audit.recorded)
    && Protocol(cfg.env, s.svc.core.cache, s.svc.backlog, s.inFlight)
    && s.svc.core.samples == Last(s.audit.hist)
    && s.svc.core.window.Some? == cfg.uploading
    && ClockOk(s)
    && UploadsOk(cfg, s)
  }

  lemma StartConserves()
    ensures Conserved(Initial(false).core, map[]) && Conserved(Initial(true).core, map[])
  {
    assert DomainTallies(NO_BOOKS.domains) == map[];
  }

  lemma StartCoreIsOk(cfg: Config, clock: int)
    ensures CoreOk(cfg.env, Start(cfg, clock).svc.core, clock, map[], 0)
  {
    hide Sum, Conserved, Consistent;
    StartConserves();
    FreshIsConsistent(clock);
  }

  lemma NothingAccounted(clock: int)
    ensures Accounted(UNSTARTED, [], [])
  {
    assert Bill([]) == map[];
    SumEmpty();
    hide Sum;
  }

  lemma StartIsOk(cfg: Config, clock: int)
    ensures Inv(cfg, Start(cfg, clock))
  {
    hide Sum, CoreOk, Bill, Accounted;
    StartCoreIsOk(cfg, clock);
    NothingAccounted(clock);
  }
}
