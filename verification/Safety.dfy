/** Every step of the watcher keeps the invariant, so it holds in every state of
    every run; then what the invariant says to an observer. */
module Safety {
  import opened Basics
  import opened Hosts
  import opened Tallies
  import opened Accounts
  import opened Processes
  import opened UploadWindow
  import opened Ranking
  import opened Payloads
  import opened ServiceModel
  import opened Records
  import opened Lookups
  import opened Ledger
  import opened Polling
  import opened Watcher

  // ---- starting a poll ----

  lemma BeginPollKeepsPeriods(cfg: Config, s: System, now: int, readings: seq<Reading>)
    requires s.phase.Idle? && s.clock <= now
    requires s.svc.core.window.Some? && Started(s.svc.core.window.value) && Periods(cfg, s, s.svc.core.window.value)
    ensures var t := BeginPoll(s, now, readings);
            t.svc.core.window.Some? && Periods(cfg, t, t.svc.core.window.value)
  {
    hide PollProcesses, RecordedUpTo;
  }

  lemma BeginPollKeepsUploads(cfg: Config, s: System, now: int, readings: seq<Reading>)
    requires s.phase.Idle? && s.clock <= now
    requires s.svc.core.window.Some? ==> Started(s.svc.core.window.value)
    requires UploadsOk(cfg, s)
    ensures UploadsOk(cfg, BeginPoll(s, now, readings))
  {
    if s.svc.core.window.Some? {
      BeginPollKeepsPeriods(cfg, s, now, readings);
    }
    hide Sum, Bill, Sound, Periods, PollProcesses, RecordedUpTo;
  }

  lemma WindowOfInv(cfg: Config, s: System)
    requires Inv(cfg, s)
    ensures s.svc.core.window.Some? ==> Started(s.svc.core.window.value)
    ensures s.svc.core.window.Some? ==> Consistent(s.svc.core.window.value, s.audit.recorded)
    ensures s.svc.core.window.Some? ==> WindowNames(s.svc.core.window.value, s.svc.core.cache)
    ensures CacheSound(cfg.env, s.svc.core.cache)
  {
    hide Linkage, Conserved, Copies, UploadsOk, Protocol;
  }

  lemma BeginPollKeepsInv(cfg: Config, s: System, now: int, readings: seq<Reading>)
    requires Inv(cfg, s) && Enabled(cfg, s, ReadProcesses(now, readings))
    ensures Inv(cfg, BeginPoll(s, now, readings))
  {
    hide CoreOk, Protocol, UploadsOk;
    WindowOfInv(cfg, s);
    BeginPollKeepsUploads(cfg, s, now, readings);
    PollProcessesKeepsOk(cfg.env, s.svc.core, readings, s.clock, now, s.audit.carried, s.audit.recorded);
  }

  // ---- a network collection ----

  /** The loop over the observations neither restarts the window nor counts a
      poll. */
  lemma {:induction false} ObserveAllWindow(env: Env, c: Core, order: seq<string>, obs: map<string, Observation>,
                                            now: int)
    requires forall k :: k in order ==> k in obs
    requires c.window.Some? && c.window.value.startedAt.Some?
    ensures var w := ObserveAllCore(env, c, order, obs, now).window;
            w.Some? && w.value.startedAt == c.window.value.startedAt && w.value.polls == c.window.value.polls
  {
    if order != [] {
      hide PostingOf, Books.Post;
      ObserveAllWindow(env, c, order[..|order| - 1], obs, now);
    }
  }

  lemma CollectKeepsAccounted(cfg: Config, s: System, obs: map<string, Observation>, order: seq<string>)
    requires Enumerates(order, obs.Keys)
    requires s.phase.Polled? && s.svc.core.window.Some? && Started(s.svc.core.window.value)
    requires s.svc.core.samples == Last(s.audit.hist)
    requires Accounted(s.svc.core.window.value, s.audit.hist, s.audit.acked)
    ensures var w := PollNetworkCore(cfg.env, s.svc.core, order, obs, s.phase.now).window;
            w.Some? && Accounted(w.value, s.audit.hist + [Readings(obs)], s.audit.acked)
  {
    hide Sum, Bill, Charges, PollNetworkCore;
    BillStep(s.audit.hist, Readings(obs));
    PollAdds(cfg.env, s.svc.core, order, obs, s.phase.now, RX);
    PollAdds(cfg.env, s.svc.core, order, obs, s.phase.now, TX);
  }

  /** A change of the window that keeps its start and its poll count. */
  lemma PeriodsCarryOver(cfg: Config, s: System, t: System, w: Window, v: Window)
    requires Periods(cfg, s, w) && s.audit.firstPoll.Some?
    requires v.startedAt == w.startedAt && v.polls == w.polls
    requires t.audit.acked == s.audit.acked && t.audit.firstPoll == s.audit.firstPoll
    requires t.svc.polls == s.svc.polls && t.clock == s.clock && !s.phase.Stopped? && !t.phase.Stopped?
    ensures Periods(cfg, t, v)
  {
  }

  lemma CollectKeepsUploads(cfg: Config, s: System, obs: map<string, Observation>, order: seq<string>,
                            receive: Option<nat>)
    requires Enabled(cfg, s, ReadNetwork(obs, order, receive))
    requires s.svc.core.window.Some? ==> Started(s.svc.core.window.value)
    requires s.svc.core.samples == Last(s.audit.hist) && ClockOk(s)
    requires UploadsOk(cfg, s)
    ensures UploadsOk(cfg, Collect(cfg, s, obs, order, receive))
  {
    hide Accounted, ObserveAllCore, Sound, RequestsAround, Periods, CarriedAfterPoll;
    ObserveAllFrame(cfg.env, s.svc.core, order, obs, s.phase.now);
    if s.svc.core.window.Some? {
      CollectKeepsAccounted(cfg, s, obs, order);
      ObserveAllWindow(cfg.env, s.svc.core, order, obs, s.phase.now);
      var t := Collect(cfg, s, obs, order, receive);
      PeriodsCarryOver(cfg, s, t, s.svc.core.window.value, t.svc.core.window.value);
    }
  }

  lemma CollectKeepsInv(cfg: Config, s: System, obs: map<string, Observation>, order: seq<string>,
                        receive: Option<nat>)
    requires Inv(cfg, s) && Enabled(cfg, s, ReadNetwork(obs, order, receive))
    ensures Inv(cfg, Collect(cfg, s, obs, order, receive))
  {
    hide CoreOk, Protocol, UploadsOk, ObserveAllCore, RequestsAround, CarriedAfterPoll, PollNetworkCore;
    WindowOfInv(cfg, s);
    CollectKeepsUploads(cfg, s, obs, order, receive);
    RequestsAroundKeepProtocol(cfg.env, s.svc.core.cache, s.svc.backlog, s.inFlight, order, obs, receive);
    PollNetworkKeepsOk(cfg.env, s.svc.core, order, obs, s.clock, s.audit.carried, s.audit.recorded);
    PollStoresCollection(cfg.env, s.svc.core, order, obs, s.clock);
    PollNetworkFrame(cfg.env, s.svc.core, order, obs, s.clock);
    assert Last(s.audit.hist + [Readings(obs)]) == Readings(obs);
  }

  lemma PollNetworkFrame(env: Env, c: Core, order: seq<string>, obs: map<string, Observation>, now: int)
    requires forall k :: k in order ==> k in obs
    ensures PollNetworkCore(env, c, order, obs, now).cache == c.cache
    ensures PollNetworkCore(env, c, order, obs, now).window.Some? == c.window.Some?
  {
    hide ObserveAllCore;
    ObserveAllFrame(env, c, order, obs, now);
  }

  lemma FailureKeepsInv(cfg: Config, s: System)
    requires Inv(cfg, s) && s.phase.Polled?
    ensures Inv(cfg, s.(phase := Collected(s.phase.now)))
  {
    hide CoreOk, Protocol, Accounted, Sound, Chained;
  }

  // ---- the end of a poll ----

  lemma WindowDoesNotMatter(env: Env, c: Core, window: Option<Window>, clock: int,
                            carried: map<string, Tally>, recorded: nat, counted: nat)
    requires CoreOk(env, c, clock, carried, recorded)
    requires WindowOk(window, c.cache, counted)
    ensures CoreOk(env, c.(window := window), clock, carried, counted)
  {
    RecordsDoNotMatter(c, c.(window := window), clock, carried);
    hide Linkage, Conserved, Copies, WindowOk;
  }

  lemma CompletePollKeepsUploads(cfg: Config, s: System)
    requires s.phase.Collected? && ClockOk(s) && UploadsOk(cfg, s)
    requires s.svc.core.window.Some? ==> Started(s.svc.core.window.value)
    requires |s.svc.core.domains| <= |s.svc.core.connections|
    ensures UploadsOk(cfg, CompletePoll(cfg, s))
  {
    hide Sound, Sum, Bill, Chained;
  }

  lemma IncrementKeepsWindowOk(w: Window, cache: Cache, now: int, recorded: nat)
    requires Consistent(w, recorded) && WindowNames(w, cache)
    ensures Consistent(UploadWindow.IncrementPoll(w, now), recorded)
    ensures WindowNames(UploadWindow.IncrementPoll(w, now), cache)
  {
    hide Sum, Books.Balanced;
    FreshIsConsistent(now);
  }

  lemma SizesOfInv(cfg: Config, s: System)
    requires Inv(cfg, s)
    ensures |s.svc.core.domains| <= |s.svc.core.connections|
  {
    hide Linkage, Conserved, Copies, UploadsOk, Protocol, WindowOk;
    LinkageMeaning(s.svc.core, s.clock);
  }

  lemma CompletePollKeepsInv(cfg: Config, s: System)
    requires Inv(cfg, s) && s.phase.Collected?
    ensures Inv(cfg, CompletePoll(cfg, s))
  {
    hide CoreOk, Protocol, UploadsOk, Consistent, WindowNames;
    WindowOfInv(cfg, s);
    SizesOfInv(cfg, s);
    CompletePollKeepsUploads(cfg, s);
    var w := CompletePoll(cfg, s).svc.core.window;
    if w.Some? {
      IncrementKeepsWindowOk(s.svc.core.window.value, s.svc.core.cache, s.clock, s.audit.recorded);
    }
    WindowDoesNotMatter(cfg.env, s.svc.core, w, s.clock, s.audit.carried, s.audit.recorded, s.audit.recorded);
  }

  // ---- uploads ----

  lemma AckedAppend(acked: seq<Payload>, p: Payload)
    ensures forall dir: Direction :: AckedBytes(acked + [p], dir) == AckedBytes(acked, dir) + p.Bytes(dir)
    ensures AckedPolls(acked + [p]) == AckedPolls(acked) + p.polls
  {
    assert (acked + [p])[..|acked|] == acked;
  }

  lemma ChainedAppend(acked: seq<Payload>, p: Payload, first: int)
    requires Chained(acked, first) && p.startedAt == PeriodEnd(acked, first)
    ensures Chained(acked + [p], first)
  {
    forall i | 0 <= i < |acked + [p]|
      ensures (acked + [p])[i].startedAt == PeriodEnd((acked + [p])[..i], first)
    {
      assert (acked + [p])[..i] == acked[..i];
      assert acked[..|acked|] == acked;
    }
  }

  lemma ResetIsConsistent(cfg: Config, s: System, now: int)
    requires Inv(cfg, s)
    ensures CoreOk(cfg.env, s.svc.core.(window := Some(Fresh(now))), s.clock, s.audit.carried, 0)
  {
    hide UploadsOk, Protocol, Consistent;
    FreshIsConsistent(now);
    WindowDoesNotMatter(cfg.env, s.svc.core, Some(Fresh(now)), s.clock, s.audit.carried, s.audit.recorded, 0);
  }

  lemma PayloadOfInvIsSound(cfg: Config, s: System, p: Payload, now: int, counts: Counts)
    requires cfg.env.Sane() && Inv(cfg, s) && s.clock <= now
    requires s.svc.core.window.Some? && Flushable(s.svc.core.window.value)
    requires IsPayload(cfg.env, p, s.svc.core.window.value, now, counts) && counts.domains <= counts.connections
    ensures Sound(p)
  {
    hide IsPayload, Sound, Accounted, AllSound, CoreOk, Protocol, Consistent;
    WindowOfInv(cfg, s);
    PayloadIsSound(cfg.env, p, s.svc.core.window.value, now, counts, s.audit.recorded);
  }

  /** What `p` has to say about the window it acknowledges. */
  ghost predicate Covers(p: Payload, w: Window, now: int) {
    && w.startedAt.Some? && p.startedAt == w.startedAt.value && p.endedAt == now
    && p.polls == w.polls
    && forall dir: Direction :: p.Bytes(dir) == w.Bytes(dir)
  }

  lemma AcknowledgeKeepsAccounted(w: Window, hist: seq<Collection>, acked: seq<Payload>, p: Payload, now: int)
    requires Accounted(w, hist, acked) && Covers(p, w, now)
    ensures Accounted(Fresh(now), hist, acked + [p])
  {
    hide Sum, Bill, AckedBytes;
    AckedAppend(acked, p);
  }

  lemma AcknowledgeKeepsPeriods(cfg: Config, s: System, p: Payload, now: int, phase: Phase)
    requires s.clock <= now && s.svc.core.window.Some? && Covers(p, s.svc.core.window.value, now)
    requires Periods(cfg, s, s.svc.core.window.value) && !s.phase.Stopped?
    requires phase == Stopped || (phase == Idle && now - p.startedAt >= cfg.interval)
    ensures Periods(cfg, Acknowledge(s, p, now).(phase := phase, clock := now), Fresh(now))
  {
    hide Chained, AckedPolls, AckedBytes;
    AckedAppend(s.audit.acked, p);
    ChainedAppend(s.audit.acked, p, s.audit.firstPoll.value);
  }

  lemma AcknowledgeKeepsUploads(cfg: Config, s: System, p: Payload, now: int, phase: Phase)
    requires s.clock <= now && s.svc.core.window.Some? && Covers(p, s.svc.core.window.value, now)
    requires Sound(p) && UploadsOk(cfg, s) && !s.phase.Stopped?
    requires phase == Stopped || (phase == Idle && now - p.startedAt >= cfg.interval)
    ensures UploadsOk(cfg, Acknowledge(s, p, now).(phase := phase, clock := now))
  {
    hide Sound, Accounted, Periods, Covers;
    AcknowledgeKeepsAccounted(s.svc.core.window.value, s.audit.hist, s.audit.acked, p, now);
    AcknowledgeKeepsPeriods(cfg, s, p, now, phase);
  }

  lemma PayloadCovers(env: Env, p: Payload, w: Window, now: int, counts: Counts)
    requires w.startedAt.Some? && IsPayload(env, p, w, now, counts)
    ensures Covers(p, w, now) && p.startedAt == w.startedAt.value
  {
    hide Ranked, ProcessPool, DomainPool, ConnectionPool;
  }

  lemma AcceptKeepsInv(cfg: Config, s: System, p: Payload)
    requires cfg.env.Sane() && Inv(cfg, s) && Enabled(cfg, s, UploadAccepted(p))
    ensures Inv(cfg, Acknowledge(s, p, s.phase.now).(phase := Idle))
  {
    PhaseOfInv(cfg, s);
    hide CoreOk, Protocol, UploadsOk, Sound, IsPayload, Covers;
    PayloadCovers(cfg.env, p, s.svc.core.window.value, s.phase.now, s.phase.counts);
    PayloadOfInvIsSound(cfg, s, p, s.phase.now, s.phase.counts);
    AcknowledgeKeepsUploads(cfg, s, p, s.phase.now, Idle);
    ResetIsConsistent(cfg, s, s.phase.now);
  }

  lemma PhaseOfInv(cfg: Config, s: System)
    requires Inv(cfg, s)
    ensures s.svc.core.window.Some? ==> PhaseOk(cfg, s, s.svc.core.window.value)
  {
    hide CoreOk, Protocol, Accounted, Periods, AllSound, PhaseOk;
  }

  lemma RefuseKeepsInv(cfg: Config, s: System)
    requires Inv(cfg, s) && s.phase.Flushing?
    ensures Inv(cfg, s.(phase := Idle))
  {
    hide CoreOk, Protocol, Accounted, AllSound, Chained;
  }

  // ---- shutdown ----

  lemma StopKeepsInv(cfg: Config, s: System, now: int)
    requires Inv(cfg, s) && s.phase.Idle? && s.clock <= now
    ensures Inv(cfg, s.(phase := Stopped, clock := now))
  {
    StopKeepsUploads(cfg, s, now);
    hide Protocol, UploadsOk, Conserved, Copies, WindowOk;
    TimePasses(s.svc.core, s.clock, now);
    hide Linkage;
  }

  lemma StopKeepsUploads(cfg: Config, s: System, now: int)
    requires UploadsOk(cfg, s) && s.phase.Idle? && s.clock <= now
    ensures UploadsOk(cfg, s.(phase := Stopped, clock := now))
  {
    hide Accounted, AllSound, Chained;
  }

  lemma LastUploadKeepsInv(cfg: Config, s: System, p: Payload, now: int)
    requires cfg.env.Sane() && Inv(cfg, s) && Enabled(cfg, s, Shutdown(now, Some(p), true))
    ensures Inv(cfg, Acknowledge(s.(phase := Stopped, clock := now), p, now))
  {
    hide CoreOk, Protocol, UploadsOk, Sound, IsPayload, Covers;
    SizesOfInv(cfg, s);
    PayloadCovers(cfg.env, p, s.svc.core.window.value, now, CountsOf(s.svc.core, false));
    PayloadOfInvIsSound(cfg, s, p, now, CountsOf(s.svc.core, false));
    AcknowledgeKeepsUploads(cfg, s, p, now, Stopped);
    StopKeepsInv(cfg, s, now);
    ResetIsConsistent(cfg, s.(phase := Stopped, clock := now), now);
  }

  // ---- the worker ----

  lemma DequeueKeepsInv(cfg: Config, s: System)
    requires Inv(cfg, s) && Enabled(cfg, s, Dequeue)
    ensures Inv(cfg, TakeJob(s))
  {
    hide CoreOk, Protocol, Accounted, AllSound, Chained;
    DequeueKeepsProtocol(cfg.env, s.svc.core.cache, s.svc.backlog);
  }

  lemma CompleteKeepsInv(cfg: Config, s: System, name: string)
    requires Inv(cfg, s) && s.inFlight.Some?
    ensures Inv(cfg, s.(svc := CompleteLookup(s.svc, s.inFlight.value, name), inFlight := None))
  {
    hide CoreOk, Protocol, Accounted, AllSound, Chained;
    WindowOfInv(cfg, s);
    CompleteKeepsProtocol(cfg.env, s.svc, s.inFlight.value, name);
    CompleteKeepsOk(cfg.env, s.svc, s.inFlight.value, name, s.clock, s.audit.carried, s.audit.recorded);
  }

  // ---- runs ----

  lemma StepKeepsInv(cfg: Config, s: System, step: Step)
    requires cfg.env.Sane() && Inv(cfg, s) && Enabled(cfg, s, step)
    ensures Inv(cfg, Apply(cfg, s, step))
  {
    hide Inv;
    match step
    case ReadProcesses(now, readings) => BeginPollKeepsInv(cfg, s, now, readings);
    case ReadNetwork(observations, order, receive) => CollectKeepsInv(cfg, s, observations, order, receive);
    case NetworkFailed => FailureKeepsInv(cfg, s);
    case EndPoll => CompletePollKeepsInv(cfg, s);
    case UploadAccepted(payload) => AcceptKeepsInv(cfg, s, payload);
    case UploadRefused => RefuseKeepsInv(cfg, s);
    case Dequeue => DequeueKeepsInv(cfg, s);
    case Complete(name) => CompleteKeepsInv(cfg, s, name);
    case Shutdown(now, last, accepted) =>
      if last.Some? && accepted {
        LastUploadKeepsInv(cfg, s, last.value, now);
      } else {
        StopKeepsInv(cfg, s, now);
      }
  }

  /** The invariant holds in every state of every run. */
  lemma {:induction false} RunKeepsInv(cfg: Config, clock: int, steps: seq<Step>, s: System)
    requires cfg.env.Sane() && Reaches(cfg, clock, steps, s)
    ensures Inv(cfg, s)
  {
    hide Inv, Apply, Enabled;
    if steps == [] {
      StartIsOk(cfg, clock);
    } else {
      var n := |steps| - 1;
      var before := LastStep(cfg, clock, steps, s);
      RunKeepsInv(cfg, clock, steps[..n], before);
      StepKeepsInv(cfg, before, steps[n]);
    }
  }
}
