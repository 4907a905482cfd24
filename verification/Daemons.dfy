/** The running watcher: the main goroutine and the lookup worker around one
    service object. Every method takes steps of the transition system and nothing
    else, so every theorem about runs is about these objects. */
module Daemons {
  import opened Basics
  import opened Tallies
  import opened Accounts
  import opened Processes
  import opened UploadWindow
  import opened Payloads
  import opened Uploaders
  import opened ServiceModel
  import opened Summaries
  import opened Services
  import opened Polling
  import opened Ledger
  import opened Watcher
  import opened Safety
  import opened Theorems
  import opened Outcomes

  lemma RunAppend(cfg: Config, clock: int, steps: seq<Step>, s: System, step: Step)
    requires Reaches(cfg, clock, steps, s) && Enabled(cfg, s, step)
    ensures Reaches(cfg, clock, steps + [step], Apply(cfg, s, step))
  {
    hide Enabled, Apply;
    assert (steps + [step])[..|steps|] == steps;
  }

  /** What the ranking and upload methods ask of the maps they read. */
  lemma KeyedRecords(cfg: Config, s: System)
    requires Inv(cfg, s)
    ensures PidsKeyed(s.svc.core.pids) && BooksOf(s.svc.core).Keyed()
    ensures s.svc.core.window.Some? ==>
              && s.svc.core.window.value.books.Keyed()
              && forall pid :: pid in s.svc.core.window.value.processes ==>
                                 s.svc.core.window.value.processes[pid].pid == pid
  {
    hide Lookups.Protocol, UploadsOk, Records.Conserved, Lookups.Copies, Books.Keyed, Books.Balanced, Partition;
  }

  lemma TraceAppend(steps: seq<Step>, step: Step)
    ensures CompletedPolls(steps + [step]) == CompletedPolls(steps) + if step.EndPoll? then 1 else 0
    ensures Collections(steps + [step]) == Collections(steps) +
                                           if step.ReadNetwork? then [Readings(step.observations)] else []
    ensures !step.Shutdown? ==>
              Acknowledged(steps + [step]) == Acknowledged(steps) +
                                              if step.UploadAccepted? then [step.payload] else []
  {
    assert (steps + [step])[..|steps|] == steps;
  }

  lemma FlushingWindow(cfg: Config, s: System)
    requires Inv(cfg, s) && s.phase.Flushing?
    ensures s.svc.core.window.Some? && Flushable(s.svc.core.window.value)
  {
    hide CoreOk, Lookups.Protocol, Accounted, Periods, AllSound;
  }

  /** A network step, field by field. */
  lemma CollectApplied(cfg: Config, s: System, obs: map<string, Observation>, order: seq<string>,
                       receive: Option<nat>)
    requires Enabled(cfg, s, ReadNetwork(obs, order, receive))
    ensures var t := Apply(cfg, s, ReadNetwork(obs, order, receive));
            && t.svc == PollNetwork(cfg.env, s.svc, order, obs, receive, s.phase.now)
            && var host := TakenHost(cfg.env, s.svc.core.cache, s.svc.backlog, order, obs, receive);
            && t == System(t.svc, if host.Some? then host else s.inFlight, Collected(s.phase.now), s.clock, t.audit)
  {
    hide PollNetwork, ReceivedHost, CarriedAfterPoll;
  }

  class Daemon {
    const cfg: Config
    const service: Service
    const bornAt: int
    var phase: Phase
    var inFlight: Option<string>
    var clock: int
    ghost var steps: seq<Step>
    ghost var system: System

    /** A watcher that has not polled yet; `born` bounds its clock from below. */
    constructor (cfg: Config, born: int)
      requires cfg.env.Sane()
      ensures Valid() && fresh(service) && (service.uploader != null ==> fresh(service.uploader))
      ensures this.cfg == cfg && bornAt == born && steps == []
    {
      this.cfg, bornAt := cfg, born;
      phase, inFlight, clock := Idle, None, born;
      var uploader: Uploader? := null;
      if cfg.uploading {
        uploader := new Uploader(cfg.env, cfg.interval);
      }
      service := new Service(cfg.env, uploader);
      steps := [];
      system := Start(cfg, born);
    }

    ghost predicate Configured()
      reads service.uploader
    {
      && cfg.env.Sane()
      && service.env == cfg.env
      && (service.uploader != null <==> cfg.uploading)
      && (service.uploader != null ==> service.uploader.env == cfg.env && service.uploader.interval == cfg.interval)
    }

    /** The objects are in the state to which the steps lead. */
    ghost predicate Valid()
      reads this, service, service.uploader
    {
      && Configured()
      && Reaches(cfg, bornAt, steps, system)
      && system == System(service.State(), inFlight, phase, clock, system.audit)
    }

    /** The first locked region of pollOnce. */
    method BeginPoll(now: int, readings: seq<Reading>)
      requires Valid() && phase.Idle? && clock <= now
      modifies `phase, `clock, `steps, `system, service`pids, service.uploader
      ensures Valid() && phase == Polled(now) && clock == now
      ensures steps == old(steps) + [ReadProcesses(now, readings)]
    {
      hide Reaches, PollProcessesCore, PollNetwork, FinishPoll, ServiceModel.CompleteLookup, CountsOf;
      RunAppend(cfg, bornAt, steps, system, ReadProcesses(now, readings));
      service.PollProcesses(readings, now);
      phase, clock := Polled(now), now;
      steps, system := steps + [ReadProcesses(now, readings)], Apply(cfg, system, ReadProcesses(now, readings));
    }

    /** The second locked region, skipped when the collection failed. The worker
        needs no lock to receive: if it is idle it may take a host once `ready`
        observations have been handled. */
    method CollectNetwork(observations: Option<map<string, Observation>>, ready: Option<nat>)
      returns (ghost step: Step)
      requires Valid() && phase.Polled?
      modifies `phase, `inFlight, `steps, `system, service`domains, service`connections, service`networkSamples,
        service`lookupPending, service`lookupQueue, service.uploader
      ensures Valid() && phase == Collected(old(phase).now)
      ensures steps == old(steps) + [step]
      ensures if observations.None? then step == NetworkFailed
              else step.ReadNetwork? && step.observations == observations.value &&
                   (step.receive.Some? ==> step.receive == ready)
    {
      hide Reaches;
      if observations.Some? {
        step := ObserveNetwork(observations.value, ready);
      } else {
        step := NetworkFailed;
        RunAppend(cfg, bornAt, steps, system, step);
        phase := Collected(phase.now);
        steps, system := steps + [step], Apply(cfg, system, step);
      }
    }

    method ObserveNetwork(observations: map<string, Observation>, ready: Option<nat>) returns (ghost step: Step)
      requires Valid() && phase.Polled?
      modifies `phase, `inFlight, `steps, `system, service`domains, service`connections, service`networkSamples,
        service`lookupPending, service`lookupQueue, service.uploader
      ensures Valid() && phase == Collected(old(phase).now)
      ensures steps == old(steps) + [step]
      ensures step.ReadNetwork? && step.observations == observations
      ensures step.receive.Some? ==> step.receive == ready
    {
      hide Reaches, PollNetwork, CanReceive, TakenHost, Apply;
      var idle := if inFlight.None? then ready else None;
      ghost var before := service.State();
      var taken: Option<string>;
      ghost var order: seq<string>;
      order, taken := service.PollDomains(observations, phase.now, idle);
      step := ReadNetwork(observations, order,
                          ReceivedAt(cfg.env, before.core.cache, before.backlog, order, observations, idle));
      CollectApplied(cfg, system, observations, order, step.receive);
      RunAppend(cfg, bornAt, steps, system, step);
      if taken.Some? {
        inFlight := taken;
      }
      phase := Collected(phase.now);
      steps, system := steps + [step], Apply(cfg, system, step);
    }

    /** The last locked region of pollOnce, and the summary that it stores. */
    method EndPoll() returns (summary: Summary)
      requires Valid() && phase.Collected?
      modifies `phase, `steps, `system, service`polls, service.uploader
      ensures Valid() && steps == old(steps) + [Watcher.EndPoll]
      ensures phase.Idle? || (phase.Flushing? && phase.now == old(phase).now)
      ensures summary.polls == CompletedPolls(steps)
      ensures cfg.uploading ==>
                FirstPoll(steps).Some? &&
                (phase.Flushing? <==>
                   clock - PeriodEnd(Acknowledged(steps), FirstPoll(steps).value) >= cfg.interval)
    {
      hide Reaches, Inv, BooksOf, CompletedPolls, FirstPoll, PeriodEnd, Acknowledged;
      RunAppend(cfg, bornAt, steps, system, Watcher.EndPoll);
      steps, system := steps + [Watcher.EndPoll], Apply(cfg, system, Watcher.EndPoll);
      RunKeepsInv(cfg, bornAt, steps, system);
      AuditIsTrace(cfg, bornAt, steps, system);
      KeyedRecords(cfg, system);
      if cfg.uploading {
        UploadDecision(cfg, bornAt, steps, system);
      }
      var now := phase.now;
      var counts, due := service.FinishPoll(now);
      summary := service.CurrentSummary(true);
      phase := if due then Flushing(now, counts) else Idle;
    }

    /** The upload after a poll; `accepted` is the outcome of the exchange. */
    method Upload(accepted: bool) returns (payload: Payload)
      requires Valid() && phase.Flushing?
      modifies `phase, `steps, `system, service.uploader
      ensures Valid() && phase.Idle?
      ensures steps == old(steps) + [if accepted then UploadAccepted(payload) else UploadRefused]
      ensures Offered(cfg, old(system), payload, old(phase).now, old(phase).counts) && Sound(payload)
    {
      hide Reaches, Inv, IsPayload;
      RunKeepsInv(cfg, bornAt, steps, system);
      KeyedRecords(cfg, system);
      FlushingWindow(cfg, system);
      var sent, ok := service.uploader.Flush(phase.now, phase.counts, accepted);
      payload := sent.value;
      OfferedIsSound(cfg, system, payload, phase.now, phase.counts);
      ghost var step := if accepted then UploadAccepted(payload) else UploadRefused;
      RunAppend(cfg, bornAt, steps, system, step);
      phase := Idle;
      steps, system := steps + [step], Apply(cfg, system, step);
    }

    /** One whole poll in which the worker completes no lookup. */
    method PollOnce(now: int, readings: seq<Reading>, observations: Option<map<string, Observation>>,
                    ready: Option<nat>, accepted: bool)
      returns (sent: Option<Payload>)
      requires Valid() && phase.Idle? && clock <= now
      modifies `phase, `inFlight, `clock, `steps, `system, service, service.uploader
      ensures Valid() && phase.Idle? && clock == now
      ensures CompletedPolls(steps) == CompletedPolls(old(steps)) + 1
      ensures Collections(steps) == Collections(old(steps)) +
                                    if observations.Some? then [Readings(observations.value)] else []
      ensures Acknowledged(steps) == Acknowledged(old(steps)) +
                                     if sent.Some? && accepted then [sent.value] else []
    {
      hide Reaches, Collections, CompletedPolls, Acknowledged, Valid;
      TraceAppend(steps, ReadProcesses(now, readings));
      BeginPoll(now, readings);
      ghost var before := steps;
      ghost var step := CollectNetwork(observations, ready);
      TraceAppend(before, step);
      before := steps;
      var summary := EndPoll();
      TraceAppend(before, Watcher.EndPoll);
      sent := None;
      if phase.Flushing? {
        before := steps;
        var payload := Upload(accepted);
        TraceAppend(before, if accepted then UploadAccepted(payload) else UploadRefused);
        sent := Some(payload);
      }
    }

    /** The worker receives the next host. */
    method TakeJob()
      requires Valid() && inFlight.None? && service.lookupQueue != []
      modifies `inFlight, `steps, `system, service`lookupQueue
      ensures Valid() && steps == old(steps) + [Dequeue]
      ensures inFlight.Some?
    {
      hide Reaches;
      RunAppend(cfg, bornAt, steps, system, Dequeue);
      var ip := service.TakeJob();
      inFlight := Some(ip);
      steps, system := steps + [Dequeue], Apply(cfg, system, Dequeue);
    }

    /** The worker's locked region; `name` is what the lookup came up with. */
    method CompleteLookup(name: string)
      requires Valid() && inFlight.Some?
      modifies `inFlight, `steps, `system, service`lookupPending, service`lookupCache, service`domains,
        service`connections
      ensures Valid() && inFlight.None? && steps == old(steps) + [Complete(name)]
    {
      hide Reaches, ServiceModel.CompleteLookup;
      RunAppend(cfg, bornAt, steps, system, Complete(name));
      service.CompleteLookup(inFlight.value, name);
      inFlight := None;
      steps, system := steps + [Complete(name)], Apply(cfg, system, Complete(name));
    }

    method Stop(now: int, accepted: bool) returns (sent: Option<Payload>)
      requires Valid() && phase.Idle? && clock <= now
      modifies `phase, `clock, `steps, `system, service.uploader
      ensures Valid() && phase.Stopped? && steps == old(steps) + [Shutdown(now, sent, accepted)]
      ensures sent.Some? ==> Sound(sent.value)
    {
      hide Reaches, Inv, IsPayload;
      RunKeepsInv(cfg, bornAt, steps, system);
      KeyedRecords(cfg, system);
      sent := service.Shutdown(now, accepted);
      if sent.Some? {
        OfferedIsSound(cfg, system, sent.value, now, CountsOf(system.svc.core, false));
      }
      ghost var step := Shutdown(now, sent, accepted);
      RunAppend(cfg, bornAt, steps, system, step);
      phase, clock := Stopped, now;
      steps, system := steps + [step], Apply(cfg, system, step);
    }
  }

  /** The end-to-end ledger, read off the objects at any moment. */
  lemma LedgerOfDaemon(d: Daemon, dir: Direction)
    requires d.Valid() && d.cfg.uploading
    ensures AckedBytes(Acknowledged(d.steps), dir) + d.service.uploader.window.Bytes(dir) ==
            Sum(Bill(Collections(d.steps))).At(dir)
  {
    hide Reaches, Sum, Bill, Collections, Acknowledged, AckedBytes;
    EndToEndLedger(d.cfg, d.bornAt, d.steps, d.system, dir);
  }

  /** The records and the cache of the objects agree at any moment. */
  lemma NamesOfDaemon(d: Daemon)
    requires d.Valid()
    ensures forall h :: h in d.service.domains ==>
              d.service.domains[h].snapshot.displayName == Lookups.NameIn(d.service.lookupCache, h)
    ensures forall k :: k in d.service.connections ==>
              d.service.connections[k].snapshot.displayName ==
              Lookups.NameIn(d.service.lookupCache, d.service.connections[k].snapshot.domain)
  {
    hide Reaches;
    NamesAgreeWithCache(d.cfg, d.bornAt, d.steps, d.system);
  }
}
