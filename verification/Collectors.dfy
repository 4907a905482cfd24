/** Assembling the observations of one collection: every socket that the operating
    system lists is joined with the byte counters read for it. */
module Collectors {
  import opened Basics
  import opened Hosts
  import opened Keys
  import opened ServiceModel
  import opened Conntrack
  import opened Sockets
  import opened SocketSamples

  /** A socket as the operating system lists it for a process. */
  datatype Listed = Listed(fd: nat, socketType: nat, localHost: string, localPort: Port,
                           remoteIP: string, remotePort: Port)

  /** `None` if the sockets of the process cannot be listed. */
  datatype ProcessSockets = ProcessSockets(pid: int, sockets: Option<seq<Listed>>)

  /** A listed socket of a process as the seven fields of its key. */
  function SocketOf(env: Env, pid: int, l: Listed): Socket {
    Socket(SocketUser(pid, l.fd, l.socketType),
           Ends(l.localHost, l.localPort, env.normalizeHost(l.remoteIP), l.remotePort))
  }

  /** Go's zero value for a missing key. */
  function CountersAt(m: map<string, Sample>, key: string): Sample {
    var counters := Find(m, key);
    if counters.Some? then counters.value else Sample(0, 0)
  }

  /** The counters of a socket: by flow for datagrams, by socket otherwise. */
  function SampleOf(tcp: map<string, Sample>, udp: map<string, Sample>, s: Socket): Sample {
    if s.user.socketType == SOCK_DGRAM then
      CountersAt(udp, s.ends.Key(SOCK_DGRAM))
    else CountersAt(tcp, s.Key())
  }

  function ObservationOf(tcp: map<string, Sample>, udp: map<string, Sample>, s: Socket): Observation {
    Observation(s.user.pid, s.ends.remoteHost, InferSocketProtocol(s.user.socketType, s.ends.remotePort),
                SampleOf(tcp, udp, s))
  }

  /** The sockets with a usable remote host, in the order of the listing. */
  function SocketsOf(env: Env, pid: int, listed: seq<Listed>): seq<Socket> {
    if listed == [] then []
    else
      var n := |listed| - 1;
      var s := SocketOf(env, pid, listed[n]);
      SocketsOf(env, pid, listed[..n]) + if s.ends.remoteHost == "" then [] else [s]
  }

  function AllSockets(env: Env, processes: seq<ProcessSockets>): seq<Socket> {
    if processes == [] then []
    else
      var n := |processes| - 1;
      var last := processes[n];
      AllSockets(env, processes[..n]) +
      if last.sockets.None? then [] else SocketsOf(env, last.pid, last.sockets.value)
  }

  function Assembled(tcp: map<string, Sample>, udp: map<string, Sample>, sockets: seq<Socket>):
    map<string, Observation>
  {
    if sockets == [] then map[]
    else
      var n := |sockets| - 1;
      Assembled(tcp, udp, sockets[..n])[sockets[n].Key() := ObservationOf(tcp, udp, sockets[n])]
  }

  lemma AssembledAppend(tcp: map<string, Sample>, udp: map<string, Sample>, sockets: seq<Socket>, s: Socket)
    ensures Assembled(tcp, udp, sockets + [s]) ==
            Assembled(tcp, udp, sockets)[s.Key() := ObservationOf(tcp, udp, s)]
  {
    assert (sockets + [s])[..|sockets|] == sockets;
  }

  /** The inner loop of `collectNetworkSamples`. */
  method AddSockets(env: Env, tcp: map<string, Sample>, udp: map<string, Sample>, pid: int, listed: seq<Listed>,
                    observations: map<string, Observation>, ghost sockets: seq<Socket>)
    returns (r: map<string, Observation>)
    requires observations == Assembled(tcp, udp, sockets)
    ensures r == Assembled(tcp, udp, sockets + SocketsOf(env, pid, listed))
  {
    hide Assembled, ObservationOf, Socket.Key;
    r := observations;
    assert sockets + [] == sockets;
    for n := 0 to |listed|
      invariant r == Assembled(tcp, udp, sockets + SocketsOf(env, pid, listed[..n]))
    {
      assert listed[..n + 1][..n] == listed[..n];
      ghost var before := sockets + SocketsOf(env, pid, listed[..n]);
      var l := listed[n];
      var host := env.normalizeHost(l.remoteIP);
      if host == "" {
        assert SocketsOf(env, pid, listed[..n + 1]) == SocketsOf(env, pid, listed[..n]);
        continue;
      }
      var s := SocketOf(env, pid, l);
      AssembledAppend(tcp, udp, before, s);
      assert sockets + SocketsOf(env, pid, listed[..n + 1]) == before + [s];
      r := r[s.Key() := ObservationOf(tcp, udp, s)];
    }
    assert listed[..|listed|] == listed;
  }

  /** `collectNetworkSamples`, given what the operating system lists and the
      counters that were read. */
  method Collect(env: Env, tcp: map<string, Sample>, udp: map<string, Sample>, processes: seq<ProcessSockets>)
    returns (observations: map<string, Observation>)
    ensures observations == Assembled(tcp, udp, AllSockets(env, processes))
  {
    hide Assembled, SocketsOf;
    NothingAssembled(tcp, udp);
    observations := map[];
    for n := 0 to |processes|
      invariant observations == Assembled(tcp, udp, AllSockets(env, processes[..n]))
    {
      assert processes[..n + 1][..n] == processes[..n];
      if processes[n].sockets.None? {
        assert AllSockets(env, processes[..n + 1]) == AllSockets(env, processes[..n]);
        continue;
      }
      observations := AddSockets(env, tcp, udp, processes[n].pid, processes[n].sockets.value, observations,
                                 AllSockets(env, processes[..n]));
    }
    assert processes[..|processes|] == processes;
  }

  lemma NothingAssembled(tcp: map<string, Sample>, udp: map<string, Sample>)
    ensures Assembled(tcp, udp, []) == map[]
  {
  }

  /** Every socket with a usable remote host is observed under its own key, with
      its own host, protocol and counters, and nothing else is observed. */
  lemma {:induction false} EverySocketObserved(tcp: map<string, Sample>, udp: map<string, Sample>,
                                               sockets: seq<Socket>)
    requires forall s, t :: s in sockets && t in sockets ==> Apart(s.ends.localHost, t.ends.localHost)
    ensures forall s :: s in sockets ==>
              s.Key() in Assembled(tcp, udp, sockets) &&
              Assembled(tcp, udp, sockets)[s.Key()] == ObservationOf(tcp, udp, s)
    ensures forall k :: k in Assembled(tcp, udp, sockets) ==> exists s :: s in sockets && s.Key() == k
  {
    hide Socket.Key, ObservationOf, Apart;
    if sockets != [] {
      var n := |sockets| - 1;
      var last := sockets[n];
      assert sockets == sockets[..n] + [last];
      EverySocketObserved(tcp, udp, sockets[..n]);
      forall s | s in sockets
        ensures s.Key() in Assembled(tcp, udp, sockets)
        ensures Assembled(tcp, udp, sockets)[s.Key()] == ObservationOf(tcp, udp, s)
      {
        if s.Key() == last.Key() {
          SameSocket(s, last);
        }
      }
    }
  }

  /** Socket `l` of process `pid` is in the listing. */
  ghost predicate IsListed(processes: seq<ProcessSockets>, pid: int, l: Listed) {
    exists p :: p in processes && p.pid == pid && p.sockets.Some? && l in p.sockets.value
  }

  lemma {:induction false} SocketsListed(env: Env, pid: int, listed: seq<Listed>, s: Socket)
    ensures s in SocketsOf(env, pid, listed) <==>
              exists l :: l in listed && s == SocketOf(env, pid, l) && env.normalizeHost(l.remoteIP) != ""
  {
    if listed != [] {
      var n := |listed| - 1;
      assert listed == listed[..n] + [listed[n]];
      SocketsListed(env, pid, listed[..n], s);
      if s in SocketsOf(env, pid, listed) && s !in SocketsOf(env, pid, listed[..n]) {
        assert listed[n] in listed;
      }
    }
  }

  lemma {:induction false} AllSocketsListed(env: Env, processes: seq<ProcessSockets>, s: Socket)
    ensures s in AllSockets(env, processes) <==>
              exists p :: p in processes && p.sockets.Some? && s in SocketsOf(env, p.pid, p.sockets.value)
  {
    hide SocketsOf;
    if processes != [] {
      var n := |processes| - 1;
      var last := processes[n];
      assert processes == processes[..n] + [last];
      AllSocketsListed(env, processes[..n], s);
      if s in AllSockets(env, processes) && s !in AllSockets(env, processes[..n]) {
        assert last in processes;
      }
    }
  }

  /** The local hosts of a listing are apart. */
  ghost predicate ListedApart(processes: seq<ProcessSockets>) {
    forall p, l, q, m :: IsListed(processes, p, l) && IsListed(processes, q, m) ==> Apart(l.localHost, m.localHost)
  }

  lemma SocketIsListed(env: Env, processes: seq<ProcessSockets>, s: Socket) returns (l: Listed)
    requires s in AllSockets(env, processes)
    ensures IsListed(processes, s.user.pid, l) && s == SocketOf(env, s.user.pid, l)
    ensures env.normalizeHost(l.remoteIP) != ""
  {
    hide AllSockets, SocketsOf;
    AllSocketsListed(env, processes, s);
    var p :| p in processes && p.sockets.Some? && s in SocketsOf(env, p.pid, p.sockets.value);
    SocketsListed(env, p.pid, p.sockets.value, s);
    l :| l in p.sockets.value && s == SocketOf(env, p.pid, l) && env.normalizeHost(l.remoteIP) != "";
  }

  /** A listed socket with a usable remote host is observed under the key of its
      seven fields, for its process and its normalised remote host, with the label
      of its type and remote port, and with the counters read for it: by flow for
      a datagram socket, by socket otherwise, and zero if there are none. */
  lemma ListedSocketObserved(env: Env, tcp: map<string, Sample>, udp: map<string, Sample>,
                             processes: seq<ProcessSockets>, pid: int, l: Listed)
    requires IsListed(processes, pid, l) && env.normalizeHost(l.remoteIP) != "" && ListedApart(processes)
    ensures var m := Assembled(tcp, udp, AllSockets(env, processes));
            var host := env.normalizeHost(l.remoteIP);
            var key := SocketKey(pid, l.fd, l.socketType, l.localHost, l.localPort, host, l.remotePort);
            var flow := FlowKey(2, l.localHost, l.localPort, host, l.remotePort);
            && key in m
            && m[key].pid == pid && m[key].domain == host
            && m[key].protocol == InferSocketProtocol(l.socketType, l.remotePort)
            && m[key].sample == (if l.socketType == 2 then if flow in udp then udp[flow] else Sample(0, 0)
                                 else if key in tcp then tcp[key] else Sample(0, 0))
  {
    hide AllSockets, SocketsOf, Assembled, SocketKey, FlowKey, Apart, InferSocketProtocol;
    var s := SocketOf(env, pid, l);
    var p :| p in processes && p.pid == pid && p.sockets.Some? && l in p.sockets.value;
    SocketsListed(env, pid, p.sockets.value, s);
    AllSocketsListed(env, processes, s);
    AllApart(env, processes);
    EverySocketObserved(tcp, udp, AllSockets(env, processes));
  }

  lemma AllApart(env: Env, processes: seq<ProcessSockets>)
    requires ListedApart(processes)
    ensures forall s, t :: s in AllSockets(env, processes) && t in AllSockets(env, processes) ==>
              Apart(s.ends.localHost, t.ends.localHost)
  {
    hide AllSockets, Apart, IsListed;
    forall s, t | s in AllSockets(env, processes) && t in AllSockets(env, processes)
      ensures Apart(s.ends.localHost, t.ends.localHost)
    {
      var l := SocketIsListed(env, processes, s);
      var m := SocketIsListed(env, processes, t);
    }
  }

  ghost predicate HasKey(env: Env, pid: int, l: Listed, key: string) {
    && env.normalizeHost(l.remoteIP) != ""
    && key == SocketKey(pid, l.fd, l.socketType, l.localHost, l.localPort, env.normalizeHost(l.remoteIP), l.remotePort)
  }

  /** Nothing else is observed. */
  lemma OnlyListedObserved(env: Env, tcp: map<string, Sample>, udp: map<string, Sample>,
                           processes: seq<ProcessSockets>, key: string)
    requires ListedApart(processes) && key in Assembled(tcp, udp, AllSockets(env, processes))
    ensures exists pid, l :: IsListed(processes, pid, l) && HasKey(env, pid, l, key)
  {
    hide AllSockets, Assembled, SocketKey, Apart, IsListed;
    AllApart(env, processes);
    EverySocketObserved(tcp, udp, AllSockets(env, processes));
    var s :| s in AllSockets(env, processes) && s.Key() == key;
    var l := SocketIsListed(env, processes, s);
    assert HasKey(env, s.user.pid, l, key);
  }

  /** An observed stream socket carries the counters of the last `ss` line about
      it, or none if there is no such line. */
  lemma StreamCounters(reports: seq<Report>, udp: map<string, Sample>, s: Socket)
    requires s.user.socketType != SOCK_DGRAM
    requires forall r :: r in reports ==> Apart(r.socket.ends.localHost, s.ends.localHost)
    ensures forall i: nat :: LastAbout(reports, s, i) ==>
              ObservationOf(Keyed(reports), udp, s).sample == reports[i].sample
    ensures (forall i: nat :: !LastAbout(reports, s, i)) ==>
              ObservationOf(Keyed(reports), udp, s).sample == Sample(0, 0)
  {
    hide Keyed, LastAbout, Socket.Key, Apart;
    SampleOfSocket(reports, s);
  }

  /** An observed datagram socket carries what the last connection-tracking line
      about its flow says, or nothing if there is no such line. */
  lemma DatagramCounters(addrs: Addresses, lines: seq<string>, tcp: map<string, Sample>, s: Socket)
    requires s.user.socketType == SOCK_DGRAM
    requires forall line :: line in lines ==> LineApart(addrs, line, s.ends.localHost)
    ensures var said := LastSays(addrs, lines, s.ends);
            ObservationOf(tcp, Merged(addrs, lines), s).sample == if said.Some? then said.value else Sample(0, 0)
  {
    hide Merged, LastSays, LineApart, Ends.Key, Socket.Key;
    CountersOfFlow(addrs, lines, s.ends);
  }
}
