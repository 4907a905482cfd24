/** The string keys that stand in for tuples in every map of the watcher. */
module Keys {
  import opened Decimal

  const SOCK_STREAM: nat := 1
  const SOCK_DGRAM: nat := 2

  /** A port is an unsigned 32-bit value wherever it becomes part of a key. */
  type Port = p: nat | p < TWO_TO_THE_32

  /** The two ends of a flow. */
  datatype Ends = Ends(localHost: string, localPort: Port, remoteHost: string, remotePort: Port) {
    function Key(socketType: nat): string {
      FlowKey(socketType, localHost, localPort, remoteHost, remotePort)
    }
  }

  /** Protocol labels never contain the key separator. */
  type Protocol = s: string | '|' !in s witness ""

  function InferProtocol(port: nat): Protocol {
    if port == 22 then "SSH"
    else if port == 53 then "DNS"
    else if port == 80 then "HTTP"
    else if port == 443 then "HTTPS"
    else if port == 853 then "DNS-over-TLS"
    else if port == 3306 then "MySQL"
    else if port == 5432 then "Postgres"
    else if port == 6379 then "Redis"
    else if port == 784 || port == 4433 then "QUIC"
    else "TCP"
  }

  /** The port of a stream socket is narrowed to 16 bits before the lookup. */
  function InferSocketProtocol(socketType: nat, port: nat): Protocol {
    if socketType == SOCK_DGRAM then
      if port == 53 then "DNS"
      else if port == 443 || port == 784 || port == 4433 then "QUIC"
      else "UDP"
    else InferProtocol(port % 0x1_0000)
  }

  /** Which ports stand behind each label of a datagram socket ... */
  lemma DatagramLabels(port: nat)
    ensures InferSocketProtocol(SOCK_DGRAM, port) in {"DNS", "QUIC", "UDP"}
    ensures InferSocketProtocol(SOCK_DGRAM, port) == "DNS" <==> port == 53
    ensures InferSocketProtocol(SOCK_DGRAM, port) == "QUIC" <==> port in {443, 784, 4433}
  {
  }

  /** ... and of any other socket, for ports in their 16 bits. */
  lemma StreamLabels(socketType: nat, port: nat)
    requires socketType != 2
    ensures var shown, p := InferSocketProtocol(socketType, port), port % 65536;
            && (shown == "SSH" <==> p == 22) && (shown == "DNS" <==> p == 53)
            && (shown == "HTTP" <==> p == 80) && (shown == "HTTPS" <==> p == 443)
            && (shown == "DNS-over-TLS" <==> p == 853) && (shown == "MySQL" <==> p == 3306)
            && (shown == "Postgres" <==> p == 5432) && (shown == "Redis" <==> p == 6379)
            && (shown == "QUIC" <==> p in {784, 4433})
            && (shown == "TCP" <==> p !in {22, 53, 80, 443, 853, 3306, 5432, 6379, 784, 4433})
  {
  }

  /** Joins two parts of a key. */
  function Bar(a: string, b: string): string {
    a + "|" + b
  }

  function ConnectionKey(pid: int, protocol: string, domain: string): string {
    Bar(FormatInt(pid), Bar(protocol, domain))
  }

  function FlowKey(socketType: nat, localHost: string, localPort: nat, remoteHost: string, remotePort: nat): string {
    Bar(FormatUint(socketType),
        Bar(localHost, Bar(FormatUint(localPort), Bar(remoteHost, FormatUint(remotePort)))))
  }

  function SocketKey(pid: int, fd: nat, socketType: nat, localHost: string, localPort: nat,
                     remoteHost: string, remotePort: nat): string {
    Bar(FormatInt(pid), Bar(FormatUint(fd), FlowKey(socketType, localHost, localPort, remoteHost, remotePort)))
  }

  /** The first separator of a joined pair is where the first part ends. */
  lemma FirstBar(a: string, b: string, c: string, d: string)
    requires '|' !in a && '|' !in c
    requires Bar(a, b) == Bar(c, d)
    ensures a == c && b == d
  {
    var left, right := Bar(a, b), Bar(c, d);
    assert left[|a|] == '|' && right[|c|] == '|';
    assert |a| == |c|;
    assert a == left[..|a|] && c == right[..|c|];
    assert b == left[|a| + 1..] && d == right[|c| + 1..];
  }

  /** The last separator is where the last part starts. */
  lemma LastBar(a: string, b: string, c: string, d: string)
    requires '|' !in b && '|' !in d
    requires Bar(a, b) == Bar(c, d)
    ensures a == c && b == d
  {
    var left, right := Bar(a, b), Bar(c, d);
    assert left[|a|] == '|' && right[|c|] == '|';
    assert |a| == |c|;
    assert a == left[..|a|] && c == right[..|c|];
    assert b == left[|a| + 1..] && d == right[|c| + 1..];
  }

  /** `observedConnectionKey` is injective; the domain may be any string. */
  lemma ConnectionKeyInjective(pid1: int, protocol1: Protocol, domain1: string,
                               pid2: int, protocol2: Protocol, domain2: string)
    requires ConnectionKey(pid1, protocol1, domain1) == ConnectionKey(pid2, protocol2, domain2)
    ensures pid1 == pid2 && protocol1 == protocol2 && domain1 == domain2
  {
    hide Bar;
    FirstBar(FormatInt(pid1), Bar(protocol1, domain1), FormatInt(pid2), Bar(protocol2, domain2));
    FormatIntInjective(pid1, pid2);
    FirstBar(protocol1, domain1, protocol2, domain2);
  }

  /** `linuxFlowTupleKey` is injective as soon as the local host contains no
      separator; the remote host may be any string. */
  lemma FlowKeyInjective(t1: nat, lh1: string, lp1: nat, rh1: string, rp1: nat,
                         t2: nat, lh2: string, lp2: nat, rh2: string, rp2: nat)
    requires '|' !in lh1 && '|' !in lh2
    requires FlowKey(t1, lh1, lp1, rh1, rp1) == FlowKey(t2, lh2, lp2, rh2, rp2)
    ensures t1 == t2 && lh1 == lh2 && lp1 == lp2 && rh1 == rh2 && rp1 == rp2
  {
    hide Bar;
    var d1, d2 := Bar(rh1, FormatUint(rp1)), Bar(rh2, FormatUint(rp2));
    var c1, c2 := Bar(FormatUint(lp1), d1), Bar(FormatUint(lp2), d2);
    var b1, b2 := Bar(lh1, c1), Bar(lh2, c2);
    FirstBar(FormatUint(t1), b1, FormatUint(t2), b2);
    FirstBar(lh1, c1, lh2, c2);
    FirstBar(FormatUint(lp1), d1, FormatUint(lp2), d2);
    LastBar(rh1, FormatUint(rp1), rh2, FormatUint(rp2));
    FormatUintInjective(t1, t2);
    FormatUintInjective(lp1, lp2);
    FormatUintInjective(rp1, rp2);
  }

  /** So is the seven-field key shared by the `ss` and gopsutil readings. */
  lemma SocketKeyInjective(pid1: int, fd1: nat, t1: nat, lh1: string, lp1: nat, rh1: string, rp1: nat,
                           pid2: int, fd2: nat, t2: nat, lh2: string, lp2: nat, rh2: string, rp2: nat)
    requires '|' !in lh1 && '|' !in lh2
    requires SocketKey(pid1, fd1, t1, lh1, lp1, rh1, rp1) == SocketKey(pid2, fd2, t2, lh2, lp2, rh2, rp2)
    ensures pid1 == pid2 && fd1 == fd2 && t1 == t2 && lh1 == lh2 && lp1 == lp2 && rh1 == rh2 && rp1 == rp2
  {
    var f1, f2 := FlowKey(t1, lh1, lp1, rh1, rp1), FlowKey(t2, lh2, lp2, rh2, rp2);
    hide Bar;
    var r1, r2 := Bar(FormatUint(fd1), f1), Bar(FormatUint(fd2), f2);
    FirstBar(FormatInt(pid1), r1, FormatInt(pid2), r2);
    FirstBar(FormatUint(fd1), f1, FormatUint(fd2), f2);
    FormatIntInjective(pid1, pid2);
    FormatUintInjective(fd1, fd2);
    FlowKeyInjective(t1, lh1, lp1, rh1, rp1, t2, lh2, lp2, rh2, rp2);
  }

  /** `b` goes on after `a` with a separator, a printed port and then nothing or
      another separator and any text. */
  ghost predicate Extends(a: string, b: string) {
    exists port: Port, text: string :: ExtendsBy(a, b, port, text)
  }

  ghost predicate ExtendsBy(a: string, b: string, port: Port, text: string) {
    b == Bar(a, FormatUint(port)) || b == Bar(a, Bar(FormatUint(port), text))
  }

  /** Some flow from `a` and some other flow from `b` share a key. */
  ghost predicate Collide(socketType: nat, a: string, b: string) {
    exists f: Ends, g: Ends :: f.localHost == a && g.localHost == b && SharedKey(socketType, f, g)
  }

  ghost predicate SharedKey(socketType: nat, f: Ends, g: Ends) {
    f != g && f.Key(socketType) == g.Key(socketType)
  }

  /** A flow without its socket type and its local host. */
  function Rest(f: Ends): string {
    Bar(FormatUint(f.localPort), Bar(f.remoteHost, FormatUint(f.remotePort)))
  }

  /** Equal keys mean equal local hosts with what follows them. */
  lemma SharedRest(socketType: nat, f: Ends, g: Ends)
    requires f.Key(socketType) == g.Key(socketType)
    ensures Bar(f.localHost, Rest(f)) == Bar(g.localHost, Rest(g))
  {
    hide Bar;
    FirstBar(FormatUint(socketType), Bar(f.localHost, Rest(f)), FormatUint(socketType), Bar(g.localHost, Rest(g)));
  }

  lemma RestInjective(f: Ends, g: Ends)
    requires Rest(f) == Rest(g) && f.localHost == g.localHost
    ensures f == g
  {
    hide Bar;
    FirstBar(FormatUint(f.localPort), Bar(f.remoteHost, FormatUint(f.remotePort)),
             FormatUint(g.localPort), Bar(g.remoteHost, FormatUint(g.remotePort)));
    LastBar(f.remoteHost, FormatUint(f.remotePort), g.remoteHost, FormatUint(g.remotePort));
    FormatUintInjective(f.localPort, g.localPort);
    FormatUintInjective(f.remotePort, g.remotePort);
  }

  /** The longer of two local hosts with a shared key starts with the shorter one
      and its separator. */
  lemma LongerHost(a: string, r: string, b: string, q: string)
    requires Bar(a, r) == Bar(b, q) && |a| < |b|
    ensures var tail := b[|a| + 1..];
            b == Bar(a, tail) && r == Bar(tail, q)
  {
    var left, right := Bar(a, r), Bar(b, q);
    assert left[|a|] == '|' && right[..|b|] == b;
    assert b[..|a|] == left[..|a|] == a;
    assert left[|a| + 1..] == r && right[|a| + 1..] == Bar(b[|a| + 1..], q);
  }

  /** A joined pair starts with the first part of the other one. */
  lemma HeadOfTail(digits: string, after: string, tail: string, q: string)
    requires '|' !in digits && Bar(digits, after) == Bar(tail, q)
    ensures tail == digits || (|digits| < |tail| && tail == Bar(digits, tail[|digits| + 1..]))
  {
    var left, right := Bar(digits, after), Bar(tail, q);
    assert left[|digits|] == '|' && right[|tail|] == '|';
    assert |tail| >= |digits|;
    assert digits == left[..|digits|] == tail[..|digits|];
  }

  lemma SharedKeyExtends(socketType: nat, f: Ends, g: Ends)
    requires f.Key(socketType) == g.Key(socketType) && |f.localHost| < |g.localHost|
    ensures Extends(f.localHost, g.localHost)
  {
    hide Ends.Key, Bar;
    SharedRest(socketType, f, g);
    var a, b := f.localHost, g.localHost;
    LongerHost(a, Rest(f), b, Rest(g));
    var tail, digits := b[|a| + 1..], FormatUint(f.localPort);
    HeadOfTail(digits, Bar(f.remoteHost, FormatUint(f.remotePort)), tail, Rest(g));
    assert ExtendsBy(a, b, f.localPort, if tail == digits then "" else tail[|digits| + 1..]);
  }

  lemma Reassociate(a: string, digits: string, remote: string, last: string)
    ensures Bar(Bar(a, digits), Bar(remote, last)) == Bar(a, Bar(digits, Bar(remote, last)))
  {
  }

  lemma ReassociateText(a: string, digits: string, text: string, remote: string, last: string)
    ensures Bar(Bar(a, Bar(digits, text)), Bar(remote, last)) == Bar(a, Bar(digits, Bar(Bar(text, remote), last)))
  {
  }

  lemma ExtendsCollides(socketType: nat, a: string, b: string)
    requires Extends(a, b)
    ensures Collide(socketType, a, b)
  {
    hide Ends.Key;
    var port: Port, text: string :| ExtendsBy(a, b, port, text);
    var g := Ends(b, 0, "", 0);
    var digits, zero := FormatUint(port), FormatUint(0);
    var remote := if b == Bar(a, digits) then Bar(zero, "") else Bar(text, Bar(zero, ""));
    var f := Ends(a, port, remote, 0);
    if b == Bar(a, digits) {
      Reassociate(a, digits, Bar(zero, ""), zero);
    } else {
      ReassociateText(a, digits, text, Bar(zero, ""), zero);
    }
    SameRestSameKey(socketType, f, g);
    assert |a| < |b|;
    assert SharedKey(socketType, f, g);
  }

  lemma SameRestSameKey(socketType: nat, f: Ends, g: Ends)
    requires Bar(f.localHost, Rest(f)) == Bar(g.localHost, Rest(g))
    ensures f.Key(socketType) == g.Key(socketType)
  {
    hide Bar;
  }

  /** Exactly when two local hosts admit a collision between different flows: one
      of them extends the other by what looks like a port. */
  lemma CollisionCondition(socketType: nat, a: string, b: string)
    ensures Collide(socketType, a, b) <==> !Apart(a, b)
  {
    hide Extends;
    if Collide(socketType, a, b) {
      var f: Ends, g: Ends :| f.localHost == a && g.localHost == b && SharedKey(socketType, f, g);
      CollisionExtends(socketType, f, g);
    }
    if Extends(a, b) {
      ExtendsCollides(socketType, a, b);
    }
    if Extends(b, a) {
      ExtendsCollides(socketType, b, a);
      var f: Ends, g: Ends :| f.localHost == b && g.localHost == a && SharedKey(socketType, f, g);
      assert SharedKey(socketType, g, f);
    }
  }

  /** Neither host extends the other by what looks like a port. */
  ghost predicate Apart(a: string, b: string) {
    !Extends(a, b) && !Extends(b, a)
  }

  lemma ApartWithoutBar(a: string, b: string)
    requires '|' !in a && '|' !in b
    ensures Apart(a, b)
  {
    forall port: Port, text: string
      ensures !ExtendsBy(a, b, port, text) && !ExtendsBy(b, a, port, text)
    {
      assert '|' in Bar(a, FormatUint(port)) && '|' in Bar(a, Bar(FormatUint(port), text));
      assert '|' in Bar(b, FormatUint(port)) && '|' in Bar(b, Bar(FormatUint(port), text));
    }
  }

  lemma CollisionExtends(socketType: nat, f: Ends, g: Ends)
    requires SharedKey(socketType, f, g)
    ensures Extends(f.localHost, g.localHost) || Extends(g.localHost, f.localHost)
  {
    hide Extends, Ends.Key;
    SharedRest(socketType, f, g);
    if |f.localHost| < |g.localHost| {
      SharedKeyExtends(socketType, f, g);
    } else if |g.localHost| < |f.localHost| {
      SharedKeyExtends(socketType, g, f);
    } else {
      EqualLengthHosts(f.localHost, Rest(f), g.localHost, Rest(g));
      RestInjective(f, g);
    }
  }

  /** So equal keys mean equal flows as long as the local hosts are apart. */
  lemma ApartFlows(t1: nat, f: Ends, t2: nat, g: Ends)
    requires Apart(f.localHost, g.localHost) && f.Key(t1) == g.Key(t2)
    ensures t1 == t2 && f == g
  {
    hide Extends;
    SameSocketType(t1, f, t2, g);
    if f != g {
      CollisionExtends(t1, f, g);
    }
  }

  lemma SameSocketType(t1: nat, f: Ends, t2: nat, g: Ends)
    requires f.Key(t1) == g.Key(t2)
    ensures t1 == t2
  {
    hide Bar;
    FirstBar(FormatUint(t1), Bar(f.localHost, Rest(f)), FormatUint(t2), Bar(g.localHost, Rest(g)));
    FormatUintInjective(t1, t2);
  }

  lemma EqualLengthHosts(a: string, r: string, b: string, q: string)
    requires Bar(a, r) == Bar(b, q) && |a| == |b|
    ensures a == b && r == q
  {
    assert a == Bar(a, r)[..|a|] && b == Bar(b, q)[..|b|];
    assert r == Bar(a, r)[|a| + 1..] && q == Bar(b, q)[|b| + 1..];
  }

  /** The first two fields of a seven-field key are never in doubt, so socket keys
      collide exactly where flow keys do. */
  lemma SocketKeySplits(pid1: int, fd1: nat, t1: nat, lh1: string, lp1: nat, rh1: string, rp1: nat,
                        pid2: int, fd2: nat, t2: nat, lh2: string, lp2: nat, rh2: string, rp2: nat)
    ensures SocketKey(pid1, fd1, t1, lh1, lp1, rh1, rp1) == SocketKey(pid2, fd2, t2, lh2, lp2, rh2, rp2) <==>
            pid1 == pid2 && fd1 == fd2 && FlowKey(t1, lh1, lp1, rh1, rp1) == FlowKey(t2, lh2, lp2, rh2, rp2)
  {
    hide Bar, FlowKey;
    var f1, f2 := FlowKey(t1, lh1, lp1, rh1, rp1), FlowKey(t2, lh2, lp2, rh2, rp2);
    if SocketKey(pid1, fd1, t1, lh1, lp1, rh1, rp1) == SocketKey(pid2, fd2, t2, lh2, lp2, rh2, rp2) {
      FirstBar(FormatInt(pid1), Bar(FormatUint(fd1), f1), FormatInt(pid2), Bar(FormatUint(fd2), f2));
      FirstBar(FormatUint(fd1), f1, FormatUint(fd2), f2);
      FormatIntInjective(pid1, pid2);
      FormatUintInjective(fd1, fd2);
    }
  }

  /** For instance, two flows whose local hosts are "a" and "a|1|b". */
  lemma FlowKeyCollision()
    ensures FlowKey(SOCK_DGRAM, "a", 1, "b|2|c", 3) == FlowKey(SOCK_DGRAM, "a|1|b", 2, "c", 3)
  {
    assert FormatUint(1) == "1" && FormatUint(2) == "2";
  }
}
