/** Per-domain and per-connection books. The service and the upload window both
    keep one; a credited delta is posted to each of them in the same way. */
module Accounts {
  import opened Basics
  import opened Tallies
  import opened Keys

  /** One credited delta, attributed to a process, a protocol and a host. */
  datatype Posting = Posting(
    pid: int, protocol: Protocol, domain: string, displayName: string, processName: string, rx: nat, tx: nat)
  {
    function Key(): string {
      ConnectionKey(pid, protocol, domain)
    }

    function Amount(): Tally {
      Tally(rx, tx, 1)
    }
  }

  datatype DomainSnapshot = DomainSnapshot(domain: string, displayName: string, tally: Tally)

  datatype ConnectionSnapshot = ConnectionSnapshot(
    pid: int, processName: string, domain: string, displayName: string, protocol: Protocol, tally: Tally)
  {
    function Key(): string {
      ConnectionKey(pid, protocol, domain)
    }
  }

  function PostDomain(prior: Option<DomainSnapshot>, p: Posting): DomainSnapshot {
    var record := if prior.Some? then prior.value else DomainSnapshot(p.domain, "", ZERO);
    record.(displayName := p.displayName, tally := record.tally.Plus(p.Amount()))
  }

  function PostConnection(prior: Option<ConnectionSnapshot>, p: Posting): ConnectionSnapshot {
    var record :=
      if prior.Some? then prior.value
      else ConnectionSnapshot(p.pid, "", p.domain, "", p.protocol, ZERO);
    record.(processName := p.processName, displayName := p.displayName, tally := record.tally.Plus(p.Amount()))
  }

  function PostDomains(m: map<string, DomainSnapshot>, p: Posting): map<string, DomainSnapshot> {
    m[p.domain := PostDomain(Find(m, p.domain), p)]
  }

  function PostConnections(m: map<string, ConnectionSnapshot>, p: Posting): map<string, ConnectionSnapshot> {
    m[p.Key() := PostConnection(Find(m, p.Key()), p)]
  }

  datatype Books = Books(domains: map<string, DomainSnapshot>, connections: map<string, ConnectionSnapshot>) {
    function Post(p: Posting): Books {
      Books(PostDomains(domains, p), PostConnections(connections, p))
    }

    /** Every record sits under the key built from its own fields. */
    ghost predicate Keyed() {
      && (forall d :: d in domains ==> domains[d].domain == d)
      && (forall k :: k in connections ==> connections[k].Key() == k)
    }

    /** No connection without its domain. */
    ghost predicate Linked() {
      forall k :: k in connections ==> connections[k].domain in domains
    }

    /** A connection is shown without a name or under its domain's name. */
    ghost predicate NamesAgree() {
      forall k :: k in connections && connections[k].domain in domains ==>
        connections[k].displayName == "" ||
        connections[k].displayName == domains[connections[k].domain].displayName
    }

    /** Each domain has counted exactly what its connections have counted, on
        top of what was carried over from connections that are gone. */
    ghost predicate Balanced(carried: map<string, Tally>) {
      forall d :: d in domains ==> domains[d].tally == Sum(ByDomain(connections, d)).Plus(Get(carried, d))
    }
  }

  const NO_BOOKS := Books(map[], map[])

  function DomainTallies(domains: map<string, DomainSnapshot>): map<string, Tally> {
    map d | d in domains :: domains[d].tally
  }

  function ByDomain(connections: map<string, ConnectionSnapshot>, d: string): map<string, Tally> {
    map k | k in connections && connections[k].domain == d :: connections[k].tally
  }

  /** A key already present belongs to the same process, protocol and host. */
  lemma SameKeySameConnection(b: Books, p: Posting)
    requires b.Keyed() && p.Key() in b.connections
    ensures b.connections[p.Key()].domain == p.domain
    ensures b.connections[p.Key()].pid == p.pid
    ensures b.connections[p.Key()].protocol == p.protocol
  {
    var c := b.connections[p.Key()];
    ConnectionKeyInjective(c.pid, c.protocol, c.domain, p.pid, p.protocol, p.domain);
  }

  lemma PostKeepsKeyed(b: Books, p: Posting)
    requires b.Keyed()
    ensures b.Post(p).Keyed()
    ensures b.Post(p).connections[p.Key()].domain == p.domain
  {
    if p.Key() in b.connections {
      SameKeySameConnection(b, p);
    }
  }

  lemma PostKeepsLinked(b: Books, p: Posting)
    requires b.Keyed() && b.Linked()
    ensures b.Post(p).Linked()
  {
    PostKeepsKeyed(b, p);
  }

  /** A posting adds its amount to the sum over all domains. */
  lemma PostCreditsDomains(b: Books, p: Posting)
    ensures Sum(DomainTallies(b.Post(p).domains)) == Sum(DomainTallies(b.domains)).Plus(p.Amount())
  {
    var m := DomainTallies(b.domains);
    assert DomainTallies(b.Post(p).domains) == m[p.domain := Get(m, p.domain).Plus(p.Amount())];
    SumCredit(m, p.domain, p.Amount());
  }

  /** A posting adds its amount to the connections of its own domain ... */
  lemma PostCreditsConnections(b: Books, p: Posting)
    requires b.Keyed()
    ensures Sum(ByDomain(b.Post(p).connections, p.domain)) == Sum(ByDomain(b.connections, p.domain)).Plus(p.Amount())
  {
    hide Sum;
    var m := ByDomain(b.connections, p.domain);
    if p.Key() in b.connections {
      SameKeySameConnection(b, p);
    }
    assert ByDomain(b.Post(p).connections, p.domain) == m[p.Key() := Get(m, p.Key()).Plus(p.Amount())];
    SumCredit(m, p.Key(), p.Amount());
  }

  /** ... and leaves the connections of every other domain alone. */
  lemma PostSparesConnections(b: Books, p: Posting, d: string)
    requires b.Keyed() && d != p.domain
    ensures ByDomain(b.Post(p).connections, d) == ByDomain(b.connections, d)
  {
    if p.Key() in b.connections {
      SameKeySameConnection(b, p);
    }
  }

  lemma PostBalancesDomain(b: Books, p: Posting, carried: map<string, Tally>, d: string)
    requires b.Keyed() && b.Linked()
    requires carried.Keys <= b.domains.Keys
    requires d in b.domains ==> b.domains[d].tally == Sum(ByDomain(b.connections, d)).Plus(Get(carried, d))
    requires d in b.Post(p).domains
    ensures b.Post(p).domains[d].tally == Sum(ByDomain(b.Post(p).connections, d)).Plus(Get(carried, d))
  {
    hide Sum;
    if d == p.domain {
      PostCreditsConnections(b, p);
    } else {
      PostSparesConnections(b, p, d);
    }
    if d !in b.domains {
      assert ByDomain(b.connections, d) == map[];
      SumEmpty();
    }
  }

  lemma PostKeepsBalanced(b: Books, p: Posting, carried: map<string, Tally>)
    requires b.Keyed() && b.Linked() && b.Balanced(carried)
    requires carried.Keys <= b.domains.Keys
    ensures b.Post(p).Balanced(carried)
  {
    hide Sum;
    forall d | d in b.Post(p).domains
      ensures b.Post(p).domains[d].tally == Sum(ByDomain(b.Post(p).connections, d)).Plus(Get(carried, d))
    {
      PostBalancesDomain(b, p, carried, d);
    }
  }

  lemma SumEmpty()
    ensures Sum(map[]) == ZERO
  {
  }

  /** Names keep agreeing as long as a domain, once named, is not renamed. */
  lemma PostKeepsNamesAgree(b: Books, p: Posting)
    requires b.Keyed() && b.Linked() && b.NamesAgree()
    requires p.domain in b.domains ==>
               b.domains[p.domain].displayName == "" || b.domains[p.domain].displayName == p.displayName
    ensures b.Post(p).NamesAgree()
  {
    PostKeepsKeyed(b, p);
  }
}
