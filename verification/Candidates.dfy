/** Choosing one host name out of many: from whois output and from the subject
    alternative names of a certificate. */
module Candidates {
  import opened Basics
  import opened Hosts
  import opened Text
  import opened Ranking

  const SECOND_LEVEL := {"ac", "co", "com", "edu", "gov", "net", "org"}
  const IGNORED := {"iana.org", "arin.net", "apnic.net", "afrinic.net", "lacnic.net"}

  function JoinLabels(labels: seq<string>): string {
    if labels == [] then ""
    else if |labels| == 1 then labels[0]
    else labels[0] + "." + JoinLabels(labels[1..])
  }

  /** `registrableDomain` */
  function RegistrableDomain(env: Env, raw: string): string {
    var host := env.normalizeHost(raw);
    if host == "" then ""
    else
      var labels := Split(host, ".");
      var n := |labels|;
      if n <= 2 then host
      else if |labels[n - 1]| == 2 && labels[n - 2] in SECOND_LEVEL then JoinLabels(labels[n - 3..])
      else JoinLabels(labels[n - 2..])
  }

  lemma {:induction false} SplitOfJoin(labels: seq<string>)
    requires labels != [] && forall l :: l in labels ==> '.' !in l
    ensures Split(JoinLabels(labels), ".") == labels
  {
    hide Index;
    var first := labels[0];
    AbsentWithoutChar(first, ".", 0);
    if |labels| == 1 {
      AbsentIndex(first, ".");
    } else {
      var rest := labels[1..];
      assert forall l :: l in rest ==> l in labels;
      SplitOfJoin(rest);
      SplitAtFirst(first, ".", JoinLabels(rest));
      assert labels == [first] + rest;
    }
  }

  /** A host of up to two labels is its own registrable domain ... */
  lemma ShortHost(env: Env, raw: string, labels: seq<string>)
    requires 1 <= |labels| <= 2 && forall l :: l in labels ==> '.' !in l
    requires env.normalizeHost(raw) == JoinLabels(labels)
    ensures RegistrableDomain(env, raw) == JoinLabels(labels)
  {
    hide JoinLabels, Split;
    SplitOfJoin(labels);
  }

  /** ... of a longer one it is the last two labels, or the last three if the very
      last has two letters and the one before is a usual second level. */
  lemma LongHost(env: Env, raw: string, front: seq<string>, third: string, second: string, first: string)
    requires forall l :: l in front + [third, second, first] ==> '.' !in l
    requires env.normalizeHost(raw) == JoinLabels(front + [third, second, first])
    ensures RegistrableDomain(env, raw) ==
            if |first| == 2 && second in {"ac", "co", "com", "edu", "gov", "net", "org"}
            then third + "." + second + "." + first
            else second + "." + first
  {
    hide Split;
    var labels := front + [third, second, first];
    SplitOfJoin(labels);
    JoinedDots(labels);
    assert labels[|labels| - 3..] == [third, second, first];
    assert labels[|labels| - 2..] == [second, first];
    JoinTwo(second, first);
    JoinThree(third, second, first);
  }

  lemma JoinedDots(labels: seq<string>)
    requires |labels| >= 2
    ensures JoinLabels(labels) != ""
  {
  }

  lemma JoinTwo(a: string, b: string)
    ensures JoinLabels([a, b]) == a + "." + b
  {
    assert [a, b][1..] == [b];
  }

  lemma JoinThree(a: string, b: string, c: string)
    ensures JoinLabels([a, b, c]) == a + "." + b + "." + c
  {
    assert [a, b, c][1..] == [b, c];
    JoinTwo(b, c);
  }

  lemma EmptyHost(env: Env, raw: string)
    requires env.normalizeHost(raw) == ""
    ensures RegistrableDomain(env, raw) == ""
  {
  }

  predicate Counted(domain: string) {
    domain != "" && domain !in IGNORED
  }

  /** The domains that take part in the vote, one per match. */
  function Votes(env: Env, matches: seq<string>): seq<string> {
    if matches == [] then []
    else
      var n := |matches| - 1;
      var domain := RegistrableDomain(env, matches[n]);
      Votes(env, matches[..n]) + if Counted(domain) then [domain] else []
  }

  /** More votes win; among equals the lexicographically smallest wins. */
  predicate Beats(votes: multiset<string>, a: string, b: string) {
    votes[a] > votes[b] || (votes[a] == votes[b] && StringLess(a, b))
  }

  /** `best` beats every other voted-for domain; without votes it is empty. */
  ghost predicate Elected(votes: multiset<string>, best: string) {
    if votes == multiset{} then best == ""
    else best in votes && forall d :: d in votes && d != best ==> Beats(votes, best, d)
  }

  lemma ElectionIsUnique(votes: multiset<string>, a: string, b: string)
    requires Elected(votes, a) && Elected(votes, b)
    ensures a == b
  {
    StringLessTotal(a, b);
  }

  lemma BeatsTransitive(votes: multiset<string>, a: string, b: string, c: string)
    requires Beats(votes, a, b) && Beats(votes, b, c)
    ensures Beats(votes, a, c)
  {
    if StringLess(a, b) && StringLess(b, c) {
      StringLessTransitive(a, b, c);
    }
  }

  /** `counts` holds the votes of every domain that has any. */
  ghost predicate Tallied(counts: map<string, nat>, votes: multiset<string>) {
    forall d :: if d in counts then counts[d] == votes[d] > 0 else votes[d] == 0
  }

  lemma OneMoreVote(counts: map<string, nat>, votes: multiset<string>, d: string)
    requires Tallied(counts, votes)
    ensures Tallied(counts[d := (if d in counts then counts[d] else 0) + 1], votes + multiset{d})
  {
  }

  lemma NextVote(env: Env, matches: seq<string>, n: nat)
    requires n < |matches|
    ensures var domain := RegistrableDomain(env, matches[n]);
            multiset(Votes(env, matches[..n + 1])) ==
            if Counted(domain) then multiset(Votes(env, matches[..n])) + multiset{domain}
            else multiset(Votes(env, matches[..n]))
  {
    hide RegistrableDomain;
    assert matches[..n + 1][..n] == matches[..n];
  }

  /** Counting with a map. */
  method Tabulate(env: Env, matches: seq<string>) returns (counts: map<string, nat>)
    ensures Tallied(counts, multiset(Votes(env, matches)))
  {
    hide RegistrableDomain, Votes, Tallied;
    NothingTallied(env);
    counts := map[];
    assert matches[..0] == [];
    for n := 0 to |matches|
      invariant Tallied(counts, multiset(Votes(env, matches[..n])))
    {
      NextVote(env, matches, n);
      var host := RegistrableDomain(env, matches[n]);
      if host == "" {
        continue;
      }
      if host in IGNORED {
        continue;
      }
      OneMoreVote(counts, multiset(Votes(env, matches[..n])), host);
      counts := counts[host := (if host in counts then counts[host] else 0) + 1];
    }
    assert matches[..|matches|] == matches;
  }

  lemma NothingTallied(env: Env)
    ensures Tallied(map[], multiset(Votes(env, [])))
  {
  }

  /** `bestWhoisCandidate`. The second loop visits the counts in any order, and
      the result does not depend on it. */
  method BestWhoisCandidate(env: Env, matches: seq<string>) returns (best: string)
    ensures Elected(multiset(Votes(env, matches)), best)
  {
    hide RegistrableDomain, Votes;
    var counts := Tabulate(env, matches);
    ghost var votes := multiset(Votes(env, matches));
    var bestCount := 0;
    best := "";
    var remaining := counts.Keys;
    while remaining != {}
      invariant remaining <= counts.Keys
      invariant if remaining == counts.Keys then best == "" && bestCount == 0
                else best in counts && best !in remaining && bestCount == counts[best]
      invariant forall d :: d in counts && d !in remaining && d != best ==> Beats(votes, best, d)
      decreases |remaining|
    {
      var host := Choose(remaining);
      var count := counts[host];
      assert count >= 1;
      StringLessTotal(host, best);
      if count > bestCount || (count == bestCount && StringLess(host, best)) {
        forall d | d in counts && d !in remaining - {host} && d != host
          ensures Beats(votes, host, d)
        {
          if d != best {
            BeatsTransitive(votes, host, best, d);
          }
        }
        best := host;
        bestCount := count;
      }
      remaining := remaining - {host};
    }
    assert votes == multiset{} <==> counts.Keys == {} by {
      assert votes != multiset{} ==> exists d :: d in votes;
    }
  }

  /** How many matches have this registrable domain. */
  function Mentions(env: Env, matches: seq<string>, domain: string): nat {
    if matches == [] then 0
    else
      var n := |matches| - 1;
      Mentions(env, matches[..n], domain) + if RegistrableDomain(env, matches[n]) == domain then 1 else 0
  }

  /** Every match is a vote for its registrable domain, except for none and for
      the registries themselves. */
  lemma {:induction false} VotesAreMentions(env: Env, matches: seq<string>, domain: string)
    ensures multiset(Votes(env, matches))[domain] ==
            if domain in {"", "iana.org", "arin.net", "apnic.net", "afrinic.net", "lacnic.net"} then 0
            else Mentions(env, matches, domain)
  {
    hide RegistrableDomain;
    if matches != [] {
      VotesAreMentions(env, matches[..|matches| - 1], domain);
    }
  }

  predicate Eligible(domain: string) {
    domain !in {"", "iana.org", "arin.net", "apnic.net", "afrinic.net", "lacnic.net"}
  }

  lemma {:induction false} NotMentioned(env: Env, matches: seq<string>, domain: string)
    ensures Mentions(env, matches, domain) > 0 <==> exists m :: m in matches && RegistrableDomain(env, m) == domain
  {
    hide RegistrableDomain;
    if matches != [] {
      var n := |matches| - 1;
      NotMentioned(env, matches[..n], domain);
      assert matches == matches[..n] + [matches[n]];
      assert matches[n] in matches;
    }
  }

  /** The winner is the eligible domain with most matches, the smallest of them if
      there are several; there is none if and only if no match is eligible. */
  lemma WhoisWinner(env: Env, matches: seq<string>, best: string)
    requires Elected(multiset(Votes(env, matches)), best)
    ensures best == "" <==> forall m :: m in matches ==> !Eligible(RegistrableDomain(env, m))
    ensures best != "" ==> Eligible(best) && Mentions(env, matches, best) > 0
    ensures forall d :: best != "" && Eligible(d) && d != best ==>
              || Mentions(env, matches, best) > Mentions(env, matches, d)
              || (Mentions(env, matches, best) == Mentions(env, matches, d) && StringLess(best, d))
  {
    hide RegistrableDomain, Votes, Mentions, StringLess;
    var votes := multiset(Votes(env, matches));
    forall d
      ensures votes[d] == if Eligible(d) then Mentions(env, matches, d) else 0
      ensures Mentions(env, matches, d) > 0 <==> exists m :: m in matches && RegistrableDomain(env, m) == d
    {
      VotesAreMentions(env, matches, d);
      NotMentioned(env, matches, d);
    }
    if votes == multiset{} {
      forall m | m in matches
        ensures !Eligible(RegistrableDomain(env, m))
      {
        assert votes[RegistrableDomain(env, m)] == 0;
        assert Mentions(env, matches, RegistrableDomain(env, m)) > 0;
      }
    } else {
      assert votes[best] > 0;
      var m :| m in matches && RegistrableDomain(env, m) == best;
      assert Eligible(RegistrableDomain(env, m));
    }
  }

  /** Neither the order of the matches nor the order of the map matters. */
  lemma WhoisOrderIrrelevant(env: Env, p: seq<string>, q: seq<string>, a: string, b: string)
    requires multiset(p) == multiset(q)
    requires Elected(multiset(Votes(env, p)), a) && Elected(multiset(Votes(env, q)), b)
    ensures a == b
  {
    VotesOfPermutation(env, p, q);
    ElectionIsUnique(multiset(Votes(env, p)), a, b);
  }

  lemma {:induction false} VotesAppend(env: Env, p: seq<string>, q: seq<string>)
    ensures multiset(Votes(env, p + q)) == multiset(Votes(env, p)) + multiset(Votes(env, q))
  {
    hide RegistrableDomain;
    if q == [] {
      assert p + q == p;
    } else {
      var n := |q| - 1;
      assert (p + q)[..|p| + n] == p + q[..n];
      VotesAppend(env, p, q[..n]);
    }
  }

  /** Moving one match to the end moves one vote to the end. */
  lemma VotesMove(env: Env, before: seq<string>, x: string, after: seq<string>)
    ensures multiset(Votes(env, before + [x] + after)) ==
            multiset(Votes(env, before + after)) + multiset(Votes(env, [x]))
  {
    hide Votes;
    VotesAppend(env, before, after);
    VotesAppend(env, before, [x]);
    VotesAppend(env, before + [x], after);
  }

  /** The last element of one permutation, found and removed in the other. */
  lemma SameWithoutLast(p: seq<string>, q: seq<string>) returns (i: nat)
    requires multiset(p) == multiset(q) && p != []
    ensures i < |q| && q[i] == p[|p| - 1]
    ensures multiset(p[..|p| - 1]) == multiset(q[..i] + q[i + 1..])
  {
    var n := |p| - 1;
    var x := p[n];
    assert x in multiset(p);
    assert x in multiset(q);
    i :| 0 <= i < |q| && q[i] == x;
    assert p == p[..n] + [x];
    assert q == q[..i] + [x] + q[i + 1..];
    assert multiset(p[..n]) == multiset(p) - multiset{x};
    assert multiset(q[..i] + q[i + 1..]) == multiset(q) - multiset{x};
  }

  lemma VotesOfLast(env: Env, p: seq<string>)
    requires p != []
    ensures multiset(Votes(env, p)) == multiset(Votes(env, p[..|p| - 1])) + multiset(Votes(env, [p[|p| - 1]]))
  {
    hide Votes;
    VotesAppend(env, p[..|p| - 1], [p[|p| - 1]]);
    assert p == p[..|p| - 1] + [p[|p| - 1]];
  }

  lemma {:induction false} VotesOfPermutation(env: Env, p: seq<string>, q: seq<string>)
    requires multiset(p) == multiset(q)
    ensures multiset(Votes(env, p)) == multiset(Votes(env, q))
    decreases |p|
  {
    hide Votes;
    assert |p| == |multiset(p)| == |multiset(q)| == |q|;
    if p == [] {
      assert p == q;
    } else {
      var i := SameWithoutLast(p, q);
      VotesOfPermutation(env, p[..|p| - 1], q[..i] + q[i + 1..]);
      VotesOfLast(env, p);
      VotesMove(env, q[..i], q[i], q[i + 1..]);
      assert q == q[..i] + [q[i]] + q[i + 1..];
    }
  }

  // ---- certificates ----

  /** `len`, on names without multi-byte characters. */
  predicate HostLess(env: Env, a: string, b: string) {
    var aBare, bBare := RegistrableDomain(env, a) == a, RegistrableDomain(env, b) == b;
    if aBare != bBare then bBare
    else if |a| != |b| then |a| < |b|
    else StringLess(a, b)
  }

  /** The best of the non-empty hosts, or "" if there is no host at all. */
  ghost predicate BestHost(env: Env, hosts: set<string>, best: string) {
    if hosts == {} then best == ""
    else best in hosts && best != "" && forall h :: h in hosts && h != "" && h != best ==> HostLess(env, best, h)
  }

  lemma BestHostIsUnique(env: Env, hosts: set<string>, a: string, b: string)
    requires BestHost(env, hosts, a) && BestHost(env, hosts, b)
    ensures a == b
  {
    hide RegistrableDomain;
    StringLessTotal(a, b);
  }

  lemma HostLessTotal(env: Env, a: string, b: string)
    ensures a == b || HostLess(env, a, b) || HostLess(env, b, a)
  {
    hide RegistrableDomain;
    StringLessTotal(a, b);
  }

  lemma HostLessTransitive(env: Env, a: string, b: string, c: string)
    requires HostLess(env, a, b) && HostLess(env, b, c)
    ensures HostLess(env, a, c)
  {
    hide RegistrableDomain, StringLess;
    if StringLess(a, b) && StringLess(b, c) {
      StringLessTransitive(a, b, c);
    }
  }

  lemma HostOrder(env: Env)
    ensures StrictWeakOrder((a: string, b: string) => HostLess(env, a, b))
  {
    hide HostLess;
    var less := (a: string, b: string) => HostLess(env, a, b);
    forall x
      ensures !less(x, x)
    {
      HostLessIrreflexive(env, x);
    }
    forall x, y, z | less(x, y) && less(y, z)
      ensures less(x, z)
    {
      HostLessTransitive(env, x, y, z);
    }
    forall x, y, z | !less(x, y) && !less(y, z)
      ensures !less(x, z)
    {
      HostNotLessTransitive(env, x, y, z);
    }
  }

  lemma HostLessIrreflexive(env: Env, a: string)
    ensures !HostLess(env, a, a)
  {
    hide RegistrableDomain;
    StringLessTotal(a, a);
  }

  lemma HostNotLessTransitive(env: Env, a: string, b: string, c: string)
    requires !HostLess(env, a, b) && !HostLess(env, b, c)
    ensures !HostLess(env, a, c)
  {
    hide HostLess;
    HostLessTotal(env, a, b);
    HostLessTotal(env, b, c);
    HostLessIrreflexive(env, a);
    if HostLess(env, c, b) && HostLess(env, b, a) {
      HostLessTransitive(env, c, b, a);
    }
    if HostLess(env, c, a) {
      HostLessAsymmetric(env, c, a);
    }
  }

  lemma HostLessAsymmetric(env: Env, a: string, b: string)
    requires HostLess(env, a, b)
    ensures !HostLess(env, b, a)
  {
    hide RegistrableDomain;
    StringLessTotal(a, b);
  }

  /** What is best: any host with a label in front of its registrable domain beats
      any without; among such equals a shorter one wins, and among equally long
      ones the smaller. */
  lemma BestHostMeaning(env: Env, hosts: set<string>, best: string, h: string)
    requires BestHost(env, hosts, best) && h in hosts && h != ""
    ensures RegistrableDomain(env, h) != h ==> RegistrableDomain(env, best) != best
    ensures (RegistrableDomain(env, h) == h <==> RegistrableDomain(env, best) == best) ==>
              |best| < |h| || (|best| == |h| && (StringLess(best, h) || best == h))
  {
    hide RegistrableDomain;
  }

  /** `bestHostnameCandidate`. The source indexes the first of the distinct
      non-empty hosts after sorting: `None` is the index out of range, which it
      meets if and only if there are hosts, all of them empty. */
  method BestHostnameCandidate(env: Env, hosts: seq<string>) returns (best: Option<string>)
    ensures best.None? <==> hosts != [] && forall h :: h in hosts ==> h == ""
    ensures best.Some? ==> BestHost(env, Elements(hosts), best.value)
  {
    if |hosts| == 0 {
      NoHosts(env, hosts);
      return Some("");
    }
    hide HostLess, BestHost, SortedBy;
    var unique: set<string> := {};
    var filtered: seq<string> := [];
    for n := 0 to |hosts|
      invariant Elements(filtered) == unique
      invariant forall h :: h in unique <==> h in hosts[..n] && h != ""
    {
      assert hosts[..n + 1] == hosts[..n] + [hosts[n]];
      var host := hosts[n];
      if host == "" || host in unique {
        continue;
      }
      assert Elements(filtered + [host]) == Elements(filtered) + {host};
      unique := unique + {host};
      filtered := filtered + [host];
    }
    assert hosts[..|hosts|] == hosts;
    var less := (a: string, b: string) => HostLess(env, a, b);
    HostOrder(env);
    var sorted := SortSlice(filtered, less);
    NothingSorted(hosts, filtered, sorted);
    if |sorted| == 0 {
      return None;
    }
    FirstIsBest(env, hosts, filtered, sorted);
    best := Some(sorted[0]);
  }

  lemma NoHosts(env: Env, hosts: seq<string>)
    requires hosts == []
    ensures BestHost(env, Elements(hosts), "")
  {
    assert Elements(hosts) == {};
  }

  lemma NothingSorted(hosts: seq<string>, filtered: seq<string>, sorted: seq<string>)
    requires forall h :: h in Elements(filtered) <==> h in hosts && h != ""
    requires multiset(sorted) == multiset(filtered)
    ensures sorted == [] <==> forall h :: h in hosts ==> h == ""
  {
    forall h
      ensures h in sorted <==> h in hosts && h != ""
    {
      SameMultisetSameElements(sorted, filtered, h);
      assert h in filtered <==> h in Elements(filtered);
    }
    assert sorted != [] ==> sorted[0] in sorted;
  }

  lemma FirstIsBest(env: Env, hosts: seq<string>, filtered: seq<string>, sorted: seq<string>)
    requires exists h :: h in hosts && h != ""
    requires forall h :: h in Elements(filtered) <==> h in hosts && h != ""
    requires multiset(sorted) == multiset(filtered)
    requires SortedBy(sorted, (a: string, b: string) => HostLess(env, a, b))
    ensures sorted != [] && BestHost(env, Elements(hosts), sorted[0])
  {
    hide HostLess;
    forall h
      ensures h in sorted <==> h in hosts && h != ""
    {
      SameMultisetSameElements(sorted, filtered, h);
      assert h in filtered <==> h in Elements(filtered);
    }
    var some :| some in hosts && some != "";
    assert some in sorted && some in Elements(hosts);
    forall h | h in Elements(hosts) && h != "" && h != sorted[0]
      ensures HostLess(env, sorted[0], h)
    {
      assert h in sorted;
      var i :| 0 <= i < |sorted| && sorted[i] == h;
      assert !HostLess(env, sorted[i], sorted[0]);
      HostLessTotal(env, sorted[0], h);
    }
  }

  /** One entry of a subject alternative name list, normalised. */
  function SanHost(env: Env, part: string): string {
    var comma := Index(part, ",");
    var trimmed := TrimSpace(if comma != -1 then part[..comma] else part);
    env.normalizeHost(if HasPrefix(trimmed, "*.") then trimmed[2..] else trimmed)
  }

  /** `parseTLSSAN` never indexes an empty list, and picks the best of all the
      entries that normalise to something. */
  method ParseTlsSan(env: Env, raw: string) returns (best: string)
    ensures var parts := Split(raw, "DNS:");
            parts != [] &&
            BestHost(env, set part | part in parts[1..] && SanHost(env, part) != "" :: SanHost(env, part), best)
  {
    hide SanHost, BestHost;
    var parts := Split(raw, "DNS:");
    SplitNotEmpty(raw, "DNS:");
    var rest := parts[1..];
    var candidates: seq<string> := [];
    for n := 0 to |rest|
      invariant Elements(candidates) ==
                set part | part in rest[..n] && SanHost(env, part) != "" :: SanHost(env, part)
      invariant forall h :: h in candidates ==> h != ""
    {
      assert rest[..n + 1] == rest[..n] + [rest[n]];
      var host := SanHost(env, rest[n]);
      if host != "" {
        candidates := candidates + [host];
        assert Elements(candidates) == Elements(candidates[..|candidates| - 1]) + {host};
      }
    }
    assert rest[..|rest|] == rest;
    assert candidates != [] ==> candidates[0] in candidates;
    var found := BestHostnameCandidate(env, candidates);
    best := found.value;
  }

  lemma SplitNotEmpty(s: string, sep: string)
    requires sep != ""
    ensures Split(s, sep) != []
  {
  }

  /** An entry of a printed list of alternative names. */
  datatype AltName = AltName(host: string, wildcard: bool) {
    predicate Renderable() {
      && IsWord(host) && ',' !in host && ':' !in host && !HasPrefix(host, "*.")
    }

    function Text(): string {
      if wildcard then "*." + host else host
    }
  }

  /** The text behind each `DNS:`. */
  function Entries(names: seq<AltName>, end: string): seq<string> {
    if names == [] then []
    else if |names| == 1 then [names[0].Text() + end]
    else [names[0].Text() + ", "] + Entries(names[1..], end)
  }

  function RenderSan(entries: seq<string>): string {
    if entries == [] then "" else "DNS:" + entries[0] + RenderSan(entries[1..])
  }

  lemma AltNameText(n: AltName)
    requires n.Renderable()
    ensures IsWord(n.Text()) && ',' !in n.Text() && ':' !in n.Text()
    ensures (if HasPrefix(n.Text(), "*.") then n.Text()[2..] else n.Text()) == n.host
  {
  }

  lemma TrimEnd(w: string)
    requires IsWord(w)
    ensures TrimSpace(w + "\n") == w
  {
    assert (w + "\n")[0] == w[0];
    assert (w + "\n")[..|w|] == w;
    WordIsTrimmed(w);
    assert TrimLeft(w + "\n") == w + "\n";
    assert TrimRight(w + "\n") == TrimRight(w);
  }

  /** An entry stands for its host, without the wildcard. */
  lemma EntryHost(env: Env, n: AltName, tail: string)
    requires n.Renderable() && tail in {"", "\n", ", "}
    ensures SanHost(env, n.Text() + tail) == env.normalizeHost(n.host)
    ensures ':' !in n.Text() + tail
  {
    hide TrimSpace, HasPrefix, AltName.Text, Index, AltName.Renderable, IsWord;
    AltNameText(n);
    var text := n.Text();
    WordIsTrimmed(text);
    if tail == ", " {
      AbsentWithoutChar(text, ",", 0);
      FirstOccurrence(text, ",", " ");
      assert text + ", " == text + "," + " ";
      assert (text + ", ")[..|text|] == text;
    } else {
      AbsentWithoutChar(text + tail, ",", 0);
      AbsentIndex(text + tail, ",");
      TrimEnd(text);
      assert text + "" == text;
    }
  }

  lemma SplitAbsent(s: string, sep: string)
    requires sep != "" && Absent(s, sep)
    ensures Split(s, sep) == [s]
  {
    AbsentIndex(s, sep);
  }

  lemma {:induction false} SplitSan(before: string, entries: seq<string>)
    requires Absent(before, "DNS:") && forall e :: e in entries ==> ':' !in e
    ensures Split(before + RenderSan(entries), "DNS:") == [before] + entries
    decreases |entries|
  {
    hide Split, Absent;
    if entries == [] {
      assert before + "" == before;
      SplitAbsent(before, "DNS:");
    } else {
      var e, rest := entries[0], entries[1..];
      assert e in entries;
      AbsentWithoutChar(e, "DNS:", 3);
      SplitAtFirst(before, "DNS:", e + RenderSan(rest));
      assert before + RenderSan(entries) == before + "DNS:" + (e + RenderSan(rest));
      SplitSan(e, rest);
      assert [e] + rest == entries;
    }
  }

  lemma {:induction false} EntryHosts(env: Env, names: seq<AltName>, end: string, h: string)
    requires (forall n :: n in names ==> n.Renderable()) && (end == "" || end == "\n")
    ensures forall e :: e in Entries(names, end) ==> ':' !in e
    ensures (exists e :: e in Entries(names, end) && SanHost(env, e) == h) <==>
              exists n :: n in names && env.normalizeHost(n.host) == h
  {
    hide SanHost, AltName.Renderable, AltName.Text;
    if names != [] {
      var rest := names[1..];
      var tail := if |names| == 1 then end else ", ";
      var first := names[0].Text() + tail;
      assert names == [names[0]] + rest;
      EntryHost(env, names[0], tail);
      EntryHosts(env, rest, end, h);
      assert Entries(names, end) == [first] + Entries(rest, end);
      assert first in Entries(names, end) && names[0] in names;
    }
  }

  /** Round trip for a printed list of alternative names: the candidates are the
      normalised hosts, wildcards stripped. */
  lemma RenderedSanCandidates(env: Env, before: string, names: seq<AltName>, end: string, h: string)
    requires Absent(before, "DNS:") && (forall n :: n in names ==> n.Renderable()) && (end == "" || end == "\n")
    ensures var parts := Split(before + RenderSan(Entries(names, end)), "DNS:");
            && parts != []
            && ((exists part :: part in parts[1..] && SanHost(env, part) == h) <==>
                  exists n :: n in names && env.normalizeHost(n.host) == h)
  {
    hide Split, SanHost, AltName.Renderable, Entries, RenderSan;
    EntryHosts(env, names, end, h);
    SplitSan(before, Entries(names, end));
    assert ([before] + Entries(names, end))[1..] == Entries(names, end);
  }
}
