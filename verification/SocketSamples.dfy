/** Reading per-socket byte counters from the output of `ss`. */
module SocketSamples {
  import opened Basics
  import opened Hosts
  import opened Decimal
  import opened Keys
  import opened Text
  import opened ServiceModel
  import opened Sockets

  const RECEIVED := "bytes_received:"
  const ACKED := "bytes_acked:"

  function LastIndexOfChar(s: string, c: char): (i: int)
    ensures -1 <= i < |s|
    ensures i >= 0 ==> s[i] == c && forall j :: i < j < |s| ==> s[j] != c
    ensures i == -1 <==> c !in s
  {
    if s == "" then -1
    else if s[|s| - 1] == c then |s| - 1
    else
      assert s == s[..|s| - 1] + [s[|s| - 1]];
      LastIndexOfChar(s[..|s| - 1], c)
  }

  /** Surrounding brackets and a zone are not part of a host. */
  function BareHost(text: string): string {
    var host := TrimBrackets(TrimSpace(text));
    var zone := Index(host, "%");
    if zone != -1 then host[..zone] else host
  }

  /** `parseLinuxSocketEndpoint` */
  function ParseEndpoint(raw: string): Option<(string, Port)> {
    var value := TrimSpace(raw);
    if value == "" || value == "*:*" then None
    else
      var i := LastIndexOfChar(value, ':');
      if i == -1 || i == |value| - 1 || !AllDigits(value[i + 1..]) then None
      else
        var port := ParseUint(value[i + 1..], TWO_TO_THE_32);
        var host := BareHost(value[..i]);
        if port.None? || host == "" || host == "*" then None else Some((host, port.value))
  }

  /** `findLinuxSocketCounter` */
  function FindCounter(line: string, prefix: string): nat {
    var start := Index(line, prefix);
    if start == -1 then 0
    else
      var value := line[start + |prefix|..];
      var parsed := ParseUint(TrimSpace(value[..IndexOfChar(value, {' '})]), TWO_TO_THE_64);
      if parsed.None? then 0 else parsed.value
  }

  /** A socket of a process: the seven fields of a key. */
  datatype Socket = Socket(user: SocketUser, ends: Ends) {
    function Key(): string {
      SocketKey(user.pid, user.fd, user.socketType, ends.localHost, ends.localPort, ends.remoteHost, ends.remotePort)
    }
  }

  datatype Report = Report(socket: Socket, sample: Sample)

  function ParseEnds(env: Env, fields: seq<string>): Option<Ends> {
    if |fields| < 5 then None
    else
      var local, remote := ParseEndpoint(fields[3]), ParseEndpoint(fields[4]);
      if local.None? || remote.None? || env.normalizeHost(remote.value.0) == "" then None
      else Some(Ends(local.value.0, local.value.1, env.normalizeHost(remote.value.0), remote.value.1))
  }

  function Owned(ends: Ends, users: seq<SocketUser>, sample: Sample): seq<Report> {
    seq(|users|, i requires 0 <= i < |users| => Report(Socket(users[i], ends), sample))
  }

  /** What one line reports: its counters, for each owner of the socket. */
  function LineReports(env: Env, raw: string): seq<Report> {
    var line := TrimSpace(raw);
    var ends := ParseEnds(env, Fields(line));
    var sample := Sample(FindCounter(line, RECEIVED), FindCounter(line, ACKED));
    if line == "" || ends.None? || sample == Sample(0, 0) then []
    else Owned(ends.value, ParseUsers(line), sample)
  }

  function Reports(env: Env, lines: seq<string>): seq<Report> {
    if lines == [] then []
    else Reports(env, lines[..|lines| - 1]) + LineReports(env, lines[|lines| - 1])
  }

  function Keyed(reports: seq<Report>): map<string, Sample> {
    if reports == [] then map[]
    else
      var last := reports[|reports| - 1];
      Keyed(reports[..|reports| - 1])[last.socket.Key() := last.sample]
  }

  lemma KeyedAppend(reports: seq<Report>, r: Report)
    ensures Keyed(reports + [r]) == Keyed(reports)[r.socket.Key() := r.sample]
  {
    assert (reports + [r])[..|reports|] == reports;
  }

  /** The inner loop of `parseLinuxSocketByteSamples`, over the owners. */
  method AddOwners(samples: map<string, Sample>, ends: Ends, users: seq<SocketUser>, sample: Sample,
                   ghost reports: seq<Report>)
    returns (r: map<string, Sample>)
    requires samples == Keyed(reports)
    ensures r == Keyed(reports + Owned(ends, users, sample))
  {
    hide Keyed, Socket.Key;
    r := samples;
    var owned := Owned(ends, users, sample);
    assert reports + owned[..0] == reports;
    for n := 0 to |users|
      invariant r == Keyed(reports + owned[..n])
    {
      assert reports + owned[..n + 1] == (reports + owned[..n]) + [owned[n]];
      KeyedAppend(reports + owned[..n], owned[n]);
      var key := Socket(users[n], ends).Key();
      r := r[key := sample];
    }
    assert owned[..|users|] == owned;
  }

  /** One iteration of the outer loop. */
  method AddLine(env: Env, samples: map<string, Sample>, raw: string, ghost reports: seq<Report>)
    returns (r: map<string, Sample>)
    requires samples == Keyed(reports)
    ensures r == Keyed(reports + LineReports(env, raw))
  {
    hide Keyed, TrimSpace, Fields, ParseEndpoint, FindCounter, ParseUsers, Owned;
    assert reports + [] == reports;
    var line := TrimSpace(raw);
    if line == "" {
      return samples;
    }
    var fields := Fields(line);
    if |fields| < 5 {
      return samples;
    }
    var local := ParseEndpoint(fields[3]);
    if local.None? {
      return samples;
    }
    var remote := ParseEndpoint(fields[4]);
    if remote.None? {
      return samples;
    }
    var host := env.normalizeHost(remote.value.0);
    if host == "" {
      return samples;
    }
    var sample := Sample(FindCounter(line, RECEIVED), FindCounter(line, ACKED));
    if sample.rx == 0 && sample.tx == 0 {
      return samples;
    }
    var users := ParseSocketUsers(line);
    r := AddOwners(samples, Ends(local.value.0, local.value.1, host, remote.value.1), users, sample, reports);
  }

  /** `parseLinuxSocketByteSamples` */
  method ParseSocketByteSamples(env: Env, raw: string) returns (samples: map<string, Sample>)
    ensures samples == Keyed(Reports(env, Split(raw, "\n")))
  {
    hide LineReports, Keyed;
    var lines := Split(raw, "\n");
    NothingKeyed();
    samples := map[];
    for n := 0 to |lines|
      invariant samples == Keyed(Reports(env, lines[..n]))
    {
      assert lines[..n + 1][..n] == lines[..n];
      samples := AddLine(env, samples, lines[n], Reports(env, lines[..n]));
    }
    assert lines[..|lines|] == lines;
  }

  lemma NothingKeyed()
    ensures Keyed([]) == map[]
  {
  }

  // ---- keys stand for sockets ----

  lemma SameSocket(s: Socket, t: Socket)
    requires Apart(s.ends.localHost, t.ends.localHost) && s.Key() == t.Key()
    ensures s == t
  {
    hide SocketKey, Apart;
    SocketKeySplits(s.user.pid, s.user.fd, s.user.socketType, s.ends.localHost, s.ends.localPort,
                    s.ends.remoteHost, s.ends.remotePort,
                    t.user.pid, t.user.fd, t.user.socketType, t.ends.localHost, t.ends.localPort,
                    t.ends.remoteHost, t.ends.remotePort);
    ApartFlows(s.user.socketType, s.ends, t.user.socketType, t.ends);
  }

  ghost predicate LastAbout(reports: seq<Report>, s: Socket, i: nat) {
    && i < |reports| && reports[i].socket == s
    && forall j :: i < j < |reports| ==> reports[j].socket != s
  }

  /** The string-keyed map answers for sockets: a socket has a sample exactly if
      some report is about it, and then it is the sample of the last such report. */
  lemma {:induction false} SampleOfSocket(reports: seq<Report>, s: Socket)
    requires forall r :: r in reports ==> Apart(r.socket.ends.localHost, s.ends.localHost)
    ensures s.Key() in Keyed(reports) <==> exists i: nat :: LastAbout(reports, s, i)
    ensures forall i: nat :: LastAbout(reports, s, i) ==>
              s.Key() in Keyed(reports) && Keyed(reports)[s.Key()] == reports[i].sample
  {
    hide Socket.Key, Apart;
    if reports != [] {
      hide LastAbout;
      var n := |reports| - 1;
      var last := reports[n];
      SampleOfSocket(reports[..n], s);
      assert last in reports;
      if last.socket == s {
        LastReportDecides(reports, s);
        assert LastAbout(reports, s, n);
      } else {
        LastReportAside(reports, s);
        if i: nat :| LastAbout(reports[..n], s, i) {
          assert LastAbout(reports, s, i);
        }
        if last.socket.Key() == s.Key() {
          SameSocket(last.socket, s);
        }
      }
    }
  }

  lemma LastReportDecides(reports: seq<Report>, s: Socket)
    requires reports != [] && reports[|reports| - 1].socket == s
    ensures forall i: nat :: LastAbout(reports, s, i) <==> i == |reports| - 1
  {
  }

  lemma LastReportAside(reports: seq<Report>, s: Socket)
    requires reports != [] && reports[|reports| - 1].socket != s
    ensures forall i: nat :: LastAbout(reports, s, i) <==> LastAbout(reports[..|reports| - 1], s, i)
    ensures forall i: nat :: LastAbout(reports, s, i) ==> i < |reports| - 1
  {
  }

  // ---- rendering ----

  /** An address as `ss` prints it, with the zone inside the brackets, if any. */
  datatype Endpoint = Endpoint(host: string, zone: string, bracketed: bool, port: Port) {
    function Zone(): string {
      if zone == "" then "" else "%" + zone
    }

    function Address(): string {
      if bracketed then "[" + host + Zone() + "]" else host + Zone()
    }

    function Text(): string {
      Address() + ":" + FormatUint(port)
    }

    predicate Renderable() {
      && IsWord(host) && host != "*" && '%' !in host && '[' !in host && ']' !in host
      && (zone != "" ==> IsWord(zone) && '[' !in zone && ']' !in zone)
    }
  }

  lemma {:induction false} LastIndexOfCharIs(a: string, c: char, b: string)
    requires c !in b
    ensures LastIndexOfChar(a + [c] + b, c) == |a|
  {
    var s := a + [c] + b;
    if b == "" {
      assert s[|s| - 1] == c;
    } else {
      var n := |b| - 1;
      assert b == b[..n] + [b[n]];
      assert s[..|s| - 1] == a + [c] + b[..n] && s[|s| - 1] == b[n];
      LastIndexOfCharIs(a, c, b[..n]);
    }
  }

  lemma ZonedHost(e: Endpoint)
    requires e.Renderable()
    ensures var inner := e.host + e.Zone();
            IsWord(inner) && '[' !in inner && ']' !in inner
  {
  }

  lemma BracketedWord(s: string)
    requires IsWord(s)
    ensures IsWord("[" + s + "]")
  {
    assert forall i :: 0 <= i < |s| + 2 ==> ("[" + s + "]")[i] in s || IsBracket(("[" + s + "]")[i]);
  }

  lemma AddressIsWord(e: Endpoint)
    requires e.Renderable()
    ensures IsWord(e.Address()) && TrimBrackets(TrimSpace(e.Address())) == e.host + e.Zone()
  {
    hide TrimSpace, TrimBrackets, Endpoint.Zone, Endpoint.Renderable;
    ZonedHost(e);
    assert "[" + e.host + e.Zone() + "]" == "[" + (e.host + e.Zone()) + "]";
    BracketedWord(e.host + e.Zone());
    WordIsTrimmed(e.Address());
    WithoutBrackets(e.host + e.Zone());
  }

  lemma HostOfAddress(e: Endpoint)
    requires e.Renderable()
    ensures BareHost(e.Address()) == e.host
  {
    hide Index, TrimSpace, TrimBrackets, Endpoint.Address, Absent, IsWord;
    AddressIsWord(e);
    if e.zone == "" {
      assert e.host + e.Zone() == e.host;
      AbsentWithoutChar(e.host, "%", 0);
    } else {
      AbsentWithoutChar(e.host, "%", 0);
      FirstOccurrence(e.host, "%", e.zone);
      var inner := e.host + e.Zone();
      assert inner == e.host + "%" + e.zone;
      assert inner[..|e.host|] == e.host;
    }
  }

  lemma TextIsWord(e: Endpoint)
    requires e.Renderable()
    ensures IsWord(e.Text()) && TrimSpace(e.Text()) == e.Text() && e.host != ""
  {
    hide FormatUint, Endpoint.Address, TrimSpace;
    AddressIsWord(e);
    var digits := FormatUint(e.port);
    assert e.Text() == e.Address() + (":" + digits);
    assert forall i :: 0 <= i < |digits| ==> !IsSpace(digits[i]);
    WordIsTrimmed(e.Text());
  }

  /** Round trip for one endpoint. */
  lemma RenderedEndpointParses(e: Endpoint)
    requires e.Renderable()
    ensures IsWord(e.Text()) && ParseEndpoint(e.Text()) == Some((e.host, e.port))
  {
    hide TrimSpace, FormatUint, BareHost, ParseUint, IsWord, Endpoint.Address;
    var address, digits := e.Address(), FormatUint(e.port);
    TextIsWord(e);
    HostOfAddress(e);
    assert e.Text() == address + [':'] + digits;
    LastIndexOfCharIs(address, ':', digits);
    assert e.Text()[..|address|] == address && e.Text()[|address| + 1..] == digits;
    assert e.Text()[|e.Text()| - 1] == digits[|digits| - 1];
    ParseUintOfFormat(e.port, TWO_TO_THE_32);
  }

  /** A wildcard is no endpoint, whatever its port, and neither is a text without a
      port. */
  lemma NoEndpoint(port: string, host: string)
    requires IsWord(port) && ':' !in port
    requires IsWord(host) && ':' !in host
    ensures ParseEndpoint("*:" + port) == None && ParseEndpoint(host) == None && ParseEndpoint(host + ":") == None
  {
    hide TrimSpace, ParseUint, BareHost, Index;
    var wildcard := "*:" + port;
    assert wildcard == "*" + [':'] + port;
    LastIndexOfCharIs("*", ':', port);
    WordIsTrimmed(wildcard);
    assert wildcard[..1] == "*";
    NoHostInWildcard();
    WordIsTrimmed(host);
    assert host + ":" == host + [':'] + "";
    LastIndexOfCharIs(host, ':', "");
    WordIsTrimmed(host + ":");
  }

  lemma NoHostInWildcard()
    ensures BareHost("*") == "*"
  {
    hide Index;
    AbsentWithoutChar("*", "%", 0);
    AbsentIndex("*", "%");
  }

  /** The line shows this value behind the first occurrence of the prefix ... */
  ghost predicate Prints(line: string, prefix: string, n: nat) {
    exists before, after ::
      && Absent(before, prefix)
      && (after == "" || after[0] == ' ')
      && line == before + prefix + (FormatUint(n) + after)
  }

  /** ... or does not mention it, which stands for zero. */
  ghost predicate Shows(line: string, prefix: string, n: nat) {
    Prints(line, prefix, n) || (n == 0 && Absent(line, prefix))
  }

  /** A word ends at the space behind it. */
  lemma WordEnds(word: string, after: string)
    requires ' ' !in word && (after == "" || after[0] == ' ')
    ensures (word + after)[..IndexOfChar(word + after, {' '})] == word
  {
    hide IndexOfChar;
    if after == "" {
      assert word + after == word;
      var end := IndexOfChar(word, {' '});
      assert word[..|word|] == word;
    } else {
      assert word + after == word + [' '] + after[1..];
      IndexOfCharIs(word, ' ', after[1..], {' '});
    }
  }

  lemma NumberRead(n: nat)
    requires n < TWO_TO_THE_64
    ensures ' ' !in FormatUint(n) && ParseUint(TrimSpace(FormatUint(n)), TWO_TO_THE_64) == Some(n)
  {
    hide FormatUint, ParseUint, TrimSpace;
    var digits := FormatUint(n);
    assert forall i :: 0 <= i < |digits| ==> !IsSpace(digits[i]);
    WordIsTrimmed(digits);
    ParseUintOfFormat(n, TWO_TO_THE_64);
  }

  lemma PrintedCounterFound(line: string, prefix: string, n: nat)
    requires prefix != "" && forall i :: 0 < i < |prefix| ==> prefix[i] != prefix[0]
    requires Prints(line, prefix, n) && n < TWO_TO_THE_64
    ensures FindCounter(line, prefix) == n
  {
    hide FormatUint, ParseUint, TrimSpace, Index, IndexOfChar;
    var before, after :|
      && Absent(before, prefix)
      && (after == "" || after[0] == ' ')
      && line == before + prefix + (FormatUint(n) + after);
    FirstOccurrence(before, prefix, FormatUint(n) + after);
    assert line[|before| + |prefix|..] == FormatUint(n) + after;
    NumberRead(n);
    WordEnds(FormatUint(n), after);
  }

  lemma CounterFound(line: string, prefix: string, n: nat)
    requires prefix != "" && forall i :: 0 < i < |prefix| ==> prefix[i] != prefix[0]
    requires Shows(line, prefix, n) && n < TWO_TO_THE_64
    ensures FindCounter(line, prefix) == n
  {
    hide Prints, Absent;
    if Prints(line, prefix, n) {
      PrintedCounterFound(line, prefix, n);
    } else {
      AbsentIndex(line, prefix);
    }
  }

  lemma CountersFound(line: string, sample: Sample)
    requires sample.rx < TWO_TO_THE_64 && sample.tx < TWO_TO_THE_64
    requires Shows(line, RECEIVED, sample.rx) && Shows(line, ACKED, sample.tx)
    ensures Sample(FindCounter(line, RECEIVED), FindCounter(line, ACKED)) == sample
  {
    hide Shows, FindCounter;
    CounterFound(line, RECEIVED, sample.rx);
    CounterFound(line, ACKED, sample.tx);
  }

  /** One line: state, queue lengths, endpoints, the owners if they are known, and
      the details, the byte counters among them, if there are any. */
  datatype Entry = Entry(state: string, recvQ: string, sendQ: string, local: Endpoint, remote: Endpoint,
                         owners: Option<seq<Owner>>, details: string)
  {
    function Columns(): seq<string> {
      [state, recvQ, sendQ, local.Text(), remote.Text()]
    }

    function Details(): string {
      if details == "" then "" else " " + details
    }

    function Text(): string {
      if owners.None? then Join(Columns()) + Details()
      else Join(Columns()) + " " + MARKER + (Render(owners.value) + (")" + Details()))
    }

    function Owners(): seq<Owner> {
      if owners.None? then [] else owners.value
    }

    ghost predicate Renderable() {
      && IsWord(state) && IsWord(recvQ) && IsWord(sendQ) && local.Renderable() && remote.Renderable()
      && AllRenderable(Owners())
      && Absent(if owners.None? then Text() else Join(Columns()) + " ", MARKER)
      && (details != "" ==> !IsSpace(details[|details| - 1]))
    }
  }

  /** Nothing is reported if both counters are zero or the remote host has no
      usable name. */
  predicate Reportable(env: Env, e: Entry, sample: Sample) {
    env.normalizeHost(e.remote.host) != "" && sample != Sample(0, 0)
  }

  /** The counters, reported for each of these users. */
  function Reported(env: Env, e: Entry, users: seq<SocketUser>, sample: Sample): seq<Report> {
    if !Reportable(env, e, sample) then []
    else Owned(Ends(e.local.host, e.local.port, env.normalizeHost(e.remote.host), e.remote.port), users, sample)
  }

  /** What a reader of `ss` should make of an entry ... */
  function Expected(env: Env, e: Entry, sample: Sample): seq<Report> {
    Reported(env, e, UsersOf(e.Owners()), sample)
  }

  /** ... and what the names of the owners make the parser believe. */
  function Believed(env: Env, e: Entry, sample: Sample): seq<Report> {
    Reported(env, e, ReadBack(e.Owners()), sample)
  }

  lemma ColumnsAreWords(e: Entry)
    requires e.Renderable()
    ensures |e.Columns()| == 5 && forall i :: 0 <= i < 5 ==> IsWord(e.Columns()[i])
    ensures ParseEndpoint(e.Columns()[3]) == Some((e.local.host, e.local.port))
    ensures ParseEndpoint(e.Columns()[4]) == Some((e.remote.host, e.remote.port))
  {
    hide ParseEndpoint, Endpoint.Text, Endpoint.Renderable, Absent;
    RenderedEndpointParses(e.local);
    RenderedEndpointParses(e.remote);
  }

  /** The columns are the first fields, and the line needs no trimming. */
  lemma FieldsOfEntry(e: Entry)
    requires e.Renderable()
    ensures e.Columns() <= Fields(e.Text())
    ensures e.Text() != "" && TrimSpace(e.Text()) == e.Text()
  {
    hide Fields, TrimSpace, ParseEndpoint, Endpoint.Text, Endpoint.Renderable, Join, AllRenderable;
    hide Absent, Entry.Columns, Render;
    ColumnsAreWords(e);
    var columns := e.Columns();
    JoinEnds(columns);
    if e.owners.None? {
      if e.details == "" {
        FieldsOfJoin(columns);
        assert e.Text() == Join(columns);
      } else {
        FieldsOfPrefix(columns, e.details);
        assert e.Text() == Join(columns) + " " + e.details;
      }
    } else {
      var rest := MARKER + (Render(e.owners.value) + (")" + e.Details()));
      FieldsOfPrefix(columns, rest);
      assert e.Text() == Join(columns) + " " + rest;
    }
    TrimmedAlready(e.Text());
  }

  lemma EndsOfEntry(env: Env, e: Entry)
    requires e.Renderable()
    ensures var host := env.normalizeHost(e.remote.host);
            ParseEnds(env, Fields(e.Text())) ==
            if host == "" then None else Some(Ends(e.local.host, e.local.port, host, e.remote.port))
  {
    hide Fields, ParseEndpoint, Entry.Text, Entry.Renderable;
    ColumnsAreWords(e);
    FieldsOfEntry(e);
    var fields := Fields(e.Text());
    assert fields[..5] == e.Columns();
    assert fields[3] == e.Columns()[3] && fields[4] == e.Columns()[4];
  }

  lemma TrimmedAlready(s: string)
    requires s != "" && !IsSpace(s[0]) && !IsSpace(s[|s| - 1])
    ensures TrimSpace(s) == s
  {
  }

  lemma UsersOfEntry(e: Entry)
    requires e.Renderable()
    ensures ParseUsers(e.Text()) == ReadBack(e.Owners())
  {
    hide ParsePieces, Split, Render, Join, AllRenderable, Absent, Entry.Columns, Endpoint.Renderable;
    if e.owners.Some? {
      RenderedOwnersReadBack(Join(e.Columns()) + " ", e.owners.value, e.Details());
    } else {
      AbsentIndex(e.Text(), MARKER);
    }
  }

  /** What one rendered line reports, whatever the names look like. */
  lemma EntryReports(env: Env, e: Entry, sample: Sample)
    requires e.Renderable() && sample.rx < TWO_TO_THE_64 && sample.tx < TWO_TO_THE_64
    requires Shows(e.Text(), RECEIVED, sample.rx) && Shows(e.Text(), ACKED, sample.tx)
    ensures LineReports(env, e.Text()) == Believed(env, e, sample)
  {
    hide Fields, TrimSpace, ParseEnds, FindCounter, ParseUsers, ReadBack, Shows, Owned;
    hide Entry.Text, Entry.Owners, Entry.Renderable;
    FieldsOfEntry(e);
    EndsOfEntry(env, e);
    UsersOfEntry(e);
    CountersFound(e.Text(), sample);
  }

  lemma OwnedInjective(ends: Ends, p: seq<SocketUser>, q: seq<SocketUser>, sample: Sample)
    requires Owned(ends, p, sample) == Owned(ends, q, sample)
    ensures p == q
  {
    assert |p| == |Owned(ends, p, sample)| == |q|;
    forall i | 0 <= i < |p|
      ensures p[i] == q[i]
    {
      assert Owned(ends, p, sample)[i].socket.user == Owned(ends, q, sample)[i].socket.user;
    }
  }

  lemma BelievedIsExpected(env: Env, e: Entry, sample: Sample)
    ensures Believed(env, e, sample) == Expected(env, e, sample) <==>
            !Reportable(env, e, sample) || ReadBack(e.Owners()) == UsersOf(e.Owners())
  {
    hide Owned, ReadBack, Entry.Owners;
    if Reportable(env, e, sample) && Believed(env, e, sample) == Expected(env, e, sample) {
      OwnedInjective(Ends(e.local.host, e.local.port, env.normalizeHost(e.remote.host), e.remote.port),
                     ReadBack(e.Owners()), UsersOf(e.Owners()), sample);
    }
  }

  /** Round trip for one line: it reports its counters for exactly its owners, if
      there is anything to report, under the conditions on names under which the
      owners read back. */
  lemma RenderedEntryReports(env: Env, e: Entry, sample: Sample)
    requires e.Renderable() && sample.rx < TWO_TO_THE_64 && sample.tx < TWO_TO_THE_64
    requires Shows(e.Text(), RECEIVED, sample.rx) && Shows(e.Text(), ACKED, sample.tx)
    ensures var faithful := LineReports(env, e.Text()) == Expected(env, e, sample);
            && (Uncut(e.Owners()) ==> (faithful <==> !Reportable(env, e, sample) || Quiet(e.Owners())))
            && (Quiet(e.Owners()) ==> (faithful <==> !Reportable(env, e, sample) || Uncut(e.Owners())))
  {
    hide LineReports, Expected, Believed, Reportable, ReadBack, Uncut, Quiet;
    hide Entry.Text, Entry.Owners, Entry.Renderable, Shows;
    EntryReports(env, e, sample);
    BelievedIsExpected(env, e, sample);
    OwnersReadBack(e.Owners());
  }

  function Lines(entries: seq<Entry>): string {
    if entries == [] then "" else entries[0].Text() + "\n" + Lines(entries[1..])
  }

  function AllExpected(env: Env, entries: seq<Entry>, counters: seq<Sample>): seq<Report>
    requires |entries| == |counters|
  {
    if entries == [] then []
    else Expected(env, entries[0], counters[0]) + AllExpected(env, entries[1..], counters[1..])
  }

  function AllBelieved(env: Env, entries: seq<Entry>, counters: seq<Sample>): seq<Report>
    requires |entries| == |counters|
  {
    if entries == [] then []
    else Believed(env, entries[0], counters[0]) + AllBelieved(env, entries[1..], counters[1..])
  }

  ghost predicate AllShown(entries: seq<Entry>, counters: seq<Sample>)
    requires |entries| == |counters|
  {
    forall i :: 0 <= i < |entries| ==>
      && entries[i].Renderable() && '\n' !in entries[i].Text()
      && counters[i].rx < TWO_TO_THE_64 && counters[i].tx < TWO_TO_THE_64
      && Shows(entries[i].Text(), RECEIVED, counters[i].rx)
      && Shows(entries[i].Text(), ACKED, counters[i].tx)
  }

  lemma {:induction false} ReportsCons(env: Env, line: string, lines: seq<string>)
    ensures Reports(env, [line] + lines) == LineReports(env, line) + Reports(env, lines)
  {
    hide LineReports;
    if lines == [] {
      assert [line] + lines == [] + [line];
      assert ([line] + lines)[..0] == [];
    } else {
      var n := |lines| - 1;
      assert ([line] + lines)[..n + 1] == [line] + lines[..n];
      ReportsCons(env, line, lines[..n]);
    }
  }

  lemma NothingReported(env: Env)
    ensures Reports(env, Split("", "\n")) == []
  {
    AbsentWithoutChar("", "\n", 0);
    assert Split("", "\n") == [""];
    assert [""][..0] == [];
    assert LineReports(env, "") == [];
  }

  /** What the whole output reports, whatever the names look like. */
  lemma {:induction false} OutputReports(env: Env, entries: seq<Entry>, counters: seq<Sample>)
    requires |entries| == |counters| && AllShown(entries, counters)
    ensures Reports(env, Split(Lines(entries), "\n")) == AllBelieved(env, entries, counters)
  {
    hide LineReports, Split, Believed, Entry.Text, Entry.Renderable, Shows, Reports;
    if entries == [] {
      NothingReported(env);
    } else {
      var line, rest := entries[0].Text(), Lines(entries[1..]);
      OutputReports(env, entries[1..], counters[1..]);
      AbsentWithoutChar(line, "\n", 0);
      SplitAtFirst(line, "\n", rest);
      ReportsCons(env, line, Split(rest, "\n"));
      EntryReports(env, entries[0], counters[0]);
    }
  }

  predicate AllUncut(entries: seq<Entry>) {
    forall i :: 0 <= i < |entries| ==> Uncut(entries[i].Owners())
  }

  /** No name is taken for an owner in any line that has something to report. */
  predicate AllQuiet(env: Env, entries: seq<Entry>, counters: seq<Sample>)
    requires |entries| == |counters|
  {
    forall i :: 0 <= i < |entries| ==> !Reportable(env, entries[i], counters[i]) || Quiet(entries[i].Owners())
  }

  /** A line never reports less than it should, as long as no name looks like the
      end of the list. */
  lemma BelievedLength(env: Env, e: Entry, sample: Sample)
    requires Uncut(e.Owners())
    ensures |Believed(env, e, sample)| >= |Expected(env, e, sample)|
    ensures |Believed(env, e, sample)| == |Expected(env, e, sample)| <==>
            !Reportable(env, e, sample) || Quiet(e.Owners())
  {
    hide ReadBack, Uncut, Quiet, Entry.Owners;
    UncutLength(e.Owners());
  }

  lemma {:induction false} AllBelievedLength(env: Env, entries: seq<Entry>, counters: seq<Sample>)
    requires |entries| == |counters| && AllUncut(entries)
    ensures |AllBelieved(env, entries, counters)| >= |AllExpected(env, entries, counters)|
    ensures |AllBelieved(env, entries, counters)| == |AllExpected(env, entries, counters)| <==>
            AllQuiet(env, entries, counters)
  {
    hide Believed, Expected, Reportable, Uncut, Quiet, Entry.Owners;
    if entries != [] {
      AllBelievedLength(env, entries[1..], counters[1..]);
      BelievedLength(env, entries[0], counters[0]);
      QuietCons(env, entries, counters);
    }
  }

  lemma QuietCons(env: Env, entries: seq<Entry>, counters: seq<Sample>)
    requires |entries| == |counters| && entries != []
    ensures AllQuiet(env, entries, counters) <==>
            (!Reportable(env, entries[0], counters[0]) || Quiet(entries[0].Owners())) &&
            AllQuiet(env, entries[1..], counters[1..])
  {
    hide Reportable, Quiet, Entry.Owners;
    assert entries == [entries[0]] + entries[1..] && counters == [counters[0]] + counters[1..];
  }

  lemma {:induction false} AllQuietBelieved(env: Env, entries: seq<Entry>, counters: seq<Sample>)
    requires |entries| == |counters| && AllUncut(entries) && AllQuiet(env, entries, counters)
    ensures AllBelieved(env, entries, counters) == AllExpected(env, entries, counters)
  {
    hide Believed, Expected, Reportable, ReadBack, Uncut, Quiet, Entry.Owners;
    if entries != [] {
      AllQuietBelieved(env, entries[1..], counters[1..]);
      BelievedIsExpected(env, entries[0], counters[0]);
      OwnersReadBack(entries[0].Owners());
    }
  }

  /** Round trip for the whole output: if no name looks like the end of its list,
      the reports are the expected ones if and only if no name is taken for an
      owner. */
  lemma RenderedOutputReports(env: Env, entries: seq<Entry>, counters: seq<Sample>)
    requires |entries| == |counters| && AllShown(entries, counters) && AllUncut(entries)
    ensures Reports(env, Split(Lines(entries), "\n")) == AllExpected(env, entries, counters) <==>
            AllQuiet(env, entries, counters)
  {
    hide Reports, Split, AllExpected, AllBelieved, AllShown, AllUncut, AllQuiet;
    OutputReports(env, entries, counters);
    AllBelievedLength(env, entries, counters);
    if AllQuiet(env, entries, counters) {
      AllQuietBelieved(env, entries, counters);
    }
  }
}
