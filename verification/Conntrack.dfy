/** Reading UDP flows from a connection-tracking line. */
module Conntrack {
  import opened Basics
  import opened Decimal
  import opened Keys
  import opened Text
  import opened ServiceModel

  /** `netip.ParseAddr(...).String()` and `strings.ToLower`, uninterpreted. */
  datatype Addresses = Addresses(canonical: string -> Option<string>, lower: string -> string)

  /** `normalizeLinuxConntrackHost` */
  function NormalizeHost(addrs: Addresses, host: string): string {
    var trimmed := TrimSpace(TrimBrackets(host));
    if trimmed == "" then ""
    else
      var zone := Index(trimmed, "%");
      var bare := if zone != -1 then trimmed[..zone] else trimmed;
      var parsed := addrs.canonical(bare);
      if parsed.Some? then parsed.value else addrs.lower(bare)
  }

  /** An address with or without brackets, with or without a zone, is replaced by
      its canonical form, or by its lower-case form if it is not an address. */
  lemma NormalizedAddress(addrs: Addresses, host: string, zone: string)
    requires IsWord(host) && '%' !in host && '[' !in host && ']' !in host
    requires zone == "" || (IsWord(zone) && zone[0] == '%' && '[' !in zone && ']' !in zone)
    ensures var expected := if addrs.canonical(host).Some? then addrs.canonical(host).value else addrs.lower(host);
            && NormalizeHost(addrs, host + zone) == expected
            && NormalizeHost(addrs, "[" + (host + zone) + "]") == expected
  {
    hide TrimSpace, TrimBrackets, Index;
    var text := host + zone;
    assert IsWord(text) && '[' !in text && ']' !in text;
    WithoutBrackets(text);
    assert "[" + text + "]" == "[" + (host + zone) + "]";
    WordIsTrimmed(text);
    AbsentWithoutChar(host, "%", 0);
    if zone == "" {
      assert text == host;
      AbsentIndex(host, "%");
    } else {
      FirstOccurrence(host, "%", zone[1..]);
      assert text == host + "%" + zone[1..];
      assert text[..|host|] == host;
    }
  }

  /** What is only white space and brackets is no host. */
  lemma NoHost(addrs: Addresses)
    ensures NormalizeHost(addrs, "") == "" && NormalizeHost(addrs, "[]") == ""
  {
    assert TrimLeftBrackets("[]") == TrimLeftBrackets("]") == TrimLeftBrackets("") by {
      assert "[]"[1..] == "]" && "]"[1..] == "";
    }
  }

  /** The values of all `key=value` fields with this key, in order. */
  function Values(fields: seq<string>, key: string): seq<string> {
    if fields == [] then []
    else
      var n := |fields| - 1;
      var cut := Cut(fields[n], '=');
      Values(fields[..n], key) + if cut.Some? && cut.value.0 == key then [cut.value.1] else []
  }

  function Attr(values: seq<string>, index: nat): string {
    if |values| <= index then "" else values[index]
  }

  /** One direction of a flow. */
  datatype Flow = Flow(src: string, dst: string, sport: Port, dport: Port, bytes: nat)
  {
    function Ends(): Ends {
      Keys.Ends(src, sport, dst, dport)
    }
  }

  /** `parseLinuxConntrackTuple` on the attributes found in `fields`. */
  function ParseTuple(addrs: Addresses, fields: seq<string>, index: nat): Option<Flow> {
    var src := Attr(Values(fields, "src"), index);
    var dst := Attr(Values(fields, "dst"), index);
    var sport := Attr(Values(fields, "sport"), index);
    var dport := Attr(Values(fields, "dport"), index);
    var bytes := Attr(Values(fields, "bytes"), index);
    TupleOf(addrs, src, dst, sport, dport, bytes)
  }

  function TupleOf(addrs: Addresses, src: string, dst: string, sport: string, dport: string, bytes: string):
    Option<Flow>
  {
    if src == "" || dst == "" || sport == "" || dport == "" || bytes == "" then None
    else if NormalizeHost(addrs, src) == "" || NormalizeHost(addrs, dst) == "" then None
    else
      var sportValue := ParseUint(sport, TWO_TO_THE_32);
      var dportValue := ParseUint(dport, TWO_TO_THE_32);
      var bytesValue := ParseUint(bytes, TWO_TO_THE_64);
      if sportValue.None? || dportValue.None? || bytesValue.None? then None
      else Some(Flow(NormalizeHost(addrs, src), NormalizeHost(addrs, dst),
                     sportValue.value, dportValue.value, bytesValue.value))
  }

  function KeyOf(f: Flow): string {
    f.Ends().Key(SOCK_DGRAM)
  }

  /** Both directions of a flow; a later equal key would win. */
  function Entries(orig: Flow, reply: Flow): map<string, Sample> {
    map[KeyOf(orig) := Sample(reply.bytes, orig.bytes)][KeyOf(reply) := Sample(orig.bytes, reply.bytes)]
  }

  /** Where the attributes start, or `None` for a line that is skipped. */
  function AttributesStart(fields: seq<string>): Option<nat> {
    if |fields| < 10 then None
    else if fields[0] == "ipv4" || fields[0] == "ipv6" then
      if |fields| < 11 || fields[2] != "udp" then None else Some(5)
    else if fields[0] != "udp" then None
    else Some(3)
  }

  /** The two directions that a line reports, if it reports any. */
  function LineFlows(addrs: Addresses, line: string): Option<(Flow, Flow)> {
    var fields := Fields(TrimSpace(line));
    var start := AttributesStart(fields);
    if start.None? then None
    else
      var attributes := fields[start.value..];
      var orig := ParseTuple(addrs, attributes, 0);
      var reply := ParseTuple(addrs, attributes, 1);
      if orig.None? || reply.None? then None else Some((orig.value, reply.value))
  }

  /** `parseLinuxConntrackLine`; a nil map is `None`. */
  function ParseLine(addrs: Addresses, line: string): Option<map<string, Sample>> {
    var flows := LineFlows(addrs, line);
    if flows.None? then None else Some(Entries(flows.value.0, flows.value.1))
  }

  /** Only lines about UDP report anything. */
  lemma OtherProtocolsIgnored(addrs: Addresses, line: string)
    requires ParseLine(addrs, line).Some?
    ensures var fields := Fields(TrimSpace(line));
            |fields| >= 10 && (fields[0] == "udp" || (fields[0] in {"ipv4", "ipv6"} && fields[2] == "udp"))
  {
    hide Fields, TrimSpace, ParseTuple, Entries;
  }

  function Look(attrs: map<string, seq<string>>, key: string): seq<string> {
    if key in attrs then attrs[key] else []
  }

  /** The loop that fills the attribute map. */
  method CollectAttributes(fields: seq<string>) returns (attrs: map<string, seq<string>>)
    ensures forall key :: Look(attrs, key) == Values(fields, key)
  {
    hide Cut;
    attrs := map[];
    for n := 0 to |fields|
      invariant forall key :: Look(attrs, key) == Values(fields[..n], key)
    {
      assert fields[..n + 1][..n] == fields[..n];
      var cut := Cut(fields[n], '=');
      if cut.Some? {
        attrs := attrs[cut.value.0 := Look(attrs, cut.value.0) + [cut.value.1]];
      }
    }
    assert fields[..|fields|] == fields;
  }

  method ReadTuple(addrs: Addresses, attrs: map<string, seq<string>>, index: nat, ghost fields: seq<string>)
    returns (tuple: Option<Flow>)
    requires forall key :: Look(attrs, key) == Values(fields, key)
    ensures tuple == ParseTuple(addrs, fields, index)
  {
    hide Values, TupleOf;
    tuple := TupleOf(addrs, Attr(Look(attrs, "src"), index), Attr(Look(attrs, "dst"), index),
                     Attr(Look(attrs, "sport"), index), Attr(Look(attrs, "dport"), index),
                     Attr(Look(attrs, "bytes"), index));
  }

  /** The same with the attribute map filled in a loop. */
  method ParseConntrackLine(addrs: Addresses, line: string) returns (samples: Option<map<string, Sample>>)
    ensures samples == ParseLine(addrs, line)
  {
    hide TrimSpace, Fields, ParseTuple, Entries, Values;
    var fields := Fields(TrimSpace(line));
    if |fields| < 10 {
      return None;
    }
    var protocol, offset := fields[0], 0;
    if protocol == "ipv4" || protocol == "ipv6" {
      if |fields| < 11 {
        return None;
      }
      protocol, offset := fields[2], 2;
    }
    if protocol != "udp" {
      return None;
    }
    assert AttributesStart(fields) == Some(offset + 3);

    var attrs := CollectAttributes(fields[offset + 3..]);
    var orig := ReadTuple(addrs, attrs, 0, fields[offset + 3..]);
    if orig.None? {
      return None;
    }
    var reply := ReadTuple(addrs, attrs, 1, fields[offset + 3..]);
    if reply.None? {
      return None;
    }
    samples := Some(Entries(orig.value, reply.value));
  }

  // ---- rendering ----

  const ATTRIBUTES := ["src", "dst", "sport", "dport", "bytes"]

  /** A field that the parser looks at. */
  predicate Relevant(field: string) {
    var cut := Cut(field, '=');
    cut.Some? && cut.value.0 in ATTRIBUTES
  }

  function OnlyRelevant(fields: seq<string>): seq<string> {
    if fields == [] then []
    else OnlyRelevant(fields[..|fields| - 1]) + if Relevant(fields[|fields| - 1]) then [fields[|fields| - 1]] else []
  }

  function Field(name: string, value: string): string {
    name + "=" + value
  }

  function Render(f: Flow): seq<string> {
    [Field("src", f.src), Field("dst", f.dst), Field("sport", FormatUint(f.sport)),
     Field("dport", FormatUint(f.dport)), Field("bytes", FormatUint(f.bytes))]
  }

  predicate Renderable(addrs: Addresses, f: Flow) {
    && IsWord(f.src) && NormalizeHost(addrs, f.src) == f.src
    && IsWord(f.dst) && NormalizeHost(addrs, f.dst) == f.dst
    && f.bytes < TWO_TO_THE_64
  }

  /** The state columns in front of the attributes. */
  predicate IsHeader(header: seq<string>) {
    || (|header| == 3 && header[0] == "udp")
    || (|header| == 5 && (header[0] == "ipv4" || header[0] == "ipv6") && header[2] == "udp")
  }

  lemma ValuesLast(fields: seq<string>, field: string, key: string)
    ensures Values(fields + [field], key) ==
            Values(fields, key) +
            if Cut(field, '=').Some? && Cut(field, '=').value.0 == key then [Cut(field, '=').value.1] else []
  {
    hide Cut;
    assert (fields + [field])[..|fields|] == fields;
  }

  lemma {:induction false} IrrelevantFieldsIgnored(fields: seq<string>, key: string)
    requires key in ATTRIBUTES
    ensures Values(OnlyRelevant(fields), key) == Values(fields, key)
    ensures |OnlyRelevant(fields)| <= |fields|
  {
    if fields != [] {
      hide Cut, Values;
      var n := |fields| - 1;
      IrrelevantFieldsIgnored(fields[..n], key);
      assert fields == fields[..n] + [fields[n]];
      ValuesLast(fields[..n], fields[n], key);
      if Relevant(fields[n]) {
        ValuesLast(OnlyRelevant(fields[..n]), fields[n], key);
      } else {
        assert OnlyRelevant(fields) == OnlyRelevant(fields[..n]);
        assert Values(fields, key) == Values(fields[..n], key);
      }
    } else {
      assert OnlyRelevant(fields) == fields;
    }
  }

  lemma ValuesAppend(fields: seq<string>, key: string, name: string, value: string)
    requires '=' !in name
    ensures Values(fields + [Field(name, value)], key) == Values(fields, key) + if name == key then [value] else []
  {
    hide Cut, Values;
    CutAtFirst(name, '=', value);
    assert name + ['='] + value == Field(name, value);
    ValuesLast(fields, Field(name, value), key);
  }

  function ValueOf(f: Flow, key: string): string
    requires key in ATTRIBUTES
  {
    if key == "src" then f.src
    else if key == "dst" then f.dst
    else if key == "sport" then FormatUint(f.sport)
    else if key == "dport" then FormatUint(f.dport)
    else FormatUint(f.bytes)
  }

  lemma ValuesOfRender(before: seq<string>, f: Flow, key: string)
    requires key in ATTRIBUTES
    ensures Values(before + Render(f), key) == Values(before, key) + [ValueOf(f, key)]
  {
    hide FormatUint, Values, Cut, Field;
    var s1 := before + [Field("src", f.src)];
    var s2 := s1 + [Field("dst", f.dst)];
    var s3 := s2 + [Field("sport", FormatUint(f.sport))];
    var s4 := s3 + [Field("dport", FormatUint(f.dport))];
    var s5 := s4 + [Field("bytes", FormatUint(f.bytes))];
    assert before + Render(f) == s5;
    ValuesAppend(before, key, "src", f.src);
    ValuesAppend(s1, key, "dst", f.dst);
    ValuesAppend(s2, key, "sport", FormatUint(f.sport));
    ValuesAppend(s3, key, "dport", FormatUint(f.dport));
    ValuesAppend(s4, key, "bytes", FormatUint(f.bytes));
  }

  lemma TupleOfRender(addrs: Addresses, f: Flow)
    requires Renderable(addrs, f)
    ensures TupleOf(addrs, f.src, f.dst, FormatUint(f.sport), FormatUint(f.dport), FormatUint(f.bytes)) == Some(f)
  {
    hide NormalizeHost, FormatUint;
    ParseUintOfFormat(f.sport, TWO_TO_THE_32);
    ParseUintOfFormat(f.dport, TWO_TO_THE_32);
    ParseUintOfFormat(f.bytes, TWO_TO_THE_64);
  }

  lemma AttributeOfRendered(rest: seq<string>, orig: Flow, reply: Flow, key: string)
    requires OnlyRelevant(rest) == Render(orig) + Render(reply)
    requires key in ATTRIBUTES
    ensures Values(rest, key) == [ValueOf(orig, key), ValueOf(reply, key)]
  {
    hide Values, Render, Relevant;
    IrrelevantFieldsIgnored(rest, key);
    ValuesOfRender([], orig, key);
    ValuesOfRender(Render(orig), reply, key);
    assert [] + Render(orig) == Render(orig);
    NoValues(key);
  }

  lemma NoValues(key: string)
    ensures Values([], key) == []
  {
  }

  lemma TuplesOfRendered(addrs: Addresses, rest: seq<string>, orig: Flow, reply: Flow)
    requires Renderable(addrs, orig) && Renderable(addrs, reply)
    requires OnlyRelevant(rest) == Render(orig) + Render(reply)
    ensures ParseTuple(addrs, rest, 0) == Some(orig) && ParseTuple(addrs, rest, 1) == Some(reply)
  {
    AttributeOfRendered(rest, orig, reply, "src");
    AttributeOfRendered(rest, orig, reply, "dst");
    AttributeOfRendered(rest, orig, reply, "sport");
    AttributeOfRendered(rest, orig, reply, "dport");
    AttributeOfRendered(rest, orig, reply, "bytes");
    hide Values, TupleOf, OnlyRelevant, Render;
    TupleOfRender(addrs, orig);
    TupleOfRender(addrs, reply);
  }

  /** Round trip: a rendered pair of flows, behind any state columns and with
      any unrelated or flag fields interleaved, parses back to exactly its two
      entries. */
  lemma RenderedLineParses(addrs: Addresses, header: seq<string>, rest: seq<string>, orig: Flow, reply: Flow)
    requires Renderable(addrs, orig) && Renderable(addrs, reply)
    requires IsHeader(header) && (forall i :: 0 <= i < |header| ==> IsWord(header[i]))
    requires forall i :: 0 <= i < |rest| ==> IsWord(rest[i])
    requires OnlyRelevant(rest) == Render(orig) + Render(reply)
    ensures ParseLine(addrs, Join(header + rest)) == Some(Entries(orig, reply))
  {
    hide Fields, Join, TrimSpace, ParseTuple, Renderable, IsWord, OnlyRelevant, Entries;
    var fields := header + rest;
    forall i | 0 <= i < |fields|
      ensures IsWord(fields[i])
    {
      assert fields[i] == if i < |header| then header[i] else rest[i - |header|];
    }
    TrimOfJoin(fields);
    FieldsOfJoin(fields);
    IrrelevantFieldsIgnored(rest, "src");
    assert fields[|header|..] == rest;
    TuplesOfRendered(addrs, rest, orig, reply);
  }

  /** The two entries are told apart exactly when the two directions differ in
      some endpoint; then each is the other with RX and TX swapped. */
  lemma EntriesMirror(orig: Flow, reply: Flow)
    requires Apart(orig.src, reply.src)
    ensures |Entries(orig, reply)| == 2 <==>
              !(orig.src == reply.src && orig.sport == reply.sport &&
                orig.dst == reply.dst && orig.dport == reply.dport)
    ensures |Entries(orig, reply)| == 2 ==>
              Entries(orig, reply)[KeyOf(orig)] == Sample(reply.bytes, orig.bytes) &&
              Entries(orig, reply)[KeyOf(reply)] == Sample(orig.bytes, reply.bytes)
  {
    hide FlowKey, Apart;
    var entries := Entries(orig, reply);
    if KeyOf(orig) == KeyOf(reply) {
      ApartFlows(SOCK_DGRAM, orig.Ends(), SOCK_DGRAM, reply.Ends());
      assert entries.Keys == {KeyOf(reply)};
    } else {
      assert entries.Keys == {KeyOf(orig), KeyOf(reply)};
    }
    assert |entries| == |entries.Keys|;
  }

  /** For a reply that mirrors its original that means: unless a socket talks to
      itself, each socket's RX is the other's TX. */
  lemma MirroredReply(orig: Flow, reply: Flow)
    requires Apart(orig.src, orig.dst)
    requires reply.src == orig.dst && reply.dst == orig.src && reply.sport == orig.dport && reply.dport == orig.sport
    ensures |Entries(orig, reply)| == 2 <==> !(orig.src == orig.dst && orig.sport == orig.dport)
    ensures !(orig.src == orig.dst && orig.sport == orig.dport) ==>
              var there := Entries(orig, reply)[FlowKey(SOCK_DGRAM, orig.src, orig.sport, orig.dst, orig.dport)];
              var back := Entries(orig, reply)[FlowKey(SOCK_DGRAM, orig.dst, orig.dport, orig.src, orig.sport)];
              there == Sample(back.tx, back.rx) && there.tx == orig.bytes && there.rx == reply.bytes
  {
    hide FlowKey, Apart;
    EntriesMirror(orig, reply);
  }

  // ---- all lines ----

  /** The entries of all lines, later ones winning. */
  function Merged(addrs: Addresses, lines: seq<string>): map<string, Sample> {
    if lines == [] then map[]
    else
      var n := |lines| - 1;
      var entries := ParseLine(addrs, lines[n]);
      Merged(addrs, lines[..n]) + if entries.Some? then entries.value else map[]
  }

  /** The inner loop of `parseLinuxConntrackSamples`. */
  method MergeInto(samples: map<string, Sample>, entries: map<string, Sample>) returns (r: map<string, Sample>)
    ensures r == samples + entries
  {
    r := samples;
    var remaining := entries.Keys;
    while remaining != {}
      invariant remaining <= entries.Keys
      invariant r == samples + map key | key in entries && key !in remaining :: entries[key]
      decreases |remaining|
    {
      var key := Choose(remaining);
      r := r[key := entries[key]];
      remaining := remaining - {key};
    }
    assert (map key | key in entries && key !in remaining :: entries[key]) == entries;
  }

  /** `parseLinuxConntrackSamples`, line by line. */
  method ParseConntrackSamples(addrs: Addresses, lines: seq<string>) returns (samples: map<string, Sample>)
    ensures samples == Merged(addrs, lines)
  {
    hide ParseLine;
    samples := map[];
    for n := 0 to |lines|
      invariant samples == Merged(addrs, lines[..n])
    {
      assert lines[..n + 1][..n] == lines[..n];
      var entries := ParseConntrackLine(addrs, lines[n]);
      if entries.Some? {
        samples := MergeInto(samples, entries.value);
      } else {
        assert samples + map[] == samples;
      }
    }
    assert lines[..|lines|] == lines;
  }

  /** What a line says about a flow: received is what the other direction sent. */
  function Says(addrs: Addresses, line: string, ends: Ends): Option<Sample> {
    var flows := LineFlows(addrs, line);
    if flows.None? then None
    else
      var orig, reply := flows.value.0, flows.value.1;
      if reply.Ends() == ends then Some(Sample(orig.bytes, reply.bytes))
      else if orig.Ends() == ends then Some(Sample(reply.bytes, orig.bytes))
      else None
  }

  /** What the last line that is about the flow says. */
  function LastSays(addrs: Addresses, lines: seq<string>, ends: Ends): Option<Sample> {
    if lines == [] then None
    else
      var n := |lines| - 1;
      var said := Says(addrs, lines[n], ends);
      if said.Some? then said else LastSays(addrs, lines[..n], ends)
  }

  ghost predicate LineApart(addrs: Addresses, line: string, host: string) {
    var flows := LineFlows(addrs, line);
    flows.Some? ==> Apart(flows.value.0.src, host) && Apart(flows.value.1.src, host)
  }

  lemma LineSays(addrs: Addresses, line: string, ends: Ends)
    requires LineApart(addrs, line, ends.localHost)
    ensures Says(addrs, line, ends) ==
            if ParseLine(addrs, line).None? then None else Find(ParseLine(addrs, line).value, ends.Key(SOCK_DGRAM))
  {
    hide LineFlows, Apart, Ends.Key;
    var flows := LineFlows(addrs, line);
    if flows.Some? {
      var orig, reply := flows.value.0, flows.value.1;
      if KeyOf(orig) == ends.Key(SOCK_DGRAM) {
        ApartFlows(SOCK_DGRAM, orig.Ends(), SOCK_DGRAM, ends);
      }
      if KeyOf(reply) == ends.Key(SOCK_DGRAM) {
        ApartFlows(SOCK_DGRAM, reply.Ends(), SOCK_DGRAM, ends);
      }
    }
  }

  /** The string-keyed map answers for flows. */
  lemma {:induction false} CountersOfFlow(addrs: Addresses, lines: seq<string>, ends: Ends)
    requires forall line :: line in lines ==> LineApart(addrs, line, ends.localHost)
    ensures Find(Merged(addrs, lines), ends.Key(SOCK_DGRAM)) == LastSays(addrs, lines, ends)
  {
    hide ParseLine, Says, LineApart, Ends.Key;
    if lines != [] {
      var n := |lines| - 1;
      assert lines[n] in lines;
      CountersOfFlow(addrs, lines[..n], ends);
      LineSays(addrs, lines[n], ends);
    }
  }
}
