/** Building a DNS query, checked against an independent reader of the message
    format of RFC 1035 (sections 3.1, 4.1.1 and 4.1.2). */
module DnsQuery {
  import opened Basics

  newtype byte = x: int | 0 <= x < 256

  const DOT: byte := 46

  /** Length of the leading label. */
  function LabelLength(host: seq<byte>): (n: nat)
    ensures n <= |host|
    ensures forall i :: 0 <= i < n ==> host[i] != DOT
    ensures n < |host| ==> host[n] == DOT
  {
    if host == [] || host[0] == DOT then 0 else 1 + LabelLength(host[1..])
  }

  /** `strings.Split(host, ".")` */
  function Labels(host: seq<byte>): seq<seq<byte>>
    decreases |host|
  {
    var n := LabelLength(host);
    if n == |host| then [host] else [host[..n]] + Labels(host[n + 1..])
  }

  function JoinDots(labels: seq<seq<byte>>): seq<byte>
    requires labels != []
  {
    if |labels| == 1 then labels[0] else labels[0] + [DOT] + JoinDots(labels[1..])
  }

  predicate GoodLabel(part: seq<byte>) {
    1 <= |part| <= 63
  }

  predicate AllGood(labels: seq<seq<byte>>) {
    forall i :: 0 <= i < |labels| ==> GoodLabel(labels[i])
  }

  predicate GoodHost(host: seq<byte>) {
    AllGood(Labels(host))
  }

  function EncodeLabel(part: seq<byte>): seq<byte>
    requires GoodLabel(part)
  {
    [|part| as byte] + part
  }

  function EncodeLabels(labels: seq<seq<byte>>): seq<byte>
    requires AllGood(labels)
  {
    if labels == [] then [] else EncodeLabels(labels[..|labels| - 1]) + EncodeLabel(labels[|labels| - 1])
  }

  function Header(id: nat): seq<byte>
    requires id < 0x1_0000
  {
    [(id / 256) as byte, (id % 256) as byte, 1, 0, 0, 1, 0, 0, 0, 0, 0, 0]
  }

  function Packet(labels: seq<seq<byte>>, id: nat): seq<byte>
    requires id < 0x1_0000
    requires AllGood(labels)
  {
    Header(id) + EncodeLabels(labels) + [0] + [0, 1] + [0, 1]
  }

  /** `binary.BigEndian.PutUint16` */
  method PutUint16(a: array<byte>, at: nat, value: nat)
    requires at + 1 < a.Length && value < 0x1_0000
    modifies a
    ensures a[..] == old(a[..])[at := (value / 256) as byte][at + 1 := (value % 256) as byte]
  {
    a[at] := (value / 256) as byte;
    a[at + 1] := (value % 256) as byte;
  }

  method NewHeader(id: nat) returns (header: array<byte>)
    requires id < 0x1_0000
    ensures fresh(header) && header[..] == Header(id)
  {
    header := new byte[12](_ => 0);
    PutUint16(header, 0, id);
    PutUint16(header, 2, 0x0100);
    PutUint16(header, 4, 1);
  }

  /** `buildDNSQuery`; `id` is the random transaction number. */
  method BuildDnsQuery(host: seq<byte>, id: nat) returns (query: Option<seq<byte>>)
    requires id < 0x1_0000
    ensures query.Some? <==> GoodHost(host)
    ensures query.Some? ==> query.value == Packet(Labels(host), id)
  {
    var question: seq<byte> := [];
    var labels := Labels(host);
    for n := 0 to |labels|
      invariant AllGood(labels[..n])
      invariant question == EncodeLabels(labels[..n])
    {
      var part := labels[n];
      assert labels[..n + 1] == labels[..n] + [part];
      if |part| == 0 || |part| > 63 {
        return None;
      }
      EncodeAppend(labels[..n], part);
      question := question + [|part| as byte];
      question := question + part;
    }
    assert labels[..|labels|] == labels;
    question := question + [0];

    var header := NewHeader(id);
    var packet := header[..] + question;
    packet := packet + [0, 1];
    packet := packet + [0, 1];
    assert packet == Packet(labels, id);
    query := Some(packet);
  }

  // ---- an independent reader ----

  /** A message with one question; flag fields as in section 4.1.1. */
  datatype Query = Query(
    id: nat, qr: nat, opcode: nat, aa: nat, tc: nat, rd: nat, ra: nat, z: nat, rcode: nat,
    qdcount: nat, ancount: nat, nscount: nat, arcount: nat,
    name: seq<seq<byte>>, qtype: nat, qclass: nat)

  function Uint16(packet: seq<byte>, at: nat): nat
    requires at + 1 < |packet|
  {
    packet[at] as nat * 256 + packet[at + 1] as nat
  }

  /** Section 3.1: length octets and labels up to a zero octet. Lengths above 63
      are reserved or compression, which a query name does not use. */
  function ReadName(packet: seq<byte>, at: nat): Option<(seq<seq<byte>>, nat)>
    decreases |packet| - at
  {
    if at >= |packet| then None
    else
      var length := packet[at] as nat;
      if length == 0 then Some(([], at + 1))
      else if length > 63 || at + 1 + length > |packet| then None
      else
        var rest := ReadName(packet, at + 1 + length);
        if rest.None? then None
        else Some(([packet[at + 1..at + 1 + length]] + rest.value.0, rest.value.1))
  }

  /** Reads a whole message that consists of a header and one question. */
  function ReadQuery(packet: seq<byte>): Option<Query> {
    if |packet| < 12 then None
    else
      var name := ReadName(packet, 12);
      if name.None? || name.value.1 + 4 != |packet| then None
      else
        var b2, b3 := packet[2] as nat, packet[3] as nat;
        var at := name.value.1;
        Some(Query(Uint16(packet, 0),
                   b2 / 128, b2 / 8 % 16, b2 / 4 % 2, b2 / 2 % 2, b2 % 2, b3 / 128, b3 / 16 % 8, b3 % 16,
                   Uint16(packet, 4), Uint16(packet, 6), Uint16(packet, 8), Uint16(packet, 10),
                   name.value.0, Uint16(packet, at), Uint16(packet, at + 2)))
  }

  /** A recursion-desired query for the address (type A, class IN) of a name. */
  function AddressQuery(id: nat, name: seq<seq<byte>>): Query {
    Query(id, 0, 0, 0, 0, 1, 0, 0, 0, 1, 0, 0, 0, name, 1, 1)
  }

  lemma JoinCons(part: seq<byte>, labels: seq<seq<byte>>)
    requires labels != []
    ensures JoinDots([part]) == part
    ensures JoinDots([part] + labels) == part + [DOT] + JoinDots(labels)
  {
    assert ([part] + labels)[1..] == labels;
  }

  /** Joining undoes splitting. */
  lemma {:induction false} LabelsJoin(host: seq<byte>)
    ensures Labels(host) != [] && JoinDots(Labels(host)) == host
    decreases |host|
  {
    hide JoinDots;
    var n := LabelLength(host);
    if n < |host| {
      LabelsJoin(host[n + 1..]);
      JoinCons(host[..n], Labels(host[n + 1..]));
      assert host == host[..n] + [DOT] + host[n + 1..];
    } else {
      JoinCons(host, [host]);
    }
  }

  lemma EncodeAppend(labels: seq<seq<byte>>, part: seq<byte>)
    requires AllGood(labels) && GoodLabel(part)
    ensures AllGood(labels + [part])
    ensures EncodeLabels(labels + [part]) == EncodeLabels(labels) + EncodeLabel(part)
  {
    assert (labels + [part])[..|labels|] == labels;
  }

  lemma {:induction false} EncodeCons(part: seq<byte>, labels: seq<seq<byte>>)
    requires GoodLabel(part) && AllGood(labels)
    ensures AllGood([part] + labels)
    ensures EncodeLabels([part] + labels) == EncodeLabel(part) + EncodeLabels(labels)
  {
    hide EncodeLabel;
    if labels == [] {
      assert [part] + labels == [] + [part];
      EncodeAppend([], part);
    } else {
      var n := |labels| - 1;
      var last := labels[n];
      assert labels == labels[..n] + [last];
      assert [part] + labels == ([part] + labels[..n]) + [last];
      EncodeCons(part, labels[..n]);
      hide EncodeLabels;
      EncodeAppend([part] + labels[..n], last);
      EncodeAppend(labels[..n], last);
    }
  }

  /** Encoding costs one octet per label; joining costs one dot less. */
  lemma {:induction false} EncodedLength(labels: seq<seq<byte>>)
    requires labels != [] && AllGood(labels)
    ensures |EncodeLabels(labels)| == |JoinDots(labels)| + 1
  {
    hide JoinDots, EncodeLabels;
    var part, rest := labels[0], labels[1..];
    assert labels == [part] + rest;
    EncodeCons(part, rest);
    if rest != [] {
      EncodedLength(rest);
      JoinCons(part, rest);
    } else {
      assert labels == [part];
      JoinCons(part, [part]);
      NothingEncoded();
    }
  }

  lemma NothingEncoded()
    ensures EncodeLabels([]) == []
  {
  }

  lemma ReadLabel(packet: seq<byte>, at: nat, part: seq<byte>, next: nat)
    requires GoodLabel(part) && next == at + 1 + |part| && next <= |packet|
    requires packet[at] == |part| as byte && packet[at + 1..next] == part
    requires ReadName(packet, next).Some?
    ensures ReadName(packet, at) ==
            Some(([part] + ReadName(packet, next).value.0, ReadName(packet, next).value.1))
  {
  }

  lemma {:induction false} ReadEncodedName(before: seq<byte>, labels: seq<seq<byte>>, after: seq<byte>)
    requires AllGood(labels)
    ensures ReadName(before + EncodeLabels(labels) + [0] + after, |before|) ==
            Some((labels, |before| + |EncodeLabels(labels)| + 1))
    decreases |labels|
  {
    hide EncodeLabels, ReadName, EncodeLabel, GoodLabel;
    if labels == [] {
      NothingEncoded();
      ReadEnd(before, after);
    } else {
      var part, rest := labels[0], labels[1..];
      assert labels == [part] + rest;
      EncodeCons(part, rest);
      ReadEncodedName(before + EncodeLabel(part), rest, after);
      ReadEncodedLabel(before, part, rest, after);
    }
  }

  lemma ReadEnd(before: seq<byte>, after: seq<byte>)
    ensures ReadName(before + [] + [0] + after, |before|) == Some(([], |before| + 1))
  {
    assert (before + [] + [0] + after)[|before|] == 0;
  }

  /** One step of reading: a label in front of names that are read already. */
  lemma ReadEncodedLabel(before: seq<byte>, part: seq<byte>, rest: seq<seq<byte>>, after: seq<byte>)
    requires GoodLabel(part) && AllGood(rest)
    requires ReadName(before + EncodeLabel(part) + EncodeLabels(rest) + [0] + after, |before + EncodeLabel(part)|) ==
             Some((rest, |before + EncodeLabel(part)| + |EncodeLabels(rest)| + 1))
    ensures ReadName(before + (EncodeLabel(part) + EncodeLabels(rest)) + [0] + after, |before|) ==
            Some(([part] + rest, |before| + |EncodeLabel(part) + EncodeLabels(rest)| + 1))
  {
    hide EncodeLabels, ReadName, EncodeLabel, GoodLabel, AllGood;
    EncodedLabelLength(part);
    Regroup(before, EncodeLabel(part), EncodeLabels(rest), after);
    LabelInPlace(before, part, EncodeLabels(rest) + [0] + after);
    ReadLabel(before + (EncodeLabel(part) + EncodeLabels(rest)) + [0] + after,
              |before|, part, |before| + 1 + |part|);
  }

  lemma EncodedLabelLength(part: seq<byte>)
    requires GoodLabel(part)
    ensures |EncodeLabel(part)| == |part| + 1
  {
  }

  lemma Regroup(before: seq<byte>, first: seq<byte>, rest: seq<byte>, after: seq<byte>)
    ensures before + (first + rest) + [0] + after == (before + first) + rest + [0] + after
    ensures before + (first + rest) + [0] + after == before + first + (rest + [0] + after)
  {
  }

  lemma LabelInPlace(before: seq<byte>, part: seq<byte>, after: seq<byte>)
    requires GoodLabel(part)
    ensures var packet := before + EncodeLabel(part) + after;
            packet[|before|] == |part| as byte && packet[|before| + 1..|before| + 1 + |part|] == part
  {
  }

  /** Round trip: for a host whose labels all have 1 to 63 octets, the packet
      reads back as one recursive address query for exactly those labels, and is
      eighteen octets longer than the host. */
  lemma QueryRoundTrip(host: seq<byte>, id: nat)
    requires GoodHost(host) && id < 0x1_0000
    ensures ReadQuery(Packet(Labels(host), id)) == Some(AddressQuery(id, Labels(host)))
    ensures JoinDots(AddressQuery(id, Labels(host)).name) == host
    ensures |Packet(Labels(host), id)| == |host| + 18
  {
    hide Labels, EncodeLabels, ReadName, JoinDots;
    LabelsJoin(host);
    EncodedLength(Labels(host));
    var labels := Labels(host);
    var packet := Packet(labels, id);
    assert packet == Header(id) + EncodeLabels(labels) + [0] + [0, 1, 0, 1];
    ReadEncodedName(Header(id), labels, [0, 1, 0, 1]);
    var at := 12 + |EncodeLabels(labels)| + 1;
    assert packet[at..] == [0, 1, 0, 1];
    assert packet[at] == 0 && packet[at + 1] == 1 && packet[at + 2] == 0 && packet[at + 3] == 1;
    assert packet[..12] == Header(id);
    assert forall i :: 0 <= i < 12 ==> packet[i] == Header(id)[i];
  }

  /** The code does not enforce the 255-octet limit on names (section 2.3.4 of
      RFC 1035): a query it builds respects the limit if and only if the host has
      at most 253 octets. */
  lemma NameLimit(host: seq<byte>)
    requires GoodHost(host)
    ensures |EncodeLabels(Labels(host)) + [0]| <= 255 <==> |host| <= 253
  {
    LabelsJoin(host);
    EncodedLength(Labels(host));
  }

  /** A host of `n` labels of one letter each. */
  function OneLetterLabels(n: nat): seq<byte>
    requires n > 0
  {
    if n == 1 then [97] else [97, DOT] + OneLetterLabels(n - 1)
  }

  lemma {:induction false} OneLetterLabelsAreGood(n: nat)
    requires n > 0
    ensures GoodHost(OneLetterLabels(n)) && |OneLetterLabels(n)| == 2 * n - 1
  {
    var host := OneLetterLabels(n);
    assert LabelLength(host[1..]) == 0;
    if n > 1 {
      OneLetterLabelsAreGood(n - 1);
      assert host[2..] == OneLetterLabels(n - 1);
    }
  }

  /** The limit is exceeded by some hosts that the function accepts. */
  lemma NameLimitExceeded()
    ensures GoodHost(OneLetterLabels(128))
    ensures |EncodeLabels(Labels(OneLetterLabels(128))) + [0]| > 255
  {
    hide Labels, OneLetterLabels, EncodeLabels;
    OneLetterLabelsAreGood(128);
    NameLimit(OneLetterLabels(128));
  }
}
