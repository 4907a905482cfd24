/** Reading the owners of a socket from a line printed by `ss`. */
module Sockets {
  import opened Basics
  import opened Decimal
  import opened Keys
  import opened Text

  datatype SocketUser = SocketUser(pid: int, fd: nat, socketType: nat)

  const MARKER := "users:("
  const PID := "pid="

  function IndexOfChar(s: string, chars: set<char>): (n: nat)
    ensures n <= |s|
    ensures forall i :: 0 <= i < n ==> s[i] !in chars
    ensures n < |s| ==> s[n] in chars
  {
    if s == "" || s[0] in chars then 0 else 1 + IndexOfChar(s[1..], chars)
  }

  /** The number after the first `fd=`, up to a bracket or a comma. */
  function ParseFd(rest: string): Option<nat> {
    var fdIndex := Index(rest, "fd=");
    if fdIndex == -1 then None
    else
      var fdPart := rest[fdIndex + 3..];
      ParseUint(fdPart[..IndexOfChar(fdPart, {')', ','})], TWO_TO_THE_32)
  }

  /** One piece between two occurrences of `pid=`; malformed pieces are skipped. */
  function ParsePiece(piece: string): Option<SocketUser> {
    var pidEnd := IndexOfChar(piece, {','});
    if pidEnd == |piece| then None
    else
      var pid := ParseInt(piece[..pidEnd], TWO_TO_THE_31);
      var fd := ParseFd(piece[pidEnd + 1..]);
      if pid.None? || fd.None? then None else Some(SocketUser(pid.value, fd.value, SOCK_STREAM))
  }

  function ParsePieces(pieces: seq<string>): seq<SocketUser> {
    if pieces == [] then []
    else
      var n := |pieces| - 1;
      var user := ParsePiece(pieces[n]);
      ParsePieces(pieces[..n]) + if user.Some? then [user.value] else []
  }

  /** The part of the line that lists the owners. */
  function Segment(line: string): Option<string> {
    var start := Index(line, MARKER);
    if start == -1 then None
    else
      Some(UpToEnd(line[start + |MARKER|..]))
  }

  /** Up to the first closing bracket with a space behind it. */
  function UpToEnd(text: string): string {
    var end := Index(text, ") ");
    if end != -1 then text[..end] else text
  }

  /** `parseLinuxSocketUsers` */
  function ParseUsers(line: string): seq<SocketUser> {
    var segment := Segment(line);
    if segment.None? then [] else ParsePieces(Split(segment.value, PID))
  }

  /** One iteration of the loop; `None` where the source continues. */
  method ReadPiece(piece: string) returns (user: Option<SocketUser>)
    ensures user == ParsePiece(piece)
  {
    hide Index, ParseInt, ParseUint;
    var pidEnd := IndexOfChar(piece, {','});
    if pidEnd == |piece| {
      return None;
    }
    var pid := ParseInt(piece[..pidEnd], TWO_TO_THE_31);
    if pid.None? {
      return None;
    }
    var rest := piece[pidEnd + 1..];
    var fdIndex := Index(rest, "fd=");
    if fdIndex == -1 {
      return None;
    }
    var fdPart := rest[fdIndex + 3..];
    var fd := ParseUint(fdPart[..IndexOfChar(fdPart, {')', ','})], TWO_TO_THE_32);
    if fd.None? {
      return None;
    }
    user := Some(SocketUser(pid.value, fd.value, SOCK_STREAM));
  }

  method ParseSocketUsers(line: string) returns (users: seq<SocketUser>)
    ensures users == ParseUsers(line)
  {
    hide Index, Split, ParsePiece;
    users := [];
    var start := Index(line, MARKER);
    if start == -1 {
      return;
    }
    var segment := line[start + |MARKER|..];
    var end := Index(segment, ") ");
    if end != -1 {
      segment := segment[..end];
    }
    var pieces := Split(segment, PID);
    for n := 0 to |pieces|
      invariant users == ParsePieces(pieces[..n])
    {
      assert pieces[..n + 1][..n] == pieces[..n];
      var user := ReadPiece(pieces[n]);
      if user.Some? {
        users := users + [user.value];
      }
    }
    assert pieces[..|pieces|] == pieces;
  }

  // ---- rendering ----

  /** An owner as `ss` prints it: ("name",pid=1,fd=2). The name is printed as it
      is, so it may look like anything. */
  datatype Owner = Owner(name: string, pid: int, fd: nat) {
    predicate Renderable() {
      -TWO_TO_THE_31 <= pid < TWO_TO_THE_31 && fd < TWO_TO_THE_32
    }

    /** What precedes `pid=` ... */
    function Head(): string {
      "(\"" + name + "\","
    }

    /** ... and what follows it. */
    function Tail(): string {
      FormatInt(pid) + ",fd=" + FormatUint(fd) + ")"
    }

    function User(): SocketUser {
      SocketUser(pid, fd, SOCK_STREAM)
    }

    /** The name looks like the end of the list. */
    predicate Cuts() {
      Index(Head(), ") ") != -1
    }

    /** The owners that the name itself is taken for. */
    function Phantoms(): seq<SocketUser> {
      ParsePieces(Split(UpToEnd(Head()), PID))
    }
  }

  function UsersOf(owners: seq<Owner>): seq<SocketUser> {
    seq(|owners|, i requires 0 <= i < |owners| => owners[i].User())
  }

  predicate AllRenderable(owners: seq<Owner>) {
    forall i :: 0 <= i < |owners| ==> owners[i].Renderable()
  }

  /** The list of owners without its closing bracket. */
  function Render(owners: seq<Owner>): string {
    if owners == [] then ""
    else
      owners[0].Head() + (PID + owners[0].Tail() + if |owners| == 1 then "" else "," + Render(owners[1..]))
  }

  /** What the parser makes of a rendered list: before each owner whatever its
      name is taken for, and nothing behind a name that looks like the end. */
  function ReadBack(owners: seq<Owner>): seq<SocketUser> {
    if owners == [] then []
    else if owners[0].Cuts() then owners[0].Phantoms()
    else owners[0].Phantoms() + [owners[0].User()] + ReadBack(owners[1..])
  }

  // ---- text that goes on behind some other text ----

  lemma OccursBehind(a: string, b: string, sub: string, j: nat)
    requires |a| <= j
    ensures OccursAt(a + b, sub, j) <==> OccursAt(b, sub, j - |a|)
  {
    if j + |sub| <= |a + b| {
      assert (a + b)[j..j + |sub|] == b[j - |a|..j - |a| + |sub|];
    }
  }

  lemma OccursWithin(a: string, b: string, sub: string, j: nat)
    requires j + |sub| <= |a|
    ensures OccursAt(a + b, sub, j) <==> OccursAt(a, sub, j)
  {
    assert (a + b)[j..j + |sub|] == a[j..j + |sub|];
  }

  /** No occurrence starts in `a`. */
  ghost predicate Clear(a: string, b: string, sub: string) {
    forall j: nat :: j < |a| ==> !OccursAt(a + b, sub, j)
  }

  /** None does if `a` has none and ends with a character that `sub` lacks ... */
  lemma ClearByEnd(a: string, b: string, sub: string)
    requires Absent(a, sub) && a != "" && a[|a| - 1] !in sub
    ensures Clear(a, b, sub)
  {
    forall j: nat | j < |a|
      ensures !OccursAt(a + b, sub, j)
    {
      if j + |sub| <= |a| {
        OccursWithin(a, b, sub, j);
      } else if j + |sub| <= |a + b| {
        assert (a + b)[j..j + |sub|][|a| - 1 - j] == a[|a| - 1];
      }
    }
  }

  /** ... or if what follows does not start with a space. */
  lemma ClearByStart(a: string, b: string)
    requires ' ' !in a && b != "" && b[0] != ' '
    ensures Clear(a, b, ") ")
  {
    forall j: nat | j < |a|
      ensures !OccursAt(a + b, ") ", j)
    {
      if j + 2 <= |a + b| {
        assert (a + b)[j..j + 2][1] == (a + b)[j + 1];
      }
    }
  }

  lemma IndexBehind(a: string, b: string, sub: string)
    requires Clear(a, b, sub)
    ensures Index(a + b, sub) == if Index(b, sub) == -1 then -1 else |a| + Index(b, sub)
  {
    hide OccursAt, Index;
    var k := IndexOf(b, sub);
    forall j: nat | j < |a| || k == -1 || j < |a| + k
      ensures !OccursAt(a + b, sub, j)
    {
      if j >= |a| {
        OccursBehind(a, b, sub, j);
      }
    }
    if k == -1 {
      AbsentIndex(a + b, sub);
    } else {
      OccursBehind(a, b, sub, |a| + k);
      IndexIs(a + b, sub, |a| + k);
    }
  }

  lemma IndexOf(s: string, sub: string) returns (i: int)
    ensures i == Index(s, sub) && IsIndex(s, sub, i)
  {
    i := Index(s, sub);
  }

  lemma UpToEndBehind(a: string, b: string)
    requires Clear(a, b, ") ")
    ensures UpToEnd(a + b) == a + UpToEnd(b)
  {
    hide Clear, Index;
    IndexBehind(a, b, ") ");
    var k := IndexOf(b, ") ");
    if k != -1 {
      assert (a + b)[..|a| + k] == a + b[..k];
    }
  }

  lemma UpToEndWithin(a: string, b: string)
    requires Index(a, ") ") != -1
    ensures UpToEnd(a + b) == UpToEnd(a)
  {
    hide Index;
    var k := IndexOf(a, ") ");
    forall j: nat | j <= k
      ensures OccursAt(a + b, ") ", j) <==> OccursAt(a, ") ", j)
    {
      OccursWithin(a, b, ") ", j);
    }
    IndexIs(a + b, ") ", k);
    assert (a + b)[..k] == a[..k];
  }

  /** The first piece of what follows is joined to the text in front of it. */
  lemma SplitBehind(a: string, b: string)
    requires Clear(a, b, PID)
    ensures Split(b, PID) != []
    ensures Split(a + b, PID) == [a + Split(b, PID)[0]] + Split(b, PID)[1..]
  {
    hide Clear, Index;
    IndexBehind(a, b, PID);
    var k := IndexOf(b, PID);
    if k != -1 {
      assert (a + b)[..|a| + k] == a + b[..k];
      assert (a + b)[|a| + k + 4..] == b[k + 4..];
    }
  }

  lemma AbsentBefore(s: string, sub: string, i: nat)
    requires IsIndex(s, sub, i) && sub != ""
    ensures Absent(s[..i], sub)
  {
    forall j: nat
      ensures !OccursAt(s[..i], sub, j)
    {
      if j + |sub| <= i {
        assert s[..i][j..j + |sub|] == s[j..j + |sub|];
        assert OccursAt(s[..i], sub, j) <==> OccursAt(s, sub, j);
      }
    }
  }

  /** Splitting at every `pid=` splits at this one. */
  lemma {:induction false} SplitAt(a: string, b: string)
    ensures Split(a + PID + b, PID) == Split(a, PID) + Split(b, PID)
    decreases |a|
  {
    hide Index;
    var k := IndexOf(a, PID);
    if k == -1 {
      SplitAtFirst(a, PID, b);
    } else {
      var rest := a[k + 4..];
      AbsentBefore(a, PID, k);
      assert a == a[..k] + PID + rest;
      assert a + PID + b == a[..k] + PID + (rest + PID + b);
      SplitAtFirst(a[..k], PID, rest + PID + b);
      SplitAt(rest, b);
      assert Split(a, PID) == [a[..k]] + Split(rest, PID);
    }
  }

  lemma {:induction false} ParsePiecesAppend(p: seq<string>, q: seq<string>)
    ensures ParsePieces(p + q) == ParsePieces(p) + ParsePieces(q)
  {
    hide ParsePiece;
    if q == [] {
      assert p + q == p;
    } else {
      var n := |q| - 1;
      assert (p + q)[..|p| + n] == p + q[..n];
      ParsePiecesAppend(p, q[..n]);
    }
  }

  lemma ParseOne(piece: string)
    ensures ParsePieces([piece]) == if ParsePiece(piece).Some? then [ParsePiece(piece).value] else []
  {
    hide ParsePiece;
    assert [piece][..0] == [];
  }

  // ---- one owner ----

  lemma IndexOfCharIs(a: string, c: char, b: string, chars: set<char>)
    requires c in chars && forall i :: 0 <= i < |a| ==> a[i] !in chars
    ensures IndexOfChar(a + [c] + b, chars) == |a|
  {
    var n := IndexOfChar(a + [c] + b, chars);
    assert (a + [c] + b)[|a|] == c;
    assert forall i :: 0 <= i < |a| ==> (a + [c] + b)[i] == a[i];
  }

  lemma FdOfTail(fd: nat, rest: string)
    requires fd < TWO_TO_THE_32
    ensures ParseFd("fd=" + FormatUint(fd) + ")" + rest) == Some(fd)
  {
    hide FormatUint, ParseUint, Index;
    var digits := FormatUint(fd);
    var text := "fd=" + digits + ")" + rest;
    assert text[0..3] == "fd=";
    assert OccursAt(text, "fd=", 0);
    IndexIs(text, "fd=", 0);
    assert text[3..] == digits + [')'] + rest;
    IndexOfCharIs(digits, ')', rest, {')', ','});
    assert text[3..][..|digits|] == digits;
    ParseUintOfFormat(fd, TWO_TO_THE_32);
  }

  /** The piece that starts with an owner's tail yields that owner ... */
  lemma PieceOfTail(o: Owner, rest: string)
    requires o.Renderable()
    ensures ParsePiece(o.Tail() + rest) == Some(o.User())
  {
    hide FormatInt, FormatUint, ParseInt, ParseFd;
    var pid := FormatInt(o.pid);
    var afterPid := "fd=" + FormatUint(o.fd) + ")" + rest;
    var piece := o.Tail() + rest;
    assert piece == pid + [','] + afterPid;
    IndexOfCharIs(pid, ',', afterPid, {','});
    assert piece[..|pid|] == pid && piece[|pid| + 1..] == afterPid;
    ParseIntOfFormat(o.pid, TWO_TO_THE_31);
    FdOfTail(o.fd, rest);
  }

  /** ... and a piece that starts with a bracket yields none. */
  lemma OpeningPiece(piece: string)
    requires piece != "" && piece[0] == '('
    ensures ParsePiece(piece) == None
  {
    var pidEnd := IndexOfChar(piece, {','});
    if pidEnd < |piece| {
      assert piece[..pidEnd][0] == '(';
    }
  }

  lemma OtherStart(text: string, sub: string)
    requires text != "" && sub != "" && text[0] != sub[0]
    ensures !OccursAt(text, sub, 0)
  {
    if |sub| <= |text| {
      assert text[0..|sub|][0] == text[0];
    }
  }

  /** So the first piece of a text that starts with a bracket yields none. */
  lemma FirstPiece(text: string)
    requires text != "" && text[0] == '('
    ensures Split(text, PID) != [] && ParsePiece(Split(text, PID)[0]) == None
    ensures ParsePieces(Split(text, PID)) == ParsePieces(Split(text, PID)[1..])
  {
    hide Index, ParsePiece;
    var k := IndexOf(text, PID);
    OtherStart(text, PID);
    var pieces := Split(text, PID);
    OpeningPiece(pieces[0]);
    assert pieces == [pieces[0]] + pieces[1..];
    ParsePiecesAppend([pieces[0]], pieces[1..]);
    ParseOne(pieces[0]);
  }

  lemma TailAbsent(o: Owner, end: string)
    requires end in {"", ")", ","}
    ensures Absent(o.Tail() + end, PID) && ' ' !in o.Tail()
  {
    hide FormatInt, FormatUint;
    AbsentWithoutChar(o.Tail() + end, PID, 0);
  }

  lemma LastTailParses(o: Owner, end: string)
    requires o.Renderable() && (end == "" || end == ")")
    ensures ParsePieces(Split(o.Tail() + end, PID)) == [o.User()]
  {
    hide ParsePiece, Owner.Tail;
    TailAbsent(o, end);
    AbsentIndex(o.Tail() + end, PID);
    PieceOfTail(o, end);
    ParseOne(o.Tail() + end);
  }

  lemma TailParses(o: Owner, text: string)
    requires o.Renderable() && text != "" && text[0] == '('
    ensures ParsePieces(Split(o.Tail() + "," + text, PID)) == [o.User()] + ParsePieces(Split(text, PID))
  {
    hide ParsePiece, Owner.Tail, Split, Absent;
    var front := o.Tail() + ",";
    TailAbsent(o, ",");
    ClearByEnd(front, text, PID);
    SplitBehind(front, text);
    FirstPiece(text);
    var pieces := Split(text, PID);
    PieceOfTail(o, "," + pieces[0]);
    assert front + pieces[0] == o.Tail() + ("," + pieces[0]);
    ParseOne(front + pieces[0]);
    ParsePiecesAppend([front + pieces[0]], pieces[1..]);
  }

  // ---- the whole list ----

  /** What the parser sees of a rendered list: `end` is what it sees of the
      closing bracket. */
  function Seen(owners: seq<Owner>, end: string): string {
    if owners == [] then end
    else if owners[0].Cuts() then UpToEnd(owners[0].Head())
    else
      owners[0].Head() +
      (PID + (owners[0].Tail() + if |owners| == 1 then end else "," + Seen(owners[1..], end)))
  }

  lemma HeadStart(o: Owner)
    ensures UpToEnd(o.Head()) != "" && UpToEnd(o.Head())[0] == '('
    ensures !o.Cuts() ==> UpToEnd(o.Head()) == o.Head()
  {
    hide Index;
    var k := IndexOf(o.Head(), ") ");
    OtherStart(o.Head(), ") ");
  }

  lemma SeenStart(owners: seq<Owner>, end: string)
    requires owners != []
    ensures Seen(owners, end) != "" && Seen(owners, end)[0] == '('
  {
    HeadStart(owners[0]);
  }

  lemma HeadParses(o: Owner, text: string)
    requires !o.Cuts()
    ensures ParsePieces(Split(o.Head() + (PID + text), PID)) == o.Phantoms() + ParsePieces(Split(text, PID))
  {
    hide Split, ParsePiece, Owner.Head, Owner.Cuts, UpToEnd;
    HeadStart(o);
    SplitAt(o.Head(), text);
    ParsePiecesAppend(Split(o.Head(), PID), Split(text, PID));
    assert o.Head() + (PID + text) == o.Head() + PID + text;
  }

  /** What follows the first `pid=` of a list. */
  function SeenAfter(owners: seq<Owner>, end: string): string
    requires owners != []
  {
    owners[0].Tail() + if |owners| == 1 then end else "," + Seen(owners[1..], end)
  }

  lemma {:induction false} SeenParses(owners: seq<Owner>, end: string)
    requires AllRenderable(owners) && (end == "" || end == ")")
    ensures ParsePieces(Split(Seen(owners, end), PID)) == ReadBack(owners)
    decreases |owners|, 1
  {
    hide Split, ParsePieces, Owner.Head, Owner.Cuts, UpToEnd, SeenAfter;
    if owners == [] {
      NoOwnersParse(end);
    } else if !owners[0].Cuts() {
      SeenIsAfter(owners, end);
      HeadParses(owners[0], SeenAfter(owners, end));
      SeenAfterParses(owners, end);
      assert ReadBack(owners) == owners[0].Phantoms() + ([owners[0].User()] + ReadBack(owners[1..]));
    }
  }

  lemma SeenIsAfter(owners: seq<Owner>, end: string)
    requires owners != [] && !owners[0].Cuts()
    ensures Seen(owners, end) == owners[0].Head() + (PID + SeenAfter(owners, end))
  {
    hide Owner.Cuts, Owner.Head, Owner.Tail;
  }

  lemma {:induction false} SeenAfterParses(owners: seq<Owner>, end: string)
    requires owners != [] && AllRenderable(owners) && (end == "" || end == ")")
    ensures ParsePieces(Split(SeenAfter(owners, end), PID)) == [owners[0].User()] + ReadBack(owners[1..])
    decreases |owners|, 0
  {
    hide Split, ParsePieces, Owner.Tail, Seen;
    var o, rest := owners[0], owners[1..];
    if |owners| == 1 {
      LastTailParses(o, end);
      assert ReadBack(rest) == [];
    } else {
      SeenStart(rest, end);
      TailParses(o, Seen(rest, end));
      assert SeenAfter(owners, end) == o.Tail() + "," + Seen(rest, end);
      SeenParses(rest, end);
    }
  }

  lemma NoOwnersParse(end: string)
    requires end == "" || end == ")"
    ensures ParsePieces(Split(end, PID)) == []
  {
    AbsentWithoutChar(end, PID, 0);
    AbsentIndex(end, PID);
    ParseOne(end);
    assert ParsePiece(end) == None;
  }

  lemma ClosingSeen(after: string)
    requires after == "" || after[0] == ' '
    ensures UpToEnd(")" + after) == if after == "" then ")" else ""
  {
    var text := ")" + after;
    if after == "" {
      AbsentWithoutChar(text, ") ", 1);
      AbsentIndex(text, ") ");
    } else {
      assert text[0..2] == ") ";
      assert OccursAt(text, ") ", 0);
      IndexIs(text, ") ", 0);
    }
  }

  lemma HeadSeen(o: Owner, text: string)
    requires !o.Cuts()
    ensures UpToEnd(o.Head() + text) == o.Head() + UpToEnd(text)
  {
    var k := IndexOf(o.Head(), ") ");
    ClearByEnd(o.Head(), text, ") ");
    UpToEndBehind(o.Head(), text);
  }

  lemma TailSeen(o: Owner, text: string)
    requires text != "" && text[0] != ' '
    ensures UpToEnd(PID + o.Tail() + text) == PID + o.Tail() + UpToEnd(text)
  {
    hide Clear, UpToEnd, Owner.Tail;
    TailAbsent(o, "");
    ClearByStart(PID + o.Tail(), text);
    UpToEndBehind(PID + o.Tail(), text);
  }

  lemma CommaSeen(text: string)
    ensures UpToEnd("," + text) == "," + UpToEnd(text)
  {
    hide Clear, UpToEnd;
    AbsentWithoutChar(",", ") ", 1);
    ClearByEnd(",", text, ") ");
    UpToEndBehind(",", text);
  }

  lemma {:induction false} ListSeen(owners: seq<Owner>, after: string)
    requires after == "" || after[0] == ' '
    ensures UpToEnd(Render(owners) + (")" + after)) == Seen(owners, if after == "" then ")" else "")
  {
    hide UpToEnd, Owner.Tail, Owner.Head, Owner.Cuts;
    var closing := ")" + after;
    ClosingSeen(after);
    if owners == [] {
      assert Render(owners) + closing == closing;
    } else {
      var o, rest := owners[0], owners[1..];
      var more := if |owners| == 1 then closing else "," + (Render(rest) + closing);
      var text := PID + o.Tail() + more;
      assert Render(owners) + closing == o.Head() + text;
      if o.Cuts() {
        UpToEndWithinHead(o, text);
      } else {
        HeadSeen(o, text);
        TailSeen(o, more);
        if |owners| > 1 {
          CommaSeen(Render(rest) + closing);
          ListSeen(rest, after);
        }
        assert UpToEnd(text) == PID + (o.Tail() + UpToEnd(more));
      }
    }
  }

  lemma UpToEndWithinHead(o: Owner, text: string)
    requires o.Cuts()
    ensures UpToEnd(o.Head() + text) == UpToEnd(o.Head())
  {
    UpToEndWithin(o.Head(), text);
  }

  /** What parsing a rendered list returns, whatever the names look like, and
      whatever stands in front of the first `users:(` and behind the list. */
  lemma RenderedOwnersReadBack(before: string, owners: seq<Owner>, after: string)
    requires Absent(before, MARKER) && AllRenderable(owners)
    requires after == "" || after[0] == ' '
    ensures ParseUsers(before + MARKER + (Render(owners) + (")" + after))) == ReadBack(owners)
  {
    hide Split, ParsePieces, Render, AllRenderable, Index, UpToEnd, Absent;
    var text := Render(owners) + (")" + after);
    var line := before + MARKER + text;
    FirstOccurrence(before, MARKER, text);
    assert line[|before| + |MARKER|..] == text;
    ListSeen(owners, after);
    SeenParses(owners, if after == "" then ")" else "");
  }

  // ---- names ----

  /** A name looks like the end of the list if and only if it contains a closing
      bracket with a space behind it. */
  lemma CutsByName(o: Owner)
    ensures o.Cuts() <==> !Absent(o.name, ") ")
  {
    hide Index;
    var k := IndexOf(o.Head(), ") ");
    if Absent(o.name, ") ") {
      AbsentWithoutChar("(", ") ", 1);
      AbsentWithoutChar(",", ") ", 1);
      AbsentAround(o.name, '"', ",", ") ");
      AbsentAround("(", '"', o.name + ['"'] + ",", ") ");
      assert o.Head() == "(" + ['"'] + (o.name + ['"'] + ",");
    } else {
      var j: nat :| OccursAt(o.name, ") ", j);
      OccursWithin(o.name, "\",", ") ", j);
      OccursBehind("(\"", o.name + "\",", ") ", j + 2);
      assert o.Head() == "(\"" + (o.name + "\",");
    }
  }

  predicate Uncut(owners: seq<Owner>) {
    forall i :: 0 <= i < |owners| ==> !owners[i].Cuts()
  }

  /** No name, as far as it is seen, is taken for an owner. */
  predicate Quiet(owners: seq<Owner>) {
    forall i :: 0 <= i < |owners| ==> owners[i].Phantoms() == []
  }

  lemma {:induction false} UncutLength(owners: seq<Owner>)
    requires Uncut(owners)
    ensures |ReadBack(owners)| >= |owners|
    ensures |ReadBack(owners)| == |owners| <==> Quiet(owners)
  {
    hide Owner.Cuts, Owner.Phantoms;
    if owners != [] {
      UncutLength(owners[1..]);
      assert owners == [owners[0]] + owners[1..];
      assert Quiet(owners) <==> owners[0].Phantoms() == [] && Quiet(owners[1..]);
    }
  }

  lemma {:induction false} QuietLength(owners: seq<Owner>)
    requires Quiet(owners)
    ensures |ReadBack(owners)| <= |owners|
    ensures |ReadBack(owners)| == |owners| <==> Uncut(owners)
  {
    hide Owner.Cuts, Owner.Phantoms;
    if owners != [] {
      QuietLength(owners[1..]);
      assert owners == [owners[0]] + owners[1..];
      assert Uncut(owners) <==> !owners[0].Cuts() && Uncut(owners[1..]);
    }
  }

  lemma {:induction false} QuietReadBack(owners: seq<Owner>)
    requires Uncut(owners) && Quiet(owners)
    ensures ReadBack(owners) == UsersOf(owners)
  {
    hide Owner.Cuts, Owner.Phantoms;
    if owners != [] {
      QuietReadBack(owners[1..]);
      assert UsersOf(owners) == [owners[0].User()] + UsersOf(owners[1..]);
    }
  }

  /** Round trip: if no name looks like the end of the list, parsing returns
      exactly the printed (pid, fd) pairs in order if and only if no name is taken
      for an owner; and if no name is, if and only if none looks like the end. */
  lemma RenderedOwnersParse(before: string, owners: seq<Owner>, after: string)
    requires Absent(before, MARKER) && AllRenderable(owners)
    requires after == "" || after[0] == ' '
    ensures var users := ParseUsers(before + MARKER + (Render(owners) + (")" + after)));
            && (Uncut(owners) ==> (users == UsersOf(owners) <==> Quiet(owners)))
            && (Quiet(owners) ==> (users == UsersOf(owners) <==> Uncut(owners)))
  {
    hide ParseUsers, Render, ReadBack, Uncut, Quiet, Absent;
    RenderedOwnersReadBack(before, owners, after);
    OwnersReadBack(owners);
  }

  lemma OwnersReadBack(owners: seq<Owner>)
    ensures Uncut(owners) ==> (ReadBack(owners) == UsersOf(owners) <==> Quiet(owners))
    ensures Quiet(owners) ==> (ReadBack(owners) == UsersOf(owners) <==> Uncut(owners))
  {
    hide ReadBack, Uncut, Quiet;
    if Uncut(owners) {
      UncutLength(owners);
    }
    if Quiet(owners) {
      QuietLength(owners);
    }
    if Uncut(owners) && Quiet(owners) {
      QuietReadBack(owners);
    }
  }

  /** The phantoms of a name that consists of `pid=` and some more text. */
  lemma PhantomsBehind(o: Owner, text: string)
    requires o.name == PID + text && ' ' !in text && 'p' !in text
    ensures !o.Cuts()
    ensures o.Phantoms() == if ParsePiece(text + "\",").Some? then [ParsePiece(text + "\",").value] else []
  {
    hide ParsePiece, Index;
    AbsentWithoutChar(o.name, ") ", 1);
    CutsByName(o);
    HeadStart(o);
    var piece := text + "\",";
    assert o.Head() == "(\"" + PID + piece;
    SplitAt("(\"", piece);
    AbsentWithoutChar("(\"", PID, 0);
    AbsentWithoutChar(piece, PID, 0);
    AbsentIndex("(\"", PID);
    AbsentIndex(piece, PID);
    ParsePiecesAppend(["(\""], [piece]);
    OpeningPiece("(\"");
    ParseOne("(\"");
    ParseOne(piece);
  }

  /** A process of this name is reported with an extra owner ... */
  lemma PhantomOwner(o: Owner)
    requires o.name == "pid=1,fd=2)"
    ensures ReadBack([o]) == [SocketUser(1, 2, SOCK_STREAM), o.User()]
  {
    hide ParsePiece, Owner.Cuts, Owner.Phantoms;
    var text := "1,fd=2)";
    assert FormatInt(1) == "1" && FormatUint(2) == "2";
    assert Owner("", 1, 2).Tail() == text;
    PieceOfTail(Owner("", 1, 2), "\",");
    PhantomsBehind(o, text);
    assert [o][1..] == [];
  }

  /** ... one of these names is not, although they contain `pid=` as well ... */
  lemma HarmlessNames(o: Owner)
    requires o.name == "pid=x" || o.name == "pid=1,fd=2"
    ensures ReadBack([o]) == [o.User()]
  {
    if o.name == "pid=x" {
      hide Owner.Cuts, Owner.Phantoms;
      assert ParsePiece("x" + "\",") == None;
      PhantomsBehind(o, "x");
    } else {
      NoNumber();
      hide Owner.Cuts, Owner.Phantoms, ParsePiece;
      PhantomsBehind(o, "1,fd=2");
    }
    assert [o][1..] == [];
  }

  lemma NoNumber()
    ensures ParsePiece("1,fd=2" + "\",") == None
  {
    hide ParseInt, ParseUint, Index;
    var piece := "1,fd=2" + "\",";
    IndexOfCharIs("1", ',', "fd=2\",", {','});
    assert piece == "1" + [','] + "fd=2\",";
    var rest := piece[2..];
    assert rest == "fd=" + "2\",";
    assert rest[0..3] == "fd=";
    assert OccursAt(rest, "fd=", 0);
    IndexIs(rest, "fd=", 0);
    var fdPart := rest[3..];
    assert fdPart == "2\"" + [','] + "";
    IndexOfCharIs("2\"", ',', "", {')', ','});
    assert fdPart[..2] == "2\"";
    NotANumber();
  }

  lemma NotANumber()
    ensures ParseUint("2\"", TWO_TO_THE_32) == None
  {
    assert !IsDigit("2\""[1]);
  }

  /** ... and one of this name hides itself and all owners behind it. */
  lemma HiddenOwner(o: Owner, others: seq<Owner>)
    requires o.name == "a) b"
    ensures ReadBack([o] + others) == []
  {
    hide ParsePiece, Index;
    assert o.name[1..3] == ") ";
    assert OccursAt(o.name, ") ", 1);
    CutsByName(o);
    HeadStart(o);
    var seen := UpToEnd(o.Head());
    var k := IndexOf(o.Head(), ") ");
    assert o.Head()[3..5] == ") ";
    assert OccursAt(o.Head(), ") ", 3);
    assert k <= 3;
    AbsentWithoutChar(seen, PID, 0);
    AbsentIndex(seen, PID);
    ParseOne(seen);
    OpeningPiece(seen);
    assert ([o] + others)[0] == o;
  }
}
