/** The string functions of Go's standard library that the parsers use. */
module Text {
  import opened Basics

  /** `unicode.IsSpace` */
  predicate IsSpace(c: char) {
    || c in {' ', '\t', '\n', '\r', '\U{0B}', '\U{0C}', '\U{85}', '\U{A0}'}
    || c in {'\U{1680}', '\U{2028}', '\U{2029}', '\U{202F}', '\U{205F}', '\U{3000}'}
    || '\U{2000}' <= c <= '\U{200A}'
  }

  function TrimLeft(s: string): string {
    if s != "" && IsSpace(s[0]) then TrimLeft(s[1..]) else s
  }

  function TrimRight(s: string): string {
    if s != "" && IsSpace(s[|s| - 1]) then TrimRight(s[..|s| - 1]) else s
  }

  /** `strings.TrimSpace` */
  function TrimSpace(s: string): string {
    TrimRight(TrimLeft(s))
  }

  /** A field: not empty and without white space. */
  predicate IsWord(s: string) {
    s != "" && forall i :: 0 <= i < |s| ==> !IsSpace(s[i])
  }

  /** Length of the leading run of characters that are not white space. */
  function WordLength(s: string): (n: nat)
    ensures n <= |s|
    ensures forall i :: 0 <= i < n ==> !IsSpace(s[i])
    ensures n < |s| ==> IsSpace(s[n])
  {
    if s == "" || IsSpace(s[0]) then 0 else 1 + WordLength(s[1..])
  }

  /** `strings.Fields` */
  function Fields(s: string): seq<string>
    decreases |s|
  {
    if s == "" then []
    else if IsSpace(s[0]) then Fields(s[1..])
    else
      var n := WordLength(s);
      [s[..n]] + Fields(s[n..])
  }

  function Join(words: seq<string>): string {
    if words == [] then ""
    else if |words| == 1 then words[0]
    else words[0] + " " + Join(words[1..])
  }

  lemma WordLengthOfWord(w: string, rest: string)
    requires IsWord(w) && (rest == "" || IsSpace(rest[0]))
    ensures WordLength(w + rest) == |w|
  {
    var n := WordLength(w + rest);
    assert forall i :: 0 <= i < |w| ==> (w + rest)[i] == w[i];
    assert rest != "" ==> (w + rest)[|w|] == rest[0];
  }

  /** Fields undoes Join. */
  lemma {:induction false} FieldsOfJoin(words: seq<string>)
    requires forall i :: 0 <= i < |words| ==> IsWord(words[i])
    ensures Fields(Join(words)) == words
  {
    if |words| == 1 {
      var w := words[0];
      WordLengthOfWord(w, "");
      assert w + "" == w && w[..|w|] == w && Fields(w[|w|..]) == [];
    } else if |words| > 1 {
      var w, rest := words[0], " " + Join(words[1..]);
      WordLengthOfWord(w, rest);
      assert Join(words) == w + rest;
      assert (w + rest)[..|w|] == w && (w + rest)[|w|..] == rest;
      assert rest[1..] == Join(words[1..]);
      FieldsOfJoin(words[1..]);
    }
  }

  lemma FieldsOfWord(w: string, rest: string)
    requires IsWord(w)
    ensures Fields(w + (" " + rest)) == [w] + Fields(rest)
  {
    var line, tail := w + (" " + rest), " " + rest;
    WordLengthOfWord(w, tail);
    assert line[..|w|] == w && line[|w|..] == tail && tail[1..] == rest;
    assert line[0] == w[0];
    assert Fields(tail) == Fields(rest);
  }

  /** The first fields of a line that goes on after them. */
  lemma {:induction false} FieldsOfPrefix(words: seq<string>, rest: string)
    requires words != [] && forall i :: 0 <= i < |words| ==> IsWord(words[i])
    ensures Fields(Join(words) + " " + rest) == words + Fields(rest)
  {
    hide Fields;
    var w := words[0];
    if |words| == 1 {
      FieldsOfWord(w, rest);
      assert Join(words) + " " + rest == w + (" " + rest);
    } else {
      var tail := Join(words[1..]) + " " + rest;
      FieldsOfWord(w, tail);
      FieldsOfPrefix(words[1..], rest);
      assert Join(words) + " " + rest == w + (" " + tail);
      assert words == [w] + words[1..];
    }
  }

  /** A joined line starts and ends with a word, so trimming does nothing. */
  lemma {:induction false} JoinEnds(words: seq<string>)
    requires words != [] && forall i :: 0 <= i < |words| ==> IsWord(words[i])
    ensures Join(words) != "" && !IsSpace(Join(words)[0]) && !IsSpace(Join(words)[|Join(words)| - 1])
  {
    if |words| > 1 {
      JoinEnds(words[1..]);
    }
  }

  lemma TrimOfJoin(words: seq<string>)
    requires words != [] && forall i :: 0 <= i < |words| ==> IsWord(words[i])
    ensures TrimSpace(Join(words)) == Join(words)
  {
    JoinEnds(words);
  }

  /** `strings.Cut` at a single character. */
  function Cut(s: string, sep: char): Option<(string, string)> {
    if s == "" then None
    else if s[0] == sep then Some(("", s[1..]))
    else
      var rest := Cut(s[1..], sep);
      if rest.None? then None else Some(([s[0]] + rest.value.0, rest.value.1))
  }

  lemma {:induction false} CutAtFirst(a: string, sep: char, b: string)
    requires sep !in a
    ensures Cut(a + [sep] + b, sep) == Some((a, b))
  {
    if a == "" {
      assert "" + [sep] + b == [sep] + b;
    } else {
      CutAtFirst(a[1..], sep, b);
      assert (a + [sep] + b)[1..] == a[1..] + [sep] + b;
      assert a == [a[0]] + a[1..];
    }
  }

  predicate IsBracket(c: char) {
    c == '[' || c == ']'
  }

  function TrimLeftBrackets(s: string): string {
    if s != "" && IsBracket(s[0]) then TrimLeftBrackets(s[1..]) else s
  }

  function TrimRightBrackets(s: string): string {
    if s != "" && IsBracket(s[|s| - 1]) then TrimRightBrackets(s[..|s| - 1]) else s
  }

  /** `strings.Trim(s, "[]")` */
  function TrimBrackets(s: string): string {
    TrimRightBrackets(TrimLeftBrackets(s))
  }

  predicate HasPrefix(s: string, prefix: string) {
    |prefix| <= |s| && s[..|prefix|] == prefix
  }

  predicate OccursAt(s: string, sub: string, i: nat) {
    i + |sub| <= |s| && s[i..i + |sub|] == sub
  }

  ghost predicate Absent(s: string, sub: string) {
    forall i: nat :: !OccursAt(s, sub, i)
  }

  /** `i` is the first index at which `sub` occurs, or -1. */
  ghost predicate IsIndex(s: string, sub: string, i: int) {
    if i < 0 then i == -1 && Absent(s, sub)
    else OccursAt(s, sub, i) && forall j: nat :: j < i ==> !OccursAt(s, sub, j)
  }

  /** `strings.Index`, with -1 for absent. */
  function Index(s: string, sub: string): (i: int)
    ensures IsIndex(s, sub, i)
    decreases |s|
  {
    if HasPrefix(s, sub) then 0
    else if s == "" then -1
    else
      IndexShifts(s, sub, Index(s[1..], sub));
      var i := Index(s[1..], sub);
      if i == -1 then -1 else i + 1
  }

  lemma IndexShifts(s: string, sub: string, i: int)
    requires s != "" && !HasPrefix(s, sub) && IsIndex(s[1..], sub, i)
    ensures IsIndex(s, sub, if i == -1 then -1 else i + 1)
  {
    hide OccursAt, HasPrefix;
    NotAtStart(s, sub);
    forall j: nat | j > 0
      ensures OccursAt(s, sub, j) <==> OccursAt(s[1..], sub, j - 1)
    {
      OccurrenceShifts(s, sub, j);
    }
  }

  lemma NotAtStart(s: string, sub: string)
    requires !HasPrefix(s, sub)
    ensures !OccursAt(s, sub, 0)
  {
  }

  lemma OccurrenceShifts(s: string, sub: string, j: nat)
    requires s != "" && j > 0
    ensures OccursAt(s, sub, j) <==> OccursAt(s[1..], sub, j - 1)
  {
    if j + |sub| <= |s| {
      var here, there := s[j..j + |sub|], s[1..][j - 1..j - 1 + |sub|];
      assert forall i :: 0 <= i < |sub| ==> here[i] == s[j + i] == there[i];
      assert here == there;
    }
  }

  lemma AbsentIndex(s: string, sub: string)
    requires Absent(s, sub)
    ensures Index(s, sub) == -1
  {
  }

  /** The first occurrence is the only index with these properties. */
  lemma IndexIs(s: string, sub: string, i: nat)
    requires OccursAt(s, sub, i) && forall j: nat :: j < i ==> !OccursAt(s, sub, j)
    ensures Index(s, sub) == i
  {
    var k := Index(s, sub);
    assert k >= 0;
    assert OccursAt(s, sub, k);
  }

  /** `strings.Split` with a non-empty separator. */
  function Split(s: string, sep: string): seq<string>
    requires sep != ""
    decreases |s|
  {
    var i := Index(s, sep);
    if i == -1 then [s] else [s[..i]] + Split(s[i + |sep|..], sep)
  }

  lemma AbsentWithoutChar(s: string, sub: string, i: nat)
    requires i < |sub| && sub[i] !in s
    ensures Absent(s, sub)
  {
    forall j: nat
      ensures !OccursAt(s, sub, j)
    {
      if j + |sub| <= |s| {
        assert s[j..j + |sub|][i] == s[j + i];
      }
    }
  }

  /** An occurrence cannot straddle a character that is not part of it. */
  lemma AbsentAround(a: string, c: char, b: string, sub: string)
    requires Absent(a, sub) && Absent(b, sub) && c !in sub && sub != ""
    ensures Absent(a + [c] + b, sub)
  {
    var s := a + [c] + b;
    forall j: nat
      ensures !OccursAt(s, sub, j)
    {
      if j + |sub| <= |a| {
        assert s[j..j + |sub|] == a[j..j + |sub|];
        assert OccursAt(s, sub, j) == OccursAt(a, sub, j);
      } else if |a| < j && j + |sub| <= |s| {
        var k := j - |a| - 1;
        assert s[j..j + |sub|] == b[k..k + |sub|];
        assert OccursAt(s, sub, j) == OccursAt(b, sub, k);
      } else if j + |sub| <= |s| {
        assert s[j..j + |sub|][|a| - j] == c;
      }
    }
  }

  /** Where a separator first occurs if the text before it does not contain it
      and it does not overlap itself. */
  lemma FirstOccurrence(p: string, sub: string, rest: string)
    requires sub != "" && Absent(p, sub)
    requires forall i :: 0 < i < |sub| ==> sub[i] != sub[0]
    ensures Index(p + sub + rest, sub) == |p|
  {
    var s := p + sub + rest;
    assert s[|p|..|p| + |sub|] == sub;
    forall j: nat | j < |p|
      ensures !OccursAt(s, sub, j)
    {
      if j + |sub| <= |p| {
        assert s[j..j + |sub|] == p[j..j + |sub|];
        assert OccursAt(s, sub, j) == OccursAt(p, sub, j);
      } else if j + |sub| <= |s| {
        assert s[j..j + |sub|][|p| - j] == s[|p|] == sub[0];
      }
    }
    IndexIs(s, sub, |p|);
  }

  lemma SplitAtFirst(p: string, sep: string, rest: string)
    requires sep != "" && Absent(p, sep)
    requires forall i :: 0 < i < |sep| ==> sep[i] != sep[0]
    ensures Split(p + sep + rest, sep) == [p] + Split(rest, sep)
  {
    FirstOccurrence(p, sep, rest);
    assert (p + sep + rest)[..|p|] == p;
    assert (p + sep + rest)[|p| + |sep|..] == rest;
  }

  lemma WordIsTrimmed(w: string)
    requires IsWord(w)
    ensures TrimSpace(w) == w
  {
  }

  lemma WithoutBrackets(s: string)
    requires s != "" && '[' !in s && ']' !in s
    ensures TrimBrackets(s) == s && TrimBrackets("[" + s + "]") == s
  {
    assert ("[" + s + "]")[1..] == s + "]";
    assert (s + "]")[0] == s[0] && (s + "]")[..|s|] == s;
    assert TrimLeftBrackets("[" + s + "]") == s + "]";
    assert TrimRightBrackets(s + "]") == TrimRightBrackets(s);
  }
}
