/** Octet strings as the C code sees them: NUL-terminated reads, CRLF lines,
    ASCII case folding. One `char` stands for one octet. */
module Text {

  /** `buf[i]` of a NUL-terminated buffer. */
  function At(s: string, i: nat): char {
    if i < |s| then s[i] else '\0'
  }

  /** The part of an octet string that the C string functions see. */
  function CString(s: string): string {
    if s == "" || s[0] == '\0' then "" else [s[0]] + CString(s[1..])
  }

  lemma CStringOfClean(s: string)
    requires '\0' !in s
    ensures CString(s) == s
  {
  }

  function Lower(c: char): char {
    if 'A' <= c <= 'Z' then c - 'A' + 'a' else c
  }

  /** strcasecmp(a, b) == 0 */
  predicate EqualFold(a: string, b: string) {
    |a| == |b| && forall i | 0 <= i < |a| :: Lower(a[i]) == Lower(b[i])
  }

  /** strncasecmp(s + i, lit, |lit|) == 0, for a literal without NUL */
  predicate MatchesFold(s: string, i: nat, lit: string) {
    i + |lit| <= |s| && EqualFold(s[i..i + |lit|], lit)
  }

  /** Index of the first `c` at or after `i`, or -1 (strchr). */
  function IndexOf(s: string, c: char, i: nat): (r: int)
    requires i <= |s|
    ensures r == -1 || i <= r < |s|
    ensures r == -1 ==> c !in s[i..]
    ensures r >= 0 ==> s[r] == c && c !in s[i..r]
    decreases |s| - i
  {
    if i == |s| then -1
    else if s[i] == c then i
    else
      assert s[i..] == [s[i]] + s[i + 1..];
      var r := IndexOf(s, c, i + 1);
      assert r >= 0 ==> s[i..r] == [s[i]] + s[i + 1..r];
      r
  }

  lemma IndexOfUnique(s: string, c: char, i: nat, k: nat)
    requires i <= k < |s| && s[k] == c && c !in s[i..k]
    ensures IndexOf(s, c, i) == k
    decreases k - i
  {
    if i < k {
      assert s[i..k] == [s[i]] + s[i + 1..k];
      IndexOfUnique(s, c, i + 1, k);
    }
  }

  /** Index of the first case-insensitive occurrence of `lit` at or after `i`, or -1 (strcasestr). */
  function FindFold(s: string, lit: string, i: nat): (r: int)
    requires i <= |s|
    ensures r == -1 || (i <= r <= |s| && MatchesFold(s, r, lit))
    decreases |s| - i
  {
    if MatchesFold(s, i, lit) then i
    else if i == |s| then -1
    else FindFold(s, lit, i + 1)
  }

  // ---- CRLF-terminated lines (evbuffer_readln with EVBUFFER_EOL_CRLF_STRICT) ----

  predicate CrlfAt(s: string, i: nat) {
    i + 1 < |s| && s[i] == '\r' && s[i + 1] == '\n'
  }

  ghost predicate NoCrlf(s: string) {
    forall i: nat :: !CrlfAt(s, i)
  }

  function FindCrlf(s: string, i: nat): (r: int)
    requires i <= |s|
    ensures r == -1 ==> forall j: nat | i <= j :: !CrlfAt(s, j)
    ensures r != -1 ==> i <= r && CrlfAt(s, r) && forall j: nat | i <= j < r :: !CrlfAt(s, j)
    decreases |s| - i
  {
    if i == |s| then -1
    else if CrlfAt(s, i) then i
    else FindCrlf(s, i + 1)
  }

  datatype LineRead = NoLine | Line(line: string, rest: string)

  function ReadLine(s: string): (r: LineRead)
    ensures r.NoLine? <==> NoCrlf(s)
    ensures r.Line? ==> s == r.line + "\r\n" + r.rest
  {
    var k := FindCrlf(s, 0);
    if k == -1 then NoLine
    else
      assert s == s[..k] + "\r\n" + s[k + 2..];
      Line(s[..k], s[k + 2..])
  }

  /** A complete line is read the same way whatever arrives behind it. */
  lemma ReadLineAppend(a: string, b: string)
    requires ReadLine(a).Line?
    ensures ReadLine(a + b) == Line(ReadLine(a).line, ReadLine(a).rest + b)
  {
    var k := FindCrlf(a, 0);
    FirstCrlfIs(a + b, 0, k) by {
      assert CrlfAt(a, k);
      forall j: nat | j < k ensures !CrlfAt(a + b, j) { assert !CrlfAt(a, j); }
    }
    assert (a + b)[..k] == a[..k];
    assert (a + b)[k + 2..] == a[k + 2..] + b;
  }

  lemma FirstCrlfIs(s: string, i: nat, k: nat)
    requires i <= k && CrlfAt(s, k) && forall j: nat | i <= j < k :: !CrlfAt(s, j)
    ensures FindCrlf(s, i) == k
    decreases k - i
  {
    if i < k { FirstCrlfIs(s, i + 1, k); }
  }

  /** A line without a carriage return, written out and read back. */
  lemma ReadLineOf(line: string, rest: string)
    requires '\r' !in line
    ensures ReadLine(line + "\r\n" + rest) == Line(line, rest)
  {
    var s := line + "\r\n" + rest;
    var k := |line|;
    assert CrlfAt(s, k);
    forall j: nat | j < k ensures !CrlfAt(s, j) { assert s[j] == line[j]; }
    FirstCrlfIs(s, 0, k);
    assert s[..k] == line;
    assert s[k + 2..] == rest;
  }

  /** Each line followed by CRLF. */
  function CrlfLines(lines: seq<string>): string {
    if lines == [] then "" else lines[0] + "\r\n" + CrlfLines(lines[1..])
  }

  /** A message head: its lines and the empty line. */
  function Head(lines: seq<string>): string {
    CrlfLines(lines) + "\r\n"
  }

  /** `name: value` */
  function Field(name: string, value: string): string { name + ": " + value }
}
