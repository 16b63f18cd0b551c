/** What the client's parser makes of a response of the server, octet by octet and call by call. */
module ClientReads {
  import opened Text
  import opened Decimal
  import opened HttpParse
  import opened HeadText
  import opened LineMachine
  import opened HttpClient
  import opened HttpServer

  /** The Range start as the server knows it: -1 when the client sends no Range header. */
  function StartOf(g: Get): int { if g.first > 0 then g.first else -1 }

  /** The file a request can be answered from: within the `int` range both sides compute in. */
  predicate Answerable(g: Get, content: string) {
    g.first < |content| <= INT32_MAX
  }

  // ---- each line of the response head ----

  lemma PrintNonNul(n: nat)
    ensures '\0' !in Print(n) && '\r' !in Print(n)
  {
  }

  function StatusLineFor(text: string): string { "HTTP/1.1 " + text + " OK" }

  lemma StatusLineParts(text: string)
    requires '\0' !in text && '\r' !in text
    ensures var line := StatusLineFor(text);
            CString(line) == line && IndexOf(line, ' ', 0) == 8 && line[9..] == text + " OK" && CleanLine(line)
  {
    var line := StatusLineFor(text);
    CStringOfClean(line);
    assert line[8] == ' ' && ' ' !in line[0..8];
    IndexOfUnique(line, ' ', 0, 8);
  }

  lemma ReadStatus(s: State, code: nat)
    requires code == 200 || code == 206
    ensures OnStatusLine(s, StatusLineFor(Print(code))) == s.(status := code, phase := Headers, found := false)
  {
    PrintNonNul(code);
    StatusLineParts(Print(code));
    StrtolOfPrint(code, " OK");
    Wrap32Identity(code);
  }

  lemma ReadField(s: State, name: string, value: string)
    requires name != "" && ':' !in name && '\0' !in name && '\0' !in value
    ensures OnHeaderLine(s, Field(name, value)) == OnHeader(s.(headers := s.headers + [(name, value)]), name, value)
  {
    FieldParts(name, value);
  }

  lemma KnownNames()
    ensures EqualFold("Content-Length", "content-length")
    ensures EqualFold("Content-Range", "content-range")
  {
  }

  lemma ReadLength(s: State, n: nat)
    requires n <= INT64_MAX
    ensures OnHeaderLine(s, Field("Content-Length", Print(n))) ==
            s.(headers := s.headers + [("Content-Length", Print(n))], bodyLen := n)
  {
    PrintNonNul(n);
    ReadField(s, "Content-Length", Print(n));
    KnownNames();
    assert Print(n) + "" == Print(n);
    StrtolOfPrint(n, "");
  }

  lemma ReadType(s: State, path: string)
    ensures OnHeaderLine(s, Field("Content-Type", ContentType(path))) ==
            s.(headers := s.headers + [("Content-Type", ContentType(path))])
  {
    ReadField(s, "Content-Type", ContentType(path));
  }

  lemma ReadContentRange(s: State, first: nat, size: nat)
    requires s.first == first < size <= INT32_MAX
    ensures var v := PrintContentRange(first, size - 1, size);
            OnHeaderLine(s, Field("Content-Range", v)) ==
            s.(headers := s.headers + [("Content-Range", v)], found := true)
  {
    var v := PrintContentRange(first, size - 1, size);
    PrintNonNul(first);
    PrintNonNul(size - 1);
    PrintNonNul(size);
    ReadField(s, "Content-Range", v);
    KnownNames();
    ContentRangeRoundTrip(first, size - 1, size);
    Wrap32Identity(first);
    Wrap32Identity(size);
    Wrap32Identity(size - 1);
  }

  // ---- lines of any response ----

  /** The status is the number behind the first space, wherever that is; only 200 and 206 lead on. */
  lemma AnyStatusLine(s: State, before: string, after: string)
    requires '\0' !in before && '\0' !in after && ' ' !in before
    ensures var code, t := Wrap32(Strtol(after)), OnStatusLine(s, before + " " + after);
            t.status == code && t.phase == if code == 200 || code == 206 then Headers else Aborted
  {
    var line := before + " " + after;
    CStringOfClean(line);
    assert line[|before|] == ' ' && line[0..|before|] == before && line[|before| + 1..] == after;
    IndexOfUnique(line, ' ', 0, |before|);
  }

  /** A header line is split at the first colon; the character behind it, whatever it is, belongs to neither. */
  lemma AnyHeaderLine(s: State, name: string, c: char, value: string)
    requires '\0' !in name && c != '\0' && '\0' !in value && ':' !in name
    ensures OnHeaderLine(s, name + ":" + [c] + value) ==
            OnHeader(s.(headers := s.headers + [(name, value)]), name, value)
  {
    var line := name + ":" + [c] + value;
    CStringOfClean(line);
    assert line[|name|] == ':' && line[0..|name|] == name && line[..|name|] == name && line[|name| + 2..] == value;
    IndexOfUnique(line, ':', 0, |name|);
  }

  /** A status line without a space, and a header line without a colon or with nothing behind it, abort. */
  lemma BadLines(s: State, line: string, name: string)
    requires '\0' !in line && line != "" && '\0' !in name && ':' !in name
    ensures ' ' !in line ==> OnStatusLine(s, line).phase == Aborted
    ensures ':' !in line ==> OnHeaderLine(s, line).phase == Aborted
    ensures OnHeaderLine(s, name + ":").phase == Aborted
  {
    CStringOfClean(line);
    CStringOfClean(name + ":");
    assert (name + ":")[|name|] == ':' && (name + ":")[0..|name|] == name;
    IndexOfUnique(name + ":", ':', 0, |name|);
  }

  // ---- the whole response ----

  predicate Ready(s: State, g: Get) {
    s.phase == StatusLine && s.active == [g] && s.first == g.first && s.headers == [] && s.got == "" && !s.found
  }

  /** What matters of that while the head is read. */
  predicate Fits(s: State, g: Get) {
    s.phase == StatusLine && s.headers == [] && !s.found && (g.first > 0 ==> s.first == g.first)
  }

  function LinesFor(g: Get, path: string, content: string): seq<string>
    requires Answerable(g, content)
  {
    ResponseLines(path, StartOf(g), |content|)
  }

  function HeadFor(g: Get, path: string, content: string): string
    requires Answerable(g, content)
  {
    Head(LinesFor(g, path, content))
  }

  /** The response the server owes to `g`. */
  function Whole(g: Get, path: string, content: string): string
    requires Answerable(g, content)
  {
    HeadFor(g, path, content) + content[g.first..]
  }

  function Code(g: Get): int { if g.first > 0 then 206 else 200 }

  function HeadersFor(g: Get, path: string, content: string): seq<(string, string)>
    requires Answerable(g, content)
  {
    [("Content-Length", Print(|content| - g.first)), ("Content-Type", ContentType(path))] +
    if g.first > 0 then [("Content-Range", PrintContentRange(g.first, |content| - 1, |content|))] else []
  }

  /** The parser after the first `i` lines of the head. */
  function Stage(s: State, g: Get, path: string, content: string, i: nat): State
    requires Answerable(g, content)
  {
    if i == 0 then s else
    var hs := HeadersFor(g, path, content);
    s.(status := Code(g), phase := Headers, found := i == 4,
       headers := s.headers + if i - 1 <= |hs| then hs[..i - 1] else hs,
       bodyLen := if i == 1 then s.bodyLen else |content| - g.first)
  }

  lemma StageStep(s: State, g: Get, path: string, content: string, i: nat)
    requires Fits(s, g) && Answerable(g, content) && i < |LinesFor(g, path, content)|
    ensures OnLine(Stage(s, g, path, content, i), LinesFor(g, path, content)[i]) == Stage(s, g, path, content, i + 1)
  {
    var t := Stage(s, g, path, content, i);
    var hs := HeadersFor(g, path, content);
    if i == 0 {
      ReadStatus(s, Code(g));
      assert hs[..0] == [] && s.headers + [] == s.headers;
    } else {
      assert LinesFor(g, path, content)[i] == Field(hs[i - 1].0, hs[i - 1].1);
      assert hs[..i] == hs[..i - 1] + [hs[i - 1]];
      assert s.headers + hs[..i] == s.headers + hs[..i - 1] + [hs[i - 1]];
      FieldStep(t, g, path, content, i - 1);
    }
  }

  /** The state after the header line `h`, the `j`th. */
  function AfterField(t: State, h: (string, string), n: nat, j: nat): State {
    t.(headers := t.headers + [h], bodyLen := n, found := j == 2)
  }

  predicate AtField(t: State, g: Get, content: string, j: nat)
    requires Answerable(g, content)
  {
    && (g.first > 0 ==> t.first == g.first) && t.phase == Headers && !t.found
    && (j > 0 ==> t.bodyLen == |content| - g.first)
  }

  lemma FieldStep(t: State, g: Get, path: string, content: string, j: nat)
    requires Answerable(g, content) && j < |HeadersFor(g, path, content)| && AtField(t, g, content, j)
    ensures var h := HeadersFor(g, path, content)[j];
            OnHeaderLine(t, Field(h.0, h.1)) == AfterField(t, h, |content| - g.first, j)
  {
    if j == 0 { FirstField(t, g, path, content); }
    else if j == 1 { SecondField(t, g, path, content); }
    else { HeadersAre(g, path, content); ThirdField(t, g, path, content); }
  }

  lemma FirstField(t: State, g: Get, path: string, content: string)
    requires Answerable(g, content) && AtField(t, g, content, 0)
    ensures |HeadersFor(g, path, content)| > 0
    ensures var h := HeadersFor(g, path, content)[0];
            OnHeaderLine(t, Field(h.0, h.1)) == AfterField(t, h, |content| - g.first, 0)
  {
    HeadersAre(g, path, content);
    LengthStep(t, |content| - g.first);
  }

  lemma SecondField(t: State, g: Get, path: string, content: string)
    requires Answerable(g, content) && AtField(t, g, content, 1)
    ensures |HeadersFor(g, path, content)| > 1
    ensures var h := HeadersFor(g, path, content)[1];
            OnHeaderLine(t, Field(h.0, h.1)) == AfterField(t, h, |content| - g.first, 1)
  {
    HeadersAre(g, path, content);
    TypeStep(t, path, |content| - g.first);
  }

  lemma ThirdField(t: State, g: Get, path: string, content: string)
    requires Answerable(g, content) && AtField(t, g, content, 2) && g.first > 0
    ensures |HeadersFor(g, path, content)| == 3
    ensures var h := HeadersFor(g, path, content)[2];
            OnHeaderLine(t, Field(h.0, h.1)) == AfterField(t, h, |content| - g.first, 2)
  {
    HeadersAre(g, path, content);
    RangeStep(t, g.first, |content|);
  }

  lemma HeadersAre(g: Get, path: string, content: string)
    requires Answerable(g, content)
    ensures var hs := HeadersFor(g, path, content);
            && |hs| == (if g.first > 0 then 3 else 2) && hs[0] == ("Content-Length", Print(|content| - g.first))
            && hs[1] == ("Content-Type", ContentType(path))
            && (g.first > 0 ==> hs[2] == ("Content-Range", PrintContentRange(g.first, |content| - 1, |content|)))
  {
  }

  lemma LengthStep(t: State, n: nat)
    requires t.phase == Headers && !t.found && 0 < n <= INT32_MAX
    ensures OnHeaderLine(t, Field("Content-Length", Print(n))) ==
            t.(headers := t.headers + [("Content-Length", Print(n))], bodyLen := n, found := false)
  {
    ReadLength(t, n);
  }

  lemma TypeStep(t: State, path: string, n: nat)
    requires t.phase == Headers && !t.found && t.bodyLen == n
    ensures OnHeaderLine(t, Field("Content-Type", ContentType(path))) ==
            t.(headers := t.headers + [("Content-Type", ContentType(path))], bodyLen := n, found := false)
  {
    ReadType(t, path);
  }

  lemma RangeStep(t: State, first: nat, n: nat)
    requires t.phase == Headers && 0 < first < n <= INT32_MAX && t.first == first && t.bodyLen == n - first
    ensures var h := ("Content-Range", PrintContentRange(first, n - 1, n));
            OnHeaderLine(t, Field(h.0, h.1)) == t.(headers := t.headers + [h], bodyLen := n - first, found := true)
  {
    ReadContentRange(t, first, n);
  }

  lemma CleanField(name: string, value: string)
    requires '\0' !in name && '\r' !in name && '\0' !in value && '\r' !in value
    ensures CleanLine(Field(name, value))
  {
  }

  lemma CleanThree(a: string, b: string, c: string, rest: seq<string>)
    requires CleanLine(a) && CleanLine(b) && CleanLine(c) && CleanLines(rest)
    ensures CleanLines([a, b, c] + rest)
  {
  }

  lemma CleanLength(n: nat)
    ensures CleanLine(Field("Content-Length", Print(n)))
  {
    PrintNonNul(n);
    CleanField("Content-Length", Print(n));
  }

  lemma CleanType(path: string)
    ensures CleanLine(Field("Content-Type", ContentType(path)))
  {
    CleanField("Content-Type", ContentType(path));
  }

  lemma CleanRange(a: nat, b: nat, n: nat)
    ensures CleanLine(Field("Content-Range", PrintContentRange(a, b, n)))
  {
    PrintNonNul(a);
    PrintNonNul(b);
    PrintNonNul(n);
    CleanField("Content-Range", PrintContentRange(a, b, n));
  }

  lemma CleanHead(g: Get, path: string, content: string)
    requires Answerable(g, content)
    ensures CleanLines(LinesFor(g, path, content))
  {
    var n := |content|;
    PrintNonNul(Code(g));
    StatusLineParts(Print(Code(g)));
    CleanLength(n - g.first);
    CleanType(path);
    CleanRange(g.first, n - 1, n);
    CleanThree(StatusLineFor(Print(Code(g))), Field("Content-Length", Print(n - g.first)),
      Field("Content-Type", ContentType(path)),
               if g.first > 0 then [Field("Content-Range", PrintContentRange(g.first, n - 1, n))] else []);
  }

  /** The parser once the head and `m` octets of the body are in. */
  function Midway(s: State, g: Get, path: string, content: string, m: nat): State
    requires Answerable(g, content) && g.first + m <= |content|
  {
    s.(status := Code(g), phase := Body, found := false, headers := [],
       log := s.log + [Meta(Code(g), HeadersFor(g, path, content))],
       bodyLen := |content| - g.first - m, got := content[g.first..g.first + m])
  }

  /** The parser once the whole response is in. */
  function Complete(s: State, g: Get, path: string, content: string): State
    requires Ready(s, g) && Answerable(g, content)
  {
    Finish(Midway(s, g, path, content, |content| - g.first))
  }

  lemma HeadEnds(s: State, g: Get, path: string, content: string)
    requires Ready(s, g) && Answerable(g, content)
    ensures OnHeadEnd(Stage(s, g, path, content, |LinesFor(g, path, content)|)) == Midway(s, g, path, content, 0)
  {
    var hs := HeadersFor(g, path, content);
    assert hs[..|hs|] == hs && s.headers + hs == hs;
  }

  lemma DrainPart(s: State, body: string)
    requires s.phase == Body && s.active != [] && |body| < s.bodyLen
    ensures Drain(CLIENT, Buffered(body, s)) ==
            Buffered("", s.(got := s.got + body, bodyLen := s.bodyLen - |body|))
    decreases |body|
  {
    if body == "" {
      assert s.got + body == s.got;
    } else {
      assert s.got + [body[0]] + body[1..] == s.got + body;
      DrainPart(OnBodyOctet(s, body[0]), body[1..]);
    }
  }

  lemma DrainAll(s: State, body: string)
    requires s.phase == Body && s.active != [] && |body| == s.bodyLen > 0
    ensures Drain(CLIENT, Buffered(body, s)) ==
            Buffered("", Finish(s.(got := s.got + body, bodyLen := 0)))
    decreases |body|
  {
    assert s.got + [body[0]] + body[1..] == s.got + body;
    if |body| == 1 {
      assert body[1..] == "" && s.got + [body[0]] == s.got + body;
      FinishedIdles(s.(got := s.got + body, bodyLen := 0));
    } else {
      DrainAll(OnBodyOctet(s, body[0]), body[1..]);
    }
  }

  lemma FinishedIdles(s: State)
    requires s.active != []
    ensures Drain(CLIENT, Buffered("", Finish(s))) == Buffered("", Finish(s))
  {
    assert ReadLine("").NoLine?;
  }

  /** The parser's state `m` octets into the body. */
  function ArrivedAt(s: State, g: Get, path: string, content: string, m: nat): State
    requires Ready(s, g) && Answerable(g, content)
  {
    if m < |content| - g.first then Midway(s, g, path, content, m) else Complete(s, g, path, content)
  }

  lemma TailSlice(content: string, first: nat, m: nat)
    requires first + m <= |content|
    ensures content[first..][..m] == content[first..first + m] && content[first..first + 0] == ""
    ensures content[first..first + 0] + content[first..first + m] == content[first..first + m]
  {
  }

  lemma Handed(s: State, g: Get, path: string, content: string, m: nat)
    requires Answerable(g, content) && g.first + m <= |content|
    ensures var t := Midway(s, g, path, content, 0);
            t.(got := t.got + content[g.first..g.first + m], bodyLen := t.bodyLen - m) == Midway(s, g, path, content, m)
  {
    TailSlice(content, g.first, m);
  }

  lemma BodyPart(s: State, g: Get, path: string, content: string, m: nat)
    requires Ready(s, g) && Answerable(g, content) && m < |content| - g.first
    ensures Drain(CLIENT, Buffered(content[g.first..g.first + m], Midway(s, g, path, content, 0))) ==
            Buffered("", Midway(s, g, path, content, m))
  {
    var t, body := Midway(s, g, path, content, 0), content[g.first..g.first + m];
    Handed(s, g, path, content, m);
    assert t.phase == Body && t.active != [] && |body| < t.bodyLen;
    assert t.(got := t.got + body, bodyLen := t.bodyLen - |body|) == Midway(s, g, path, content, m);
    DrainPart(t, body);
  }

  lemma BodyWhole(s: State, g: Get, path: string, content: string)
    requires Ready(s, g) && Answerable(g, content)
    ensures Drain(CLIENT, Buffered(content[g.first..|content|], Midway(s, g, path, content, 0))) ==
            Buffered("", Complete(s, g, path, content))
  {
    var t, body := Midway(s, g, path, content, 0), content[g.first..|content|];
    Handed(s, g, path, content, |content| - g.first);
    assert t.(got := t.got + body, bodyLen := 0) == Midway(s, g, path, content, |content| - g.first);
    DrainAll(t, body);
  }

  lemma BodyArrives(s: State, g: Get, path: string, content: string, m: nat)
    requires Ready(s, g) && Answerable(g, content) && m <= |content| - g.first
    ensures Drain(CLIENT, Buffered(content[g.first..][..m], Midway(s, g, path, content, 0))) ==
            Buffered("", ArrivedAt(s, g, path, content, m))
  {
    assert content[g.first..][..m] == content[g.first..g.first + m];
    if m == |content| - g.first { BodyWhole(s, g, path, content); } else { BodyPart(s, g, path, content, m); }
  }

  /** Nothing of the response has been handed over yet. */
  predicate Waiting(t: State, s: State) {
    (t.phase == StatusLine || t.phase == Headers) && t.got == s.got && t.active == s.active && t.log == s.log &&
    t.submitted == s.submitted && t.outbuf == s.outbuf && t.first == s.first
  }
}
