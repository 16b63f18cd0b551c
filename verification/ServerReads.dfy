/** What the server's intake makes of the head of a client's request, however recv() cuts it. A request
    is queued as soon as its first line is in, and reading stops there: a Range that arrives later is
    not seen before the request is answered. */
module ServerReads {
  import opened Text
  import opened Decimal
  import opened HttpParse
  import opened HeadText
  import opened LineMachine
  import opened HttpClient
  import opened HttpServer
  import opened ClientReads

  const IDLE: Intake := Intake(RequestLine, [], false)

  predicate PlainText(s: string) { '\r' !in s && '\0' !in s }

  predicate PlainField(h: (string, string)) {
    PlainText(h.0) && PlainText(h.1) && !MatchesFold(Field(h.0, h.1), 0, "Range: ")
  }

  /** A request the client code can have been given: an absolute path of one word, and headers of its
      own that are not a Range. */
  predicate Sendable(g: Get) {
    && g.path != "" && g.path[0] == '/' && ' ' !in g.path && PlainText(g.path)
    && (forall h <- g.headers :: PlainField(h))
    && g.first <= INT32_MAX
  }

  // ---- line by line ----

  lemma GetLine(path: string)
    requires path != "" && path[0] == '/' && ' ' !in path && PlainText(path)
    ensures var line := "GET " + path + " HTTP/1.1";
            CleanLine(line) && CString(line) == line && FindFold(line, "GET ", 0) == 0 &&
            At(line, 4) == '/' && IndexOf(line, ' ', 4) == 4 + |path| && line[4..4 + |path|] == path
  {
    var line := "GET " + path + " HTTP/1.1";
    CStringOfClean(line);
    assert line[0..4] == "GET ";
    assert line[4..4 + |path|] == path;
    IndexOfUnique(line, ' ', 4, 4 + |path|);
  }

  lemma TakesRequestLine(k: Intake, path: string)
    requires path != "" && path[0] == '/' && ' ' !in path && PlainText(path) && k.queue == []
    ensures OnRequestLine(k, "GET " + path + " HTTP/1.1") == Intake(RequestHeaders, [Job(path, -1)], false)
  {
    GetLine(path);
  }

  lemma IgnoresField(k: Intake, h: (string, string))
    requires PlainField(h)
    ensures CleanLine(Field(h.0, h.1)) && OnRequestHeader(k, Field(h.0, h.1)) == k
  {
    CStringOfClean(Field(h.0, h.1));
  }

  lemma RangeLine(n: nat)
    ensures var line := Field("Range", PrintRange(n));
            CleanLine(line) && CString(line) == line && MatchesFold(line, 0, "Range: ") &&
            line == "Range: " + PrintRange(n)
  {
    var line, v := Field("Range", PrintRange(n)), PrintRange(n);
    PrintNonNul(n);
    CleanField("Range", v);
    CStringOfClean(line);
    assert line == "Range: " + v;
    assert line[0..7] == "Range: ";
  }

  /** Only in front of a queued request does the Range line have somewhere to go. */
  lemma TakesRange(k: Intake, n: nat)
    requires n <= INT32_MAX
    ensures OnRequestHeader(k, Field("Range", PrintRange(n))) ==
            if k.queue == [] then Refuse(k)
            else k.(queue := k.queue[..|k.queue| - 1] + [Job(k.queue[|k.queue| - 1].path, n)])
  {
    RangeLine(n);
    RangeRoundTrip("Range: ", n);
  }

  // ---- the header lines together ----

  /** The header lines of a request: its own fields and perhaps the Range. */
  function HeaderLines(g: Get): seq<string> { RequestLines(g)[1..] }

  lemma RequestIs(g: Get)
    ensures RequestLines(g) == ["GET " + g.path + " HTTP/1.1"] + HeaderLines(g)
    ensures HeaderLines(g) == FieldLines(g.headers) + if g.first > 0 then [Field("Range", PrintRange(g.first))] else []
  {
  }

  lemma {:induction false} FieldLinesAre(hs: seq<(string, string)>)
    ensures |FieldLines(hs)| == |hs| && forall i | 0 <= i < |hs| :: FieldLines(hs)[i] == Field(hs[i].0, hs[i].1)
  {
    if hs != [] { FieldLinesAre(hs[1..]); }
  }

  lemma CleanRequest(g: Get)
    requires Sendable(g)
    ensures CleanLines(RequestLines(g))
  {
    RequestIs(g);
    FieldLinesAre(g.headers);
    GetLine(g.path);
    RangeLine(g.first);
    forall i | 0 <= i < |g.headers| ensures CleanLine(FieldLines(g.headers)[i]) {
      IgnoresField(Intake(RequestLine, [], false), g.headers[i]);
    }
  }

  /** Is the `i`-th header line the Range line? */
  predicate IsRange(g: Get, i: nat) { g.first > 0 && i == |g.headers| }

  lemma HeaderLine(k: Intake, g: Get, i: nat)
    requires Sendable(g) && i < |HeaderLines(g)|
    ensures OnRequestHeader(k, HeaderLines(g)[i]) ==
            if !IsRange(g, i) then k
            else if k.queue == [] then Refuse(k)
            else k.(queue := k.queue[..|k.queue| - 1] + [Job(k.queue[|k.queue| - 1].path, g.first)])
  {
    RequestIs(g);
    FieldLinesAre(g.headers);
    if i < |g.headers| { IgnoresField(k, g.headers[i]); } else { TakesRange(k, g.first); }
  }

  lemma DigestNone(s: string, k: Intake)
    requires ReadLine(s).NoLine?
    ensures Digest(s, k) == (s, k)
  {
  }

  // ---- the rest of a head whose request has already been answered ----

  /** Nothing queued, and header lines still to come. */
  const LATE: Intake := Intake(RequestHeaders, [], false)

  /** The intake between a request line and the empty line behind its headers. */
  const HEADERS: Machine<Intake> := Machine(
    (k: Intake) => if k.state == RequestHeaders && !k.aborted then Lines else Halted,
    (k: Intake, line: string) => OnRequestHeader(k, line), (k: Intake, b: char) => k)

  lemma {:induction false} DigestIsDrain(inbuf: string, k: Intake)
    requires k.state == RequestHeaders
    ensures var r := Drain(HEADERS, Buffered(inbuf, k)); Digest(inbuf, k) == (r.inbuf, r.st)
    decreases |inbuf|
  {
    if !k.aborted && ReadLine(inbuf).Line? {
      var k' := OnRequestHeader(k, ReadLine(inbuf).line);
      if k'.state == RequestHeaders { DigestIsDrain(ReadLine(inbuf).rest, k'); }
    }
  }

  lemma LateEnds()
    ensures Drain(HEADERS, Buffered("", HEADERS.onLine(LATE, ""))) == Buffered("", IDLE)
  {
  }

  /** `m` octets of the header lines from the i-th on, once their request is out of the queue: they are
      passed over, unless the Range is among them and complete, which fails an assertion. */
  lemma DigestLate(g: Get, i: nat, m: nat)
    requires Sendable(g) && i <= |HeaderLines(g)| && m <= |Head(HeaderLines(g)[i..])|
    ensures var ls := HeaderLines(g)[i..];
            var r := Digest(Head(ls)[..m], LATE);
            if g.first > 0 && i <= |g.headers| && m + 2 >= |Head(ls)| then r.1.aborted
            else
              || (m < |Head(ls)| && r.1 == LATE && r.0 + Head(ls)[m..] == Head(ls[LinesIn(ls, m)..])
                  && ReadLine(r.0).NoLine?)
              || (m == |Head(ls)| && r == ("", IDLE))
  {
    var ls := HeaderLines(g)[i..];
    CleanRequest(g);
    RequestIs(g);
    FieldLinesAre(g.headers);
    LateLines(g, i);
    DigestIsDrain(Head(ls)[..m], LATE);
    DrainSteady(HEADERS, LATE, (k: Intake) => k.aborted, ls, m);
    SteadyIff(g, i, m);
    LateEnds();
  }

  lemma LateLines(g: Get, i: nat)
    requires Sendable(g) && i <= |HeaderLines(g)|
    ensures var ls := HeaderLines(g)[i..];
            forall j | 0 <= j < |ls| :: HEADERS.onLine(LATE, ls[j]) == if IsRange(g, i + j) then Refuse(LATE) else LATE
  {
    var ls := HeaderLines(g)[i..];
    forall j | 0 <= j < |ls|
      ensures HEADERS.onLine(LATE, ls[j]) == if IsRange(g, i + j) then Refuse(LATE) else LATE
    {
      HeaderLine(LATE, g, i + j);
    }
  }

  /** The Range line is the last one, so it is complete when at most the empty line is missing. */
  lemma SteadyIff(g: Get, i: nat, m: nat)
    requires Sendable(g) && i <= |HeaderLines(g)| && m <= |Head(HeaderLines(g)[i..])|
    ensures var ls := HeaderLines(g)[i..];
            Steady(HEADERS, LATE, ls, LinesIn(ls, m)) <==> !(g.first > 0 && i <= |g.headers| && m + 2 >= |Head(ls)|)
  {
    var ls := HeaderLines(g)[i..];
    RequestIs(g);
    FieldLinesAre(g.headers);
    LateLines(g, i);
    AllLinesIn(ls, m);
    if g.first > 0 && i <= |g.headers| {
      assert |ls| == |g.headers| + 1 - i && IsRange(g, i + (|ls| - 1));
      assert HEADERS.onLine(LATE, ls[|ls| - 1]) == Refuse(LATE);
    }
  }

  // ---- a whole request ----

  /** The intake from an idle server's point of view: it stops once a request is complete. */
  const WHOLE: Machine<Intake> := Machine(
    (k: Intake) => if !k.aborted && (k.state == RequestHeaders || k.queue == []) then Lines else Halted,
    (k: Intake, line: string) => OnRequestText(k, line), (k: Intake, b: char) => k)

  /** Never both: complete, and nothing queued. */
  predicate Sane(k: Intake) { k.state == RequestHeaders ==> k.queue != [] || k.aborted }

  lemma SaneStep(k: Intake, line: string)
    requires !k.aborted && Sane(k) && (k.state == RequestLine ==> k.queue == [])
    ensures Sane(OnRequestText(k, line))
    ensures !OnRequestText(k, line).aborted && OnRequestText(k, line).state == RequestLine ==>
            OnRequestText(k, line).queue != []
  {
  }

  lemma {:induction false} DigestIsWholeDrain(inbuf: string, k: Intake)
    requires Sane(k) && (k.state == RequestLine ==> k.queue == [])
    ensures var r := Drain(WHOLE, Buffered(inbuf, k)); Digest(inbuf, k) == (r.inbuf, r.st)
    decreases |inbuf|
  {
    if !k.aborted && ReadLine(inbuf).Line? {
      var k' := OnRequestText(k, ReadLine(inbuf).line);
      SaneStep(k, ReadLine(inbuf).line);
      if k'.aborted || k'.state == RequestLine {
        DigestAborted(ReadLine(inbuf).rest, k');
      } else {
        DigestIsWholeDrain(ReadLine(inbuf).rest, k');
      }
    }
  }

  lemma DigestAborted(s: string, k: Intake)
    ensures k.aborted ==> Digest(s, k) == (s, k)
    ensures WHOLE.mode(k).Halted? ==> Drain(WHOLE, Buffered(s, k)) == Buffered(s, k)
  {
  }

  /** The job queued once `n` lines of the request's head are in. */
  function JobAfter(g: Get, n: nat): Job {
    Job(g.path, if n >= |RequestLines(g)| then StartOf(g) else -1)
  }

  function IntakeAt(g: Get, n: nat): Intake {
    if n == 0 then IDLE else Intake(RequestHeaders, [JobAfter(g, n)], false)
  }

  lemma RequestStep(g: Get, n: nat)
    requires Sendable(g) && n < |RequestLines(g)|
    ensures OnRequestText(IntakeAt(g, n), RequestLines(g)[n]) == IntakeAt(g, n + 1)
  {
    RequestIs(g);
    FieldLinesAre(g.headers);
    if n == 0 { TakesRequestLine(IDLE, g.path); } else { HeaderLine(IntakeAt(g, n), g, n - 1); }
  }

  lemma RequestStages(g: Get, n: nat)
    requires Sendable(g) && n <= |RequestLines(g)|
    ensures FoldLines(WHOLE, IDLE, RequestLines(g)[..n]) == IntakeAt(g, n) && HeadStates(WHOLE, IDLE, RequestLines(g))
  {
    var ls := RequestLines(g);
    var stage := (j: nat) => IntakeAt(g, j);
    forall j: nat | j < |ls| ensures WHOLE.onLine(stage(j), ls[j]) == stage(j + 1) {
      RequestStep(g, j);
    }
    StagedHead(WHOLE, stage, ls, 0, n);
    assert ls[0..n] == ls[..n] && ls[0..] == ls && stage(0) == IDLE;
  }

  lemma DigestPrefix(g: Get, m: nat)
    requires Sendable(g) && m < |Head(RequestLines(g))|
    ensures var ls := RequestLines(g);
            var n := LinesIn(ls, m);
            var r := Digest(Head(ls)[..m], IDLE);
            r.1 == IntakeAt(g, n) && r.0 + Head(ls)[m..] == Head(ls[n..]) && ReadLine(r.0).NoLine?
  {
    var ls := RequestLines(g);
    CleanRequest(g);
    DigestIsWholeDrain(Head(ls)[..m], IDLE);
    RequestStages(g, LinesIn(ls, m));
    DrainHeadPrefix(WHOLE, IDLE, ls, m);
  }

  /** A request whose head arrives whole is queued as it was meant, and leaves nothing behind. */
  lemma DigestWhole(g: Get)
    requires Sendable(g)
    ensures Digest(Head(RequestLines(g)), IDLE) == ("", Intake(RequestLine, [Job(g.path, StartOf(g))], false))
  {
    var ls := RequestLines(g);
    CleanRequest(g);
    DigestIsWholeDrain(Head(ls), IDLE);
    RequestStages(g, |ls|);
    assert ls[..|ls|] == ls && Head(ls) == Head(ls) + "";
    DrainHead(WHOLE, IDLE, ls, "");
    WholeEnded(g);
  }

  lemma WholeEnded(g: Get)
    ensures var k := Intake(RequestLine, [Job(g.path, StartOf(g))], false);
            WHOLE.onLine(IntakeAt(g, |RequestLines(g)|), "") == k && Drain(WHOLE, Buffered("", k)) == Buffered("", k)
  {
  }

  /** The first recv() that queues the request decides what the server will send: the Range is honoured
      if and only if at most the empty line of the head was still missing. */
  lemma RangeSurvivesSplit(g: Get, m: nat)
    requires Sendable(g) && m <= |Head(RequestLines(g))|
    ensures var k := Digest(Head(RequestLines(g))[..m], IDLE).1;
            && (k.queue == [] <==> m < |RequestLines(g)[0]| + 2)
            && (k.queue != [] ==> k.queue == [Job(g.path, k.queue[0].first)])
            && (k.queue != [] ==>
                (k.queue[0].first == StartOf(g) <==> g.first == 0 || m + 2 >= |Head(RequestLines(g))|))
  {
    var ls := RequestLines(g);
    AllLinesIn(ls, m);
    if m == |Head(ls)| {
      assert Head(ls)[..m] == Head(ls);
      DigestWhole(g);
      RequestIs(g);
    } else {
      DigestPrefix(g, m);
    }
  }

  /** Such a cut: behind the request line. */
  lemma CutLosesRange(g: Get)
    requires Sendable(g) && g.first > 0
    ensures |RequestLines(g)| > 1 && |RequestLines(g)[0]| + 2 <= |Head(RequestLines(g))|
    ensures var k := Digest(Head(RequestLines(g))[..|RequestLines(g)[0]| + 2], IDLE).1;
            |k.queue| == 1 && k.queue[0].path == g.path && k.queue[0].first != StartOf(g)
  {
    var ls := RequestLines(g);
    RequestIs(g);
    HeadCons(ls);
    HeadCons(ls[1..]);
    RangeSurvivesSplit(g, |ls[0]| + 2);
  }
}
