/** A response read over several http_receive calls. content_range_found does not survive a call, so
    a range response fails exactly when a call ends between the Content-Range line and the end of the
    empty line behind it, that is within the last two octets of the head. */
module ClientCalls {
  import opened Text
  import opened Decimal
  import opened HeadText
  import opened LineMachine
  import opened CallBoundaries
  import opened MessageStream
  import opened HttpClient
  import opened HttpServer
  import opened ClientReads

  /** Failed before anything was handed over. */
  predicate AbortedFrom(t: State, s: State) { t.phase == Aborted && t.got == s.got && t.active == s.active }

  /** The client's reading of the response to `g`. */
  function Reading(s: State, g: Get, path: string, content: string): Script<State>
    requires Ready(s, g) && Answerable(g, content)
  {
    Script(CLIENT, HTTP_RECEIVE, (t: State) => AbortedFrom(t, s), LinesFor(g, path, content), content[g.first..],
           (j: nat) => Stage(s, g, path, content, j), Midway(s, g, path, content, 0),
           (m: nat) => ArrivedAt(s, g, path, content, m))
  }

  lemma ReadingFragile(s: State, g: Get, path: string, content: string)
    requires Ready(s, g) && Answerable(g, content)
    ensures Fragile(Reading(s, g, path, content)) <==> g.first > 0
    ensures Reading(s, g, path, content).stage(0) == s
  {
  }

  /** The missing Content-Range assertion of connection.cc. */
  lemma EmptyLineAborts(t: State)
    requires t.phase == Headers && t.first > 0 && !t.found
    ensures AbortedFrom(OnLine(t, ""), t)
  {
  }

  lemma StageFacts(s: State, g: Get, path: string, content: string, j: nat)
    requires Ready(s, g) && Answerable(g, content) && j <= |LinesFor(g, path, content)|
    ensures var t := Stage(s, g, path, content, j);
            Waiting(t, s) && (t.found <==> j == 4) && (j > 0 ==> t.phase == Headers)
  {
  }

  lemma StillWaiting(s: State, g: Get, path: string, content: string, n: nat)
    requires Ready(s, g) && Answerable(g, content)
    ensures var x := Reading(s, g, path, content); var t := x.k.forget(x.stage(LinesIn(x.lines, n)));
            Waiting(t, s) && t.phase != Aborted
  {
    StageFacts(s, g, path, content, LinesIn(LinesFor(g, path, content), n));
  }

  lemma ReadingHead(s: State, g: Get, path: string, content: string)
    requires Ready(s, g) && Answerable(g, content)
    ensures HeadFacts(Reading(s, g, path, content))
  {
    var ls := LinesFor(g, path, content);
    CleanHead(g, path, content);
    HeadEnds(s, g, path, content);
    forall j: nat | j <= |ls| ensures Waiting(Stage(s, g, path, content, j), s) &&
                                      (Stage(s, g, path, content, j).found <==> j == 4) {
      StageFacts(s, g, path, content, j);
    }
    forall j: nat | j < |ls| ensures OnLine(Stage(s, g, path, content, j), ls[j]) == Stage(s, g, path, content, j + 1) {
      StageStep(s, g, path, content, j);
    }
    if g.first > 0 {
      EmptyLineAborts(Stage(s, g, path, content, |ls|).(found := false));
    }
  }

  lemma ArrivedFacts(s: State, g: Get, path: string, content: string, m: nat)
    requires Ready(s, g) && Answerable(g, content) && m <= |content| - g.first
    ensures var t := ArrivedAt(s, g, path, content, m);
            !t.found && t.phase != Aborted && (m < |content| - g.first ==> t.active == [g])
  {
  }

  lemma ReadingBody(s: State, g: Get, path: string, content: string)
    requires Ready(s, g) && Answerable(g, content)
    ensures BodyFacts(Reading(s, g, path, content))
  {
    forall m: nat | m <= |content| - g.first
      ensures Drain(CLIENT, Buffered(content[g.first..][..m], Midway(s, g, path, content, 0))) ==
              Buffered("", ArrivedAt(s, g, path, content, m))
    {
      BodyArrives(s, g, path, content, m);
    }
    forall m: nat | m <= |content| - g.first
      ensures var t := ArrivedAt(s, g, path, content, m);
              !t.found && t.phase != Aborted && (m < |content| - g.first ==> t.active == [g])
    {
      ArrivedFacts(s, g, path, content, m);
    }
  }

  lemma ReadingPlays(s: State, g: Get, path: string, content: string)
    requires Ready(s, g) && Answerable(g, content)
    ensures Plays(Reading(s, g, path, content))
  {
    ReadingHead(s, g, path, content);
    ReadingBody(s, g, path, content);
  }

  lemma ReadingSplitBadly(s: State, g: Get, path: string, content: string, calls: seq<seq<string>>)
    requires Ready(s, g) && Answerable(g, content)
    ensures var h := |HeadFor(g, path, content)|;
            SplitBadly(Stream(Reading(s, g, path, content)), calls) <==>
            g.first > 0 && |ConcatCalls(calls)| >= h
              && exists j | 0 <= j < |calls| :: h - 2 <= |ConcatCalls(calls[..j])| < h
  {
    var y := Stream(Reading(s, g, path, content));
    ReadingFragile(s, g, path, content);
    forall j | 0 <= j < |calls|
      ensures InGap(y, |ConcatCalls(calls[..j])|) <==>
              g.first > 0 && |HeadFor(g, path, content)| - 2 <= |ConcatCalls(calls[..j])| < |HeadFor(g, path, content)|
    {
    }
  }

  lemma ReadingOverCalls(s: State, g: Get, path: string, content: string, calls: seq<seq<string>>)
    requires Ready(s, g) && Answerable(g, content) && ConcatCalls(calls) <= Whole(g, path, content)
    ensures var x := Reading(s, g, path, content);
            var c := RunCalls(CLIENT, HTTP_RECEIVE, Buffered("", s), calls);
            var n := |ConcatCalls(calls)|;
            && (AbortedFrom(c.st, s) <==> SplitBadly(Stream(x), calls))
            && (!AbortedFrom(c.st, s) && n < Size(x) ==> c.st == x.k.forget(x.stage(LinesIn(x.lines, n))))
            && (!AbortedFrom(c.st, s) && n >= Size(x) ==>
                c == Buffered("", ArrivedAt(s, g, path, content, n - Size(x))))
  {
    var x := Reading(s, g, path, content);
    ReadingPlays(s, g, path, content);
    ReadingFragile(s, g, path, content);
    assert x.m == CLIENT && x.k == HTTP_RECEIVE && x.lines == LinesFor(g, path, content)
           && x.body == content[g.first..];
    if |ConcatCalls(calls)| < Size(x) { HeadOverCalls(x, calls); } else { BodyOverCalls(x, calls); }
  }

  /** For every way of cutting the response to `g`, or a prefix of it, into calls and recv() passes:
      the client aborts if and only if it asked for a range and some call, not the last, ended within
      the last two octets of the head; otherwise every octet of the file from the Range start on that
      has arrived has been handed over, and the request is done when and only when all have. */
  lemma ResponseOverCalls(s: State, g: Get, path: string, content: string, calls: seq<seq<string>>)
    requires Ready(s, g) && Answerable(g, content) && ConcatCalls(calls) <= Whole(g, path, content)
    ensures var c := RunCalls(CLIENT, HTTP_RECEIVE, Buffered("", s), calls);
            var n, h := |ConcatCalls(calls)|, |HeadFor(g, path, content)|;
            && (c.st.phase == Aborted <==>
                g.first > 0 && n >= h && exists j | 0 <= j < |calls| :: h - 2 <= |ConcatCalls(calls[..j])| < h)
            && (c.st.phase == Aborted ==> AbortedFrom(c.st, s))
            && (c.st.phase != Aborted && n < h ==> Waiting(c.st, s))
            && (c.st.phase != Aborted && n >= h ==> c == Buffered("", ArrivedAt(s, g, path, content, n - h)))
  {
    var n, h := |ConcatCalls(calls)|, |HeadFor(g, path, content)|;
    ReadingOverCalls(s, g, path, content, calls);
    ReadingSplitBadly(s, g, path, content, calls);
    StillWaiting(s, g, path, content, n);
    if n >= h { ArrivedFacts(s, g, path, content, n - h); }
  }

  /** Such a cut: one call up to the middle of the empty line, one with the rest. */
  lemma CutInEmptyLine(s: State, g: Get, path: string, content: string)
    requires Ready(s, g) && Answerable(g, content) && g.first > 0
    ensures |HeadFor(g, path, content)| >= 1
    ensures var whole, k := Whole(g, path, content), |HeadFor(g, path, content)| - 1;
            RunCalls(CLIENT, HTTP_RECEIVE, Buffered("", s), [[whole[..k]], [whole[k..]]]).st.phase == Aborted
  {
    var whole, h := Whole(g, path, content), |HeadFor(g, path, content)|;
    var calls := [[whole[..h - 1]], [whole[h - 1..]]];
    TwoCalls(whole[..h - 1], whole[h - 1..]);
    assert whole[..h - 1] + whole[h - 1..] == whole;
    assert h - 2 <= |ConcatCalls(calls[..1])| < h;
    ResponseOverCalls(s, g, path, content, calls);
  }

  lemma TwoCalls(a: string, b: string)
    ensures var calls := [[a], [b]]; ConcatCalls(calls) == a + b && ConcatCalls(calls[..1]) == a
  {
    var calls := [[a], [b]];
    assert Concat([a]) == Concat([]) + a == a && Concat([b]) == Concat([]) + b == b;
    assert calls[..1] == [[a]] && [[a]][..0] == [];
    assert ConcatCalls([[a]]) == ConcatCalls([]) + a == a;
  }

  /** The same without the condition: where the client is after `n` octets of the response. */
  predicate ReadSoFar(c: Conn, s: State, g: Get, path: string, content: string, n: nat)
    requires Ready(s, g) && Answerable(g, content)
  {
    var h := |HeadFor(g, path, content)|;
    && (c.st.phase == Aborted ==> AbortedFrom(c.st, s))
    && (c.st.phase != Aborted && n < h ==> Waiting(c.st, s))
    && (c.st.phase != Aborted && n >= h ==> c == Buffered("", ArrivedAt(s, g, path, content, n - h)))
  }

  lemma ReadsSoFar(s: State, g: Get, path: string, content: string, calls: seq<seq<string>>)
    requires Ready(s, g) && Answerable(g, content) && ConcatCalls(calls) <= Whole(g, path, content)
    ensures ReadSoFar(RunCalls(CLIENT, HTTP_RECEIVE, Buffered("", s), calls), s, g, path, content, |ConcatCalls(calls)|)
  {
    ResponseOverCalls(s, g, path, content, calls);
  }

  // ---- a whole-file response to a range request ----

  function Plain(g: Get): Get { g.(first := 0) }

  /** The client's reading of the head the server sends when it has missed the Range. */
  function Misreading(s: State, g: Get, path: string, content: string): Script<State>
    requires Ready(s, g) && Answerable(g, content)
  {
    Script(CLIENT, HTTP_RECEIVE, (t: State) => false, LinesFor(Plain(g), path, content), "",
           (j: nat) => Stage(s, Plain(g), path, content, j), Abort(Stage(s, Plain(g), path, content, 3)),
           (m: nat) => Abort(Stage(s, Plain(g), path, content, 3)))
  }

  lemma MisStage(s: State, g: Get, path: string, content: string, j: nat)
    requires Ready(s, g) && Answerable(g, content) && j <= 3
    ensures var t := Stage(s, Plain(g), path, content, j);
            Waiting(t, s) && !t.found && (j > 0 ==> t.phase == Headers) && |LinesFor(Plain(g), path, content)| == 3
  {
  }

  lemma MisEnds(s: State, g: Get, path: string, content: string)
    requires Ready(s, g) && Answerable(g, content) && g.first > 0
    ensures var t := Stage(s, Plain(g), path, content, 3); OnLine(t, "") == Abort(t)
  {
  }

  lemma MisreadingHead(s: State, g: Get, path: string, content: string)
    requires Ready(s, g) && Answerable(g, content) && g.first > 0
    ensures HeadFacts(Misreading(s, g, path, content))
  {
    CleanHead(Plain(g), path, content);
    forall j: nat | j <= 3
      ensures var t := Stage(s, Plain(g), path, content, j);
              Waiting(t, s) && !t.found && (j > 0 ==> t.phase == Headers) && |LinesFor(Plain(g), path, content)| == 3
    {
      MisStage(s, g, path, content, j);
    }
    forall j: nat | j < 3
      ensures OnLine(Stage(s, Plain(g), path, content, j), LinesFor(Plain(g), path, content)[j]) ==
              Stage(s, Plain(g), path, content, j + 1)
    {
      StageStep(s, Plain(g), path, content, j);
    }
    MisEnds(s, g, path, content);
  }

  lemma MisreadingStops(s: State, g: Get, path: string, content: string)
    requires Ready(s, g) && Answerable(g, content) && g.first > 0
    ensures StopsAtHead(Misreading(s, g, path, content)) && Misreading(s, g, path, content).stage(0) == s
  {
    var x := Misreading(s, g, path, content);
    MisreadingHead(s, g, path, content);
    MisStage(s, g, path, content, 3);
    assert Drain(CLIENT, Buffered("", x.bodyStart)) == Buffered("", x.bodyStart);
    assert x.body[..0] == "";
  }

  /** As long as its head is incomplete, a missed Range goes unnoticed and nothing is handed over. */
  lemma MissedRangeWaits(s: State, g: Get, path: string, content: string, calls: seq<seq<string>>)
    requires Ready(s, g) && Answerable(g, content) && g.first > 0
    requires ConcatCalls(calls) <= HeadFor(Plain(g), path, content)
    requires |ConcatCalls(calls)| < |HeadFor(Plain(g), path, content)|
    ensures var c := RunCalls(CLIENT, HTTP_RECEIVE, Buffered("", s), calls);
            Waiting(c.st, s) && c.st.phase != Aborted
  {
    var x := Misreading(s, g, path, content);
    MisreadingStops(s, g, path, content);
    assert Head(x.lines) + x.body == Head(x.lines);
    HeadOverCalls(x, calls);
    MisStage(s, g, path, content, LinesIn(x.lines, |ConcatCalls(calls)|));
  }

  /** The call that completes it aborts, again before anything is handed over. */
  lemma MissedRangeAborts(s: State, g: Get, path: string, content: string, calls: seq<seq<string>>, last: seq<string>)
    requires Ready(s, g) && Answerable(g, content) && g.first > 0
    requires ConcatCalls(calls) + Concat(last) <= Whole(Plain(g), path, content)
    requires |ConcatCalls(calls)| < |HeadFor(Plain(g), path, content)| <= |ConcatCalls(calls)| + |Concat(last)|
    ensures AbortedFrom(Call(CLIENT, HTTP_RECEIVE, RunCalls(CLIENT, HTTP_RECEIVE, Buffered("", s), calls), last).st, s)
  {
    var x := Misreading(s, g, path, content);
    var n, h := |ConcatCalls(calls)|, |HeadFor(Plain(g), path, content)|;
    MisreadingStops(s, g, path, content);
    SplitAt(Head(x.lines), content[0..], ConcatCalls(calls), Concat(last));
    LastCallStops(x, calls, last, Concat(last)[h - n..]);
    MisStage(s, g, path, content, 3);
  }

  lemma SplitAt(head: string, body: string, a: string, b: string)
    requires a + b <= head + body && |a| < |head| <= |a| + |b|
    ensures a <= head && b == head[|a|..] + b[|head| - |a|..]
  {
    assert forall i | 0 <= i < |a| + |b| :: (a + b)[i] == (head + body)[i];
    assert b == (a + b)[|a|..];
  }

  // ---- what the request is told of its response ----

  /** The status and headers the server owes to a request. */
  predicate Owed(told: Notice, g: Get, path: string, n: nat)
    requires g.first < n
  {
    var html := |path| > 5 && path[|path| - 5..] == ".html";
    var range := "bytes " + Print(g.first) + "-" + Print(n - 1) + "/" + Print(n);
    && told.Meta? && told.status == (if g.first > 0 then 206 else 200)
    && told.headers == [("Content-Length", Print(n - g.first))]
                       + [("Content-Type", if html then "text/html" else "unknown")]
                       + (if g.first > 0 then [("Content-Range", range)] else [])
  }

  lemma HeadersOwed(g: Get, path: string, content: string)
    requires Answerable(g, content)
    ensures Owed(Meta(Code(g), HeadersFor(g, path, content)), g, path, |content|)
  {
    HtmlIff(path);
  }

  lemma ArrivedLog(s: State, g: Get, path: string, content: string, m: nat)
    requires Ready(s, g) && Answerable(g, content) && m <= |content| - g.first
    ensures var log := ArrivedAt(s, g, path, content, m).log;
            |log| > |s.log| && log[|s.log|] == Meta(Code(g), HeadersFor(g, path, content))
  {
  }

  /** Whatever the calls, once the head has come and unless the client has aborted: the request has been told
      the status, the length of what follows, whether it is HTML, and, of a range, where it lies. */
  lemma HeadTold(s: State, g: Get, path: string, content: string, calls: seq<seq<string>>)
    requires Ready(s, g) && Answerable(g, content)
    requires ConcatCalls(calls) <= Whole(g, path, content) && |ConcatCalls(calls)| >= |HeadFor(g, path, content)|
    requires RunCalls(CLIENT, HTTP_RECEIVE, Buffered("", s), calls).st.phase != Aborted
    ensures var log := RunCalls(CLIENT, HTTP_RECEIVE, Buffered("", s), calls).st.log;
            |log| > |s.log| && Owed(log[|s.log|], g, path, |content|)
  {
    ResponseOverCalls(s, g, path, content, calls);
    ArrivedLog(s, g, path, content, |ConcatCalls(calls)| - |HeadFor(g, path, content)|);
    HeadersOwed(g, path, content);
  }
}
