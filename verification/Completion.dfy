/** When the assertions of both ends hold, and that nothing then keeps a request from finishing. */
module Completion {
  import opened Text
  import opened HeadText
  import opened LineMachine
  import opened HttpClient
  import opened HttpServer
  import opened ClientReads
  import opened ClientCalls
  import opened ServerReads
  import opened Exchange
  import opened Resume

  /** Neither end is made to forget a Range: the request is queued only when at most the empty line of
      its head is missing, and no http_receive call ends within the last two octets of the response
      head. */
  predicate Careful(site: Site, w: World, content: string, e: Event)
    requires Possible(w, e)
  {
    w.req.first > 0 && Answerable(Wanted(w), content) ==>
      match e
      case Deliver(n) => var u := Next(site, w, e); u.server.intake.queue == [] || |Todo(u)| <= 2
      case Receive(pieces) =>
        var h := |HeadFor(Wanted(w), site.root + w.req.path, content)|;
        !(h - 2 <= |ConcatCalls(w.calls + [pieces])| < h)
      case _ => true
  }

  predicate AllCareful(site: Site, w: World, content: string, events: seq<Event>)
    decreases |events|
  {
    events == [] ||
    ((Possible(w, events[0]) ==> Careful(site, w, content, events[0])) &&
     AllCareful(site, Happen(site, w, events[0]), content, events[1..]))
  }

  predicate NoBoundaryIn(calls: seq<seq<string>>, lo: int, hi: int) {
    forall j | 0 <= j <= |calls| :: !(lo <= |ConcatCalls(calls[..j])| < hi)
  }

  /** The request has not been queued, or no header line of it is missing. */
  predicate InTime(w: World) {
    (NotYet(w.server, w.mark) && Todo(w) == Head(RequestLines(Wanted(w)))) || |Todo(w)| <= 2
  }

  /** The invariant of a careful run. */
  predicate OnCourse(site: Site, w: World, content: string) {
    && Inv(site, w, content) && Aimed(site, w, content)
    && (w.req.first > 0 ==> InTime(w))
    && (w.req.first > 0 ==> var h := |HeadFor(Wanted(w), site.root + w.req.path, content)|;
        NoBoundaryIn(w.calls, h - 2, h))
  }

  lemma HeadIsLong(ls: seq<string>)
    requires ls != []
    ensures |Head(ls)| >= 4
  {
  }

  lemma SetsOut(site: Site, req: Asked, base: string, l: Link, content: string)
    requires Rested(l) && Basics(site, Attempt(req, base, l), content)
    ensures OnCourse(site, Attempt(req, base, l), content)
  {
    var w := Attempt(req, base, l);
    AttemptStarts(site, req, base, l, content);
    HeadIsLong(LinesFor(Wanted(w), site.root + w.req.path, content));
  }

  lemma SendsOn(site: Site, w: World, content: string, n: nat)
    requires OnCourse(site, w, content) && Possible(w, Send(n))
    ensures OnCourse(site, Next(site, w, Send(n)), content)
  {
    SendKeeps(site, w, content, n);
    SendTodo(w, n);
  }

  lemma DeliversOn(site: Site, w: World, content: string, n: nat)
    requires OnCourse(site, w, content) && Possible(w, Deliver(n)) && Careful(site, w, content, Deliver(n))
    ensures OnCourse(site, Next(site, w, Deliver(n)), content)
  {
    if NotYet(w.server, w.mark) && Todo(w) == Head(RequestLines(Wanted(w))) {
      DeliverFirst(site, w, content, n);
    } else {
      DeliverLate(site, w, content, n, Wanted(w));
    }
  }

  lemma KeepsServing(site: Site, w: World, content: string, step: SendStep)
    requires OnCourse(site, w, content) && Possible(w, Serve(step))
    ensures OnCourse(site, Next(site, w, Serve(step)), content)
  {
    ServeStepKeeps(site, w, content, step, Wanted(w));
  }

  lemma BoundaryFree(calls: seq<seq<string>>, last: seq<string>, lo: int, hi: int)
    requires NoBoundaryIn(calls, lo, hi) && !(lo <= |ConcatCalls(calls + [last])| < hi)
    ensures NoBoundaryIn(calls + [last], lo, hi)
  {
    var all := calls + [last];
    forall j | 0 <= j <= |all| ensures !(lo <= |ConcatCalls(all[..j])| < hi) {
      if j <= |calls| { assert all[..j] == calls[..j]; } else { assert all[..j] == all; }
    }
  }

  /** No call boundary in the gap, no abort. */
  lemma NeverAborted(s: State, g: Get, path: string, content: string, calls: seq<seq<string>>)
    requires Ready(s, g) && Answerable(g, content) && ConcatCalls(calls) <= Whole(g, path, content)
    requires g.first > 0 ==> NoBoundaryIn(calls, |HeadFor(g, path, content)| - 2, |HeadFor(g, path, content)|)
    ensures RunCalls(CLIENT, HTTP_RECEIVE, Buffered("", s), calls).st.phase != Aborted
  {
    ResponseOverCalls(s, g, path, content, calls);
  }

  lemma ReceivesOn(site: Site, w: World, content: string, pieces: seq<string>)
    requires OnCourse(site, w, content) && Possible(w, Receive(pieces)) && Careful(site, w, content, Receive(pieces))
    ensures var u := Next(site, w, Receive(pieces));
            u.outcome == Finished || (u.outcome == Pending && OnCourse(site, u, content))
  {
    var u := Next(site, w, Receive(pieces));
    ReceiveAimed(site, w, content, pieces);
    StillClear(site, w, content, pieces);
    NeverAborted(u.start, Wanted(u), site.root + u.req.path, content, u.calls);
    assert WithOutbuf(u.conn, "").st.phase != Aborted;
  }

  lemma StillClear(site: Site, w: World, content: string, pieces: seq<string>)
    requires OnCourse(site, w, content) && Possible(w, Receive(pieces)) && Careful(site, w, content, Receive(pieces))
    ensures w.req.first > 0 ==>
      var h := |HeadFor(Wanted(w), site.root + w.req.path, content)|; NoBoundaryIn(w.calls + [pieces], h - 2, h)
  {
    if w.req.first > 0 {
      var h := |HeadFor(Wanted(w), site.root + w.req.path, content)|;
      BoundaryFree(w.calls, pieces, h - 2, h);
    }
  }

  lemma LosesOn(site: Site, w: World, content: string, next: Link)
    requires OnCourse(site, w, content) && Rested(next)
    ensures var u := Next(site, w, Lose(next)); u.outcome == GaveUp || OnCourse(site, u, content)
  {
    InvDelivers(site, w, content);
    if w.req.retries != site.maxRetries {
      var u := Retry(site, w, next);
      RetryAsks(site, w, content, next);
      SetsOut(site, u.req, u.base, next, content);
    }
  }

  lemma StaysOnCourse(site: Site, w: World, content: string, e: Event)
    requires OnCourse(site, w, content) && Possible(w, e) && Careful(site, w, content, e)
    ensures var u := Next(site, w, e); u.outcome in {Finished, GaveUp} || OnCourse(site, u, content)
  {
    match e
    case Send(n) => SendsOn(site, w, content, n);
    case Deliver(n) => DeliversOn(site, w, content, n);
    case Serve(step) => KeepsServing(site, w, content, step);
    case Receive(pieces) => ReceivesOn(site, w, content, pieces);
    case Lose(next) => LosesOn(site, w, content, next);
  }

  /** In a careful run no assertion of either end ever fails, however the streams are cut and however
      often the connection is lost. */
  lemma {:induction false} CarefulNeverCrashes(site: Site, w: World, content: string, events: seq<Event>)
    requires OnCourse(site, w, content) && AllCareful(site, w, content, events)
    ensures var u := Run(site, w, events); u.outcome in {Finished, GaveUp} || OnCourse(site, u, content)
    decreases |events|
  {
    if events != [] {
      var u := Happen(site, w, events[0]);
      if Possible(w, events[0]) { StaysOnCourse(site, w, content, events[0]); }
      if u.outcome == Pending {
        CarefulNeverCrashes(site, u, content, events[1..]);
      } else {
        Over(site, u, events[1..]);
      }
    }
  }

  // ---- a way to the end from everywhere ----

  /** The events finish the request without losing the connection. */
  predicate Finishes(site: Site, w: World, content: string, events: seq<Event>) {
    && AllCareful(site, w, content, events) && Run(site, w, events).outcome == Finished
    && (forall e <- events :: !e.Lose?)
  }

  lemma Prepend(site: Site, w: World, content: string, e: Event, rest: seq<Event>)
    requires Possible(w, e) && Careful(site, w, content, e) && !e.Lose?
    requires Finishes(site, Next(site, w, e), content, rest)
    ensures Finishes(site, w, content, [e] + rest)
  {
    assert ([e] + rest)[0] == e && ([e] + rest)[1..] == rest;
  }

  function TheWhole(site: Site, w: World, content: string): string
    requires Basics(site, w, content)
  {
    Whole(Wanted(w), site.root + w.req.path, content)
  }

  function TheJob(w: World): Job { Job(w.req.path, StartOf(Wanted(w))) }

  lemma AllHeard(s: State, g: Get, path: string, content: string, calls: seq<seq<string>>)
    requires Ready(s, g) && Answerable(g, content) && s.submitted == [] && ConcatCalls(calls) == Whole(g, path, content)
    ensures var t := RunCalls(CLIENT, HTTP_RECEIVE, Buffered("", s), calls).st; t.phase != Aborted ==> t.active == []
  {
    ReadsSoFar(s, g, path, content, calls);
    AllRead(RunCalls(CLIENT, HTTP_RECEIVE, Buffered("", s), calls), s, g, path, content);
  }

  lemma AllRead(c: Conn, s: State, g: Get, path: string, content: string)
    requires Ready(s, g) && Answerable(g, content) && s.submitted == []
    requires ReadSoFar(c, s, g, path, content, |Whole(g, path, content)|)
    ensures c.st.phase != Aborted ==> c.st.active == []
  {
    HeardArrived(s, g, path, content, |content| - g.first);
  }

  lemma LastStep(site: Site, w: World, content: string, e: Event)
    requires Possible(w, e) && Careful(site, w, content, e) && !e.Lose? && Next(site, w, e).outcome == Finished
    ensures Finishes(site, w, content, [e])
  {
    Prepend(site, w, content, e, []);
    assert [e] + [] == [e];
  }

  /** The client may read all that is left of the response in one call. */
  lemma RestIsThere(site: Site, w: World, content: string)
    requires OnCourse(site, w, content) && SentSince(w.server, w.mark) == TheWhole(site, w, content)
    ensures var e := Receive([Down(w)]);
            Possible(w, e) && Careful(site, w, content, e)
              && ConcatCalls(w.calls + [[Down(w)]]) == TheWhole(site, w, content)
  {
    var pieces := [Down(w)];
    assert Concat(pieces) == Concat([]) + Down(w) == Down(w);
    ReceivedMore(w, pieces);
  }

  lemma ReadsRest(site: Site, w: World, content: string)
    requires OnCourse(site, w, content) && SentSince(w.server, w.mark) == TheWhole(site, w, content)
    ensures var e := Receive([Down(w)]);
            Possible(w, e) && Careful(site, w, content, e) && Next(site, w, e).outcome == Finished
  {
    var pieces := [Down(w)];
    RestIsThere(site, w, content);
    ReceivesOn(site, w, content, pieces);
    NotDoneYet(site, Next(site, w, Receive(pieces)), content);
  }

  /** A client that has read the whole response is not still waiting for it. */
  lemma NotDoneYet(site: Site, u: World, content: string)
    ensures OnCourse(site, u, content) ==> ConcatCalls(u.calls) != TheWhole(site, u, content)
  {
    if OnCourse(site, u, content) {
      StillReading(u.start, Wanted(u), site.root + u.req.path, content, u.calls);
      assert WithOutbuf(u.conn, "").st.active == u.conn.st.active;
    }
  }

  lemma StillReading(s: State, g: Get, path: string, content: string, calls: seq<seq<string>>)
    requires Ready(s, g) && Answerable(g, content) && s.submitted == []
    ensures var t := RunCalls(CLIENT, HTTP_RECEIVE, Buffered("", s), calls).st;
            t.phase != Aborted && t.active != [] ==> ConcatCalls(calls) != Whole(g, path, content)
  {
    if ConcatCalls(calls) == Whole(g, path, content) { AllHeard(s, g, path, content, calls); }
  }

  lemma FromSent(site: Site, w: World, content: string) returns (events: seq<Event>)
    requires OnCourse(site, w, content) && SentSince(w.server, w.mark) == TheWhole(site, w, content)
    ensures Finishes(site, w, content, events)
  {
    var e := Receive([Down(w)]);
    ReadsRest(site, w, content);
    LastStep(site, w, content, e);
    events := [e];
  }

  /** The socket may take all that is in the buffer. */
  lemma AllAccepted(site: Site, w: World, content: string)
    requires OnCourse(site, w, content) && Served(w.server, w.mark, TheWhole(site, w, content))
    ensures var u := Next(site, w, Serve(Accept(|w.server.outbuf|)));
            u.mark <= |u.server.sent| && SentSince(u.server, u.mark) == TheWhole(site, w, content)
  {
    AcceptMoves(w.server, w.mark, |w.server.outbuf|);
    assert w.server.outbuf[..|w.server.outbuf|] == w.server.outbuf && w.server.outbuf[|w.server.outbuf|..] == "";
    assert SentSince(w.server, w.mark) + w.server.outbuf + "" == SentSince(w.server, w.mark) + w.server.outbuf;
  }

  lemma FromServed(site: Site, w: World, content: string) returns (events: seq<Event>)
    requires OnCourse(site, w, content) && Served(w.server, w.mark, TheWhole(site, w, content))
    ensures Finishes(site, w, content, events)
  {
    var e := Serve(Accept(|w.server.outbuf|));
    var u := Next(site, w, e);
    KeepsServing(site, w, content, e.step);
    AllAccepted(site, w, content);
    var rest := FromSent(site, u, content);
    Prepend(site, w, content, e, rest);
    events := [e] + rest;
  }

  lemma FromServing(site: Site, w: World, content: string) returns (events: seq<Event>)
    requires OnCourse(site, w, content) && Serving(w.server, w.mark, TheJob(w), TheWhole(site, w, content))
    requires ReadLine(w.server.inbuf).NoLine?
    ensures Finishes(site, w, content, events)
  {
    var e := Serve(Fetch(|w.server.unread| + 1));
    StaysOnCourse(site, w, content, e);
    FetchMoves(w.server, w.mark, TheJob(w), TheWhole(site, w, content), |w.server.unread| + 1);
    var rest := FromServed(site, Next(site, w, e), content);
    Prepend(site, w, content, e, rest);
    events := [e] + rest;
  }

  lemma FromQueued(site: Site, w: World, content: string) returns (events: seq<Event>)
    requires OnCourse(site, w, content) && Queued(w.server, w.mark, TheJob(w))
    requires ReadLine(w.server.inbuf).NoLine?
    ensures Finishes(site, w, content, events)
  {
    var e := Serve(Start);
    var u := Next(site, w, e);
    StaysOnCourse(site, w, content, e);
    ReplyIs(site, w, content, Wanted(w));
    assert SentSince(u.server, u.mark) + u.server.outbuf + u.server.unread == TheWhole(site, w, content);
    var rest := FromServing(site, u, content);
    Prepend(site, w, content, e, rest);
    events := [e] + rest;
  }

  lemma HeadHasLine(ls: seq<string>)
    ensures ReadLine(Head(ls)).Line?
  {
    assert CrlfAt(Head(ls), |Head(ls)| - 2);
  }

  /** With all of it sent, one recv() brings the whole head. */
  lemma FromIdle(site: Site, w: World, content: string) returns (events: seq<Event>)
    requires OnCourse(site, w, content) && w.conn.st.outbuf == ""
    requires NotYet(w.server, w.mark) && Todo(w) == Head(RequestLines(Wanted(w))) && w.server.intake.queue == []
    ensures Finishes(site, w, content, events)
  {
    HeadHasLine(RequestLines(Wanted(w)));
    assert w.server.inbuf + w.up + "" == w.server.inbuf + w.up;
    assert w.up != "" by { assert w.server.inbuf + "" == w.server.inbuf; }
    var e := Deliver(|w.up|);
    var u := Next(site, w, e);
    assert w.up[..|w.up|] == w.up && w.up[|w.up|..] == "";
    assert w.server.inbuf + w.up == Head(RequestLines(Wanted(w)));
    DigestWhole(Wanted(w));
    assert Todo(u) == "";
    StaysOnCourse(site, w, content, e);
    var rest := FromQueued(site, u, content);
    Prepend(site, w, content, e, rest);
    events := [e] + rest;
  }

  lemma FromWaiting(site: Site, w: World, content: string) returns (events: seq<Event>)
    requires OnCourse(site, w, content) && w.conn.st.outbuf == ""
    requires NotYet(w.server, w.mark) && Todo(w) == Head(RequestLines(Wanted(w)))
    ensures Finishes(site, w, content, events)
  {
    if w.server.intake.queue == [] {
      events := FromIdle(site, w, content);
    } else {
      var e := Serve(Fetch(1));
      var u := Next(site, w, e);
      StaysOnCourse(site, w, content, e);
      ServeStepKeeps(site, w, content, Fetch(1), Wanted(w));
      PollIsIdle(w.server.(outbuf := "" + "", unread := "", rsp := RspMeta,
        intake := w.server.intake.(queue := w.server.intake.queue[1..])));
      var rest := FromIdle(site, u, content);
      Prepend(site, w, content, e, rest);
      events := [e] + rest;
    }
  }

  lemma FromAnySent(site: Site, w: World, content: string) returns (events: seq<Event>)
    requires OnCourse(site, w, content) && w.conn.st.outbuf == ""
    ensures Finishes(site, w, content, events)
  {
    if NotYet(w.server, w.mark) && Todo(w) == Head(RequestLines(Wanted(w))) {
      events := FromWaiting(site, w, content);
    } else if Queued(w.server, w.mark, TheJob(w)) {
      events := FromQueued(site, w, content);
    } else if Serving(w.server, w.mark, TheJob(w), TheWhole(site, w, content)) {
      events := FromServing(site, w, content);
    } else {
      events := FromServed(site, w, content);
    }
  }

  /** No deadlock: from wherever a careful run has come to, the request can still finish on the
      connection it is on. */
  lemma CanFinish(site: Site, w: World, content: string) returns (events: seq<Event>)
    requires OnCourse(site, w, content)
    ensures Finishes(site, w, content, events)
  {
    var e := Send(|w.conn.st.outbuf|);
    StaysOnCourse(site, w, content, e);
    var rest := FromAnySent(site, Next(site, w, e), content);
    Prepend(site, w, content, e, rest);
    events := [e] + rest;
  }

  /** A finished exchange whose request head is all read leaves the connection fit for the next one. */
  lemma FinishedRests(site: Site, w: World, content: string, pieces: seq<string>)
    requires OnCourse(site, w, content) && Possible(w, Receive(pieces)) && Careful(site, w, content, Receive(pieces))
    requires Next(site, w, Receive(pieces)).outcome == Finished && Todo(w) == ""
    ensures var u := Next(site, w, Receive(pieces)); Rested(Link(u.conn, u.server)) && u.up == ""
  {
    var u := Next(site, w, Receive(pieces));
    ReceiveAimed(site, w, content, pieces);
    assert WithOutbuf(u.conn, "") == u.conn;
    FinishedConn(u.start, Wanted(u), site.root + u.req.path, content, u.calls);
    AllSent(u, TheWhole(site, u, content));
  }

  lemma AllSent(u: World, whole: string)
    requires ServerSide(u, Wanted(u), whole) && Todo(u) == "" && ConcatCalls(u.calls) == whole != ""
    ensures u.server.inbuf == "" && Settled(u.server)
  {
    assert SentSince(u.server, u.mark) == whole;
    HeadIsLong(RequestLines(Wanted(u)));
    forall n | 1 <= n <= |RequestLines(Wanted(u))| ensures Head(RequestLines(Wanted(u))[n..]) != "" {
    }
  }

  lemma FinishedConn(s: State, g: Get, path: string, content: string, calls: seq<seq<string>>)
    requires Ready(s, g) && Answerable(g, content) && s.submitted == [] && ConcatCalls(calls) <= Whole(g, path, content)
    requires var c := RunCalls(CLIENT, HTTP_RECEIVE, Buffered("", s), calls); c.st.phase != Aborted && c.st.active == []
    ensures RunCalls(CLIENT, HTTP_RECEIVE, Buffered("", s), calls) == Buffered("", Complete(s, g, path, content))
    ensures ConcatCalls(calls) == Whole(g, path, content)
  {
    ReadsSoFar(s, g, path, content, calls);
    FinishedIs(RunCalls(CLIENT, HTTP_RECEIVE, Buffered("", s), calls), s, g, path, content, |ConcatCalls(calls)|);
  }

  lemma FinishedIs(c: Conn, s: State, g: Get, path: string, content: string, n: nat)
    requires Ready(s, g) && Answerable(g, content) && s.submitted == [] && n <= |Whole(g, path, content)|
    requires c.st.phase != Aborted && c.st.active == [] && ReadSoFar(c, s, g, path, content, n)
    ensures c == Buffered("", Complete(s, g, path, content)) && n == |Whole(g, path, content)|
  {
    if n >= |HeadFor(g, path, content)| { HeardArrived(s, g, path, content, n - |HeadFor(g, path, content)|); }
  }
}
