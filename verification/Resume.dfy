/** A file fetched over any number of connections: client parser, server intake, server pump and the
    retry rule together, for every way the network cuts, delays and breaks the streams between them. */
module Resume {
  import opened Text
  import opened Decimal
  import opened HeadText
  import opened LineMachine
  import opened HttpClient
  import opened HttpServer
  import opened ClientReads
  import opened ClientCalls
  import opened ServerReads
  import opened Exchange

  datatype Site = Site(files: Files, root: string, maxRetries: nat)

  function ReplyOf(site: Site): Job -> Reply { (j: Job) => ReplyTo(site.files, site.root, j) }

  /** The two ends of a connection with nothing on the wire. */
  datatype Link = Link(conn: Conn, server: Server)

  /** A Request's counters; its body_size_ is |DeliveredBody(w)|. */
  datatype Asked = Asked(path: string, headers: seq<(string, string)>, first: nat, retries: nat)

  datatype Outcome = Pending | Finished | GaveUp | Crashed

  datatype World = World(
    req: Asked,
    base: string,               // body octets notified over earlier connections
    start: State,               // the client right after submit_request on this connection, outbuf_ aside
    conn: Conn,
    calls: seq<seq<string>>,    // what each http_receive call on this connection has read
    up: string,                 // sent by the client, not yet received by the server
    server: Server,
    mark: nat,                  // where this exchange begins in server.sent
    outcome: Outcome)

  function Wanted(w: World): Get { Get(w.req.path, w.req.headers, w.req.first) }

  /** Body octets the active request has been notified of on this connection. */
  function Heard(s: State): string {
    if s.active != [] then s.got
    else if s.log != [] && s.log[|s.log| - 1].Done? then s.log[|s.log| - 1].body
    else ""
  }

  function DeliveredBody(w: World): string { w.base + Heard(w.conn.st) }

  /** Sent by the server, not yet received by the client. */
  function Down(w: World): string
    requires w.mark + |ConcatCalls(w.calls)| <= |w.server.sent|
  {
    w.server.sent[w.mark + |ConcatCalls(w.calls)|..]
  }

  /** Connected, and between requests. */
  predicate Rested(l: Link) {
    && l.conn.inbuf == "" && l.conn.st.phase == StatusLine && l.conn.st.outbuf == ""
    && l.conn.st.submitted == [] && l.conn.st.active == [] && l.conn.st.headers == [] && l.conn.st.got == ""
    && !l.conn.st.found
    && l.server.inbuf == "" && Settled(l.server)
  }

  /** The connection manager hands the request to a connection, new or idle. */
  function Attempt(req: Asked, base: string, l: Link): World {
    var s := Submit(l.conn.st, Get(req.path, req.headers, req.first));
    World(req, base, s.(outbuf := ""), Buffered(l.conn.inbuf, s), [], "", l.server, |l.server.sent|, Pending)
  }

  // ---- the steps ----

  datatype Event =
    | Send(n: nat)                    // Connection::send_: the socket accepts n octets
    | Deliver(n: nat)                 // recv_from_client reads n octets
    | Serve(step: SendStep)           // part of send_to_client
    | Receive(pieces: seq<string>)    // one http_receive call, and what each of its recv() passes returns
    | Lose(next: Link)                // error or EOF, and the connection a retry would be given

  predicate Possible(w: World, e: Event) {
    && w.outcome == Pending
    && match e
       case Send(n) => n <= |w.conn.st.outbuf|
       case Deliver(n) => 1 <= n <= |w.up| && w.server.intake.queue == []
       case Serve(step) => CanSend(w.server, step)
       case Receive(pieces) => w.mark + |ConcatCalls(w.calls)| <= |w.server.sent| && Concat(pieces) <= Down(w)
       case Lose(next) => Rested(next)
  }

  function Settle(w: World): World {
    w.(outcome := if w.server.intake.aborted || w.conn.st.phase == Aborted then Crashed
                  else if w.conn.st.active == [] then Finished else Pending)
  }

  /** retry_requests for the request of a connection that died. */
  function Retry(site: Site, w: World, next: Link): World {
    if w.req.retries == site.maxRetries then w.(outcome := GaveUp) else
    var first := if |DeliveredBody(w)| > 0 then |DeliveredBody(w)| else w.req.first;
    Attempt(w.req.(first := first, retries := w.req.retries + 1), DeliveredBody(w), next)
  }

  function Next(site: Site, w: World, e: Event): World
    requires Possible(w, e)
  {
    match e
    case Send(n) =>
      w.(conn := WithOutbuf(w.conn, w.conn.st.outbuf[n..]), up := w.up + w.conn.st.outbuf[..n])
    case Deliver(n) => Settle(w.(server := Arrive(w.server, w.up[..n]), up := w.up[n..]))
    case Serve(step) => Settle(w.(server := OnSend(ReplyOf(site), w.server, step)))
    case Receive(pieces) =>
      Settle(w.(conn := Call(CLIENT, HTTP_RECEIVE, w.conn, pieces), calls := w.calls + [pieces]))
    case Lose(next) => Retry(site, w, next)
  }

  /** What is not possible when its turn comes does not happen. */
  function Happen(site: Site, w: World, e: Event): World {
    if Possible(w, e) then Next(site, w, e) else w
  }

  function Run(site: Site, w: World, events: seq<Event>): World
    decreases |events|
  {
    if events == [] then w else Run(site, Happen(site, w, events[0]), events[1..])
  }

  // ---- the invariant ----

  predicate Basics(site: Site, w: World, content: string) {
    && site.root + w.req.path in site.files && site.files[site.root + w.req.path] == content && |content| <= INT32_MAX
    && w.req.first == |w.base| < |content| && w.base == content[..|w.base|]
    && Sendable(Wanted(w)) && w.req.retries <= site.maxRetries
  }

  predicate ClientSide(w: World) {
    && Ready(w.start, Wanted(w)) && w.start.outbuf == "" && w.start.submitted == [] && w.conn.st.submitted == []
    && WithOutbuf(w.conn, "") == RunCalls(CLIENT, HTTP_RECEIVE, Buffered("", w.start), w.calls)
  }

  function Todo(w: World): string { w.server.inbuf + w.up + w.conn.st.outbuf }

  /** The exchange, when the server answers as if the request were `h`. */
  predicate ServerSide(w: World, h: Get, whole: string) {
    && w.mark <= |w.server.sent| && ConcatCalls(w.calls) <= SentSince(w.server, w.mark) <= whole
    && (|| (NotYet(w.server, w.mark) && Todo(w) == Head(RequestLines(Wanted(w))) && h == Wanted(w))
        || (Underway(w.server, w.mark, Job(w.req.path, StartOf(h)), whole)
            && Remaining(Wanted(w), w.server.intake, Todo(w))))
  }

  /** The server sees the whole request, Range included. */
  predicate Aimed(site: Site, w: World, content: string)
    requires Basics(site, w, content)
  {
    ServerSide(w, Wanted(w), Whole(Wanted(w), site.root + w.req.path, content))
  }

  /** The server has missed the Range, and the client has not found out yet. */
  predicate Astray(site: Site, w: World, content: string)
    requires Basics(site, w, content)
  {
    && w.req.first > 0
    && ServerSide(w, Plain(Wanted(w)), Whole(Plain(Wanted(w)), site.root + w.req.path, content))
    && |ConcatCalls(w.calls)| < |HeadFor(Plain(Wanted(w)), site.root + w.req.path, content)|
  }

  predicate Live(w: World) {
    w.outcome == Pending && w.conn.st.phase != Aborted && w.conn.st.active != [] && !w.server.intake.aborted
  }

  predicate Inv(site: Site, w: World, content: string) {
    Basics(site, w, content) && ClientSide(w) && Live(w) && (Aimed(site, w, content) || Astray(site, w, content))
  }

  /** What a reader of the delivered body can rely on, whatever the outcome. */
  predicate Delivered(site: Site, w: World, content: string) {
    && DeliveredBody(w) <= content
    && (w.outcome == Finished <==> w.outcome != Crashed && DeliveredBody(w) == content)
    && w.req.first < |content| && w.req.retries <= site.maxRetries
    && (w.outcome == GaveUp ==> w.req.retries == site.maxRetries)
  }

  // ---- what the client has been told ----

  /** The client has been told exactly the octets from the Range start on, and done when that is all. */
  predicate HeardRight(s: State, g: Get, content: string) {
    && g.first + |Heard(s)| <= |content| && Heard(s) == content[g.first..g.first + |Heard(s)|]
    && (s.active == [] <==> g.first + |Heard(s)| == |content|)
  }

  lemma HeardAimed(s: State, g: Get, path: string, content: string, calls: seq<seq<string>>)
    requires Ready(s, g) && Answerable(g, content) && s.submitted == [] && ConcatCalls(calls) <= Whole(g, path, content)
    ensures var c := RunCalls(CLIENT, HTTP_RECEIVE, Buffered("", s), calls);
            && (c.st.phase == Aborted ==> Heard(c.st) == "" && c.st.active == [g])
            && (c.st.phase != Aborted ==> HeardRight(c.st, g, content))
  {
    var c := RunCalls(CLIENT, HTTP_RECEIVE, Buffered("", s), calls);
    ReadsSoFar(s, g, path, content, calls);
    if c.st.phase == Aborted {
      HeardAborted(c.st, s, g);
    } else {
      HeardSoFar(c, s, g, path, content, |ConcatCalls(calls)|);
    }
  }

  lemma HeardAborted(t: State, s: State, g: Get)
    requires Ready(s, g) && AbortedFrom(t, s)
    ensures Heard(t) == "" && t.active == [g]
  {
  }

  lemma HeardSoFar(c: Conn, s: State, g: Get, path: string, content: string, n: nat)
    requires Ready(s, g) && Answerable(g, content) && s.submitted == [] && n <= |Whole(g, path, content)|
    requires c.st.phase != Aborted && ReadSoFar(c, s, g, path, content, n)
    ensures HeardRight(c.st, g, content)
  {
    if n < |HeadFor(g, path, content)| {
      HeardNothing(c.st, s, g, content);
    } else {
      HeardArrived(s, g, path, content, n - |HeadFor(g, path, content)|);
    }
  }

  lemma HeardNothing(t: State, s: State, g: Get, content: string)
    requires Ready(s, g) && Answerable(g, content) && Waiting(t, s)
    ensures HeardRight(t, g, content)
  {
  }

  lemma HeardArrived(s: State, g: Get, path: string, content: string, m: nat)
    requires Ready(s, g) && Answerable(g, content) && s.submitted == [] && m <= |content| - g.first
    ensures var t := ArrivedAt(s, g, path, content, m);
            Heard(t) == content[g.first..g.first + m] && (t.active == [] <==> m == |content| - g.first)
    ensures HeardRight(ArrivedAt(s, g, path, content, m), g, content)
  {
  }

  lemma Extends(content: string, k: nat, more: string)
    requires k + |more| <= |content| && more == content[k..k + |more|]
    ensures content[..k] + more == content[..k + |more|]
  {
  }

  lemma BodyRight(site: Site, w: World, content: string)
    requires Basics(site, w, content) && HeardRight(w.conn.st, Wanted(w), content)
    ensures DeliveredBody(w) <= content && (w.conn.st.active == [] <==> DeliveredBody(w) == content)
  {
    Extends(content, w.req.first, Heard(w.conn.st));
  }

  lemma BodyUnheard(site: Site, w: World, content: string)
    requires Basics(site, w, content) && Heard(w.conn.st) == ""
    ensures DeliveredBody(w) == w.base && DeliveredBody(w) <= content && DeliveredBody(w) != content
  {
    assert w.base + "" == w.base;
  }

  lemma AimedHeard(site: Site, w: World, content: string)
    requires Basics(site, w, content) && ClientSide(w) && Aimed(site, w, content)
    ensures w.conn.st.phase == Aborted ==> Heard(w.conn.st) == ""
    ensures w.conn.st.phase != Aborted ==> HeardRight(w.conn.st, Wanted(w), content)
  {
    HeardAimed(w.start, Wanted(w), site.root + w.req.path, content, w.calls);
    HeardAlike(w.conn, "", Wanted(w), content);
  }

  /** outbuf_ has nothing to do with what has been heard. */
  lemma HeardAlike(c: Conn, outbuf: string, g: Get, content: string)
    ensures var d := WithOutbuf(c, outbuf);
            d.st.phase == c.st.phase && Heard(d.st) == Heard(c.st)
              && HeardRight(d.st, g, content) == HeardRight(c.st, g, content)
  {
  }

  lemma AstrayHeard(site: Site, w: World, content: string)
    requires Basics(site, w, content) && ClientSide(w) && Astray(site, w, content)
    ensures Heard(w.conn.st) == "" && w.conn.st.phase != Aborted && w.conn.st.active != []
  {
    var path := site.root + w.req.path;
    WholePrefix(HeadFor(Plain(Wanted(w)), path, content), content[0..], ConcatCalls(w.calls));
    MissedRangeWaits(w.start, Wanted(w), path, content, w.calls);
  }

  lemma WholePrefix(head: string, body: string, a: string)
    requires a <= head + body && |a| <= |head|
    ensures a <= head
  {
  }

  lemma InvDelivers(site: Site, w: World, content: string)
    requires Inv(site, w, content)
    ensures Delivered(site, w, content)
  {
    if Aimed(site, w, content) {
      AimedHeard(site, w, content);
      BodyRight(site, w, content);
    } else {
      AstrayHeard(site, w, content);
      BodyUnheard(site, w, content);
    }
  }

  // ---- each step ----

  lemma SendKeeps(site: Site, w: World, content: string, n: nat)
    requires Inv(site, w, content) && Possible(w, Send(n))
    ensures Inv(site, Next(site, w, Send(n)), content)
    ensures Aimed(site, w, content) ==> Aimed(site, Next(site, w, Send(n)), content)
  {
    var w' := Next(site, w, Send(n));
    SendTodo(w, n);
    assert WithOutbuf(w'.conn, "") == WithOutbuf(w.conn, "");
    if Aimed(site, w, content) { assert Aimed(site, w', content); } else { assert Astray(site, w', content); }
  }

  lemma SendTodo(w: World, n: nat)
    requires n <= |w.conn.st.outbuf|
    ensures var out := w.conn.st.outbuf;
            Todo(w.(conn := WithOutbuf(w.conn, out[n..]), up := w.up + out[..n])) == Todo(w)
  {
    var out := w.conn.st.outbuf;
    assert out == out[..n] + out[n..];
    assert w.server.inbuf + (w.up + out[..n]) + out[n..] == w.server.inbuf + w.up + (out[..n] + out[n..]);
  }

  lemma TodoMoves(w: World, n: nat)
    requires n <= |w.up|
    ensures Todo(w) == w.server.inbuf + w.up[..n] + (w.up[n..] + w.conn.st.outbuf)
  {
    assert w.up == w.up[..n] + w.up[n..];
  }

  lemma TodoAfter(w: World, server: Server, n: nat)
    requires n <= |w.up|
    ensures Todo(w.(server := server, up := w.up[n..])) == server.inbuf + (w.up[n..] + w.conn.st.outbuf)
  {
  }

  /** The part of the invariant that a step of the server alone has to re-establish. */
  lemma ServerStepped(site: Site, w: World, content: string, server: Server, up: string, h: Get)
    requires Inv(site, w, content) && !server.intake.aborted
    requires h == Wanted(w)
             || (h == Plain(Wanted(w)) && (Astray(site, w, content) || (w.req.first > 0 && ConcatCalls(w.calls) == "")))
    requires ServerSide(w.(server := server, up := up), h, Whole(h, site.root + w.req.path, content))
    ensures Inv(site, Settle(w.(server := server, up := up)), content)
    ensures h == Wanted(w) ==> Aimed(site, Settle(w.(server := server, up := up)), content)
  {
    if h == Wanted(w) {
      assert Aimed(site, w.(server := server, up := up), content);
    } else {
      assert Astray(site, w.(server := server, up := up), content);
    }
  }

  lemma NothingYet(w: World, v: Server, whole: string)
    requires w.mark == |v.sent| == |w.server.sent| && ConcatCalls(w.calls) <= SentSince(w.server, w.mark)
    ensures ConcatCalls(w.calls) == SentSince(v, w.mark) == "" && SentSince(v, w.mark) <= whole
  {
  }

  lemma DeliverFirst(site: Site, w: World, content: string, n: nat)
    requires Inv(site, w, content) && Possible(w, Deliver(n))
    requires NotYet(w.server, w.mark) && Todo(w) == Head(RequestLines(Wanted(w)))
    ensures var w' := Next(site, w, Deliver(n));
            && Inv(site, w', content)
            && (NotYet(w'.server, w'.mark) ==> Aimed(site, w', content) && Todo(w') == Todo(w))
            && (!NotYet(w'.server, w'.mark) ==> w'.server.intake.queue != [])
            && (w.req.first == 0 || |Todo(w')| <= 2 ==> Aimed(site, w', content))
  {
    var g, chunk, later := Wanted(w), w.up[..n], w.up[n..] + w.conn.st.outbuf;
    var v' := Arrive(w.server, chunk);
    TodoMoves(w, n);
    TodoAfter(w, v', n);
    ArriveFirst(g, w.server, w.mark, chunk, later);
    var h := if NotYet(v', w.mark) || w.req.first == 0 || v'.intake.queue == [Job(g.path, StartOf(g))] then g
             else Plain(g);
    NothingYet(w, v', Whole(h, site.root + w.req.path, content));
    ServerStepped(site, w, content, v', w.up[n..], h);
  }

  /** The recv() completes the Range line of a request that has been answered. */
  predicate CompletesRange(w: World, n: nat)
    requires n <= |w.up|
  {
    w.req.first > 0 && |Todo(w)| > 2 && |w.up| - n + |w.conn.st.outbuf| <= 2
  }

  lemma LateArrives(w: World, n: nat, h: Get, whole: string)
    requires Possible(w, Deliver(n)) && ServerSide(w, h, whole) && Sendable(Wanted(w))
    requires !(NotYet(w.server, w.mark) && Todo(w) == Head(RequestLines(Wanted(w))))
    ensures var u := w.(server := Arrive(w.server, w.up[..n]), up := w.up[n..]);
            && |Todo(u)| <= |Todo(w)| && (u.server.intake.aborted <==> CompletesRange(w, n))
            && (!u.server.intake.aborted ==> ServerSide(u, h, whole))
  {
    var chunk, later := w.up[..n], w.up[n..] + w.conn.st.outbuf;
    TodoMoves(w, n);
    TodoAfter(w, Arrive(w.server, chunk), n);
    assert |w.server.inbuf + chunk + later| > 0;
    ArriveLate(Wanted(w), w.server, w.mark, whole, chunk, later);
  }

  lemma DeliverLate(site: Site, w: World, content: string, n: nat, h: Get)
    requires Inv(site, w, content) && Possible(w, Deliver(n))
    requires h == Wanted(w) || (h == Plain(Wanted(w)) && Astray(site, w, content))
    requires ServerSide(w, h, Whole(h, site.root + w.req.path, content))
    requires !(NotYet(w.server, w.mark) && Todo(w) == Head(RequestLines(Wanted(w))))
    ensures var w' := Next(site, w, Deliver(n));
            && (w'.outcome == Crashed || Inv(site, w', content))
            && |Todo(w')| <= |Todo(w)| && (w'.outcome == Crashed <==> CompletesRange(w, n))
            && (h == Wanted(w) && (w.req.first == 0 || |Todo(w)| <= 2) ==>
                w'.outcome == Pending && Aimed(site, w', content))
  {
    var v' := Arrive(w.server, w.up[..n]);
    LateArrives(w, n, h, Whole(h, site.root + w.req.path, content));
    if !v'.intake.aborted { ServerStepped(site, w, content, v', w.up[n..], h); }
  }

  lemma DeliverKeeps(site: Site, w: World, content: string, n: nat)
    requires Inv(site, w, content) && Possible(w, Deliver(n))
    ensures var w' := Next(site, w, Deliver(n)); w'.outcome == Crashed || Inv(site, w', content)
  {
    if NotYet(w.server, w.mark) && Todo(w) == Head(RequestLines(Wanted(w))) {
      DeliverFirst(site, w, content, n);
    } else {
      DeliverLate(site, w, content, n, if Aimed(site, w, content) then Wanted(w) else Plain(Wanted(w)));
    }
  }

  lemma ReplyIs(site: Site, w: World, content: string, h: Get)
    requires Basics(site, w, content) && (h == Wanted(w) || h == Plain(Wanted(w)))
    ensures var path := site.root + w.req.path;
            ReplyOf(site)(Job(w.req.path, StartOf(h))) == Reply(HeadFor(h, path, content), content[h.first..])
  {
    Wrap32Identity(|content| - 1);
    assert content[0..] == content;
  }

  /** The request has not been queued, and all of it is on its way. */
  predicate Unasked(w: World) { NotYet(w.server, w.mark) && Todo(w) == Head(RequestLines(Wanted(w))) }

  lemma ServesNothing(site: Site, w: World, content: string, step: SendStep)
    requires Basics(site, w, content) && Possible(w, Serve(step)) && !w.server.intake.aborted && Unasked(w)
    requires ServerSide(w, Wanted(w), Whole(Wanted(w), site.root + w.req.path, content))
    ensures var u := w.(server := OnSend(ReplyOf(site), w.server, step));
            && ServerSide(u, Wanted(w), Whole(Wanted(w), site.root + w.req.path, content)) && !u.server.intake.aborted
            && Unasked(u)
  {
    ServeWaits(ReplyOf(site), w.server, w.mark, step);
  }

  lemma ServesOn(site: Site, w: World, content: string, step: SendStep, h: Get)
    requires Basics(site, w, content) && Possible(w, Serve(step)) && !w.server.intake.aborted
    requires h == Wanted(w) || h == Plain(Wanted(w))
    requires ServerSide(w, h, Whole(h, site.root + w.req.path, content)) && !(Unasked(w) && h == Wanted(w))
    ensures var u := w.(server := OnSend(ReplyOf(site), w.server, step));
            && ServerSide(u, h, Whole(h, site.root + w.req.path, content)) && !u.server.intake.aborted
            && Todo(u) == Todo(w)
  {
    ReplyIs(site, w, content, h);
    ServeKeeps(ReplyOf(site), w.server, w.mark, Job(w.req.path, StartOf(h)), Whole(h, site.root + w.req.path, content),
      step);
  }

  lemma ServeStepKeeps(site: Site, w: World, content: string, step: SendStep, h: Get)
    requires Inv(site, w, content) && Possible(w, Serve(step))
    requires h == Wanted(w) || (h == Plain(Wanted(w)) && Astray(site, w, content))
    requires ServerSide(w, h, Whole(h, site.root + w.req.path, content))
    ensures Inv(site, Next(site, w, Serve(step)), content)
    ensures h == Wanted(w) ==> Aimed(site, Next(site, w, Serve(step)), content)
    ensures Todo(Next(site, w, Serve(step))) == Todo(w)
    ensures NotYet(w.server, w.mark) && Todo(w) == Head(RequestLines(Wanted(w))) && h == Wanted(w) ==>
      NotYet(Next(site, w, Serve(step)).server, w.mark)
  {
    if Unasked(w) && h == Wanted(w) {
      ServesNothing(site, w, content, step);
    } else {
      ServesOn(site, w, content, step, h);
    }
    ServerStepped(site, w, content, OnSend(ReplyOf(site), w.server, step), w.up, h);
  }

  /** The client's side of one more http_receive call. */
  lemma ReceiveRuns(w: World, pieces: seq<string>)
    requires ClientSide(w)
    ensures ClientSide(w.(conn := Call(CLIENT, HTTP_RECEIVE, w.conn, pieces), calls := w.calls + [pieces]))
  {
    var calls := w.calls + [pieces];
    assert calls[..|calls| - 1] == w.calls;
    ReceiveIgnoresOutbuf(w.conn, "", pieces);
  }

  lemma ReceivedMore(w: World, pieces: seq<string>)
    requires w.mark + |ConcatCalls(w.calls)| <= |w.server.sent| && Concat(pieces) <= Down(w)
    requires ConcatCalls(w.calls) <= SentSince(w.server, w.mark)
    ensures ConcatCalls(w.calls + [pieces]) == ConcatCalls(w.calls) + Concat(pieces) <= SentSince(w.server, w.mark)
  {
    var calls, a, b := w.calls + [pieces], ConcatCalls(w.calls), Concat(pieces);
    assert calls[..|calls| - 1] == w.calls;
    var all := SentSince(w.server, w.mark);
    assert all == all[..|a|] + all[|a|..] && all[|a|..] == Down(w) && all[..|a|] == a;
    assert b == Down(w)[..|b|];
    assert all[..|a| + |b|] == a + b;
  }

  lemma ReceiveOutbuf(w: World, pieces: seq<string>)
    requires ClientSide(w)
    ensures Call(CLIENT, HTTP_RECEIVE, w.conn, pieces).st.outbuf == w.conn.st.outbuf
  {
    ReceiveIgnoresOutbuf(w.conn, w.conn.st.outbuf, pieces);
    assert WithOutbuf(w.conn, w.conn.st.outbuf) == w.conn;
  }

  lemma ReceiveAimed(site: Site, w: World, content: string, pieces: seq<string>)
    requires Inv(site, w, content) && Possible(w, Receive(pieces)) && Aimed(site, w, content)
    ensures var w' := Next(site, w, Receive(pieces));
            && Delivered(site, w', content) && (w'.outcome == Pending ==> Inv(site, w', content))
            && w'.outcome != GaveUp && ClientSide(w') && Aimed(site, w', content) && Todo(w') == Todo(w)
  {
    var u := w.(conn := Call(CLIENT, HTTP_RECEIVE, w.conn, pieces), calls := w.calls + [pieces]);
    ReceiveRuns(w, pieces);
    ReceivedMore(w, pieces);
    ReceiveOutbuf(w, pieces);
    assert Todo(u) == Todo(w);
    assert Aimed(site, u, content);
    AimedHeard(site, u, content);
    if u.conn.st.phase == Aborted { BodyUnheard(site, u, content); } else { BodyRight(site, u, content); }
  }

  lemma ReceiveAstray(site: Site, w: World, content: string, pieces: seq<string>)
    requires Inv(site, w, content) && Possible(w, Receive(pieces)) && Astray(site, w, content)
    ensures var w' := Next(site, w, Receive(pieces));
            Delivered(site, w', content) && (w'.outcome == Pending ==> Inv(site, w', content))
              && w'.outcome in {Pending, Crashed}
  {
    var u := w.(conn := Call(CLIENT, HTTP_RECEIVE, w.conn, pieces), calls := w.calls + [pieces]);
    var g, path := Wanted(w), site.root + w.req.path;
    ReceiveRuns(w, pieces);
    ReceivedMore(w, pieces);
    ReceiveOutbuf(w, pieces);
    assert Todo(u) == Todo(w);
    if |ConcatCalls(u.calls)| < |HeadFor(Plain(g), path, content)| {
      assert Astray(site, u, content);
      AstrayHeard(site, u, content);
    } else {
      MissedRangeAborts(w.start, g, path, content, w.calls, pieces);
      assert AbortedFrom(WithOutbuf(u.conn, "").st, w.start);
    }
    BodyUnheard(site, u, content);
  }

  /** Handing a request to a rested connection starts an exchange. */
  lemma AttemptStarts(site: Site, req: Asked, base: string, l: Link, content: string)
    requires Rested(l) && Basics(site, Attempt(req, base, l), content)
    ensures Inv(site, Attempt(req, base, l), content)
  {
    var w := Attempt(req, base, l);
    assert "" + Head(RequestLines(Wanted(w))) == Head(RequestLines(Wanted(w)));
    assert ReadLine("").NoLine?;
    assert Todo(w) == "" + "" + Head(RequestLines(Wanted(w)));
    assert SentSince(w.server, w.mark) == "";
    assert Aimed(site, w, content);
  }

  /** What a retry asks for. */
  lemma RetryAsks(site: Site, w: World, content: string, next: Link)
    requires Inv(site, w, content) && Delivered(site, w, content) && Rested(next) && w.req.retries != site.maxRetries
    ensures var w' := Retry(site, w, next);
            w' == Attempt(w'.req, w'.base, next) && Basics(site, w', content)
  {
    assert DeliveredBody(w) == content[..|DeliveredBody(w)|];
  }

  lemma RetryStarts(site: Site, w: World, content: string, next: Link)
    requires Inv(site, w, content) && Delivered(site, w, content) && Rested(next) && w.req.retries != site.maxRetries
    ensures Inv(site, Retry(site, w, next), content)
  {
    var w' := Retry(site, w, next);
    RetryAsks(site, w, content, next);
    AttemptStarts(site, w'.req, w'.base, next, content);
  }

  lemma GivesUp(site: Site, w: World, content: string, next: Link)
    requires Inv(site, w, content) && Delivered(site, w, content) && w.req.retries == site.maxRetries
    ensures Delivered(site, Retry(site, w, next), content) && Retry(site, w, next).outcome == GaveUp
  {
  }

  lemma LoseKeeps(site: Site, w: World, content: string, next: Link)
    requires Inv(site, w, content) && Rested(next)
    ensures var w' := Next(site, w, Lose(next));
            Delivered(site, w', content) && (w'.outcome == Pending ==> Inv(site, w', content))
  {
    InvDelivers(site, w, content);
    if w.req.retries == site.maxRetries {
      GivesUp(site, w, content, next);
    } else {
      RetryStarts(site, w, content, next);
      InvDelivers(site, Retry(site, w, next), content);
    }
  }

  lemma CrashDelivers(site: Site, w: World, u: World, content: string)
    requires Delivered(site, w, content) && w.outcome == Pending
    requires u.outcome == Crashed && u.req == w.req && u.base == w.base && Heard(u.conn.st) == Heard(w.conn.st)
    ensures Delivered(site, u, content)
  {
  }

  lemma StepDelivers(site: Site, w: World, content: string, e: Event)
    requires Inv(site, w, content) && Possible(w, e)
    ensures var w' := Next(site, w, e);
            Delivered(site, w', content) && (w'.outcome == Pending ==> Inv(site, w', content))
  {
    var w' := Next(site, w, e);
    InvDelivers(site, w, content);
    match e
    case Send(n) => SendKeeps(site, w, content, n); InvDelivers(site, w', content);
    case Deliver(n) =>
      DeliverKeeps(site, w, content, n);
      if w'.outcome == Crashed { CrashDelivers(site, w, w', content); } else { InvDelivers(site, w', content); }
    case Serve(step) =>
      ServeStepKeeps(site, w, content, step, if Aimed(site, w, content) then Wanted(w) else Plain(Wanted(w)));
      InvDelivers(site, w', content);
    case Receive(pieces) =>
      if Aimed(site, w, content) {
        ReceiveAimed(site, w, content, pieces);
      } else {
        ReceiveAstray(site, w, content, pieces);
      }
    case Lose(next) => LoseKeeps(site, w, content, next);
  }

  // ---- when an assertion fails ----

  /** With these calls a range response is refused: the server has sent the range and some call, not the
      last, has ended within the last two octets of the head; or it has missed the Range, and its head is
      complete. */
  ghost predicate Refuses(site: Site, w: World, content: string, calls: seq<seq<string>>)
    requires Basics(site, w, content)
  {
    var g, path, n := Wanted(w), site.root + w.req.path, |ConcatCalls(calls)|;
    var h := |HeadFor(g, path, content)|;
    w.req.first > 0 &&
    if Aimed(site, w, content) then n >= h && exists j | 0 <= j < |calls| :: h - 2 <= |ConcatCalls(calls[..j])| < h
    else n >= |HeadFor(Plain(g), path, content)|
  }

  /** The step at which an assertion of either end fails. */
  ghost predicate Fatal(site: Site, w: World, content: string, e: Event)
    requires Basics(site, w, content) && Possible(w, e)
  {
    match e
    case Deliver(n) => !Unasked(w) && CompletesRange(w, n)
    case Receive(pieces) => Refuses(site, w, content, w.calls + [pieces])
    case _ => false
  }

  lemma ReceiveFatal(site: Site, w: World, content: string, pieces: seq<string>)
    requires Inv(site, w, content) && Possible(w, Receive(pieces))
    ensures Next(site, w, Receive(pieces)).outcome == Crashed <==> Refuses(site, w, content, w.calls + [pieces])
  {
    var u := w.(conn := Call(CLIENT, HTTP_RECEIVE, w.conn, pieces), calls := w.calls + [pieces]);
    assert Next(site, w, Receive(pieces)) == Settle(u);
    ReceiveRuns(w, pieces);
    ReceivedMore(w, pieces);
    if Aimed(site, w, content) { AimedFatal(site, w, content, u); } else { AstrayFatal(site, w, content, pieces); }
  }

  lemma AimedFatal(site: Site, w: World, content: string, u: World)
    requires Basics(site, w, content) && Aimed(site, w, content) && ClientSide(u)
    requires u == w.(conn := u.conn, calls := u.calls)
    requires ConcatCalls(u.calls) <= Whole(Wanted(w), site.root + w.req.path, content)
    ensures u.conn.st.phase == Aborted <==> Refuses(site, w, content, u.calls)
  {
    ResponseOverCalls(u.start, Wanted(u), site.root + u.req.path, content, u.calls);
    assert WithOutbuf(u.conn, "").st.phase == u.conn.st.phase;
  }

  lemma AstrayFatal(site: Site, w: World, content: string, pieces: seq<string>)
    requires Inv(site, w, content) && Possible(w, Receive(pieces)) && Astray(site, w, content)
    ensures Call(CLIENT, HTTP_RECEIVE, w.conn, pieces).st.phase == Aborted <==>
            |ConcatCalls(w.calls + [pieces])| >= |HeadFor(Plain(Wanted(w)), site.root + w.req.path, content)|
  {
    var u := w.(conn := Call(CLIENT, HTTP_RECEIVE, w.conn, pieces), calls := w.calls + [pieces]);
    var g, path := Wanted(w), site.root + w.req.path;
    ReceiveRuns(w, pieces);
    ReceivedMore(w, pieces);
    ReceiveOutbuf(w, pieces);
    assert Todo(u) == Todo(w);
    if |ConcatCalls(u.calls)| < |HeadFor(Plain(g), path, content)| {
      assert Astray(site, u, content);
      AstrayHeard(site, u, content);
    } else {
      MissedRangeAborts(w.start, g, path, content, w.calls, pieces);
      assert AbortedFrom(WithOutbuf(u.conn, "").st, w.start);
    }
  }

  lemma DeliverFatal(site: Site, w: World, content: string, n: nat)
    requires Inv(site, w, content) && Possible(w, Deliver(n))
    ensures Next(site, w, Deliver(n)).outcome == Crashed <==> !Unasked(w) && CompletesRange(w, n)
  {
    if Unasked(w) {
      DeliverFirst(site, w, content, n);
    } else {
      DeliverLate(site, w, content, n, if Aimed(site, w, content) then Wanted(w) else Plain(Wanted(w)));
    }
  }

  /** In a reachable state, exactly these steps fail an assertion. */
  lemma CrashIff(site: Site, w: World, content: string, e: Event)
    requires Inv(site, w, content) && Possible(w, e)
    ensures Next(site, w, e).outcome == Crashed <==> Fatal(site, w, content, e)
  {
    match e
    case Send(n) => SendKeeps(site, w, content, n);
    case Deliver(n) => DeliverFatal(site, w, content, n);
    case Serve(step) =>
      ServeStepKeeps(site, w, content, step, if Aimed(site, w, content) then Wanted(w) else Plain(Wanted(w)));
    case Receive(pieces) => ReceiveFatal(site, w, content, pieces);
    case Lose(next) => LoseKeeps(site, w, content, next);
  }

  /** Some step of the run is fatal. */
  ghost predicate EverFatal(site: Site, w: World, content: string, events: seq<Event>)
    decreases |events|
  {
    events != [] && Basics(site, w, content) &&
    ((Possible(w, events[0]) && Fatal(site, w, content, events[0])) ||
     EverFatal(site, Happen(site, w, events[0]), content, events[1..]))
  }

  /** Over every run: an assertion of either end fails if and only if a recv() of the server completes the
      Range line of a request it has answered, or a call of the client makes it refuse a response. */
  lemma {:induction false} RunCrashIff(site: Site, w: World, content: string, events: seq<Event>)
    requires Inv(site, w, content)
    ensures Run(site, w, events).outcome == Crashed <==> EverFatal(site, w, content, events)
    decreases |events|
  {
    if events != [] {
      var u := Happen(site, w, events[0]);
      if Possible(w, events[0]) {
        StepDelivers(site, w, content, events[0]);
        CrashIff(site, w, content, events[0]);
      }
      if u.outcome == Pending {
        RunCrashIff(site, u, content, events[1..]);
      } else {
        Over(site, u, events[1..]);
        NeverAgain(site, u, content, events[1..]);
      }
    }
  }

  lemma {:induction false} NeverAgain(site: Site, w: World, content: string, events: seq<Event>)
    requires w.outcome != Pending
    ensures !EverFatal(site, w, content, events)
    decreases |events|
  {
    if events != [] { NeverAgain(site, w, content, events[1..]); }
  }

  lemma Over(site: Site, w: World, events: seq<Event>)
    requires w.outcome != Pending
    ensures Run(site, w, events) == w
    decreases |events|
  {
    if events != [] { Over(site, w, events[1..]); }
  }

  lemma {:induction false} RunDelivers(site: Site, w: World, content: string, events: seq<Event>)
    requires Inv(site, w, content)
    ensures var u := Run(site, w, events);
            Delivered(site, u, content) && (u.outcome == Pending ==> Inv(site, u, content))
    decreases |events|
  {
    InvDelivers(site, w, content);
    if events != [] {
      var u := Happen(site, w, events[0]);
      if Possible(w, events[0]) { StepDelivers(site, w, content, events[0]); }
      if u.outcome == Pending { RunDelivers(site, u, content, events[1..]); } else { Over(site, u, events[1..]); }
    }
  }

  // ---- how often a request is tried ----

  /** The losses that happen while the request is pending. */
  function Losses(site: Site, w: World, events: seq<Event>): nat
    decreases |events|
  {
    if events == [] then 0
    else (if events[0].Lose? && Possible(w, events[0]) then 1 else 0)
         + Losses(site, Happen(site, w, events[0]), events[1..])
  }

  lemma {:induction false} NoneAfter(site: Site, w: World, events: seq<Event>)
    requires w.outcome != Pending
    ensures Losses(site, w, events) == 0
    decreases |events|
  {
    if events != [] { NoneAfter(site, w, events[1..]); }
  }

  /** Each loss is either survived, and then counted in the request's retries, or ends it; and it ends at the
      loss after maxRetries survived ones, for no other reason. */
  lemma {:induction false} RetriesAreLosses(site: Site, w: World, events: seq<Event>)
    requires w.outcome == Pending && w.req.retries <= site.maxRetries
    ensures var u, n := Run(site, w, events), Losses(site, w, events);
            && (u.outcome == GaveUp <==> w.req.retries + n == site.maxRetries + 1)
            && (u.outcome != GaveUp ==> u.req.retries == w.req.retries + n <= site.maxRetries)
            && (u.outcome == GaveUp ==> u.req.retries == site.maxRetries)
    decreases |events|
  {
    if events != [] {
      var u := Happen(site, w, events[0]);
      if u.outcome == Pending {
        RetriesAreLosses(site, u, events[1..]);
      } else {
        Over(site, u, events[1..]);
        NoneAfter(site, u, events[1..]);
      }
    }
  }

  /** Resume exactness. Whatever the sizes of every read and write, however often the connection is lost
      and whichever connection a retry is given: the octets delivered over all attempts are always a
      prefix of the file, a Range start never reaches the end of the file, and the request finishes
      exactly when the whole file has been delivered. It is given up exactly at the loss after maxRetries
      others. */
  lemma ResumeExact(site: Site, req: Asked, l: Link, content: string, events: seq<Event>)
    requires Rested(l) && req.first == 0 && req.retries == 0
    requires Basics(site, Attempt(req, "", l), content)
    ensures Delivered(site, Run(site, Attempt(req, "", l), events), content)
    ensures var w := Attempt(req, "", l);
            var u, n := Run(site, w, events), Losses(site, w, events);
            && (u.outcome == GaveUp <==> n == site.maxRetries + 1)
            && u.req.retries == if u.outcome == GaveUp then site.maxRetries else n
  {
    AttemptStarts(site, req, "", l, content);
    RunDelivers(site, Attempt(req, "", l), content, events);
    RetriesAreLosses(site, Attempt(req, "", l), events);
  }
}
