/** One exchange on a connection, seen from the server: one request head comes in, one response goes
    out, whatever the sizes of the reads and writes. */
module Exchange {
  import opened Text
  import opened HeadText
  import opened HttpClient
  import opened HttpServer
  import opened ClientReads
  import opened ServerReads

  /** What the socket has accepted since this exchange began. */
  function SentSince(v: Server, mark: nat): string
    requires mark <= |v.sent|
  {
    v.sent[mark..]
  }

  /** The exchange before this one has left the server idle, or about to find out that the file is read. */
  predicate Settled(v: Server) {
    && !v.intake.aborted && v.intake.state == RequestLine && v.outbuf == "" && v.unread == ""
    && ((v.intake.queue == [] && v.rsp == RspMeta) || (|v.intake.queue| == 1 && v.rsp == RspBody))
  }

  predicate NotYet(v: Server, mark: nat) {
    mark == |v.sent| && Settled(v) && ReadLine(v.inbuf).NoLine? && (v.intake.queue != [] ==> v.inbuf == "")
  }

  predicate Queued(v: Server, mark: nat, job: Job) {
    mark == |v.sent| && v.intake.queue == [job] && v.rsp == RspMeta && v.outbuf == "" && v.unread == ""
  }

  predicate Serving(v: Server, mark: nat, job: Job, whole: string) {
    mark <= |v.sent| && v.intake.queue == [job] && v.rsp == RspBody && SentSince(v, mark) + v.outbuf + v.unread == whole
  }

  predicate Served(v: Server, mark: nat, whole: string) {
    mark <= |v.sent| && v.intake.queue == [] && v.rsp == RspMeta && v.unread == ""
      && SentSince(v, mark) + v.outbuf == whole
  }

  /** The request has been queued as `job`, whose response is `whole`. */
  predicate Underway(v: Server, mark: nat, job: Job, whole: string) {
    !v.intake.aborted && ReadLine(v.inbuf).NoLine? &&
    (Queued(v, mark, job) || Serving(v, mark, job, whole) || Served(v, mark, whole))
  }

  /** Nothing else of the server's intake has changed. */
  predicate SameIntake(v: Server, v': Server) {
    v'.inbuf == v.inbuf && v'.intake.state == v.intake.state && v'.intake.aborted == v.intake.aborted
  }

  lemma PollIsIdle(v: Server)
    requires ReadLine(v.inbuf).NoLine?
    ensures Arrive(v, "") == v
  {
    assert v.inbuf + "" == v.inbuf;
    DigestNone(v.inbuf, v.intake);
  }

  lemma AcceptMoves(v: Server, mark: nat, n: nat)
    requires mark <= |v.sent| && n <= |v.outbuf|
    ensures var v' := WritePass(v, n);
            SentSince(v', mark) + v'.outbuf == SentSince(v, mark) + v.outbuf
              && SentSince(v, mark) <= SentSince(v', mark)
  {
    assert (v.sent + v.outbuf[..n])[mark..] == v.sent[mark..] + v.outbuf[..n];
    assert v.outbuf[..n] + v.outbuf[n..] == v.outbuf;
  }

  lemma FetchMoves(v: Server, mark: nat, job: Job, whole: string, room: nat)
    requires Serving(v, mark, job, whole) && ReadLine(v.inbuf).NoLine? && room >= 1
    ensures var v' := ReadPass(v, room);
            SameIntake(v, v') && v'.sent == v.sent &&
            if |v.unread| < room then Served(v', mark, whole) else Serving(v', mark, job, whole)
  {
    if |v.unread| < room {
      PollIsIdle(v.(outbuf := v.outbuf + v.unread, unread := "", rsp := RspMeta,
        intake := v.intake.(queue := v.intake.queue[1..])));
    } else {
      assert v.unread[..room] + v.unread[room..] == v.unread;
    }
  }

  lemma AcceptKeeps(v: Server, mark: nat, job: Job, whole: string, n: nat)
    requires Underway(v, mark, job, whole) && n <= |v.outbuf|
    ensures Underway(WritePass(v, n), mark, job, whole)
  {
    AcceptMoves(v, mark, n);
    if Queued(v, mark, job) {
      assert v.outbuf[..n] == "" && v.sent + "" == v.sent;
    }
  }

  /** Every step of send_to_client keeps the response on its way and the intake as it is. */
  lemma ServeKeeps(reply: Job -> Reply, v: Server, mark: nat, job: Job, whole: string, e: SendStep)
    requires Underway(v, mark, job, whole) && CanSend(v, e)
    requires reply(job).Reply? && whole == reply(job).head + reply(job).body
    ensures var v' := OnSend(reply, v, e);
            Underway(v', mark, job, whole) && SameIntake(v, v') && SentSince(v, mark) <= SentSince(v', mark)
  {
    match e
    case Poll => PollIsIdle(v);
    case Start =>
      assert "" + ("" + reply(job).head) + reply(job).body == whole;
    case Fetch(room) => FetchMoves(v, mark, job, whole, room);
    case Accept(n) =>
      AcceptMoves(v, mark, n);
      AcceptKeeps(v, mark, job, whole, n);
  }

  /** So the pump object, which keeps whatever its steps keep, keeps it too. */
  lemma PumpKeeps(reply: Job -> Reply, mark: nat, job: Job)
    requires reply(job).Reply?
    ensures KeptBySending(reply, (v: Server) => Underway(v, mark, job, reply(job).head + reply(job).body))
  {
    forall v, e | CanSend(v, e) && Underway(v, mark, job, reply(job).head + reply(job).body)
      ensures Underway(OnSend(reply, v, e), mark, job, reply(job).head + reply(job).body)
    {
      ServeKeeps(reply, v, mark, job, reply(job).head + reply(job).body, e);
    }
  }

  /** Before the request is queued the server can only finish with the one before. */
  lemma ServeWaits(reply: Job -> Reply, v: Server, mark: nat, e: SendStep)
    requires NotYet(v, mark) && CanSend(v, e)
    ensures var v' := OnSend(reply, v, e); NotYet(v', mark) && v'.inbuf == v.inbuf && v'.sent == v.sent
  {
    match e
    case Poll => PollIsIdle(v);
    case Start =>
    case Fetch(room) =>
      PollIsIdle(v.(outbuf := v.outbuf + v.unread, unread := "", rsp := RspMeta,
        intake := v.intake.(queue := v.intake.queue[1..])));
      assert v.outbuf + v.unread == "";
    case Accept(n) =>
      assert v.outbuf[..n] == "" && v.sent + "" == v.sent;
  }

  // ---- the request coming in; `later` is what is still on its way ----

  /** What the server has not digested of the head of `g`. */
  predicate Remaining(g: Get, k: Intake, todo: string) {
    if k.state == RequestLine then todo == ""
    else exists n | 1 <= n <= |RequestLines(g)| :: todo == Head(RequestLines(g)[n..])
  }

  lemma ArriveFirst(g: Get, v: Server, mark: nat, chunk: string, later: string)
    requires Sendable(g) && NotYet(v, mark) && v.intake.queue == []
    requires v.inbuf + chunk + later == Head(RequestLines(g))
    ensures var v' := Arrive(v, chunk);
            || (NotYet(v', mark) && v'.inbuf == v.inbuf + chunk)
            || (&& ReadLine(v'.inbuf).NoLine? && !v'.intake.aborted
                && Remaining(g, v'.intake, v'.inbuf + later)
                && (Queued(v', mark, Job(g.path, StartOf(g))) ||
                    (Queued(v', mark, Job(g.path, -1)) && |v'.inbuf + later| > 2)))
    ensures Arrive(v, chunk).sent == v.sent
  {
    var ls := RequestLines(g);
    var m := |v.inbuf + chunk|;
    assert v.intake == IDLE;
    assert Head(ls)[..m] == v.inbuf + chunk && Head(ls)[m..] == later;
    if m == |Head(ls)| {
      assert Head(ls)[..m] == Head(ls) && later == "";
      DigestWhole(g);
    } else {
      DigestPrefix(g, m);
      FirstArrived(g, m);
    }
  }

  lemma FirstArrived(g: Get, m: nat)
    requires Sendable(g) && m < |Head(RequestLines(g))|
    ensures var n := LinesIn(RequestLines(g), m);
            && (n == 0 ==> Head(RequestLines(g)[n..]) == Head(RequestLines(g)))
            && (n > 0 ==> IntakeAt(g, n).queue == [Job(g.path, StartOf(g))] ||
                          (IntakeAt(g, n).queue == [Job(g.path, -1)] && |Head(RequestLines(g)[n..])| > 2))
  {
    var ls := RequestLines(g);
    var n := LinesIn(ls, m);
    assert ls[0..] == ls;
    if n < |ls| {
      assert Head(ls[n..]) == ls[n] + "\r\n" + Head(ls[n + 1..]);
    }
  }

  /** Header lines that come in after the answer: the server aborts exactly when they complete a Range line,
      the last of them. */
  lemma ArriveLate(g: Get, v: Server, mark: nat, whole: string, chunk: string, later: string)
    requires Sendable(g) && Served(v, mark, whole) && !v.intake.aborted
    requires v.intake.state == RequestHeaders && Remaining(g, v.intake, v.inbuf + chunk + later)
    ensures var v' := Arrive(v, chunk);
            var bad := g.first > 0 && |v.inbuf + chunk + later| > 2 && |later| <= 2;
            && (bad ==> v'.intake.aborted)
            && (!bad ==> Served(v', mark, whole) && !v'.intake.aborted && ReadLine(v'.inbuf).NoLine?
                         && Remaining(g, v'.intake, v'.inbuf + later))
    ensures Arrive(v, chunk).sent == v.sent
  {
    var n :| 1 <= n <= |RequestLines(g)| && v.inbuf + chunk + later == Head(RequestLines(g)[n..]);
    DigestLateAt(g, v.inbuf + chunk, later, n);
    LateRange(g, n);
  }

  lemma DigestLateAt(g: Get, text: string, later: string, n: nat)
    requires Sendable(g) && 1 <= n <= |RequestLines(g)| && text + later == Head(RequestLines(g)[n..])
    ensures var r := Digest(text, LATE);
            if g.first > 0 && n - 1 <= |g.headers| && |later| <= 2 then r.1.aborted
            else r.1 in {LATE, IDLE} && ReadLine(r.0).NoLine? && Remaining(g, r.1, r.0 + later)
  {
    var ls, m := RequestLines(g), |text|;
    RequestIs(g);
    assert HeaderLines(g)[n - 1..] == ls[n..];
    assert Head(ls[n..])[..m] == text && Head(ls[n..])[m..] == later;
    DigestLate(g, n - 1, m);
    LateRemaining(g, n, LinesIn(ls[n..], m));
    assert ReadLine("").NoLine?;
  }

  lemma LateRange(g: Get, n: nat)
    requires 1 <= n <= |RequestLines(g)|
    ensures g.first > 0 ==> (n - 1 <= |g.headers| <==> |Head(RequestLines(g)[n..])| > 2)
  {
    var ls := RequestLines(g);
    RequestIs(g);
    FieldLinesAre(g.headers);
    if n < |ls| { assert Head(ls[n..]) == ls[n] + "\r\n" + Head(ls[n + 1..]); } else { assert ls[n..] == []; }
  }

  lemma LateRemaining(g: Get, n: nat, i: nat)
    requires 1 <= n <= |RequestLines(g)| && i <= |RequestLines(g)[n..]|
    ensures Remaining(g, LATE, Head(RequestLines(g)[n..][i..]))
  {
    assert RequestLines(g)[n..][i..] == RequestLines(g)[n + i..];
  }
}
