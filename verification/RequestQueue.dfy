/** The requests of a client connection over its whole life: every one submitted is written once, in order,
    and the next as soon as the response before it has ended. */
module RequestQueue {
  import opened Text
  import opened Decimal
  import opened HttpParse
  import opened HeadText
  import opened LineMachine
  import opened HttpClient
  import opened HttpConnection
  import opened ClientReads

  // ---- the end of a response ----

  /** The octets that complete a body, however recv() cuts them, end the request with all of the body, and
      the next request, if one is waiting, is active at once and all of it is in outbuf_. */
  lemma EndWritesNext(s: State, chunks: seq<string>)
    requires s.phase == Body && |s.active| == 1 && 0 < s.bodyLen == |Concat(chunks)|
    ensures var c := Call(CLIENT, HTTP_RECEIVE, Buffered("", s), chunks);
            && c.inbuf == "" && c.st.phase == StatusLine && c.st.bodyLen == -1 && c.st.got == ""
            && c.st.log == s.log + [Done(s.got + Concat(chunks))]
            && (s.submitted == [] ==> c.st.active == [] && c.st.submitted == [] && c.st.outbuf == s.outbuf)
            && (s.submitted != [] ==>
                && c.st.active == [s.submitted[0]] && c.st.submitted == s.submitted[1..]
                && c.st.first == s.submitted[0].first
                && c.st.outbuf == s.outbuf + Head(RequestLines(s.submitted[0])))
  {
    var body, q := Concat(chunks), s.(found := false);
    var c := Buffered("", q);
    ReceiveAllIsReceive(CLIENT, c, chunks);
    assert "" + body == body;
    BodyPiece(Buffered(body, q), |body|);
    assert body[|body|..] == "" && body[..|body|] == body;
    var t := q.(got := q.got + body, bodyLen := 0);
    assert Took(Buffered(body, q), |body|) == Buffered("", t);
    assert ReadLine("").NoLine?;
    assert Drain(CLIENT, Buffered("", Finish(t))) == Buffered("", Finish(t));
  }

  // ---- what a request says ----

  /** `name: value` at the first colon, as either end reads it. */
  function NameAndValue(line: string): (string, string) {
    var k := IndexOf(line, ':', 0);
    if k < 0 || k + 2 > |line| then (line, "") else (line[..k], line[k + 2..])
  }

  predicate PlainField(h: (string, string)) {
    h.0 != "" && ':' !in h.0 && '\0' !in h.0 && '\0' !in h.1
  }

  lemma {:induction false} FieldsRead(hs: seq<(string, string)>, i: nat)
    requires i < |hs| && PlainField(hs[i])
    ensures |FieldLines(hs)| == |hs| && NameAndValue(FieldLines(hs)[i]) == hs[i]
  {
    if i == 0 {
      FieldLinesLong(hs);
      FieldParts(hs[0].0, hs[0].1);
    } else {
      FieldsRead(hs[1..], i - 1);
    }
  }

  lemma {:induction false} FieldLinesLong(hs: seq<(string, string)>)
    ensures |FieldLines(hs)| == |hs|
  {
    if hs != [] { FieldLinesLong(hs[1..]); }
  }

  /** A request head is the request line with the path, the headers in their order, and the Range when the
      start is not 0. */
  lemma RequestSays(g: Get, i: nat)
    requires i < |g.headers| && PlainField(g.headers[i])
    ensures var ls := RequestLines(g);
            && |ls| == 1 + |g.headers| + (if g.first > 0 then 1 else 0)
            && ls[0] == "GET " + g.path + " HTTP/1.1" && NameAndValue(ls[1 + i]) == g.headers[i]
            && (g.first > 0 ==> NameAndValue(ls[|ls| - 1]) == ("Range", "bytes=" + Print(g.first) + "-"))
  {
    FieldsRead(g.headers, i);
    if g.first > 0 {
      PrintNonNul(g.first);
      FieldParts("Range", PrintRange(g.first));
    }
  }

  // ---- whole lives ----

  datatype Act = Submits(g: Get) | Sends(accepted: nat) | Receives(chunks: seq<string>)

  /** A connection, all that was submitted to it, and all that has gone to its socket. */
  datatype Life = Life(conn: Conn, asked: seq<Get>, wire: string)

  const BORN: Life := Life(Buffered("", Fresh), [], "")

  /** What the methods of the Connection object do. */
  function Acted(l: Life, a: Act): Life {
    match a
    case Submits(g) => l.(conn := Buffered(l.conn.inbuf, Submit(l.conn.st, g)), asked := l.asked + [g])
    case Sends(accepted) =>
      var s := WriteToOutbuf(l.conn.st);
      var k := if accepted <= |s.outbuf| then accepted else |s.outbuf|;
      l.(conn := Buffered(l.conn.inbuf, s.(outbuf := s.outbuf[k..])), wire := l.wire + s.outbuf[..k])
    case Receives(chunks) => l.(conn := Call(CLIENT, HTTP_RECEIVE, l.conn, chunks))
  }

  function Lived(l: Life, acts: seq<Act>): Life
    decreases |acts|
  {
    if acts == [] then l else Lived(Acted(l, acts[0]), acts[1..])
  }

  function Heads(gs: seq<Get>): string {
    if gs == [] then "" else Heads(gs[..|gs| - 1]) + Head(RequestLines(gs[|gs| - 1]))
  }

  /** Responses that have ended. */
  function Ended(log: seq<Notice>): nat {
    if log == [] then 0 else Ended(log[..|log| - 1]) + (if log[|log| - 1].Done? then 1 else 0)
  }

  lemma EndedMore(log: seq<Notice>, n: Notice)
    ensures Ended(log + [n]) == Ended(log) + (if n.Done? then 1 else 0)
  {
    assert (log + [n])[..|log|] == log;
  }

  /** Every request asked for has ended, is active, or waits, in that order; those begun, and no others, are
      written; and none waits while none is active. */
  predicate InOrder(asked: seq<Get>, wire: string, s: State) {
    var done := Ended(s.log);
    && done + |s.active| + |s.submitted| == |asked| && |s.active| <= 1
    && asked == asked[..done] + s.active + s.submitted
    && wire + s.outbuf == Heads(asked[..done + |s.active|])
    && (s.active == [] ==> s.submitted == [])
    && (s.active != [] ==> s.first == s.active[0].first)
  }

  /** The same, but that a request may wait although none is active. */
  predicate Loose(asked: seq<Get>, wire: string, s: State) {
    var done := Ended(s.log);
    && done + |s.active| + |s.submitted| == |asked| && |s.active| <= 1
    && asked == asked[..done] + s.active + s.submitted
    && wire + s.outbuf == Heads(asked[..done + |s.active|])
    && (s.active != [] ==> s.first == s.active[0].first)
  }

  lemma WriteOrders(asked: seq<Get>, wire: string, s: State)
    requires Loose(asked, wire, s)
    ensures InOrder(asked, wire, WriteToOutbuf(s))
  {
    if s.active == [] && s.submitted != [] {
      var done, g := Ended(s.log), s.submitted[0];
      assert asked[done] == g && asked[..done + 1][..done] == asked[..done];
      assert asked == asked[..done] + [g] + s.submitted[1..];
      assert wire + (s.outbuf + Head(RequestLines(g))) == (wire + s.outbuf) + Head(RequestLines(g));
    }
  }

  lemma SubmitOrders(asked: seq<Get>, wire: string, s: State, g: Get)
    requires InOrder(asked, wire, s)
    ensures InOrder(asked + [g], wire, Submit(s, g))
  {
    var done, k := Ended(s.log), Ended(s.log) + |s.active|;
    assert (asked + [g])[..done] == asked[..done] && (asked + [g])[..k] == asked[..k];
    assert asked + [g] == asked[..done] + s.active + (s.submitted + [g]);
    WriteOrders(asked + [g], wire, s.(submitted := s.submitted + [g]));
  }

  /** The queues, outbuf_ and what has ended are the same. */
  predicate SameQueues(s: State, t: State) {
    && t.active == s.active && t.submitted == s.submitted && t.outbuf == s.outbuf && t.first == s.first
    && Ended(t.log) == Ended(s.log)
  }

  lemma SameOrder(asked: seq<Get>, wire: string, s: State, t: State)
    requires InOrder(asked, wire, s) && SameQueues(s, t)
    ensures InOrder(asked, wire, t)
  {
  }

  lemma HeadEndLeaves(s: State)
    ensures SameQueues(s, OnHeadEnd(s))
  {
    EndedMore(s.log, Meta(s.status, s.headers));
  }

  lemma StatusLeaves(s: State, line: string)
    ensures SameQueues(s, OnStatusLine(s, line))
  {
  }

  lemma HeaderLeaves(s: State, name: string, value: string)
    ensures SameQueues(s, OnHeader(s, name, value))
  {
  }

  lemma HeaderLineLeaves(s: State, raw: string)
    ensures SameQueues(s, OnHeaderLine(s, raw))
  {
    var line := CString(raw);
    var colon := IndexOf(line, ':', 0);
    if line == "" {
      HeadEndLeaves(s);
    } else if colon >= 0 && colon + 2 <= |line| {
      HeaderLeaves(s.(headers := s.headers + [(line[..colon], line[colon + 2..])]), line[..colon], line[colon + 2..]);
    }
  }

  lemma LineLeaves(s: State, line: string)
    ensures SameQueues(s, OnLine(s, line))
  {
    if s.phase.StatusLine? {
      StatusLeaves(s, line);
    } else {
      HeaderLineLeaves(s, line);
    }
  }

  lemma LineOrders(asked: seq<Get>, wire: string, s: State, line: string)
    requires InOrder(asked, wire, s)
    ensures InOrder(asked, wire, OnLine(s, line))
  {
    LineLeaves(s, line);
    SameOrder(asked, wire, s, OnLine(s, line));
  }

  lemma EndOrders(asked: seq<Get>, wire: string, s: State)
    requires InOrder(asked, wire, s) && s.active != []
    ensures InOrder(asked, wire, Finish(s))
  {
    var done, n := Ended(s.log), Done(s.got);
    EndedMore(s.log, n);
    assert asked[done] == s.active[0] && asked[..done + 1] == asked[..done] + s.active;
    WriteOrders(asked, wire, s.(active := [], log := s.log + [n], got := "", bodyLen := -1, phase := StatusLine));
  }

  lemma OctetOrders(asked: seq<Get>, wire: string, s: State, b: char)
    requires InOrder(asked, wire, s)
    ensures InOrder(asked, wire, OnBodyOctet(s, b))
  {
    if s.bodyLen > 0 && s.active != [] {
      var t := s.(got := s.got + [b], bodyLen := s.bodyLen - 1);
      SameOrder(asked, wire, s, t);
      if t.bodyLen == 0 { EndOrders(asked, wire, t); }
    } else {
      SameOrder(asked, wire, s, Abort(s));
    }
  }

  lemma OrderCommutes(asked: seq<Get>, wire: string)
    ensures Commutes(CLIENT, HTTP_RECEIVE, (s: State) => InOrder(asked, wire, s), (s: State) => s)
  {
    forall s, line | InOrder(asked, wire, s) ensures InOrder(asked, wire, OnLine(s, line)) {
      LineOrders(asked, wire, s, line);
    }
    forall s, b | InOrder(asked, wire, s) ensures InOrder(asked, wire, OnBodyOctet(s, b)) {
      OctetOrders(asked, wire, s, b);
    }
    forall s | InOrder(asked, wire, s) ensures InOrder(asked, wire, HTTP_RECEIVE.forget(s)) {
      SameOrder(asked, wire, s, HTTP_RECEIVE.forget(s));
    }
  }

  lemma ReceiveOrders(asked: seq<Get>, wire: string, c: Conn, chunks: seq<string>)
    requires InOrder(asked, wire, c.st)
    ensures InOrder(asked, wire, Call(CLIENT, HTTP_RECEIVE, c, chunks).st)
  {
    OrderCommutes(asked, wire);
    CallCommutes(CLIENT, HTTP_RECEIVE, (s: State) => InOrder(asked, wire, s), (s: State) => s, c, chunks);
  }

  lemma ActOrders(l: Life, a: Act)
    requires InOrder(l.asked, l.wire, l.conn.st)
    ensures var m := Acted(l, a); InOrder(m.asked, m.wire, m.conn.st)
  {
    match a
    case Submits(g) => SubmitOrders(l.asked, l.wire, l.conn.st, g);
    case Sends(accepted) =>
      assert WriteToOutbuf(l.conn.st) == l.conn.st;
      var out := l.conn.st.outbuf;
      var k := if accepted <= |out| then accepted else |out|;
      assert out[..k] + out[k..] == out;
      assert l.wire + out[..k] + out[k..] == l.wire + (out[..k] + out[k..]);
    case Receives(chunks) => ReceiveOrders(l.asked, l.wire, l.conn, chunks);
  }

  /** Over every run of submissions, writes and reads: the requests asked for are those that have ended, the
      active one and the waiting ones, in the order of submission; the wire and outbuf_ hold exactly the heads
      of those begun; and no request waits while none is active. */
  lemma {:induction false} LifeInOrder(l: Life, acts: seq<Act>)
    requires InOrder(l.asked, l.wire, l.conn.st)
    ensures var m := Lived(l, acts); InOrder(m.asked, m.wire, m.conn.st)
    decreases |acts|
  {
    if acts != [] {
      ActOrders(l, acts[0]);
      LifeInOrder(Acted(l, acts[0]), acts[1..]);
    }
  }

  /** A new connection begins so. */
  lemma BornInOrder(acts: seq<Act>)
    ensures var m := Lived(BORN, acts);
            && InOrder(m.asked, m.wire, m.conn.st)
            && (m.conn.st.active == [] ==>
                Ended(m.conn.st.log) == |m.asked| && m.wire + m.conn.st.outbuf == Heads(m.asked))
  {
    assert InOrder([], "", Fresh);
    LifeInOrder(BORN, acts);
    var m := Lived(BORN, acts);
    if m.conn.st.active == [] { assert m.asked[..|m.asked|] == m.asked; }
  }
}
