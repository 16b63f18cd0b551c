/** web/utility/connection.cc: one client connection, its request queues and its incremental
    response parser. A failed `myassert` (or a read through an empty queue) is phase `Aborted`. */
module HttpClient {
  import opened Text
  import opened Decimal
  import opened HttpParse
  import opened HeadText
  import opened LineMachine

  /** A Request as the connection sees it; `first` is its first_byte_pos_. */
  datatype Get = Get(path: string, headers: seq<(string, string)>, first: nat)

  datatype Phase = StatusLine | Headers | Body | Aborted

  /** Notifications to the requests, with consecutive body notifications concatenated. */
  datatype Notice = Meta(status: int, headers: seq<(string, string)>) | Done(body: string)

  /** Everything but inbuf_. */
  datatype State = State(
    outbuf: string,
    phase: Phase,
    status: int,
    bodyLen: int,                        // -1, or octets of body still to come
    first: nat,                          // copied from the active request
    headers: seq<(string, string)>,
    found: bool,                         // content_range_found; live only while phase is Headers
    submitted: seq<Get>,
    active: seq<Get>,
    got: string,                         // body octets already notified to the active request
    log: seq<Notice>)

  type Conn = Buffered<State>

  const Fresh: State := State("", StatusLine, -1, -1, 0, [], false, [], [], "", [])

  function FieldLines(hs: seq<(string, string)>): seq<string> {
    if hs == [] then [] else [Field(hs[0].0, hs[0].1)] + FieldLines(hs[1..])
  }

  function RequestLines(g: Get): seq<string> {
    ["GET " + g.path + " HTTP/1.1"] + FieldLines(g.headers) +
    (if g.first > 0 then [Field("Range", PrintRange(g.first))] else [])
  }

  /** http_write_to_outbuf, without pipelining (do_pipeline_ is always false). */
  function WriteToOutbuf(s: State): State {
    if s.submitted == [] || s.active != [] then s
    else
      var g := s.submitted[0];
      s.(outbuf := s.outbuf + Head(RequestLines(g)), first := g.first,
         submitted := s.submitted[1..], active := [g])
  }

  function Submit(s: State, g: Get): State {
    WriteToOutbuf(s.(submitted := s.submitted + [g]))
  }

  function Abort(s: State): State { s.(phase := Aborted, found := false) }

  function OnStatusLine(s: State, raw: string): State {
    var line := CString(raw);
    var sp := IndexOf(line, ' ', 0);
    if sp < 0 then Abort(s) else
    var status := Wrap32(Strtol(line[sp + 1..]));
    if status != 200 && status != 206 then Abort(s.(status := status))
    else s.(status := status, phase := Headers, found := false)
  }

  function OnHeaderLine(s: State, raw: string): State {
    var line := CString(raw);
    if line == "" then OnHeadEnd(s) else
    var colon := IndexOf(line, ':', 0);
    if colon < 0 || colon + 2 > |line| then Abort(s)
    else OnHeader(s.(headers := s.headers + [(line[..colon], line[colon + 2..])]), line[..colon], line[colon + 2..])
  }

  function OnHeader(s: State, name: string, value: string): State {
    if EqualFold(name, "content-length") then s.(bodyLen := Strtol(value))
    else if EqualFold(name, "content-range") then
      match ParseContentRange(value, 0)
      case BadContentRange => Abort(s)
      case ContentRangeAt(first, last, full, _) =>
        if first != s.first || full - 1 != last then Abort(s) else s.(found := true)
    else s
  }

  function OnHeadEnd(s: State): State {
    if s.bodyLen < 0 || (!s.found && s.first > 0) || s.active == [] then Abort(s)
    else
      s.(log := s.log + [Meta(s.status, s.headers)], headers := [], found := false,
         phase := if s.bodyLen == 0 then Aborted else Body)
  }

  function Finish(s: State): State
    requires s.active != []
  {
    WriteToOutbuf(s.(active := s.active[1..], log := s.log + [Done(s.got)], got := "", bodyLen := -1,
                     phase := StatusLine))
  }

  function OnBodyOctet(s: State, b: char): State {
    if s.bodyLen <= 0 || s.active == [] then Abort(s)
    else
      var s' := s.(got := s.got + [b], bodyLen := s.bodyLen - 1);
      if s'.bodyLen == 0 then Finish(s') else s'
  }

  function OnLine(s: State, raw: string): State {
    if s.phase.StatusLine? then OnStatusLine(s, raw) else OnHeaderLine(s, raw)
  }

  function ModeOf(s: State): Mode {
    match s.phase
    case Aborted => Halted
    case Body => Octets
    case _ => Lines
  }

  /** The parser, over inbuf_. */
  const CLIENT: Machine<State> :=
    Machine(s => ModeOf(s), (s, line) => OnLine(s, line), (s, b) => OnBodyOctet(s, b))

  /** One http_receive call: content_range_found is a local variable of the call, and nothing is
      read while no request is active. */
  const HTTP_RECEIVE: Calls<State> := Calls((s: State) => s.active != [], (s: State) => s.(found := false))

  // ---- chunk independence ----

  predicate NoRange(s: State) {
    s.first == 0 && (forall g <- s.submitted :: g.first == 0) && (forall g <- s.active :: g.first == 0)
  }

  /** Equal but for content_range_found, with no Range asked for. */
  predicate SameButFound(s: State, t: State) {
    NoRange(s) && NoRange(t) && s.(found := false) == t.(found := false)
  }

  lemma LineForget(s: State, t: State, line: string)
    requires SameButFound(s, t)
    ensures SameButFound(OnLine(s, line), OnLine(t, line))
  {
  }

  lemma OctetForget(s: State, t: State, b: char)
    requires SameButFound(s, t)
    ensures SameButFound(OnBodyOctet(s, b), OnBodyOctet(t, b))
  {
  }

  lemma ClientIndifferent()
    ensures Indifferent(CLIENT, HTTP_RECEIVE, (s, t) => SameButFound(s, t))
  {
    forall s, t, line | SameButFound(s, t) ensures SameButFound(OnLine(s, line), OnLine(t, line)) {
      LineForget(s, t, line);
    }
    forall s, t, b | SameButFound(s, t) ensures SameButFound(OnBodyOctet(s, b), OnBodyOctet(t, b)) {
      OctetForget(s, t, b);
    }
  }

  /** Over any number of calls, when every response is to a request without a Range, the
      notifications and the parser's state depend only on the concatenation of what was received. */
  lemma ChunkIndependence(c: Conn, calls: seq<seq<string>>)
    requires NoRange(c.st) && !Enabled(CLIENT, c)
    requires forall k | 0 <= k < |calls| :: RunCalls(CLIENT, HTTP_RECEIVE, c, calls[..k]).st.active != []
    ensures var r, all := RunCalls(CLIENT, HTTP_RECEIVE, c, calls), Receive(CLIENT, c, ConcatCalls(calls));
            r.inbuf == all.inbuf && r.st.(found := false) == all.st.(found := false)
  {
    ClientIndifferent();
    CallsAreReceive(CLIENT, HTTP_RECEIVE, (s, t) => SameButFound(s, t), c, calls);
  }

  // ---- the parser does not look at outbuf_ ----

  lemma OutbufLine(s: State, line: string, out: string)
    requires s.submitted == []
    ensures OnLine(s, line).submitted == [] && OnLine(s.(outbuf := out), line) == OnLine(s, line).(outbuf := out)
  {
  }

  lemma OutbufOctet(s: State, b: char, out: string)
    requires s.submitted == []
    ensures OnBodyOctet(s, b).submitted == [] && OnBodyOctet(s.(outbuf := out), b) == OnBodyOctet(s, b).(outbuf := out)
  {
  }

  function WithOutbuf(c: Conn, out: string): Conn { Buffered(c.inbuf, c.st.(outbuf := out)) }

  /** With nothing waiting to be submitted, sending and receiving do not meet. */
  lemma ReceiveIgnoresOutbuf(c: Conn, out: string, chunks: seq<string>)
    requires c.st.submitted == []
    ensures Call(CLIENT, HTTP_RECEIVE, WithOutbuf(c, out), chunks) ==
            WithOutbuf(Call(CLIENT, HTTP_RECEIVE, c, chunks), out)
    ensures Call(CLIENT, HTTP_RECEIVE, c, chunks).st.submitted == []
  {
    var within, f := (s: State) => s.submitted == [], (s: State) => s.(outbuf := out);
    forall s, line | within(s) ensures within(OnLine(s, line)) && OnLine(f(s), line) == f(OnLine(s, line)) {
      OutbufLine(s, line, out);
    }
    forall s, b | within(s) ensures within(OnBodyOctet(s, b)) && OnBodyOctet(f(s), b) == f(OnBodyOctet(s, b)) {
      OutbufOctet(s, b, out);
    }
    CallCommutes(CLIENT, HTTP_RECEIVE, within, f, c, chunks);
  }
}
