/** web/webserver/handler.cc: what the server reads out of a request head and what it must answer. */
module HttpServer {
  import opened Text
  import opened Decimal
  import opened HttpParse

  const MAX_PIPELINE_REQS: nat := 1

  /** RequestInfo: the path of the GET line and the Range start, -1 when there is none. */
  datatype Job = Job(path: string, first: int)

  datatype ReqState = RequestLine | RequestHeaders

  /** The request half of a Handler; `aborted` is a failed `myassert`. */
  datatype Intake = Intake(state: ReqState, queue: seq<Job>, aborted: bool)

  function Refuse(k: Intake): Intake { k.(aborted := true) }

  function OnRequestLine(k: Intake, raw: string): Intake {
    var line := CString(raw);
    var g := FindFold(line, "GET ", 0);
    if g < 0 || At(line, g + 4) != '/' then Refuse(k) else
    var sp := IndexOf(line, ' ', g + 4);
    if sp < 0 || |k.queue| >= MAX_PIPELINE_REQS then Refuse(k)
    else Intake(RequestHeaders, k.queue + [Job(line[g + 4..sp], -1)], false)
  }

  function OnRequestHeader(k: Intake, raw: string): Intake {
    var line := CString(raw);
    if line == "" then k.(state := RequestLine)
    else if !MatchesFold(line, 0, "Range: ") then k
    else
      match ParseRange(line, 7)
      case BadRange => Refuse(k)
      case RangeAt(from, to, _) =>
        if to != -1 || from < 0 || k.queue == [] then Refuse(k)
        else k.(queue := k.queue[..|k.queue| - 1] + [Job(k.queue[|k.queue| - 1].path, from)])
  }

  function OnRequestText(k: Intake, raw: string): Intake {
    if k.state == RequestLine then OnRequestLine(k, raw) else OnRequestHeader(k, raw)
  }

  /** process_inbuf_: take lines until one request head is complete or the buffer holds no whole line. */
  function Digest(inbuf: string, k: Intake): (r: (string, Intake))
    ensures |r.0| <= |inbuf|
    ensures |r.0| == |inbuf| ==> r == (inbuf, k)
    decreases |inbuf|
  {
    if k.aborted || ReadLine(inbuf).NoLine? then (inbuf, k) else
    var k' := OnRequestText(k, ReadLine(inbuf).line);
    if k.state == RequestHeaders && k'.state == RequestLine then (ReadLine(inbuf).rest, k')
    else Digest(ReadLine(inbuf).rest, k')
  }

  type Digester = (string, Intake) -> (string, Intake)

  predicate AgreesOn(digest: Digester, s0: string, k0: Intake, s: string, k: Intake, more: string) {
    digest(s0 + more, k0) == digest(s + more, k)
  }

  /** Whatever arrives next, digesting it from (s, k) is digesting it from (s0, k0). */
  ghost predicate Continues(digest: Digester, s0: string, k0: Intake, s: string, k: Intake) {
    forall more: string :: AgreesOn(digest, s0, k0, s, k, more)
  }

  lemma ContinuesMore(digest: Digester, s0: string, k0: Intake, s: string, k: Intake, a: string)
    requires Continues(digest, s0, k0, s, k)
    ensures Continues(digest, s0 + a, k0, s + a, k)
  {
    forall more: string ensures AgreesOn(digest, s0 + a, k0, s + a, k, more) {
      assert AgreesOn(digest, s0, k0, s, k, a + more);
      assert s0 + a + more == s0 + (a + more) && s + a + more == s + (a + more);
    }
  }

  lemma ContinuesNow(digest: Digester, s0: string, k0: Intake, s: string, k: Intake)
    requires Continues(digest, s0, k0, s, k)
    ensures digest(s0, k0) == digest(s, k)
  {
    assert AgreesOn(digest, s0, k0, s, k, "");
    assert s0 + "" == s0 && s + "" == s;
  }

  lemma ContinuesOn(digest: Digester, s0: string, k0: Intake, s1: string, k1: Intake, s2: string, k2: Intake)
    requires Continues(digest, s0, k0, s1, k1) && Continues(digest, s1, k1, s2, k2)
    ensures Continues(digest, s0, k0, s2, k2)
  {
    forall more: string ensures AgreesOn(digest, s0, k0, s2, k2, more) {
      assert AgreesOn(digest, s0, k0, s1, k1, more) && AgreesOn(digest, s1, k1, s2, k2, more);
    }
  }

  lemma ContinuesAtOnce(digest: Digester, s: string, k: Intake)
    ensures Continues(digest, s + "", k, s, k) && Continues(digest, s, k, s, k)
  {
    assert s + "" == s;
  }

  /** Taking one line that does not complete a request head. */
  lemma ContinuesLine(s: string, k: Intake)
    requires !k.aborted && ReadLine(s).Line?
    requires var k' := OnRequestText(k, ReadLine(s).line); !(k.state == RequestHeaders && k'.state == RequestLine)
    ensures Continues(Digest, s, k, ReadLine(s).rest, OnRequestText(k, ReadLine(s).line))
  {
    forall more: string
      ensures AgreesOn(Digest, s, k, ReadLine(s).rest, OnRequestText(k, ReadLine(s).line), more)
    {
      ReadLineAppend(s, more);
    }
  }

  // ---- the responses ----

  function LastDot(s: string): (r: int)
    ensures -1 <= r < |s|
  {
    if s == "" then -1 else if s[|s| - 1] == '.' then |s| - 1 else LastDot(s[..|s| - 1])
  }

  function ContentType(path: string): string {
    var dot := LastDot(path);
    if dot <= 0 then "unknown" else if path[dot + 1..] == "html" then "text/html" else "unknown"
  }

  lemma {:induction false} LastDotIs(s: string, k: nat)
    requires k < |s| && s[k] == '.' && '.' !in s[k + 1..]
    ensures LastDot(s) == k
  {
    if k < |s| - 1 {
      var n := |s| - 1;
      assert s[n] == s[k + 1..][n - k - 1];
      assert s[..n][k + 1..] == s[k + 1..][..n - k - 1];
      LastDotIs(s[..n], k);
    }
  }

  lemma {:induction false} LastDotThere(s: string)
    ensures LastDot(s) >= 0 ==> s[LastDot(s)] == '.'
  {
    if s != "" && s[|s| - 1] != '.' { LastDotThere(s[..|s| - 1]); }
  }

  /** HTML is what has a name ending in `.html`, and something in front of that. */
  lemma HtmlIff(path: string)
    ensures ContentType(path) == "text/html" <==> |path| > 5 && path[|path| - 5..] == ".html"
    ensures ContentType(path) in {"text/html", "unknown"}
  {
    var n, dot := |path|, LastDot(path);
    if n > 5 && path[n - 5..] == ".html" {
      assert path[n - 5] == path[n - 5..][0] && path[n - 4..] == path[n - 5..][1..] == "html";
      LastDotIs(path, n - 5);
    }
    if dot > 0 && path[dot + 1..] == "html" {
      LastDotThere(path);
      assert dot + 5 == n && path[dot..] == [path[dot]] + path[dot + 1..];
    }
  }

  function ResponseLines(path: string, first: int, size: nat): seq<string>
    requires first < size
  {
    ["HTTP/1.1 " + Print(if first >= 0 then 206 else 200) + " OK",
     Field("Content-Length", Print(if first >= 0 then size - first else size)),
     Field("Content-Type", ContentType(path))] +
    (if first >= 0 then [Field("Content-Range", PrintContentRange(first, size - 1, size))] else [])
  }

  function BodyFrom(content: string, first: int): string
    requires first < |content|
  {
    if first >= 0 then content[first..] else content
  }

  /** The document tree: absolute path to content. */
  type Files = map<string, string>

  /** The two parts of a response; NoReply is one of the failed assertions of HTTP_RSP_STATE_META. */
  datatype Reply = NoReply | Reply(head: string, body: string)

  /** The assertions of HTTP_RSP_STATE_META, including the `int` that holds last_byte_pos. */
  predicate Servable(files: Files, abspath: string, first: int) {
    abspath in files && first < |files[abspath]| && |files[abspath]| > 0 &&
    (first >= 0 ==> Wrap32(|files[abspath]| - 1) == |files[abspath]| - 1)
  }

  /** HTTP_RSP_STATE_META: stat() the file, check the range, print the head. */
  function ReplyTo(files: Files, root: string, job: Job): Reply {
    var abspath := root + job.path;
    if Servable(files, abspath, job.first)
    then Reply(Head(ResponseLines(abspath, job.first, |files[abspath]|)), BodyFrom(files[abspath], job.first))
    else NoReply
  }

  // ---- the whole connection, one system call at a time ----

  datatype RspState = RspMeta | RspBody

  /** A Handler's value; `sent` is everything its socket has accepted, `unread` what read(active_fd_)
      has still to return. */
  datatype Server = Server(inbuf: string, intake: Intake, rsp: RspState, outbuf: string, unread: string, sent: string)

  /** process_inbuf_ after `chunk` has been received; `""` is the call send_to_client makes. */
  function Arrive(v: Server, chunk: string): Server {
    var d := Digest(v.inbuf + chunk, v.intake);
    v.(inbuf := d.0, intake := d.1)
  }

  /** HTTP_RSP_STATE_META for the front request. */
  function Begin(reply: Job -> Reply, v: Server): Server
    requires v.intake.queue != []
  {
    match reply(v.intake.queue[0])
    case NoReply => v.(intake := Refuse(v.intake))
    case Reply(head, body) => v.(outbuf := v.outbuf + head, unread := body, rsp := RspBody)
  }

  /** HTTP_RSP_STATE_BODY: one pass of read(), which ends the response only when it comes back short. */
  function ReadPass(v: Server, room: nat): Server
    requires v.intake.queue != []
  {
    if |v.unread| >= room then v.(outbuf := v.outbuf + v.unread[..room], unread := v.unread[room..])
    else
      Arrive(v.(outbuf := v.outbuf + v.unread, unread := "", rsp := RspMeta,
                intake := v.intake.(queue := v.intake.queue[1..])), "")
  }

  /** The socket accepts `n` octets. */
  function WritePass(v: Server, n: nat): Server
    requires n <= |v.outbuf|
  {
    v.(outbuf := v.outbuf[n..], sent := v.sent + v.outbuf[..n])
  }

  /** The steps send_to_client is made of. */
  datatype SendStep = Poll | Start | Fetch(room: nat) | Accept(n: nat)

  predicate CanSend(v: Server, e: SendStep) {
    !v.intake.aborted &&
    match e
    case Poll => true
    case Start => v.rsp == RspMeta && v.intake.queue != []
    case Fetch(room) => v.rsp == RspBody && v.intake.queue != [] && room >= 1
    case Accept(n) => n <= |v.outbuf|
  }

  function OnSend(reply: Job -> Reply, v: Server, e: SendStep): Server
    requires CanSend(v, e)
  {
    match e
    case Poll => Arrive(v, "")
    case Start => Begin(reply, v)
    case Fetch(room) => ReadPass(v, room)
    case Accept(n) => WritePass(v, n)
  }

  /** `inv` survives every step send_to_client is made of. */
  ghost predicate KeptBySending(reply: Job -> Reply, inv: Server -> bool) {
    forall v, e | CanSend(v, e) && inv(v) :: inv(OnSend(reply, v, e))
  }

  /** The responses to `served`, in order. */
  function Responses(reply: Job -> Reply, served: seq<Job>): string {
    if served == [] then "" else
    var r := reply(served[|served| - 1]);
    Responses(reply, served[..|served| - 1]) + if r.NoReply? then "" else r.head + r.body
  }
}
