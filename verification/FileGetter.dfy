/** filetransfer/filegetter.c: the SOCKS handshake (sections 3, 4 and 6 of RFC 1928), the request and
    the download, through one buffer with a read and a write offset. */
module FileGetter {
  import opened Text
  import opened Decimal
  import opened FileTransfer

  const GREETING: string := ['\U{05}', '\U{01}', '\U{00}']
  const BY_ADDRESS: string := ['\U{05}', '\U{01}', '\U{00}', '\U{01}']
  const BY_NAME: string := ['\U{05}', '\U{01}', '\U{00}', '\U{03}']

  datatype Target = Address(addr: string, port: string) | Name(name: string, port: string)

  /** The SOCKS request of FG_REQUEST_SOCKS_CONN; the port is in network order. */
  function ConnectRequest(t: Target): string {
    match t
    case Address(addr, port) => BY_ADDRESS + addr + port
    case Name(name, port) => BY_NAME + [(|name| % 256) as char] + name + port
  }

  datatype Plan = Plan(proxied: bool, target: Target, path: string, host: string)

  /** What has to come in next, FG_REPLY_SOCKS_INIT to FG_CHECK_DOWNLOAD. */
  datatype Want = GreetingReply | ConnectReply | HttpReply | Download

  /** FG_SEND and FG_RECEIVE with their next state; Spec is FG_SPEC, Stuck a state left by an error. */
  datatype Phase = Sending(next: Want) | Receiving(want: Want) | Spec | Stuck

  /** `data` is buf[buf_read_offset..buf_write_offset], `rd` the read offset; `expected` and `got` are
      body_bytes_expected and body_bytes_downloaded. */
  datatype Getter = Getter(phase: Phase, rd: nat, data: string, expected: int, got: nat, content: string)

  /** What filegetter_activate returns; Overrun: a request, or the NUL behind a received head, falls
      outside the buffer; Reconnect: the proxy named another address, which is where this model ends. */
  datatype Outcome = Going | Ok200 | Err404 | ErrSocksInit | ErrSocksConn | Fatal | Overrun | Reconnect

  /** filegetter_download, up to the first send(). */
  function Start(plan: Plan): Getter {
    if plan.proxied then Getter(Sending(GreetingReply), 0, GREETING, 0, 0, "")
    else Getter(Sending(HttpReply), 0, GetRequest(plan.path, plan.host), 0, 0, "")
  }

  /** FG_SEND, when send() accepted `n` octets. */
  function OnSent(g: Getter, n: nat): Getter
    requires g.phase.Sending? && n <= |g.data|
  {
    if n == |g.data| then g.(rd := 0, data := "", phase := Receiving(g.phase.next))
    else g.(rd := g.rd + n, data := g.data[n..])
  }

  function OnGreetingReply(plan: Plan, g: Getter): (Getter, Outcome) {
    if |g.data| < 2 then (g, Going)
    else if g.data[0] != '\U{05}' || g.data[1] != '\U{00}' then (g.(phase := Stuck), ErrSocksInit)
    else if g.rd + |g.data| + |ConnectRequest(plan.target)| > BUF_SIZE then (g.(phase := Stuck), Overrun)
    else (g.(phase := Sending(ConnectReply), rd := g.rd + 2, data := g.data[2..] + ConnectRequest(plan.target)), Going)
  }

  predicate Zero(s: string) { forall c <- s :: c == '\U{00}' }

  datatype Answer = Short | Refused | Elsewhere | Granted

  /** The SOCKS reply in `data`: complete, a success with an IPv4 address, and that address zero. */
  function Verdict(data: string): (v: Answer)
    ensures v == Short <==> |data| < 10
  {
    if |data| < 10 then Short
    else if data[0] != '\U{05}' || data[1] != '\U{00}' || data[3] != '\U{01}' then Refused
    else if !Zero(data[4..8]) && !Zero(data[8..10]) then Elsewhere
    else Granted
  }

  function OnConnectReply(plan: Plan, g: Getter): (Getter, Outcome) {
    match Verdict(g.data)
    case Short => (g, Going)
    case Refused => (g.(phase := Stuck), ErrSocksConn)
    case Elsewhere => (g.(phase := Stuck), Reconnect)
    case Granted =>
      if g.rd + |g.data| + |GetRequest(plan.path, plan.host)| >= BUF_SIZE then (g.(phase := Stuck), Overrun)
      else
        var data := g.data[10..] + GetRequest(plan.path, plan.host);
        (g.(phase := Sending(HttpReply), rd := g.rd + 10, data := data), Going)
  }

  /** (size_t)atoi(cl), where the blank line of the head has been cut off by a NUL. */
  function LengthField(text: string, cl: nat, content: nat): int
    requires cl <= |text| && content <= |text|
  {
    var v := Wrap32(Strtol(if cl <= content then text[cl..content] else text[cl..]));
    if v >= 0 then v else v + 0x1_0000_0000_0000_0000
  }

  /** FG_CHECK_DOWNLOAD */
  function Check(g: Getter): (Getter, Outcome) {
    var g1 := g.(got := g.got + |g.data|, content := g.content + g.data, rd := 0, data := "");
    if g1.got >= g1.expected then (g1.(phase := Spec), Ok200) else (g1.(phase := Receiving(Download)), Going)
  }

  /** What the string functions of FG_REPLY_HTTP find in what has been received. */
  datatype Head = Missing | More | Malformed | Complete(blank: nat, length: int)

  function Analyse(data: string): (r: Head)
    ensures r.Missing? ==> |NOT_FOUND| <= |data|
    ensures r.Complete? ==> r.blank + 4 <= |data|
  {
    var text := CString(data);
    CStringIsPrefix(data);
    if Has(text, NOT_FOUND) then Missing else
    var blank := FindFold(text, END, 0);
    if !Has(text, OK) || blank < 0 then More else
    var cl := FindFold(text, LENGTH, 0);
    if cl < 0 then Malformed else Complete(blank, LengthField(text, cl + |LENGTH|, blank))
  }

  function OnHead(g: Getter, head: Head): (Getter, Outcome)
    requires (head.Missing? ==> |NOT_FOUND| <= |g.data|) && (head.Complete? ==> head.blank + 4 <= |g.data|)
  {
    match head
    case Missing => (g.(phase := Spec, rd := g.rd + |NOT_FOUND|, data := g.data[|NOT_FOUND|..]), Err404)
    case More => (g, Going)
    case Malformed => (g.(phase := Stuck), Fatal)
    case Complete(blank, length) => Check(g.(expected := length, rd := g.rd + (blank + 4), data := g.data[blank + 4..]))
  }

  function OnHttpReply(g: Getter): (Getter, Outcome) {
    if g.rd + |g.data| >= BUF_SIZE then (g.(phase := Stuck), Overrun) else OnHead(g, Analyse(g.data))
  }

  /** FG_RECEIVE, when recv() returned `chunk`. */
  function OnReceived(plan: Plan, g: Getter, chunk: string): (Getter, Outcome)
    requires g.phase.Receiving?
  {
    var g1 := g.(data := g.data + chunk);
    match g.phase.want
    case GreetingReply => OnGreetingReply(plan, g1)
    case ConnectReply => OnConnectReply(plan, g1)
    case HttpReply => OnHttpReply(g1)
    case Download => Check(g1)
  }

  // ---- the conversation ----

  const GREETED: string := ['\U{05}', '\U{00}']

  /** A success reply with a zero bind address. */
  function Connected(port: string): string {
    ['\U{05}', '\U{00}', '\U{00}', '\U{01}', '\U{00}', '\U{00}', '\U{00}', '\U{00}'] + port
  }

  /** Everything sent ahead of the request, and everything received ahead of its reply. */
  function Preamble(plan: Plan): string { if plan.proxied then GREETING + ConnectRequest(plan.target) else "" }

  function ProxyReplies(plan: Plan, port: string): string { if plan.proxied then GREETED + Connected(port) else "" }

  function Request(plan: Plan): string { GetRequest(plan.path, plan.host) }

  /** What the other side may have sent once it has received `sent` octets: each reply only after the
      whole of what it replies to. */
  function Allowed(plan: Plan, port: string, whole: string, sent: nat): string {
    if plan.proxied && sent < |GREETING| then ""
    else if plan.proxied && sent < |Preamble(plan)| then GREETED
    else if sent < |Preamble(plan)| + |Request(plan)| then ProxyReplies(plan, port)
    else ProxyReplies(plan, port) + whole
  }

  datatype World = World(g: Getter, sent: string, received: string, outcome: Outcome)

  /** One send() or recv() that does not block; a blocked one changes nothing. */
  datatype Event = Sent(n: nat) | Got(chunk: string)

  predicate Can(plan: Plan, port: string, whole: string, w: World, e: Event) {
    w.outcome == Going &&
    match e
    case Sent(n) => w.g.phase.Sending? && 1 <= n <= |w.g.data|
    case Got(chunk) =>
      && w.g.phase.Receiving? && 1 <= |chunk| <= BUF_SIZE - (w.g.rd + |w.g.data|)
      && w.received + chunk <= Allowed(plan, port, whole, |w.sent|)
  }

  function Next(plan: Plan, w: World, e: Event): World
    requires e.Sent? ==> w.g.phase.Sending? && e.n <= |w.g.data|
    requires e.Got? ==> w.g.phase.Receiving?
  {
    match e
    case Sent(n) => World(OnSent(w.g, n), w.sent + w.g.data[..n], w.received, w.outcome)
    case Got(chunk) => var r := OnReceived(plan, w.g, chunk); World(r.0, w.sent, w.received + chunk, r.1)
  }

  function Run(plan: Plan, port: string, whole: string, w: World, events: seq<Event>): World
    decreases |events|
  {
    if events == [] then w
    else
      var u := if Can(plan, port, whole, w, events[0]) then Next(plan, w, events[0]) else w;
      Run(plan, port, whole, u, events[1..])
  }

  // ---- the invariant ----

  predicate PlanOk(plan: Plan, port: string) {
    && |port| == 2 && |Request(plan)| + |ConnectRequest(plan.target)| + 64 <= BUF_SIZE
    && (plan.target.Address? ==> |plan.target.addr| == 4) && |plan.target.port| == 2
    && (plan.target.Name? ==> |plan.target.name| < 256)
  }

  predicate NoStatus404(body: string) { forall k: nat | k <= |body| :: !MatchesFold(body, k, NOT_FOUND) }

  /** Where the conversation is, from the getter's side. */
  predicate InStep(plan: Plan, port: string, body: string, w: World) {
    var g, pre, req, replies := w.g, Preamble(plan), Request(plan), ProxyReplies(plan, port);
    match g.phase
    case Sending(GreetingReply) => plan.proxied && w.sent + g.data == GREETING && g.data != "" && w.received == ""
    case Receiving(GreetingReply) =>
      plan.proxied && w.sent == GREETING && w.received == g.data && |g.data| < 2 && g.rd == 0
    case Sending(ConnectReply) =>
      plan.proxied && w.sent + g.data == pre && g.data != "" && |w.sent| >= |GREETING| && w.received == GREETED
    case Receiving(ConnectReply) =>
      plan.proxied && w.sent == pre && w.received == GREETED + g.data && |g.data| < 10 && g.rd == 0
    case Sending(HttpReply) =>
      w.sent + g.data == pre + req && g.data != "" && |w.sent| >= |pre| && w.received == replies
    case Receiving(HttpReply) =>
      w.sent == pre + req && w.received == replies + g.data && |g.data| < |ReplyHead(|body|)| && g.rd == 0
    case Receiving(Download) =>
      && w.sent == pre + req && w.received == replies + (ReplyHead(|body|) + g.content) && g.data == "" && g.rd == 0
      && g.content <= body && g.got == |g.content| < |body| && g.expected == |body|
    case _ => false
  }

  /** Nothing of the body has been saved before the download has begun. */
  predicate Clean(g: Getter) { g.phase != Receiving(Download) ==> g.got == 0 && g.content == "" }

  predicate Inv(plan: Plan, port: string, body: string, w: World) {
    && w.outcome == Going && InStep(plan, port, body, w) && Clean(w.g)
    && w.g.rd + |w.g.data| < BUF_SIZE
  }

  /** What a caller of filegetter_activate can rely on. */
  predicate Faithful(body: string, w: World) {
    && w.g.content <= body
    && (w.outcome == Ok200 ==> w.g.content == body)
    && w.outcome in {Going, Ok200, Overrun, Err404} && (w.outcome == Err404 ==> !NoStatus404(body))
  }

  /** By then the whole reply has been received. */
  predicate AllIn(plan: Plan, port: string, body: string, w: World) {
    w.outcome == Ok200 ==> w.received == ProxyReplies(plan, port) + (ReplyHead(|body|) + body)
  }

  lemma SentKeeps(plan: Plan, port: string, body: string, w: World, n: nat)
    requires PlanOk(plan, port) && Inv(plan, port, body, w) && Can(plan, port, ReplyHead(|body|) + body, w, Sent(n))
    ensures Inv(plan, port, body, Next(plan, w, Sent(n)))
  {
    var d := w.g.data;
    assert d == d[..n] + d[n..];
    assert w.sent + d[..n] + d[n..] == w.sent + d;
    if n == |d| { assert d[..n] == d && w.received + "" == w.received; }
  }

  lemma GreetingGot(plan: Plan, port: string, body: string, w: World, chunk: string)
    requires PlanOk(plan, port) && Inv(plan, port, body, w) && Can(plan, port, ReplyHead(|body|) + body, w, Got(chunk))
    requires w.g.phase == Receiving(GreetingReply)
    ensures Inv(plan, port, body, Next(plan, w, Got(chunk)))
  {
    var d := w.g.data + chunk;
    assert Allowed(plan, port, ReplyHead(|body|) + body, |w.sent|) == GREETED;
    assert d <= GREETED;
    if |d| == 2 {
      assert d == GREETED;
      assert d[2..] + ConnectRequest(plan.target) == ConnectRequest(plan.target);
    }
  }

  lemma ConnectGot(plan: Plan, port: string, body: string, w: World, chunk: string)
    requires PlanOk(plan, port) && Inv(plan, port, body, w) && Can(plan, port, ReplyHead(|body|) + body, w, Got(chunk))
    requires w.g.phase == Receiving(ConnectReply)
    ensures Inv(plan, port, body, Next(plan, w, Got(chunk)))
  {
    var d, r := w.g.data + chunk, Connected(port);
    assert Allowed(plan, port, ReplyHead(|body|) + body, |w.sent|) == GREETED + r;
    Seen(GREETED, w.g.data, chunk, r);
    if |d| == 10 {
      assert d == r && Zero(d[4..8]);
      assert d[10..] + Request(plan) == Request(plan);
    }
  }

  lemma AfterPrefix(a: string, b: string, c: string)
    requires a + b <= a + c
    ensures b <= c
  {
    assert b == (a + b)[|a|..] && c == (a + c)[|a|..];
    assert (a + c)[|a|..|a| + |b|] == (a + b)[|a|..];
  }

  /** What follows `front` in what has been received is what has been received of `all`. */
  lemma Seen(front: string, data: string, chunk: string, all: string)
    requires front + data + chunk <= front + all
    ensures data + chunk <= all && front + data + chunk == front + (data + chunk)
  {
    assert front + data + chunk == front + (data + chunk);
    AfterPrefix(front, data + chunk, all);
  }

  lemma SeenBehind(front: string, head: string, data: string, chunk: string, body: string)
    requires front + (head + data) + chunk <= front + (head + body)
    ensures data + chunk <= body && front + (head + data) + chunk == front + (head + (data + chunk))
  {
    Seen(front, head + data, chunk, head + body);
    assert head + data + chunk == head + (data + chunk);
    AfterPrefix(head, data + chunk, body);
  }

  /** The status line is in the first `n` octets of the body, as the string functions see them. */
  ghost predicate Shows404(data: string, body: string) {
    exists k: nat :: |ReplyHead(|body|)| + k + |NOT_FOUND| <= |CString(data)| && MatchesFold(body, k, NOT_FOUND)
  }

  /** Reading the head of a good reply, wherever recv() has cut it: it is taken for a 404 exactly when that
      much of the body is in the buffer. */
  lemma HeadRead(data: string, body: string)
    requires |body| <= INT32_MAX && data <= ReplyHead(|body|) + body
    ensures |ReplyHead(|body|)| >= 4
    ensures Shows404(data, body) ==> |data| > |ReplyHead(|body|)| && !NoStatus404(body)
    ensures Analyse(data) == if Shows404(data, body) then Missing
                             else if |data| < |ReplyHead(|body|)| then More
                             else Complete(|ReplyHead(|body|)| - 4, |body|)
  {
    var n, text := |body|, CString(data);
    SeenBegins(data, n, body);
    CStringIsPrefix(data);
    Has404(text, n, body);
    EndIsAtEnd(text, n, body);
    HeadChars(n, 0);
    if |data| >= |ReplyHead(n)| {
      OkIsFirst(text, n, body);
      LengthIsNext(text, n, body);
      LengthRead(text, n, body);
    }
  }

  lemma LengthRead(text: string, n: nat, rest: string)
    requires Begins(text, n, rest) && |text| >= |ReplyHead(n)| && n <= INT32_MAX
    ensures |LENGTH| == 16 && 33 <= |ReplyHead(n)| - 4 && LengthField(text, 33, |ReplyHead(n)| - 4) == n
  {
    HeadChars(n, 0);
    var k := |ReplyHead(n)| - 4;
    assert text[33..k] == ReplyHead(n)[33..k] == Print(n);
    assert Print(n) + "" == Print(n);
    StrtolOfPrint(n, "");
    Wrap32Identity(n);
  }

  /** In FG_REPLY_HTTP the buffer holds all that has come of the reply. */
  lemma HttpSeen(plan: Plan, port: string, body: string, w: World, chunk: string)
    requires PlanOk(plan, port) && Inv(plan, port, body, w) && Can(plan, port, ReplyHead(|body|) + body, w, Got(chunk))
    requires w.g.phase == Receiving(HttpReply)
    ensures w.g.data + chunk <= ReplyHead(|body|) + body
    ensures w.received + chunk == ProxyReplies(plan, port) + (w.g.data + chunk)
  {
    var head, rs := ReplyHead(|body|), ProxyReplies(plan, port);
    assert Allowed(plan, port, head + body, |w.sent|) == rs + (head + body);
    Seen(rs, w.g.data, chunk, head + body);
  }

  /** The head is complete: what is behind it is the first of the body. */
  lemma HttpDone(plan: Plan, port: string, body: string, w: World, d: string)
    requires InStep(plan, port, body, w) && w.g.phase == Receiving(HttpReply) && Clean(w.g) && w.outcome == Going
    requires d <= ReplyHead(|body|) + body && |d| >= |ReplyHead(|body|)|
    ensures var h := |ReplyHead(|body|)|;
            var r := Check(w.g.(expected := |body|, rd := h, data := d[h..]));
            var w' := World(r.0, w.sent, ProxyReplies(plan, port) + d, r.1);
            Faithful(body, w') && (w'.outcome == Going ==> Inv(plan, port, body, w')) && w'.outcome != Overrun &&
            AllIn(plan, port, body, w')
  {
    var head := ReplyHead(|body|);
    var first := d[|head|..];
    assert d == head + first;
    AfterPrefix(head, first, body);
    assert "" + first == first;
  }

  /** When the buffer has room behind what has come, the reply head is looked for in it. */
  lemma HttpReads(plan: Plan, port: string, body: string, w: World, d: string)
    requires InStep(plan, port, body, w) && w.g.phase == Receiving(HttpReply) && Clean(w.g) && w.outcome == Going
    requires d <= ReplyHead(|body|) + body && |d| < BUF_SIZE && |body| <= INT32_MAX
    ensures var r := OnHead(w.g.(data := d), Analyse(d));
            var w' := World(r.0, w.sent, ProxyReplies(plan, port) + d, r.1);
            Faithful(body, w') && (w'.outcome == Going ==> Inv(plan, port, body, w')) && AllIn(plan, port, body, w') &&
            w'.outcome != Overrun && (w'.outcome == Err404 <==> Shows404(d, body))
  {
    HeadRead(d, body);
    if !Shows404(d, body) && |d| >= |ReplyHead(|body|)| { HttpDone(plan, port, body, w, d); }
  }

  lemma HttpGot(plan: Plan, port: string, body: string, w: World, chunk: string)
    requires PlanOk(plan, port) && Inv(plan, port, body, w) && Can(plan, port, ReplyHead(|body|) + body, w, Got(chunk))
    requires w.g.phase == Receiving(HttpReply) && |body| <= INT32_MAX
    ensures var w' := Next(plan, w, Got(chunk));
            Faithful(body, w') && (w'.outcome == Going ==> Inv(plan, port, body, w')) && AllIn(plan, port, body, w') &&
            (w'.outcome == Overrun <==> |w.g.data| + |chunk| == BUF_SIZE) &&
            (w'.outcome == Err404 <==> |w.g.data| + |chunk| < BUF_SIZE && Shows404(w.g.data + chunk, body))
  {
    var d := w.g.data + chunk;
    HttpSeen(plan, port, body, w, chunk);
    if |d| < BUF_SIZE { HttpReads(plan, port, body, w, d); }
  }

  lemma DownloadGot(plan: Plan, port: string, body: string, w: World, chunk: string)
    requires PlanOk(plan, port) && Inv(plan, port, body, w) && Can(plan, port, ReplyHead(|body|) + body, w, Got(chunk))
    requires w.g.phase == Receiving(Download)
    ensures var w' := Next(plan, w, Got(chunk));
            Faithful(body, w') && (w'.outcome == Going ==> Inv(plan, port, body, w')) && w'.outcome != Overrun &&
            AllIn(plan, port, body, w')
  {
    var head, rs := ReplyHead(|body|), ProxyReplies(plan, port);
    assert Allowed(plan, port, head + body, |w.sent|) == rs + (head + body);
    SeenBehind(rs, head, w.g.content, chunk, body);
    assert "" + chunk == chunk;
  }

  lemma StepFaithful(plan: Plan, port: string, body: string, w: World, e: Event)
    requires PlanOk(plan, port) && Inv(plan, port, body, w) && Can(plan, port, ReplyHead(|body|) + body, w, e)
    requires |body| <= INT32_MAX
    ensures var w' := Next(plan, w, e);
            Faithful(body, w') && (w'.outcome == Going ==> Inv(plan, port, body, w')) && AllIn(plan, port, body, w')
  {
    match e
    case Sent(n) => SentKeeps(plan, port, body, w, n);
    case Got(chunk) =>
      match w.g.phase.want
      case GreetingReply => GreetingGot(plan, port, body, w, chunk);
      case ConnectReply => ConnectGot(plan, port, body, w, chunk);
      case HttpReply => HttpGot(plan, port, body, w, chunk);
      case Download => DownloadGot(plan, port, body, w, chunk);
  }

  /** The write offset stays below the size of the buffer unless one recv() fills it while the reply head is
      awaited. */
  lemma OverrunIff(plan: Plan, port: string, body: string, w: World, e: Event)
    requires PlanOk(plan, port) && Inv(plan, port, body, w) && Can(plan, port, ReplyHead(|body|) + body, w, e)
    requires |body| <= INT32_MAX
    ensures Next(plan, w, e).outcome == Overrun <==>
            e.Got? && w.g.phase == Receiving(HttpReply) && |w.g.data| + |e.chunk| == BUF_SIZE
  {
    match e
    case Sent(n) => SentKeeps(plan, port, body, w, n);
    case Got(chunk) =>
      match w.g.phase.want
      case GreetingReply => GreetingGot(plan, port, body, w, chunk);
      case ConnectReply => ConnectGot(plan, port, body, w, chunk);
      case HttpReply => HttpGot(plan, port, body, w, chunk);
      case Download => DownloadGot(plan, port, body, w, chunk);
  }

  /** Which it can, whenever the reply is as long as the buffer. */
  lemma LongReplyFills(plan: Plan, port: string, body: string)
    requires PlanOk(plan, port) && !plan.proxied && |body| <= INT32_MAX
    requires |ReplyHead(|body|) + body| >= BUF_SIZE
    ensures var whole := ReplyHead(|body|) + body;
            Run(plan, port, whole, Begin(plan), [Sent(|Request(plan)|), Got(whole[..BUF_SIZE])]).outcome == Overrun
  {
    var whole := ReplyHead(|body|) + body;
    var w, e, f := Begin(plan), Sent(|Request(plan)|), Got(whole[..BUF_SIZE]);
    BeginInv(plan, port, body);
    assert |Request(plan)| >= 1;
    SentKeeps(plan, port, body, w, |Request(plan)|);
    var w1 := Next(plan, w, e);
    assert "" + whole == whole && "" + whole[..BUF_SIZE] == whole[..BUF_SIZE];
    assert w1.g == Getter(Receiving(HttpReply), 0, "", 0, 0, "") && |w1.sent| == |Request(plan)|;
    assert Can(plan, port, whole, w1, f);
    OverrunIff(plan, port, body, w1, f);
    Ended(plan, port, whole, Next(plan, w1, f), []);
    assert [e, f][1..] == [f] && [f][1..] == [];
  }

  /** A good reply is taken for a 404 exactly when the status line is among what the recv() that completes the
      head brings of the body. */
  lemma Err404Iff(plan: Plan, port: string, body: string, w: World, e: Event)
    requires PlanOk(plan, port) && Inv(plan, port, body, w) && Can(plan, port, ReplyHead(|body|) + body, w, e)
    requires |body| <= INT32_MAX
    ensures Next(plan, w, e).outcome == Err404 <==>
            e.Got? && w.g.phase == Receiving(HttpReply) && |w.g.data| + |e.chunk| < BUF_SIZE
              && Shows404(w.g.data + e.chunk, body)
  {
    match e
    case Sent(n) => SentKeeps(plan, port, body, w, n);
    case Got(chunk) =>
      match w.g.phase.want
      case GreetingReply => GreetingGot(plan, port, body, w, chunk);
      case ConnectReply => ConnectGot(plan, port, body, w, chunk);
      case HttpReply => HttpGot(plan, port, body, w, chunk);
      case Download => DownloadGot(plan, port, body, w, chunk);
  }

  /** Received octet by octet a good reply is never misread. */
  lemma OneOctet(plan: Plan, port: string, body: string, w: World, chunk: string)
    requires PlanOk(plan, port) && Inv(plan, port, body, w) && Can(plan, port, ReplyHead(|body|) + body, w, Got(chunk))
    requires |body| <= INT32_MAX && |chunk| == 1 && |ReplyHead(|body|)| < BUF_SIZE
    ensures Next(plan, w, Got(chunk)).outcome in {Going, Ok200}
  {
    StepFaithful(plan, port, body, w, Got(chunk));
    Err404Iff(plan, port, body, w, Got(chunk));
    OverrunIff(plan, port, body, w, Got(chunk));
    if w.g.phase == Receiving(HttpReply) {
      HttpSeen(plan, port, body, w, chunk);
      HeadRead(w.g.data + chunk, body);
    }
  }

  // ---- what the proxy reads ----

  /** What a proxy makes of the octets that have come: more is needed, they are no request it serves, or the
      rest goes to the target. */
  datatype Tunnel = Partial | Bad | To(target: Target, rest: string)

  /** A CONNECT request, section 4 of RFC 1928: version, command, reserved, type; then four octets of address,
      or a counted name; then two octets of port. */
  function ReadConnect(s: string): Tunnel {
    if |s| < 5 then Partial
    else if s[0] != '\U{05}' || s[1] != '\U{01}' || s[2] != '\U{00}' then Bad
    else if s[3] == '\U{01}' then
      if |s| < 10 then Partial else To(Address(s[4..8], s[8..10]), s[10..])
    else if s[3] == '\U{03}' then
      var end := 5 + s[4] as int;
      if |s| < end + 2 then Partial else To(Name(s[5..end], s[end..end + 2]), s[end + 2..])
    else Bad
  }

  /** The whole of what it reads: version and methods, section 3 of RFC 1928, then the request. */
  function ProxyReads(s: string): Tunnel {
    if |s| < 2 || |s| < 2 + s[1] as int then Partial
    else if s[0] != '\U{05}' || '\U{00}' !in s[2..2 + s[1] as int] then Bad
    else ReadConnect(s[2 + s[1] as int..])
  }

  lemma ConnectRead(t: Target, rest: string)
    requires |t.port| == 2 && (t.Address? ==> |t.addr| == 4) && (t.Name? ==> |t.name| < 256)
    ensures ReadConnect(ConnectRequest(t) + rest) == To(t, rest)
  {
    var c, s := ConnectRequest(t), ConnectRequest(t) + rest;
    match t
    case Address(addr, port) =>
      assert s[4..8] == addr && s[8..10] == port && s[10..] == rest;
    case Name(name, port) =>
      var end := 5 + |name|;
      assert s[4] == |name| as char && s[5..end] == name && s[end..end + 2] == port && s[end + 2..] == rest;
  }

  lemma ConnectPartRead(t: Target, k: nat)
    requires |t.port| == 2 && (t.Address? ==> |t.addr| == 4) && (t.Name? ==> |t.name| < 256)
    requires k < |ConnectRequest(t)|
    ensures ReadConnect(ConnectRequest(t)[..k]) == Partial
  {
    var c := ConnectRequest(t);
    if k >= 5 && t.Name? { assert c[4] == |t.name| as char; }
  }

  /** However much of it has come, the proxy has read nothing wrong; and with all of it, exactly the target,
      in the order the RFC gives its parts. */
  lemma PreambleRead(plan: Plan, port: string, sent: string)
    requires PlanOk(plan, port) && plan.proxied && sent <= Preamble(plan) + Request(plan)
    ensures ProxyReads(sent) ==
            if |sent| < |Preamble(plan)| then Partial else To(plan.target, sent[|Preamble(plan)|..])
  {
    var g, c := GREETING, ConnectRequest(plan.target);
    if |sent| >= 3 {
      assert sent[..3] == g && sent[1] as int == 1 && sent[2..3] == [g[2]];
      if |sent| < |g + c| {
        assert sent[3..] == c[..|sent| - 3];
        ConnectPartRead(plan.target, |sent| - 3);
      } else {
        assert sent[3..] == c + sent[|g + c|..];
        ConnectRead(plan.target, sent[|g + c|..]);
      }
    }
  }

  // ---- what any proxy may answer ----

  /** A method selection, section 3 of RFC 1928, and a reply with an IPv4-sized address, section 6. */
  datatype Selection = Selection(version: char, choice: char)
  datatype SocksReply = SocksReply(version: char, code: char, reserved: char, kind: char, addr: string, port: string)

  function Encoded(r: SocksReply): string { [r.version, r.code, r.reserved, r.kind] + r.addr + r.port }

  /** Whatever the proxy selects, and however that is cut: the getter goes on to its request only if version 5
      and no authentication were selected. */
  lemma SelectionTaken(plan: Plan, port: string, g: Getter, chunk: string, a: Selection)
    requires PlanOk(plan, port) && g.phase == Receiving(GreetingReply) && g.rd + 2 < 64 && |g.data| < 2
    requires g.data + chunk == [a.version, a.choice]
    ensures var r := OnReceived(plan, g, chunk);
            if a == Selection('\U{05}', '\U{00}')
            then
              && r.1 == Going
              && r.0 == g.(phase := Sending(ConnectReply), rd := g.rd + 2, data := ConnectRequest(plan.target))
            else r.1 == ErrSocksInit && r.0.phase == Stuck
  {
    var d := g.data + chunk;
    assert d[0] == a.version && d[1] == a.choice;
    assert d[2..] + ConnectRequest(plan.target) == ConnectRequest(plan.target);
  }

  /** Whatever it replies to the request: an error unless it is a success of version 5 with an IPv4 address;
      another connection if address and port are both given; and otherwise the HTTP request goes out. */
  lemma ReplyTaken(plan: Plan, port: string, g: Getter, chunk: string, a: SocksReply)
    requires PlanOk(plan, port) && g.phase == Receiving(ConnectReply) && g.rd < 32 && |g.data| < 10
    requires |a.addr| == 4 && |a.port| == 2 && g.data + chunk == Encoded(a)
    ensures var r := OnReceived(plan, g, chunk);
            if a.version != '\U{05}' || a.code != '\U{00}' || a.kind != '\U{01}'
            then r.1 == ErrSocksConn && r.0.phase == Stuck
            else if !Zero(a.addr) && !Zero(a.port) then r.1 == Reconnect
            else r.1 == Going && r.0 == g.(phase := Sending(HttpReply), rd := g.rd + 10, data := Request(plan))
  {
    var d := g.data + chunk;
    assert d[0] == a.version && d[1] == a.code && d[3] == a.kind && d[4..8] == a.addr && d[8..10] == a.port;
    assert d[10..] + Request(plan) == Request(plan);
  }

  /** As long as part of it is missing, the getter waits. */
  lemma ReplyAwaited(plan: Plan, g: Getter, chunk: string)
    requires g.phase.Receiving? && |g.data + chunk| < (if g.phase.want == GreetingReply then 2 else 10)
    requires g.phase.want in {GreetingReply, ConnectReply}
    ensures OnReceived(plan, g, chunk) == (g.(data := g.data + chunk), Going)
  {
  }

  function Begin(plan: Plan): World { World(Start(plan), "", "", Going) }

  lemma BeginInv(plan: Plan, port: string, body: string)
    requires PlanOk(plan, port)
    ensures Inv(plan, port, body, Begin(plan))
  {
    assert "" + GREETING == GREETING && "" + Request(plan) == Request(plan);
  }

  /** Whole-file delivery, for every way the two streams are cut: the
      saved content is always a prefix of the file, FG_OK_200 is returned only when it is the file, and FG_ERR_404
      only when the file has the 404 status line in it; a recv() that fills the buffer while the reply head is
      awaited is outside the promise. */
  lemma {:induction false} RunFaithful(plan: Plan, port: string, body: string, w: World, events: seq<Event>)
    requires PlanOk(plan, port) && Inv(plan, port, body, w) && |body| <= INT32_MAX
    ensures var w' := Run(plan, port, ReplyHead(|body|) + body, w, events);
            Faithful(body, w') && (w'.outcome == Going ==> Inv(plan, port, body, w'))
    decreases |events|
  {
    if events != [] && Can(plan, port, ReplyHead(|body|) + body, w, events[0]) {
      var w1 := Next(plan, w, events[0]);
      StepFaithful(plan, port, body, w, events[0]);
      if w1.outcome == Going { RunFaithful(plan, port, body, w1, events[1..]); }
      else { Ended(plan, port, ReplyHead(|body|) + body, w1, events[1..]); }
    } else if events != [] {
      RunFaithful(plan, port, body, w, events[1..]);
    }
  }

  lemma Ended(plan: Plan, port: string, whole: string, w: World, events: seq<Event>)
    requires w.outcome != Going
    ensures Run(plan, port, whole, w, events) == w
    decreases |events|
  {
    if events != [] { Ended(plan, port, whole, w, events[1..]); }
  }

  /** The wire carries exactly greeting, SOCKS request and HTTP request, each begun only after the whole
      reply to the one before. */
  lemma InOrder(plan: Plan, port: string, body: string, w: World)
    requires PlanOk(plan, port) && Inv(plan, port, body, w)
    ensures w.sent <= Preamble(plan) + Request(plan)
    ensures plan.proxied && |w.sent| > |GREETING| ==> GREETED <= w.received
    ensures |w.sent| > |Preamble(plan)| ==> ProxyReplies(plan, port) <= w.received
    ensures plan.proxied ==>
      ProxyReads(w.sent) ==
      if |w.sent| < |Preamble(plan)| then Partial else To(plan.target, w.sent[|Preamble(plan)|..])
  {
    SentInOrder(plan, port, body, w);
    if plan.proxied { PreambleRead(plan, port, w.sent); }
  }

  lemma SentInOrder(plan: Plan, port: string, body: string, w: World)
    requires PlanOk(plan, port) && Inv(plan, port, body, w)
    ensures w.sent <= Preamble(plan) + Request(plan)
    ensures plan.proxied && |w.sent| > |GREETING| ==> GREETED <= w.received
    ensures |w.sent| > |Preamble(plan)| ==> ProxyReplies(plan, port) <= w.received
  {
    var g, c, q := GREETING, ConnectRequest(plan.target), Request(plan);
    match w.g.phase
    case Sending(GreetingReply) => TwoPrefix(w.sent, w.g.data, g); ThreePrefix(w.sent, g, c, q);
    case Receiving(GreetingReply) => ThreePrefix(w.sent, g, c, q);
    case Sending(ConnectReply) => TwoPrefix(w.sent, w.g.data, g + c); TwoMore(w.sent, g + c, q);
    case Receiving(ConnectReply) => TwoMore(w.sent, g + c, q);
    case Sending(HttpReply) => TwoPrefix(w.sent, w.g.data, Preamble(plan) + q);
    case _ =>
  }

  /** From the start of the download: the saved content is a prefix of the file and all of it on success, the
      wire carries a prefix of the conversation, and the offsets are in bounds at every return. */
  lemma DownloadFaithful(plan: Plan, port: string, body: string, events: seq<Event>)
    requires PlanOk(plan, port) && |body| <= INT32_MAX
    ensures var w := Run(plan, port, ReplyHead(|body|) + body, Begin(plan), events);
            && w.g.content <= body && w.outcome in {Going, Ok200, Overrun, Err404}
            && (w.outcome == Ok200 ==> w.g.content == body) && (w.outcome == Err404 ==> !NoStatus404(body))
            && (w.outcome == Going ==> w.sent <= Preamble(plan) + Request(plan) && w.g.rd + |w.g.data| < BUF_SIZE)
            && (w.outcome == Going && plan.proxied && |w.sent| >= |Preamble(plan)| ==>
                ProxyReads(w.sent) == To(plan.target, w.sent[|Preamble(plan)|..]))
  {
    BeginInv(plan, port, body);
    RunFaithful(plan, port, body, Begin(plan), events);
    var w := Run(plan, port, ReplyHead(|body|) + body, Begin(plan), events);
    if w.outcome == Going { InOrder(plan, port, body, w); }
  }

  lemma TwoPrefix(a: string, b: string, all: string)
    requires a + b == all
    ensures a <= all
  {
  }

  lemma TwoMore(a: string, all: string, more: string)
    requires a <= all
    ensures a <= all + more
  {
  }

  lemma ThreePrefix(a: string, g: string, c: string, q: string)
    requires a <= g
    ensures a <= (g + c) + q
  {
  }
}
