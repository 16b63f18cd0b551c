/** Getter and server of a file together, with the proxy between them taken as a conforming relay. */
module WholeFile {
  import opened Text
  import opened Decimal
  import opened FileTransfer
  import opened FileGetter
  import FS = FileServer

  /** The server before and after it has the whole request. */
  datatype Server = Reading(buf: string) | Replying(reply: FS.Reply)

  datatype Pair = Pair(w: FileGetter.World, s: Server)

  /** The document tree of the server, by absolute path. */
  datatype Site = Site(docroot: string, files: map<string, string>)

  datatype Event = OfGetter(e: FileGetter.Event) | Request(n: nat) | Reply(r: FS.SendResult)

  /** What the getter has sent of its request proper, and what of the reply has gone out. */
  function Asked(plan: Plan, w: FileGetter.World): string {
    if |w.sent| <= |Preamble(plan)| then "" else w.sent[|Preamble(plan)|..]
  }

  function Out(s: Server): string { if s.Reading? then "" else s.reply.sent }

  /** FS_REQUEST and the start of the reply. */
  function OnRequest(site: Site, buf: string): Server {
    match FS.Parse(buf)
    case More => Reading(buf)
    case Path(p) =>
      if site.docroot + p in site.files then Replying(FS.Found(site.files[site.docroot + p]))
      else Replying(FS.NotFound())
    case Refused => Replying(FS.NotFound())
  }

  predicate Can(plan: Plan, port: string, x: Pair, e: Event) {
    match e
    case OfGetter(g) =>
      FileGetter.Can(plan, port, Out(x.s), x.w, g)
    case Request(n) => x.s.Reading? && 1 <= n && |x.s.buf| + n <= |Asked(plan, x.w)|
    case Reply(r) =>
      x.s.Replying? && x.s.reply.wr <= BUF_SIZE && !FS.Over(x.s.reply) && FS.Plausible(FS.Filled(x.s.reply), r)
  }

  function Next(plan: Plan, port: string, site: Site, x: Pair, e: Event): Pair
    requires Can(plan, port, x, e)
  {
    match e
    case OfGetter(g) => Pair(FileGetter.Next(plan, x.w, g), x.s)
    case Request(n) => Pair(x.w, OnRequest(site, Asked(plan, x.w)[..|x.s.buf| + n]))
    case Reply(r) => Pair(x.w, Replying(FS.Turn(x.s.reply, r)))
  }

  function Run(plan: Plan, port: string, site: Site, x: Pair, events: seq<Event>): Pair
    decreases |events|
  {
    if events == [] then x
    else
      var y := if Can(plan, port, x, events[0]) then Next(plan, port, site, x, events[0]) else x;
      Run(plan, port, site, y, events[1..])
  }

  predicate Setting(plan: Plan, port: string, site: Site, body: string) {
    && PlanOk(plan, port) && FS.PlainPath(plan.path) && FS.PlainName(plan.host)
    && site.docroot + plan.path in site.files && site.files[site.docroot + plan.path] == body
    && |body| <= INT32_MAX
  }

  predicate Inv(plan: Plan, port: string, body: string, x: Pair) {
    && Faithful(body, x.w) && (x.w.outcome == Going ==> FileGetter.Inv(plan, port, body, x.w))
    && x.w.sent <= Preamble(plan) + GetRequest(plan.path, plan.host)
    && (x.s.Reading? ==> x.s.buf <= GetRequest(plan.path, plan.host) && |x.s.buf| < |GetRequest(plan.path, plan.host)|)
    && (x.s.Replying? ==> FS.Sound(x.s.reply, ReplyHead(|body|) + body))
    && (x.w.outcome == Ok200 ==> Out(x.s) == ReplyHead(|body|) + body)
  }

  lemma AskedPrefix(plan: Plan, w: FileGetter.World, req: string)
    requires w.sent <= Preamble(plan) + req
    ensures Asked(plan, w) <= req
  {
    if |w.sent| > |Preamble(plan)| {
      assert w.sent == (Preamble(plan) + req)[..|w.sent|];
      assert Asked(plan, w) == req[..|w.sent| - |Preamble(plan)|];
    }
  }

  lemma AskedSlice(plan: Plan, w: FileGetter.World, req: string, m: nat)
    requires w.sent <= Preamble(plan) + req && m <= |Asked(plan, w)|
    ensures m <= |req| && Asked(plan, w)[..m] == req[..m]
  {
    AskedPrefix(plan, w, req);
  }

  lemma NextReads(plan: Plan, port: string, site: Site, x: Pair, n: nat, s: Server)
    requires Can(plan, port, x, Request(n)) && OnRequest(site, Asked(plan, x.w)[..|x.s.buf| + n]) == s
    ensures Next(plan, port, site, x, Request(n)) == Pair(x.w, s)
  {
  }

  /** What the server has made of the request when it has read `m` octets of it. */
  function Reader(plan: Plan, body: string, m: nat): Server
    requires m <= |GetRequest(plan.path, plan.host)|
  {
    var req := GetRequest(plan.path, plan.host);
    if m < |req| then Reading(req[..m]) else Replying(FS.Found(body))
  }

  lemma RequestMet(plan: Plan, port: string, site: Site, body: string, m: nat)
    requires Setting(plan, port, site, body) && m <= |GetRequest(plan.path, plan.host)|
    ensures OnRequest(site, GetRequest(plan.path, plan.host)[..m]) == Reader(plan, body, m)
  {
    FS.RequestRead(plan.path, plan.host, m);
  }

  /** What a recv() of the server that reads `n` octets of the request makes of it. */
  lemma RequestTaken(plan: Plan, port: string, site: Site, body: string, x: Pair, n: nat)
    requires Setting(plan, port, site, body) && Can(plan, port, x, Request(n))
    requires x.w.sent <= Preamble(plan) + GetRequest(plan.path, plan.host)
    ensures |x.s.buf| + n <= |GetRequest(plan.path, plan.host)|
    ensures Next(plan, port, site, x, Request(n)) == Pair(x.w, Reader(plan, body, |x.s.buf| + n))
  {
    var m := |x.s.buf| + n;
    AskedSlice(plan, x.w, GetRequest(plan.path, plan.host), m);
    RequestMet(plan, port, site, body, m);
    NextReads(plan, port, site, x, n, Reader(plan, body, m));
  }

  lemma FoundSound(body: string)
    requires |body| <= INT32_MAX
    ensures FS.Sound(FS.Found(body), ReplyHead(|body|) + body)
  {
    FS.HeadFits(|body|);
    FS.ReplySound(body);
  }

  /** The server's part of the invariant is all that its reading of the request has to keep. */
  lemma ServerPart(plan: Plan, port: string, body: string, x: Pair, s: Server)
    requires Inv(plan, port, body, x) && x.s.Reading?
    requires s.Reading? ==> s.buf <= GetRequest(plan.path, plan.host) && |s.buf| < |GetRequest(plan.path, plan.host)|
    requires s.Replying? ==> FS.Sound(s.reply, ReplyHead(|body|) + body)
    ensures Inv(plan, port, body, Pair(x.w, s))
  {
  }

  lemma RequestStep(plan: Plan, port: string, site: Site, body: string, x: Pair, n: nat)
    requires Setting(plan, port, site, body) && Inv(plan, port, body, x) && Can(plan, port, x, Request(n))
    ensures Inv(plan, port, body, Next(plan, port, site, x, Request(n)))
  {
    RequestTaken(plan, port, site, body, x, n);
    FoundSound(body);
    ServerPart(plan, port, body, x, Next(plan, port, site, x, Request(n)).s);
  }

  lemma ReplyStep(plan: Plan, port: string, site: Site, body: string, x: Pair, r: FS.SendResult)
    requires Setting(plan, port, site, body) && Inv(plan, port, body, x) && Can(plan, port, x, Reply(r))
    ensures Inv(plan, port, body, Next(plan, port, site, x, Reply(r)))
  {
    var whole := ReplyHead(|body|) + body;
    FS.TurnSound(x.s.reply, whole, r);
    FS.SentPrefix(FS.Turn(x.s.reply, r), whole);
  }

  /** A relay that is ahead of the server by nothing is one that may pass on the whole reply. */
  lemma AllowedMore(plan: Plan, port: string, out: string, whole: string, sent: nat)
    requires out <= whole
    ensures Allowed(plan, port, out, sent) <= Allowed(plan, port, whole, sent)
  {
  }

  lemma GetterStep(plan: Plan, port: string, site: Site, body: string, x: Pair, e: FileGetter.Event)
    requires Setting(plan, port, site, body) && Inv(plan, port, body, x) && Can(plan, port, x, OfGetter(e))
    ensures Inv(plan, port, body, Next(plan, port, site, x, OfGetter(e)))
  {
    var whole, w' := ReplyHead(|body|) + body, FileGetter.Next(plan, x.w, e);
    OutPrefix(x.s, whole);
    AllowedMore(plan, port, Out(x.s), whole, |x.w.sent|);
    StepFaithful(plan, port, body, x.w, e);
    if w'.outcome == Going { InOrder(plan, port, body, w'); }
    if w'.outcome == Ok200 { AllOut(plan, port, body, x, e); }
  }

  lemma OutPrefix(s: Server, whole: string)
    requires s.Replying? ==> FS.Sound(s.reply, whole)
    ensures Out(s) <= whole
  {
    if s.Replying? { FS.SentPrefix(s.reply, whole); }
  }

  /** The getter can only have all of the reply when all of it has gone out. */
  lemma AllOut(plan: Plan, port: string, body: string, x: Pair, e: FileGetter.Event)
    requires PlanOk(plan, port) && Inv(plan, port, body, x) && Can(plan, port, x, OfGetter(e))
    requires var w' := FileGetter.Next(plan, x.w, e); w'.outcome == Ok200 && AllIn(plan, port, body, w')
    ensures Out(x.s) == ReplyHead(|body|) + body
  {
    var whole, rs := ReplyHead(|body|) + body, ProxyReplies(plan, port);
    OutPrefix(x.s, whole);
    assert e.Got? && x.w.received + e.chunk == rs + whole;
    assert rs + whole <= Allowed(plan, port, Out(x.s), |x.w.sent|);
    assert |ReplyHead(|body|)| > 10 by { HeadChars(|body|, 0); }
    Longer(rs, whole, Out(x.s), Allowed(plan, port, Out(x.s), |x.w.sent|));
  }

  lemma Longer(rs: string, whole: string, out: string, allowed: string)
    requires rs + whole <= allowed && out <= whole && (allowed == rs + out || |allowed| <= |rs|) && whole != ""
    ensures out == whole
  {
  }

  lemma StepInv(plan: Plan, port: string, site: Site, body: string, x: Pair, e: Event)
    requires Setting(plan, port, site, body) && Inv(plan, port, body, x) && Can(plan, port, x, e)
    ensures Inv(plan, port, body, Next(plan, port, site, x, e))
  {
    match e
    case OfGetter(g) => GetterStep(plan, port, site, body, x, g);
    case Request(n) => RequestStep(plan, port, site, body, x, n);
    case Reply(r) => ReplyStep(plan, port, site, body, x, r);
  }

  lemma {:induction false} RunInv(plan: Plan, port: string, site: Site, body: string, x: Pair, events: seq<Event>)
    requires Setting(plan, port, site, body) && Inv(plan, port, body, x)
    ensures Inv(plan, port, body, Run(plan, port, site, x, events))
    decreases |events|
  {
    if events != [] {
      if Can(plan, port, x, events[0]) {
        StepInv(plan, port, site, body, x, events[0]);
        RunInv(plan, port, site, body, Next(plan, port, site, x, events[0]), events[1..]);
      } else {
        RunInv(plan, port, site, body, x, events[1..]);
      }
    }
  }

  lemma FirstInv(plan: Plan, port: string, site: Site, body: string)
    requires Setting(plan, port, site, body)
    ensures Inv(plan, port, body, Pair(Begin(plan), Reading("")))
  {
    BeginInv(plan, port, body);
  }

  /** Over every run of getter, relay and server: what the getter saves is a prefix of the file the server has
      at that path, what the server has sent is a prefix of the reply with that file, and the getter reports
      success only with all of the file saved, when the server has sent all of it, and a missing file only if
      the file has the 404 status line in it. */
  lemma WholeFileDelivered(plan: Plan, port: string, site: Site, body: string, events: seq<Event>)
    requires Setting(plan, port, site, body)
    ensures var x := Run(plan, port, site, Pair(Begin(plan), Reading("")), events);
            && x.w.g.content <= body && Out(x.s) <= ReplyHead(|body|) + body
            && x.w.outcome in {Going, Ok200, Overrun, Err404} && (x.w.outcome == Err404 ==> !NoStatus404(body))
            && (x.w.outcome == Ok200 ==> x.w.g.content == body && Out(x.s) == ReplyHead(|body|) + body)
  {
    FirstInv(plan, port, site, body);
    RunInv(plan, port, site, body, Pair(Begin(plan), Reading("")), events);
    OutPrefix(Run(plan, port, site, Pair(Begin(plan), Reading("")), events).s, ReplyHead(|body|) + body);
  }

  // ---- a way to the end from everywhere ----

  /** What the getter has received is what the relay may have passed on, and a server that has ended has sent
      all of the reply. */
  predicate Sane(plan: Plan, port: string, body: string, x: Pair) {
    && x.w.received <= Allowed(plan, port, Out(x.s), |x.w.sent|)
    && (x.s.Replying? && FS.Over(x.s.reply) ==> Out(x.s) == ReplyHead(|body|) + body)
  }

  predicate Failing(e: Event) { e.Reply? && e.r.SocketError? }

  lemma AllowedLater(plan: Plan, port: string, out: string, more: string, sent: nat, later: nat)
    requires out <= more && sent <= later
    ensures Allowed(plan, port, out, sent) <= Allowed(plan, port, more, later)
  {
  }

  lemma StepSane(plan: Plan, port: string, site: Site, body: string, x: Pair, e: Event)
    requires Setting(plan, port, site, body) && Inv(plan, port, body, x) && Sane(plan, port, body, x)
    requires Can(plan, port, x, e) && !Failing(e)
    ensures Sane(plan, port, body, Next(plan, port, site, x, e))
  {
    var x', whole := Next(plan, port, site, x, e), ReplyHead(|body|) + body;
    match e
    case OfGetter(g) => AllowedLater(plan, port, Out(x.s), Out(x.s), |x.w.sent|, |x'.w.sent|);
    case Request(n) =>
      RequestSane(plan, port, site, body, x, n);
      AllowedLater(plan, port, Out(x.s), Out(x'.s), |x.w.sent|, |x.w.sent|);
    case Reply(r) =>
      FS.TurnSound(x.s.reply, whole, r);
      AllowedLater(plan, port, Out(x.s), Out(x'.s), |x.w.sent|, |x.w.sent|);
  }

  lemma RequestSane(plan: Plan, port: string, site: Site, body: string, x: Pair, n: nat)
    requires Setting(plan, port, site, body) && Inv(plan, port, body, x) && Can(plan, port, x, Request(n))
    ensures var s := Next(plan, port, site, x, Request(n)).s; Out(s) == "" && !(s.Replying? && FS.Over(s.reply))
  {
    RequestTaken(plan, port, site, body, x, n);
    FS.HeadFits(|body|);
    FoundSound(body);
  }

  lemma {:induction false} RunSane(plan: Plan, port: string, site: Site, body: string, x: Pair, events: seq<Event>)
    requires Setting(plan, port, site, body) && Inv(plan, port, body, x) && Sane(plan, port, body, x)
    requires forall e <- events :: !Failing(e)
    ensures Sane(plan, port, body, Run(plan, port, site, x, events))
    decreases |events|
  {
    if events != [] {
      if Can(plan, port, x, events[0]) {
        StepSane(plan, port, site, body, x, events[0]);
        StepInv(plan, port, site, body, x, events[0]);
        RunSane(plan, port, site, body, Next(plan, port, site, x, events[0]), events[1..]);
      } else {
        RunSane(plan, port, site, body, x, events[1..]);
      }
    }
  }

  /** Octets still to be sent and received, and the request still to be read. */
  function Left(plan: Plan, port: string, body: string, x: Pair): int {
    var whole := ReplyHead(|body|) + body;
    |Preamble(plan)| + |GetRequest(plan.path, plan.host)| - |x.w.sent| +
    |ProxyReplies(plan, port)| + |whole| - |x.w.received| + |whole| - |Out(x.s)| + if x.s.Reading? then 1 else 0
  }

  predicate Ready(plan: Plan, port: string, site: Site, body: string, x: Pair) {
    Setting(plan, port, site, body) && Inv(plan, port, body, x) && Sane(plan, port, body, x) && x.w.outcome == Going
  }

  /** An event that brings the download nearer its end. */
  predicate Good(plan: Plan, port: string, site: Site, body: string, x: Pair, e: Event) {
    && Can(plan, port, x, e) && !Failing(e)
    && var x' := Next(plan, port, site, x, e);
       x'.w.outcome in {Going, Ok200} && Left(plan, port, body, x') < Left(plan, port, body, x)
  }

  lemma SendsAll(plan: Plan, port: string, site: Site, body: string, x: Pair)
    requires Ready(plan, port, site, body, x) && x.w.g.phase.Sending?
    ensures Good(plan, port, site, body, x, OfGetter(Sent(|x.w.g.data|)))
  {
    SentKeeps(plan, port, body, x.w, |x.w.g.data|);
  }

  /** What the relay has next for the getter. */
  function Octet(plan: Plan, port: string, x: Pair): string
    requires |x.w.received| < |Allowed(plan, port, Out(x.s), |x.w.sent|)|
  {
    Allowed(plan, port, Out(x.s), |x.w.sent|)[|x.w.received|..|x.w.received| + 1]
  }

  lemma OctetFollows(received: string, allowed: string)
    requires received <= allowed && |received| < |allowed|
    ensures received + allowed[|received|..|received| + 1] <= allowed
  {
  }

  lemma OctetCan(plan: Plan, port: string, site: Site, body: string, x: Pair)
    requires Ready(plan, port, site, body, x) && x.w.g.phase.Receiving?
    requires |x.w.received| < |Allowed(plan, port, Out(x.s), |x.w.sent|)|
    ensures var g := Got(Octet(plan, port, x));
            |g.chunk| == 1 && FileGetter.Can(plan, port, Out(x.s), x.w, g)
              && FileGetter.Can(plan, port, ReplyHead(|body|) + body, x.w, g)
  {
    OctetFollows(x.w.received, Allowed(plan, port, Out(x.s), |x.w.sent|));
    OutPrefix(x.s, ReplyHead(|body|) + body);
    AllowedMore(plan, port, Out(x.s), ReplyHead(|body|) + body, |x.w.sent|);
  }

  lemma ReceivesLeft(plan: Plan, port: string, site: Site, body: string, x: Pair, g: FileGetter.Event)
    requires g.Got? && |g.chunk| > 0 && Can(plan, port, x, OfGetter(g))
    ensures Left(plan, port, body, Next(plan, port, site, x, OfGetter(g))) < Left(plan, port, body, x)
  {
  }

  /** One octet more can be received. */
  lemma GetsOne(plan: Plan, port: string, site: Site, body: string, x: Pair)
    requires Ready(plan, port, site, body, x) && x.w.g.phase.Receiving?
    requires |x.w.received| < |Allowed(plan, port, Out(x.s), |x.w.sent|)|
    ensures Good(plan, port, site, body, x, OfGetter(Got(Octet(plan, port, x))))
  {
    var g := Got(Octet(plan, port, x));
    OctetCan(plan, port, site, body, x);
    FS.HeadFits(|body|);
    OneOctet(plan, port, body, x.w, g.chunk);
    ReceivesLeft(plan, port, site, body, x, g);
  }

  /** While the getter waits for a proxy there is always something to receive. */
  lemma ProxyAnswers(plan: Plan, port: string, site: Site, body: string, x: Pair)
    requires Ready(plan, port, site, body, x) && x.w.g.phase in {Receiving(GreetingReply), Receiving(ConnectReply)}
    ensures |x.w.received| < |Allowed(plan, port, Out(x.s), |x.w.sent|)|
  {
  }

  /** A getter that waits for the file has asked for it, and has not received all of it. */
  lemma WaitsForFile(plan: Plan, port: string, site: Site, body: string, x: Pair)
    requires Ready(plan, port, site, body, x) && x.w.g.phase in {Receiving(HttpReply), Receiving(Download)}
    requires |x.w.received| >= |Allowed(plan, port, Out(x.s), |x.w.sent|)|
    ensures Asked(plan, x.w) == GetRequest(plan.path, plan.host) && |Out(x.s)| < |ReplyHead(|body|) + body|
  {
    var pre, req := Preamble(plan), GetRequest(plan.path, plan.host);
    assert (pre + req)[|pre|..] == req;
  }

  /** Then the server has something to do. */
  function ServerEvent(plan: Plan, x: Pair): Event
    requires x.s.Replying? ==> x.s.reply.wr <= BUF_SIZE
  {
    match x.s
    case Reading(buf) =>
      var n := |GetRequest(plan.path, plan.host)|;
      Request(if |buf| < n then n - |buf| else 0)
    case Replying(r) => Reply(FS.Accepted(|FS.Filled(r).out|))
  }

  lemma RequestDone(plan: Plan, port: string, site: Site, body: string, x: Pair)
    requires Ready(plan, port, site, body, x) && x.s.Reading? && Asked(plan, x.w) == GetRequest(plan.path, plan.host)
    ensures ServerEvent(plan, x).Request? && Can(plan, port, x, ServerEvent(plan, x))
    ensures Next(plan, port, site, x, ServerEvent(plan, x)) == Pair(x.w, Replying(FS.Found(body)))
  {
    RequestTaken(plan, port, site, body, x, |GetRequest(plan.path, plan.host)| - |x.s.buf|);
  }

  lemma ServerReads(plan: Plan, port: string, site: Site, body: string, x: Pair)
    requires Ready(plan, port, site, body, x) && x.s.Reading? && Asked(plan, x.w) == GetRequest(plan.path, plan.host)
    ensures Good(plan, port, site, body, x, ServerEvent(plan, x))
  {
    RequestDone(plan, port, site, body, x);
    assert Out(Replying(FS.Found(body))) == "" == Out(x.s);
  }

  lemma ServerReplies(plan: Plan, port: string, site: Site, body: string, x: Pair)
    requires Ready(plan, port, site, body, x) && x.s.Replying? && |Out(x.s)| < |ReplyHead(|body|) + body|
    ensures Good(plan, port, site, body, x, ServerEvent(plan, x))
  {
    ServerSends(x.s.reply, ReplyHead(|body|) + body);
  }

  lemma ServerSends(r: FS.Reply, whole: string)
    requires FS.Sound(r, whole) && !FS.Over(r) && |r.sent| < |whole|
    ensures var e := FS.Accepted(|FS.Filled(r).out|); FS.Plausible(FS.Filled(r), e) && |FS.Turn(r, e).sent| > |r.sent|
  {
    var e := FS.Accepted(|FS.Filled(r).out|);
    FS.TurnSound(r, whole, e);
  }

  /** Some event is possible that brings the download nearer its end. */
  lemma Advances(plan: Plan, port: string, site: Site, body: string, x: Pair) returns (e: Event)
    requires Ready(plan, port, site, body, x)
    ensures Good(plan, port, site, body, x, e)
  {
    if x.w.g.phase.Sending? {
      e := OfGetter(Sent(|x.w.g.data|));
      SendsAll(plan, port, site, body, x);
    } else if |x.w.received| < |Allowed(plan, port, Out(x.s), |x.w.sent|)| {
      e := OfGetter(Got(Octet(plan, port, x)));
      GetsOne(plan, port, site, body, x);
    } else {
      if x.w.g.phase in {Receiving(GreetingReply), Receiving(ConnectReply)} { ProxyAnswers(plan, port, site, body, x); }
      WaitsForFile(plan, port, site, body, x);
      e := ServerEvent(plan, x);
      if x.s.Reading? { ServerReads(plan, port, site, body, x); } else { ServerReplies(plan, port, site, body, x); }
    }
  }

  /** No deadlock: from wherever a run without a socket failure has come to, there is a continuation in which
      the getter reports the whole file. */
  lemma {:induction false} Finishes(plan: Plan, port: string, site: Site, body: string,
          x: Pair) returns (events: seq<Event>)
    requires Ready(plan, port, site, body, x)
    ensures Run(plan, port, site, x, events).w.outcome == Ok200
    decreases Left(plan, port, body, x)
  {
    var e := Advances(plan, port, site, body, x);
    var x' := Next(plan, port, site, x, e);
    StepInv(plan, port, site, body, x, e);
    StepSane(plan, port, site, body, x, e);
    LeftNat(plan, port, site, body, x);
    if x'.w.outcome == Ok200 {
      events := [e] + [];
    } else {
      var rest := Finishes(plan, port, site, body, x');
      events := [e] + rest;
    }
    assert events[0] == e && events == [e] + events[1..];
  }

  lemma LeftNat(plan: Plan, port: string, site: Site, body: string, x: Pair)
    requires Setting(plan, port, site, body) && Inv(plan, port, body, x) && Sane(plan, port, body, x)
    ensures Left(plan, port, body, x) >= 0
  {
    var whole := ReplyHead(|body|) + body;
    OutPrefix(x.s, whole);
    AllowedLater(plan, port, Out(x.s), whole, |x.w.sent|, |Preamble(plan)| + |GetRequest(plan.path, plan.host)|);
  }

  /** So every download that has not ended can still succeed. */
  lemma CanFinish(plan: Plan, port: string, site: Site, body: string, events: seq<Event>) returns (more: seq<Event>)
    requires Setting(plan, port, site, body) && forall e <- events :: !Failing(e)
    requires Run(plan, port, site, Pair(Begin(plan), Reading("")), events).w.outcome == Going
    ensures Run(plan, port, site, Run(plan, port, site, Pair(Begin(plan), Reading("")), events), more).w.outcome ==
            Ok200
  {
    var x := Pair(Begin(plan), Reading(""));
    FirstInv(plan, port, site, body);
    RunInv(plan, port, site, body, x, events);
    RunSane(plan, port, site, body, x, events);
    more := Finishes(plan, port, site, body, Run(plan, port, site, x, events));
  }
}
