/** torrent/torrent-client.c and torrent/torrent-server.c: the block exchange, as the two activate
    functions and the sockets between one client and one server. Octets of a block are `Data`; the
    request and the "FINISHED" message each travel as a whole. */
module Torrent {
  const BUF_SIZE: nat := 16384

  datatype Msg = Request | Data | Finished

  /** The epoll interest of a socket, and also the events that activate it. */
  datatype Mask = Mask(input: bool, output: bool)

  const IN: Mask := Mask(true, false)
  const OUT: Mask := Mask(false, true)
  const BOTH: Mask := Mask(true, true)

  datatype ClientState = ToRequest | Receiving | AwaitFinished | Idle

  /** A TorrentClient_Server. */
  datatype Client = Client(state: ClientState, down: nat, up: nat, mask: Mask)

  datatype ServerState = Fresh | AwaitRequest | Sending | ToFinish

  /** A TorrentServer_Connection; its block sizes are those of the client, swapped. */
  datatype Server = Server(state: ServerState, down: nat, up: nat, mask: Mask)

  /** One recv() and one send(): what they would return, None for would-block. */
  datatype Io<T> = WouldBlock | Did(value: T)

  /** What an activation does besides changing its own record. */
  datatype ClientTurn = ClientTurn(c: Client, granted: bool, finished: bool, wire: seq<Msg>, received: nat)

  datatype ServerTurn = ServerTurn(s: Server, wire: seq<Msg>, received: nat)

  function Blanks(n: nat): seq<Msg> { seq(n, _ => Data) }

  function Min(a: nat, b: nat): nat { if a <= b then a else b }

  // ---- the client ----

  /** TC_SERVER_REQUEST; `remaining` is blocksRemaining. */
  function OnRequest(c: Client, remaining: int, sent: Io<nat>): ClientTurn {
    if remaining <= 0 then ClientTurn(c.(state := Idle, mask := IN), false, false, [], 0)
    else if sent.WouldBlock? then ClientTurn(c, false, false, [], 0)
    else ClientTurn(Client(Receiving, 0, 0, IN), true, false, [Request], 0)
  }

  /** TC_SERVER_TRANSFER with block sizes `d` and `u`. */
  function OnTransfer(d: nat, u: nat, c: Client, ev: Mask, got: Io<nat>, sent: Io<nat>): ClientTurn {
    if ev.input && c.down < d && got.WouldBlock? then ClientTurn(c, false, false, [], 0) else
    var k := if ev.input && c.down < d then got.value else 0;
    var c1 := c.(down := c.down + k);
    if ev.output && c.up < u && sent.WouldBlock? then ClientTurn(c1, false, false, [], k) else
    var n := if ev.output && c.up < u then sent.value else 0;
    var c2 := c1.(up := c.up + n);
    ClientTurn(if c2.down >= d && c2.up >= u then c2.(state := AwaitFinished, mask := IN)
               else if c2.down >= d then c2.(mask := OUT)
               else if c2.up >= u then c2.(mask := IN)
               else c2,
               false, false, Blanks(n), k)
  }

  /** TC_SERVER_FINISHED; `got` is what one recv() into the whole buffer returned. */
  function OnFinished(c: Client, got: Io<seq<Msg>>): ClientTurn {
    if got.WouldBlock? then ClientTurn(c, false, false, [], 0)
    else if Finished in got.value then ClientTurn(c.(state := ToRequest, mask := OUT), false, true, [], |got.value|)
    else ClientTurn(c, false, false, [], |got.value|)
  }

  /** blocksRemaining, blocksDownloaded and totalBytesDown. */
  datatype Counters = Counters(remaining: int, done: nat, total: nat)

  /** What a turn of the client that was in state `was` does to them. */
  function Count(k: Counters, was: ClientState, t: ClientTurn): Counters {
    Counters(if t.granted then k.remaining - 1 else k.remaining, if t.finished then k.done + 1 else k.done,
             if was == Receiving then k.total + t.received else k.total)
  }

  // ---- the server; d and u are still the client's sizes ----

  /** TS_REQUEST, entered directly or by falling through from TS_IDLE. */
  function OnServerRequest(s: Server, got: Io<seq<Msg>>): ServerTurn {
    var s0 := if s.state == Fresh then Server(AwaitRequest, 0, 0, IN) else s;
    if got.WouldBlock? then ServerTurn(s0, [], 0)
    else if Request in got.value then ServerTurn(s0.(state := Sending, mask := BOTH), [], |got.value|)
    else ServerTurn(s0, [], |got.value|)
  }

  /** TS_TRANSFER */
  function OnServerTransfer(d: nat, u: nat, s: Server, ev: Mask, got: Io<nat>, sent: Io<nat>): ServerTurn {
    if ev.input && s.down < u && got.WouldBlock? then ServerTurn(s, [], 0) else
    var k := if ev.input && s.down < u then got.value else 0;
    var s1 := s.(down := s.down + k);
    if ev.output && s.up < d && sent.WouldBlock? then ServerTurn(s1, [], k) else
    var n := if ev.output && s.up < d then sent.value else 0;
    var s2 := s1.(up := s.up + n);
    ServerTurn(if s2.down >= u && s2.up >= d then s2.(state := ToFinish, mask := OUT)
               else if s2.down >= u then s2.(mask := OUT)
               else if s2.up >= d then s2.(mask := IN)
               else s2,
               Blanks(n), k)
  }

  /** TS_FINISHED */
  function OnServerFinish(s: Server, sent: Io<nat>): ServerTurn {
    if sent.WouldBlock? then ServerTurn(s, [], 0) else ServerTurn(s.(state := Fresh, mask := IN), [Finished], 0)
  }

  // ---- one client, one server and the sockets between them ----

  /** `up` and `down` are what has been sent and not yet received. */
  datatype Link = Link(c: Client, s: Server, up: seq<Msg>, down: seq<Msg>)

  const NEW: Link := Link(Client(ToRequest, 0, 0, OUT), Server(Fresh, 0, 0, IN), [], [])

  /** Block sizes as the client knows them, and how much each socket can hold. */
  datatype Sizes = Sizes(d: nat, u: nat, room: nat)

  function ClientEvents(z: Sizes, l: Link): Mask {
    Mask(l.c.mask.input && l.down != [], l.c.mask.output && |l.up| < z.room)
  }

  function ServerEvents(z: Sizes, l: Link): Mask {
    Mask(l.s.mask.input && l.up != [], l.s.mask.output && |l.down| < z.room)
  }

  predicate Active(ev: Mask) { ev.input || ev.output }

  /** recv() of at most `most` octets returns 1 to that many of those there are, or blocks. */
  predicate RecvOk(got: Io<nat>, most: int, there: nat) {
    got.Did? ==> 1 <= got.value <= most && got.value <= BUF_SIZE && got.value <= there
  }

  /** send() accepts 1 to as many octets as there is room for, or blocks. */
  predicate SendOk(sent: Io<nat>, wanted: int, room: int) {
    sent.Did? ==> 1 <= sent.value <= wanted && sent.value <= BUF_SIZE && sent.value <= room
  }

  /** The events `ev` may activate the client, with these results of its system calls. */
  predicate ClientCan(z: Sizes, l: Link, got: Io<nat>, sent: Io<nat>) {
    var ev := ClientEvents(z, l);
    && Active(ev)
    && match l.c.state
       case ToRequest => SendOk(sent, 1, z.room - |l.up|)
       case Receiving =>
         && (ev.input && l.c.down < z.d ==> RecvOk(got, z.d - l.c.down, |l.down|))
         && (ev.output && l.c.up < z.u ==> SendOk(sent, z.u - l.c.up, z.room - |l.up|))
       case AwaitFinished => RecvOk(got, BUF_SIZE, |l.down|)
       case Idle => true
  }

  /** torrentClient_activate */
  function ActivateClient(z: Sizes, c: Client, ev: Mask, remaining: int, pending: seq<Msg>, got: Io<nat>,
          sent: Io<nat>): ClientTurn {
    match c.state
    case ToRequest => OnRequest(c, remaining, sent)
    case Receiving => OnTransfer(z.d, z.u, c, ev, got, sent)
    case AwaitFinished =>
      OnFinished(c, if got.Did? && got.value <= |pending| then Did(pending[..got.value]) else WouldBlock)
    case Idle => ClientTurn(c, false, false, [], 0)
  }

  predicate ServerCan(z: Sizes, l: Link, got: Io<nat>, sent: Io<nat>) {
    var ev := ServerEvents(z, l);
    && Active(ev)
    && match l.s.state
       case Sending =>
         && (ev.input && l.s.down < z.u ==> RecvOk(got, z.u - l.s.down, |l.up|))
         && (ev.output && l.s.up < z.d ==> SendOk(sent, z.d - l.s.up, z.room - |l.down|))
       case ToFinish => SendOk(sent, 1, z.room - |l.down|)
       case _ => RecvOk(got, BUF_SIZE, |l.up|)
  }

  /** torrentServer_activate */
  function ActivateServer(z: Sizes, s: Server, ev: Mask, pending: seq<Msg>, got: Io<nat>, sent: Io<nat>): ServerTurn {
    match s.state
    case Sending => OnServerTransfer(z.d, z.u, s, ev, got, sent)
    case ToFinish => OnServerFinish(s, sent)
    case _ => OnServerRequest(s, if got.Did? && got.value <= |pending| then Did(pending[..got.value]) else WouldBlock)
  }

  function Drop(q: seq<Msg>, n: nat): seq<Msg> { if n <= |q| then q[n..] else [] }

  function ClientTurnOf(z: Sizes, l: Link, remaining: int, got: Io<nat>, sent: Io<nat>): ClientTurn {
    ActivateClient(z, l.c, ClientEvents(z, l), remaining, l.down, got, sent)
  }

  function AfterClient(l: Link, t: ClientTurn): Link { Link(t.c, l.s, l.up + t.wire, Drop(l.down, t.received)) }

  function ServerTurnOf(z: Sizes, l: Link, got: Io<nat>, sent: Io<nat>): ServerTurn {
    ActivateServer(z, l.s, ServerEvents(z, l), l.up, got, sent)
  }

  function AfterServer(l: Link, t: ServerTurn): Link { Link(l.c, t.s, Drop(l.up, t.received), l.down + t.wire) }

  // ---- the stages of one block ----

  /** The client's transfer record, wherever it is between the request and "FINISHED". */
  predicate ClientMoving(z: Sizes, c: Client) {
    && c.down <= z.d && c.up <= z.u && (c.up > 0 ==> c.down == z.d)
    && c.state == (if c.down == z.d && c.up == z.u then AwaitFinished else Receiving)
    && c.mask == (if c.down < z.d || c.up == z.u then IN else OUT)
  }

  predicate ServerAtRest(s: Server) {
    (s.state == Fresh || s.state == AwaitRequest) && s.mask == IN
      && (s.state == AwaitRequest ==> s.down == s.up == 0)
  }

  predicate Asking(l: Link) {
    l.c.state == ToRequest && l.c.mask == OUT && ServerAtRest(l.s) && l.up == [] && l.down == []
  }

  predicate Asked(l: Link) {
    l.c == Client(Receiving, 0, 0, IN) && ServerAtRest(l.s) && l.up == [Request] && l.down == []
  }

  predicate Moving(z: Sizes, l: Link) {
    && ClientMoving(z, l.c) && l.s.state == Sending
    && l.c.down <= l.s.up <= z.d && l.s.down <= l.c.up && (l.s.up < z.d || l.s.down < z.u)
    && l.down == Blanks(l.s.up - l.c.down) && l.up == Blanks(l.c.up - l.s.down)
    && (l.s.up < z.d ==> l.s.mask.output) && (l.s.up == z.d ==> !l.s.mask.output) && (l.s.down < z.u ==> l.s.mask.input)
  }

  /** The server has moved everything. */
  predicate Closing(z: Sizes, l: Link) {
    && ClientMoving(z, l.c) && l.c.up == z.u && l.s.state == ToFinish && l.s.mask == OUT
    && l.down == Blanks(z.d - l.c.down) && l.up == []
  }

  predicate Closed(z: Sizes, l: Link) {
    ClientMoving(z, l.c) && l.c.up == z.u && ServerAtRest(l.s) && l.down == Blanks(z.d - l.c.down) + [Finished]
      && l.up == []
  }

  predicate Retired(l: Link) {
    l.c.state == Idle && l.c.mask == IN && ServerAtRest(l.s) && l.up == [] && l.down == []
  }

  /** Every reachable state of a link. */
  predicate LinkInv(z: Sizes, l: Link) {
    Asking(l) || Asked(l) || Moving(z, l) || Closing(z, l) || Closed(z, l) || Retired(l)
  }

  /** Steps left on the block in progress, at most. */
  function Work(z: Sizes, l: Link): int {
    if Asking(l) then 1
    else if Asked(l) then 2 * z.d + 2 * z.u + 5
    else if Moving(z, l) then (z.d - l.s.up) + (z.d - l.c.down) + (z.u - l.c.up) + (z.u - l.s.down) + 4
    else if Closing(z, l) then z.d - l.c.down + 3
    else if Closed(z, l) then z.d - l.c.down + 2
    else 0
  }

  predicate SizesOk(z: Sizes) { z.d >= 1 && z.room >= 1 }

  lemma BlanksAdd(n: nat, k: nat)
    ensures Blanks(n) + Blanks(k) == Blanks(n + k)
  {
  }

  // ---- a client's turn ----

  /** What a turn must achieve: the invariant, and less work unless a system call blocks. */
  predicate ClientGood(z: Sizes, l: Link, t: ClientTurn, blocked: bool) {
    var l' := AfterClient(l, t);
    && LinkInv(z, l')
    && (t.granted ==> Asking(l) && Asked(l'))
    && (t.finished ==> Closed(z, l) && Asking(l') && l.c.state == AwaitFinished && l.c.down == z.d)
    && (!t.granted ==> Work(z, l') <= Work(z, l) && (!blocked ==> Work(z, l') < Work(z, l)))
    && (l.c.state == Receiving && !t.granted ==>
        l'.c.down == l.c.down + t.received && l'.c.state in {Receiving, AwaitFinished})
    && (l.c.state == AwaitFinished && !t.finished ==> l' == l)
    && (l.c.state == ToRequest ==> l'.c.state in {ToRequest, Receiving, Idle})
  }

  predicate Blocked(got: Io<nat>, sent: Io<nat>) { got.WouldBlock? || sent.WouldBlock? }

  lemma ClientAsks(z: Sizes, l: Link, remaining: int, got: Io<nat>, sent: Io<nat>)
    requires SizesOk(z) && Asking(l) && ClientCan(z, l, got, sent)
    ensures ClientGood(z, l, ClientTurnOf(z, l, remaining, got, sent), Blocked(got, sent))
    ensures ClientTurnOf(z, l, remaining, got, sent).granted ==> remaining > 0
  {
  }

  /** The client takes `k` octets of the block from the front of what is on its way. */
  lemma DataTaken(n: nat, rest: seq<Msg>, k: nat)
    requires k <= n
    ensures Drop(Blanks(n) + rest, k) == Blanks(n - k) + rest && Drop(Blanks(n), k) == Blanks(n - k)
  {
  }

  /** What the client's record becomes in a turn of TC_SERVER_TRANSFER. */
  lemma ClientMoves(z: Sizes, c: Client, ev: Mask, got: Io<nat>, sent: Io<nat>)
    requires ClientMoving(z, c) && c.state == Receiving && (ev.input ==> c.mask.input)
    requires (ev.output ==> c.mask.output) && Active(ev)
    requires c.down < z.d ==> RecvOk(got, z.d - c.down, BUF_SIZE)
    requires c.down == z.d ==> SendOk(sent, z.u - c.up, BUF_SIZE)
    ensures var t := OnTransfer(z.d, z.u, c, ev, got, sent);
            && ClientMoving(z, t.c) && !t.granted && !t.finished
            && (c.down < z.d ==> t.wire == [] && t.received == (if got.Did? then got.value else 0) &&
                                 t.c.down == c.down + t.received && t.c.up == c.up)
            && (c.down == z.d ==> t.wire == Blanks(if sent.Did? then sent.value else 0) && t.received == 0 &&
                                  t.c.down == c.down && t.c.up == c.up + |t.wire|)
            && (c.down == z.d && c.up == z.u ==> false)
  {
  }

  lemma ClientTransfers(z: Sizes, l: Link, remaining: int, got: Io<nat>, sent: Io<nat>)
    requires SizesOk(z) && Moving(z, l) && l.c.state == Receiving && ClientCan(z, l, got, sent)
    ensures ClientGood(z, l, ClientTurnOf(z, l, remaining, got, sent), Blocked(got, sent))
  {
    var t, l' := ClientTurnOf(z, l, remaining, got, sent), AfterClient(l, ClientTurnOf(z, l, remaining, got, sent));
    ClientMoves(z, l.c, ClientEvents(z, l), got, sent);
    if l.c.down < z.d {
      DataTaken(l.s.up - l.c.down, [], t.received);
    } else {
      BlanksAdd(l.c.up - l.s.down, |t.wire|);
    }
    assert Moving(z, l');
  }

  lemma ClientDrains(z: Sizes, l: Link, remaining: int, got: Io<nat>, sent: Io<nat>)
    requires SizesOk(z) && (Closing(z, l) || Closed(z, l)) && l.c.state == Receiving && ClientCan(z, l, got, sent)
    ensures ClientGood(z, l, ClientTurnOf(z, l, remaining, got, sent), Blocked(got, sent))
  {
    var t, l' := ClientTurnOf(z, l, remaining, got, sent), AfterClient(l, ClientTurnOf(z, l, remaining, got, sent));
    ClientMoves(z, l.c, ClientEvents(z, l), got, sent);
    DataTaken(z.d - l.c.down, [], t.received);
    DataTaken(z.d - l.c.down, [Finished], t.received);
    assert Closing(z, l) ==> Closing(z, l');
    assert Closed(z, l) ==> Closed(z, l');
  }

  lemma ClientFinishes(z: Sizes, l: Link, remaining: int, got: Io<nat>, sent: Io<nat>)
    requires SizesOk(z) && LinkInv(z, l) && l.c.state == AwaitFinished && ClientCan(z, l, got, sent)
    ensures ClientGood(z, l, ClientTurnOf(z, l, remaining, got, sent), Blocked(got, sent))
  {
    assert Closed(z, l) && l.down == Blanks(0) + [Finished] == [Finished];
    if got.Did? { assert l.down[..got.value] == [Finished]; }
  }

  /** Every turn of the client keeps the link in order, and brings it nearer the end of the block. */
  lemma ClientTurnGood(z: Sizes, l: Link, remaining: int, got: Io<nat>, sent: Io<nat>)
    requires SizesOk(z) && LinkInv(z, l) && ClientCan(z, l, got, sent)
    ensures ClientGood(z, l, ClientTurnOf(z, l, remaining, got, sent), Blocked(got, sent))
    ensures ClientTurnOf(z, l, remaining, got, sent).granted ==> remaining > 0
  {
    if Asking(l) { ClientAsks(z, l, remaining, got, sent); }
    else if l.c.state == AwaitFinished { ClientFinishes(z, l, remaining, got, sent); }
    else if Moving(z, l) { ClientTransfers(z, l, remaining, got, sent); }
    else { ClientDrains(z, l, remaining, got, sent); }
  }

  // ---- a server's turn ----

  predicate ServerGood(z: Sizes, l: Link, t: ServerTurn, blocked: bool) {
    var l' := AfterServer(l, t);
    LinkInv(z, l') && Work(z, l') <= Work(z, l) && (!blocked ==> Work(z, l') < Work(z, l))
  }

  lemma ServerStarts(z: Sizes, l: Link, got: Io<nat>, sent: Io<nat>)
    requires SizesOk(z) && Asked(l) && ServerCan(z, l, got, sent)
    ensures ServerGood(z, l, ServerTurnOf(z, l, got, sent), Blocked(got, sent))
  {
    var l' := AfterServer(l, ServerTurnOf(z, l, got, sent));
    if got.Did? {
      assert l.up[..got.value] == [Request];
      assert Moving(z, l');
    } else {
      assert Asked(l');
    }
  }

  lemma ServerCloses(z: Sizes, l: Link, got: Io<nat>, sent: Io<nat>)
    requires SizesOk(z) && Closing(z, l) && ServerCan(z, l, got, sent)
    ensures ServerGood(z, l, ServerTurnOf(z, l, got, sent), Blocked(got, sent))
  {
    var l' := AfterServer(l, ServerTurnOf(z, l, got, sent));
    if sent.Did? { assert Closed(z, l'); } else { assert l'.down == l.down; }
  }

  /** What the server's record becomes in a turn of TS_TRANSFER. */
  predicate ServerMoved(z: Sizes, l: Link, t: ServerTurn, blocked: bool) {
    && t.received <= |l.up| && t.wire == Blanks(|t.wire|)
    && t.s.down == l.s.down + t.received <= z.u && t.s.up == l.s.up + |t.wire| <= z.d
    && (!blocked ==> t.received + |t.wire| > 0)
    && (t.s.down == z.u && t.s.up == z.d ==> t.s.state == ToFinish && t.s.mask == OUT)
    && (t.s.down < z.u || t.s.up < z.d ==> t.s.state == Sending)
    && (t.s.up < z.d ==> t.s.mask.output) && (t.s.up == z.d && t.s.down < z.u ==> !t.s.mask.output)
    && (t.s.down < z.u ==> t.s.mask.input)
  }

  lemma ServerMoves(z: Sizes, l: Link, got: Io<nat>, sent: Io<nat>)
    requires SizesOk(z) && Moving(z, l) && ServerCan(z, l, got, sent)
    ensures ServerMoved(z, l, ServerTurnOf(z, l, got, sent), Blocked(got, sent))
  {
  }

  lemma QueuesAre(up: seq<Msg>, down: seq<Msg>, wire: seq<Msg>, a: nat, b: nat, k: nat, n: nat)
    requires up == Blanks(a) && down == Blanks(b) && wire == Blanks(n) && k <= a
    ensures Drop(up, k) == Blanks(a - k) && down + wire == Blanks(b + n)
  {
  }

  /** The link after the server's turn. */
  lemma ServerWires(z: Sizes, l: Link, t: ServerTurn, blocked: bool)
    requires Moving(z, l) && ServerMoved(z, l, t, blocked)
    ensures t.s.down <= l.c.up && l.c.down <= t.s.up
    ensures AfterServer(l, t) == Link(l.c, t.s, Blanks(l.c.up - t.s.down), Blanks(t.s.up - l.c.down))
  {
    QueuesAre(l.up, l.down, t.wire, l.c.up - l.s.down, l.s.up - l.c.down, t.received, |t.wire|);
  }

  lemma MovedIs(z: Sizes, c: Client, s: Server)
    requires ClientMoving(z, c) && s.down <= c.up && c.down <= s.up <= z.d && s.down <= z.u
    requires (s.down == z.u && s.up == z.d ==> s.state == ToFinish && s.mask == OUT)
    requires (s.down < z.u || s.up < z.d ==> s.state == Sending)
    requires (s.up < z.d ==> s.mask.output) && (s.up == z.d && s.down < z.u ==> !s.mask.output)
    requires (s.down < z.u ==> s.mask.input)
    ensures var l' := Link(c, s, Blanks(c.up - s.down), Blanks(s.up - c.down));
            if s.down == z.u && s.up == z.d then Closing(z, l') else Moving(z, l')
  {
  }

  lemma ServerLands(z: Sizes, l: Link, t: ServerTurn, blocked: bool)
    requires SizesOk(z) && Moving(z, l) && ServerMoved(z, l, t, blocked)
    ensures var l' := AfterServer(l, t);
            if t.s.down == z.u && t.s.up == z.d then Closing(z, l') else Moving(z, l')
  {
    ServerWires(z, l, t, blocked);
    MovedIs(z, l.c, t.s);
  }

  lemma ServerMovedGood(z: Sizes, l: Link, t: ServerTurn, blocked: bool)
    requires SizesOk(z) && Moving(z, l) && ServerMoved(z, l, t, blocked)
    ensures ServerGood(z, l, t, blocked)
  {
    ServerLands(z, l, t, blocked);
    WorkOf(z, l);
    WorkOf(z, AfterServer(l, t));
  }

  lemma ServerTransfers(z: Sizes, l: Link, got: Io<nat>, sent: Io<nat>)
    requires SizesOk(z) && Moving(z, l) && ServerCan(z, l, got, sent)
    ensures ServerGood(z, l, ServerTurnOf(z, l, got, sent), Blocked(got, sent))
  {
    ServerMoves(z, l, got, sent);
    ServerMovedGood(z, l, ServerTurnOf(z, l, got, sent), Blocked(got, sent));
  }

  lemma WorkOf(z: Sizes, l: Link)
    requires SizesOk(z)
    ensures Moving(z, l) ==> Work(z, l) == (z.d - l.s.up) + (z.d - l.c.down) + (z.u - l.c.up) + (z.u - l.s.down) + 4
    ensures Closing(z, l) ==> Work(z, l) == z.d - l.c.down + 3
  {
  }

  lemma ServerTurnGood(z: Sizes, l: Link, got: Io<nat>, sent: Io<nat>)
    requires SizesOk(z) && LinkInv(z, l) && ServerCan(z, l, got, sent)
    ensures ServerGood(z, l, ServerTurnOf(z, l, got, sent), Blocked(got, sent))
  {
    if Asked(l) { ServerStarts(z, l, got, sent); }
    else if Moving(z, l) { ServerTransfers(z, l, got, sent); }
    else { ServerCloses(z, l, got, sent); }
  }

  // ---- no deadlock ----

  /** As long as the client has not retired, one of the two is activated by what is there. */
  lemma SomeoneMoves(z: Sizes, l: Link)
    requires SizesOk(z) && LinkInv(z, l) && !Retired(l)
    ensures Active(ClientEvents(z, l)) || Active(ServerEvents(z, l))
  {
  }

  /** And a turn in which nothing blocks is then possible. */
  lemma TurnExists(z: Sizes, l: Link)
    requires SizesOk(z) && LinkInv(z, l) && !Retired(l)
    ensures ClientCan(z, l, Did(1), Did(1)) || ServerCan(z, l, Did(1), Did(1))
  {
    SomeoneMoves(z, l);
  }

  /** Why the download must not be empty: were there something to upload and nothing to download, the pair
      would stop for good, since once the server has had its first turn each side waits for input that never
      comes. torrentClient_start divides by the size of the download block before it comes to that. */
  lemma EmptyDownloadDeadlocks(z: Sizes)
    requires z.d == 0 && z.u > 0 && z.room > 0
    ensures var asked := Link(Client(Receiving, 0, 0, IN), Server(Fresh, 0, 0, IN), [Request], []);
            var l := AfterServer(asked, ServerTurnOf(z, asked, Did(1), Did(1)));
            var stuck := AfterServer(l, ServerTurnOf(z, l, Did(1), Did(1)));
            && Asked(asked) && ServerCan(z, asked, Did(1), Did(1)) && ServerCan(z, l, Did(1), Did(1))
            && !Active(ClientEvents(z, stuck)) && !Active(ServerEvents(z, stuck))
  {
    assert [Request][..1] == [Request];
  }
}
