/** One torrent client and any number of servers: the counters they share, and whole runs. */
module Swarm {
  import opened Torrent

  /** `remaining`, `done` and `total` are blocksRemaining, blocksDownloaded and totalBytesDown. */
  datatype State = State(links: seq<Link>, remaining: int, done: nat, total: nat)

  datatype Event =
    | ClientActs(i: nat, got: Io<nat>, sent: Io<nat>)
    | ServerActs(i: nat, got: Io<nat>, sent: Io<nat>)
    | Join                                             // the authority reports another server

  predicate Can(z: Sizes, m: State, e: Event) {
    match e
    case ClientActs(i, got, sent) => i < |m.links| && ClientCan(z, m.links[i], got, sent)
    case ServerActs(i, got, sent) => i < |m.links| && ServerCan(z, m.links[i], got, sent)
    case Join => true
  }

  function Next(z: Sizes, m: State, e: Event): State
    requires Can(z, m, e)
  {
    match e
    case ClientActs(i, got, sent) =>
      var l := m.links[i];
      var t := ClientTurnOf(z, l, m.remaining, got, sent);
      var k := Count(Counters(m.remaining, m.done, m.total), l.c.state, t);
      State(m.links[i := AfterClient(l, t)], k.remaining, k.done, k.total)
    case ServerActs(i, got, sent) =>
      m.(links := m.links[i := AfterServer(m.links[i], ServerTurnOf(z, m.links[i], got, sent))])
    case Join => m.(links := m.links + [NEW])
  }

  function Run(z: Sizes, m: State, events: seq<Event>): State
    decreases |events|
  {
    if events == [] then m else Run(z, if Can(z, m, events[0]) then Next(z, m, events[0]) else m, events[1..])
  }

  /** torrentClient_start: ceil(fileSize / downBlockSize) blocks. */
  function Blocks(fileSize: nat, d: nat): nat
    requires d > 0
  {
    (fileSize + d - 1) / d
  }

  function Start(z: Sizes, fileSize: nat): State
    requires z.d > 0
  {
    State([], Blocks(fileSize, z.d), 0, 0)
  }

  // ---- sums over the servers ----

  predicate InFlight(l: Link) { l.c.state == Receiving || l.c.state == AwaitFinished }

  function Flying(links: seq<Link>): nat {
    if links == [] then 0 else Flying(links[1..]) + if InFlight(links[0]) then 1 else 0
  }

  function FlyingBytes(links: seq<Link>): nat {
    if links == [] then 0 else FlyingBytes(links[1..]) + if InFlight(links[0]) then links[0].c.down else 0
  }

  function AllWork(z: Sizes, links: seq<Link>): int {
    if links == [] then 0 else AllWork(z, links[1..]) + Work(z, links[0])
  }

  function One(l: Link): int { if InFlight(l) then 1 else 0 }

  function Bytes(l: Link): int { if InFlight(l) then l.c.down else 0 }

  lemma {:induction false} SumsAt(z: Sizes, links: seq<Link>, i: nat, l: Link)
    requires i < |links|
    ensures Flying(links[i := l]) == Flying(links) - One(links[i]) + One(l)
    ensures FlyingBytes(links[i := l]) == FlyingBytes(links) - Bytes(links[i]) + Bytes(l)
    ensures AllWork(z, links[i := l]) == AllWork(z, links) - Work(z, links[i]) + Work(z, l)
  {
    if i == 0 {
      assert links[0 := l][1..] == links[1..];
    } else {
      assert links[i := l][1..] == links[1..][i - 1 := l];
      SumsAt(z, links[1..], i - 1, l);
    }
  }

  lemma {:induction false} SumsSnoc(links: seq<Link>, l: Link)
    requires !InFlight(l)
    ensures Flying(links + [l]) == Flying(links) && FlyingBytes(links + [l]) == FlyingBytes(links)
  {
    if links == [] {
      assert links + [l] == [l];
    } else {
      assert (links + [l])[1..] == links[1..] + [l];
      SumsSnoc(links[1..], l);
    }
  }

  // ---- conservation ----

  predicate LinksOk(z: Sizes, links: seq<Link>) { forall l <- links :: LinkInv(z, l) }

  /** Every block is still to be asked for, on its way from one server, or downloaded; and every octet
      counted belongs to a downloaded block or to one on its way. */
  predicate Conserved(z: Sizes, blocks: nat, m: State) {
    && m.remaining >= 0 && m.remaining + Flying(m.links) + m.done == blocks
    && m.total == Octets(z.d, m.done) + FlyingBytes(m.links)
  }

  /** The octets of `n` blocks. */
  function Octets(d: nat, n: nat): nat { if n == 0 then 0 else Octets(d, n - 1) + d }

  lemma {:induction false} OctetsIs(d: nat, n: nat)
    ensures Octets(d, n) == d * n
  {
    if n > 0 {
      OctetsIs(d, n - 1);
      assert d * n == d * (n - 1) + d;
    }
  }

  /** A client only retires a server when no block is left to ask for. */
  predicate Drained(m: State) { (exists l <- m.links :: l.c.state == Idle) ==> m.remaining == 0 }

  predicate Inv(z: Sizes, blocks: nat, m: State) { SizesOk(z) && LinksOk(z, m.links) && Conserved(z, blocks,
          m) && Drained(m) }

  lemma ClientConserves(z: Sizes, blocks: nat, m: State, i: nat, got: Io<nat>, sent: Io<nat>)
    requires Inv(z, blocks, m) && Can(z, m, ClientActs(i, got, sent))
    ensures Inv(z, blocks, Next(z, m, ClientActs(i, got, sent)))
  {
    ClientCounts(z, blocks, m, i, got, sent);
    ClientLinks(z, blocks, m, i, got, sent);
    ClientDrained(z, blocks, m, i, got, sent);
  }

  lemma ClientLinks(z: Sizes, blocks: nat, m: State, i: nat, got: Io<nat>, sent: Io<nat>)
    requires Inv(z, blocks, m) && Can(z, m, ClientActs(i, got, sent))
    ensures LinksOk(z, Next(z, m, ClientActs(i, got, sent)).links)
  {
    assert LinkInv(z, m.links[i]);
    ClientTurnGood(z, m.links[i], m.remaining, got, sent);
  }

  lemma ClientCounts(z: Sizes, blocks: nat, m: State, i: nat, got: Io<nat>, sent: Io<nat>)
    requires Inv(z, blocks, m) && Can(z, m, ClientActs(i, got, sent))
    ensures Conserved(z, blocks, Next(z, m, ClientActs(i, got, sent)))
  {
    var l, m' := m.links[i], Next(z, m, ClientActs(i, got, sent));
    assert LinkInv(z, l);
    ClientTurnGood(z, l, m.remaining, got, sent);
    SumsAt(z, m.links, i, m'.links[i]);
    ClientDelta(z, l, ClientTurnOf(z, l, m.remaining, got, sent), Blocked(got, sent));
  }

  lemma ClientDrained(z: Sizes, blocks: nat, m: State, i: nat, got: Io<nat>, sent: Io<nat>)
    requires Inv(z, blocks, m) && Can(z, m, ClientActs(i, got, sent))
    ensures Drained(Next(z, m, ClientActs(i, got, sent)))
  {
    var l, m' := m.links[i], Next(z, m, ClientActs(i, got, sent));
    assert LinkInv(z, l);
    ClientTurnGood(z, l, m.remaining, got, sent);
    assert m'.links[i].c.state == Idle ==> l.c.state == Idle || m.remaining <= 0;
  }

  /** How a turn of the client moves the shared counters. */
  lemma ClientDelta(z: Sizes, l: Link, t: ClientTurn, blocked: bool)
    requires SizesOk(z) && LinkInv(z, l) && ClientGood(z, l, t, blocked)
    ensures var l' := AfterClient(l, t);
            && One(l') - One(l) == (if t.granted then 1 else 0) - (if t.finished then 1 else 0)
            && Bytes(l') - Bytes(l) ==
               (if l.c.state == Receiving then t.received else 0) - (if t.finished then z.d else 0)
            && !(t.granted && t.finished)
  {
  }

  lemma ServerConserves(z: Sizes, blocks: nat, m: State, i: nat, got: Io<nat>, sent: Io<nat>)
    requires Inv(z, blocks, m) && Can(z, m, ServerActs(i, got, sent))
    ensures Inv(z, blocks, Next(z, m, ServerActs(i, got, sent)))
  {
    ServerTurnGood(z, m.links[i], got, sent);
    SumsAt(z, m.links, i, Next(z, m, ServerActs(i, got, sent)).links[i]);
  }

  lemma StepConserves(z: Sizes, blocks: nat, m: State, e: Event)
    requires Inv(z, blocks, m) && Can(z, m, e)
    ensures Inv(z, blocks, Next(z, m, e))
  {
    match e
    case ClientActs(i, got, sent) => ClientConserves(z, blocks, m, i, got, sent);
    case ServerActs(i, got, sent) => ServerConserves(z, blocks, m, i, got, sent);
    case Join => SumsSnoc(m.links, NEW);
  }

  /** Conservation over every run, for any number of servers joining at any time. */
  lemma {:induction false} RunConserves(z: Sizes, blocks: nat, m: State, events: seq<Event>)
    requires Inv(z, blocks, m)
    ensures Inv(z, blocks, Run(z, m, events))
    decreases |events|
  {
    if events != [] {
      if Can(z, m, events[0]) {
        StepConserves(z, blocks, m, events[0]);
        RunConserves(z, blocks, Next(z, m, events[0]), events[1..]);
      } else {
        RunConserves(z, blocks, m, events[1..]);
      }
    }
  }

  // ---- completion ----

  lemma BlocksCover(fileSize: nat, d: nat)
    requires d > 0
    ensures fileSize <= d * Blocks(fileSize, d) < fileSize + d
  {
    var n := fileSize + d - 1;
    assert n == d * (n / d) + n % d;
  }

  /** When torrent.c reports the download complete, exactly the blocks asked for have come, and no less
      than the file and less than one block more has been received. */
  lemma CompleteBounds(z: Sizes, fileSize: nat, m: State)
    requires z.d > 0 && Inv(z, Blocks(fileSize, z.d), m) && m.done >= Blocks(fileSize, z.d)
    ensures m.remaining == 0 && m.done == Blocks(fileSize, z.d) && Flying(m.links) == 0
    ensures m.total == z.d * m.done && fileSize <= m.total < fileSize + z.d
  {
    NoneFlying(m.links);
    OctetsIs(z.d, m.done);
    BlocksCover(fileSize, z.d);
  }

  lemma {:induction false} NoneFlying(links: seq<Link>)
    ensures Flying(links) == 0 ==> FlyingBytes(links) == 0
  {
    if links != [] { NoneFlying(links[1..]); }
  }

  // ---- progress ----

  /** An upper bound on the turns still to come in which nothing blocks. */
  function Left(z: Sizes, m: State): int {
    Octets(2 * z.d + 2 * z.u + 5, if m.remaining > 0 then m.remaining else 0) + AllWork(z, m.links)
  }

  predicate Unblocked(e: Event) { e.Join? || !Blocked(e.got, e.sent) }

  lemma ClientLeft(z: Sizes, blocks: nat, m: State, i: nat, got: Io<nat>, sent: Io<nat>)
    requires Inv(z, blocks, m) && Can(z, m, ClientActs(i, got, sent))
    ensures var m' := Next(z, m, ClientActs(i, got, sent));
            Left(z, m') <= Left(z, m) && (!Blocked(got, sent) ==> Left(z, m') < Left(z, m))
  {
    var l, m' := m.links[i], Next(z, m, ClientActs(i, got, sent));
    assert LinkInv(z, l);
    ClientTurnGood(z, l, m.remaining, got, sent);
    SumsAt(z, m.links, i, m'.links[i]);
    assert ClientTurnOf(z, l, m.remaining, got, sent).granted ==> Asking(l) && Asked(m'.links[i]);
  }

  /** Every turn brings the download nearer its end unless a system call blocks in it. */
  lemma StepLeft(z: Sizes, blocks: nat, m: State, e: Event)
    requires Inv(z, blocks, m) && Can(z, m, e) && !e.Join?
    ensures Left(z, Next(z, m, e)) <= Left(z, m) && (Unblocked(e) ==> Left(z, Next(z, m, e)) < Left(z, m))
  {
    match e
    case ClientActs(i, got, sent) => ClientLeft(z, blocks, m, i, got, sent);
    case ServerActs(i, got, sent) =>
      assert LinkInv(z, m.links[i]);
      ServerTurnGood(z, m.links[i], got, sent);
      SumsAt(z, m.links, i, Next(z, m, e).links[i]);
  }

  lemma {:induction false} WorkBounds(z: Sizes, links: seq<Link>)
    requires SizesOk(z) && LinksOk(z, links)
    ensures AllWork(z, links) >= 0
  {
    if links != [] {
      assert LinkInv(z, links[0]);
      WorkBounds(z, links[1..]);
    }
  }

  /** All servers retired, and at least one there. */
  predicate AllRetired(m: State) { m.links != [] && forall l <- m.links :: Retired(l) }

  /** Deadlock freedom: while some server has not retired, some turn is possible that brings the download
      nearer its end. */
  lemma SomeTurn(z: Sizes, blocks: nat, m: State) returns (e: Event)
    requires Inv(z, blocks, m) && m.links != [] && !AllRetired(m)
    ensures Can(z, m, e) && !e.Join? && Unblocked(e) && Left(z, Next(z, m, e)) < Left(z, m)
  {
    var i :| 0 <= i < |m.links| && !Retired(m.links[i]);
    assert LinkInv(z, m.links[i]);
    TurnExists(z, m.links[i]);
    if ClientCan(z, m.links[i], Did(1), Did(1)) {
      e := ClientActs(i, Did(1), Did(1));
    } else {
      e := ServerActs(i, Did(1), Did(1));
    }
    StepLeft(z, blocks, m, e);
  }

  /** Every step of the run is possible, no call blocks in it, and no server joins. */
  predicate Busy(z: Sizes, m: State, events: seq<Event>)
    decreases |events|
  {
    events == [] ||
    (Can(z, m, events[0]) && !events[0].Join? && Unblocked(events[0]) && Busy(z, Next(z, m, events[0]), events[1..]))
  }

  /** No run keeps busy for more than Left(z, m) turns. */
  lemma {:induction false} RunsEnd(z: Sizes, blocks: nat, m: State, events: seq<Event>)
    requires Inv(z, blocks, m) && Busy(z, m, events)
    ensures |events| <= Left(z, m)
    decreases |events|
  {
    LeftNat(z, blocks, m);
    if events != [] {
      StepConserves(z, blocks, m, events[0]);
      StepLeft(z, blocks, m, events[0]);
      RunsEnd(z, blocks, Next(z, m, events[0]), events[1..]);
    }
  }

  lemma LeftNat(z: Sizes, blocks: nat, m: State)
    requires Inv(z, blocks, m)
    ensures Left(z, m) >= 0
  {
    WorkBounds(z, m.links);
  }

  lemma {:induction false} RetiredFlies(links: seq<Link>)
    requires forall l <- links :: Retired(l)
    ensures Flying(links) == 0
  {
    if links != [] {
      assert Retired(links[0]);
      RetiredFlies(links[1..]);
    }
  }

  /** Where no turn is left, the whole file has been downloaded. */
  lemma RetiredMeansDone(z: Sizes, fileSize: nat, m: State)
    requires z.d > 0 && Inv(z, Blocks(fileSize, z.d), m) && AllRetired(m)
    ensures m.done == Blocks(fileSize, z.d) && fileSize <= m.total < fileSize + z.d
  {
    assert Retired(m.links[0]);
    RetiredFlies(m.links);
    CompleteBounds(z, fileSize, m);
  }

  /** From every reachable state with a server in it the download can complete, and however the turns
      are chosen it does so after at most Left(z, m) of them. */
  lemma Completes(z: Sizes, fileSize: nat, m: State) returns (events: seq<Event>)
    requires z.d > 0 && Inv(z, Blocks(fileSize, z.d), m) && m.links != []
    ensures Busy(z, m, events) && AllRetired(Run(z, m, events)) && Run(z, m, events).done == Blocks(fileSize, z.d)
    decreases Left(z, m)
  {
    var blocks := Blocks(fileSize, z.d);
    LeftNat(z, blocks, m);
    if AllRetired(m) {
      RetiredMeansDone(z, fileSize, m);
      events := [];
    } else {
      var e := SomeTurn(z, blocks, m);
      StepConserves(z, blocks, m, e);
      var rest := Completes(z, fileSize, Next(z, m, e));
      assert ([e] + rest)[0] == e && ([e] + rest)[1..] == rest;
      events := [e] + rest;
    }
  }

  lemma StartConserved(z: Sizes, fileSize: nat)
    requires SizesOk(z)
    ensures Inv(z, Blocks(fileSize, z.d), Start(z, fileSize))
  {
    BlocksCover(fileSize, z.d);
  }
}
