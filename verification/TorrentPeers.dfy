/** The TorrentClient and TorrentServer objects: their switches update the records in place, proved
    against Torrent. */
module TorrentPeers {
  import opened Torrent

  datatype Code = Success | BlockDownloaded | NoServer | Blocks

  /** A system call that the client makes with these events would block. */
  predicate Waits(z: Sizes, c: Client, ev: Mask, remaining: int, there: nat, got: Io<nat>, sent: Io<nat>) {
    match c.state
    case ToRequest => remaining > 0 && sent.WouldBlock?
    case Receiving =>
      (ev.input && c.down < z.d && got.WouldBlock?) || (ev.output && c.up < z.u && sent.WouldBlock?)
    case AwaitFinished => got.WouldBlock? || got.value > there
    case Idle => false
  }

  class TorrentClient {
    const z: Sizes
    var servers: map<nat, Client>   // by socket descriptor
    var remaining: int
    var done: nat
    var total: nat
    var totalUp: nat

    ghost function Now(): Counters reads this { Counters(remaining, done, total) }

    /** torrentClient_start; `numBlocks` is the rounded-up quotient. */
    constructor (z: Sizes, fileSize: nat)
      requires z.d > 0
      ensures this.z == z && servers == map[] && done == total == totalUp == 0
      ensures remaining >= 0 && z.d * (remaining - 1) < fileSize <= z.d * remaining
    {
      this.z := z;
      servers := map[];
      var numBlocks := (fileSize + z.d - 1) / z.d;
      remaining, done, total, totalUp := numBlocks, 0, 0, 0;
      assert fileSize + z.d - 1 == z.d * numBlocks + (fileSize + z.d - 1) % z.d;
    }

    /** What torrentClient_activate does to the record of `sockd` and to the counters. */
    ghost predicate Did(sockd: nat, was: Client, before: Counters, t: ClientTurn, wire: seq<Msg>) reads this {
      sockd in servers && servers[sockd] == t.c && wire == t.wire && Now() == Count(before, was.state, t)
    }

    /** torrentClient_activate: `ev` are the events reported, `pending` what recv() could return, `got`
        and `sent` what the system calls return when they are made. */
    method Activate(sockd: nat, ev: Mask, pending: seq<Msg>, got: Io<nat>, sent: Io<nat>)
      returns (code: Code, wire: seq<Msg>)
      modifies this
      ensures sockd !in old(servers) ==>
              code == NoServer && wire == [] && servers == old(servers) && Now() == old(Now())
      ensures sockd in old(servers) ==>
        Did(sockd, old(servers[sockd]), old(Now()),
          ActivateClient(z, old(servers[sockd]), ev, old(remaining), pending, got, sent), wire)
      ensures sockd in old(servers) ==>
              && (code == BlockDownloaded <==> done == old(done) + 1) && code != NoServer
              && (code == Blocks <==> Waits(z, old(servers[sockd]), ev, old(remaining), |pending|, got, sent))
      ensures forall other | other != sockd :: other in servers <==> other in old(servers)
      ensures forall other | other != sockd && other in servers :: servers[other] == old(servers[other])
    {
      wire := [];
      if sockd !in servers { return NoServer, []; }
      match servers[sockd].state {
        case ToRequest => code, wire := RequestBlock(sockd, sent);
        case Receiving => code, wire := MoveBlock(sockd, ev, got, sent);
        case AwaitFinished => code := FinishBlock(sockd, pending, got);
        case Idle => code := Success;
      }
    }

    /** TC_SERVER_REQUEST */
    method RequestBlock(sockd: nat, sent: Io<nat>) returns (code: Code, wire: seq<Msg>)
      requires sockd in servers && servers[sockd].state == ToRequest
      modifies this`servers, this`remaining
      ensures Did(sockd, old(servers[sockd]), old(Now()), OnRequest(old(servers[sockd]), old(remaining), sent), wire)
      ensures servers == old(servers)[sockd := servers[sockd]]
      ensures code == if old(remaining) > 0 && sent.WouldBlock? then Blocks else Success
    {
      wire := [];
      code := Success;
      var c := servers[sockd];
      if remaining <= 0 {
        servers := servers[sockd := c.(state := Idle, mask := IN)];
        return;
      }
      if sent.WouldBlock? { return Blocks, []; }
      wire := [Request];
      remaining := remaining - 1;
      c := c.(down := 0, up := 0, mask := IN);
      servers := servers[sockd := c.(state := Receiving)];
    }

    /** TC_SERVER_TRANSFER */
    method MoveBlock(sockd: nat, ev: Mask, got: Io<nat>, sent: Io<nat>) returns (code: Code, wire: seq<Msg>)
      requires sockd in servers && servers[sockd].state == Receiving
      modifies this`servers, this`total, this`totalUp
      ensures Did(sockd, old(servers[sockd]), old(Now()), OnTransfer(z.d, z.u, old(servers[sockd]), ev, got, sent),
                  wire)
      ensures servers == old(servers)[sockd := servers[sockd]]
      ensures totalUp == old(totalUp) + |wire|
      ensures code == if Waits(z, old(servers[sockd]), ev, 1, 0, got, sent) then Blocks else Success
    {
      wire := [];
      code := Success;
      var c := servers[sockd];
      if ev.input && c.down < z.d {
        if got.WouldBlock? { return Blocks, []; }
        c := c.(down := c.down + got.value);
        servers := servers[sockd := c];
        total := total + got.value;
      }
      if ev.output && c.up < z.u {
        if sent.WouldBlock? { return Blocks, []; }
        wire := Blanks(sent.value);
        c := c.(up := c.up + sent.value);
        totalUp := totalUp + sent.value;
      }
      if c.down >= z.d && c.up >= z.u { c := c.(state := AwaitFinished, mask := IN); }
      else if c.down >= z.d { c := c.(mask := OUT); }
      else if c.up >= z.u { c := c.(mask := IN); }
      servers := servers[sockd := c];
    }

    /** TC_SERVER_FINISHED */
    method FinishBlock(sockd: nat, pending: seq<Msg>, got: Io<nat>) returns (code: Code)
      requires sockd in servers && servers[sockd].state == AwaitFinished
      modifies this`servers, this`done
      ensures var all := if got.Did? && got.value <= |pending| then Io.Did(pending[..got.value]) else WouldBlock;
              Did(sockd, old(servers[sockd]), old(Now()), OnFinished(old(servers[sockd]), all), [])
      ensures servers == old(servers)[sockd := servers[sockd]]
      ensures code == BlockDownloaded <==> done == old(done) + 1
      ensures code == Blocks <==> got.WouldBlock? || got.value > |pending|
      ensures code != NoServer
    {
      if got.WouldBlock? || got.value > |pending| { return Blocks; }
      if Finished in pending[..got.value] {
        servers := servers[sockd := servers[sockd].(state := ToRequest, mask := OUT)];
        done := done + 1;
        return BlockDownloaded;
      }
      return Success;
    }
  }

  class TorrentServer {
    const z: Sizes   // as the client has them: down and up are swapped on this side
    var connections: map<nat, Server>

    constructor (z: Sizes)
      ensures this.z == z && connections == map[]
    {
      this.z := z;
      connections := map[];
    }

    /** torrentServer_activate, for a connection that has been accepted. */
    method Activate(sockd: nat, ev: Mask, pending: seq<Msg>, got: Io<nat>, sent: Io<nat>) returns (wire: seq<Msg>)
      modifies this
      ensures sockd !in old(connections) ==> connections == old(connections) && wire == []
      ensures sockd in old(connections) ==>
        var t := ActivateServer(z, old(connections[sockd]), ev, pending, got, sent);
        connections == old(connections)[sockd := t.s] && wire == t.wire
    {
      wire := [];
      if sockd !in connections { return; }
      var s := connections[sockd];
      match s.state {
        case Fresh =>
          connections := connections[sockd := Server(AwaitRequest, 0, 0, IN)];
          AnswerRequest(sockd, pending, got);   // falls through to TS_REQUEST
        case AwaitRequest => AnswerRequest(sockd, pending, got);
        case Sending => wire := MoveBlock(sockd, ev, got, sent);
        case ToFinish =>
          if sent.WouldBlock? { return; }
          wire := [Finished];
          connections := connections[sockd := s.(state := Fresh, mask := IN)];
      }
    }

    /** TS_REQUEST */
    method AnswerRequest(sockd: nat, pending: seq<Msg>, got: Io<nat>)
      requires sockd in connections && connections[sockd].state == AwaitRequest
      modifies this
      ensures connections == old(connections)[sockd := OnServerRequest(old(connections[sockd]),
                if got.Did? && got.value <= |pending| then Io.Did(pending[..got.value]) else WouldBlock).s]
    {
      if got.WouldBlock? || got.value > |pending| { return; }
      if Request in pending[..got.value] {
        connections := connections[sockd := connections[sockd].(state := Sending, mask := BOTH)];
      }
    }

    /** TS_TRANSFER */
    method MoveBlock(sockd: nat, ev: Mask, got: Io<nat>, sent: Io<nat>) returns (wire: seq<Msg>)
      requires sockd in connections && connections[sockd].state == Sending
      modifies this
      ensures var t := OnServerTransfer(z.d, z.u, old(connections[sockd]), ev, got, sent);
              connections == old(connections)[sockd := t.s] && wire == t.wire
    {
      wire := [];
      var s := connections[sockd];
      if ev.input && s.down < z.u {
        if got.WouldBlock? { return; }
        s := s.(down := s.down + got.value);
        connections := connections[sockd := s];
      }
      if ev.output && s.up < z.d {
        if sent.WouldBlock? { return; }
        wire := Blanks(sent.value);
        s := s.(up := s.up + sent.value);
      }
      if s.down >= z.u && s.up >= z.d { s := s.(state := ToFinish, mask := OUT); }
      else if s.down >= z.u { s := s.(mask := OUT); }
      else if s.up >= z.d { s := s.(mask := IN); }
      connections := connections[sockd := s];
    }
  }
}
