/** The Handler object: the file-to-buffer-to-socket pump of send_to_client, with its gotos kept as
    a program counter, and the request intake of recv_from_client. */
module HttpHandler {
  import opened Text
  import opened Decimal
  import opened HttpParse
  import opened HttpServer
  import opened LineMachine

  const READ_HIGH_WATER_MARK: nat := 16 * 1024
  const INBUF_CHECK: nat := 256 * 1024
  const WATCHDOG: nat := 0x2f

  /** Where send_to_client is: its two labels, and the fill loop between them. */
  datatype Label = AddMore | Fill | SendMore | Exit

  /** The local variables of send_to_client. */
  datatype Pump = Pump(at: Label, wouldBlock: bool, count: nat, written: nat)

  datatype WriteResult = WouldBlock | SocketError | Wrote(n: nat)

  lemma Cut(s: string, n: nat)
    requires n <= |s|
    ensures s == s[..n] + s[n..]
  {
  }

  lemma Assoc2(a: string, b: string, c: string)
    ensures a + (b + c) == (a + b) + c
  {
  }

  lemma Assoc3(a: string, b: string, c: string, d: string)
    ensures a + b + (c + d) == a + (b + c) + d
  {
  }

  lemma StreamStep(reply: Job -> Reply, served: seq<Job>, j: Job, r: Reply, sent: string, outbuf: string,
          unread: string)
    requires r == reply(j) && r.Reply? && unread == "" && sent + outbuf + unread == Responses(reply, served)
    ensures sent + (outbuf + r.head) + r.body == Responses(reply, served + [j])
  {
    assert (served + [j])[..|served|] == served;
    assert sent + outbuf + unread == sent + outbuf;
    Assoc3(sent, outbuf, r.head, r.body);
  }

  class Handler {
    const reply: Job -> Reply   // what the document tree answers to a request; see HttpServer.ReplyTo
    var inbuf: string
    var outbuf: string
    var reqState: ReqState
    var queue: seq<Job>
    var rspState: RspState
    var unread: string        // what read(active_fd_) has still to return
    var expected: nat         // numRespBodyBytesExpectedToSend_
    var bodyRead: nat         // numBodyBytesRead_
    var aborted: bool
    var closed: bool          // deleteLater() has been scheduled
    ghost var sent: string    // everything the socket has accepted
    ghost var served: seq<Job>

    /** What the socket accepted, what waits in outbuf_ and what is still in the open file make up
        exactly the responses begun so far. */
    ghost predicate Valid() reads this {
      && |queue| <= MAX_PIPELINE_REQS
      && sent + outbuf + unread == Responses(reply, served)
      && (rspState == RspBody ==> queue != [] && bodyRead + |unread| == expected)
      && (rspState == RspMeta ==> unread == "")
    }

    ghost function RequestHalf(): Intake reads this { Intake(reqState, queue, aborted) }

    ghost function Now(): Server reads this { Server(inbuf, RequestHalf(), rspState, outbuf, unread, sent) }

    constructor (reply: Job -> Reply)
      ensures Valid() && this.reply == reply
      ensures inbuf == outbuf == sent == "" && queue == served == [] && reqState == RequestLine && !aborted && !closed
    {
      this.reply := reply;
      inbuf, outbuf, unread, sent := "", "", "", "";
      reqState, queue, rspState, served := RequestLine, [], RspMeta, [];
      expected, bodyRead, aborted, closed := 0, 0, false, false;
    }

    /** process_inbuf_ */
    method ProcessInbuf() returns (wantMore: bool)
      requires Valid() && !aborted
      modifies this`inbuf, this`reqState, this`queue, this`aborted
      ensures (inbuf, RequestHalf()) == Digest(old(inbuf), old(RequestHalf()))
      ensures !aborted ==> Valid()
      ensures |inbuf| <= old(|inbuf|)
      ensures wantMore ==> Continues(Digest, old(inbuf), old(RequestHalf()), inbuf, RequestHalf())
    {
      var complete := false;
      ContinuesAtOnce(Digest, inbuf, RequestHalf());
      while !complete && !aborted && ReadLine(inbuf).Line?
        invariant complete ==> !aborted && (inbuf, RequestHalf()) == Digest(old(inbuf), old(RequestHalf()))
        invariant !complete ==> Continues(Digest, old(inbuf), old(RequestHalf()), inbuf, RequestHalf())
        invariant !aborted ==> |queue| <= MAX_PIPELINE_REQS && (rspState == RspBody ==> queue != [])
        decreases |inbuf|
      {
        var raw := ReadLine(inbuf).line;
        ghost var s, before := inbuf, RequestHalf();
        inbuf := ReadLine(inbuf).rest;
        if reqState == RequestLine {
          TakeRequestLine(raw);
        } else {
          complete := TakeRequestHeader(raw);
        }
        assert RequestHalf() == OnRequestText(before, raw);
        ContinuesNow(Digest, old(inbuf), old(RequestHalf()), s, before);
        if !complete {
          ContinuesLine(s, before);
          ContinuesOn(Digest, old(inbuf), old(RequestHalf()), s, before, inbuf, RequestHalf());
        }
      }
      if !complete { ContinuesNow(Digest, old(inbuf), old(RequestHalf()), inbuf, RequestHalf()); }
      wantMore := !complete;
    }

    /** process_inbuf_ as send_to_client uses it. */
    method PollInbuf(ghost inv: Server -> bool)
      requires Valid() && !aborted && KeptBySending(reply, inv) && inv(Now())
      modifies this`inbuf, this`reqState, this`queue, this`aborted
      ensures !aborted ==> Valid()
      ensures inv(Now())
      ensures |inbuf| < old(|inbuf|)
              || (inbuf == old(inbuf) && reqState == old(reqState) && queue == old(queue) && !aborted)
    {
      assert inbuf + "" == inbuf;
      var wantMore := ProcessInbuf();
      assert CanSend(old(Now()), Poll);
    }

    method TakeRequestLine(raw: string)
      requires reqState == RequestLine && !aborted && |queue| <= MAX_PIPELINE_REQS
      modifies this`reqState, this`queue, this`aborted
      ensures RequestHalf() == OnRequestLine(old(RequestHalf()), raw)
      ensures !aborted ==> |queue| <= MAX_PIPELINE_REQS && queue != []
    {
      var line := CString(raw);
      var g := FindFold(line, "GET ", 0);
      if g < 0 || At(line, g + 4) != '/' { aborted := true; return; }
      var sp := IndexOf(line, ' ', g + 4);
      if sp < 0 || |queue| >= MAX_PIPELINE_REQS { aborted := true; return; }
      queue := queue + [Job(line[g + 4..sp], -1)];
      reqState := RequestHeaders;
    }

    method TakeRequestHeader(raw: string) returns (complete: bool)
      requires reqState == RequestHeaders && !aborted && |queue| <= MAX_PIPELINE_REQS
      modifies this`reqState, this`queue, this`aborted
      ensures RequestHalf() == OnRequestHeader(old(RequestHalf()), raw)
      ensures |queue| == old(|queue|)
      ensures complete <==> reqState == RequestLine
      ensures complete ==> !aborted
    {
      var line := CString(raw);
      complete := false;
      if line == "" { reqState := RequestLine; return true; }
      if MatchesFold(line, 0, "Range: ") {
        match ParseRange(line, 7) {
          case BadRange => aborted := true;
          case RangeAt(from, to, _) =>
            if to != -1 || from < 0 || queue == [] { aborted := true; return; }
            queue := queue[..|queue| - 1] + [Job(queue[|queue| - 1].path, from)];
        }
      }
    }

    /** One pass of recv(): `s` and `k` are where this call began, `got` what it has read so far. */
    method RecvOnce(chunk: string, ghost s: string, ghost k: Intake, ghost got: string) returns (wantMore: bool)
      requires Valid() && !aborted && Continues(Digest, s + got, k, inbuf, RequestHalf())
      modifies this`inbuf, this`reqState, this`queue, this`aborted
      ensures !aborted ==> Valid()
      ensures (inbuf, RequestHalf()) == Digest(s + (got + chunk), k)
      ensures wantMore ==> Continues(Digest, s + (got + chunk), k, inbuf, RequestHalf())
    {
      ContinuesMore(Digest, s + got, k, inbuf, RequestHalf(), chunk);
      assert s + got + chunk == s + (got + chunk);
      inbuf := inbuf + chunk;
      ghost var s1, k1 := inbuf, RequestHalf();
      ContinuesNow(Digest, s + (got + chunk), k, s1, k1);
      wantMore := ProcessInbuf();
      if wantMore { ContinuesOn(Digest, s + (got + chunk), k, s1, k1, inbuf, RequestHalf()); }
    }

    /** recv_from_client: `chunks` are the octets successive recv() passes would return. Reading stops
        as soon as a request is queued; the result says how many passes were read. */
    method RecvFromClient(chunks: seq<string>) returns (taken: nat)
      requires Valid() && !aborted
      modifies this`inbuf, this`reqState, this`queue, this`aborted
      ensures taken <= |chunks|
      ensures !aborted ==> Valid()
      ensures old(queue) != [] ==> taken == 0
      ensures taken == 0 ==> Now() == old(Now())
      ensures taken > 0 ==> Now() == Arrive(old(Now()), Concat(chunks[..taken]))
    {
      taken := 0;
      var wantMore := true;
      ghost var s, k, got := inbuf, RequestHalf(), "";
      ContinuesAtOnce(Digest, s, k);
      while taken < |chunks| && wantMore && !aborted && |queue| < MAX_PIPELINE_REQS
        invariant taken <= |chunks| && (!aborted ==> Valid())
        invariant old(queue) != [] ==> taken == 0
        invariant taken == 0 ==> Now() == old(Now())
        invariant got == Concat(chunks[..taken])
        invariant taken > 0 ==> (inbuf, RequestHalf()) == Digest(s + got, k)
        invariant wantMore && !aborted ==> Continues(Digest, s + got, k, inbuf, RequestHalf())
        decreases |chunks| - taken
      {
        ConcatSnoc(chunks, taken);
        wantMore := RecvOnce(chunks[taken], s, k, got);
        got := got + chunks[taken];
        taken := taken + 1;
      }
    }

    // ---- send_to_client ----

    ghost predicate Below(i0: nat, q0: nat, meta0: bool, u0: nat) reads this {
      |inbuf| < i0 || (|inbuf| == i0 && (|queue| < q0 || (|queue| == q0 &&
      ((rspState != RspMeta && meta0) || ((rspState == RspMeta) == meta0 && |unread| < u0)))))
    }

    /** The HTTP_RSP_STATE_META case: print the response head and open the file. */
    method BeginResponse(ghost inv: Server -> bool)
      requires Valid() && queue != [] && rspState == RspMeta && !aborted && KeptBySending(reply, inv) && inv(Now())
      modifies this`outbuf, this`rspState, this`unread, this`expected, this`bodyRead, this`aborted, this`served
      ensures aborted <==> reply(queue[0]).NoReply?
      ensures !aborted ==> Valid() && rspState == RspBody && served == old(served) + [queue[0]]
      ensures inv(Now())
    {
      assert CanSend(Now(), Start);
      var job := queue[0];
      var r := reply(job);
      if r.NoReply? { aborted := true; return; }
      StreamStep(reply, served, job, r, sent, outbuf, unread);
      outbuf, unread, rspState := outbuf + r.head, r.body, RspBody;
      expected, bodyRead := |r.body|, 0;
      served := served + [job];
    }

    /** The file is read to its end: the front request is done. */
    method EndResponse()
      requires Valid() && rspState == RspBody && !aborted && unread == ""
      modifies this`inbuf, this`reqState, this`queue, this`rspState, this`expected, this`bodyRead, this`aborted
      ensures Now() == Arrive(old(Now()).(rsp := RspMeta, intake := old(RequestHalf()).(queue := old(queue)[1..])), "")
      ensures !aborted ==> Valid() && Below(old(|inbuf|), old(|queue|), false, 0)
      ensures rspState == RspMeta
      ensures old(inbuf) == "" ==> inbuf == "" && RequestHalf() == old(RequestHalf()).(queue := old(queue)[1..])
    {
      assert expected == bodyRead;   // myassert(numRespBodyBytesExpectedToSend_ == numBodyBytesRead_)
      bodyRead, expected := 0, 0;
      queue := queue[1..];
      rspState := RspMeta;
      assert inbuf + "" == inbuf;
      var wantMore := ProcessInbuf();
    }

    /** The HTTP_RSP_STATE_BODY case: one pass of read() into buffers with `room` octets in all. */
    method ReadFile(room: nat, ghost inv: Server -> bool)
      requires Valid() && rspState == RspBody && !aborted && room >= 1 && KeptBySending(reply, inv) && inv(Now())
      modifies this`inbuf, this`outbuf, this`reqState, this`queue, this`rspState, this`unread
      modifies this`expected, this`bodyRead, this`aborted
      ensures |old(unread)| >= room ==>
              inbuf == old(inbuf) && RequestHalf() == old(RequestHalf()) && rspState == RspBody
      ensures |old(unread)| < room ==> rspState == RspMeta
      ensures |old(unread)| < room && old(inbuf) == "" ==>
        inbuf == "" && RequestHalf() == old(RequestHalf()).(queue := old(queue)[1..])
      ensures !aborted ==> Valid() && Below(old(|inbuf|), old(|queue|), false, old(|unread|))
      ensures inv(Now())
    {
      assert CanSend(Now(), Fetch(room));
      var n := if room <= |unread| then room else |unread|;
      Cut(unread, n);
      Assoc3(sent, outbuf, unread[..n], unread[n..]);
      assert unread[..|unread|] == unread;
      outbuf := outbuf + unread[..n];
      unread := unread[n..];
      bodyRead := bodyRead + n;
      if n < room { EndResponse(); }
      assert Now() == ReadPass(old(Now()), room);
    }

    /** One write() of a nonempty prefix of outbuf_. */
    method WriteOnce(piece: nat, result: WriteResult, ghost inv: Server -> bool) returns (wouldBlock: bool)
      requires Valid() && outbuf != "" && 1 <= piece <= |outbuf| && !aborted && KeptBySending(reply, inv) && inv(Now())
      requires result.Wrote? ==> result.n <= piece
      modifies this`outbuf, this`sent, this`closed
      ensures Valid() && sent + outbuf == old(sent) + old(outbuf) && old(sent) <= sent
      ensures closed == (old(closed) || result.SocketError?)
      ensures wouldBlock || closed || |outbuf| < old(|outbuf|)
      ensures |outbuf| <= old(|outbuf|)
      ensures inv(Now())
    {
      match result {
        case WouldBlock => wouldBlock := true;
        case SocketError => closed := true; wouldBlock := false;
        case Wrote(n) =>
          assert CanSend(Now(), Accept(n));
          Cut(outbuf, n);
          Assoc2(sent, outbuf[..n], outbuf[n..]);
          sent := sent + outbuf[..n];
          outbuf := outbuf[n..];
          wouldBlock := n != piece;
      }
    }

    /** One pass of the fill loop: begin the front request's response, or read more of its file.
        After printing a head the switch falls through to the file when the socket blocks. */
    method FillOnce(wouldBlock: bool, ghost inv: Server -> bool) returns (sendNow: bool)
      requires Valid() && queue != [] && !aborted && KeptBySending(reply, inv) && inv(Now())
      modifies this`inbuf, this`outbuf, this`reqState, this`queue, this`rspState, this`unread
      modifies this`expected, this`bodyRead,
               this`aborted, this`served
      ensures !aborted ==> Valid() && Below(old(|inbuf|), old(|queue|), old(rspState) == RspMeta, old(|unread|))
      ensures sendNow ==> !wouldBlock
      ensures inv(Now())
      ensures old(inbuf) == "" && !aborted ==> Forward(old(queue), old(rspState), old(served), old(reqState))
      ensures old(inbuf) == "" && aborted ==> old(rspState) == RspMeta && reply(old(queue)[0]).NoReply?
    {
      if rspState == RspMeta {
        BeginResponse(inv);
        if aborted || !wouldBlock { return !wouldBlock; }
      }
      var room: nat :| 1 <= room <= 16384;
      ReadFile(room, inv);
      sendNow := false;
    }

    /** What the kernel may answer to a write() of `piece` octets. */
    method AnyWrite(piece: nat) returns (result: WriteResult)
      ensures result.Wrote? ==> result.n <= piece
    {
      if * { return WouldBlock; }
      if * { return SocketError; }
      var n: nat :| n <= piece;
      return Wrote(n);
    }

    /** With nothing in inbuf_, a call can only carry the front request forward. */
    ghost predicate Forward(queue0: seq<Job>, rsp0: RspState, served0: seq<Job>, state0: ReqState) reads this {
      && inbuf == "" && reqState == state0
      && (|| (served == served0 && queue == queue0 && rspState == rsp0)
          || (queue0 != [] && rsp0 == RspMeta && served == served0 + [queue0[0]] && queue == queue0
              && rspState == RspBody)
          || (queue0 != [] && queue == queue0[1..] && rspState == RspMeta &&
              served == if rsp0 == RspBody then served0 else served0 + [queue0[0]]))
    }

    /** `credit` bounds the label changes left before some octet must move; a full credit means one
        just did, and then `count` has just been reset. */
    ghost predicate Running(p: Pump, credit: int) reads this {
      && !aborted && !closed && Valid() && 0 <= credit <= 4
      && (p.at == AddMore ==> p.count <= 1 && credit >= 2)
      && (p.at == Fill ==> p.count <= 2 && credit >= 1 && (credit == 4 ==> p.count == 0))
      && (p.at == Fill && credit < 4 ==> !(|outbuf| >= READ_HIGH_WATER_MARK && p.wouldBlock))
      && (p.at == SendMore ==> p.count <= 3 && (credit >= 3 ==> p.count <= 1))
      && (p.at == SendMore && credit < 3 ==> queue == [] || (outbuf != "" && !p.wouldBlock))
      && (p.at == Exit && rspState == RspBody ==> |outbuf| >= READ_HIGH_WATER_MARK)
    }

    method AtAddMore(p: Pump, ghost credit: int, ghost inv: Server -> bool) returns (p': Pump, ghost credit': int)
      requires Running(p, credit) && p.at == AddMore && KeptBySending(reply, inv) && inv(Now())
      ensures inv(Now())
      modifies this`inbuf, this`reqState, this`queue, this`aborted
      ensures aborted || Running(p', credit')
      ensures p'.wouldBlock == p.wouldBlock
      ensures |inbuf| < old(|inbuf|) || (unchanged(this) && (p'.at == Exit || credit' < credit))
      ensures inbuf == old(inbuf) && p'.at == Exit ==> queue == [] || |outbuf| >= READ_HIGH_WATER_MARK
    {
      p', credit' := p.(count := p.count + 1), credit;
      if p'.written >= INBUF_CHECK {
        PollInbuf(inv);
        if aborted { return; }
        p' := p'.(written := 0);
      }
      assert p'.count < WATCHDOG;   // myassert(count < 0x2f)
      if queue == [] && outbuf == "" {
        PollInbuf(inv);
        p' := p'.(at := Exit);
      } else if |outbuf| >= READ_HIGH_WATER_MARK && p'.wouldBlock {
        p' := p'.(at := Exit);
      } else {
        p', credit' := p'.(at := Fill), credit - 1;
      }
    }

    method AtFill(p: Pump, ghost credit: int, ghost inv: Server -> bool) returns (p': Pump, ghost credit': int)
      requires Running(p, credit) && p.at == Fill && KeptBySending(reply, inv) && inv(Now())
      ensures inv(Now())
      modifies this`inbuf, this`outbuf, this`reqState, this`queue, this`rspState, this`unread
      modifies this`expected, this`bodyRead,
               this`aborted, this`served
      ensures aborted || Running(p', credit')
      ensures p'.wouldBlock == p.wouldBlock && p'.at != Exit
      ensures !aborted ==> Below(old(|inbuf|), old(|queue|), old(rspState) == RspMeta, old(|unread|)) ||
                           (unchanged(this) && credit' < credit)
      ensures old(inbuf) == "" && !aborted ==> Forward(old(queue), old(rspState), old(served), old(reqState))
      ensures old(inbuf) == "" && aborted ==>
              old(queue) != [] && old(rspState) == RspMeta && reply(old(queue)[0]).NoReply?
    {
      p', credit' := p, credit;
      if queue == [] || |outbuf| >= READ_HIGH_WATER_MARK {
        p', credit' := p.(at := SendMore, count := p.count + 1), credit - 1;
      } else if |outbuf| > 1 && !p.wouldBlock {
        p', credit' := p.(at := SendMore, count := 1), credit - 1;
      } else {
        var sendNow := FillOnce(p.wouldBlock, inv);
        if sendNow { p', credit' := p.(at := SendMore, count := 1), 3; }
        else { p', credit' := p.(count := 0), 4; }
      }
    }

    method AtSendMore(p: Pump, ghost credit: int, ghost inv: Server -> bool) returns (p': Pump, ghost credit': int)
      requires Running(p, credit) && p.at == SendMore && KeptBySending(reply, inv) && inv(Now())
      ensures inv(Now())
      modifies this`outbuf, this`sent, this`closed
      ensures !aborted && Valid() && (closed || Running(p', credit')) && old(sent) <= sent
      ensures closed || |outbuf| < old(|outbuf|) ||
              (|outbuf| == old(|outbuf|) && !p.wouldBlock && p'.wouldBlock) ||
              (unchanged(this) && p'.wouldBlock == p.wouldBlock && (p'.at == Exit || credit' < credit))
      ensures |outbuf| <= old(|outbuf|)
      ensures p'.at == Exit ==> queue == []
    {
      p', credit' := p, credit;
      if outbuf != "" && !p.wouldBlock {
        var piece: nat :| 1 <= piece <= |outbuf|;
        var result := AnyWrite(piece);
        var wouldBlock := WriteOnce(piece, result, inv);
        p' := p.(count := 0, wouldBlock := wouldBlock, written := p.written + if result.Wrote? then result.n else 0);
        credit' := 4;
      } else if queue != [] {
        p', credit' := p.(at := AddMore), credit - 1;
      } else {
        p' := p.(at := Exit);
      }
    }

    method Turn(p: Pump, ghost credit: int, ghost inv: Server -> bool) returns (p': Pump, ghost credit': int)
      requires Running(p, credit) && p.at != Exit && KeptBySending(reply, inv) && inv(Now())
      ensures inv(Now())
      modifies this
      ensures aborted || closed || Running(p', credit')
      ensures closed && !aborted ==> Valid()
      ensures old(sent) <= sent
      ensures !aborted && !closed ==>
        || Below(old(|inbuf|), old(|queue|), old(rspState) == RspMeta, old(|unread|))
        || (inbuf == old(inbuf) && queue == old(queue) && rspState == old(rspState) && unread == old(unread) &&
            (|| |outbuf| < old(|outbuf|)
             || (|outbuf| == old(|outbuf|) &&
                 (|| (!p.wouldBlock && p'.wouldBlock)
                  || (p'.wouldBlock == p.wouldBlock && (p'.at == Exit || credit' < credit))))))
      ensures old(inbuf) == "" && !aborted ==> Forward(old(queue), old(rspState), old(served), old(reqState))
      ensures old(inbuf) == "" && !aborted && p'.at == Exit ==> queue == [] || |outbuf| >= READ_HIGH_WATER_MARK
      ensures old(inbuf) == "" && aborted ==>
              old(queue) != [] && old(rspState) == RspMeta && reply(old(queue)[0]).NoReply?
    {
      match p.at {
        case AddMore => p', credit' := AtAddMore(p, credit, inv);
        case Fill => p', credit' := AtFill(p, credit, inv);
        case SendMore => p', credit' := AtSendMore(p, credit, inv);
      }
    }

    /** send_to_client, for every sequence of read sizes and write results. It always returns, its
        watchdog never fires, and it leaves a response half-read only because the buffer is over the
        high-water mark and the socket blocks. */
    method SendToClient(ghost inv: Server -> bool)
      requires Valid() && !aborted && !closed && KeptBySending(reply, inv) && inv(Now())
      modifies this
      ensures !aborted ==> Valid()
      ensures inv(Now())
      ensures !aborted && !closed && rspState == RspBody ==> |outbuf| >= READ_HIGH_WATER_MARK
      ensures old(sent) <= sent
      ensures old(inbuf) == "" && !aborted ==>
        && Forward(old(queue), old(rspState), old(served), old(reqState))
        && (closed || queue == [] || |outbuf| >= READ_HIGH_WATER_MARK)
      ensures old(inbuf) == "" && aborted ==>
        old(queue) != [] && old(rspState) == RspMeta && reply(old(queue)[0]).NoReply?
    {
      var p := Pump(AddMore, false, 0, 0);
      ghost var credit := 4;
      while p.at != Exit
        invariant Running(p, credit) && old(sent) <= sent && inv(Now())
        invariant old(inbuf) == "" ==> Forward(old(queue), old(rspState), old(served), old(reqState))
        invariant old(inbuf) == "" && p.at == Exit ==> queue == [] || |outbuf| >= READ_HIGH_WATER_MARK
        decreases |inbuf|, |queue|, rspState == RspMeta, |unread|, |outbuf|, !p.wouldBlock, p.at != Exit, credit
      {
        p, credit := Turn(p, credit, inv);
        if aborted || closed { return; }
      }
    }
  }
}
