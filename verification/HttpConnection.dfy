/** The Connection object itself: the loops of http_receive proved against the small-step parser. */
module HttpConnection {
  import opened Text
  import opened Decimal
  import opened HttpParse
  import opened LineMachine
  import opened HttpClient

  function Took(c: Conn, k: nat): Conn
    requires k <= |c.inbuf|
  {
    Buffered(c.inbuf[k..], c.st.(got := c.st.got + c.inbuf[..k], bodyLen := c.st.bodyLen - k))
  }

  /** Where the parser ends up from inside the body loop, before the `body_len_ == 0` test. */
  function Outcome(c: Conn): Conn
    requires c.st.active != []
  {
    Drain(CLIENT, if c.st.bodyLen == 0 then Buffered(c.inbuf, Finish(c.st)) else c)
  }

  /** A body piece of any size is taken as that many single octets. */
  lemma {:induction false} BodyPiece(c: Conn, k: nat)
    requires c.st.phase == Body && c.st.active != [] && 1 <= k <= |c.inbuf| && k <= c.st.bodyLen
    ensures Outcome(c) == Outcome(Took(c, k))
    decreases k
  {
    if k == 1 {
      assert c.inbuf[..1] == [c.inbuf[0]];
    } else {
      BodyPiece(c, 1);
      BodyPiece(Took(c, 1), k - 1);
      TookTwice(c, k);
    }
  }

  lemma TookTwice(c: Conn, k: nat)
    requires 1 <= k <= |c.inbuf|
    ensures Took(Took(c, 1), k - 1) == Took(c, k)
  {
    assert c.inbuf[1..][k - 1..] == c.inbuf[k..];
    assert c.st.got + c.inbuf[..1] + c.inbuf[1..][..k - 1] == c.st.got + c.inbuf[..k];
  }

  class Connection {
    var inbuf: string
    var outbuf: string
    var phase: Phase
    var status: int
    var bodyLen: int
    var first: nat
    var headers: seq<(string, string)>
    var submitted: seq<Get>
    var active: seq<Get>
    var got: string
    var log: seq<Notice>

    ghost predicate Valid() reads this {
      phase == Body ==> bodyLen > 0 && active != []
    }

    /** The parser's value, given the call's local content_range_found. */
    ghost function Now(found: bool): Conn reads this {
      Buffered(inbuf, State(outbuf, phase, status, bodyLen, first, headers, phase == Headers && found,
                        submitted, active, got, log))
    }

    constructor ()
      ensures Valid() && Now(false) == Buffered("", Fresh)
    {
      inbuf, outbuf, phase, status, bodyLen, first := "", "", StatusLine, -1, -1, 0;
      headers, submitted, active, got, log := [], [], [], "", [];
    }

    method HttpWriteToOutbuf()
      requires Valid()
      modifies this
      ensures Valid() && phase == old(phase)
      ensures forall f :: Now(f) == Buffered(old(inbuf), WriteToOutbuf(old(Now(f)).st))
    {
      if submitted == [] { return; }
      if active != [] { return; }
      var g := submitted[0];
      submitted := submitted[1..];
      outbuf := outbuf + Head(RequestLines(g));
      first := g.first;
      active := [g];
    }

    method SubmitRequest(g: Get)
      requires Valid()
      modifies this
      ensures Valid() && Now(false) == Buffered(old(inbuf), Submit(old(Now(false)).st, g))
    {
      submitted := submitted + [g];
      HttpWriteToOutbuf();
    }

    /** The HTTP branch of send_: hand a prefix of outbuf_ to the socket, as much as it accepts. */
    method Send(accepted: nat) returns (wire: string)
      requires Valid()
      modifies this
      ensures Valid()
      ensures var s := WriteToOutbuf(old(Now(false)).st);
              wire <= s.outbuf && |wire| <= accepted &&
              Now(false) == Buffered(old(inbuf), s.(outbuf := s.outbuf[|wire|..]))
    {
      HttpWriteToOutbuf();
      var k := if accepted <= |outbuf| then accepted else |outbuf|;
      wire := outbuf[..k];
      outbuf := outbuf[k..];
    }

    /** The `handle_response` loop: process inbuf_ until it wants more octets. */
    method HandleResponse(found0: bool) returns (found: bool)
      requires Valid()
      modifies this
      ensures Valid() && Now(found) == Drain(CLIENT, old(Now(found0)))
    {
      found := found0;
      var wantMore := false;
      while !wantMore
        invariant Valid()
        invariant Drain(CLIENT, Now(found)) == Drain(CLIENT, old(Now(found0)))
        invariant wantMore ==> !Enabled(CLIENT, Now(found))
        decreases |inbuf|, !wantMore
      {
        found, wantMore := HandleOnce(found);
      }
    }

    /** One pass through the switch over http_rsp_state_. */
    method HandleOnce(found0: bool) returns (found: bool, wantMore: bool)
      requires Valid()
      modifies this
      ensures Valid() && Drain(CLIENT, Now(found)) == Drain(CLIENT, old(Now(found0)))
      ensures wantMore ==> !Enabled(CLIENT, Now(found)) && |inbuf| == old(|inbuf|)
      ensures !wantMore ==> |inbuf| < old(|inbuf|)
    {
      found, wantMore := found0, false;
      if phase == Aborted || (phase == Body && inbuf == "") { return found0, true; }
      if phase == Body { TakeBody(found); return; }
      match ReadLine(inbuf) {
        case NoLine => wantMore := true;
        case Line(line, rest) =>
          ghost var c := Now(found);
          if phase == StatusLine { found := TakeStatusLine(line, rest, found); }
          else { found := TakeHeaderLine(line, rest, found); }
          assert Drain(CLIENT, c) == Drain(CLIENT, Step(CLIENT, c));
      }
    }

    method TakeStatusLine(raw: string, rest: string, found0: bool) returns (found: bool)
      requires Valid() && phase == StatusLine && ReadLine(inbuf) == Line(raw, rest)
      modifies this
      ensures Valid() && Now(found) == Buffered(rest, OnStatusLine(old(Now(found0)).st, raw))
    {
      inbuf := rest;
      found := found0;
      var line := CString(raw);
      var sp := IndexOf(line, ' ', 0);
      if sp < 0 { phase := Aborted; return; }
      status := Wrap32(Strtol(line[sp + 1..]));
      if status != 200 && status != 206 { phase := Aborted; return; }
      phase := Headers;
      found := false;
    }

    method TakeHeaderLine(raw: string, rest: string, found0: bool) returns (found: bool)
      requires Valid() && phase == Headers && ReadLine(inbuf) == Line(raw, rest)
      modifies this
      ensures Valid() && Now(found) == Buffered(rest, OnHeaderLine(old(Now(found0)).st, raw))
    {
      inbuf := rest;
      found := found0;
      var line := CString(raw);
      if line == "" { TakeHeadEnd(found); return; }
      var colon := IndexOf(line, ':', 0);
      if colon < 0 || colon + 2 > |line| { phase := Aborted; return; }
      headers := headers + [(line[..colon], line[colon + 2..])];
      found := TakeHeader(line[..colon], line[colon + 2..], found);
    }

    method TakeHeader(name: string, value: string, found0: bool) returns (found: bool)
      requires Valid() && phase == Headers
      modifies this
      ensures Valid() && Now(found) == Buffered(old(inbuf), OnHeader(old(Now(found0)).st, name, value))
    {
      found := found0;
      if EqualFold(name, "content-length") {
        bodyLen := Strtol(value);
      } else if EqualFold(name, "content-range") {
        match ParseContentRange(value, 0) {
          case BadContentRange => phase := Aborted;
          case ContentRangeAt(f, last, full, _) =>
            if f != first || full - 1 != last { phase := Aborted; return; }
            found := true;
        }
      }
    }

    method TakeHeadEnd(found: bool)
      requires Valid() && phase == Headers
      modifies this
      ensures Valid() && Now(found) == Buffered(old(inbuf), OnHeadEnd(old(Now(found)).st))
    {
      if bodyLen < 0 || (!found && first > 0) || active == [] { phase := Aborted; return; }
      log := log + [Meta(status, headers)];
      headers := [];
      phase := if bodyLen == 0 then Aborted else Body;
    }

    /** The HTTP_RSP_STATE_BODY case; evbuffer_peek hands out pieces of any size. */
    method TakeBody(ghost found: bool)
      requires Valid() && phase == Body && inbuf != ""
      modifies this
      ensures Valid() && |inbuf| < old(|inbuf|)
      ensures Drain(CLIENT, Now(found)) == Drain(CLIENT, old(Now(found)))
    {
      ghost var goal := Drain(CLIENT, Now(found));
      while inbuf != "" && bodyLen > 0
        invariant phase == Body && active != [] && bodyLen >= 0
        invariant |inbuf| <= old(|inbuf|) && (|inbuf| == old(|inbuf|) ==> bodyLen > 0)
        invariant goal == Outcome(Now(found))
        decreases |inbuf|
      {
        TakePiece(found);
      }
      if bodyLen == 0 {
        FinishRequest(found);
      }
    }

    /** One piece handed out by evbuffer_peek. */
    method TakePiece(ghost found: bool)
      requires phase == Body && active != [] && inbuf != "" && bodyLen > 0
      modifies this`got, this`bodyLen, this`inbuf
      ensures bodyLen >= 0 && |inbuf| < old(|inbuf|) && Outcome(Now(found)) == Outcome(old(Now(found)))
    {
      ghost var c := Now(found);
      var most := if bodyLen <= |inbuf| then bodyLen else |inbuf|;
      var k: int :| 1 <= k <= most;
      BodyPiece(c, k);
      got := got + inbuf[..k];
      bodyLen := bodyLen - k;
      inbuf := inbuf[k..];
      assert Now(found) == Took(c, k);
    }

    method FinishRequest(ghost found: bool)
      requires phase == Body && active != []
      modifies this
      ensures Valid() && Now(found) == Buffered(old(inbuf), Finish(old(Now(found)).st))
    {
      active := active[1..];
      log := log + [Done(got)];
      got := "";
      bodyLen := -1;
      phase := StatusLine;
      HttpWriteToOutbuf();
    }

    /** http_receive: `chunks` are the results of the recv() passes of this call, `eof` whether the
        last one saw the peer's close. Reports whether the connection is still usable. */
    method HttpReceive(chunks: seq<string>, eof: bool) returns (usable: bool)
      requires Valid()
      modifies this
      ensures Valid() && Now(false) == Call(CLIENT, HTTP_RECEIVE, old(Now(false)), chunks)
      ensures usable == (old(active) != [] && !eof)
    {
      if active == [] { return false; }
      var found := false;
      for i := 0 to |chunks|
        invariant Valid()
        invariant Now(found) == ReceiveAll(CLIENT, old(Now(false)), chunks[..i])
      {
        assert chunks[..i + 1][..i] == chunks[..i];
        inbuf := inbuf + chunks[i];
        found := HandleResponse(found);
      }
      assert chunks[..|chunks|] == chunks;
      usable := !eof;
    }
  }
}
