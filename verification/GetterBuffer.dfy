/** The filegetter object: one fixed buffer with two offsets, proved against FileGetter. */
module GetterBuffer {
  import opened Text
  import opened Decimal
  import opened FileTransfer
  import opened FileGetter

  /** What the model makes of a list of system calls. */
  function Apply(plan: Plan, s: (Getter, Outcome), e: Event): (Getter, Outcome)
    requires e.Sent? ==> s.0.phase.Sending? && e.n <= |s.0.data|
    requires e.Got? ==> s.0.phase.Receiving?
  {
    match e
    case Sent(n) => (OnSent(s.0, n), s.1)
    case Got(chunk) => OnReceived(plan, s.0, chunk)
  }

  /** The system call the getter is about to make can end this way. */
  predicate Fits(s: (Getter, Outcome), e: Event) {
    s.1 == Going &&
    match e
    case Sent(n) => s.0.phase.Sending? && 1 <= n <= |s.0.data|
    case Got(chunk) => s.0.phase.Receiving? && 1 <= |chunk| <= BUF_SIZE - (s.0.rd + |s.0.data|)
  }

  function ApplyAll(plan: Plan, s: (Getter, Outcome), events: seq<Event>): (Getter, Outcome)
    decreases |events|
  {
    if events == [] || !Fits(s, events[0]) then s else ApplyAll(plan, Apply(plan, s, events[0]), events[1..])
  }

  /** Every call is one the environment of FileGetter allows. */
  predicate Conforming(plan: Plan, port: string, whole: string, w: World, events: seq<Event>)
    decreases |events|
  {
    events == []
      || (Can(plan, port, whole, w, events[0]) && Conforming(plan, port, whole, Next(plan, w, events[0]), events[1..]))
  }

  /** So an activation of the object is a piece of a run of FileGetter. */
  lemma {:induction false} ActivationsAreRuns(plan: Plan, port: string, whole: string, w: World, events: seq<Event>)
    requires Conforming(plan, port, whole, w, events)
    ensures ApplyAll(plan, (w.g, w.outcome), events) ==
            (Run(plan, port, whole, w, events).g, Run(plan, port, whole, w, events).outcome)
    decreases |events|
  {
    if events != [] { ActivationsAreRuns(plan, port, whole, Next(plan, w, events[0]), events[1..]); }
  }

  class Buffer {
    const plan: Plan
    const buf: array<char>
    var rd: nat
    var wr: nat
    var phase: Phase
    var expected: int
    var got: nat
    var content: string
    var outcome: Outcome

    ghost predicate Valid() reads this { buf.Length == BUF_SIZE && rd <= wr <= BUF_SIZE }

    ghost function Now(): Getter
      requires Valid()
      reads this, buf
    {
      Getter(phase, rd, buf[rd..wr], expected, got, content)
    }

    /** filegetter_download on a fresh connection. */
    constructor (plan: Plan)
      requires |Start(plan).data| <= BUF_SIZE
      ensures Valid() && fresh(buf) && this.plan == plan && Now() == Start(plan) && outcome == Going
    {
      var text := if plan.proxied then GREETING else GetRequest(plan.path, plan.host);
      this.plan := plan;
      buf := new char[BUF_SIZE](i => if 0 <= i < |text| then text[i] else '\0');
      rd, wr := 0, |text|;
      phase := if plan.proxied then Sending(GreetingReply) else Sending(HttpReply);
      expected, got, content, outcome := 0, 0, "", Going;
      new;
      assert buf[rd..wr] == text;
    }

    lemma Window(i: nat, j: nat)
      requires Valid() && i <= j <= wr - rd
      ensures buf[rd..wr][i..j] == buf[rd + i..rd + j]
      ensures j == wr - rd ==> buf[rd..wr][i..] == buf[rd + i..wr]
    {
      assert forall k | 0 <= k < j - i :: buf[rd..wr][i..j][k] == buf[rd + i..rd + j][k];
    }

    /** memcpy to the write offset. */
    method Put(text: string)
      requires Valid() && wr + |text| <= BUF_SIZE
      modifies buf, this`wr
      ensures Valid() && wr == old(wr) + |text| && buf[rd..wr] == old(buf[rd..wr]) + text
    {
      for i := 0 to |text|
        modifies buf
        invariant forall j | rd <= j < wr :: buf[j] == old(buf[j])
        invariant forall j | 0 <= j < i :: buf[wr + j] == text[j]
      {
        buf[wr + i] := text[i];
      }
      assert buf[rd..wr + |text|] == old(buf[rd..wr]) + text;
      wr := wr + |text|;
    }

    /** FG_SEND, after send() accepted `n` octets. */
    method TakeSent(n: nat)
      requires Valid() && phase.Sending? && n <= wr - rd
      modifies this`rd, this`wr, this`phase
      ensures Valid() && Now() == OnSent(old(Now()), n)
    {
      Window(n, wr - rd);
      rd := rd + n;
      if rd == wr {
        rd, wr := 0, 0;
        phase := Receiving(phase.next);
      }
    }

    method TakeGreetingReply()
      requires Valid() && phase == Receiving(GreetingReply) && outcome == Going
      modifies buf, this`rd, this`wr, this`phase, this`outcome
      ensures Valid() && (Now(), outcome) == OnGreetingReply(plan, old(Now()))
    {
      if wr - rd < 2 { return; }
      Window(2, wr - rd);
      if buf[rd] != '\U{05}' || buf[rd + 1] != '\U{00}' { phase, outcome := Stuck, ErrSocksInit; return; }
      var request := ConnectRequest(plan.target);
      if BUF_SIZE - wr < |request| { phase, outcome := Stuck, Overrun; return; }
      rd := rd + 2;
      Put(request);
      phase := Sending(ConnectReply);
    }

    method TakeConnectReply()
      requires Valid() && phase == Receiving(ConnectReply) && outcome == Going
      modifies buf, this`rd, this`wr, this`phase, this`outcome
      ensures Valid() && (Now(), outcome) == OnConnectReply(plan, old(Now()))
    {
      match Verdict(buf[rd..wr]) {
        case Short =>
        case Refused => phase, outcome := Stuck, ErrSocksConn;
        case Elsewhere => phase, outcome := Stuck, Reconnect;
        case Granted => AskForFile();
      }
    }

    /** FG_REQUEST_HTTP, behind a SOCKS reply that has been read. */
    method AskForFile()
      requires Valid() && phase == Receiving(ConnectReply) && outcome == Going && wr - rd >= 10
      requires Verdict(buf[rd..wr]) == Granted
      modifies buf, this`rd, this`wr, this`phase, this`outcome
      ensures Valid() && (Now(), outcome) == OnConnectReply(plan, old(Now()))
    {
      Window(10, wr - rd);
      var request := GetRequest(plan.path, plan.host);
      if BUF_SIZE - wr <= |request| { phase, outcome := Stuck, Overrun; return; }
      rd := rd + 10;
      Put(request);
      phase := Sending(HttpReply);
    }

    /** FG_CHECK_DOWNLOAD */
    method CheckDownload()
      requires Valid() && outcome == Going
      modifies this`rd, this`wr, this`phase, this`outcome, this`got, this`content
      ensures Valid() && (Now(), outcome) == Check(old(Now()))
    {
      got := got + (wr - rd);
      content := content + buf[rd..wr];
      rd, wr := 0, 0;
      if got >= expected { phase, outcome := Spec, Ok200; } else { phase := Receiving(Download); }
    }

    /** Move the read offset over the head and what ends it. */
    method Skip(k: nat)
      requires Valid() && k <= wr - rd
      modifies this`rd
      ensures Valid() && Now() == old(Now()).(rd := old(rd) + k, data := old(buf[rd..wr])[k..])
    {
      Window(k, wr - rd);
      rd := rd + k;
    }

    /** The head is complete: the rest of the buffer is the first of the body. */
    method BeginBody(skip: nat, length: int)
      requires Valid() && outcome == Going && skip <= wr - rd
      modifies this`rd, this`wr, this`phase, this`outcome, this`got, this`content, this`expected
      ensures Valid()
      ensures (Now(), outcome) ==
              Check(old(Now()).(expected := length, rd := old(rd) + skip, data := old(buf[rd..wr])[skip..]))
    {
      Skip(skip);
      expected := length;
      CheckDownload();
    }

    /** FG_REPLY_HTTP, given what the string functions find. */
    method ActOn(head: Head)
      requires Valid() && phase == Receiving(HttpReply) && outcome == Going && wr < BUF_SIZE
      requires (head.Missing? ==> |NOT_FOUND| <= wr - rd) && (head.Complete? ==> head.blank + 4 <= wr - rd)
      modifies this`rd, this`wr, this`phase, this`outcome, this`got, this`content, this`expected
      ensures Valid() && (Now(), outcome) == OnHead(old(Now()), head)
    {
      match head {
        case Missing =>
          Skip(|NOT_FOUND|);
          phase, outcome := Spec, Err404;
        case More =>
        case Malformed => phase, outcome := Stuck, Fatal;
        case Complete(blank, length) => BeginBody(blank + 4, length);
      }
    }

    /** FG_REPLY_HTTP */
    method TakeHttpReply()
      requires Valid() && phase == Receiving(HttpReply) && outcome == Going
      modifies this`rd, this`wr, this`phase, this`outcome, this`got, this`content, this`expected
      ensures Valid() && (Now(), outcome) == OnHttpReply(old(Now()))
    {
      if wr == BUF_SIZE { phase, outcome := Stuck, Overrun; return; }
      ActOn(Analyse(buf[rd..wr]));
    }

    /** FG_RECEIVE and the state behind it, when recv() returned `chunk`. */
    method TakeReceived(chunk: string)
      requires Valid() && phase.Receiving? && outcome == Going && |chunk| <= BUF_SIZE - wr
      modifies this`rd, this`wr, this`phase, this`outcome, this`got, this`content, this`expected, buf
      ensures Valid() && (Now(), outcome) == OnReceived(plan, old(Now()), chunk)
    {
      Put(chunk);
      match phase.want {
        case GreetingReply => TakeGreetingReply();
        case ConnectReply => TakeConnectReply();
        case HttpReply => TakeHttpReply();
        case Download => CheckDownload();
      }
    }

    /** filegetter_activate: `events` are the system calls that do not block, in order. It returns at the
        first that does, or with a result. */
    method Activate(events: seq<Event>) returns (used: nat)
      requires Valid() && outcome == Going
      modifies this`rd, this`wr, this`phase, this`outcome, this`got, this`content, this`expected, buf
      ensures Valid() && used <= |events| && (Now(), outcome) == ApplyAll(plan, (old(Now()), Going), events)
    {
      used := 0;
      while used < |events| && outcome == Going
        invariant Valid() && used <= |events|
        invariant ApplyAll(plan, (Now(), outcome), events[used..]) == ApplyAll(plan, (old(Now()), Going), events)
        decreases |events| - used
      {
        assert events[used..][0] == events[used] && events[used..][1..] == events[used + 1..];
        match events[used] {
          case Sent(n) =>
            if !phase.Sending? || n < 1 || n > wr - rd { return; }
            TakeSent(n);
          case Got(chunk) =>
            if !phase.Receiving? || chunk == "" || |chunk| > BUF_SIZE - wr { return; }
            TakeReceived(chunk);
        }
        used := used + 1;
      }
    }
  }
}
