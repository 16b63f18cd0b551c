/** filetransfer/fileserver.c: reading one request and sending one reply through a fixed buffer. */
module FileServer {
  import opened Text
  import opened Decimal
  import opened FileTransfer

  // ---- the request ----

  datatype Asked = More | Path(path: string) | Refused

  /** The path between the two places found, if it fits. */
  function Cut(text: string, from: nat, to: int): Asked
    requires from <= |text| && to <= |text|
  {
    if to <= from || to - from > STR_SIZE - 1 then Refused else Path(text[from..to])
  }

  function ParseText(text: string): Asked {
    var g := FindFold(text, "GET ", 0);
    if g < 0 then Refused else Cut(text, g + 4, FindFold(text, " ", g + 4))
  }

  /** FS_REQUEST, on what the request buffer holds. */
  function Parse(buf: string): Asked {
    if Has(CString(buf), END) then ParseText(CString(buf)) else More
  }

  predicate PlainName(s: string) { '\r' !in s && '\0' !in s }

  predicate PlainPath(path: string) { PlainName(path) && ' ' !in path && 1 <= |path| <= STR_SIZE - 1 }

  lemma RequestParts(path: string, host: string)
    ensures var q := GetRequest(path, host); var k := 4 + |path| + 17 + |host|;
            && |q| == k + 4 && q[..4] == "GET " && q[4..4 + |path|] == path && q[4 + |path|] == ' '
            && q[4 + |path|..4 + |path| + 17] == " HTTP/1.1\r\nHost: " && q[k - |host|..k] == host && q[k..] == END
  {
  }

  lemma RequestReturns(path: string, host: string, j: nat)
    requires PlainName(path) && PlainName(host)
    ensures var q := GetRequest(path, host); var k := 4 + |path| + 17 + |host|;
            j < k && q[j] == '\r' ==> j == 4 + |path| + 9
  {
    var q, p, k := GetRequest(path, host), 4 + |path|, 4 + |path| + 17 + |host|;
    RequestParts(path, host);
    if j < 4 { assert q[j] == q[..4][j]; }
    else if j < p { assert q[j] == q[4..p][j - 4] == path[j - 4]; }
    else if j < p + 17 { assert q[j] == q[p..p + 17][j - p]; }
    else if j < k { assert q[j] == q[k - |host|..k][j - (p + 17)] == host[j - (p + 17)]; }
  }

  lemma RequestPlain(path: string, host: string)
    requires PlainName(path) && PlainName(host)
    ensures '\0' !in GetRequest(path, host)
  {
  }

  /** Part of the request holds no blank line before its end. */
  lemma RequestEnd(path: string, host: string, m: nat)
    requires PlainName(path) && PlainName(host) && m <= |GetRequest(path, host)|
    ensures Has(GetRequest(path, host)[..m], END) <==> m == |GetRequest(path, host)|
  {
    var q, k := GetRequest(path, host), 4 + |path| + 17 + |host|;
    var b := q[..m];
    RequestParts(path, host);
    forall j | 0 <= j < k ensures !MatchesFold(b, j, END) {
      MatchChar(b, j, END, 0);
      MatchChar(b, j, END, 2);
      RequestReturns(path, host, j);
      RequestReturns(path, host, j + 2);
      assert j + 2 >= k ==> j + 2 < |b| ==> b[j + 2] == q[k..][j + 2 - k];
      assert END[0] == '\r' && END[2] == '\r' && END[1] == '\n';
    }
    if m == |q| {
      assert b == q && q[k..k + 4] == END;
      HasMatch(b, END, 0, k);
    } else {
      FindFoldNone(b, END, 0);
    }
  }

  lemma PathAt(q: string, path: string)
    requires PlainPath(path) && |q| > 4 + |path| && q[..4] == "GET " && q[4..4 + |path|] == path && q[4 + |path|] == ' '
    ensures ParseText(q) == Path(path)
  {
    var k := 4 + |path|;
    assert q[0..4] == "GET ";
    FindFoldIs(q, "GET ", 0, 0);
    forall j | 4 <= j < k ensures !MatchesFold(q, j, " ") {
      MatchChar(q, j, " ", 0);
      assert q[j] == q[4..k][j - 4] == path[j - 4];
    }
    assert q[k..k + 1] == " ";
    FindFoldIs(q, " ", 4, k);
  }

  /** However the request is cut by recv(), the server waits for all of it and then has the path. */
  lemma RequestRead(path: string, host: string, m: nat)
    requires PlainPath(path) && PlainName(host) && m <= |GetRequest(path, host)|
    ensures Parse(GetRequest(path, host)[..m]) == if m < |GetRequest(path, host)| then More else Path(path)
  {
    var q := GetRequest(path, host);
    RequestPlain(path, host);
    CStringOfClean(q[..m]);
    RequestEnd(path, host, m);
    if m == |q| {
      assert q[..m] == q;
      RequestParts(path, host);
      PathAt(q, path);
    }
  }

  // ---- the reply ----

  datatype Phase = FileContinue | Sending | Idle | Gone

  /** `out` is buf[buf_read_offset..buf_write_offset], `wr` the write offset, `unread` what fread() has
      still to return; `sent` is everything the socket has accepted. */
  datatype Reply = Reply(phase: Phase, out: string, wr: nat, unread: string, open: bool, sent: string, done: bool)

  /** FS_REPLY_404_START and FS_REPLY_FILE_START. */
  function NotFound(): Reply { Reply(Sending, NOT_FOUND, |NOT_FOUND|, "", false, "", false) }

  function Found(content: string): Reply
  {
    var head := ReplyHead(|content|);
    if content == "" then Reply(Sending, head, |head|, "", false, "", false)
    else Reply(FileContinue, head, |head|, content, true, "", false)
  }

  function Min(a: nat, b: nat): nat { if a <= b then a else b }

  /** FS_REPLY_FILE_CONTINUE: one fread() of all the space there is. Only a short one meets the end of
      the file, and only then is the file closed. */
  function Fill(r: Reply): (r': Reply)
    requires r.wr <= BUF_SIZE
    ensures r'.wr <= BUF_SIZE
  {
    var space := BUF_SIZE - r.wr;
    if space == 0 || r.unread == "" then r else
    var k := Min(space, |r.unread|);
    var r1 := r.(out := r.out + r.unread[..k], wr := r.wr + k, unread := r.unread[k..]);
    if space > |r.unread| then r1.(open := false, phase := Sending) else r1
  }

  /** FS_REPLY_SEND, when send() has accepted `n` octets. */
  function AfterSend(r: Reply, n: nat): (r': Reply)
    requires n <= |r.out|
    ensures r'.wr <= r.wr
  {
    if n == 0 then r.(phase := Gone) else
    var r1 := r.(out := r.out[n..], sent := r.sent + r.out[..n]);
    if r1.out != "" then r1
    else if r1.open then r1.(wr := 0)
    else r1.(wr := 0, done := true, phase := Idle)
  }

  /** What send() does with a nonempty buffer; of an empty one it sends nothing. */
  datatype SendResult = WouldBlock | SocketError | Accepted(n: nat)

  predicate Plausible(r: Reply, e: SendResult) { e.Accepted? ==> e.n <= |r.out| && (e.n == 0 <==> r.out == "") }

  function Filled(r: Reply): (r': Reply)
    requires r.wr <= BUF_SIZE
    ensures r'.wr <= BUF_SIZE
  {
    if r.phase == FileContinue then Fill(r) else r
  }

  predicate Over(r: Reply) { r.phase == Idle || r.phase == Gone }

  /** One turn of the `goto start` loop. */
  function Turn(r: Reply, e: SendResult): (r': Reply)
    requires r.wr <= BUF_SIZE && Plausible(Filled(r), e)
    ensures r'.wr <= BUF_SIZE
  {
    match e
    case WouldBlock => Filled(r)
    case SocketError => Filled(r).(phase := Gone)
    case Accepted(n) => AfterSend(Filled(r), n)
  }

  /** What has been sent, what is in the buffer and what is still in the file make up the reply. */
  predicate Sound(r: Reply, whole: string) {
    && r.sent + r.out + r.unread == whole && |r.out| <= r.wr <= BUF_SIZE
    && (r.phase == FileContinue ==> r.open) && (r.phase == Sending ==> !r.open && r.unread == "" && r.out != "")
    && (r.phase == Idle <==> r.done) && (r.done ==> r.out == "" && r.unread == "")
    && (r.out == "" && r.phase == FileContinue ==> r.wr == 0)
  }

  lemma FillSound(r: Reply, whole: string)
    requires Sound(r, whole) && r.phase == FileContinue
    ensures Sound(Fill(r), whole) && Fill(r).sent == r.sent
    ensures (Fill(r).out == "" ==> Fill(r).unread == "" && Fill(r).open)
  {
    var k := Min(BUF_SIZE - r.wr, |r.unread|);
    assert r.unread == r.unread[..k] + r.unread[k..];
    assert r.sent + (r.out + r.unread[..k]) + r.unread[k..] == r.sent + r.out + (r.unread[..k] + r.unread[k..]);
  }

  lemma AfterSendSound(r: Reply, whole: string, n: nat)
    requires Sound(r, whole) && !Over(r) && n <= |r.out| && (n == 0 <==> r.out == "")
    ensures Sound(AfterSend(r, n), whole) && r.sent <= AfterSend(r, n).sent
    ensures n > 0 ==> |AfterSend(r, n).sent| > |r.sent|
    ensures AfterSend(r, n).phase == Gone <==> n == 0
  {
    assert r.out == r.out[..n] + r.out[n..];
    assert r.sent + r.out[..n] + r.out[n..] + r.unread == r.sent + (r.out[..n] + r.out[n..]) + r.unread;
  }

  /** Every turn keeps the reply in order. It ends with everything sent, unless the socket fails. */
  lemma TurnSound(r: Reply, whole: string, e: SendResult)
    requires Sound(r, whole) && !Over(r) && Plausible(Filled(r), e)
    ensures var r' := Turn(r, e);
            && Sound(r', whole) && r.sent <= r'.sent
            && (Over(r') && !e.SocketError? ==> r'.sent == whole)
            && (e.Accepted? && !Over(r') ==> |r'.sent| > |r.sent|)
  {
    if r.phase == FileContinue { FillSound(r, whole); }
    match e
    case WouldBlock =>
    case SocketError =>
    case Accepted(n) =>
      AfterSendSound(Filled(r), whole, n);
      SentAll(AfterSend(Filled(r), n), whole);
  }

  lemma SentAll(r: Reply, whole: string)
    requires r.sent + r.out + r.unread == whole
    ensures r.out == "" && r.unread == "" ==> r.sent == whole
  {
    assert r.sent + "" + "" == r.sent;
  }

  lemma ReplySound(content: string)
    requires |ReplyHead(|content|)| <= BUF_SIZE
    ensures Sound(Found(content), ReplyHead(|content|) + content) && !Over(Found(content))
    ensures Sound(NotFound(), NOT_FOUND)
  {
    var head := ReplyHead(|content|);
    assert "" + head + content == head + content;
    assert "" + NOT_FOUND + "" == NOT_FOUND;
  }

  /** A 64-bit length always leaves room in the buffer. */
  lemma HeadFits(n: nat)
    requires n <= INT32_MAX
    ensures |ReplyHead(n)| <= 47
  {
    PrintShort(n, 10);
  }

  lemma PrintShort(n: nat, k: nat)
    requires k >= 1 && n < Power10(k)
    ensures |Print(n)| <= k
  {
    if n >= 10 { PrintShort(n / 10, k - 1); }
  }

  function Power10(k: nat): nat { if k == 0 then 1 else 10 * Power10(k - 1) }

  // ---- whole runs, over any number of activations ----

  function Run(r: Reply, results: seq<SendResult>): Reply
    requires r.wr <= BUF_SIZE
    decreases |results|
  {
    if results == [] || Over(r) || !Plausible(Filled(r), results[0]) then r
    else Run(Turn(r, results[0]), results[1..])
  }

  /** Whatever send() accepts and whenever it blocks: what goes out is always a prefix of the reply, and
      if the socket never fails the connection only ends, done or not, with all of it sent. */
  lemma {:induction false} RunSound(r: Reply, whole: string, results: seq<SendResult>)
    requires Sound(r, whole) && !Over(r)
    ensures var r' := Run(r, results);
            && Sound(r', whole) && r'.sent <= whole
            && (r'.done ==> r'.sent == whole)
            && (Over(r') && SocketError !in results ==> r'.sent == whole)
    decreases |results|
  {
    assert r.sent + (r.out + r.unread) == r.sent + r.out + r.unread;
    if results != [] && Plausible(Filled(r), results[0]) {
      var r1 := Turn(r, results[0]);
      TurnSound(r, whole, results[0]);
      if Over(r1) {
        assert r1.sent + (r1.out + r1.unread) == r1.sent + r1.out + r1.unread;
        SentAll(r1, whole);
      } else {
        RunSound(r1, whole, results[1..]);
      }
    }
  }

  // ---- reply.done ----

  /** How far the buffer has been used decides whether a fread() will meet the end of the file. */
  predicate Aligned(r: Reply) {
    match r.phase
    case FileContinue =>
      || (r.sent == "" && r.wr == |r.out| < BUF_SIZE && r.unread != "")
      || (r.wr == 0 && r.out == "" && |r.sent| % BUF_SIZE == 0)
      || (r.wr == BUF_SIZE && (|r.sent| + |r.out|) % BUF_SIZE == 0)
    case Sending => (|r.sent| + |r.out|) % BUF_SIZE != 0
    case Idle => |r.sent| % BUF_SIZE != 0
    case Gone => |r.sent| % BUF_SIZE == 0
  }

  lemma Multiple(a: nat, k: nat, b: nat)
    requires b > 0 && a % b == 0 && k <= b
    ensures (a + k) % b == 0 <==> k == 0 || k == b
  {
    assert a == (a / b) * b;
    if k < b {
      DivModUnique(a + k, b, a / b, k);
    } else {
      assert (a / b + 1) * b == (a / b) * b + b;
      DivModUnique(a + k, b, a / b + 1, 0);
    }
  }

  lemma FillAligned(r: Reply)
    requires Aligned(r) && r.phase == FileContinue && r.wr <= BUF_SIZE
    ensures Aligned(Fill(r)) && (Fill(r).phase == FileContinue && Fill(r).out == "" ==> |Fill(r).sent| % BUF_SIZE == 0)
  {
    var space := BUF_SIZE - r.wr;
    if space > 0 && r.unread != "" {
      var k := Min(space, |r.unread|);
      if r.wr > 0 { Multiple(0, |r.out| + k, BUF_SIZE); } else { Multiple(|r.sent|, |r.out| + k, BUF_SIZE); }
    }
  }

  lemma AfterSendAligned(r: Reply, whole: string, n: nat)
    requires Sound(r, whole) && Aligned(r) && !Over(r) && n <= |r.out| && (n == 0 <==> r.out == "")
    requires r.phase == FileContinue && r.sent == "" ==> r.wr == BUF_SIZE || r.out == ""
    requires r.phase == FileContinue && r.out == "" ==> |r.sent| % BUF_SIZE == 0
    ensures Aligned(AfterSend(r, n))
  {
    assert |r.sent + r.out[..n]| + |r.out[n..]| == |r.sent| + |r.out|;
  }

  lemma TurnAligned(r: Reply, whole: string, e: SendResult)
    requires Sound(r, whole) && Aligned(r) && !Over(r) && Plausible(Filled(r), e) && !e.SocketError?
    ensures Aligned(Turn(r, e))
  {
    if r.phase == FileContinue {
      FillSound(r, whole);
      FillAligned(r);
    }
    if e.Accepted? { AfterSendAligned(Filled(r), whole, e.n); }
  }

  lemma {:induction false} RunAligned(r: Reply, whole: string, results: seq<SendResult>)
    requires Sound(r, whole) && Aligned(r) && SocketError !in results
    ensures Aligned(Run(r, results))
    decreases |results|
  {
    if results != [] && !Over(r) && Plausible(Filled(r), results[0]) {
      TurnAligned(r, whole, results[0]);
      TurnSound(r, whole, results[0]);
      RunAligned(Turn(r, results[0]), whole, results[1..]);
    }
  }

  lemma FoundAligned(content: string)
    requires 0 < |ReplyHead(|content|)| < BUF_SIZE
    ensures Aligned(Found(content))
  {
    Multiple(0, |ReplyHead(|content|)|, BUF_SIZE);
  }

  /** Whatever send() accepts and whenever it blocks, if the socket never fails: a connection whose reply has
      come to its end has marked it done if and only if the reply is not a multiple of the buffer in length.
      In the other case the last fread() has filled the buffer to the last octet without meeting the end of
      the file, and the connection has ended in a send() of nothing, with all of the reply sent. */
  lemma DoneIff(content: string, results: seq<SendResult>)
    requires |content| <= INT32_MAX && SocketError !in results
    ensures |ReplyHead(|content|)| < BUF_SIZE
    ensures var r, whole := Run(Found(content), results), ReplyHead(|content|) + content;
            && (r.done ==> |whole| % BUF_SIZE != 0)
            && (Over(r) ==> r.sent == whole && (r.done <==> |whole| % BUF_SIZE != 0))
  {
    var whole := ReplyHead(|content|) + content;
    HeadFits(|content|);
    HeadChars(|content|, 0);
    ReplySound(content);
    FoundAligned(content);
    RunSound(Found(content), whole, results);
    RunAligned(Found(content), whole, results);
  }

  /** Such as a file of 51158 octets, with the 42 of its head: one send() of all, and the next of nothing. */
  lemma FullBufferNeverDone(content: string)
    requires |content| == 51158
    ensures |ReplyHead(|content|)| == 42
    ensures var r := Run(Found(content), [Accepted(BUF_SIZE), Accepted(0)]);
            r.phase == Gone && !r.done && r.sent == ReplyHead(|content|) + content
  {
    var r, e, f := Found(content), Accepted(BUF_SIZE), Accepted(0);
    HeadChars(51158, 0);
    PrintFive(51158);
    ReplySound(content);
    var r1 := Turn(r, e);
    assert content[..51158] == content;
    assert Fill(r).out == ReplyHead(51158) + content && |Fill(r).out| == BUF_SIZE;
    assert r1.out == "" && r1.unread == "" && r1.phase == FileContinue && r1.wr == 0;
    TurnSound(r, ReplyHead(51158) + content, e);
    var r2 := Turn(r1, f);
    assert r2 == r1.(phase := Gone);
    assert Run(r1, [f]) == Run(r2, []);
    assert [e, f][1..] == [f] && [f][1..] == [];
    RunSound(r, ReplyHead(51158) + content, [e, f]);
  }

  lemma PrintFive(n: nat)
    requires 10000 <= n < 100000
    ensures |Print(n)| == 5
  {
    assert |Print(n / 10000)| == 1;
    assert |Print(n / 1000)| == 2 by { assert n / 1000 / 10 == n / 10000; }
    assert |Print(n / 100)| == 3 by { assert n / 100 / 10 == n / 1000; }
    assert |Print(n / 10)| == 4 by { assert n / 10 / 10 == n / 100; }
  }

  // ---- the connection object ----

  /** The reply half of a fileserver_connection: its fixed buffer and offsets. */
  class ReplyBuffer {
    const buf: array<char>
    var rd: nat
    var wr: nat
    var phase: Phase
    var unread: string
    var open: bool
    var done: bool
    ghost var sent: string

    ghost predicate Valid() reads this { buf.Length == BUF_SIZE && rd <= wr <= BUF_SIZE }

    ghost function Now(): Reply
      requires Valid()
      reads this, buf
    {
      Reply(phase, buf[rd..wr], wr, unread, open, sent, done)
    }

    /** FS_REPLY_FILE_START, for a file that could be opened. */
    constructor (content: string)
      requires |ReplyHead(|content|)| <= BUF_SIZE
      ensures Valid() && fresh(buf) && Now() == Found(content)
    {
      var head := ReplyHead(|content|);
      buf := new char[BUF_SIZE](i => if 0 <= i < |head| then head[i] else '\0');
      rd, wr := 0, |head|;
      phase, open := if content == "" then Sending else FileContinue, content != "";
      unread, done, sent := content, false, "";
      new;
      assert buf[rd..wr] == head;
    }

    /** FS_REPLY_FILE_CONTINUE */
    method FillBuffer()
      requires Valid() && phase == FileContinue
      modifies this`wr, this`unread, this`open, this`phase, buf
      ensures Valid() && Now() == Fill(old(Now()))
    {
      var space := BUF_SIZE - wr;
      if space == 0 || unread == "" { return; }
      var k := if space <= |unread| then space else |unread|;
      for i := 0 to k
        modifies buf
        invariant forall j | rd <= j < wr :: buf[j] == old(buf[j])
        invariant forall j | 0 <= j < i :: buf[wr + j] == unread[j]
      {
        buf[wr + i] := unread[i];
      }
      assert buf[rd..wr + k] == old(buf[rd..wr]) + unread[..k];
      assert k == Min(space, |unread|) && old(Now()).out == old(buf[rd..wr]);
      wr := wr + k;
      unread := unread[k..];
      if k < space {
        open := false;
        phase := Sending;
      }
    }

    /** FS_REPLY_SEND, after send() accepted `n` octets. */
    method Sent(n: nat)
      requires Valid() && n <= wr - rd
      modifies this`rd, this`wr, this`phase, this`done, this`sent
      ensures Valid() && Now() == AfterSend(old(Now()), n)
    {
      if n == 0 { phase := Gone; return; }
      assert buf[rd..wr][..n] == buf[rd..rd + n] && buf[rd..wr][n..] == buf[rd + n..wr];
      sent := sent + buf[rd..rd + n];
      rd := rd + n;
      if rd == wr {
        rd, wr := 0, 0;
        if !open { done := true; phase := Idle; }
      }
    }

    /** What the kernel may answer to a send() of what is in the buffer. */
    method AnySend() returns (e: SendResult)
      requires Valid()
      ensures Plausible(Now(), e)
    {
      if rd == wr { return Accepted(0); }
      if * { return WouldBlock; }
      if * { return SocketError; }
      var n: nat :| 1 <= n <= wr - rd;
      return Accepted(n);
    }

    /** The loop of fileserver_activate while a reply is under way, for every choice of what send()
        accepts. It always returns: blocked, over, or failed; and over only with all of it sent. */
    method Activate(ghost whole: string) returns (failed: bool)
      requires Valid() && !Over(Now()) && Sound(Now(), whole)
      modifies this, buf
      ensures Valid() && Sound(Now(), whole) && old(sent) <= sent <= whole
      ensures Over(Now()) && !failed ==> sent == whole
      ensures done ==> sent == whole
    {
      failed := false;
      SentPrefix(Now(), whole);
      var going := true;
      while going
        invariant Valid() && Sound(Now(), whole) && old(sent) <= sent <= whole
        invariant going ==> !Over(Now()) && !failed
        invariant Over(Now()) && !failed ==> sent == whole
        decreases going, |whole| - |sent|
      {
        going, failed := OneTurn(whole);
        SentPrefix(Now(), whole);
      }
    }

    /** One turn of the loop. */
    method OneTurn(ghost whole: string) returns (going: bool, failed: bool)
      requires Valid() && !Over(Now()) && Sound(Now(), whole)
      modifies this, buf
      ensures Valid() && Sound(Now(), whole) && old(sent) <= sent
      ensures going ==> !Over(Now()) && !failed && |sent| > |old(sent)|
      ensures Over(Now()) && !failed ==> sent == whole
    {
      ghost var before := Now();
      FillIfFile();
      var e := AnySend();
      Took(e);
      TurnSound(before, whole, e);
      failed := e.SocketError?;
      going := e.Accepted? && phase != Idle && phase != Gone;
    }

    method FillIfFile()
      requires Valid()
      modifies this`wr, this`unread, this`open, this`phase, buf
      ensures Valid() && Now() == Filled(old(Now()))
    {
      if phase == FileContinue { FillBuffer(); }
    }

    /** What becomes of the connection after send() has returned `e`. */
    method Took(e: SendResult)
      requires Valid() && Plausible(Now(), e)
      modifies this`rd, this`wr, this`phase, this`done, this`sent
      ensures Valid()
      ensures Now() == match e
                       case WouldBlock => old(Now())
                       case SocketError => old(Now()).(phase := Gone)
                       case Accepted(n) => AfterSend(old(Now()), n)
    {
      match e {
        case WouldBlock =>
        case SocketError => phase := Gone;
        case Accepted(n) => Sent(n);
      }
    }
  }

  lemma SentPrefix(r: Reply, whole: string)
    requires r.sent + r.out + r.unread == whole
    ensures r.sent <= whole && (r.out == r.unread == "" ==> r.sent == whole)
  {
    assert r.sent + (r.out + r.unread) == whole;
    SentAll(r, whole);
  }
}
