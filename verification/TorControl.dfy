/** The receiving half of torcontrol/torcontrol.c: CRLF framing, the buffered leftover, and the
    grouping of lines into replies (section 2.3 of the Tor control-spec). */
module TorControl {
  import opened Text
  import opened Decimal
  import opened HeadText
  import opened LineMachine

  datatype ReplyLine = ReplyLine(code: int, body: string, data: seq<string>)

  /** `reply` is the reply being put together and `replies` what has gone to torControl_processReply.
      Bad: a line too short to hold a code and a separator, behind whose end the code would read. */
  datatype State = State(reply: seq<ReplyLine>, reading: bool, replies: seq<seq<ReplyLine>>, bad: bool)

  const START: State := State([], false, [], false)

  /** The four strings that end data mode. */
  predicate EndsData(line: string) {
    EqualFold(line, ".\r\n") || EqualFold(line, "650 OK\r\n") || EqualFold(line, ".\n") || EqualFold(line, "650 OK\n")
  }

  function Deliver(s: State): State { s.(replies := s.replies + [s.reply], reply := []) }

  function OnReplyLine(s: State, line: string): State {
    if |line| < 4 then s.(bad := true) else
    var s1 := s.(reply := s.reply + [ReplyLine(Strtol(line), line[4..], [])]);
    if line[3] == '+' then s1.(reading := true)
    else if line[3] == ' ' then Deliver(s1)
    else s1
  }

  /** C integer division by 600 is nonzero. */
  predicate IsEvent(code: int) { code >= 600 || code <= -600 }

  lemma EventIff(code: int)
    ensures IsEvent(code) <==> (if code >= 0 then code / 600 else -(-code / 600)) != 0
  {
  }

  function OnDataLine(s: State, line: string): State {
    if s.reply == [] then s.(bad := true) else
    var last := s.reply[|s.reply| - 1];
    if EndsData(line) then
      if IsEvent(last.code) then Deliver(s.(reading := false)) else s.(reading := false)
    else s.(reply := s.reply[..|s.reply| - 1] + [last.(data := last.data + [line])])
  }

  function OnLine(s: State, line: string): State {
    if s.reading then OnDataLine(s, line) else OnReplyLine(s, line)
  }

  const CONTROL: Machine<State> :=
    Machine((s: State) => if s.bad then Halted else Lines, (s: State, line: string) => OnLine(s, line),
            (s: State, b: char) => s)

  const BUF_SIZE: nat := 16384

  /** One readable event: `chunk` is what recv() returned. The C string functions see the buffer only up
      to a NUL. */
  function Activate(c: Buffered<State>, chunk: string): Buffered<State> {
    Drain(CONTROL, Buffered(CString(c.inbuf + chunk), c.st))
  }

  // ---- splitting in one go ----

  /** g_strsplit(s, "\r\n", 0) of a nonempty string. */
  function Split(s: string): (r: seq<string>)
    ensures r != []
    decreases |s|
  {
    match ReadLine(s)
    case NoLine => [s]
    case Line(line, rest) => [line] + Split(rest)
  }

  function Init<T>(s: seq<T>): seq<T>
    requires s != []
  {
    s[..|s| - 1]
  }

  function Last<T>(s: seq<T>): T
    requires s != []
  {
    s[|s| - 1]
  }

  /** The pieces are what lies between the separators, and the last one holds none. */
  lemma {:induction false} SplitJoins(s: string)
    ensures CrlfLines(Init(Split(s))) + Last(Split(s)) == s && NoCrlf(Last(Split(s)))
    decreases |s|
  {
    match ReadLine(s)
    case NoLine => assert Init(Split(s)) == [];
    case Line(line, rest) =>
      SplitJoins(rest);
      SplitCons(line, Split(rest));
      LinesCons(line, Init(Split(rest)), Last(Split(rest)));
  }

  lemma SplitCons(line: string, pieces: seq<string>)
    requires pieces != []
    ensures Init([line] + pieces) == [line] + Init(pieces) && Last([line] + pieces) == Last(pieces)
  {
  }

  lemma LinesCons(line: string, lines: seq<string>, tail: string)
    ensures CrlfLines([line] + lines) + tail == line + "\r\n" + (CrlfLines(lines) + tail)
  {
    assert ([line] + lines)[1..] == lines;
  }

  lemma {:induction false} BadStays(st: State, lines: seq<string>)
    requires st.bad
    ensures FoldLines(CONTROL, st, lines).bad
    decreases |lines|
  {
    if lines != [] { BadStays(OnLine(st, lines[0]), lines[1..]); }
  }

  /** Draining the buffer is folding over all pieces but the last and keeping that, as long as no line is
      bad; and it comes upon a bad line exactly when the fold does. */
  lemma {:induction false} DrainIsSplit(s: string, st: State)
    ensures var r, f := Drain(CONTROL, Buffered(s, st)), FoldLines(CONTROL, st, Init(Split(s)));
            (r.st.bad <==> f.bad) && (!f.bad ==> r == Buffered(Last(Split(s)), f))
    decreases |s|
  {
    match ReadLine(s)
    case NoLine => assert Init(Split(s)) == [];
    case Line(line, rest) =>
      SplitCons(line, Split(rest));
      assert ([line] + Init(Split(rest)))[1..] == Init(Split(rest));
      if st.bad { BadStays(st, Init(Split(s))); } else { DrainIsSplit(rest, OnLine(st, line)); }
  }

  // ---- any chunking ----

  function ActivateAll(c: Buffered<State>, chunks: seq<string>): Buffered<State> {
    if chunks == [] then c else Activate(ActivateAll(c, Init(chunks)), Last(chunks))
  }

  lemma {:induction false} PlainDrain(c: Buffered<State>)
    requires '\0' !in c.inbuf
    ensures '\0' !in Drain(CONTROL, c).inbuf
    decreases |c.inbuf|
  {
    if Enabled(CONTROL, c) { PlainDrain(LineMachine.Step(CONTROL, c)); }
  }

  lemma {:induction false} PlainActivates(chunks: seq<string>)
    requires forall chunk <- chunks :: '\0' !in chunk
    ensures ActivateAll(Buffered("", START), chunks) == ReceiveAll(CONTROL, Buffered("", START), chunks)
    ensures '\0' !in ActivateAll(Buffered("", START), chunks).inbuf
  {
    if chunks != [] {
      PlainActivates(Init(chunks));
      var c := ActivateAll(Buffered("", START), Init(chunks));
      CStringOfClean(c.inbuf + Last(chunks));
      PlainDrain(Push(c, Last(chunks)));
    }
  }

  /** However recv() cuts NUL-free input, even between CR and LF: the same replies in the same order as
      splitting the whole stream at once, and the leftover is its unterminated tail. */
  lemma FramingIsSplitting(chunks: seq<string>)
    requires forall chunk <- chunks :: '\0' !in chunk
    ensures var c := ActivateAll(Buffered("", START), chunks); var pieces := Split(Concat(chunks));
            var f := FoldLines(CONTROL, START, Init(pieces));
            (c.st.bad <==> f.bad) && (!f.bad ==> c == Buffered(Last(pieces), f) && NoCrlf(c.inbuf))
  {
    PlainActivates(chunks);
    assert ReadLine("").NoLine?;
    ReceiveAllIsReceive(CONTROL, Buffered("", START), chunks);
    assert "" + Concat(chunks) == Concat(chunks);
    DrainIsSplit(Concat(chunks), START);
    SplitJoins(Concat(chunks));
  }

  // ---- replies as they were sent ----

  /** A line of a reply: three digits, a separator, the text. */
  function Format(l: ReplyLine, sep: char): string
    requires 100 <= l.code <= 999
  {
    Print(l.code) + [sep] + l.body
  }

  predicate Sendable(r: seq<ReplyLine>) {
    r != [] && forall l <- r :: 100 <= l.code <= 999 && l.data == []
  }

  /** The lines of a reply, all but the last with a dash. */
  function FormatReply(r: seq<ReplyLine>): seq<string>
    requires Sendable(r)
  {
    if |r| == 1 then [Format(r[0], ' ')] else [Format(r[0], '-')] + FormatReply(r[1..])
  }

  function FormatAll(rs: seq<seq<ReplyLine>>): seq<string>
    requires forall r <- rs :: Sendable(r)
  {
    if rs == [] then [] else FormatReply(rs[0]) + FormatAll(rs[1..])
  }

  lemma PrintThree(n: nat)
    requires 100 <= n <= 999
    ensures |Print(n)| == 3
  {
    assert |Print(n / 10)| == 2;
  }

  function Took(s: State, l: ReplyLine, sep: char): State {
    var s1 := s.(reply := s.reply + [l]);
    if sep == '+' then s1.(reading := true) else if sep == ' ' then Deliver(s1) else s1
  }

  lemma ReadsFormat(s: State, l: ReplyLine, sep: char)
    requires 100 <= l.code <= 999 && l.data == [] && !s.reading && !IsDigit(sep)
    ensures OnLine(s, Format(l, sep)) == Took(s, l, sep)
  {
    var line := Format(l, sep);
    PrintThree(l.code);
    assert line == Print(l.code) + ([sep] + l.body);
    StrtolOfPrint(l.code, [sep] + l.body);
    assert line[3] == sep && line[4..] == l.body;
  }

  /** The machine reads formatted lines as what they were. */
  ghost predicate ReadsAll(m: Machine<State>) {
    forall s: State, l: ReplyLine, sep: char {:trigger Took(s, l, sep)} |
      100 <= l.code <= 999 && l.data == [] && !s.reading && !IsDigit(sep) ::
        m.onLine(s, Format(l, sep)) == Took(s, l, sep)
  }

  lemma ControlReadsAll()
    ensures ReadsAll(CONTROL)
  {
    forall s: State, l: ReplyLine, sep: char | 100 <= l.code <= 999 && l.data == [] && !s.reading && !IsDigit(sep)
      ensures OnLine(s, Format(l, sep)) == Took(s, l, sep)
    {
      ReadsFormat(s, l, sep);
    }
  }

  lemma FoldAppend(m: Machine<State>, s: State, a: seq<string>, b: seq<string>)
    ensures FoldLines(m, s, a + b) == FoldLines(m, FoldLines(m, s, a), b)
    decreases |a|
  {
    if a == [] {
      assert a + b == b;
    } else {
      assert (a + b)[0] == a[0] && (a + b)[1..] == a[1..] + b;
      FoldAppend(m, m.onLine(s, a[0]), a[1..], b);
    }
  }

  lemma FoldOne(m: Machine<State>, s: State, line: string, rest: seq<string>)
    ensures FoldLines(m, s, [line] + rest) == FoldLines(m, m.onLine(s, line), rest)
  {
    assert ([line] + rest)[1..] == rest;
  }

  lemma {:induction false} ReadsReply(m: Machine<State>, s: State, r: seq<ReplyLine>)
    requires ReadsAll(m) && Sendable(r) && !s.reading
    ensures FoldLines(m, s, FormatReply(r)) == s.(replies := s.replies + [s.reply + r], reply := [])
    decreases |r|
  {
    if |r| == 1 {
      assert m.onLine(s, Format(r[0], ' ')) == Took(s, r[0], ' ');
      assert s.reply + r == s.reply + [r[0]] && [Format(r[0], ' ')] + [] == [Format(r[0], ' ')];
      FoldOne(m, s, Format(r[0], ' '), []);
    } else {
      var s1 := Took(s, r[0], '-');
      assert m.onLine(s, Format(r[0], '-')) == s1;
      FoldOne(m, s, Format(r[0], '-'), FormatReply(r[1..]));
      ReadsReply(m, s1, r[1..]);
      assert s1.reply + r[1..] == s.reply + r;
    }
  }

  lemma {:induction false} ReadsReplies(m: Machine<State>, s: State, rs: seq<seq<ReplyLine>>)
    requires ReadsAll(m) && (forall r <- rs :: Sendable(r)) && !s.reading && s.reply == []
    ensures FoldLines(m, s, FormatAll(rs)) == s.(replies := s.replies + rs)
    decreases |rs|
  {
    if rs == [] {
      assert s.replies + rs == s.replies;
    } else {
      var s1 := s.(replies := s.replies + [rs[0]]);
      FoldAppend(m, s, FormatReply(rs[0]), FormatAll(rs[1..]));
      ReadsOneReply(m, s, rs[0]);
      ReadsReplies(m, s1, rs[1..]);
      assert s1.replies + rs[1..] == s.replies + rs;
    }
  }

  lemma ReadsOneReply(m: Machine<State>, s: State, r: seq<ReplyLine>)
    requires ReadsAll(m) && Sendable(r) && !s.reading && s.reply == []
    ensures FoldLines(m, s, FormatReply(r)) == s.(replies := s.replies + [r])
  {
    ReadsReply(m, s, r);
    assert s.reply + r == r;
  }

  /** Replies without data come out grouped exactly as they were sent. */
  lemma RepliesRoundTrip(s: State, rs: seq<seq<ReplyLine>>)
    requires (forall r <- rs :: Sendable(r)) && !s.reading && s.reply == []
    ensures FoldLines(CONTROL, s, FormatAll(rs)) == s.(replies := s.replies + rs)
  {
    ControlReadsAll();
    ReadsReplies(CONTROL, s, rs);
  }

  lemma SplitOne(line: string, rest: string)
    requires '\r' !in line
    ensures Split(line + "\r\n" + rest) == [line] + Split(rest)
  {
    ReadLineOf(line, rest);
    SplitBy(line + "\r\n" + rest, line, rest);
  }

  lemma SplitBy(s: string, line: string, rest: string)
    requires ReadLine(s) == Line(line, rest)
    ensures Split(s) == [line] + Split(rest)
  {
  }

  lemma {:induction false} SplitOfLines(ls: seq<string>)
    requires forall l <- ls :: '\r' !in l
    ensures Split(CrlfLines(ls)) == ls + [""]
  {
    if ls == [] {
      assert ReadLine("").NoLine?;
    } else {
      SplitOne(ls[0], CrlfLines(ls[1..]));
      SplitOfLines(ls[1..]);
      assert ls + [""] == [ls[0]] + (ls[1..] + [""]);
    }
  }

  predicate PlainReplies(rs: seq<seq<ReplyLine>>) {
    forall r <- rs :: PlainBodies(r)
  }

  predicate PlainBodies(r: seq<ReplyLine>) { Sendable(r) && forall l <- r :: '\r' !in l.body && '\0' !in l.body }

  lemma PrintPlain(n: nat)
    ensures '\r' !in Print(n)
  {
  }

  lemma {:induction false} PlainReply(r: seq<ReplyLine>)
    requires Sendable(r) && forall l <- r :: '\r' !in l.body
    ensures forall line <- FormatReply(r) :: '\r' !in line
    decreases |r|
  {
    PrintPlain(r[0].code);
    if |r| > 1 { PlainReply(r[1..]); }
  }

  lemma {:induction false} PlainAll(rs: seq<seq<ReplyLine>>)
    requires PlainReplies(rs)
    ensures forall line <- FormatAll(rs) :: '\r' !in line
    decreases |rs|
  {
    if rs != [] {
      assert PlainBodies(rs[0]);
      PlainReply(rs[0]);
      forall r <- rs[1..] ensures PlainBodies(r) { assert r in rs; }
      PlainAll(rs[1..]);
    }
  }

  /** And so they do from the socket, however recv() cuts the stream. */
  lemma RepliesOverChunks(rs: seq<seq<ReplyLine>>, chunks: seq<string>)
    requires PlainReplies(rs) && Concat(chunks) == CrlfLines(FormatAll(rs)) && forall chunk <- chunks :: '\0' !in chunk
    ensures ActivateAll(Buffered("", START), chunks) == Buffered("", START.(replies := rs))
  {
    FramingIsSplitting(chunks);
    PlainAll(rs);
    SplitOfLines(FormatAll(rs));
    assert Init(FormatAll(rs) + [""]) == FormatAll(rs) && Last(FormatAll(rs) + [""]) == "";
    RepliesRoundTrip(START, rs);
    assert [] + rs == rs;
  }

  // ---- data mode ----

  lemma CrlfInside(line: string)
    requires EqualFold(line, ".\r\n") || EqualFold(line, "650 OK\r\n")
    ensures CrlfAt(line, |line| - 2)
  {
    assert Lower(line[|line| - 2]) == '\r' && Lower(line[|line| - 1]) == '\n';
  }

  /** A piece between CRLFs ends data mode exactly when it is a dot or "650 OK" and a bare line feed. */
  lemma DataEndsAt(line: string)
    requires NoCrlf(line)
    ensures EndsData(line) <==> line == ".\n" || EqualFold(line, "650 OK\n")
  {
    if EqualFold(line, ".\r\n") || EqualFold(line, "650 OK\r\n") { CrlfInside(line); }
    if EqualFold(line, ".\n") {
      assert line[0] == '.' && line[1] == '\n';
      assert line == ".\n";
    }
  }

  lemma NoFeedNoEnd(line: string)
    requires '\n' !in line
    ensures !EndsData(line)
  {
    assert EndsData(line) ==> Lower(line[|line| - 1]) == '\n';
  }

  /** Until such a line comes every line is taken as data, and no reply is delivered again. */
  lemma {:induction false} DataNeverEnds(s: State, lines: seq<string>)
    requires s.reading && s.reply != [] && !s.bad && forall line <- lines :: !EndsData(line)
    ensures var r := FoldLines(CONTROL, s, lines);
            && r.reading && r.replies == s.replies && !r.bad && |r.reply| == |s.reply|
            && Last(r.reply) == Last(s.reply).(data := Last(s.reply).data + lines)
    decreases |lines|
  {
    if lines == [] {
      assert Last(s.reply).data + lines == Last(s.reply).data;
    } else {
      DataNeverEnds(OnLine(s, lines[0]), lines[1..]);
      assert Last(s.reply).data + [lines[0]] + lines[1..] == Last(s.reply).data + lines;
    }
  }

  /** So from a peer that ends its lines as the control-spec says, a data reply is never completed, the
      terminating dot included. */
  lemma DotIsData(s: State, lines: seq<string>)
    requires s.reading && s.reply != [] && !s.bad && forall line <- lines :: '\n' !in line
    ensures FoldLines(CONTROL, s, lines).reading && FoldLines(CONTROL, s, lines).replies == s.replies
  {
    forall line <- lines ensures !EndsData(line) { NoFeedNoEnd(line); }
    DataNeverEnds(s, lines);
  }

  /** With the bare line feed the code asks for, it does end: at once for an event, otherwise with the
      next line that has a space behind its code. */
  lemma DataEnds(s: State, l: ReplyLine, data: seq<string>)
    requires !s.reading && !s.bad && 100 <= l.code <= 999 && l.data == [] && forall line <- data :: !EndsData(line)
    ensures var r := FoldLines(CONTROL, s, [Format(l, '+')] + data + [".\n"]);
            var whole := s.reply + [l.(data := data)];
            !r.bad && !r.reading &&
            if l.code >= 600 then r.reply == [] && r.replies == s.replies + [whole]
            else r.reply == whole && r.replies == s.replies
  {
    var s1 := Took(s, l, '+');
    ReadsFormat(s, l, '+');
    assert [Format(l, '+')] + data + [".\n"] == [Format(l, '+')] + (data + [".\n"]);
    FoldOne(CONTROL, s, Format(l, '+'), data + [".\n"]);
    FoldAppend(CONTROL, s1, data, [".\n"]);
    DataNeverEnds(s1, data);
    SameReply(s1, data);
    DataClosed(FoldLines(CONTROL, s1, data), s, l, data);
  }

  lemma DataClosed(s2: State, s: State, l: ReplyLine, data: seq<string>)
    requires s2.reading && !s2.bad && s2.replies == s.replies && s2.reply != [] && Init(s2.reply) == s.reply
    requires Last(s2.reply) == l.(data := [] + data) && l.code >= 100
    ensures var r := FoldLines(CONTROL, s2, [".\n"]);
            var whole := s.reply + [l.(data := data)];
            !r.bad && !r.reading &&
            if l.code >= 600 then r.reply == [] && r.replies == s.replies + [whole]
            else r.reply == whole && r.replies == s.replies
  {
    assert EqualFold(".\n", ".\n");
    assert [] + data == data;
    assert s2.reply == Init(s2.reply) + [Last(s2.reply)];
    assert [".\n"] + [] == [".\n"];
    FoldOne(CONTROL, s2, ".\n", []);
  }

  lemma {:induction false} SameReply(s: State, lines: seq<string>)
    requires s.reading && s.reply != [] && !s.bad && forall line <- lines :: !EndsData(line)
    ensures FoldLines(CONTROL, s, lines).reply != [] && Init(FoldLines(CONTROL, s, lines).reply) == Init(s.reply)
    decreases |lines|
  {
    if lines != [] {
      SameReply(OnLine(s, lines[0]), lines[1..]);
    }
  }
}
