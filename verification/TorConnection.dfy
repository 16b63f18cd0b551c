/** The TorControl_Connection object: its fixed receive buffer and its loops, proved against TorControl. */
module TorConnection {
  import opened Text
  import opened Decimal
  import opened LineMachine
  import opened TorControl

  lemma {:induction false} CStringEnds(s: string, i: nat)
    requires i < |s| && s[i] == '\0' && '\0' !in s[..i]
    ensures CString(s) == s[..i]
    decreases i
  {
    if i > 0 {
      assert s[..i] == [s[0]] + s[1..][..i - 1];
      CStringEnds(s[1..], i - 1);
    }
  }

  /** What lies behind the first NUL does not matter. */
  lemma {:induction false} CStringPrefix(s: string, t: string)
    ensures CString(s + "\0" + t) == CString(s)
  {
    if s == "" || s[0] == '\0' {
    } else {
      assert (s + "\0" + t)[1..] == s[1..] + "\0" + t;
      CStringPrefix(s[1..], t);
    }
  }

  class Connection {
    const buf: array<char>
    var bufOffset: nat
    var reply: seq<ReplyLine>
    var readingData: bool
    var bad: bool
    ghost var replies: seq<seq<ReplyLine>>   // given to torControl_processReply

    ghost predicate Valid() reads this {
      buf.Length == BUF_SIZE && bufOffset < BUF_SIZE && (readingData ==> reply != [])
    }

    ghost function Replies(): State reads this { State(reply, readingData, replies, bad) }

    ghost function Now(): Buffered<State>
      requires Valid()
      reads this, buf
    {
      Buffered(buf[..bufOffset], Replies())
    }

    constructor ()
      ensures Valid() && fresh(buf) && Now() == Buffered("", START)
    {
      buf := new char[BUF_SIZE];
      bufOffset, reply, readingData, bad, replies := 0, [], false, false, [];
    }

    /** recv() into the free part of the buffer, and the NUL behind it. */
    method Append(chunk: string)
      requires Valid() && bufOffset + |chunk| < BUF_SIZE
      modifies buf
      ensures buf[..bufOffset] == old(buf[..bufOffset])
      ensures buf[..bufOffset + |chunk| + 1] == old(buf[..bufOffset]) + chunk + "\0"
    {
      for i := 0 to |chunk|
        invariant forall j | 0 <= j < bufOffset :: buf[j] == old(buf[j])
        invariant forall j | 0 <= j < i :: buf[bufOffset + j] == chunk[j]
      {
        buf[bufOffset + i] := chunk[i];
      }
      buf[bufOffset + |chunk|] := '\0';
    }

    /** The buffer as a C string. */
    method AsString(ghost content: string) returns (text: string)
      requires Valid() && |content| < BUF_SIZE && buf[..|content| + 1] == content + "\0"
      ensures text == CString(content)
    {
      var i := 0;
      assert buf[|content|] == buf[..|content| + 1][|content|] == '\0';
      while buf[i] != '\0'
        invariant i <= |content| && forall j | 0 <= j < i :: buf[j] != '\0'
        decreases |content| - i
      {
        i := i + 1;
      }
      text := buf[..i];
      CStringEnds(buf[..], i);
      assert buf[..] == content + "\0" + buf[|content| + 1..];
      CStringPrefix(content, buf[|content| + 1..]);
      assert buf[..][..i] == buf[..i];
    }

    /** The body of the line loop. */
    method TakeLine(line: string)
      requires Valid() && !bad
      modifies this`reply, this`readingData, this`bad, this`replies
      ensures Replies() == OnLine(old(Replies()), line)
      ensures Valid()
    {
      if !readingData {
        if |line| < 4 { bad := true; return; }   // reads behind the end of the line
        reply := reply + [ReplyLine(Strtol(line), line[4..], [])];
        if line[3] == '+' {
          readingData := true;
        } else if line[3] == ' ' {
          replies := replies + [reply];
          reply := [];
        }
      } else {
        var last := reply[|reply| - 1];
        if EndsData(line) {
          readingData := false;
          if last.code >= 600 || last.code <= -600 {
            replies := replies + [reply];
            reply := [];
          }
        } else {
          reply := reply[..|reply| - 1] + [last.(data := last.data + [line])];
        }
      }
    }

    /** strcpy of the leftover to the front of the buffer. */
    method Keep(rest: string)
      requires Valid() && |rest| < BUF_SIZE
      modifies buf, this`bufOffset
      ensures Valid() && buf[..bufOffset] == rest
    {
      for i := 0 to |rest|
        invariant forall j | 0 <= j < i :: buf[j] == rest[j]
      {
        buf[i] := rest[i];
      }
      bufOffset := |rest|;
    }

    /** The line loop. */
    method TakeLines(lines: seq<string>)
      requires Valid() && !bad
      modifies this`reply, this`readingData, this`bad, this`replies
      ensures Valid() && bad == FoldLines(CONTROL, old(Replies()), lines).bad
      ensures !bad ==> Replies() == FoldLines(CONTROL, old(Replies()), lines)
    {
      var idx := 0;
      while idx < |lines|
        invariant 0 <= idx <= |lines| && Valid() && !bad
        invariant FoldLines(CONTROL, Replies(), lines[idx..]) == FoldLines(CONTROL, old(Replies()), lines)
      {
        assert lines[idx..][0] == lines[idx] && lines[idx..][1..] == lines[idx + 1..];
        TakeLine(lines[idx]);
        idx := idx + 1;
        if bad { BadStays(Replies(), lines[idx..]); return; }
      }
    }

    /** The EPOLLIN half of torControl_activate. A short line ends the run: the code then reads behind it. */
    method Activate(chunk: string)
      requires Valid() && !bad && bufOffset + |chunk| < BUF_SIZE
      modifies this, buf
      ensures Valid() && bad == TorControl.Activate(old(Now()), chunk).st.bad
      ensures !bad ==> Now() == TorControl.Activate(old(Now()), chunk)
    {
      ghost var content := buf[..bufOffset] + chunk;
      Append(chunk);
      var text := AsString(content);
      var lines := Split(text);
      DrainIsSplit(text, Replies());
      ShortPieces(content);
      TakeLines(Init(lines));
      if !bad { Keep(Last(lines)); }
    }
  }

  lemma ShortPieces(content: string)
    ensures |Last(Split(CString(content)))| <= |content|
  {
    SplitJoins(CString(content));
    ShortCString(content);
  }

  lemma {:induction false} ShortCString(s: string)
    ensures |CString(s)| <= |s|
  {
    if s != "" && s[0] != '\0' { ShortCString(s[1..]); }
  }
}
