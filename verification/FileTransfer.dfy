/** filetransfer/filetransfer-defs.h: the strings both sides use, and where the getter finds what in the
    head of a reply. */
module FileTransfer {
  import opened Text
  import opened Decimal

  const BUF_SIZE: nat := 51200
  const STR_SIZE: nat := 256

  const OK: string := "HTTP/1.1 200 OK\r\n"
  const NOT_FOUND: string := "HTTP/1.1 404 NOT FOUND\r\n"
  const END: string := "\r\n\r\n"
  const LENGTH: string := "Content-Length: "

  const FRONT: string := OK + LENGTH

  /** FT_HTTP_200_FMT */
  function ReplyHead(n: nat): string { FRONT + Print(n) + END }

  /** FT_HTTP_GET_FMT */
  function GetRequest(path: string, host: string): string { "GET " + path + " HTTP/1.1\r\nHost: " + host + END }

  predicate Has(s: string, lit: string) { FindFold(s, lit, 0) >= 0 }

  lemma {:induction false} FindFoldIs(s: string, lit: string, i: nat, k: nat)
    requires i <= k <= |s| && MatchesFold(s, k, lit) && forall j | i <= j < k :: !MatchesFold(s, j, lit)
    ensures FindFold(s, lit, i) == k
    decreases k - i
  {
    if i < k { FindFoldIs(s, lit, i + 1, k); }
  }

  lemma {:induction false} FindFoldNone(s: string, lit: string, i: nat)
    requires i <= |s| && forall j | i <= j <= |s| :: !MatchesFold(s, j, lit)
    ensures FindFold(s, lit, i) == -1
    decreases |s| - i
  {
    if i < |s| { FindFoldNone(s, lit, i + 1); }
  }

  lemma {:induction false} HasMatch(s: string, lit: string, i: nat, k: nat)
    requires i <= k <= |s| && MatchesFold(s, k, lit)
    ensures 0 <= FindFold(s, lit, i) <= k
    decreases k - i
  {
    if !MatchesFold(s, i, lit) { HasMatch(s, lit, i + 1, k); }
  }

  /** A match needs each of its characters. */
  lemma MatchChar(s: string, k: nat, lit: string, i: nat)
    requires i < |lit|
    ensures MatchesFold(s, k, lit) ==> k + i < |s| && Lower(s[k + i]) == Lower(lit[i])
  {
    assert MatchesFold(s, k, lit) ==> s[k..k + |lit|][i] == s[k + i];
  }

  // ---- the head of a reply ----

  /** The front of the head, character by character. */
  lemma OkIs()
    ensures |OK| == 17
    ensures OK[0] == 'H' && OK[1] == 'T' && OK[2] == 'T' && OK[3] == 'P' && OK[4] == '/' && OK[5] == '1'
    ensures OK[6] == '.' && OK[7] == '1' && OK[8] == ' ' && OK[9] == '2' && OK[10] == '0' && OK[11] == '0'
    ensures OK[12] == ' ' && OK[13] == 'O' && OK[14] == 'K' && OK[15] == '\r' && OK[16] == '\n'
  {
  }

  lemma LengthIs()
    ensures |LENGTH| == 16
    ensures LENGTH[0] == 'C' && LENGTH[1] == 'o' && LENGTH[2] == 'n' && LENGTH[3] == 't'
    ensures LENGTH[4] == 'e' && LENGTH[5] == 'n' && LENGTH[6] == 't' && LENGTH[7] == '-'
    ensures LENGTH[8] == 'L' && LENGTH[9] == 'e' && LENGTH[10] == 'n' && LENGTH[11] == 'g'
    ensures LENGTH[12] == 't' && LENGTH[13] == 'h' && LENGTH[14] == ':' && LENGTH[15] == ' '
  {
  }

  lemma FrontIs()
    ensures |FRONT| == 33
    ensures FRONT[0] == 'H' && FRONT[1] == 'T' && FRONT[2] == 'T' && FRONT[3] == 'P' && FRONT[4] == '/'
    ensures FRONT[5] == '1' && FRONT[6] == '.' && FRONT[7] == '1' && FRONT[8] == ' ' && FRONT[9] == '2'
    ensures FRONT[10] == '0' && FRONT[11] == '0' && FRONT[12] == ' ' && FRONT[13] == 'O' && FRONT[14] == 'K'
    ensures FRONT[15] == '\r' && FRONT[16] == '\n' && FRONT[17] == 'C' && FRONT[18] == 'o' && FRONT[19] == 'n'
    ensures FRONT[20] == 't' && FRONT[21] == 'e' && FRONT[22] == 'n' && FRONT[23] == 't' && FRONT[24] == '-'
    ensures FRONT[25] == 'L' && FRONT[26] == 'e' && FRONT[27] == 'n' && FRONT[28] == 'g' && FRONT[29] == 't'
    ensures FRONT[30] == 'h' && FRONT[31] == ':' && FRONT[32] == ' '
  {
    OkIs();
    LengthIs();
  }

  lemma FrontHs()
    ensures |FRONT| == 33 && forall j | 0 <= j < 33 :: Lower(FRONT[j]) == 'h' ==> j == 0 || j == 30
  {
    FrontIs();
  }

  lemma FrontReturns()
    ensures |FRONT| == 33 && forall j | 0 <= j < 33 :: FRONT[j] != '\0' && (FRONT[j] == '\r' ==> j == 15)
  {
    FrontIs();
  }

  lemma FrontChars()
    ensures |FRONT| == 33 && FRONT[9] == '2' && FRONT[31] == ':' && FRONT[17] == 'C'
    ensures forall j | 0 <= j < 33 :: Lower(FRONT[j]) == 'h' ==> j == 0 || j == 30
    ensures forall j | 0 <= j < 33 :: FRONT[j] != '\0' && (FRONT[j] == '\r' ==> j == 15)
  {
    FrontHs();
    FrontReturns();
    assert FRONT[9] == '2' && FRONT[31] == ':' && FRONT[17] == 'C' by { FrontIs(); }
  }

  lemma FrontCs()
    ensures |FRONT| == 33 && forall j | 0 <= j < 17 :: Lower(FRONT[j]) != 'c'
  {
    FrontIs();
  }

  lemma FrontParts()
    ensures FRONT[..17] == OK && FRONT[17..] == LENGTH && |OK| == 17 && |LENGTH| == 16
  {
  }

  lemma HeadChars(n: nat, j: nat)
    requires j < |ReplyHead(n)|
    ensures |ReplyHead(n)| == 33 + |Print(n)| + 4
    ensures j < 33 ==> ReplyHead(n)[j] == FRONT[j]
    ensures 33 <= j < |ReplyHead(n)| - 4 ==> IsDigit(ReplyHead(n)[j])
    ensures j >= |ReplyHead(n)| - 4 ==> ReplyHead(n)[j] == END[j - (|ReplyHead(n)| - 4)]
  {
  }

  lemma HeadPlain(n: nat)
    ensures '\0' !in ReplyHead(n)
  {
    FrontChars();
    forall j | 0 <= j < |ReplyHead(n)| ensures ReplyHead(n)[j] != '\0' { HeadChars(n, j); }
  }

  /** `text` begins like a reply head and goes on with `rest`, or is part of the head. */
  predicate Begins(text: string, n: nat, rest: string) { text <= ReplyHead(n) + rest }

  lemma BeginsAt(text: string, n: nat, rest: string, j: nat)
    requires Begins(text, n, rest) && j < |text|
    ensures j < |ReplyHead(n)| ==> text[j] == ReplyHead(n)[j]
    ensures j >= |ReplyHead(n)| ==> j - |ReplyHead(n)| < |rest| && text[j] == rest[j - |ReplyHead(n)|]
  {
  }

  /** A character of the text that lies in the head. */
  lemma HeadAt(text: string, n: nat, rest: string, j: nat)
    requires Begins(text, n, rest) && j < |ReplyHead(n)|
    ensures |ReplyHead(n)| == 33 + |Print(n)| + 4
    ensures j < |text| && j < 33 ==> text[j] == FRONT[j]
    ensures j < |text| && 33 <= j < |ReplyHead(n)| - 4 ==> IsDigit(text[j])
    ensures j < |text| && j >= |ReplyHead(n)| - 4 ==> text[j] == END[j - (|ReplyHead(n)| - 4)]
  {
    HeadChars(n, j);
    if j < |text| { BeginsAt(text, n, rest, j); }
  }

  /** Three characters of the status line of a missing file. */
  lemma MissingChars(s: string, k: nat)
    ensures MatchesFold(s, k, NOT_FOUND) ==>
            k + 9 < |s| && Lower(s[k]) == 'h' && Lower(s[k + 1]) == 't' && Lower(s[k + 9]) == '4'
  {
    assert |NOT_FOUND| > 9 && NOT_FOUND[0] == 'H' && NOT_FOUND[1] == 'T' && NOT_FOUND[9] == '4';
    MatchChar(s, k, NOT_FOUND, 0);
    MatchChar(s, k, NOT_FOUND, 1);
    MatchChar(s, k, NOT_FOUND, 9);
  }

  /** The status line of a missing file is not part of a good head. */
  lemma No404InHead(text: string, n: nat, rest: string, j: nat)
    requires Begins(text, n, rest) && j < |ReplyHead(n)|
    ensures !MatchesFold(text, j, NOT_FOUND)
  {
    FrontChars();
    MissingChars(text, j);
    HeadAt(text, n, rest, j);
    if j == 0 {
      HeadAt(text, n, rest, 9);
    } else if j == 30 {
      HeadAt(text, n, rest, 31);
    }
  }

  lemma MatchBehind(text: string, n: nat, rest: string, j: nat)
    requires Begins(text, n, rest) && |ReplyHead(n)| <= j && j + |NOT_FOUND| <= |text|
    ensures MatchesFold(text, j, NOT_FOUND) <==> MatchesFold(rest, j - |ReplyHead(n)|, NOT_FOUND)
  {
    var h, l := |ReplyHead(n)|, |NOT_FOUND|;
    assert text[j..j + l] == rest[j - h..j - h + l];
  }

  /** The 404 status line is found exactly when it is in the part of the body that has come. */
  lemma Has404(text: string, n: nat, rest: string)
    requires Begins(text, n, rest)
    ensures Has(text, NOT_FOUND) <==>
            exists k: nat :: |ReplyHead(n)| + k + |NOT_FOUND| <= |text| && MatchesFold(rest, k, NOT_FOUND)
  {
    var h, l := |ReplyHead(n)|, |NOT_FOUND|;
    if k: nat :| h + k + l <= |text| && MatchesFold(rest, k, NOT_FOUND) {
      MatchBehind(text, n, rest, h + k);
      HasMatch(text, NOT_FOUND, 0, h + k);
    } else {
      Hidden404(text, n, rest);
    }
  }

  lemma Hidden404(text: string, n: nat, rest: string)
    requires Begins(text, n, rest)
    requires forall k: nat :: |ReplyHead(n)| + k + |NOT_FOUND| <= |text| ==> !MatchesFold(rest, k, NOT_FOUND)
    ensures !Has(text, NOT_FOUND)
  {
    var h, l := |ReplyHead(n)|, |NOT_FOUND|;
    forall j | 0 <= j <= |text| ensures !MatchesFold(text, j, NOT_FOUND) {
      if j < h {
        No404InHead(text, n, rest, j);
      } else if j + l <= |text| {
        MatchBehind(text, n, rest, j);
        assert !MatchesFold(rest, j - h, NOT_FOUND);
      }
    }
    FindFoldNone(text, NOT_FOUND, 0);
  }

  lemma NoEndBefore(text: string, n: nat, rest: string, j: nat)
    requires Begins(text, n, rest) && j < |ReplyHead(n)| - 4
    ensures !MatchesFold(text, j, END)
  {
    FrontChars();
    MatchChar(text, j, END, 0);
    MatchChar(text, j, END, 2);
    HeadAt(text, n, rest, j);
    HeadAt(text, n, rest, j + 2);
    assert END[0] == '\r' && END[2] == '\r';
  }

  lemma EndAt(text: string, n: nat, rest: string)
    requires Begins(text, n, rest) && |text| >= |ReplyHead(n)|
    ensures MatchesFold(text, |ReplyHead(n)| - 4, END)
  {
    var k := |ReplyHead(n)| - 4;
    assert text[k..k + 4] == ReplyHead(n)[k..] == END;
  }

  /** The blank line is found exactly when the whole head is there, and then at its end. */
  lemma EndIsAtEnd(text: string, n: nat, rest: string)
    requires Begins(text, n, rest)
    ensures FindFold(text, END, 0) == if |text| >= |ReplyHead(n)| then |ReplyHead(n)| - 4 else -1
  {
    var k := |ReplyHead(n)| - 4;
    forall j | 0 <= j < k ensures !MatchesFold(text, j, END) { NoEndBefore(text, n, rest, j); }
    if |text| >= |ReplyHead(n)| {
      EndAt(text, n, rest);
      FindFoldIs(text, END, 0, k);
    } else {
      FindFoldNone(text, END, 0);
    }
  }

  lemma FrontSlice(text: string, n: nat, rest: string, i: nat, j: nat)
    requires Begins(text, n, rest) && i <= j <= 33 && j <= |text|
    ensures |FRONT| == 33 && text[i..j] == FRONT[i..j]
  {
  }

  lemma OkIsFirst(text: string, n: nat, rest: string)
    requires Begins(text, n, rest) && |text| >= 17
    ensures FindFold(text, OK, 0) == 0
  {
    FrontParts();
    FrontSlice(text, n, rest, 0, 17);
    FindFoldIs(text, OK, 0, 0);
  }

  lemma NoLengthBefore(text: string, n: nat, rest: string, j: nat)
    requires Begins(text, n, rest) && j < 17
    ensures !MatchesFold(text, j, LENGTH)
  {
    FrontCs();
    HeadChars(n, 0);
    MatchChar(text, j, LENGTH, 0);
    HeadAt(text, n, rest, j);
  }

  lemma LengthIsNext(text: string, n: nat, rest: string)
    requires Begins(text, n, rest) && |text| >= 33
    ensures FindFold(text, LENGTH, 0) == 17
  {
    FrontParts();
    FrontSlice(text, n, rest, 17, 33);
    forall j | 0 <= j < 17 ensures !MatchesFold(text, j, LENGTH) { NoLengthBefore(text, n, rest, j); }
    FindFoldIs(text, LENGTH, 0, 17);
  }

  lemma CStringOf(head: string, body: string)
    requires '\0' !in head
    ensures CString(head + body) == head + CString(body)
  {
    if head == "" {
      assert head + body == body;
    } else {
      assert (head + body)[1..] == head[1..] + body;
      CStringOf(head[1..], body);
    }
  }

  lemma {:induction false} CStringIsPrefix(s: string)
    ensures CString(s) <= s
  {
    if s != "" && s[0] != '\0' { CStringIsPrefix(s[1..]); }
  }

  /** What the getter's string functions see of the first octets of a reply still begins like it. */
  lemma SeenBegins(b: string, n: nat, body: string)
    requires b <= ReplyHead(n) + body
    ensures CString(b) <= ReplyHead(n) + body && (|CString(b)| >= |ReplyHead(n)| <==> |b| >= |ReplyHead(n)|)
  {
    HeadPlain(n);
    if |b| < |ReplyHead(n)| {
      assert b <= ReplyHead(n);
      CStringOfClean(b);
    } else {
      var h := ReplyHead(n);
      assert b[..|h|] == h && b == h + b[|h|..];
      CStringOf(h, b[|h|..]);
      CStringIsPrefix(b[|h|..]);
      assert b[|h|..] <= body;
    }
  }
}
