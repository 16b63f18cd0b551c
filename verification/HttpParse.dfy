/** web/utility/http_parse.c: readers for the Range and Content-Range header values
    (sections 2.1, 3.1 and 4.2 of RFC 7233). */
module HttpParse {
  import opened Text
  import opened Decimal

  const MALFORMED: int := -1
  const OVERRUN: int := -2   // the C code would read past the terminating NUL

  /** skipComment, from just after the opening parenthesis. */
  function SkipComment(buf: string, i: nat): (r: int)
    ensures r == MALFORMED || r == OVERRUN || i < r <= |buf|
    decreases |buf| - i
  {
    if i >= |buf| then OVERRUN
    else if buf[i] == '\\' && At(buf, i + 1) == ')' then SkipComment(buf, i + 2)
    else if buf[i] == ')' then i + 1
    else if buf[i] == '\n' then
      if At(buf, i + 1) == ' ' || At(buf, i + 1) == '\t' then SkipComment(buf, i + 2) else MALFORMED
    else if buf[i] == '\r' then
      if At(buf, i + 1) != '\n' then MALFORMED
      else if At(buf, i + 2) == ' ' || At(buf, i + 2) == '\t' then SkipComment(buf, i + 3) else MALFORMED
    else SkipComment(buf, i + 1)
  }

  function SkipWhitespace(buf: string, i: nat): (r: int)
    requires i <= |buf|
    ensures r == MALFORMED || r == OVERRUN || i <= r <= |buf|
    decreases |buf| - i
  {
    var c := At(buf, i);
    if c == ' ' || c == '\t' then SkipWhitespace(buf, i + 1)
    else if c == '(' then
      var j := SkipComment(buf, i + 1);
      if j < 0 then j else SkipWhitespace(buf, j)
    else if c == '\n' && (At(buf, i + 1) == ' ' || At(buf, i + 1) == '\t') then SkipWhitespace(buf, i + 2)
    else if c == '\r' && At(buf, i + 1) == '\n' && (At(buf, i + 2) == ' ' || At(buf, i + 2) == '\t') then
      SkipWhitespace(buf, i + 3)
    else i
  }

  method ScanComment(buf: string, start: nat) returns (r: int)
    ensures r == SkipComment(buf, start)
  {
    var i := start;
    while i < |buf|
      invariant SkipComment(buf, start) == SkipComment(buf, i)
      decreases |buf| - i
    {
      if buf[i] == '\\' && At(buf, i + 1) == ')' { i := i + 2; }
      else if buf[i] == ')' { return i + 1; }
      else if buf[i] == '\n' {
        if At(buf, i + 1) == ' ' || At(buf, i + 1) == '\t' { i := i + 2; } else { return MALFORMED; }
      } else if buf[i] == '\r' {
        if At(buf, i + 1) != '\n' { return MALFORMED; }
        if At(buf, i + 2) == ' ' || At(buf, i + 2) == '\t' { i := i + 3; } else { return MALFORMED; }
      } else { i := i + 1; }
    }
    return OVERRUN;
  }

  method ScanWhitespace(buf: string, start: nat) returns (r: int)
    requires start <= |buf|
    ensures r == SkipWhitespace(buf, start)
  {
    var i := start;
    while true
      invariant i <= |buf|
      invariant SkipWhitespace(buf, start) == SkipWhitespace(buf, i)
      decreases |buf| - i
    {
      var c := At(buf, i);
      if c == ' ' || c == '\t' { i := i + 1; }
      else if c == '(' {
        var j := ScanComment(buf, i + 1);
        if j < 0 { return j; }
        i := j;
      } else if c == '\n' && (At(buf, i + 1) == ' ' || At(buf, i + 1) == '\t') { i := i + 2; }
      else if c == '\r' && At(buf, i + 1) == '\n' && (At(buf, i + 2) == ' ' || At(buf, i + 2) == '\t') { i := i + 3; }
      else { return i; }
    }
  }

  datatype IntScan = NoInt | IntAt(value: int, next: nat)

  /** parseInt: the maximal digit run at `i`, truncated to a C `int`. */
  function ParseInt(buf: string, i: nat): (r: IntScan)
    ensures r.IntAt? ==> i < r.next <= |buf|
  {
    if i < |buf| && IsDigit(buf[i]) then
      var j := DigitsEnd(buf, i);
      IntAt(Wrap32(Value(buf[i..j])), j)
    else NoInt
  }

  /** The C loop keeps the running value in an `int`; it still ends with the truncation of the
      exact number. */
  method ScanInt(buf: string, start: nat) returns (next: int, val: int)
    ensures ParseInt(buf, start) == NoInt ==> next == -1
    ensures ParseInt(buf, start) != NoInt ==> next >= 0 && ParseInt(buf, start) == IntAt(val, next)
  {
    var i := start;
    val := 0;
    if !(i < |buf| && IsDigit(buf[i])) { return -1, 0; }
    while i < |buf| && IsDigit(buf[i])
      invariant start <= i <= |buf|
      invariant DigitsEnd(buf, start) == DigitsEnd(buf, i)
      invariant forall k | start <= k < i :: IsDigit(buf[k])
      invariant val == Wrap32(Value(buf[start..i]))
    {
      assert buf[start..i + 1][..i - start] == buf[start..i];
      WrapDigitStep(Value(buf[start..i]), DigitValue(buf[i]));
      val := Wrap32(val * 10 + DigitValue(buf[i]));
      i := i + 1;
    }
    next := i;
  }

  datatype RangeScan = BadRange | RangeAt(from: int, to: int, next: nat)

  predicate Matches(buf: string, i: nat, lit: string) {
    i + |lit| <= |buf| && buf[i..i + |lit|] == lit
  }

  function ParseRange(buf: string, start: nat): (r: RangeScan)
    requires start <= |buf|
  {
    var i := SkipWhitespace(buf, start);
    if i < 0 || !Matches(buf, i, "bytes=") then BadRange else
    var j := SkipWhitespace(buf, i + 6);
    if j < 0 then BadRange else
    var from := if At(buf, j) == '-' then IntAt(0, j) else ParseInt(buf, j);
    if from.NoInt? || At(buf, from.next) != '-' then BadRange else
    var to := ParseInt(buf, from.next + 1);
    if to.NoInt? then RangeAt(from.value, -1, from.next + 1) else RangeAt(from.value, to.value, to.next)
  }

  datatype ContentRangeScan = BadContentRange | ContentRangeAt(first: int, last: int, full: int, next: nat)

  function ParseContentRange(buf: string, start: nat): (r: ContentRangeScan)
    requires start <= |buf|
  {
    var i := SkipWhitespace(buf, start);
    if i < 0 || !Matches(buf, i, "bytes") then BadContentRange else
    var j := SkipWhitespace(buf, i + 5);
    if j < 0 then BadContentRange
    else if At(buf, j) == '*' then FullLength(buf, 0, -1, j + 1)
    else
      var from := ParseInt(buf, j);
      if from.NoInt? || At(buf, from.next) != '-' then BadContentRange else
      var to := ParseInt(buf, from.next + 1);
      if to.NoInt? then BadContentRange else FullLength(buf, from.value, to.value, to.next)
  }

  function FullLength(buf: string, from: int, to: int, i: nat): (r: ContentRangeScan) {
    if At(buf, i) != '/' then BadContentRange
    else if At(buf, i + 1) == '*' then ContentRangeAt(from, to, -1, i + 1)
    else
      var full := ParseInt(buf, i + 1);
      if full.NoInt? then BadContentRange else ContentRangeAt(from, to, full.value, full.next)
  }

  // ---- the printers on the other side, and the round trips ----

  /** The value the client prints, web/utility/connection.cc:235-236. */
  function PrintRange(n: nat): string { "bytes=" + Print(n) + "-" }

  /** The value the server prints, web/webserver/handler.cc:562-565. */
  function PrintContentRange(first: nat, last: nat, full: nat): string {
    "bytes " + Print(first) + "-" + Print(last) + "/" + Print(full)
  }

  predicate AllDigits(s: string) { s != "" && forall k | 0 <= k < |s| :: IsDigit(s[k]) }

  lemma ParseIntOfDigits(pre: string, d: string, post: string)
    requires AllDigits(d) && (post == "" || !IsDigit(post[0]))
    ensures ParseInt(pre + d + post, |pre|) == IntAt(Wrap32(Value(d)), |pre| + |d|)
  {
    var s := pre + d + post;
    DigitsEndIs(s, |pre|, |pre| + |d|);
    assert s[|pre|..|pre| + |d|] == d;
  }

  lemma ParseRangeBy(s: string, i: nat, from: IntScan)
    requires i + 6 < |s| && s[i..i + 6] == "bytes=" && IsDigit(s[i + 6])
    requires from.IntAt? && ParseInt(s, i + 6) == from && At(s, from.next) == '-'
    requires from.next + 1 == |s|
    ensures ParseRange(s, i) == RangeAt(from.value, -1, |s|)
  {
    assert s[i] == s[i..i + 6][0] == 'b';
  }

  lemma Parts(pre: string, u: string, d: string, post: string)
    ensures var s := pre + u + d + post;
            s == pre + (u + d + post) && s[|pre|..|pre| + |u|] == u &&
            (d != "" ==> s[|pre| + |u|] == d[0]) && (post != "" ==> s[|pre| + |u| + |d|] == post[0])
  {
  }

  lemma RangeOfDigits(pre: string, u: string, d: string)
    requires AllDigits(d) && u == "bytes="
    ensures ParseRange(pre + (u + d + "-"), |pre|) == RangeAt(Wrap32(Value(d)), -1, |pre| + |d| + 7)
  {
    Parts(pre, u, d, "-");
    ParseIntOfDigits(pre + u, d, "-");
    ParseRangeBy(pre + u + d + "-", |pre|, IntAt(Wrap32(Value(d)), |pre| + 6 + |d|));
  }

  /** What the server reads out of the Range header the client wrote: the start modulo 2^32,
      hence exactly the start if and only if it fits a C `int`. */
  lemma RangeRoundTrip(pre: string, n: nat)
    ensures ParseRange(pre + PrintRange(n), |pre|) == RangeAt(Wrap32(n), -1, |pre| + |PrintRange(n)|)
    ensures ParseRange(pre + PrintRange(n), |pre|).from == n <==> n <= INT32_MAX
  {
    RangeOfDigits(pre, "bytes=", Print(n));
    ValueOfPrint(n);
    Wrap32Identity(n);
  }

  lemma FullLengthOfDigits(pre: string, d: string, from: int, to: int)
    requires AllDigits(d)
    ensures var s := pre + "/" + d;
            FullLength(s, from, to, |pre|) == ContentRangeAt(from, to, Wrap32(Value(d)), |s|)
  {
    var s := pre + "/" + d;
    assert s[|pre|] == '/' && s[|pre| + 1] == d[0];
    assert s == (pre + "/") + d + "";
    ParseIntOfDigits(pre + "/", d, "");
  }

  lemma BytesUnit(s: string)
    requires |s| > 6 && s[..6] == "bytes " && IsDigit(s[6])
    ensures SkipWhitespace(s, 0) == 0 && Matches(s, 0, "bytes") && SkipWhitespace(s, 5) == 6
  {
    assert s[0] == s[..6][0] == 'b';
    assert s[5] == s[..6][5] == ' ';
    assert s[0..5] == s[..6][..5];
    assert SkipWhitespace(s, 6) == 6;
  }

  lemma Regroup(u: string, a: string, d: string, b: string, c: string, n: string)
    ensures u + a + d + b + c + n == u + a + (d + b + c + n)
    ensures u + a + d + b + c + n == (u + a + d) + b + (c + n)
  {
  }

  lemma ParseContentRangeBy(s: string, a: IntScan, b: IntScan)
    requires |s| > 6 && s[..6] == "bytes " && IsDigit(s[6])
    requires a.IntAt? && ParseInt(s, 6) == a && At(s, a.next) == '-'
    requires b.IntAt? && ParseInt(s, a.next + 1) == b
    ensures ParseContentRange(s, 0) == FullLength(s, a.value, b.value, b.next)
  {
    BytesUnit(s);
  }

  lemma ContentRangeOfDigits(u: string, pa: string, pb: string, pn: string)
    requires u == "bytes " && AllDigits(pa) && AllDigits(pb) && AllDigits(pn)
    ensures var s := u + pa + "-" + pb + "/" + pn;
            ParseContentRange(s, 0) == ContentRangeAt(Wrap32(Value(pa)), Wrap32(Value(pb)), Wrap32(Value(pn)), |s|)
  {
    var s := u + pa + "-" + pb + "/" + pn;
    Regroup(u, pa, "-", pb, "/", pn);
    ParseIntOfDigits(u, pa, "-" + pb + "/" + pn);
    ParseIntOfDigits(u + pa + "-", pb, "/" + pn);
    var p := 6 + |pa|;
    assert s[..6] == u && s[6] == pa[0] && s[p] == '-';
    ParseContentRangeBy(s, IntAt(Wrap32(Value(pa)), p), IntAt(Wrap32(Value(pb)), p + 1 + |pb|));
    FullLengthOfDigits(u + pa + "-" + pb, pn, Wrap32(Value(pa)), Wrap32(Value(pb)));
  }

  /** Likewise for the Content-Range value the server writes and the client reads. */
  lemma ContentRangeRoundTrip(a: nat, b: nat, n: nat)
    ensures var s := PrintContentRange(a, b, n);
            ParseContentRange(s, 0) == ContentRangeAt(Wrap32(a), Wrap32(b), Wrap32(n), |s|)
  {
    ContentRangeOfDigits("bytes ", Print(a), Print(b), Print(n));
    ValueOfPrint(a);
    ValueOfPrint(b);
    ValueOfPrint(n);
  }
}
