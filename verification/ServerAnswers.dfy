/** What the server makes of any request line, and what it answers to any request, not only those the client of
    this repository sends. */
module ServerAnswers {
  import opened Text
  import opened Decimal
  import opened HttpParse
  import opened HttpServer

  // ---- request lines ----

  /** GET, an absolute path up to the next space, and whatever is behind that. */
  lemma AnyRequestLine(k: Intake, path: string, behind: string)
    requires path != "" && path[0] == '/' && ' ' !in path && '\0' !in path && '\0' !in behind
    ensures OnRequestLine(k, "GET " + path + " " + behind) ==
            if k.queue == [] then Intake(RequestHeaders, [Job(path, -1)], false) else k.(aborted := true)
  {
    var line := "GET " + path + " " + behind;
    CStringOfClean(line);
    assert line[0..4] == "GET " && FindFold(line, "GET ", 0) == 0;
    assert line[4 + |path|] == ' ' && line[4..4 + |path|] == path && line[4] == path[0];
    IndexOfUnique(line, ' ', 4, 4 + |path|);
  }

  /** A line without GET, a path that is not absolute, and a path without a space behind it, abort. */
  lemma BadRequestLines(k: Intake, line: string, path: string)
    requires '\0' !in line && '\0' !in path
    ensures (forall j: nat | j <= |line| :: !MatchesFold(line, j, "GET ")) ==>
            OnRequestLine(k, line) == k.(aborted := true)
    ensures path == "" || path[0] != '/' ==> OnRequestLine(k, "GET " + path) == k.(aborted := true)
    ensures ' ' !in path ==> OnRequestLine(k, "GET " + path) == k.(aborted := true)
  {
    var get := "GET " + path;
    CStringOfClean(line);
    CStringOfClean(get);
    assert get[0..4] == "GET " && FindFold(get, "GET ", 0) == 0;
    assert get[4..] == path;
    if FindFold(line, "GET ", 0) >= 0 { assert MatchesFold(line, FindFold(line, "GET ", 0), "GET "); }
  }

  // ---- answers ----

  /** The lines of a 200, and of a 206, as they are written. */
  function FullLines(kind: string, n: nat): seq<string> {
    ["HTTP/1.1 200 OK", "Content-Length: " + Print(n), "Content-Type: " + kind]
  }

  function RangeLines(kind: string, first: nat, n: nat): seq<string>
    requires first < n
  {
    ["HTTP/1.1 206 OK", "Content-Length: " + Print(n - first), "Content-Type: " + kind,
     "Content-Range: bytes " + Print(first) + "-" + Print(n - 1) + "/" + Print(n)]
  }

  function Kind(path: string): string {
    if |path| > 5 && path[|path| - 5..] == ".html" then "text/html" else "unknown"
  }

  lemma StatusLines()
    ensures "HTTP/1.1 " + Print(200) + " OK" == "HTTP/1.1 200 OK"
    ensures "HTTP/1.1 " + Print(206) + " OK" == "HTTP/1.1 206 OK"
  {
    assert Print(2) == "2" && Print(20) == "20" && Print(200) == "200" && Print(206) == "206";
  }

  lemma FieldTexts(v: string)
    ensures Field("Content-Length", v) == "Content-Length: " + v
    ensures Field("Content-Type", v) == "Content-Type: " + v
    ensures Field("Content-Range", v) == "Content-Range: " + v
  {
    assert "Content-Length" + ": " == "Content-Length: ";
    assert "Content-Type" + ": " == "Content-Type: ";
    assert "Content-Range" + ": " == "Content-Range: ";
  }

  lemma RangeText(first: nat, last: nat, n: nat)
    ensures "Content-Range: " + PrintContentRange(first, last, n) ==
            "Content-Range: bytes " + Print(first) + "-" + Print(last) + "/" + Print(n)
  {
    var x, y, z := Print(first), Print(last), Print(n);
    assert "Content-Range: " + "bytes " == "Content-Range: bytes ";
    assert "Content-Range: " + ("bytes " + x + "-" + y + "/" + z) ==
           "Content-Range: " + "bytes " + x + "-" + y + "/" + z;
  }

  lemma FullLinesAre(path: string, first: int, n: nat)
    requires first < 0
    ensures ResponseLines(path, first, n) == FullLines(Kind(path), n)
  {
    StatusLines();
    HtmlIff(path);
    FieldTexts(Print(n));
    FieldTexts(Kind(path));
  }

  lemma RangeLinesAre(path: string, first: nat, n: nat)
    requires first < n
    ensures ResponseLines(path, first, n) == RangeLines(Kind(path), first, n)
  {
    StatusLines();
    HtmlIff(path);
    FieldTexts(Print(n - first));
    FieldTexts(Kind(path));
    FieldTexts(PrintContentRange(first, n - 1, n));
    RangeText(first, n - 1, n);
  }

  /** Any request: the file below the document root is there and not empty, and a Range, 0 included, begins
      within it and ends at an octet an int can number; then the answer is all of it, or all from there, under
      exactly these lines of a head. Otherwise an assertion fails. */
  lemma AnyAnswer(files: Files, root: string, job: Job)
    ensures var path := root + job.path;
            var n := if path in files then |files[path]| else 0;
            var ok := n > 0 && job.first < n && (job.first >= 0 ==> n <= 0x8000_0000);
            && (!ok ==> ReplyTo(files, root, job) == NoReply)
            && (ok && job.first < 0 ==> ReplyTo(files, root, job) == Reply(Head(FullLines(Kind(path), n)), files[path]))
            && (ok && job.first >= 0 ==>
                ReplyTo(files, root, job) ==
                Reply(Head(RangeLines(Kind(path), job.first, n)), files[path][job.first..]))
  {
    var path := root + job.path;
    if path in files {
      var n := |files[path]|;
      Wrap32Identity(n - 1);
      if Servable(files, path, job.first) {
        if job.first < 0 { FullLinesAre(path, job.first, n); } else { RangeLinesAre(path, job.first, n); }
      }
    }
  }
}
