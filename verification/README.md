# Shadow plug-ins: a model of the transfer protocols

This project models the event-driven transfer protocols of the Shadow plug-ins and proves what they
promise. Every `recv`, `send`, `read`, `write` and connection loss is a nondeterministic input; the code
between them is the transition function. One `char` stands for one octet.

Two layers meet in each part. The objects of the source are classes whose methods update fields, buffers
and queues in place, with the loops and gotos of the source. Their contracts tie the new state to
functions on values, and the theorems about whole runs are lemmas about those functions.

**The web stack with byte-range resume.** `Text`, `Decimal` and `HttpParse` are octet strings, numbers and
the Range and Content-Range readers. `LineMachine` is a buffered parser as a small-step machine, with what
splitting its input into `recv` passes and into calls can do to it; `HeadText`, `CallBoundaries` and
`MessageStream` carry this to message heads and bodies. `HttpClient` is the client's parser on values and
`HttpConnection` the Connection object; `RequestQueue` follows its requests over its whole life.
`HttpServer` is the server's intake and pump on values and `HttpHandler` the Handler object, whose gotos
are kept as a program counter; `ServerAnswers` says what it answers to any request. `ClientReads` and
`ClientCalls` say what the client makes of a response, `ServerReads` and `Exchange` what the server makes
of a request. `Resume` puts both ends, the wire between them and the retry rule together, and `Completion`
shows when no assertion fails and that nothing then prevents completion.

**The connection manager.** `Scheduling` has its lists and queues on values, `SchedulingRuns` the
invariants of whole runs, with callbacks that submit further requests, `SchedulingLoss` which requests
can be lost and when none is, `SchedulingRetries` how often one is tried and where a submission goes, and
`ConnectionManager` the object.

**The torrent exchange.** `Torrent` is one client and one server with the sockets and epoll masks between
them, `Swarm` one client and any number of servers, `TorrentPeers` the two objects.

**The Tor control connection.** `TorControl` frames lines and groups replies; `TorConnection` is the
object with its fixed buffer.

**The file transfer.** `FileTransfer` holds the shared strings, `FileServer` and `FileGetter` the two
machines, the first with its object, `GetterBuffer` the getter object, and `WholeFile` both together.

**The browsers.** `EmbeddedObjects` is the scheduler of browser/browser.c on values, `EmbeddedRuns` its
invariants and outcomes over whole runs, `EmbeddedBrowser` the object. `PageLoad` is a page load of
web/browser/browser.cc with its verdict, `PageRuns` what holds over every run of its callbacks,
`PageFinish` what it requests and that it can finish, `PageBrowser` the object. `Cdf` is the distribution
its think times come from.

What the code does not do although its comments or names promise it, each with its exact condition:

- A range response is refused although it is correct when an `http_receive` call ends within the last two
  octets of its head, because `content_range_found` is a local variable (`ClientCalls.ResponseOverCalls`,
  `ClientCalls.CutInEmptyLine`).
- A range request whose head reaches the server in pieces is answered as if it had no Range, unless at
  most the empty line was missing (`ServerReads.RangeSurvivesSplit`, `ServerReads.CutLosesRange`). Neither
  ever delivers a wrong octet (`Resume.ResumeExact`); which runs they end in a failed assertion is
  `Resume.RunCrashIff`.
- A body-done callback that submits requests can leave one pending on a connection, there it stays while
  requests keep waiting for the server, and losing the connection then fails an assertion
  (`SchedulingRuns.PendingIff`, `SchedulingRuns.RunPendingIff`, `SchedulingLoss.ReentryLeavesPending`).
- A Tor control reply with data is never completed when lines end in CRLF (`TorControl.DataEndsAt`,
  `TorControl.DotIsData`).
- The getter's write offset reaches the size of its buffer when one recv() fills the buffer while the reply
  head is awaited (`FileGetter.OverrunIff`, `FileGetter.LongReplyFills`).
- A file that contains the 404 status line is reported missing when that line comes with the recv() that
  completes the reply head (`FileGetter.Err404Iff`).
- The server never marks a reply done whose length, head and file together, is a multiple of 51200 octets:
  the last fread() fills the buffer without meeting the end of the file, and the connection ends in a send
  of nothing (`FileServer.DoneIff`, `FileServer.FullBufferNeverDone`).
- SB_SUCCESS in browser/browser.c does not mean that every object has been fetched: a host whose last
  connection is refused keeps its queue (`EmbeddedRuns.RunStrands`, `EmbeddedRuns.LeftBehind`). And when a
  getter dies it sets the `sockd` its table entry is keyed by to 0. A GHashTable compares the stored hash
  and then the key, so no lookup finds the entry any more, `g_hash_table_steal` does not remove it, and
  the table never becomes empty (`EmbeddedRuns.DeathIsFinal`).
- The digest of a page's resource is compared only if the head of its first attempt came
  (`PageRuns.FitsMeans`, `PageRuns.WrongDigestPasses`).
- `cdf_getValue` fails above the last fraction, 0.95 in what `cdf_generate` makes (`Cdf.LookupFails`,
  `Cdf.GenerateFails`).

## Model

| member | source | states |
|---|---|---|
| HttpParse.ScanComment | web/utility/http_parse.c:10-34 | the index loop over a parenthesised comment ends where the recursive specification says, including the overrun of an unclosed one |
| HttpParse.ScanWhitespace | web/utility/http_parse.c:36-58 | likewise for blanks, folded lines and comments |
| HttpParse.ScanInt | web/utility/http_parse.c:77-89 | the loop that accumulates in a C int yields the exact number truncated to 32 bits, however long the digit run |
| HttpParse.RangeRoundTrip | web/utility/connection.cc:232-237 | the Range the client prints is read back by parseRange as its value modulo 2^32, so as itself exactly when it fits a C int |
| HttpParse.ContentRangeRoundTrip | web/webserver/handler.cc:547-566 | the Content-Range the server prints is read back by parseContentRange as the three numbers, each truncated to 32 bits |
| LineMachine.DrainPush | web/utility/connection.cc:630-802 | processing what is in the buffer and then more is processing all of it at once |
| LineMachine.ReceiveAllIsReceive | web/utility/connection.cc:571-624 | the sizes in which recv() returns the octets make no difference within one call |
| LineMachine.CallsAreReceive | web/utility/connection.cc:569-569 | over several calls, a parser indifferent to what it forgets between them depends only on the concatenation |
| HttpClient.ChunkIndependence | web/utility/connection.cc:544-807 | for responses without a range, over any number of http_receive calls, notifications and parser state depend only on the octets received (section 3.3.3 of RFC 7230 framing by Content-Length) |
| HttpClient.ReceiveIgnoresOutbuf | web/utility/connection.cc:544-807 | sending and receiving on one connection do not interfere while nothing waits to be submitted |
| HttpConnection.BodyPiece | web/utility/connection.cc:754-774 | a body piece of any size has the effect of that many single octets |
| HttpConnection.Connection.HttpWriteToOutbuf | web/utility/connection.cc:191-252 | moves the front submitted request to the empty active queue and appends its head, or does nothing |
| HttpConnection.Connection.SubmitRequest | web/utility/connection.cc:254-304 | appends the request and writes it out if none is active |
| HttpConnection.Connection.Send | web/utility/connection.cc:983-1024 | hands a prefix of outbuf_ to the socket and keeps the rest |
| HttpConnection.Connection.HandleResponse | web/utility/connection.cc:630-802 | the handle_response loop terminates and reaches exactly the state of the small-step parser |
| HttpConnection.Connection.TakeStatusLine | web/utility/connection.cc:633-655 | status line: only 200 and 206 go on to the headers |
| HttpConnection.Connection.TakeHeaderLine | web/utility/connection.cc:664-742 | header line: split at the colon, recorded, and Content-Length and Content-Range acted on |
| HttpConnection.Connection.TakeHeadEnd | web/utility/connection.cc:676-704 | end of head: the three assertions, the notification, and the body state |
| HttpConnection.Connection.TakeBody | web/utility/connection.cc:750-799 | the body loop over evbuffer_peek pieces, the notifications and the end of the response |
| HttpConnection.Connection.HttpReceive | web/utility/connection.cc:544-807 | one whole call equals one call of the parser, which forgets content_range_found, and reports end of file |
| RequestQueue.EndWritesNext | web/utility/connection.cc:750-792 | the octets that complete a body, however recv() cuts them, end its request with the whole body, and the next submitted request is active at once with its head in outbuf_ and its Range start the one to be checked |
| RequestQueue.RequestSays | web/utility/connection.cc:212-237 | what a request head says, read back at the first space and colon: the path, each header in its order, and last the Range if the start is not 0 |
| RequestQueue.LifeInOrder | web/utility/connection.cc:191-304 | over every run of submissions, writes and reads: the requests asked for are those that have ended, the active one and the waiting ones in the order of submission, the wire and outbuf_ hold exactly the heads of those begun, and none waits while none is active |
| RequestQueue.BornInOrder | web/utility/connection.cc:191-304 | so from a new connection, and when nothing is active all that was asked for has ended |
| ClientReads.AnyStatusLine | web/utility/connection.cc:633-655 | of any status line the number behind the first space is the status, and only 200 and 206 lead on |
| ClientReads.AnyHeaderLine | web/utility/connection.cc:707-742 | any header line is split at its first colon, with one character behind that left out |
| ClientReads.BadLines | web/utility/connection.cc:637-712 | a status line without a space and a header line without a colon abort; so does, in the model, one with nothing behind its colon, where the code would read behind the line |
| ClientReads.StageStep | web/utility/connection.cc:630-746 | each line of a response head takes the parser to the next stage |
| ClientReads.BodyArrives | web/utility/connection.cc:750-792 | after m octets of the body exactly the first m octets from the Range start on have been handed over, and the request is done when all have |
| CallBoundaries.CallsOnStream | web/utility/connection.cc:569-681 | a parser that forgets between calls goes wrong on a stream exactly when some call but the last ends inside the critical stretch |
| MessageStream.HeadOverCalls | web/utility/connection.cc:662-748 | the same for a message head cut into calls at will |
| MessageStream.BodyOverCalls | web/utility/connection.cc:750-799 | and for the body behind it |
| ClientCalls.ResponseOverCalls | web/utility/connection.cc:569-807 | for every cutting of a range response into calls: the client aborts if and only if a call, not the last, ends within the last two octets of the head; otherwise every octet that came has been delivered |
| ClientCalls.HeadTold | web/utility/connection.cc:676-704 | whatever the calls, once the head is complete and unless the client aborts, the request has been told the status, the length of what follows, text/html exactly for a name ending in .html, and of a range where it lies |
| ClientCalls.CutInEmptyLine | web/utility/connection.cc:681-685 | two calls that cut any range response in the middle of its empty line make the client abort |
| ClientCalls.MissedRangeWaits | web/utility/connection.cc:681-685 | a whole-file answer to a range request delivers nothing while its head is incomplete |
| ClientCalls.MissedRangeAborts | web/utility/connection.cc:681-685 | and aborts, delivering nothing, in the call that completes the head |
| HttpHandler.Handler.ProcessInbuf | web/webserver/handler.cc:282-400 | the line loop of process_inbuf_ computes Digest, and says when more input would simply be appended |
| HttpHandler.Handler.RecvFromClient | web/webserver/handler.cc:176-280 | any number of recv() passes has the effect of one pass with all their octets, and nothing is read while a request is queued |
| HttpHandler.Handler.BeginResponse | web/webserver/handler.cc:483-597 | starts the front request's response, or fails exactly when the file cannot be served |
| ServerAnswers.AnyRequestLine | web/webserver/handler.cc:299-341 | any GET of an absolute path queues the path up to the next space, if nothing is queued |
| ServerAnswers.BadRequestLines | web/webserver/handler.cc:299-341 | a line without GET, a path that is not absolute and a path with nothing behind it abort |
| ServerAnswers.AnyAnswer | web/webserver/handler.cc:483-597 | exactly which requests are answered, a Range from 0 included, and then the lines of the head and the octets of the body |
| HttpServer.HtmlIff | web/webserver/handler.cc:520-533 | the content type is text/html if and only if the path ends in .html with something in front of that, and otherwise unknown |
| HttpHandler.Handler.ReadFile | web/webserver/handler.cc:599-677 | one pass over the file; at its end the byte counters agree and the request leaves the queue |
| HttpHandler.Handler.WriteOnce | web/webserver/handler.cc:686-741 | one write of a prefix of outbuf_; nothing is lost or repeated |
| HttpHandler.Handler.SendToClient | web/webserver/handler.cc:404-751 | always returns; count < 0x2f never fails; sent plus outbuf_ plus unread file is always the concatenation of the responses begun; leaves a response unfinished only over the high-water mark; and keeps every property its steps keep |
| ServerReads.RangeSurvivesSplit | web/webserver/handler.cc:296-382 | a request cut by recv() is answered with its Range if and only if at most the empty line was missing when it was queued |
| ServerReads.CutLosesRange | web/webserver/handler.cc:296-382 | a cut behind the request line queues any range request without its Range |
| ServerReads.DigestPrefix | web/webserver/handler.cc:282-400 | what the intake makes of any proper prefix of a request head |
| ServerReads.DigestWhole | web/webserver/handler.cc:282-400 | a head that arrives whole queues the path and Range start the client asked for and leaves nothing behind |
| ServerReads.DigestLate | web/webserver/handler.cc:344-382 | header lines arriving after the answer are passed over, and fail an assertion exactly when the Range is among them and complete |
| Exchange.ArriveFirst | web/webserver/handler.cc:299-341 | from any partial request, a recv() either queues nothing, or queues the request with its Range, or without it when more than the empty line is missing |
| Exchange.ServeKeeps | web/webserver/handler.cc:468-746 | every step of the pump keeps sent plus outbuf plus unread equal to the response and leaves the intake alone |
| Exchange.PumpKeeps | web/webserver/handler.cc:404-751 | so the Handler object keeps it through send_to_client |
| Resume.StepDelivers | web/utility/connection_manager.cc:250-286 | every step of client, server, network or retry keeps the delivered octets a prefix of the file |
| Resume.ResumeExact | web/utility/connection_manager.cc:250-286 | over every run, with any read and write sizes and any losses: the octets delivered over all attempts are a prefix of the file, a Range start is below the file size, retries are within bounds, the request finishes exactly when the whole file has been delivered, its retries are the losses it has survived, and it is given up exactly at the loss after max_retries others |
| Resume.RetriesAreLosses | web/utility/connection_manager.cc:250-286 | the same of a request that has been tried before |
| Resume.CrashIff | web/utility/connection.cc:676-742 | in every reachable state exactly these steps fail an assertion of either end: a recv() of the server that completes the Range line of a request it has already queued, and a call of the client that ends with a whole head of which an earlier call had stopped in the last two octets, or of a whole-file answer to a range request |
| Resume.RunCrashIff | web/utility/connection.cc:676-742 | so a run fails an assertion if and only if some step of it is one of these |
| Completion.CarefulNeverCrashes | web/utility/connection.cc:724-738 | if no request is queued without its Range and no call ends in the last two octets of a range response head, no size, first-byte or Content-Range assertion of either end fails in any run |
| Completion.CanFinish | web/webserver/handler.cc:404-751 | from every state of such a run the request can still finish on the same connection: no deadlock |
| Completion.FinishedRests | web/utility/connection.cc:775-792 | a finished exchange whose request head the server has read to the end leaves the connection fit for the next request |
| Scheduling.HandWf | web/utility/connection_manager.cc:137-146 | handing the front request to a connection keeps every queue in agreement with the record |
| Scheduling.ReleaseWf | web/utility/connection_manager.cc:351-383 | so does releasing a connection |
| SchedulingRuns.SubmitWorks | web/utility/connection_manager.cc:94-146 | a submission leaves no connection of any server idle while requests wait there, if none was before |
| SchedulingRuns.SubmitElsewhere | web/utility/connection_manager.cc:86-146 | and does not touch the list or the connections of other servers |
| SchedulingRuns.SubmitSlots | web/utility/connection_manager.cc:97-146 | a submission takes a free slot if there is one and otherwise lengthens the list |
| SchedulingRuns.BodyDoneQuiet | web/utility/connection.cc:775-791 | the end of a response, with a callback that submits any requests, keeps all invariants |
| SchedulingRuns.LostQuiet | web/utility/connection_manager.cc:227-286 | so does losing a connection and retrying its request |
| SchedulingRuns.LostThenQuiet | web/utility/connection_manager.cc:259-265 | even when the callback of a request that fails for good submits further requests |
| SchedulingRuns.RunQuiet | web/utility/connection_manager.cc:77-286 | in every run: connection cap, at most one active and one pending request per connection, lists served first in first out with retries at the back, no idle connection while requests wait |
| SchedulingRuns.OnePlace | web/utility/connection_manager.cc:77-286 | every request ever submitted is in exactly one queue or final state |
| SchedulingRuns.PendingIff | web/utility/connection_manager.cc:242-242 | a finished connection is left with a pending request, on which the assertion would fail, if and only if it held one already or its callback submitted to the same server, and requests were waiting there or the callback submitted more than the free slots |
| SchedulingRuns.RunPendingIff | web/utility/connection_manager.cc:242-242 | over every run: no connection ever has a pending request, so the assertion holds at every loss, if and only if each callback submits nothing to its own server, or finds nothing waiting there and submits no more than the free slots |
| SchedulingRuns.NoReentryNoPending | web/utility/connection_manager.cc:242-242 | without re-entry no connection ever has a pending request |
| SchedulingLoss.LoseDrops | web/utility/connection_manager.cc:370-374 | losing a connection drops a waiting request if and only if it waits for that server and that was the server's only connection, whatever callbacks submit |
| SchedulingLoss.LoseFails | web/utility/connection_manager.cc:259-265 | a request fails if and only if the connection it is active on is lost with its retries used up |
| SchedulingLoss.NothingLost | web/utility/connection_manager.cc:351-383 | with a cap of two or more, in every run without reset in which no request fails, none is dropped |
| SchedulingLoss.OneConnectionDrops | web/utility/connection_manager.cc:370-374 | with a cap of one every loss drops all who wait for that server |
| SchedulingLoss.SecondWaits | web/utility/connection_manager.cc:111-135 | and a second request does wait there |
| SchedulingLoss.ReentryLeavesPending | web/utility/connection_manager.cc:242-242 | two requests to a server with one connection, and a callback that submits a third when the first is done: the connection is left with a pending request and losing it fails the assertion |
| SchedulingRetries.LoseRetries | web/utility/connection_manager.cc:250-286 | losing the connection a request is active on counts one retry and submits it again while it has any left |
| SchedulingRetries.RetriesAreLosses | web/utility/connection_manager.cc:250-286 | over every run: the retries of a request grow by the losses of connections it was active on, but for the one that fails it, and it fails exactly at the loss after max others |
| SchedulingRetries.FailsAtLast | web/utility/connection_manager.cc:259-265 | so from the beginning at the (max + 1)-th |
| SchedulingRetries.SubmitReuses | web/utility/connection_manager.cc:97-105 | with a free connection a submission opens none: the request is active on the first free one of the list |
| SchedulingRetries.SubmitOpens | web/utility/connection_manager.cc:111-146 | with none free and fewer than the cap it opens one, where the request that has waited longest becomes active |
| SchedulingRetries.SubmitQueues | web/utility/connection_manager.cc:111-146 | with none free and the cap reached it waits at the end of the list and no connection changes |
| ConnectionManager.ConnectionManager.FindIdle | web/utility/connection_manager.cc:98-104 | the loop finds the first connection with empty queues |
| ConnectionManager.ConnectionManager.SubmitRequest | web/utility/connection_manager.cc:77-149 | the object's new state is that of the specification |
| ConnectionManager.ConnectionManager.CnxRequestDone | web/utility/connection_manager.cc:170-203 | the front waiting request goes to the connection that has finished |
| ConnectionManager.ConnectionManager.ResponseDone | web/utility/connection.cc:775-791 | pop, callback, request-done callback and write, in that order |
| ConnectionManager.ConnectionManager.ReleaseConn | web/utility/connection_manager.cc:351-383 | removal from the list, the server entry with the last one, and the totals |
| ConnectionManager.ConnectionManager.RetryRequests | web/utility/connection_manager.cc:250-286 | the loop pops the queue, failing or resubmitting each request, with what the callback of a failed one submits |
| ConnectionManager.ConnectionManager.HandleUnusableConn | web/utility/connection_manager.cc:227-246 | release and retry, exactly when the pending-queue assertion holds |
| ConnectionManager.ConnectionManager.GetTotalBytes | web/utility/connection_manager.cc:290-310 | the totals are all octets moved since the last reset by connections live or gone |
| ConnectionManager.ConnectionManager.Clear | web/utility/connection_manager.cc:314-331 | reset drops every request that is not finished or failed |
| Torrent.ClientTurnGood | torrent/torrent-client.c:391-485 | every activation of the client keeps the joint invariant of client, server, sockets and masks, and brings the block nearer its end unless a call blocks |
| Torrent.ServerTurnGood | torrent/torrent-server.c:212-295 | likewise for the server |
| Torrent.SomeoneMoves | torrent/torrent-client.c:419-468 | in every reachable joint state before the client retires, the data or room there is activates one of the two under its mask |
| Torrent.EmptyDownloadDeadlocks | torrent/torrent-client.c:108-108 | why the download block must not be empty: the pair would wait for good; torrentClient_start divides by its size first |
| Swarm.RunConserves | torrent/torrent-client.c:391-485 | over every run with any number of servers: blocks remaining, in flight and downloaded add up to the number of blocks, and totalBytesDown is the downloaded blocks plus what is in flight |
| Swarm.CompleteBounds | torrent/torrent.c:344-348 | at completion exactly the blocks asked for have come and fileSize <= totalBytesDown < fileSize + downBlockSize |
| Swarm.StepLeft | torrent/torrent-client.c:419-468 | no turn lengthens the way to the end, and one in which nothing blocks shortens it |
| Swarm.SomeTurn | torrent/torrent-client.c:391-485 | while a server is not retired some turn is possible that shortens it: deadlock freedom of the swarm |
| Swarm.RunsEnd | torrent/torrent-client.c:391-485 | no run keeps busy for more turns than a bound known at its start |
| Swarm.Completes | torrent/torrent-client.c:391-485 | from every reachable state with a server the download can complete |
| Swarm.BlocksCover | torrent/torrent-client.c:108-112 | the rounded-up quotient covers the file by less than a block |
| TorrentPeers.TorrentClient.constructor | torrent/torrent-client.c:89-113 | the initial counters |
| TorrentPeers.TorrentClient.Activate | torrent/torrent-client.c:133-492 | the switch updates the record of its socket and the counters as the model says, and no other record |
| TorrentPeers.TorrentServer.Activate | torrent/torrent-server.c:174-299 | likewise on the server, with the fall-through from idle to request |
| TorControl.SplitJoins | torcontrol/torcontrol.c:1046-1046 | the pieces of a split are what lies between the separators |
| TorControl.FramingIsSplitting | torcontrol/torcontrol.c:1039-1096 | for every cutting of NUL-free input, even between CR and LF: the same replies in the same order as one split of the whole, and the leftover is the unterminated tail |
| TorControl.RepliesRoundTrip | torcontrol/torcontrol.c:1050-1067 | replies without data come out grouped as they were sent (section 2.3 of the control-spec) |
| TorControl.RepliesOverChunks | torcontrol/torcontrol.c:1039-1096 | and so they do from the socket |
| TorControl.DataEndsAt | torcontrol/torcontrol.c:1070-1072 | a line ends data mode if and only if it is a dot or 650 OK followed by a bare line feed |
| TorControl.DataNeverEnds | torcontrol/torcontrol.c:1068-1083 | as long as no line has one of these two forms a data reply is not completed: all lines become data and nothing is delivered |
| TorControl.DotIsData | torcontrol/torcontrol.c:1068-1083 | so from a peer that ends its lines with CRLF none is ever completed, the dot included |
| TorControl.DataEnds | torcontrol/torcontrol.c:1068-1081 | with the bare line feed it ends, at once for an event |
| TorConnection.Connection.TakeLine | torcontrol/torcontrol.c:1050-1084 | one line, in reply mode or data mode |
| TorConnection.Connection.Activate | torcontrol/torcontrol.c:1039-1096 | the receive loop over the fixed buffer, the line loop and the copied leftover compute the specification |
| FileServer.RequestRead | filetransfer/fileserver.c:233-314 | however the request is cut, the server waits for all of it and then has the path |
| FileServer.RunSound | filetransfer/fileserver.c:393-470 | what has gone out is always a prefix of the reply, and unless the socket fails the connection ends only with all of it sent |
| FileServer.DoneIff | filetransfer/fileserver.c:393-465 | over every run in which the socket does not fail: when the connection has ended, all of the reply is sent, and reply.done has been set if and only if head and file together are not a multiple of FT_BUF_SIZE octets |
| FileServer.FullBufferNeverDone | filetransfer/fileserver.c:436-442 | a file of 51158 octets with its head of 42 fills the buffer exactly: everything is sent, the connection ends in a send of nothing, and reply.done is not set |
| FileServer.ReplyBuffer.FillBuffer | filetransfer/fileserver.c:393-417 | one fread() behind the write offset of the fixed buffer |
| FileServer.ReplyBuffer.Activate | filetransfer/fileserver.c:335-470 | the loop terminates for every choice of what send() accepts and keeps the reply whole |
| FileTransfer.EndIsAtEnd | filetransfer/filegetter.c:477-479 | the blank line is found exactly when the whole head is there, and at its end |
| FileTransfer.Has404 | filetransfer/filegetter.c:461-475 | the 404 status line is found in what has come of a good reply if and only if it is in the part of the file that has come |
| FileGetter.HeadRead | filetransfer/filegetter.c:461-509 | wherever recv() has cut a good reply, the getter waits or has the length and the start of the body, or takes the reply for a 404, exactly when the file text in the buffer holds that line |
| FileGetter.StepFaithful | filetransfer/filegetter.c:283-616 | every send or receive keeps the conversation in step and the saved content a prefix of the file |
| FileGetter.RunFaithful | filetransfer/filegetter.c:283-616 | over every run FG_OK_200 is returned only with the whole file saved, and FG_ERR_404 only when the file has the 404 status line in it |
| FileGetter.Err404Iff | filetransfer/filegetter.c:461-475 | in any state of such a run a step ends in FG_ERR_404 if and only if it is the recv() that completes the head and it brings, in the text up to the first NUL, the 404 status line with the file |
| FileGetter.DownloadFaithful | filetransfer/filegetter.c:283-616 | from the start of a download: the same, the wire carries a prefix of the conversation, and buf_read_offset <= buf_write_offset < FT_BUF_SIZE at every return |
| FileGetter.OverrunIff | filetransfer/filegetter.c:461-462 | that bound fails exactly when one recv() fills the buffer while the reply head is awaited |
| FileGetter.LongReplyFills | filetransfer/filegetter.c:538-552 | which it can, whenever the reply is as long as the buffer |
| FileGetter.InOrder | filetransfer/filegetter.c:300-452 | the wire carries exactly greeting, SOCKS request and HTTP request, each begun only after the whole reply before it (sections 3, 4 and 6 of RFC 1928); and a decoder of those sections reads nothing wrong in it and, once it is all there, exactly the target |
| FileGetter.PreambleRead | filetransfer/filegetter.c:300-376 | any prefix of greeting and request is incomplete to that decoder, and the whole is the target, address before port |
| FileGetter.SelectionTaken | filetransfer/filegetter.c:323-343 | whatever method the proxy selects, the SOCKS request goes out only for version 5 without authentication |
| FileGetter.ReplyTaken | filetransfer/filegetter.c:389-433 | whatever the proxy replies: an error unless it is a success of version 5 with an IPv4 address, a new connection if address and port are both given, and otherwise the HTTP request goes out |
| GetterBuffer.Buffer.TakeReceived | filetransfer/filegetter.c:538-555 | the received octets go behind the write offset and the next state acts on the window between the offsets |
| GetterBuffer.Buffer.TakeSent | filetransfer/filegetter.c:511-536 | the read offset follows the octets sent and both are reset when they meet |
| GetterBuffer.Buffer.TakeHttpReply | filetransfer/filegetter.c:461-509 | the reply head in the window |
| GetterBuffer.Buffer.CheckDownload | filetransfer/filegetter.c:557-616 | the window is saved and emptied, and the counts decide |
| GetterBuffer.Buffer.Activate | filetransfer/filegetter.c:283-625 | the whole loop, for any list of system call results |
| GetterBuffer.ActivationsAreRuns | filetransfer/filegetter.c:283-625 | an activation of the object is a piece of a run of the model |
| WholeFile.WholeFileDelivered | filetransfer/fileserver.c:335-470 | getter, relay and server together, over every run: what is saved is a prefix of the file at that path, what has been sent is a prefix of the reply with it, success is reported only when all of it is saved and all has been sent, and a missing file only when the file has the 404 status line in it |
| WholeFile.CanFinish | filetransfer/fileserver.c:335-470 | from every state of such a run without a socket failure in which the getter is still going, the run can go on to FG_OK_200: nothing blocks for good |
| EmbeddedRuns.AddAllParsing | browser/browser.c:68-115 | parsing queues exactly what the URLs stand for on hosts that resolve, each once: host and path of an absolute URL, and for a relative one the first host and its text with a slash in front unless it has one; obj_count counts them |
| EmbeddedRuns.AddAllOrder | browser/browser.c:97-108 | each host's queue has them in the order in which the document first names them |
| EmbeddedRuns.NamedMeans | browser/browser.c:88-108 | that queue holds only what the document means on the host, each once |
| EmbeddedRuns.NamedInOrder | browser/browser.c:97-108 | and of two of its paths the one the document names first comes first |
| EmbeddedRuns.StartAllOpens | browser/browser.c:192-214 | whatever the order of the hosts, each one's queue is empty or it has the maximum of connections, as many as `running` says |
| EmbeddedRuns.DocumentDone | browser/browser.c:216-260 | what the document leaves: the invariant of the object phase, exactly the embedded objects, and no connection at all if and only if the maximum is below one and none is on the first host |
| EmbeddedRuns.RunInv | browser/browser.c:347-422 | every run of activations and wake-ups, with any outcomes, keeps the invariant |
| EmbeddedRuns.Conserved | browser/browser.c:262-272 | expected is completed plus missing plus lost plus in flight plus waiting |
| EmbeddedRuns.WithinMaximum | browser/browser.c:197-211 | no host ever has more connections than max_concurrent_downloads |
| EmbeddedRuns.RunForward | browser/browser.c:97-108 | each object is requested at most once and has one outcome |
| EmbeddedRuns.RunStrands | browser/browser.c:404-415 | over every run, objects are left waiting for a host with no connection if and only if its last connection was lost while they waited |
| EmbeddedRuns.SuccessMeans | browser/browser.c:411-415 | SB_SUCCESS after embedded objects: no getter has died, nothing is in flight, and what still waits is stranded at a host that lost the maximum of connections |
| EmbeddedRuns.CleanSuccess | browser/browser.c:411-415 | without a loss, success means that all objects are completed or missing |
| EmbeddedRuns.LeftBehind | browser/browser.c:404-415 | one connection, two objects and one refusal: success with an object still queued |
| EmbeddedRuns.DeathIsFinal | browser/browser.c:404-415 | once a getter has died, even on the document, a page with embedded objects never reaches SB_SUCCESS |
| EmbeddedRuns.Stuck | browser/browser.c:360-365 | with no connection left that a lookup finds, nothing ever happens again |
| EmbeddedRuns.BusyEnds | browser/browser.c:394-417 | no run has more outcomes than objects waiting and in flight at its start |
| EmbeddedRuns.NeverStuck | browser/browser.c:411-415 | and until success a connection is open, unless a getter has died or the maximum is below one |
| EmbeddedRuns.EndIsFinal | browser/browser.c:356-422 | after success or failure nothing changes in any run but that getters still there may die |
| EmbeddedRuns.OtherErrorEnds | browser/browser.c:373-392 | any other error of the document's getter closes all connections and fails for good |
| EmbeddedBrowser.Browser.GetEmbeddedObjects | browser/browser.c:68-111 | the loop over the URLs |
| EmbeddedBrowser.Browser.ReuseConnection | browser/browser.c:175-190 | the front of the queue of the connection's host goes out on it, or nothing changes |
| EmbeddedBrowser.Browser.StartTasks | browser/browser.c:192-214 | the loop that opens connections for one host |
| EmbeddedBrowser.Browser.DownloadedDocument | browser/browser.c:216-260 | parsing, reuse of the first connection and start, in that order |
| EmbeddedBrowser.Browser.Activate | browser/browser.c:356-422 | the whole switch, for every outcome, keeps the invariant |
| EmbeddedBrowser.Browser.Wakeup | browser/browser.c:347-354 | the document is tried again |
| PageLoad.VerdictIff | web/browser/browser.cc:853-912 | the verdict is success if and only if exactly the expected resources came, each once, with matching size and, when both are there, digest |
| PageLoad.AnyOrder | web/browser/browser.cc:853-887 | whatever the order of completion |
| PageRuns.DoneIff | web/browser/browser.cc:473-483 | comparing the two counts is comparing the two sets: nothing received was not asked for |
| PageRuns.RequestAllIs | web/browser/browser.cc:643-688 | request_one_url over a list asserts if and only if a URL is named twice or is pending |
| PageRuns.RunInv | web/browser/browser.cc:409-850 | every sequence of callbacks keeps the invariant of the page load |
| PageRuns.AbortsIff | web/browser/browser.cc:409-850 | exactly which callbacks fail an assertion in a reachable state, those on the clock aside |
| PageRuns.PageVerdict | web/browser/browser.cc:781-851 | in every run, when a result is reported the document and all that was asked for have come, and it is success if and only if exactly the expected resources came |
| PageRuns.OncePageVerdict | web/browser/browser.cc:666-677 | a page that names each resource once never fails an assertion, and succeeds if and only if the spec lists the document and what was named, the document does not name itself, and all fits |
| PageRuns.HashIff | web/browser/browser.cc:415-424 | over every run, a request in flight has a digest context if and only if the head of its first attempt came while its URL was expected with a digest |
| PageRuns.FitsMeans | web/browser/browser.cc:490-506 | so after every run of a load, the digest of the whole body counts exactly when the spec has one and that head came |
| PageRuns.WrongDigestPasses | web/browser/browser.cc:415-424 | so a wrong body of the right size passes when its first head came with a retry |
| PageFinish.HtmlIff | web/browser/browser.cc:428-441 | over every run of a load, doc_is_html_ is what the last Content-Type header of the document that has come says, and false when none has |
| PageFinish.ServedIsHtml | web/browser/browser.cc:436-438 | what the web server says of a file makes it HTML exactly when its name ends in .html |
| PageFinish.DocumentRequests | web/browser/browser.cc:800-819 | at the notification behind the document, exactly the URLs named are requested and in flight if it is HTML, unless one is named twice; otherwise none is and the result is reported |
| PageFinish.CanFinish | web/browser/browser.cc:485-546 | from every state of every run in which no assertion has failed the load can still report, unless the page is done and a resource asked for again is in flight |
| PageFinish.TooLateFails | web/browser/browser.cc:497-514 | and in that case no continuation reports |
| PageBrowser.Browser.ValidateOneResource | web/browser/browser.cc:853-887 | the branches over expected_objects_ and validate_result_ |
| PageBrowser.Browser.VerifyPageLoad | web/browser/browser.cc:889-912 | the loop over what was not received |
| PageBrowser.Browser.RequestUrls | web/browser/browser.cc:622-640 | the loops that request what a document or a script names |
| PageBrowser.Browser.ResponseMeta | web/browser/browser.cc:409-444 | response_meta_cb |
| PageBrowser.Browser.ResponseBodyData | web/browser/browser.cc:446-471 | response_body_data_cb |
| PageBrowser.Browser.ResponseFinished | web/browser/browser.cc:485-546 | response_finished_cb, in its order: validate, forget, receive, request, done |
| PageBrowser.Browser.OnNotification | web/browser/browser.cc:780-830 | on_notified, from the document to the report and the assertion of reset |
| Cdf.InsertAt | filetransfer/cdf.c:28-32 | sorted insertion puts an entry before the first that is not smaller |
| Cdf.LookupIsFirst | filetransfer/cdf.c:204-243 | where fractions strictly increase, the two-ended search finds what a search from the front finds |
| Cdf.TiesBreak | filetransfer/cdf.c:204-243 | with equal fractions the direction matters: above 0.5 the last of them is found, otherwise the first |
| Cdf.FirstIsLeast | filetransfer/cdf.c:204-243 | which is the least entry whose fraction is at least the percentile |
| Cdf.LookupFails | filetransfer/cdf.c:214-242 | the search fails if and only if every fraction is below the percentile |
| Cdf.GenerateFails | filetransfer/cdf.c:169-243 | in what cdf_generate makes with increasing fractions the search fails if and only if the percentile is above 0.95 |
| Cdf.LookupMonotone | filetransfer/cdf.c:204-243 | a larger percentile never has a smaller value, also across the switch of direction at 0.5 |
| Cdf.GenerateIncreases | filetransfer/cdf.c:169-196 | cdf_generate makes increasing fractions if and only if neither width is zero and nothing wraps around in guint |
| Cdf.CumulativeDistribution.AddEntry | filetransfer/cdf.c:61-61 | one insertion into the list, which keeps its order and its entries |
| Cdf.CumulativeDistribution.GetValue | filetransfer/cdf.c:204-243 | both loops of cdf_getValue |

## Left out

- HttpClient.ChunkIndependence: the connection is taken as past its SOCKS handshake and its timestamps and octet counters are not in the parser's state.
- Resume.ResumeExact: one request at a time on a connection, and a file of fewer than 2^31 octets, not empty (web/webserver/handler.cc:499 asserts that), that does not change; the connection a retry is given is new, or one on which the server has read the whole head of every earlier request and the client the whole of every response; one with undelivered header lines of an earlier request is not covered.
- Completion.FinishedRests: only when the server has read the request head to the end; a response can be complete before that, and the rest of the head then arrives ahead of the next request.
- HttpHandler.Handler.SendToClient: with requests still unread in the input buffer the contract says what is kept and that the call returns, but not which of them are served in it.
- SchedulingRuns.BodyDoneQuiet: the requests a callback submits are new ones.
- Swarm.SomeTurn: the request and the FINISHED message each travel as a whole; sockets do not close and the SOCKS handshake of the torrent client is over.
- TorrentPeers.TorrentClient.Activate: the counters are unbounded, so the overflow of very large files and blocks is not modelled.
- TorControl.FramingIsSplitting: NUL-free input that fits the buffer; what the code reads behind a line of fewer than four characters is not modelled, only that it comes to that.
- FileGetter.RunFaithful: a conforming relay with a zero bind address; a recv() that fills the buffer while the reply head is awaited ends the model (FileGetter.OverrunIff).
- FileServer.ReplyBuffer.Activate: progress reports and the table of connections.
- Sockets, epoll, timers, name lookup, file access, logging, argument parsing and deferred deletion are inputs or absent.
- The SPDY paths of web/utility/connection.cc, whose library is not part of this model, and the SOCKS handshake of the web client.
- Request pipelining in web/utility/connection.cc, which the code switches off.
- HTML and URL extraction, which wrap other libraries.
- EmbeddedRuns.RunInv: socket() and connect() succeed, a descriptor number is not handed out twice, absolute URLs have a path, and names fit their fixed arrays, and the proxy answers with a zero bind address; otherwise the code stores a connection under the key 0, replaces an entry, dereferences a null pointer, truncates, or changes the key of an entry (filetransfer/filegetter.c:421-427) as a getter that dies does.
- PageBrowser.Browser.OnNotification: report_result's assertions on time stamps are not modelled.
- PageRuns.RunInv: one page load; the load timeout, think times and octet counters are not modelled, and which resources are scripts is part of the input.
- cdf_newFromQueue of filetransfer/cdf.c, which rejects every nonempty input, the reading of a cdf file, and the rounding of gdouble.
- torControl_sendCommand, the event handlers behind torControl_processReply and the code tables of torcontrol.
- torrent/torrent-authority.c, pcap_replay and the small example plug-ins.
- Memory: buffers are sequences or arrays without allocation failure, and a failed assertion ends the run.
