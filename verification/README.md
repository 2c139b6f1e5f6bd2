# Three system-programming components, modelled and proved

The repository holds a set of operating-systems assignments.  This project models the three
parts of it with real internal logic and proves what they are for.  `dafny verify
dfyconfig.toml` checks all of it.

**The incremental HTTP parser** (`http_*.dfy`, from `assignments/5-aws/util/http-parser`).
`http_model.dfy` gives the state machine, byte by byte, in strict mode; `http_run.dfy` its
runs over a stream, over one call or many.  What the callbacks hear is a sequence of bytes,
notifications and empty header values on two channels, because the whole URL overlaps its
parts; `http_pairs.dfy` gets the headers back from it as the parser's own test program does.
`http_parser.dfy` is `http_parser_execute` itself, with its marks into the buffer, body
reads of many bytes, early returns and saved fields, as methods and a class; its `Execute`
is proved to do exactly what the run does.  The other files prove what a user of the parser
relies on.  For the start lines, the header lines and the lines of chunk sizes there is a
round trip and its converse: `http_grammar.dfy`, `http_status_grammar.dfy`,
`http_header_grammar.dfy` and `http_chunk_grammar.dfy` show that exactly the lines of a
grammar are taken.  `http_outcome.dfy` and `http_connections.dfy` say, from the text alone, how
messages follow one another, when the connection ends and when it leaves HTTP.

**The preemptive round-robin scheduler** (`circular_queue.dfy`, `sched_*.dfy`, from
`assignments/4-scheduler/util`).  `sched_model.dfy` gives every library call as one atomic
function on the state; `sched_object.dfy` is the library's code on ring buffers, proved to
compute these functions; `sched_threads.dfy` interleaves the threads at every lock,
semaphore operation and thread creation, with spurious wakeups, and proves that they amount
to the atomic calls in the order in which `check_scheduler` is reached.  `sched_calls.dfy` says
what each call does to tasks and queues without the functions that define it.  `sched_limits.dfy`
and `sched_overrun.dfy` show where the fixed sizes give out, each with a run that gets there.

**The on-demand ELF loader** (`loader_*.dfy`, from `assignments/3-loader/skel-lin/loader`).
Program headers are turned into page-aligned segments by the bit mask of the source;
`loader_image.dfy` says what one page fault does and `loader_paging.dfy` that a program
cannot tell the lazily built image from the one that the System V ABI (chapter 5, Program
Loading) prescribes; `loader_object.dfy` is the fault handler and its tables.

## What the code does that its documentation does not say

- `content_length` is a `size_t`, so that an absent length is 2^64 - 1.  The comments and the
  tests of the parser expect a request without a length to end with its headers
  (`http_parser.c:1425-1428`).  It does not: everything that follows is its body
  (`HttpRequests.RequestWithoutLength`).  The last branch at `http_parser.c:1424-1432` is
  dead and `s_body_identity_eof` is never entered.
- The header byte counter is stored in an unsigned char, so that the header limit depends on
  how the stream is cut into calls (`HttpSplit.LimitInOneCall`, `HttpSplit.LimitWhenCut`).
  Nothing else does (`HttpSplit.SplitInvariance`, `HttpSplit.SplitEnds`), and
  `HttpSplit.OnlyLimitDependsOnCutting` is an equivalence; even the stored counter ends the
  same.
- The parser leaves what C defines in two cases and no others
  (`HttpInvariant.UndefinedExactlyWhen`).  CONNECT and MKCOL do not reject a byte that fits no
  method name, and the scan goes on past the end of the name: `M` and six times `X` get there
  (`HttpInvariant.MethodWalksOff`).  A chunk size of 2^63 or more is cast to a signed type
  (`HttpChunks.HugeChunkIsUndefined`).
- The same two candidates take words that are no method: six bytes after `C`, or four after
  `M`, that turn the candidate into no other name count as CONNECT or MKCOL, and
  one wrong byte inside COPY and MKACTIVITY goes unnoticed (`HttpWords.WholeWord`,
  `HttpGrammar.RequestLineExactly`).
- The table of hex digits has 128 entries of 256, so that a byte from 128 on counts as a zero of
  a chunk size (`HttpBytes.TablesAreClasses`); the size is taken modulo 2^64, so that one of
  2^64 is the last chunk (`HttpChunks.SizeLineRun`).
- `http_should_keep_alive` asks for a minor version above 0, so that HTTP/2.0 is treated like
  HTTP/1.0 (`HttpConnections.MessageRun`).
- A response parser says message_begin for every byte of the blank lines before a status line
  (`HttpStatusLine.BlankLinesBegin`); a request parser is silent there.
- A task that calls `so_wait` while no task is ready goes on running although it stands in a
  waiting queue (`SchedLimits.WaitNeedsAnother`, an equivalence; one fork gets there,
  `SchedLimits.LoneTaskMayWait`).
- A fork loses a task when the ready queue of the new task, or the one that the caller goes
  back to, is full (`SchedLimits.ForkNeedsRoom`, an equivalence; 1002 forks get there,
  `SchedLimits.FullQueueLosesTask`).
- `terminated_threads` has 1000 entries and no check of its index.  A finished task's store is
  inside the array exactly while at most 1000 tasks have recorded themselves
  (`SchedThreads.RecordStaysInside`, an equivalence; 1001 tasks get there,
  `SchedOverrun.OverrunIsReached`).
- The main thread starts with a quantum of 0, which its first `so_fork` wraps to 2^32 - 1.

## Assumptions

- Parser: callbacks return 0, and `on_headers_complete` 0 or 1 (the parameter `skip`); a run
  ends at an error, an upgrade, or where the source's behaviour is undefined.
- Scheduler: the main thread forks at most once and then calls `so_end`.  Threads are told
  apart by their structure, not by their identifier.  A store past the end of
  `terminated_threads` has no meaning in C and is no step of `SchedThreads`, so that its
  results speak of every interleaving up to such a store; with at most 1000 tasks there is none.
- Loader: the page size is a power of two; mapped file bytes are always readable.  Layout
  assumptions are the predicates `LoaderParser.Loadable` and `LoaderPaging.HeadersApart`.

## Model

| member | source | states |
|---|---|---|
| HttpInvariant.MethodKeeps | assignments/5-aws/util/http-parser/http_parser.c:608-647 | The method scanner keeps the invariant; it is past the string of a method name exactly for CONNECT and MKCOL, two bytes past the name |
| HttpInvariant.ReactKeeps | assignments/5-aws/util/http-parser/http_parser.c:388-1558 | Every byte in every state keeps the invariant of the parser's fields and fails none of the asserts of the switch |
| HttpInvariant.UndefinedExactlyWhen | assignments/5-aws/util/http-parser/http_parser.c:388-1558 | The memory-safety condition of the whole switch: a byte leads outside what C defines if and only if the method scan is past its name, or a chunk of 2^63 bytes or more is to be read |
| HttpInvariant.RunUndefined | assignments/5-aws/util/http-parser/http_parser.c:379-1559 | A run leaves what C defines if and only if it comes to such a byte under the header limit |
| HttpInvariant.MethodWalksOff | assignments/5-aws/util/http-parser/http_parser.c:612-646 | From http_parser_init, M followed by six times X reads past the name of MKCOL |
| HttpInvariant.AssertsHold | assignments/5-aws/util/http-parser/http_parser.c:1174-1557 | Over any sequence of calls no assert fails: no impossible header state in a name or value, F_CHUNKED in every chunk state, nread 1 at a chunk size |
| HttpInvariant.InitialIsGood | assignments/5-aws/util/http-parser/http_parser.c:1608-1617 | http_parser_init reaches a state from which the invariant holds |
| HttpInvariant.SaveKeeps | assignments/5-aws/util/http-parser/http_parser.c:1568-1571 | Storing the index in an unsigned char loses nothing |
| HttpSplit.SplitInvariance | assignments/5-aws/util/http-parser/test.c:1502-1505 | A stream that one call consumes is consumed in any cutting, with the same bytes, empty values and notifications in the same order and the same stored fields |
| HttpSplit.OnlyLimitDependsOnCutting | assignments/5-aws/util/http-parser/http_parser.c:382-386 | Of a cutting that is consumed: one call consumes the stream too if and only if it meets the header limit nowhere |
| HttpSplit.SplitEnds | assignments/5-aws/util/http-parser/http_parser.c:379-1579 | A stream whose one call ends in an error other than the limit, in an upgrade, or outside what C defines ends in every cutting at the same byte, in the same way, with the same fields and callbacks |
| HttpSplit.LimitInOneCall | assignments/5-aws/util/http-parser/http_parser.c:382-386 | One byte over the header limit in one call is an error, though its last part alone is not |
| HttpSplit.LimitWhenCut | assignments/5-aws/util/http-parser/http_parser.c:1568-1573 | Cut after 256 bytes, the first part of that stream leaves the parser as it was, because the counter is stored modulo 256 |
| HttpProtocol.NotificationsFollowProtocol | assignments/5-aws/util/http-parser/http_parser.c:574-1450 | Over any calls of a request parser, also up to a call that stops, the notifications are a prefix of begin, headers-complete, message-complete repeated |
| HttpProtocol.NoBeginAfterClose | assignments/5-aws/util/http-parser/http_parser.c:309-318 | After a message that does not keep the connection alive no byte of the same call is taken and nothing more is notified |
| HttpProtocol.SilenceAfterClose | assignments/5-aws/util/http-parser/http_parser.c:309-395 | Over calls: once a message has completed and the connection is not to be kept alive, nothing is heard of any later byte or call, and the first of them is refused |
| HttpProtocol.DeadForGood | assignments/5-aws/util/http-parser/http_parser.c:390-395 | A dead parser refuses every later non-empty call and is left as it is |
| HttpProtocol.CompletionCloses | assignments/5-aws/util/http-parser/http_parser.c:1581-1599 | Every completion leaves the parser at the start of the next message of its kind or dead: from version 1.1 on by the close flag, below it by the keep-alive flag |
| HttpBody.BodyRun | assignments/5-aws/util/http-parser/http_parser.c:1439-1450 | Reading many body bytes in one go is reading them one at a time: same callbacks, same length left, same end of message |
| HttpLines.NameIsRecognized | assignments/5-aws/util/http-parser/http_parser.c:1026-1200 | At the colon the header state is connection, content-length, transfer-encoding or upgrade exactly when the lower-case name without trailing spaces is that name, or proxy-connection |
| HttpLines.MatchedEarnsFlag | assignments/5-aws/util/http-parser/http_parser.c:1202-1363 | At line end the chunked, keep-alive or close flag is earned exactly when the value without surrounding spaces is the literal, ignoring case |
| HttpLines.HeaderLine | assignments/5-aws/util/http-parser/http_parser.c:1026-1363 | A whole header line sets exactly the flags and the length that comparing strings gives, and on_header_field and on_header_value hear the name and the trimmed-left value, an empty one included |
| HttpMessages.BlockGlides | assignments/5-aws/util/http-parser/http_parser.c:1026-1363 | A block of header lines sets every flag its lines earn and the last length given, and is heard line by line, empty values included |
| HttpPairs.HeadersCollected | assignments/5-aws/util/http-parser/test.c:982-1009 | A client that pairs names with values as the test program does gets back every header of a block, empty values included, in order |
| HttpMessages.HeadersRun | assignments/5-aws/util/http-parser/http_parser.c:1365-1437 | After a header block and its blank line the message ends exactly if the callback skips the body, or there is no chunking and a length of 0 |
| HttpOutcome.BlockFlagsAre | assignments/5-aws/util/http-parser/http_parser.c:1265-1363 | The flags of a block are what its lines say, by name and value: close, keep-alive, upgrade, chunked |
| HttpOutcome.LeavesHttp | assignments/5-aws/util/http-parser/http_parser.c:1379-1408 | A CONNECT, or an Upgrade line with a value, ends HTTP: the block is heard, then headers_complete and message_complete, and the run stops at the last byte of the blank line with upgrade set, whatever follows |
| HttpMessages.IdentityBody | assignments/5-aws/util/http-parser/http_parser.c:1417-1450 | Bytes delivered and length left add up to the announced length at every point of the body; message_complete comes with the last byte and not before |
| HttpMessages.IdentityBodyOverCalls | assignments/5-aws/util/http-parser/http_parser.c:1241-1450 | The same over any cutting of the stream into calls |
| HttpMessages.AbsentLengthTakesAll | assignments/5-aws/util/http-parser/http_parser.c:1417-1432 | After headers that give no length, whatever follows, up to 2^64 - 2 bytes, is body |
| HttpChunks.SizeLineRun | assignments/5-aws/util/http-parser/http_parser.c:1461-1522 | A size line in hex of either case, with leading zeros and parameters, is silent and leaves its value modulo 2^64; zero opens the trailer |
| HttpChunks.ChunkRun | assignments/5-aws/util/http-parser/http_parser.c:1461-1553 | on_body hears exactly the data of a chunk |
| HttpChunks.ChunkedRoundTrip | assignments/5-aws/util/http-parser/http_parser.c:1365-1553 | For every list of chunks and every trailer: on_body hears the data of the chunks in order, the header callbacks the trailer, and message_complete comes once, after the blank line; the fields hold what the trailer says |
| HttpChunks.HugeChunkIsUndefined | assignments/5-aws/util/http-parser/http_parser.c:1524-1541 | A chunk of 2^63 bytes or more leaves what C defines with the first byte of its data |
| HttpRequestLine.CandidateTakes | assignments/5-aws/util/http-parser/http_parser.c:612-646 | Every byte of every method name is taken by the candidate name, or turns it into the next candidate |
| HttpRequestLine.MethodGlides | assignments/5-aws/util/http-parser/http_parser.c:608-647 | The name of each of the 23 methods is read silently from candidate to candidate |
| HttpRequestLine.UrlGlides | assignments/5-aws/util/http-parser/http_parser.c:649-929 | on_url hears the whole URL, schema, host and port included, and the path, query and fragment callbacks their parts without the marks before them, however many, or nothing if there is only a mark |
| HttpRequestLine.NumbersGlide | assignments/5-aws/util/http-parser/http_parser.c:964-1017 | Version numbers written as numerals of value up to 999, the first without a leading zero, are read back |
| HttpRequestLine.RequestLineRoundTrip | assignments/5-aws/util/http-parser/http_parser.c:574-1024 | A printed request line, with any number of blanks between its parts, gives back its method, path, query, fragment, whole URL and version after one message_begin, for a request parser and for one of either kind, and nothing is left of the flags and length before; the target may be a path, an asterisk, a URL with a schema, or a host and port; without a version it is 0.9 |
| HttpRequestLine.ShortLineRoundTrip | assignments/5-aws/util/http-parser/http_parser.c:763-920 | A line that ends right after its path, query or fragment, or after the mark alone, in LF or CR LF: method, URL and its parts are given back, the version is 0 and 9, and the header lines come next, after one message_begin |
| HttpBytes.TablesAreClasses | assignments/5-aws/util/http-parser/http_parser.c:110-190 | The tables for tokens, hex digits and URL characters, and the tests for letters and digits, are exactly the classes of bytes that the grammar names |
| HttpWords.WordAdvances | assignments/5-aws/util/http-parser/http_parser.c:608-647 | What the method scanner has read is always a part of a word for its candidate, and at the blank a whole one |
| HttpWords.WordRestGlides | assignments/5-aws/util/http-parser/http_parser.c:608-647 | Every such word is taken for its method, silently, the misspelt ones included |
| HttpGrammar.TargetExactly | assignments/5-aws/util/http-parser/http_parser.c:649-1024 | After the method: of the texts with one line feed, at the end, exactly those are taken that print blanks, a target, a version or none, and a line end |
| HttpGrammar.RequestLineExactly | assignments/5-aws/util/http-parser/http_parser.c:574-1024 | The language of request lines: a request parser takes exactly a word for a method, a blank, and such a target and version; with the round trip this decides acceptance for every text of one line |
| HttpStatusLine.StatusLineRoundTrip | assignments/5-aws/util/http-parser/http_parser.c:396-572 | A printed status line gives back its version and status code after one message_begin, for a response parser and for one of either kind, which is a response parser from then on; the reason may be left out |
| HttpStatusLine.BlankLinesBegin | assignments/5-aws/util/http-parser/http_parser.c:427-447 | Every byte of the blank lines before a status line raises a message_begin of its own |
| HttpStatusLine.BlankLinesGlide | assignments/5-aws/util/http-parser/http_parser.c:396-581 | Blank lines before a request, or where either may come, are silent and change nothing |
| HttpStatusGrammar.StatusLineExactly | assignments/5-aws/util/http-parser/http_parser.c:449-572 | The language of status lines: of the texts with one line feed, at the end, exactly those are taken that complete a status line |
| HttpHeaderGrammar.BareLine | assignments/5-aws/util/http-parser/http_parser.c:1187-1197 | A header name without a colon is heard as a name and sets nothing |
| HttpHeaderGrammar.HeaderLineExactly | assignments/5-aws/util/http-parser/http_parser.c:1026-1363 | The language of header lines: exactly a name alone, or a name, a colon and a value, which is of digits and blanks if the name is that of a length |
| HttpChunkGrammar.SizeLineExactly | assignments/5-aws/util/http-parser/http_parser.c:1461-1522 | The language of size lines: exactly digits, parameters or none, and CR LF |
| HttpErrors.StrictEnds | assignments/5-aws/util/http-parser/http_parser.c:1342-1368 | In strict mode a CR that ends a header line, the headers or the data of a chunk is followed by LF and nothing else, and the data by CR |
| HttpErrors.MayBegin | assignments/5-aws/util/http-parser/http_parser.c:390-606 | The bytes with which a message may begin, for each kind of parser, and none for a dead one; any other is heard as a beginning before it is an error |
| HttpErrors.ErrorsAreSilent | assignments/5-aws/util/http-parser/http_parser.c:449-1558 | Anywhere else an error is told to nobody and takes nothing |
| HttpRequests.RequestRun | assignments/5-aws/util/http-parser/http_parser.c:574-1450 | A whole request with a body: what every callback hears, and the fields at every point of the body |
| HttpRequests.RequestOverCalls | assignments/5-aws/util/http-parser/http_parser.c:574-1450 | The same over any cutting into calls |
| HttpRequests.RequestWithoutLength | assignments/5-aws/util/http-parser/http_parser.c:1417-1432 | A request without a length never completes within 2^64 - 2 further bytes; the comment at line 1426 promises otherwise |
| HttpRequests.ChunkedMessageRun | assignments/5-aws/util/http-parser/http_parser.c:1413-1415 | A header block that announces chunking, whatever length it gives, is followed by the chunks, the trailer and one message_complete; keep-alive is decided by the lines of both |
| HttpRequests.ChunkedRequestOverCalls | assignments/5-aws/util/http-parser/http_parser.c:574-1553 | A whole chunked request over any cutting into calls: what every callback hears |
| HttpConnections.PayloadRun | assignments/5-aws/util/http-parser/http_parser.c:1365-1553 | Header block and body of any framing (skipped, of a length that may be zero, chunked with a trailer): what is heard, and where the parser goes, said by version and lines alone |
| HttpConnections.MessageRun | assignments/5-aws/util/http-parser/http_parser.c:309-313 | A complete request: with version 1.1 or more the parser is dead after it if and only if a Connection or Proxy-Connection line of block or trailer says close; below that it waits for the next request if and only if one says keep-alive |
| HttpConnections.ConnectionRun | assignments/5-aws/util/http-parser/http_parser.c:309-1553 | A whole connection: any number of requests one after another, each heard in full and in order; the last decides where the parser is left |
| HttpConnections.ConnectionOverCalls | assignments/5-aws/util/http-parser/http_parser.c:309-1573 | The same over any cutting of the connection into calls |
| HttpConnections.ConnectionCloses | assignments/5-aws/util/http-parser/http_parser.c:390-395 | After a request that does not keep the connection no byte is taken and nothing more is heard |
| HttpConnections.RequestParts | assignments/5-aws/util/http-parser/http_parser.c:1379-1408 | A CONNECT request, or one with an Upgrade line, ends the run at the last byte of its head, with upgrade set and both completions heard, whatever follows |
| HttpConnections.PartsExactly | assignments/5-aws/util/http-parser/http_parser.c:1379-1408 | Of the requests that can be printed, exactly these leave HTTP |
| HttpConnections.RequestPartsOverCalls | assignments/5-aws/util/http-parser/http_parser.c:1379-1408 | The same over any cutting: the call that holds the last byte of the head returns there |
| HttpConnections.ConnectionParts | assignments/5-aws/util/http-parser/http_parser.c:309-1408 | A connection whose requests keep it and then one that leaves HTTP: everything is heard and the run stops at the last byte of its head |
| HttpConnections.ResponseRun | assignments/5-aws/util/http-parser/http_parser.c:309-1553 | A complete response: the status code, and then a response parser waits for the next response or is dead, as version and lines say |
| HttpParserObject.StartByte | assignments/5-aws/util/http-parser/http_parser.c:390-447 | The start states as statements do what the transition function says, callbacks included |
| HttpParserObject.MethodByte | assignments/5-aws/util/http-parser/http_parser.c:608-647 | The same for the method |
| HttpParserObject.StatusByte | assignments/5-aws/util/http-parser/http_parser.c:449-572 | The same for a response's status line |
| HttpParserObject.PathByte | assignments/5-aws/util/http-parser/http_parser.c:750-859 | The same for path and query, with their marks set and called back |
| HttpParserObject.FragmentByte | assignments/5-aws/util/http-parser/http_parser.c:861-929 | The same for the fragment |
| HttpParserObject.AuthorityByte | assignments/5-aws/util/http-parser/http_parser.c:671-748 | The same for schema, host and port |
| HttpParserObject.VersionByte | assignments/5-aws/util/http-parser/http_parser.c:931-1024 | The same for the version |
| HttpParserObject.NameByte | assignments/5-aws/util/http-parser/http_parser.c:1073-1178 | The same for a header name |
| HttpParserObject.ValueByte | assignments/5-aws/util/http-parser/http_parser.c:1265-1340 | The same for a header value |
| HttpParserObject.HeadersDone | assignments/5-aws/util/http-parser/http_parser.c:1365-1437 | The same for the end of the headers |
| HttpParserObject.ChunkByte | assignments/5-aws/util/http-parser/http_parser.c:1461-1522 | The same for the chunk framing, its counter assert and its counter resets |
| HttpParserObject.ReadBody | assignments/5-aws/util/http-parser/http_parser.c:1439-1459 | One body read hands as many bytes to on_body as there are, up to the length |
| HttpParserObject.Loop | assignments/5-aws/util/http-parser/http_parser.c:379-1559 | The byte loop with its locals and marks follows the run to its end, or to the byte where the run stops; each open mark is where its span begins |
| HttpParserObject.Flush | assignments/5-aws/util/http-parser/http_parser.c:1561-1566 | On a full return every open mark is called back up to the end of the buffer, in the order of the source |
| HttpParserObject.HttpParser.Init | assignments/5-aws/util/http-parser/http_parser.c:1608-1617 | http_parser_init reaches an initial state, whatever the memory held |
| HttpParserObject.HttpParser.ExecuteEmpty | assignments/5-aws/util/http-parser/http_parser.c:335-350 | An empty call returns 0 at a message start, when dead, or in a body up to end of file, which it completes, and 1 anywhere else |
| HttpParserObject.HttpParser.Execute | assignments/5-aws/util/http-parser/http_parser.c:321-1579 | One call does exactly what the run over its bytes does: bytes taken, callbacks, stored fields; on an error the fields assigned so far stay, the locals are not stored, and of what was heard exactly the bytes of the open span are not called back |
| HttpFeed.Feed | assignments/5-aws/util/http-parser/test.c:1502-1505 | A client that feeds a stream in pieces ends as with one call, parser and callbacks alike |
| CircularQueues.CircularQueue.Init | assignments/4-scheduler/util/circular_queue.c:6-14 | The queue is empty and every slot is NULL |
| CircularQueues.CircularQueue.Enqueue | assignments/4-scheduler/util/circular_queue.c:26-45 | Adds at the end, around the end of the array; a full queue is left alone |
| CircularQueues.CircularQueue.Dequeue | assignments/4-scheduler/util/circular_queue.c:48-65 | Removes and returns the first element; the last one resets the queue; an empty queue gives NULL |
| CircularQueues.CircularQueue.Front | assignments/4-scheduler/util/circular_queue.c:67-74 | The first element, or NULL |
| CircularQueues.CircularQueue.Rear | assignments/4-scheduler/util/circular_queue.c:76-82 | The last element, or NULL |
| CircularQueues.WindowGrows | assignments/4-scheduler/util/circular_queue.c:41-44 | Writing the slot after the last adds one element to the sequence in the ring |
| CircularQueues.WindowShrinks | assignments/4-scheduler/util/circular_queue.c:61-62 | Moving the front by one slot removes the first element |
| CircularQueues.FirstInFirstOut | assignments/4-scheduler/util/circular_queue.c:26-65 | Over any operations none of which meets a full queue, what came out followed by what is left is what was there followed by what was put in |
| SchedModel.CheckPicksHighest | assignments/4-scheduler/util/so_scheduler.c:103-151 | check_scheduler in one: who gives way, who takes over, and who is put back in which queue |
| SchedModel.CheckFormed | assignments/4-scheduler/util/so_scheduler.c:103-151 | check_scheduler keeps every index and counter in its range |
| SchedInvariant.PriorityAlways | assignments/4-scheduler/util/so_scheduler.c:113-147 | Over every run, whatever is called, no ready task outranks one that executes handler code |
| SchedInvariant.CheckConserved | assignments/4-scheduler/util/so_scheduler.c:103-151 | check_scheduler settles the account of places and leaves a running task with quantum |
| SchedInvariant.ConservedAlways | assignments/4-scheduler/util/so_scheduler.c:103-208 | Over every run of at most 1000 forks in which so_wait finds a ready task: every unfinished task is in one place, and the running one has 1 to time_quantum units, so that the decrement does not wrap |
| SchedInvariant.OnePlace | assignments/4-scheduler/util/so_scheduler.c:229-274 | What conservation says of one task: running, or once in the ready queue of its priority, or once in one waiting queue, its flag set exactly then; a finished one nowhere |
| SchedLimits.WaitNeedsAnother | assignments/4-scheduler/util/so_scheduler.c:237-252 | so_wait keeps the account if and only if some task is ready; otherwise the caller runs on |
| SchedLimits.LoneTaskMayWait | assignments/4-scheduler/util/so_scheduler.c:229-253 | One fork from so_init reaches a state in which the only task may wait; it then runs on from its waiting queue |
| SchedLimits.ForkNeedsRoom | assignments/4-scheduler/util/so_scheduler.c:177-217 | A whole so_fork keeps every unfinished task in its one place if and only if the ready queue of the new task is not full and, when the caller goes back to its own, neither is that |
| SchedLimits.FullQueueLosesTask | assignments/4-scheduler/util/so_scheduler.c:205-208 | 1001 forks of one priority fill its ready queue, every task in its place; the one forked next is in no queue and does not run |
| SchedFairness.DrainedIsWoken | assignments/4-scheduler/util/so_scheduler.c:264-274 | The loop of so_signal empties the device's queue; each task joins its ready queue behind those there, in the order of waiting within a priority |
| SchedCalls.CallHands | assignments/4-scheduler/util/so_scheduler.c:161-310 | For each of the five calls, the tasks and queues that check_scheduler finds: what was added, emptied or changed, and the unit of quantum that the call costs |
| SchedCalls.SignalWakes | assignments/4-scheduler/util/so_scheduler.c:255-291 | so_signal as one call: the device's queue is empty, the other devices' are as they were, and every task that waited there runs or is ready, its flag cleared |
| SchedCalls.WaitBlocks | assignments/4-scheduler/util/so_scheduler.c:229-253 | so_wait puts the caller last in the queue of the named device and touches no other; the front of the highest ready queue takes over |
| SchedCalls.ForkAdds | assignments/4-scheduler/util/so_scheduler.c:177-227 | so_fork adds one task of the given priority with a whole quantum, which runs or is ready |
| SchedCalls.ExecSpends | assignments/4-scheduler/util/so_scheduler.c:293-310 | so_exec costs one unit; with the last one the caller goes to the end of its queue, whose front starts a whole quantum |
| SchedCalls.FinishEnds | assignments/4-scheduler/util/so_scheduler.c:77-79 | At the end of a handler the task is finished and in no queue, and the front of the highest ready queue takes over |
| SchedFairness.LineAdvances | assignments/4-scheduler/util/so_scheduler.c:103-165 | Every call brings a task in line nearer to its turn by at least one unit of k * time_quantum + t |
| SchedFairness.BoundedWaiting | assignments/4-scheduler/util/so_scheduler.c:103-165 | A task k places from the front is running after at most k * time_quantum + t calls, while none of a higher priority becomes ready |
| SchedObject.Scheduler.DecreaseQuantum | assignments/4-scheduler/util/so_scheduler.c:161-165 | One unit less of the running task's quantum, in unsigned arithmetic, and nothing else |
| SchedObject.Scheduler.CheckScheduler | assignments/4-scheduler/util/so_scheduler.c:103-151 | The code on ring buffers computes the function that the properties are about |
| SchedObject.Scheduler.Fork | assignments/4-scheduler/util/so_scheduler.c:177-227 | so_fork: INVALID_TID and no change on a null function or a priority above 5, else the atomic fork |
| SchedObject.Scheduler.Wait | assignments/4-scheduler/util/so_scheduler.c:229-253 | so_wait: -1 and no change on an unknown device, else the atomic wait |
| SchedObject.Scheduler.Signal | assignments/4-scheduler/util/so_scheduler.c:255-291 | so_signal: -1 on an unknown device, else the atomic signal, of which SchedCalls.SignalWakes speaks, and the former length of the device's queue |
| SchedObject.Scheduler.Exec | assignments/4-scheduler/util/so_scheduler.c:293-310 | so_exec is the atomic call |
| SchedObject.Scheduler.Finish | assignments/4-scheduler/util/so_scheduler.c:77-79 | The end of a handler is the atomic call |
| SchedObject.Library.SoInit | assignments/4-scheduler/util/so_scheduler.c:21-65 | so_init: -1 and no change on a zero quantum, more than 256 devices or a second scheduler; else a fresh initial one |
| SchedThreads.StepKeeps | assignments/4-scheduler/util/so_scheduler.c:67-328 | Every step of every thread keeps the invariant of the interleaved system |
| SchedThreads.MutualExclusion | assignments/4-scheduler/util/so_scheduler.c:67-310 | In every interleaving at most one thread is in handler code or in a call up to its check_scheduler, and it is the running thread |
| SchedThreads.OnlyRunningChanges | assignments/4-scheduler/util/so_scheduler.c:103-175 | Only the running thread changes the scheduler's state, running_thread included |
| SchedThreads.NoLostWakeup | assignments/4-scheduler/util/so_scheduler.c:79-289 | When the running thread is blocked in pthread_cond_wait, another thread past its check_scheduler has its broadcast still to perform |
| SchedThreads.CheckStaged | assignments/4-scheduler/util/so_scheduler.c:161-217 | The check_scheduler of the running thread completes its call: the interleaved pieces since its start equal the one atomic call |
| SchedThreads.HandlerSeesAtomicCalls | assignments/4-scheduler/util/so_scheduler.c:67-310 | What a handler finds is the outcome of the atomic calls in the order of their check_scheduler, so that priority order, conservation and quantum hold of it |
| SchedThreads.ShutdownSafe | assignments/4-scheduler/util/so_scheduler.c:312-326 | Past the wait of so_end, terminated_threads holds exactly the forked tasks, each once, all finished, and their number fits the array |
| SchedThreads.RecordStaysInside | assignments/4-scheduler/util/so_scheduler.c:89-91 | In every interleaving a finished task stores inside terminated_threads if and only if at most MAX_SIZE tasks, itself included, have recorded themselves; with at most MAX_SIZE forks always |
| SchedOverrun.OverrunIsReached | assignments/4-scheduler/util/so_scheduler.c:89-91 | A run of MAX_SIZE + 1 tasks, each forked by the one before, in which the last one is about to store past the end |
| SchedThreads.SemaphoreAccount | assignments/4-scheduler/util/so_scheduler.c:89-98 | The semaphore's value is the number of tasks posted for that have not taken it, so that no finishing task blocks on it |
| SchedThreads.SoEndGoesOn | assignments/4-scheduler/util/so_scheduler.c:312-321 | Once every task has exited, so_end does not stay in its wait |
| SchedThreads.SomebodyMoves | assignments/4-scheduler/util/so_scheduler.c:153-175 | While the running task is unfinished some thread can move |
| SchedThreads.StuckOnlyOnDevices | assignments/4-scheduler/util/so_scheduler.c:79-310 | In polite runs the threads are stuck only when every unfinished task waits for a device |
| LoaderParser.AlignDownRounds | assignments/3-loader/skel-lin/loader/exec_parser.h:12 | For a power of two the mask rounds an address down to a multiple |
| LoaderParser.CountLoads | assignments/3-loader/skel-lin/loader/exec_parser.c:176-180 | Counts the loadable headers |
| LoaderParser.Convert | assignments/3-loader/skel-lin/loader/exec_parser.c:193-205 | One header becomes one segment, in 32-bit arithmetic |
| LoaderParser.ParseExec | assignments/3-loader/skel-lin/loader/exec_parser.c:176-212 | The segments are those of the loadable headers in order, and base_addr is the lowest of their addresses |
| LoaderParser.ConvertedIsAligned | assignments/3-loader/skel-lin/loader/exec_parser.c:193-197 | Address and file offset of a segment are page-aligned and keep the header's bytes at the header's addresses |
| LoaderImage.FaultHasEntry | assignments/3-loader/skel-lin/loader/loader.c:36-37 | A fault address inside a segment indexes mapped_pages within its row |
| LoaderImage.MappedAsPrescribed | assignments/3-loader/skel-lin/loader/loader.c:39-80 | A served page holds file bytes and then zeros at every address of the segment in it, and beyond the segment more of the file, with the segment's rights, and no other page changes |
| LoaderImage.ServingKills | assignments/3-loader/skel-lin/loader/loader.c:58-76 | Serving a fault kills if and only if bytes beyond the file have to be cleared on a page that may not be written |
| LoaderPaging.PrescribedByHeader | assignments/3-loader/skel-lin/loader/exec_parser.c:193-197 | In the header's terms: file byte p_offset + k at p_vaddr + k for k below p_filesz, 0 from there to p_memsz |
| LoaderPaging.HeadersLaidOut | assignments/3-loader/skel-lin/loader/exec_parser.c:187-212 | Headers no two of which are on one page become segments that share no page and stay in the address space |
| LoaderPaging.AccessIsEager | assignments/3-loader/skel-lin/loader/loader.c:23-92 | One access, with its faults: a permitted one reaches the byte of the eagerly loaded image, any other kills |
| LoaderPaging.KilledOnlyWhenIllegal | assignments/3-loader/skel-lin/loader/loader.c:82-91 | A program that stays in its segments is killed if and only if some access is not permitted |
| LoaderPaging.LegalByHeader | assignments/3-loader/skel-lin/loader/loader.c:41-45 | At every address of a header's memory a load, a store or a fetch is permitted if and only if the header's flags have 4, 2 or 1 |
| LoaderPaging.KilledWhenDenied | assignments/3-loader/skel-lin/loader/loader.c:23-92 | A program that stays in the memory of its headers is killed if and only if some access lacks its flag |
| LoaderPaging.StrayAccessKills | assignments/3-loader/skel-lin/loader/loader.c:82-91 | An access on no page of any segment, where the process had no memory before, kills, whatever ran before it |
| LoaderPaging.LoadsAreEager | assignments/3-loader/skel-lin/loader/loader.c:23-92 | Over every run each load finds the byte that the ABI prescribes, as overwritten by the stores before it |
| LoaderPaging.LoadFindsFile | assignments/3-loader/skel-lin/loader/loader.c:23-125 | From the headers of the file to a run: a load at p_vaddr + n finds what was last stored there, else file byte p_offset + n below p_filesz, else 0 up to p_memsz |
| LoaderPaging.FaultsAreBounded | assignments/3-loader/skel-lin/loader/loader.c:113-125 | Over any run served faults plus unmapped pages are constant; served faults are at most the sum of the segments' page counts |
| LoaderPaging.MappedForGood | assignments/3-loader/skel-lin/loader/loader.c:37-56 | A page once mapped stays mapped, so that none is mapped twice |
| LoaderObject.NewRows | assignments/3-loader/skel-lin/loader/loader.c:113-125 | so_execute allocates a row of ceil(mem_size / page size) zero entries for every segment |
| LoaderObject.Loader.ZeroLength | assignments/3-loader/skel-lin/loader/loader.c:58-76 | The part of a page to be cleared |
| LoaderObject.Loader.ServePage | assignments/3-loader/skel-lin/loader/loader.c:39-80 | The mapping, the table entry and the clearing do what one served fault means |
| LoaderObject.Loader.Handle | assignments/3-loader/skel-lin/loader/loader.c:23-92 | The handler serves the first segment's unmapped page, and restores the default handler in every other case |
| LoaderObject.Execute | assignments/3-loader/skel-lin/loader/loader.c:105-125 | so_execute reaches the state from which the runs start: nothing mapped, all entries zero |

## Left out

- HttpInvariant.MethodKeeps: says where the source reads past a method name, not what it reads there.
- HttpParserObject.HttpParser.ExecuteEmpty: speaks of a body up to end of file although that state is never entered, because the source's code for it is there.
- SchedObject.Scheduler.Fork: allocation failure and the pthread identifier are not modelled; the returned identifier is the structure's index.
- LoaderObject.Loader.Handle: addresses are unbounded integers; LoaderPaging.HeadersLaidOut says that for such headers none leaves 32 bits.  Failures of `open` and `mmap` are not modelled.
- Non-strict mode, callbacks that fail, and calls after an upgrade.
- `sch->waiting_queues` has one entry more than `so_init` initialises; the entry is unused and not modelled.
- `so_end` frees its memory and joins its threads; the model ends where the loop over `terminated_threads` starts.
- The thread structures are entries of a table indexed by order of creation, so that freed memory and aliasing are not modelled; the segments of an executable are a sequence, because they do not change once parsed.
- The checks of the ELF identification, `so_start_exec`, `fix_auxv` and the installation of the signal handler: machine-level or single-branch code.
- `so_stdio` has no implementation in the repository; socket helpers, servers and checkers are plumbing around system calls.
