# Eva's HTTP parser, actor scheduler and message codec, verified

Eva is a web server that runs its request handlers as Lua actors. This project models the three parts of it in
which a mistake is hardest to see, and proves what they are for.

**The incremental HTTP parser** (`3rd-party/http-parser/http_parser.c`). `http_parser_execute` is a state machine
that may be stopped and resumed at any byte. It works on whole buffers: six marks remember where the spans of the
current buffer began, bodies are skipped in bulk, and between calls everything is packed into a small struct.
`HttpStep` is the machine a reader has in mind: one byte per step, no buffers, no marks, no skips. `HttpExecute` is
the code's own shape: the classes `HttpParser` (the struct), `Callbacks` (a log of the calls) and `Scan` (the
variables of one call), one method per case of the switch, the loop over the buffer, and the calls over the pieces
of an input. The methods are proved against the byte machine, and the properties are proved about the byte machine.
What the callbacks deliver is looked at as the tests look at it: data is appended to the current message, and
`on_message_complete` closes it (`HttpTypes.Observe`). The fragments of a URL or a header that a cut produces are
therefore joined again, as the parser's own README asks.

**The scheduler and its mailboxes** (`src/blocks/process.c`, `src/blocks/mailbox.c`). `TaskQueue` and `Mailboxes` are
the linked lists, edited in place, with what every locked section does to them stated as a function on sequences.
`Scheduler` is the protocol: any number of workers and clients, a program counter for each, one step per locked
section, any interleaving. A client is a Lua state; that of a task runs only while a worker evaluates the task, and
the worker goes on only when it is done. `SchedulerInvariant` proves what every step keeps, `SchedulerTheorems` what
that means for every run, `SchedulerQueue` in which order tasks are taken, `SchedulerWakes` what a wake-up finds,
`SchedulerLate` which messages come too late, `SchedulerProgress` who can go on and when nobody can,
`SchedulerSettles` that a pool without new work comes to rest, and `SchedulerRuns` plays the runs in which the obvious
expectation fails.

**The message codec** (`src/blocks/lua_message.c`). `LuaMessage` packs Lua values into an array of bytes that grows
by reallocation, and unpacks them again.

Strictness is a parameter everywhere (Eva is built with `HTTP_PARSER_STRICT=0`, the header's default is 1), and so
is the answer of `on_headers_complete`, which may depend on everything delivered so far.

## How the proof of the parser goes

1. A mark is live exactly when the current state belongs to its span (`HttpSpans.MarksMatch`). The bytes between a
   live mark and the current position are *pending*: `PendAll` delivers them in thought. `Scan.View`, the log with
   everything pending delivered, moves exactly as the byte machine's observation does.
2. Every case of the switch does what the byte machine does with the same byte (`Did`), the bulk skips do what it
   does with many bytes (`HttpBody.CountedBody`, `ChunkBody`, `EofBody`), and so the loop does what it does with the
   whole buffer.
3. Reading `a + b` is reading `a` and then `b` for the byte machine, trivially; that is the cut invariance of the code.

`HttpRoundTrip` ties the ends together with a printer: a sequence of requests or of responses is printed, cut into
pieces anywhere, and fed to a new parser through the calls above. What the callbacks accumulate is exactly the
sequence of messages (`ParseAll`, `ParseToEnd`). The printed text covers what the tests send: blank lines before a
message, spaces between the words, origin, absolute and authority form, marks without a query, lines without a version
(HTTP/0.9) or a reason, CR LF or a bare LF, empty and folded header values, and bodies that are missing, counted,
chunked with trailers, skipped by the user, or run to the end of the connection. `HttpUpgrade` lets the last message
be one that upgrades or opens a tunnel, followed by anything: the parser delivers it and stops right behind it
(`ParseToUpgrade`). `HttpCutOff` ends the connection inside a request (`ParseCutOff`). `HttpErrors` says which byte is
an error where, and which error, and `HttpTables` compares the tables with their characters. `PostedIsText`,
`ClosedIsText`, `SimpleIsText`, `ClosedLateDiffers` and `TunnelIsUpgrade` give messages that meet the conditions.

The assertions in the C source are assertions in the methods: `nread == 1` in `s_chunk_size_start`, `F_CHUNKED` in
the chunk states, and the `default` branches of the header automata. The unhandled-state default has no counterpart
because the match is exhaustive.

## The steps of the scheduler

Each action of `Scheduler` is one locked section, or one access outside any lock:

- worker: `Pop` (process.c:122-128), `Start` (132-145), `Receive` (151), `TakeContent` (153-157), `Finish` (147, 158-160),
  `Answer` (162), `ReleaseAnswered` (164-166), `GoIdle` (178-180), `Peek` (183-184), `Renotify` and `Repush` (185, 81-92);
  for a task that ends `Die` (97-99), `Drain` (101), `Refuse` (102), `Discard` (103), `Close` (105-109);
- client: `Spawn` and `Push` (process.c:316-337), `Create` (mailbox.c:149-163), `Append` (165-174), `Notify` and `Push`
  (175, process.c:81-92), `Await`, `Wake` and `ReadAnswer` (blocks.c:108-115, mailbox.c:217-225), `Drop`
  (blocks.c:139-145, mailbox.c:230-245), `DropMailbox` (blocks.c:132-137, mailbox.c:121-142). The client of a task takes
  these steps inside lines 142-147 and 158 of process.c.

## What turned out differently from what one might expect

- A body that ends with the connection (`s_body_identity_eof`) stays in its state at the end. A second empty buffer
  would complete a message that never began (`HttpMessages.EofOnce`).
- After an upgrade the parser returns without saving its state, so its caller has to stop there. `Attached`, the
  precondition of every call, says so: the saved parser satisfies the invariant, which excludes an upgrade.
- A message that ends through trailers leaves its trailer block charged to the next message's header budget
  (`HttpPipeline.CarriedBudget`); every other message leaves nothing. Trailers also set flags as headers do, so that a
  `Connection: close` among them closes the connection (`HttpRoundTrip.EndFlags`).
- What http_should_keep_alive says at the end of a message can differ from what it said at its announcement, which
  line 1243 of `test.c` takes for impossible: if and only if a trailer spells `close` (before HTTP/1.1 `keep-alive`) and
  no header did (`HttpRoundTrip.TrailersDiffer`, `ClosedLateDiffers`). A message without trailers says the same twice
  (`HttpKeepAlive.AnnouncedIsAnswered`, `MessagesSayTwice`).
- A header line without a value sets nothing, so that an empty `Upgrade` does not upgrade, an empty `Content-Length` is
  no error, and after a bare line feed the next line cannot fold it (`HttpHeaderLines.HeaderLine`). A folded
  `Content-Length` starts again with every line, and a folded `Connection` is judged by its first line
  (`HttpHeaderLines.FoldLine`). A line without a colon delivers its name, and the next name continues it
  (`HttpHeaderBlocks.NameLineObs`).
- A response parser announces the begin of a message once more for every line end before its status line
  (`HttpStatusLine.ReadStatusLine`).
- A word that begins like `CONNECT` or `MKCOL`, or with `P`, fails with the unknown error and other words with the one
  for methods (`HttpErrors.MethodErrors`).
- A message that is appended to a task's mailbox after the task's last look into it is never answered
  (`SchedulerLate.LateIsLost`), and once the pool is at rest, exactly these messages are unanswered
  (`SchedulerLate.LateExactly`). "After the last look" means that the task is gone or a worker is about to end its
  mailbox. The send has found the mailbox alive all the same: it may have looked between the last look and the end
  (`SchedulerRuns.LateSend`), or long before, because the test on line 149 of `mailbox.c` is not under the lock
  (`SchedulerRuns.SendAcrossClose`).
- A late notification can queue a task whose mailbox is empty again, which then runs without a message
  (`SchedulerRuns.LateNotify`). Lines 160-162 of `process.c` use the null message; the model has them under the guard
  of line 164. A worker finds no message exactly when the last wake-up of the task found its mailbox empty and nothing
  was appended since (`SchedulerWakes.EmptyReceive`), and no task ever runs without one if every wake-up finds mail,
  which line 83 of `process.c` could test (`SchedulerWakes.NoEmptyRuns`).
- The re-check of a task that has become idle can look into a freed mailbox, if the task was woken, run to its end and
  buried meanwhile and nobody refers to the mailbox any more (`SchedulerRuns.LateRecheck`); no other step can, and this
  one exactly then (`SchedulerTheorems.TouchedBoxFreed`). It is safe as long as nobody has woken the task
  (`SchedulerWakes.RecheckSafe`). The reference through which it looks, and the mutex that a notification locks, belong
  to the task itself: a step touches a task that is gone only as a re-check or a notification, and then exactly when the
  task is dead and no worker is burying it any more (`SchedulerTheorems.TouchedTaskGone`). All three happen
  (`SchedulerRuns.LateRecheck`, `RenotifiesGone`, `NotifiesGone`). A notification is safe as long as its own message,
  appended in time, has not been taken (`SchedulerLate.NotifySafe`).
- A task that waits for an answer keeps its worker. A pool whose workers all wait inside tasks is stuck for ever
  (`SchedulerProgress.BlockedForever`), as with one worker and a task that waits for its child
  (`SchedulerRuns.WaitsForItself`); `SchedulerProgress.StuckExactly` says when a pool is stuck. Short of that, a pool
  that gets no new work comes to rest, whatever the interleaving: there is a bound on the steps that are left
  (`SchedulerSettles.QuietBound`), and at their end every message to a surviving task has been answered
  (`SchedulerSettles.ComesToRest`).
- A sender whose message the dying task drained reads its own request as the answer (`SchedulerRuns.ReadsOwnRequest`);
  `SchedulerTheorems.WaiterReads` says exactly when.
- One string alone is accepted up to 1500 bytes although the limit is 2048 (`LuaMessage.OneString`), because each
  growth adds slack; with more than 111 values the first heap is over the limit already and is not checked against it.
- The grown heap size is stored in an `int`. A size that passes the limit check is large enough if and only if nothing
  was lost in that conversion (`LuaMessage.GrownHolds`); `LuaMessage.GrownTooSmall` gives a size for which it is not,
  and `LuaMessage.OverrunExactly` says when the next write leaves the heap.
- A userdata is received as the address of its own record in the heap and not as the pointer that was sent
  (`LuaMessage.UserdataLost`).

## Model

| member | source | states |
|---|---|---|
| HttpExecute.HttpParser.Init | 3rd-party/http-parser/http_parser.c:1789-1798 | sets type, start state, budget, upgrade, flags and method, and leaves the other fields alone |
| HttpExecute.HttpParser.KeepsAlive | 3rd-party/http-parser/http_parser.c:1762-1780 | in HTTP/1.1 alive unless close was seen, before it only if keep-alive was |
| HttpExecute.Scan.constructor | 3rd-party/http-parser/http_parser.c:404-429 | re-arming the six marks on entry makes each live exactly when the saved state belongs to its span, and nothing is pending |
| HttpExecute.Scan.Callback | 3rd-party/http-parser/http_parser.c:59-86 | delivering a span and clearing its mark does not change what has been delivered or is pending |
| HttpExecute.Scan.UrlCase | 3rd-party/http-parser/http_parser.c:759-1047 | URL states with their four marks do what the byte machine does, url before its part at a normal end |
| HttpExecute.Scan.StatusLine | 3rd-party/http-parser/http_parser.c:510-662 | status line states, version and status digits included |
| HttpExecute.Scan.Version | 3rd-party/http-parser/http_parser.c:1048-1168 | request version states |
| HttpExecute.Scan.MethodCase | 3rd-party/http-parser/http_parser.c:705-758 | the method automaton with its C strings and their terminators, every index in bounds |
| HttpExecute.Scan.HeadCase | 3rd-party/http-parser/http_parser.c:1170-1608 | the nested name and value automata, no default branch reached, every literal index in bounds |
| HttpExecute.Scan.HeadersDoneCase | 3rd-party/http-parser/http_parser.c:1535-1608 | end of headers: trailers done, announcement, upgrade exit, or the choice of the body |
| HttpExecute.Scan.ChunkCase | 3rd-party/http-parser/http_parser.c:1632-1736 | chunk framing states under the assertions that F_CHUNKED is set and that nread is 1 at a size line's start |
| HttpExecute.Scan.IdentityCase | 3rd-party/http-parser/http_parser.c:1610-1622 | the bulk skip over a counted body equals as many single steps, completion included |
| HttpExecute.Scan.EofCase | 3rd-party/http-parser/http_parser.c:1624-1630 | the rest of the buffer at once equals as many single steps |
| HttpExecute.Scan.ChunkDataCase | 3rd-party/http-parser/http_parser.c:1701-1718 | the bulk skip over chunk data equals as many single steps, a negative length included |
| HttpExecute.Scan.ByteCase | 3rd-party/http-parser/http_parser.c:431-443 | one byte outside the bulk states: budget charged, switch taken, error or exit as the byte machine |
| HttpExecute.Scan.LoopBody | 3rd-party/http-parser/http_parser.c:431-1737 | one turn of the loop is the byte machine over the bytes it passes, and the marks match the state again |
| HttpExecute.Scan.Flush | 3rd-party/http-parser/http_parser.c:1739-1744 | delivering the open spans at a cut, path before url, changes nothing in what has been observed |
| HttpExecute.Scan.Save | 3rd-party/http-parser/http_parser.c:1746-1749 | the locals fit their narrower fields, so the saved parser is the current one |
| HttpExecute.ExecuteEof | 3rd-party/http-parser/http_parser.c:386-402 | an empty buffer completes a body that has no length, is accepted between messages, and is an error elsewhere |
| HttpExecute.EofExactly | 3rd-party/http-parser/http_parser.c:386-402 | by what has been delivered: for a request parser exactly between messages, for a response parser also before the status line and in a body without a length |
| HttpExecute.ExecuteBuffer | 3rd-party/http-parser/http_parser.c:362-1758 | a whole buffer: same saved parser, messages and count as the byte machine; on an error the same errno and count, the undelivered spans being all that is missing; on an upgrade the same messages and count |
| HttpExecute.Execute | 3rd-party/http-parser/http_parser.c:362-402 | nothing happens after an error; an empty buffer ends the connection, and is in order exactly as above; otherwise the buffer is read |
| HttpExecute.ExecutePieces | 3rd-party/http-parser/test.c:1775-1894 | for every input and every cut into non-empty pieces, the outcome of reading it in one go |
| HttpBody.CutInvariance | 3rd-party/http-parser/test.c:1534-1592 | one call per piece, from any state and for any cut, ends in the same run as one call |
| HttpBody.ReadAllSplit | 3rd-party/http-parser/http_parser.c:404-1758 | reading a concatenation is reading its parts in turn |
| HttpBody.StoppedStays | 3rd-party/http-parser/http_parser.c:382-384 | nothing is read after an error or an upgrade |
| HttpBody.CountedBody | 3rd-party/http-parser/http_parser.c:1610-1622 | a positive length n delivers exactly the next n bytes and completes at the n-th |
| HttpBody.EofBody | 3rd-party/http-parser/http_parser.c:1624-1630 | a body without length takes everything |
| HttpBody.ChunkBody | 3rd-party/http-parser/http_parser.c:1701-1718 | chunk data is delivered as it is and its last byte ends the chunk |
| HttpSpans.FlushKeeps | 3rd-party/http-parser/http_parser.c:59-86 | flushing any one span leaves the observation unchanged whatever the other open spans |
| HttpSpans.Advance | 3rd-party/http-parser/http_parser.c:404-429 | moving on by a byte adds it to exactly the spans that are open in the new state |
| HttpSpans.MergeData | 3rd-party/http-parser/test.c:1138-1191 | two fragments of a span accumulate to their concatenation |
| HttpSpans.CommuteData | 3rd-party/http-parser/http_parser.c:1739-1744 | fragments of different URL spans may be delivered in either order |
| HttpInvariants.ChunkKeeps | 3rd-party/http-parser/http_parser.c:1632-1736 | every chunk state keeps F_CHUNKED and a fresh budget at a size line's start |
| HttpInvariants.HeadKeeps | 3rd-party/http-parser/http_parser.c:1170-1608 | in the header states only legal header_state values occur, with the index inside the literal being matched |
| HttpInvariants.MethodKeeps | 3rd-party/http-parser/http_parser.c:705-758 | the index never passes the end of the current candidate |
| HttpInvariants.FollowKeeps | 3rd-party/http-parser/http_parser.c:530-644 | version and status numbers stay below 1000 while they are read |
| HttpTrace.StepKeeps | 3rd-party/http-parser/http_parser.c:443-1737 | every byte keeps the invariant and what has been delivered in each state |
| HttpTrace.ReadAllKeeps | 3rd-party/http-parser/http_parser.c:404-1758 | over every input, up to an error or an upgrade too, the trace is a prefix of the message grammar, and messages have begun (once, unless they are responses), been announced and completed once each |
| HttpTrace.StopEvents | 3rd-party/http-parser/http_parser.c:1573-1580 | a byte that stops the parser has delivered at most a begin, or the announcement and completion of an upgraded message |
| HttpGrammar.LegalIsOrdered | 3rd-party/http-parser/http_parser.h:237-248 | in a legal log every callback comes in its place: a begin between messages (a response's also again before its headers), values after a field, one announcement, trailers only after a chunked announcement, completion last |
| HttpGrammar.LegalExactly | 3rd-party/http-parser/http_parser.h:237-248 | the logs the recogniser accepts are exactly those in which every callback is in its place |
| HttpGrammar.LegalPrefix | 3rd-party/http-parser/http_parser.h:237-248 | every prefix of a legal log is legal |
| HttpMethods.MethodExact | 3rd-party/http-parser/http_parser.c:664-758 | a word and a space lead to the URL exactly when the word is a method name, and the parser then holds that method |
| HttpMethods.ConsumedPrefix | 3rd-party/http-parser/http_parser.c:705-758 | the bytes read are the first index characters of the current candidate |
| HttpMethods.ReadsName | 3rd-party/http-parser/http_parser.c:664-758 | every prefix of every method name is followed, through the candidate that stands for it |
| HttpMethods.NamesDiffer | 3rd-party/http-parser/http_parser.c:94-119 | no two methods have the same name |
| HttpHeaderLines.NameFoldMeans | 3rd-party/http-parser/http_parser.c:1185-1320 | the name automaton ends in the state of a literal exactly when the name is that literal up to case and trailing spaces |
| HttpHeaderLines.ValueFoldMeans | 3rd-party/http-parser/http_parser.c:1376-1495 | the value automaton likewise for chunked, keep-alive and close, and the length is the decimal value of its digits |
| HttpHeaderLines.HeaderLine | 3rd-party/http-parser/http_parser.c:1170-1533 | an unfolded header line adds exactly the flags its name and value spell, or sets the content length its digits write, or fails on a malformed length; without a value it sets nothing |
| HttpHeaderLines.FoldLine | 3rd-party/http-parser/http_parser.c:1497-1533 | a further line of a header sets no flag; a number starts again with it, unless a line without a value came before |
| HttpHeaderLines.NameLine | 3rd-party/http-parser/http_parser.c:1329-1345 | a line without a colon sets nothing |
| HttpMessages.ReadEmptyLine | 3rd-party/http-parser/http_parser.c:1535-1608 | the empty line, ended by CR LF or LF, announces the headers once, asks the user, resets the budget, and leads to the body or completes the message |
| HttpMessages.SkippedBody | 3rd-party/http-parser/http_parser.c:1557-1587 | if the user answers yes, the message is complete at its empty line, whatever its length or coding |
| HttpMessages.LengthDelimited | 3rd-party/http-parser/http_parser.c:1587-1621 | a message with a positive length n and no chunked coding has the next n bytes as its body and ends there (RFC 2616 section 4.4) |
| HttpMessages.ChunkDelimited | 3rd-party/http-parser/http_parser.c:1583-1586 | a chunked message ignores its content length and has its chunks' payload as its body (RFC 2616 section 4.4) |
| HttpMessages.BothIsRequest | 3rd-party/http-parser/http_parser.c:452-485 | a parser of either kind behaves as a request parser once the first bytes begin a method, HEAD included |
| HttpMessages.BothIsResponse | 3rd-party/http-parser/http_parser.c:452-485 | and as a response parser once they begin a status line |
| HttpMessages.EofOnce | 3rd-party/http-parser/http_parser.c:386-391 | the end of the connection completes the message; a second end would complete one that never began |
| HttpRequestLine.ReadBlankLines | 3rd-party/http-parser/http_parser.c:452-456 | line ends before a request are skipped |
| HttpRequestLine.ReadRequestLine | 3rd-party/http-parser/http_parser.c:664-1168 | a printed request line (RFC 2616 section 5.1) stores its method and version and delivers its url, path, query and fragment, whole and nothing else |
| HttpRequestLine.ReadOldEol | 3rd-party/http-parser/http_parser.c:875-888 | a line that ends with its target, by CR LF or LF, stores version 0.9 |
| HttpRequestLine.ReadAuthority | 3rd-party/http-parser/http_parser.c:759-860 | a schema, host and port (for CONNECT a host and port) are in the url and in nothing else |
| HttpRequestLine.ReadTarget | 3rd-party/http-parser/http_parser.c:759-1047 | a target in origin, absolute or authority form is delivered as url, path, query and fragment without their marks |
| HttpStatusLine.ReadStatusLine | 3rd-party/http-parser/http_parser.c:487-662 | a printed status line, with a reason or without, stores its version and status and delivers nothing but the begin, once more for every line end before it |
| HttpHeaderBlocks.ReadHeader | 3rd-party/http-parser/http_parser.c:1170-1533 | a header with its folds delivers its name and whole value as one pair behind the earlier ones, with the flags and the length it spells |
| HttpHeaderBlocks.NameLineObs | 3rd-party/http-parser/http_parser.c:1329-1345 | a line without a colon delivers its name and nothing else |
| HttpHeaderBlocks.ReadHeaders | 3rd-party/http-parser/http_parser.c:1170-1533 | a block of headers or trailers delivers all pairs in order; the flags accumulate and the last Content-Length counts |
| HttpRoundTrip.ReadChunked | 3rd-party/http-parser/http_parser.c:1632-1730 | a chunked body with trailers delivers its data, then its trailers as headers, and completes with the flags these have set |
| HttpRoundTrip.TextRoundTrip | 3rd-party/http-parser/test.c:1534-1592 | a printed request or response, its body skipped or not, is parsed as one message with exactly its parts, and the parser is back at a start state, or dead if strict and not to be kept alive |
| HttpRoundTrip.ReadUntilEnd | 3rd-party/http-parser/http_parser.c:1598-1606 | a response without length delivers everything and is complete exactly when the connection ends |
| HttpRoundTrip.PipelineRoundTrip | 3rd-party/http-parser/test.c:1722-1773 | any number of printed messages, one behind the other, are exactly these in order (RFC 2616 section 8.1) |
| HttpRoundTrip.ParseAll | 3rd-party/http-parser/test.c:1775-1894 | the same through the buffer scanner, for every cut of the input into pieces; the end of the connection is then in order and changes nothing |
| HttpRoundTrip.ParseToEnd | 3rd-party/http-parser/test.c:1534-1592 | the same with a last response that ends with the connection |
| HttpUpgrade.UpgradeRoundTrip | 3rd-party/http-parser/http_parser.c:1549-1580 | a printed message that upgrades or connects is delivered, and the parser stops right behind its empty line, whatever follows |
| HttpUpgrade.ParseToUpgrade | 3rd-party/http-parser/http_parser.c:1573-1580 | the same behind other messages and under every cut: the messages, the upgrade flag, and the count at which the other protocol begins |
| HttpCutOff.NotYet | 3rd-party/http-parser/http_parser.c:386-402 | no printed message is complete before its last byte |
| HttpCutOff.ParseCutOff | 3rd-party/http-parser/http_parser.c:386-402 | a connection that ends inside a printed request, behind any number of others and under every cut, is an error, and only the others are complete |
| HttpErrors.ErrorExactly | 3rd-party/http-parser/http_parser.c:443-1735 | in every place but the method a byte is an error exactly if it may not come there, and which error |
| HttpErrors.MethodErrors | 3rd-party/http-parser/http_parser.c:705-758 | behind any beginning of a method name a byte is an error exactly if no name goes on with it, and which error |
| HttpErrors.AnyByte | 3rd-party/http-parser/http_parser.c:336-350 | where a strict parser wants one byte a lenient one takes every byte for it |
| HttpTables.MethodSpelling | 3rd-party/http-parser/http_parser.c:94-119 | the names of the methods |
| HttpTables.HeaderSpelling | 3rd-party/http-parser/http_parser.c:84-91 | the names and values looked for in headers |
| HttpTables.TokenTable | 3rd-party/http-parser/http_parser.c:122-161 | what is no token is a control character, no ASCII, or a separator (RFC 2616 section 2.2) but for four, and tokens are read in lower case |
| HttpTables.UrlTable | 3rd-party/http-parser/http_parser.c:176-226 | URL and host characters, strict and lenient |
| HttpTables.HexTable | 3rd-party/http-parser/http_parser.c:164-173 | hexadecimal digits |
| HttpKeepAlive.AnnouncedIsAnswered | 3rd-party/http-parser/test.c:1227-1252 | for every input and each of its bytes: a message that the byte completes before any trailer has come says at its end what it said at its announcement about keeping the connection; so does one that the end of the connection completes |
| HttpKeepAlive.MessagesSayTwice | 3rd-party/http-parser/test.c:1227-1252 | over every input, all messages without a chunked body say the same twice |
| HttpRoundTrip.KeepAliveSpelled | 3rd-party/http-parser/http_parser.c:1762-1780 | from HTTP/1.1 on a message is told to stay open unless a header spells close, before it if one spells keep-alive; at its end its trailers count, too |
| HttpRoundTrip.TrailersDiffer | 3rd-party/http-parser/test.c:1227-1252 | a message says different things if and only if a trailer spells what no header did |
| HttpRoundTrip.ClosedLateDiffers | 3rd-party/http-parser/test.c:1227-1252 | there is such a message |
| HttpMessages.BodyLess | 3rd-party/http-parser/http_parser.c:1583-1604 | a message whose headers announce no body ends with its headers |
| HttpChunks.ChunkedRoundTrip | 3rd-party/http-parser/http_parser.c:1632-1730 | any chunks with any hexadecimal spelling and extensions within the budget deliver exactly their data and one completion (RFC 2616 section 3.6.1) |
| HttpChunks.DecodeEncode | 3rd-party/http-parser/test.c:1898-1925 | printing any list of non-empty parts as chunks and parsing it gives back their concatenation |
| HttpChunks.HexDigitsValue | 3rd-party/http-parser/http_parser.c:164-173 | the printed size is read back as the same number |
| HttpMessages.ChunkedUnderEveryCut | 3rd-party/http-parser/test.c:1964-1980 | the same under every cut |
| HttpPrinter.CreateLargeChunkedMessage | 3rd-party/http-parser/test.c:1898-1925 | fills the buffer exactly, every write in bounds, with the headers, the printed chunks and a NUL |
| HttpPrinter.LargeMessageRead | 3rd-party/http-parser/test.c:1964-1980 | the printed message is read as one body of 1024 * kb letters under every cut |
| HttpPipeline.Pipelining | 3rd-party/http-parser/http_parser.c:1535-1621 | back at a start state, all future behaviour is that of a newly initialised parser with the carried budget, whatever its other fields hold |
| HttpPipeline.AgreeForever | 3rd-party/http-parser/http_parser.c:664-703 | parsers that differ only in fields that are written before they are read behave alike for ever |
| HttpPipeline.CarriedBudget | 3rd-party/http-parser/http_parser.c:1540-1547 | a completed message leaves no budget charged unless it ended through trailers, and then what was charged stays |
| HttpBudget.BudgetKept | 3rd-party/http-parser/http_parser.c:434-441 | the counter is the number of header-state bytes since the last reset, at most 80 * 1024 |
| HttpBudget.OverflowExact | 3rd-party/http-parser/http_parser.c:434-441 | the overflow error comes exactly at the header-state byte after 80 * 1024 since the last reset |
| HttpBudget.StatesArePacked | 3rd-party/http-parser/http_parser.c:211-286 | the states have distinct numbers below 0x80, and the header states are those up to s_headers_almost_done |
| HttpBudget.SavedIsPacked | 3rd-party/http-parser/http_parser.h:191-200 | one byte holds a state or an error, without loss |
| TaskQueue.ThreadPool.Pop | src/blocks/process.c:54-63 | takes the first task of the list, or none |
| TaskQueue.ThreadPool.Push | src/blocks/process.c:65-79 | walks to the last item and links the task behind it |
| Mailboxes.Message.constructor | src/blocks/mailbox.c:155-163 | a message starts waiting, with two references and what was sent |
| Mailboxes.Message.MarkReply | src/blocks/mailbox.c:179-189 | ready or dead, nothing else changed |
| Mailboxes.Message.Unref | src/blocks/mailbox.c:230-245 | one reference less, freed if none is left and it has been replied to |
| Mailboxes.Mailbox.Append | src/blocks/mailbox.c:165-174 | the message goes to the end; the end pointer is followed only in a non-empty list, to a message that is not freed; the count is the length |
| Mailboxes.Mailbox.Send | src/blocks/mailbox.c:144-177 | a dead mailbox refuses, otherwise a new message is appended |
| Mailboxes.Mailbox.Receive | src/blocks/mailbox.c:191-204 | the oldest message, or none |
| Mailboxes.Mailbox.Peek | src/blocks/mailbox.c:206-215 | the oldest message, left in place |
| Mailboxes.Mailbox.Close | src/blocks/mailbox.c:121-142 | dead after the first call, freed by the second |
| Mailboxes.PutTake | src/blocks/mailbox.c:165-204 | sends and receives in any order keep what was taken and what is linked equal to what was appended |
| SchedulerInvariant.StepKeeps | src/blocks/process.c:81-191 | every step of every worker and client keeps the invariant |
| SchedulerInvariant.RunKeeps | src/blocks/process.c:112-191 | it holds in every state of every interleaving |
| SchedulerInvariant.LocalOk | src/blocks/process.c:81-191 | a step that touches one worker, client, task and message keeps everything said about all others |
| SchedulerTheorems.ExclusiveOwnership | src/blocks/process.c:54-92 | a task that is neither idle nor dead is queued once, or with one worker, or being pushed by one thread, and never two of these; an idle one is in no hand and a dead one never queued |
| SchedulerTheorems.OneWorker | src/blocks/process.c:121-180 | no two workers run one task |
| SchedulerQueue.FirstInFirstOut | src/blocks/process.c:54-79 | in every run the tasks popped and then those queued are the tasks pushed, in the same order |
| SchedulerQueue.PoppedInTurn | src/blocks/process.c:54-79 | a task that is pushed is popped after exactly those that were queued before it |
| SchedulerTheorems.NoLostWakeup | src/blocks/process.c:178-187 | an idle task with mail always has a sender about to notify it or a worker about to look again |
| SchedulerTheorems.OrderedDelivery | src/blocks/mailbox.c:165-204 | in every mailbox what was taken and then what is linked is what was appended, each message once and in order, and all messages sent to it are there |
| SchedulerTheorems.MessageLifetime | src/blocks/mailbox.c:155-163 | a message has a reference for each side that is not done, two at first, and is freed exactly when both are done, by when it has been replied to |
| SchedulerTheorems.TouchedLives | src/blocks/mailbox.c:217-245 | no step of any run touches a freed message, so none is freed twice |
| SchedulerTheorems.LinkedLives | src/blocks/mailbox.c:165-174 | linked messages are neither freed nor answered |
| SchedulerTheorems.WaiterReads | src/blocks/mailbox.c:217-225 | a client that has waited reads the answer given, or its own request from a task that died, never a freed or half-done message |
| SchedulerTheorems.AnswerGiven | src/blocks/process.c:158-162 | the answer with which an evaluation ends is the one its message holds ever after |
| SchedulerTheorems.RequestGiven | src/blocks/mailbox.c:155-163 | a message holds the value and the addressee it was sent with ever after |
| SchedulerTheorems.ReadingUndisturbed | src/blocks/blocks.c:108-115 | while it reads, nobody else changes or frees the message |
| SchedulerTheorems.TouchedBoxFreed | src/blocks/mailbox.c:121-142 | a step touches a freed mailbox exactly when it is the re-check of a task that is gone and whose mailbox nobody refers to |
| SchedulerTheorems.TouchedTaskGone | src/blocks/process.c:81-110 | a step touches a task that is gone, or the mailbox reference that went with it, exactly when it is a re-check or a notification, the task is dead, and no worker is burying it any more |
| SchedulerRuns.NotifiesGone | src/blocks/process.c:81-92 | there is a run in which a sender notifies a task that is gone |
| SchedulerRuns.RenotifiesGone | src/blocks/process.c:183-186 | there is a run in which a worker that has seen mail does |
| SchedulerWakes.RecheckSafe | src/blocks/process.c:178-187 | as long as nobody has woken the task since it became idle, the re-check finds task and mailbox alive |
| SchedulerRuns.LateRecheck | src/blocks/process.c:178-187 | there is a run in which the re-check looks into a freed mailbox |
| SchedulerTheorems.MailboxLifetime | src/blocks/mailbox.c:121-142 | a mailbox is destroyed at most twice and freed exactly when its task is gone and its reference dropped |
| SchedulerTheorems.RunOnward | src/blocks/process.c:94-110 | along every run dead tasks stay dead, histories only grow, freed messages stay freed and answers stay |
| SchedulerTheorems.RestingTask | src/blocks/process.c:178-187 | at rest every task is idle with an empty mailbox, or gone |
| SchedulerTheorems.RestingMessage | src/blocks/process.c:94-110 | at rest a message is unanswered exactly when it lies in the mailbox of a task that is gone |
| SchedulerTheorems.NeverAnswered | src/blocks/process.c:101-105 | such a message stays unanswered however the run goes on |
| SchedulerLate.LateIsLost | src/blocks/process.c:101-105 | a message appended after the task's last look is never taken and never answered, in any later state |
| SchedulerLate.LateExactly | src/blocks/mailbox.c:144-177 | for every send of every run: at rest its message is unanswered if and only if, when it was appended, the task was gone or a worker was about to end its mailbox |
| SchedulerLate.NotifySafe | src/blocks/mailbox.c:174-176 | the notification finds the task alive as long as the message, appended in time, has not been taken |
| SchedulerProgress.WorkerMovesExactly | src/blocks/process.c:112-191 | a worker has a next step unless it is at the pool with nothing queued, or inside the code of a task that has not come back |
| SchedulerProgress.ClientMovesExactly | src/blocks/mailbox.c:217-227 | a client in the middle of something has a next step unless it waits for an answer that is not there |
| SchedulerProgress.StuckExactly | src/blocks/process.c:112-191 | nothing begun can go on exactly when every worker is idle with nothing queued or blocked in a task that waits, and every client is done or waits for an answer that is not there |
| SchedulerProgress.QueuedAndStuck | src/blocks/blocks.c:22-27 | a pool that is stuck with a task queued has all its workers blocked inside tasks |
| SchedulerProgress.StuckAtRest | src/blocks/process.c:121-128 | a stuck pool without a blocked worker is at rest |
| SchedulerProgress.StuckMessage | src/blocks/blocks.c:108-115 | what a client of a stuck pool waits for lies with a task that is gone, with a queued one while all workers are blocked, or with one that a blocked worker has in hand |
| SchedulerProgress.BlockedForever | src/blocks/blocks.c:108-115 | once all workers wait inside tasks, they do so in every later state |
| SchedulerSettles.QuietSpends | src/blocks/process.c:112-191 | every step but a spawn, a send and a decision to wait lowers a measure of the work that is left |
| SchedulerSettles.QuietBound | src/blocks/process.c:112-191 | in every interleaving there are at most as many such steps in a row as the measure says |
| SchedulerSettles.Settles | src/blocks/process.c:112-191 | every run can be completed by such steps to one in which nothing begun can go on |
| SchedulerSettles.ComesToRest | src/blocks/process.c:121-187 | if no task waits for an answer, it is at rest then: every message to a surviving task is answered, and of all messages exactly those appended too late are not |
| SchedulerRuns.WaitsForItself | src/blocks/blocks.c:108-115 | there is a run in which a task that waits for its child keeps the only worker from it |
| SchedulerRuns.LateSend | src/blocks/process.c:101-105 | there is a run in which a send lands between the last look and the end of the mailbox and its sender waits for ever |
| SchedulerRuns.SendAcrossClose | src/blocks/mailbox.c:149-174 | there is a run in which a send tests the mailbox before its end and appends after it, and its sender waits for ever |
| SchedulerRuns.ReadsOwnRequest | src/blocks/process.c:101-104 | there is a run in which a sender reads its own request as the answer |
| SchedulerRuns.LateNotify | src/blocks/process.c:148-167 | there is a run in which a loaded task is queued with an empty mailbox and evaluated without a message |
| SchedulerWakes.EmptyReceive | src/blocks/process.c:81-92 | a worker finds no message exactly when the last wake-up of the task found the mailbox empty and nothing has been appended since |
| SchedulerWakes.NoEmptyRuns | src/blocks/process.c:81-92 | if every wake-up finds mail, no task of the run is evaluated without a message |
| LuaMessage.Pop | src/blocks/lua_message.c:93-157 | packs the stack above the offset with every write in bounds, hands back nothing for the empty list, is rejected exactly when the growing heap would pass the limit, and stops exactly where the next write would leave the heap |
| LuaMessage.Push | src/blocks/lua_message.c:43-90 | unpacks as many values in the same order: each arrives unchanged, or as nil if it is a function, a table or of another type, or as an address in the heap if it is a userdata |
| LuaMessage.Transfer | src/blocks/blocks.c:63-88 | what is sent is what is received, for every accepted list, and small payloads are always accepted |
| LuaMessage.RestoredArrives | src/blocks/lua_message.c:60-86 | value by value: nil, booleans, numbers and strings arrive as they are, functions, tables and other types as nil, a userdata as a pointer into the heap |
| LuaMessage.SameBytes | src/blocks/lua_message.c:43-90 | the bytes alone determine what is unpacked |
| LuaMessage.LoadStored | src/blocks/lua_message.c:139-142 | a count, type or length is loaded as it was stored |
| LuaMessage.CapacityBound | src/blocks/lua_message.c:128-138 | after any number of growths everything packed lies inside the heap, whose size is at most that of the first heap or the limit |
| LuaMessage.GrowthFree | src/blocks/lua_message.c:108-138 | the heap is never grown exactly as long as the payload stays within the slack |
| LuaMessage.SmallAccepted | src/blocks/lua_message.c:108-138 | a payload under MSG_INC_SIZE bytes is never rejected |
| LuaMessage.AcceptedFits | src/blocks/lua_message.c:129-138 | whatever is accepted is smaller than the first heap or the limit |
| LuaMessage.ManyValues | src/blocks/lua_message.c:108-110 | with more values than fit the limit, accepted means never grown |
| LuaMessage.OneString | src/blocks/lua_message.c:129-137 | one string is accepted up to exactly 1500 bytes, and the error tells by how many it is too long |
| LuaMessage.GrownHolds | src/blocks/lua_message.c:129-131 | a grown size that passes the limit, negative ones included, holds the value if and only if it fits an int |
| LuaMessage.GrownTooSmall | src/blocks/lua_message.c:129-131 | a size that passes the limit and does not hold the value |
| LuaMessage.OverrunExactly | src/blocks/lua_message.c:129-137 | packing one more value overruns the heap exactly when it needs a larger one whose size does not fit an int and passes the limit as far as it does |
| LuaMessage.UserdataLost | src/blocks/lua_message.c:80-82 | a pointer from outside the heap is not what is received, which points into the heap |
| LuaMessage.RestoredUnchanged | src/blocks/lua_message.c:60-86 | exactly nil, booleans, numbers and strings pass unchanged, and a userdata that happens to point where it is unpacked |

## Left out

- HttpExecute.Execute: callbacks that fail, or that change the parser, are not modelled; every callback returns 0 except for the answer of on_headers_complete.
- HttpExecute.ExecutePieces: the caller is taken to stop after an error or an upgrade, because the upgrade exit does not save the state.
- HttpHeaderLines.HeaderLine: a Content-Length of 2^63 or more wraps in the model as on a two's complement machine, and its value is then not claimed; the code does not check for it.
- HttpChunks.ChunkedRoundTrip: chunk sizes of 2^63 or more wrap likewise, and bytes from 0x80 on count as the digit 0 because the table is initialised only below; both are modelled, and the round trip is about sizes below 2^63.
- HttpTrace.ReadAllKeeps: a response parser announces the begin of a message once for every line end before its status line; the grammar allows this for responses only, told by the type that the callback can read from the parser.
- HttpPipeline.Pipelining: holds wherever the parser is at a start state between messages; after a message that must not be kept alive a strict parser is in the dead state instead.
- HttpRoundTrip.TextRoundTrip: header lines without a colon are in the machine and have lemmas of their own (`HttpHeaderLines.NameLine`, `HttpHeaderBlocks.NameLineObs`), but not in the printer.
- HttpExecute.HttpParser.Init: fields that http_parser_init does not write hold any value of their type.
- HttpPrinter.CreateLargeChunkedMessage: a negative size in kilobytes.
- HttpTypes.Observe: the accumulating callbacks append to unbounded sequences, where the tests use fixed arrays and strncat, which also stops at a NUL.
- Error strings, the debug build with line numbers, and the fixtures of the parser's tests.
- SchedulerTheorems.TouchedBoxFreed: is about the mailbox itself; the reference to it belongs to the task (`TouchedTaskGone`). What the code reads in freed memory is not modelled: the steps that touch a task that is gone find its last state.
- Scheduler.Next: memory of tasks is never used again in the model, a run of a task is an oracle that ends it or lets it survive, and the mutexes are represented by the granularity of the steps; the mutex of a task is not held between the two halves of a notification, which allows more interleavings than the code.
- Scheduler.Next: what a Lua state no longer refers to may be collected at any point at which a worker has its task in hand, not only when the collector runs; clients that are not tasks run at any time.
- Waiting for a condition variable, thread creation, allocation failure, logging, the last message of a mailbox, and the parent mailbox.
- Mailboxes.Message.ContentDestroy: contents are values, so that freeing them is only that they are gone.
- LuaMessage.Pop: tables with an array part, for which bytes are copied from a null string; more values than Lua's stack has room for; what happens after a write has left the heap; the heap that is not freed when the limit is exceeded, because lua_error does not return.
- LuaMessage.Push: heaps that were not written by Pop; sizes are those of a little-endian machine with 4-byte ints and 8-byte lengths and numbers.
- The Lua virtual machine, copying of stacks between Lua states, sockets, the server loop, request processing, configuration and files.
