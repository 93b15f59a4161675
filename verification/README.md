# A verified model of the HTTP/WebSocket server

The server is C++ over boost::asio. It reads HTTP requests from a socket with a resumable byte automaton,
hands them to an application, and answers; a request that asks for it turns the socket into a one-way
WebSocket channel, over which any thread may push text messages to the client. This project models these
parts in Dafny and proves what they promise. Verify it with `dafny verify dfyconfig.toml`.

**Requests.** `ParserSpec` states the automaton as a function of one byte, `Grammar` the messages it is meant
to read and what they denote. `Completeness`, `Soundness` and `Recognition` prove that the two agree: the
parser is good at exactly the last byte of a well-formed message, holds exactly what the message denotes,
and within a head refuses exactly the first byte behind which no head can follow. `Requests` fills in the
request object, `Parser` is the parser object with its `state` and `data`, and proves that results do not
depend on how the bytes were cut into reads, nor on earlier requests. What the request of a message holds (URI,
version, headers, cookies), and whether it asks for a WebSocket, is stated over the message's own headers.

**Responses and cookies.** `Responses` prints a response buffer by buffer; headers and body read back
through the request automaton exactly when they satisfy a stated condition, which stock replies always do; the
status line is read back by a reader of its own.
`Cookies` scans and prints cookies; its search loop is proved against the leftmost-greedy meaning of the
regular expression, and a cookie list round-trips exactly when its pairs are of the right form.

**The HTTP connection.** `Connection` is the loop of reads, handlers and writes, as an object and as a
function on events. Every run is half-duplex, and nothing touches the buffer or the response while an operation
refers to it. In every run the application gets exactly the good results of the parser, and exactly their answers
are written, in order; a keep-alive run serves everything that was sent; a handshake behind it ends HTTP and opens
exactly one session, which is entered in the registry and started.

**WebSocket frames.** `Frames` writes frames with the loop over length bytes and reads them with a receiver
written from sections 5.1 and 5.2 of RFC 6455. From any beginning of a stream of frames a client, for which only a
frame with FIN set, no RSV bit and opcode 1 is a message, understands exactly the messages whose frames have arrived
whole.

**The push path.** `WsModel` is a transition system of one connection: any number of threads, each lock, each
step of `write`, `handle_write`, `handle_read`, `stop`, creation and destruction on its own, writes that go out a
few bytes at a time and complete with success or error. `WsLocks`, `WsQueue`, `WsHistory`, `WsWire` and `WsClosing`
prove inductive invariants over all interleavings; `WsTheorems` draws the conclusions: single writer,
conservation, delivery, lifetime, close once, overflow. `WsServer` is the whole server: any number of connections,
each with its own queue lock, behind one registry lock, and threads that go from one to another. Every connection
of it, seen by itself, is in a reachable state of `WsModel`, so that everything proved there holds of all of them;
and the server as a whole keeps its lock order and is free of deadlock. `WsConnection` and `Registry` are the same
code as objects with methods; a thread of the transition system that is not interrupted does exactly what the
method does.

Two things hold only under a condition, which is given exactly or shown to be needed:

* *The bytes on the wire are the beginning of all pushed frames.* They are, also behind failed writes, if and only
  if no bytes went out behind a frame that a failed write had cut short (`WsFailure.StreamWholeExactly`; each byte
  is known by its frame and its place in it; `WsCut.CutExactly` says what cut short means). Such bytes break the stream for good; they can go out only while
  the thread that closes the connection stands between setting the flag and the end of the shutdown
  (`WsFailure.BrokenByLateBytes`), which does happen (`WsFailure.StreamBrokenAfterFailure`).
* *`ws_onopen` before `ws_onclose`.* It is always called before, as long as nobody calls with the id of a connection
  that `ws_onopen` has not yet told (`WsServer.OpenedFirst`): ids are fresh. It need not have returned, though
  (`WsOpening.ClosedInsideOnOpen`).

Where comments and code differ the model follows the code: bytes behind a complete request in the same chunk
are dropped, a chunk that makes `std::stoi` throw is not wiped, and the stock page for 204 is headed
"204 Content".

Conventions: an octet of a string is the character with that code; in frames a byte is a number below 256.
`Undefined` stands for a version number that overflows `int`, on which C++ promises nothing and which is taken
here to end the handler, `Throws` for the exception of `std::stoi` that no `try` catches. Lower-casing, in header names and in comparisons without case, is that of ASCII.

## Model

| member | source | states |
|---|---|---|
| Text.StoiOfDecimal | HTTP/http_response.cpp:85 | A size printed for Content-Length is read back by `std::stoi` as itself exactly when it fits an `int`; otherwise it throws |
| Text.StoiReads | HTTP/http_parser.cpp:301 | `std::stoi` skips white space, takes one sign and all digits there are, ignores the rest, and throws exactly when there is no digit or the number is outside -2147483648 to 2147483647 |
| Text.LettersAreLowered | HTTP/http_parser.cpp:334 | Lower-casing maps each of the 26 letters to its small one, by the alphabet written out, and leaves every other character alone |
| Text.CharacterClasses | HTTP/http_parser.cpp:363-390 | Control characters, digits, separators and characters, each by its codes or its list |
| Text.NoLeadingZero | HTTP/http_response.cpp:85 | A printed size has no leading zero |
| ParserSpec.RunConcat | HTTP/http_parser.cpp:49-326 | Stopping the automaton at any byte and resuming it later is the same as not stopping |
| ParserSpec.OnlyUsedBytesMatter | HTTP/http_parser.cpp:53-325 | The bytes up to a definite result decide it alone; nothing behind them changes result, data or count |
| Completeness.EatHead | HTTP/http_parser.cpp:59-312 | Every well-formed head is read without a decision up to its last byte, leaving exactly the data it denotes: folds joined, versions as decimal values |
| Completeness.MessageAccepted | HTTP/http_parser.cpp:49-326 | Every well-formed message is good at exactly its last byte, with every data field equal to the grammar's value |
| Soundness.PiecesOf | HTTP/http_parser.cpp:49-326 | Any text read without a decision splits into grammar pieces that are well formed so far and stand for the configuration reached |
| Recognition.AcceptedIsMessage | HTTP/http_parser.cpp:49-326 | A text that is good at its last byte is that of a well-formed message, whose denotation the parser holds |
| Recognition.AcceptsExactlyMessages | HTTP/http_parser.cpp:49-326 | Good at the last byte if and only if the text is that of a well-formed message |
| Recognition.GoodRunReadsOneMessage | HTTP/http_parser.cpp:293-325 | Wherever a run ends well, the bytes read are one message, and every message the input begins with has that text and that meaning |
| Recognition.MessagesArePrefixFree | HTTP/http_parser.cpp:293-317 | No message is a proper beginning of another |
| Recognition.HeadDecides | HTTP/http_parser.cpp:293-317 | Behind a complete head exactly the announced number of bytes is read; a negative length never completes; an unconvertible one throws at the head's last byte, in the body state with the data of the head |
| Recognition.InHeadExactly | HTTP/http_parser.cpp:59-312 | Undecided within the head if and only if the text is a proper beginning of a well-formed head |
| Recognition.RefusedExactlyAtFirstHopelessByte | HTTP/http_parser.cpp:59-312 | Within the head a byte is refused if and only if no well-formed head begins that way; it is refused as bad unless it is the digit with which a version overflows |
| Recognition.OverflowsExactly | HTTP/http_parser.cpp:148-197 | The arithmetic of the versions is undefined at exactly the digit with which the major or minor number first exceeds `int` |
| Recognition.AcceptedThenRest | HTTP/http_parser.cpp:313-317 | Bytes behind a message change nothing about it |
| Parser.HTTPParser.constructor | HTTP/http_parser.cpp:14-17 | A new parser is in the initial configuration |
| Parser.HTTPParser.Reset | HTTP/http_parser.cpp:19-26 | After a reset the parser equals a new one |
| Parser.HTTPParser.Advance | HTTP/http_parser.cpp:55-322 | One byte changes state and data, or ends the call, exactly as the specification of one byte says |
| Parser.HTTPParser.AtLineStart | HTTP/http_parser.cpp:208-227 | The start of a header line: end of head, fold, new header or refusal |
| Parser.HTTPParser.AtValue | HTTP/http_parser.cpp:228-282 | Inside a value or the white space of a fold |
| Parser.HTTPParser.AtHeadEnd | HTTP/http_parser.cpp:293-312 | The last byte of the head: the length is fixed, or the call throws, or the request is complete |
| Parser.HTTPParser.FindContentLength | HTTP/http_parser.cpp:298-303 | The search loop finds the first Content-Length in any case |
| Parser.HTTPParser.Literal | HTTP/http_parser.cpp:98-147 | A state that accepts one byte only |
| Parser.HTTPParser.AddMajorDigit | HTTP/http_parser.cpp:148-172 | A digit of the major version, up to the overflow of `int` |
| Parser.HTTPParser.AddMinorDigit | HTTP/http_parser.cpp:173-197 | A digit of the minor version, up to the overflow of `int` |
| Parser.HTTPParser.ParseImpl | HTTP/http_parser.cpp:49-326 | The loop over a chunk ends with the result and the parser of the specified run |
| Parser.HTTPParser.Parse | HTTP/http_parser.cpp:28-47 | Result, request and parser of one call, reset after good and bad, no Host turned into bad, the chunk wiped unless an exception leaves the call |
| Parser.ChunkIndependence | HTTP/http_parser.cpp:28-47 | However a byte string is cut into chunks, feeding them until the first definite result gives the result, request and parser of one call on the whole |
| Parser.MessageParsed | HTTP/http_parser.cpp:28-47 | A message with a Host is parsed good, without one bad, into the request it denotes and back to a new parser; the rest of the chunk is lost |
| Parser.RequestSays | HTTP/http_parser.cpp:328-359 | The request of a message with a Host has its verb, version numbers and body, and for its URI "ws", "wss", "http" or "https" by the upgrade asked for and the socket, "://", the first Host and the URI of the request line |
| Parser.HeadersSay | HTTP/http_parser.cpp:330-351 | Looking up any name in the request of a message gives the first header of that name in any case, and `getCookie` a plain cookie with the value of the first such pair in the first Cookie header, or an empty cookie |
| Parser.HandshakeExactly | HTTP/http_request.cpp:22-48 | A message asks for a WebSocket if and only if its first Upgrade is "websocket" and its first Connection "Upgrade" or "keep-alive, Upgrade", in any case, its first key is not empty and its first version converts to at least 13; the question throws if and only if all but the last hold and the version does not convert |
| Parser.UnconvertibleLengthThrows | HTTP/http_parser.cpp:293-301 | An unconvertible Content-Length leaves the call at the last byte of the head, with the request untouched and the parser not reset |
| Parser.GoodIsMessage | HTTP/http_parser.cpp:28-47 | A good result comes from a message with a Host at the front of the input, and the request is the one it denotes |
| Parser.LaterResultsAreFresh | HTTP/http_parser.cpp:41-42 | After a good or bad result, the results of all later reads are those of a new parser |
| Requests.HTTPRequest.constructor | HTTP/http_request.h:26-49 | A default-constructed request |
| Requests.HTTPRequest.InsertAllHeaders | HTTP/http_parser.cpp:332-335 | The loop inserts every header under its lower-cased name, the first staying |
| Requests.HTTPRequest.InsertAllCookies | HTTP/http_parser.cpp:347-348 | The loop inserts every cookie under its name, the first staying |
| Requests.HTTPRequest.MoveCookies | HTTP/http_parser.cpp:341-351 | The Cookie header leaves the header map and its pairs are added to the cookies |
| Requests.HTTPRequest.AssembleUri | HTTP/http_request.cpp:50-62 | The URI is set as specified from scheme, host and path; without a Host nothing is changed and the exception is reported; `Parser.RequestSays` says what the URI is |
| Requests.HTTPRequest.FillFrom | HTTP/http_parser.cpp:328-359 | The whole request is that of the filling function, on what the request held before; `Parser.RequestSays` and `Parser.HeadersSay` say what it is for a message |
| Requests.InsertHeadersKeepsFirst | HTTP/http_parser.cpp:332-335 | Looking up any key gives the first header whose lower-cased name it is |
| Requests.InsertCookiesKeepsFirst | HTTP/http_parser.cpp:345-348 | Looking up any name gives what was there, else a plain cookie with the value of the first pair of that name, else nothing |
| Requests.GoodRunIsFramed | HTTP/http_parser.cpp:293-317 | After a good run the content is as long as the first Content-Length says, and empty without one |
| Requests.BodyAndHeadersAgree | HTTP/http_parser.cpp:353-355 | On every good run the guard never drops a body, and the length in the request's headers is the one that framed it |
| Requests.HeadersAreFirst | HTTP/http_parser.cpp:330-351 | Every header but the cookies is found under its lower-cased name with the first value |
| Requests.CookiesAreFirst | HTTP/http_request.cpp:12-20 | `getCookie` returns a plain cookie with the name and the value of the first pair of that name in the first Cookie header, and an empty cookie if there is none |
| Requests.SchemeTellsUpgrade | HTTP/http_request.cpp:35-62 | The scheme of an assembled URI is a WebSocket one if and only if the headers ask for an upgrade |
| Cookies.SearchIsLeftmostGreedy | HTTP/cookie.cpp:57-60 | The search returns the leftmost match with the longest name and value, and fails if and only if there is no match anywhere |
| Cookies.ScanBySearching | HTTP/cookie.cpp:60-68 | Searching, cutting behind the match and searching again finds the pairs of a left-to-right scan |
| Cookies.FromString | HTTP/cookie.cpp:53-71 | The loop ends on every input and returns, index by index, a cookie with the name and value of each scanned pair, no path, domain or flag and expiry -1; so a list of well-formed pairs comes back as it was |
| Cookies.ScanFindsPairs | HTTP/cookie.cpp:57-68 | Whatever the text, names found are non-empty and of name characters, and no value has a semicolon |
| Cookies.NameChars | HTTP/cookie.cpp:57 | The characters of a name are the digits, the letters and the underscore, by their codes |
| Cookies.ScanOfJoined | HTTP/cookie.cpp:53-71 | Items joined by "; " are scanned back to exactly the pairs among them |
| Cookies.CookieListRoundTrip | HTTP/cookie.cpp:53-71 | A cookie list is scanned back to itself if and only if names are non-empty and of name characters and values have no semicolon |
| Cookies.AppendScope | HTTP/cookie.cpp:35-39 | Path and Domain are appended when present |
| Cookies.AppendFlags | HTTP/cookie.cpp:41-45 | HttpOnly and Secure are appended when set |
| Cookies.ToString | HTTP/cookie.cpp:26-51 | The stream holds the printed cookie, and nothing without a name or a value |
| Cookies.PrintedCookieScan | HTTP/cookie.cpp:26-71 | A printed cookie is scanned back to its pair, then exactly the Path, Domain and Expires present, in that order, if and only if name, value and attributes are of the right form; the flags leave no trace |
| Responses.ToBuffers | HTTP/http_response.cpp:15-32 | For any iteration order the buffers, gathered, are status line, header lines, blank line and content |
| Responses.StatusLineReads | HTTP/http_protocol.h:146-179 | The status line of every code is read back by a reader of version, three digits and reason: the code itself with its phrase and HTTP/1.0 where it is known, 101 with HTTP/1.1, and 500 for every other code |
| Responses.StockReplySays | HTTP/http_response.cpp:79-90 | A stock reply has its status, the two headers with the size of its page and text/html, and a page that is empty exactly for 200 |
| Responses.StockPageSays | HTTP/http_protocol.h:195-272 | The page of a known code has the phrase as its title and the code with the phrase as its heading, but for "204 Content"; every other code has the page of 500 |
| Responses.PrintedReadsBack | HTTP/http_response.cpp:20-29 | Headers and body printed behind any request line are parsed good at the last byte as themselves if and only if names are tokens, values have no control characters and the first Content-Length is the size of the body |
| Responses.ResponseReadsBack | HTTP/http_response.cpp:15-32 | The same for a response and any iteration order of its header map |
| Responses.StockReplyReadsBack | HTTP/http_response.cpp:79-132 | Every stock reply, in either header order, reads back as itself |
| Connection.HTTPConnection.constructor | HTTP/http_connection.cpp:20-25 | A new connection with nothing pending |
| Connection.HTTPConnection.Start | HTTP/http_connection.cpp:27-31 | A started plain connection waits for bytes, into its buffer as it is |
| Connection.HTTPConnection.DoRead | HTTP/http_connection.cpp:56-62 | One more read is pending, into the buffer as it is, and nothing else changes |
| Connection.HTTPConnection.DoWrite | HTTP/http_connection.cpp:112-118 | One more write is pending, of the response as it is |
| Connection.HTTPConnection.HandleRead | HTTP/http_connection.cpp:61-103 | Bytes that arrived at the front of the buffer are parsed into a fresh request and the handler continues as specified for every result |
| Connection.HTTPConnection.ParseChunk | HTTP/http_connection.cpp:71 | The call of the parser, and the wiped chunk it leaves in the buffer |
| Connection.HTTPConnection.Respond | HTTP/http_connection.cpp:73-102 | The branches on the result: hand over and write, answer a handshake, refuse, or read on |
| Connection.HTTPConnection.HandleReadError | HTTP/http_connection.cpp:104-107 | A failed read stops the connection unless it was aborted |
| Connection.HTTPConnection.HandleWrite | HTTP/http_connection.cpp:117-127 | A written response is followed by a read, a failed one stops the connection unless it was aborted |
| Connection.HTTPConnection.ProcessWSHandshake | HTTP/http_connection.cpp:133-164 | After `_cancel`, the handshake response is written with the accept key and, if asked for exactly, the protocol; the looked-up header comes into being |
| Connection.HTTPConnection.CreateWSConnection | HTTP/http_connection.cpp:166-181 | One session with the generated id, the SID cookie and the URI; a new WebSocket connection is entered under the id in the map of its kind and started |
| Connection.HandleKeepsHalfDuplex | HTTP/http_connection.cpp:56-181 | No completion leads to a second pending operation, to a change of the buffer or the response an operation refers to, or to an unanswered request |
| Connection.EveryRunIsHalfDuplex | HTTP/http_connection.cpp:56-181 | In every run at most one operation is pending and refers to the untouched buffer or response; behind a failed write there is none |
| Connection.EveryRunServes | HTTP/http_connection.cpp:56-129 | In every run, however requests are cut or lost in chunks, the handler gets exactly the good results of the parser that are no handshake, in order, and exactly the answers to these and to the bad ones are written, in order, each once, but for the last, which may be pending or have failed |
| Connection.StoppedExactly | HTTP/http_connection.cpp:104-127 | A run stops the connection if and only if a read or a write in it failed without being aborted; whatever fails, aborted or not, is the last that happens |
| Connection.ThrownReadEnds | HTTP/http_connection.cpp:71-77 | A read whose handler is left by an exception starts, hands over, refuses and answers nothing and is the last of the run |
| Connection.StartedServes | HTTP/http_connection.cpp:27-129 | So from the start of a connection, with a new parser |
| Connection.HandshakeEndsHttp | HTTP/http_connection.cpp:133-181 | Once a handshake is answered no HTTP read or write follows, and its completion creates exactly one session |
| Connection.ReadsLead | HTTP/http_connection.cpp:57-103 | The reads of a text that is decided at its end, cut anywhere, do nothing before the last, which acts on the result for the whole |
| Connection.OneExchange | HTTP/http_connection.cpp:57-129 | One such text and its answer lead from a waiting connection to a waiting connection with a new parser |
| Connection.KeepAlive | HTTP/http_connection.cpp:57-129 | For any list of requests, good or bad, whose ends fall on read boundaries and which ask for no WebSocket, the handler gets exactly the good ones, in order, and each is answered exactly once, in order, the bad ones with the stock reply |
| Connection.MessageIsExchange | HTTP/http_connection.cpp:71-98 | Every well-formed message cut anywhere is such a request: with a Host the handler gets what it denotes, without one it is refused; it asks for no WebSocket, or for one, if and only if its headers say so |
| Connection.UpgradeAfterKeepAlive | HTTP/http_connection.cpp:57-181 | Such a list followed by any message with a Host whose headers ask for a WebSocket is answered with 101, the three headers with the hash of the message's own key and the GUID, and "chat" exactly if "chat, superchat" is offered, and ends in one session with the id, the first SID cookie and the "ws" or "wss" URI of that message, nothing pending |
| Frames.AppendLength | ws/ws_proto_impl.cpp:58-62 | The counting-down loop appends the length in big-endian bytes |
| Frames.FillTextFrame | ws/ws_proto_impl.cpp:38-68 | One unmasked frame with the length form for its size is appended to the buffer |
| Frames.BigEndianByWeight | ws/ws_proto_impl.cpp:59-62 | Each length byte is the one of its weight, the most significant first |
| Frames.ReceiveEncoded | ws/ws_proto_impl.cpp:38-68 | A receiver by section 5.2 of RFC 6455 gets opcode and message back and leaves what follows |
| Frames.ReceivedIsEncoded | ws/ws_proto_impl.cpp:38-68 | Whatever the receiver accepts is what the server would write for it: unmasked, minimal length form, one encoding only |
| Frames.BeginningIsIncomplete | ws/ws_proto_impl.cpp:38-68 | A proper beginning of a frame is neither refused nor taken for a frame |
| Frames.UnderstandBeginning | ws/ws_proto_impl.cpp:38-68 | A client written from sections 5.2 and 5.6 of RFC 6455, which takes only frames with FIN, no RSV bit and opcode 1 for messages, understands from any beginning of a stream of frames exactly the messages whose frames are whole, in order |
| Frames.StreamRoundTrip | ws/ws_proto_impl.cpp:38-68 | The same client understands a stream of frames as its messages, and two lists with one stream are one list |
| Frames.UnderstoodIsEncoded | ws/ws_protocol.h:25 | Whatever that client accepts to the end is the stream the server writes for the messages it understood |
| WsLocks.LocksKept | ws/ws_connection.cpp:85-136 | No step of any thread lets two threads hold one lock |
| WsLocks.OwnersKept | ws/ws_connection.cpp:30-40 | References are exactly those of pending operations and of threads in the connection's code |
| WsQueue.QueueKept | ws/ws_connection.cpp:85-136 | Every step keeps the relation of queue and write operation for where the holder of the lock stands |
| WsQueue.CapKept | ws/ws_connection.cpp:88-96 | Every step keeps an unclosed queue at 100 frames, but for the thread about to close it |
| WsHistory.ConservedKept | ws/ws_connection.cpp:85-136 | Every step keeps each push in exactly one of queue, written and dropped |
| WsHistory.OrderKept | ws/ws_connection.cpp:85-136 | Every step keeps the wire at the frames of a beginning of the pushes and the begun part of the next, until a write fails |
| WsHistory.CallOrderKept | webserver.cpp:44-50 | Every step keeps the pushes in the order in which their threads got the registry lock |
| WsWire.WireFollowsKept | ws/ws_connection.cpp:85-136 | Every step keeps the tagged wire at the beginning of all frames, or stopped short at a cut frame, or different from them for good |
| WsWire.WireShowsKept | ws/ws_connection.cpp:98-134 | Every step keeps each byte on the wire the one its tag names, of the unmodified frame |
| WsWire.TagsDecide | ws/ws_connection.cpp:98-134 | What is tagged as the beginning of all frames is, byte for byte, the beginning of their stream |
| WsClosing.ClosesOnceKept | ws/ws_connection.cpp:141-153 | Only the thread that set the flag calls back and closes the socket |
| WsClosing.DestroyedOnceKept | ws/ws_connection.cpp:20-28 | Only the thread that let the last reference go runs the destructor, and no unclosed connection is missed |
| WsTheorems.ReachableInv | ws/ws_connection.cpp:20-153 | All these invariants hold in every reachable state, for any number of threads |
| WsTheorems.SingleWrite | ws/ws_connection.cpp:85-136 | Whenever the queue lock is free there is one write if the queue is not empty and none otherwise, and it is of the unmodified front |
| WsTheorems.Conservation | ws/ws_connection.cpp:77-153 | Every push is queued, written or dropped and only one of these; written frames are in order and never twice |
| WsTheorems.Delivery | ws/ws_connection.cpp:77-136 | Until a write fails, written frames and queue are all pushes in order, and the client of `Frames.UnderstandBeginning` understands from the bytes on the wire exactly the first messages, as many as are out whole |
| WsTheorems.AliveWhilePending | ws/ws_connection.cpp:30-40 | The connection is alive while a read or write is pending or being handled, and while any thread is in its code outside the destructor |
| WsTheorems.NothingLeftAtDestruction | ws/ws_connection.cpp:20-28 | The destructor meets an empty queue and no operation; if no write failed the client has every accepted message |
| WsTheorems.ClosedOnce | ws/ws_connection.cpp:20-28 | `ws_onclose` runs at most once, and exactly once with the socket closed by the end of destruction |
| WsTheorems.Overflow | ws/ws_connection.cpp:88-96 | With the queue lock free an unclosed connection has at most 100 queued frames |
| WsTheorems.OverflowExactly | ws/ws_connection.cpp:88-96 | A push goes on to close the connection exactly when its frame makes more than 100, and a queue that long is closed before the push unlocks it |
| WsTheorems.ClosingTakesEffect | ws/ws_connection.cpp:42-72 | However the others run in between, a close order that found the connection, a handled read and a failed write do not end before the connection is closed |
| WsTheorems.StaysRegistered | webserver.cpp:106-128 | A connection once entered in the registry stays there in every run as long as it lives |
| WsTheorems.NothingGoesBack | ws/ws_connection.cpp:141-153 | Flag, callback count and destruction never go back; nothing goes out on a closed socket |
| WsTheorems.AlwaysDefined | ws/ws_connection.cpp:98-131 | No thread ever takes the front of an empty queue or handles an operation that is gone |
| WsServer.ConnectionsAreReachable | webserver.cpp:44-128 | Every connection of a server with any number of them, seen by itself, is in a reachable state of the transition system of one connection |
| WsServer.EveryConnectionDelivers | webserver.cpp:44-50 | Of every connection of the server the wire is the beginning of the frames pushed to it in registry lock order, if and only if no late bytes went out, and its client understands exactly the first messages |
| WsServer.OpenedFirst | ws/ws_connection.cpp:30-35 | In every run in which calls name a connection only after `ws_onopen` was called with its id, a connection closed or pushed to has had it called exactly once |
| WsServer.LockOrder | webserver.cpp:44-58 | Who waits for a lock holds no queue lock of any connection, and only a push waits with the registry lock |
| WsServer.DeadlockFree | webserver.cpp:44-58 | While a thread is inside the server, at whatever connection, some thread can step |
| WsServer.StepsAreBounded | ws/ws_connection.cpp:77-153 | Threads left to themselves take no more steps than a number known beforehand, whatever their order |
| WsServer.ComeToRest | ws/ws_connection.cpp:77-153 | Threads left to themselves can always go on until all are at rest |
| WsConnection.WSConnection.constructor | ws/ws_connection.cpp:14-17 | A new connection: open, nothing queued, nothing called |
| WsConnection.WSConnection.Start | ws/ws_connection.cpp:30-40 | `ws_onopen`, then a read of two bytes |
| WsConnection.WSConnection.Stop | ws/ws_connection.cpp:140-153 | The first call sets the flag, calls back, cancels, shuts down and closes; later calls do nothing; the queue stays |
| WsConnection.WSConnection.Write | ws/ws_connection.cpp:76-104 | One frame that says the message is queued behind the others and given to `ws_onmessageout` if that is set; more than 100 frames close an open connection; a lone frame is written |
| WsConnection.WSConnection.HandleWrite | ws/ws_connection.cpp:106-136 | The front leaves and the next is written, or an error clears the queue and stops, calling `ws_onerror` unless it was an abort |
| WsConnection.WSConnection.HandleRead | ws/ws_connection.cpp:42-72 | Whatever arrived, the connection is stopped and the queue stays; `ws_onerror` is called for an error that is no abort |
| WsConnection.WSConnection.Destroy | ws/ws_connection.cpp:19-28 | An unclosed connection is stopped, a closed one left alone |
| WsConnection.NewMatches | ws/ws_connection.cpp:14-17 | A new object is the transition system's new connection |
| WsConnection.WriteIsThread | ws/ws_connection.cpp:76-104 | A thread of the transition system that pushes without interruption has the effect of the method |
| WsConnection.HandleWriteIsThread | ws/ws_connection.cpp:106-136 | The same for the handler of a write, with and without error |
| WsConnection.HandleReadIsThread | ws/ws_connection.cpp:42-72 | The same for the handler of a read |
| WsConnection.StartIsThread | ws/ws_connection.cpp:30-40 | The same for the start |
| WsConnection.DestroyIsThread | ws/ws_connection.cpp:19-28 | The same for the destructor |
| WsFailure.PushReachable | webserver.cpp:44-50 | A push by one thread with no other in between is a run of the transition system |
| WsFailure.BacklogReachable | ws/ws_connection.cpp:88-96 | Any number of pushes with no write completed is a run: the connection stays open up to the hundredth and is closed, once, from the next on |
| WsFailure.BytesAfterFailure | ws/ws_connection.cpp:106-153 | Behind a failed write bytes go out only while the closing thread stands between setting the flag and the end of the shutdown |
| WsFailure.StreamWholeExactly | ws/ws_connection.cpp:76-153 | The tagged wire is the beginning of all pushed frames if and only if no bytes went out behind a frame that a failed write had cut short |
| WsCut.CutExactly | ws/ws_connection.cpp:109-120 | A frame counts as cut short if and only if some byte of a dropped frame is not on the wire |
| WsFailure.StreamWhole | ws/ws_connection.cpp:76-153 | Then, failures included, the client understands exactly the first of the pushed messages, as many as are out whole |
| WsFailure.BrokenByLateBytes | ws/ws_connection.cpp:106-153 | A whole stream stays whole by every step but bytes behind a cut frame, which break it for good and go out only behind a failed write while a thread closes halfway |
| WsFailure.QuietRunStaysWhole | ws/ws_connection.cpp:106-153 | A run in which no bytes go out behind a failed write while a thread closes halfway keeps the stream whole to the end |
| WsFailure.StreamBrokenAfterFailure | ws/ws_connection.cpp:141-153 | A reachable state in which the client has got the beginning of a cancelled frame and a whole later one, which is no stream of frames |
| WsOpening.OpenedBeforeUse | ws/ws_connection.cpp:30-35 | `ws_onopen` is called at most once, and before anything is accepted or closed unless a call named the connection before its id was told |
| WsOpening.OpenedUnlessGuessed | HTTP/http_connection.cpp:175-180 | A closed connection has not been opened exactly while its creator stands between registry and callback, and then its id was guessed |
| WsOpening.ClosedInsideOnOpen | ws/ws_connection.cpp:33 | A reachable state, nothing guessed, in which `ws_onclose` has run and `ws_onopen` has not returned |
| Registry.WebServer.WSAddSession | webserver.cpp:183-197 | An id is entered in the plain or the secure map unless it is there already |
| Registry.WebServer.Forward | webserver.cpp:106-128 | Exactly the live connection of the id obeys, every other is unchanged, and a dead entry is erased; a text is queued as the last frame as `Write` says, a close leaves the connection closed, the queue as it was, and if it was open exactly the callback and the three socket calls behind the earlier calls |
| Registry.WebServer.Send | webserver.cpp:44-58 | At most one connection obeys in this sense, a plain one before a secure one; on failure the id is in neither map |
| Registry.ForwardIsThread | webserver.cpp:106-128 | A thread of the transition system that finds the connection and carries out a push or a close without interruption has the effect of the method; a dead entry goes |

## Left out

- Sockets, TLS, acceptors and `connection.cpp`: operations are pending, transfer bytes and complete with success or error as the environment chooses.
- The TLS handshake before the first read of a secure connection: such a connection starts where its first read is pending.
- Handlers and callbacks: `HandleRequest` is the response it leaves, returning or throwing; WebSocket hooks are steps that take neither lock, call nothing of the connection and only count.
- `Uri`, `base64SHA1`, `uuid_generate`, `pauuid` and `PADateTime`: not part of this model; the URI stays text, the hash and the date are function parameters, the id is part of an event.
- The origin address of a request, logging (with the opcode tests that only choose a message), the zeroing allocator, the MIME table, `setCookie`, `getInvalidationCookie` and `fill_closing_frame`.
- Locales: `\w` is that of the "C" locale, `utflower` and `lexcmpi` are those of ASCII text.
- WsConnection.WSConnection.Write: in the object the locks are not modelled, they are in the transition system; that a thread runs without interruption is what the object's methods assume.
- Registry.WebServer.Forward: a weak reference is a reference with a count of owners; the count does not change during the call.
- Connection.KeepAlive: each request ends on the boundary of a read, since the code drops the bytes behind it in the same chunk, and reads bring at least one byte and no more than the buffer holds, as reads without an error do; what happens to requests that end inside a chunk is in `EveryRunServes`.
- Soundness.PiecesOf: the `default` branch of the automaton has no counterpart, because the states of the model are the 21 there are.
