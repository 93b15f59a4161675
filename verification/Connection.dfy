/** `HTTPConnection`: the half-duplex loop of reads, handlers and writes. */
module Connection {
  import opened Text
  import opened ParserSpec
  import opened Grammar
  import opened Requests
  import opened Parser
  import opened Responses
  import Completeness
  import Registry
  import WsConnection

  /** An asynchronous operation that was started and has not been handled.  A read refers to the buffer, a
      write to the response, as they were when the operation was started. */
  datatype Op = Reading(into: string) | Writing(sent: Response) | Handshaking(sent: Response)

  /** What `_create_ws_connection` hands to the new WebSocket connection. */
  datatype WsSession = WsSession(id: string, sid: string, uri: string)

  datatype Conn = Conn(
    isHttp: bool, parser: Config, request: Request, response: Response, buffer: string, pending: seq<Op>,
    handed: seq<Request>,      // what `HandleRequest` was called with
    answered: seq<Response>,   // what was written to the end
    refused: nat,              // bad requests, answered with the stock reply
    unsent: nat,               // writes that failed
    cancels: nat,              // calls of `_cancel` before a handshake is answered
    sessions: seq<WsSession>, stopped: bool)

  /** A completion: `reply` is what the application's handler left in the response, whether it
      returned or threw; `id` is the generated connection id. */
  datatype Event =
    | ReadDone(bytes: string, reply: Response)
    | ReadFailed(aborted: bool)
    | WriteDone
    | WriteFailed(aborted: bool)
    | HandshakeDone(id: string)

  /** A connection with this, not initialized, buffer. */
  function Constructed(isHttp: bool, buffer: string): Conn {
    Conn(isHttp, INITIAL, FreshRequest(isHttp), NO_RESPONSE, buffer, [], [], [], 0, 0, 0, [], false)
  }

  function Started(isHttp: bool, buffer: string): Conn {
    Constructed(isHttp, buffer).(pending := [Reading(buffer)])
  }

  function Begin(c: Conn, op: Op): (c': Conn)
    ensures c.pending == [] ==> c'.pending == [op]
  {
    c.(pending := c.pending + [op])
  }

  function Without(c: Conn, i: nat): Conn
    requires i < |c.pending|
  {
    c.(pending := c.pending[..i] + c.pending[i + 1..])
  }

  /** Whether pending operation `i` can complete this way; a read brings no more than the buffer holds. */
  predicate Enabled(c: Conn, i: nat, e: Event) {
    && Sound(c.parser) && i < |c.pending|
    && match e
       case ReadDone(bytes, _) => c.pending[i].Reading? && |bytes| <= |c.buffer|
       case ReadFailed(_) => c.pending[i].Reading?
       case WriteDone => c.pending[i].Writing?
       case WriteFailed(_) => c.pending[i].Writing?
       case HandshakeDone(_) => c.pending[i].Handshaking?
  }

  // ----- the buffer -----

  /** Bytes have arrived at its front. */
  function Received(buffer: string, bytes: string): (r: string)
    requires |bytes| <= |buffer|
    ensures |r| == |buffer| && r[..|bytes|] == bytes
  {
    bytes + buffer[|bytes|..]
  }

  function Zeros(n: nat): (r: string)
    ensures |r| == n && forall i :: 0 <= i < n ==> r[i] == '\0'
  {
    seq(n, i => '\0')
  }

  /** The first `n` bytes wiped. */
  function Wiped(buffer: string, n: nat): (r: string)
    requires n <= |buffer|
    ensures |r| == |buffer|
  {
    Zeros(n) + buffer[n..]
  }

  /** What `Parse` leaves in it: the chunk is wiped unless something is thrown. */
  function AfterParse(buffer: string, n: nat, result: Outcome): (r: string)
    requires n <= |buffer|
    ensures |r| == |buffer|
  {
    if result in {Throws, Undefined} then buffer else Wiped(buffer, n)
  }

  // ----- the handlers -----

  /** `headers["sec-websocket-protocol"]` creates the entry when it is not there. */
  function WithProtocolEntry(r: Request): Request {
    if "sec-websocket-protocol" in r.headers then r
    else r.(headers := r.headers["sec-websocket-protocol" := ""])
  }

  function HandshakeResponse(r: Request, base64Sha1: string -> string): Response {
    var key := if "sec-websocket-key" in r.headers then r.headers["sec-websocket-key"] else "";
    var headers := map["Upgrade" := "websocket", "Connection" := "Upgrade",
                       "Sec-WebSocket-Accept" := base64Sha1(key + "258EAFA5-E914-47DA-95CA-C5AB0DC85B11")];
    Response(101,
             if WithProtocolEntry(r).headers["sec-websocket-protocol"] == "chat, superchat"
               then headers["Sec-WebSocket-Protocol" := "chat"] else headers,
             "")
  }

  /** The answer to a handshake with this key (section 4.2.2 of RFC 6455); "chat" is chosen if it is offered in the one
      way the server knows. */
  ghost predicate IsHandshakeAnswer(r: Response, key: string, chat: bool, base64Sha1: string -> string) {
    && r.status == 101 && r.content == ""
    && r.headers.Keys == {"Upgrade", "Connection", "Sec-WebSocket-Accept"} +
                         (if chat then {"Sec-WebSocket-Protocol"} else {})
    && r.headers["Upgrade"] == "websocket" && r.headers["Connection"] == "Upgrade"
    && r.headers["Sec-WebSocket-Accept"] == base64Sha1(key + "258EAFA5-E914-47DA-95CA-C5AB0DC85B11")
    && (chat ==> r.headers["Sec-WebSocket-Protocol"] == "chat")
  }

  lemma HandshakeIsAnswered(r: Request, base64Sha1: string -> string)
    requires "sec-websocket-key" in r.headers
    ensures IsHandshakeAnswer(HandshakeResponse(r, base64Sha1), r.headers["sec-websocket-key"],
                              Lookup(r.headers, "sec-websocket-protocol") == Some("chat, superchat"), base64Sha1)
  {
    var headers := HandshakeResponse(r, base64Sha1).headers;
    NamesDiffer();
    assert "" != "chat, superchat";
  }

  lemma NamesDiffer()
    ensures "Upgrade" != "Connection" && "Upgrade" != "Sec-WebSocket-Accept" && "Upgrade" != "Sec-WebSocket-Protocol"
    ensures "Connection" != "Sec-WebSocket-Accept" && "Connection" != "Sec-WebSocket-Protocol"
    ensures "Sec-WebSocket-Accept" != "Sec-WebSocket-Protocol"
  {
    assert |"Upgrade"| == 7 && |"Connection"| == 10 && |"Sec-WebSocket-Accept"| == 20;
    assert |"Sec-WebSocket-Protocol"| == 22;
  }

  /** The read handler without error; the operation itself is already taken off. */
  function OnRead(c: Conn, bytes: string, reply: Response, base64Sha1: string -> string): (c': Conn)
    requires Sound(c.parser) && |bytes| <= |c.buffer|
    ensures Sound(c'.parser)
  {
    var p := ParseResult(c.parser, FreshRequest(c.isHttp), bytes);
    OnResult(c.(parser := p.cfg, request := p.request, response := NO_RESPONSE,
                buffer := AfterParse(Received(c.buffer, bytes), |bytes|, p.outcome)), p.outcome, reply, base64Sha1)
  }

  /** The branches on what the parser said; an exception leaves the handler, and so does, here, what C++
      leaves undefined. */
  function OnResult(c: Conn, result: Outcome, reply: Response, base64Sha1: string -> string): (c': Conn)
    ensures c'.parser == c.parser
  {
    match result
    case Good =>
      (match IsWSHandshake(c.request)
       case None => c
       case Some(true) =>
         var response := HandshakeResponse(c.request, base64Sha1);
         Begin(c.(cancels := c.cancels + 1, request := WithProtocolEntry(c.request), response := response),
               Handshaking(response))
       case Some(false) => Begin(c.(handed := c.handed + [c.request], response := reply), Writing(reply)))
    case Bad => Begin(c.(refused := c.refused + 1, response := StockReply(400)), Writing(StockReply(400)))
    case Indeterminate => Begin(c, Reading(c.buffer))
    case _ => c
  }

  /** Operation `i` completes and its handler runs. */
  function Handle(c: Conn, i: nat, e: Event, base64Sha1: string -> string): (c': Conn)
    requires Enabled(c, i, e)
    ensures Sound(c'.parser)
  {
    var d := Without(c, i);
    match e
    case ReadDone(bytes, reply) => OnRead(d, bytes, reply, base64Sha1)
    case ReadFailed(aborted) => if aborted then d else d.(stopped := true)
    case WriteDone => Begin(d.(answered := d.answered + [c.pending[i].sent]), Reading(d.buffer))
    case WriteFailed(aborted) => d.(unsent := d.unsent + 1, stopped := d.stopped || !aborted)
    case HandshakeDone(id) =>
      d.(sessions := d.sessions + [WsSession(id, GetCookie(d.request, "SID").value, d.request.uri)])
  }

  // ----- the object -----

  const BUFFER_SIZE: nat := 8192

  class HTTPConnection {
    const server: Registry.WebServer
    const isHttp: bool
    const base64Sha1: string -> string
    const parser: HTTPParser
    const buffer: array<char>
    var request: HTTPRequest
    var response: Response
    var pending: seq<Op>
    var cancels: nat
    var sessions: seq<WsSession>
    var stopped: bool
    ghost var handed: seq<Request>
    ghost var answered: seq<Response>
    ghost var refused: nat
    ghost var unsent: nat

    constructor (server: Registry.WebServer, isHttp: bool, base64Sha1: string -> string)
      ensures View() == Constructed(isHttp, buffer[..]) && buffer.Length == 8192
      ensures fresh(parser) && fresh(buffer) && fresh(request)
      ensures this.base64Sha1 == base64Sha1 && this.server == server
    {
      this.server, this.isHttp, this.base64Sha1 := server, isHttp, base64Sha1;
      parser := new HTTPParser();
      buffer := new char[BUFFER_SIZE];
      request := new HTTPRequest(isHttp);
      response, pending, cancels, sessions, stopped := NO_RESPONSE, [], 0, [], false;
      handed, answered, refused, unsent := [], [], 0, 0;
    }

    ghost function View(): Conn
      reads this, parser, request, buffer
    {
      Conn(isHttp, parser.View(), request.View(), response, buffer[..], pending, handed, answered, refused, unsent,
           cancels, sessions, stopped)
    }

    method Start()
      requires View() == Constructed(isHttp, buffer[..])
      modifies this`pending
      ensures View() == Started(isHttp, buffer[..])
    {
      DoRead();
    }

    method DoRead()
      modifies this`pending
      ensures View() == Begin(old(View()), Reading(buffer[..]))
    {
      pending := pending + [Reading(buffer[..])];
    }

    method DoWrite()
      modifies this`pending
      ensures View() == Begin(old(View()), Writing(response))
    {
      pending := pending + [Writing(response)];
    }

    /** The handler of `do_read` without an error: `size` bytes have arrived in the buffer the operation was
        given, and nothing else has changed in it. */
    method HandleRead(i: nat, size: nat, reply: Response)
      requires Sound(parser.View()) && i < |pending| && pending[i].Reading? && size <= buffer.Length
      requires |pending[i].into| == buffer.Length && buffer[..] == Received(pending[i].into, buffer[..size])
      modifies this, parser, buffer
      ensures View() == Handle(old(View()).(buffer := old(pending[i].into)), i, ReadDone(old(buffer[..size]), reply),
                               base64Sha1)
    {
      pending := pending[..i] + pending[i + 1..];
      request := new HTTPRequest(isHttp);
      response := NO_RESPONSE;
      var result := ParseChunk(size);
      Respond(result, reply);
    }

    /** `Parse` on the fresh request and the front of the buffer. */
    method ParseChunk(size: nat) returns (result: Outcome)
      requires Sound(parser.View()) && size <= buffer.Length
      modifies parser, request, buffer
      ensures ParseResult(old(parser.View()), old(request.View()), old(buffer[..size]))
           == Parsed(result, request.View(), parser.View())
      ensures buffer[..] == AfterParse(old(buffer[..]), size, result)
    {
      result := parser.Parse(request, buffer, size);
    }

    method Respond(result: Outcome, reply: Response)
      modifies this, request
      ensures View() == OnResult(old(View()), result, reply, base64Sha1)
    {
      if result == Good {
        var handshake := IsWSHandshake(request.View());
        if handshake.None? {
          return;
        }
        if handshake.value {
          ProcessWSHandshake();
        } else {
          handed := handed + [request.View()];
          response := reply;
          DoWrite();
        }
      } else if result == Bad {
        refused := refused + 1;
        response := StockReply(400);
        DoWrite();
      } else if result == Indeterminate {
        DoRead();
      }
    }

    method HandleReadError(i: nat, aborted: bool)
      requires Enabled(View(), i, ReadFailed(aborted))
      modifies this
      ensures View() == Handle(old(View()), i, ReadFailed(aborted), base64Sha1)
    {
      pending := pending[..i] + pending[i + 1..];
      if !aborted {
        stopped := true;
      }
    }

    /** The handler of `do_write`. */
    method HandleWrite(i: nat, failed: bool, aborted: bool)
      requires Enabled(View(), i, WriteDone)
      modifies this
      ensures View() == Handle(old(View()), i, if failed then WriteFailed(aborted) else WriteDone, base64Sha1)
    {
      var sent := pending[i].sent;
      pending := pending[..i] + pending[i + 1..];
      if !failed {
        answered := answered + [sent];
        DoRead();
      } else {
        unsent := unsent + 1;
        if !aborted {
          stopped := true;
        }
      }
    }

    method ProcessWSHandshake()
      modifies this, request
      ensures old(request) == request
      ensures var r := old(request.View());
              View() == Begin(old(View()).(cancels := old(cancels) + 1, request := WithProtocolEntry(r),
                                           response := HandshakeResponse(r, base64Sha1)),
                              Handshaking(HandshakeResponse(r, base64Sha1)))
    {
      cancels := cancels + 1;
      var r := request.View();
      response := HandshakeResponse(r, base64Sha1);
      if "sec-websocket-protocol" !in request.headers {
        request.headers := request.headers["sec-websocket-protocol" := ""];
      }
      pending := pending + [Handshaking(response)];
    }

    /** The handler of the handshake's write; it runs whether the write succeeded or not.  A new WebSocket
        connection is entered in the registry and started, and lives on by its pending read. */
    method CreateWSConnection(i: nat, id: string) returns (conn: WsConnection.WSConnection)
      requires Enabled(View(), i, HandshakeDone(id))
      modifies this, server
      ensures View() == Handle(old(View()), i, HandshakeDone(id), base64Sha1)
      ensures fresh(conn) && conn.owners == 1
      ensures conn.Now() == WsConnection.View(false, [], [WsConnection.OnOpen, WsConnection.AsyncRead(2)])
      ensures server.wsConns == if !isHttp || id in old(server.wsConns) then old(server.wsConns)
                                else old(server.wsConns)[id := conn]
      ensures server.wsSecureConns == if isHttp || id in old(server.wsSecureConns) then old(server.wsSecureConns)
                                      else old(server.wsSecureConns)[id := conn]
    {
      pending := pending[..i] + pending[i + 1..];
      sessions := sessions + [WsSession(id, GetCookie(request.View(), "SID").value, request.uri)];
      conn := new WsConnection.WSConnection();
      server.WSAddSession(id, !isHttp, conn);
      conn.Start();
    }
  }

  // ----- half-duplex -----

  /** At most one operation is pending; a pending write refers to the response and a pending read to the
      buffer as they still are; while or after a handshake is answered there is no other operation and at
      most one session; behind a failed write there is none. */
  predicate HalfDuplex(c: Conn) {
    && Sound(c.parser)
    && |c.pending| <= 1
    && (forall i :: 0 <= i < |c.pending| ==> Untouched(c, c.pending[i]))
    && |c.sessions| <= 1
    && (c.sessions != [] ==> c.pending == [])
    && c.unsent <= 1 && (c.unsent > 0 ==> c.pending == [])
    && |c.handed| + c.refused == |c.answered| + c.unsent + (if c.pending != [] && c.pending[0].Writing? then 1 else 0)
  }

  /** What the operation refers to has not changed since it was started. */
  predicate Untouched(c: Conn, op: Op) {
    if op.Reading? then op.into == c.buffer else op.sent == c.response
  }

  lemma HandleKeepsHalfDuplex(c: Conn, i: nat, e: Event, base64Sha1: string -> string)
    requires HalfDuplex(c) && Enabled(c, i, e)
    ensures HalfDuplex(Handle(c, i, e, base64Sha1))
    ensures c.pending[i].Handshaking? ==>
              var c' := Handle(c, i, e, base64Sha1); c'.pending == [] && |c'.sessions| == |c.sessions| + 1
  {
    var d := Without(c, i);
    assert d.pending == [];
    if e.ReadDone? {
      ReadKeepsHalfDuplex(d, e.bytes, e.reply, base64Sha1);
    }
  }

  /** What a read handler may do: start one operation or none; a write is of the current response. */
  predicate ReadEffect(d: Conn, d': Conn) {
    && d'.parser == d.parser && d'.buffer == d.buffer
    && d'.sessions == d.sessions && d'.answered == d.answered && d'.unsent == d.unsent
    && (|| (d'.pending == [] && d'.handed == d.handed && d'.refused == d.refused)
        || (d'.pending == [Reading(d'.buffer)] && d'.handed == d.handed && d'.refused == d.refused)
        || (d'.pending == [Handshaking(d'.response)] && d'.handed == d.handed && d'.refused == d.refused)
        || (d'.pending == [Writing(d'.response)] && |d'.handed| + d'.refused == |d.handed| + d.refused + 1))
  }

  lemma ResultHasEffect(d: Conn, result: Outcome, reply: Response, base64Sha1: string -> string)
    requires d.pending == []
    ensures ReadEffect(d, OnResult(d, result, reply, base64Sha1))
  {
  }

  lemma ReadKeepsHalfDuplex(d: Conn, bytes: string, reply: Response, base64Sha1: string -> string)
    requires HalfDuplex(d) && d.pending == [] && d.sessions == [] && d.unsent == 0 && |bytes| <= |d.buffer|
    ensures HalfDuplex(OnRead(d, bytes, reply, base64Sha1))
  {
    var p := ParseResult(d.parser, FreshRequest(d.isHttp), bytes);
    var e := d.(parser := p.cfg, request := p.request, response := NO_RESPONSE,
                buffer := AfterParse(Received(d.buffer, bytes), |bytes|, p.outcome));
    ResultHasEffect(e, p.outcome, reply, base64Sha1);
  }

  /** A completion of some pending operation. */
  datatype Happening = Happening(op: nat, event: Event)

  /** A run of the connection: each happening is possible when it occurs. */
  function Play(c: Conn, hs: seq<Happening>, base64Sha1: string -> string): Option<Conn>
    decreases |hs|
  {
    if hs == [] then Some(c)
    else if !Enabled(c, hs[0].op, hs[0].event) then None
    else Play(Handle(c, hs[0].op, hs[0].event, base64Sha1), hs[1..], base64Sha1)
  }

  /** In every run the connection stays half-duplex and every request handed on or refused is
      answered once, is being answered, or met a failed write. */
  lemma {:induction false} EveryRunIsHalfDuplex(c: Conn, hs: seq<Happening>, base64Sha1: string -> string)
    requires HalfDuplex(c)
    ensures Play(c, hs, base64Sha1).Some? ==> HalfDuplex(Play(c, hs, base64Sha1).value)
    decreases |hs|
  {
    if hs == [] {
    } else if Enabled(c, hs[0].op, hs[0].event) {
      HandleKeepsHalfDuplex(c, hs[0].op, hs[0].event, base64Sha1);
      EveryRunIsHalfDuplex(Handle(c, hs[0].op, hs[0].event, base64Sha1), hs[1..], base64Sha1);
    }
  }

  predicate Fails(e: Event) { e.ReadFailed? || e.WriteFailed? }

  /** A run stops the connection exactly by a read or a write that failed without being aborted; and whatever fails,
      aborted or not, is the last that happens. */
  lemma {:induction false} StoppedExactly(c: Conn, hs: seq<Happening>, base64Sha1: string -> string)
    requires HalfDuplex(c) && Play(c, hs, base64Sha1).Some?
    ensures Play(c, hs, base64Sha1).value.stopped <==>
            c.stopped || exists h :: h in hs && h.event in {ReadFailed(false), WriteFailed(false)}
    ensures forall i :: 0 <= i < |hs| && Fails(hs[i].event) ==> i == |hs| - 1
    decreases |hs|
  {
    if hs == [] {
    } else {
      var d := Handle(c, hs[0].op, hs[0].event, base64Sha1);
      HandleKeepsHalfDuplex(c, hs[0].op, hs[0].event, base64Sha1);
      StoppedExactly(d, hs[1..], base64Sha1);
      OneStops(c, hs[0].op, hs[0].event, base64Sha1);
      assert forall h :: h in hs <==> h == hs[0] || h in hs[1..];
      assert forall i :: 1 <= i < |hs| ==> hs[i] == hs[1..][i - 1];
    }
  }

  lemma OneStops(c: Conn, i: nat, e: Event, base64Sha1: string -> string)
    requires HalfDuplex(c) && Enabled(c, i, e)
    ensures var d := Handle(c, i, e, base64Sha1);
            && (d.stopped <==> c.stopped || e in {ReadFailed(false), WriteFailed(false)})
            && (Fails(e) ==> d.pending == [])
  {
    assert Without(c, i).pending == [];
  }

  /** An exception leaves the read handler, for the length or for the version of a handshake, or C++ defines nothing. */
  predicate Thrown(p: Parsed) {
    p.outcome in {Throws, Undefined} || (p.outcome == Good && IsWSHandshake(p.request) == None)
  }

  /** Such a read starts nothing, hands over and answers nothing, and is the last of a run. */
  lemma ThrownReadEnds(c: Conn, hs: seq<Happening>, base64Sha1: string -> string)
    requires HalfDuplex(c) && Play(c, hs, base64Sha1).Some? && hs != [] && hs[0].event.ReadDone?
    requires Thrown(ParseResult(c.parser, FreshRequest(c.isHttp), hs[0].event.bytes))
    ensures var d := Play(c, hs, base64Sha1).value;
            && |hs| == 1 && d.pending == []
            && d.handed == c.handed && d.answered == c.answered && d.refused == c.refused
            && d.sessions == c.sessions && d.cancels == c.cancels && d.stopped == c.stopped
  {
    assert Without(c, hs[0].op).pending == [];
    assert Handle(c, hs[0].op, hs[0].event, base64Sha1).pending == [];
    assert hs[1..] == [];
  }

  // ----- every run -----

  /** The chunks read in a run. */
  function BytesRead(hs: seq<Happening>): seq<string> {
    if hs == [] then []
    else (if hs[0].event.ReadDone? then [hs[0].event.bytes] else []) + BytesRead(hs[1..])
  }

  /** What the application is to get for a result of the parser. */
  function HandedFor(p: Parsed): seq<Request> {
    if p.outcome == Good && IsWSHandshake(p.request) == Some(false) then [p.request] else []
  }

  function HandedForAll(ps: seq<Parsed>): seq<Request> {
    if ps == [] then [] else HandedFor(ps[0]) + HandedForAll(ps[1..])
  }

  function RefusedIn(ps: seq<Parsed>): nat {
    if ps == [] then 0 else BadCount(ps[0]) + RefusedIn(ps[1..])
  }

  /** What is to be written for it, if the application answers with `reply`; not counting the answer to a
      handshake. */
  function AnswerFor(p: Parsed, reply: Response): seq<Response> {
    if p.outcome == Bad then [StockReply(400)] else if HandedFor(p) != [] then [reply] else []
  }

  function AnswersDue(cfg: Config, isHttp: bool, hs: seq<Happening>): seq<Response>
    requires Sound(cfg)
    decreases |hs|
  {
    if hs == [] then []
    else if hs[0].event.ReadDone? then
      var p := ParseResult(cfg, FreshRequest(isHttp), hs[0].event.bytes);
      AnswerFor(p, hs[0].event.reply) + AnswersDue(p.cfg, isHttp, hs[1..])
    else AnswersDue(cfg, isHttp, hs[1..])
  }

  /** The answer that is not, or not known to be, written: the pending one, or the one that failed. */
  function Outstanding(c: Conn): seq<Response> {
    if c.pending != [] && c.pending[0].Writing? then [c.pending[0].sent]
    else if c.unsent > 0 then [c.response]
    else []
  }

  /** From `c` to `d` these requests were handed on, so many refused, and these answers were to be written. */
  predicate Tally(c: Conn, d: Conn, handed: seq<Request>, refused: nat, answers: seq<Response>) {
    && d.handed == c.handed + handed && d.refused == c.refused + refused
    && d.answered + Outstanding(d) == c.answered + Outstanding(c) + answers
  }

  lemma TallyThen(c: Conn, e: Conn, d: Conn, hs: seq<Request>, r: nat, ps: seq<Response>,
                  hs': seq<Request>, r': nat, ps': seq<Response>)
    requires Tally(c, e, hs, r, ps) && Tally(e, d, hs', r', ps')
    ensures Tally(c, d, hs + hs', r + r', ps + ps')
  {
    assert c.handed + hs + hs' == c.handed + (hs + hs');
    var due := c.answered + Outstanding(c);
    assert due + ps + ps' == due + (ps + ps');
  }

  function BadCount(p: Parsed): nat { if p.outcome == Bad then 1 else 0 }

  lemma ResultTally(c: Conn, p: Parsed, buffer: string, reply: Response, base64Sha1: string -> string)
    requires |c.pending| == 1 && c.pending[0].Reading? && c.unsent == 0
    ensures Tally(c, After(c, p, reply, buffer, base64Sha1), HandedFor(p), BadCount(p), AnswerFor(p, reply))
  {
    assert c.handed + [] == c.handed;
    assert c.answered + [] + [] == c.answered + [];
    assert forall r :: c.answered + [] + [r] == c.answered + [r];
  }

  lemma ReadTally(c: Conn, i: nat, bytes: string, reply: Response, base64Sha1: string -> string)
    requires HalfDuplex(c) && Enabled(c, i, ReadDone(bytes, reply))
    ensures var p := ParseResult(c.parser, FreshRequest(c.isHttp), bytes);
            var d := Handle(c, i, ReadDone(bytes, reply), base64Sha1);
            d.parser == p.cfg && d.isHttp == c.isHttp && Tally(c, d, HandedFor(p), BadCount(p), AnswerFor(p, reply))
  {
    var p := ParseResult(c.parser, FreshRequest(c.isHttp), bytes);
    assert Without(c, i).pending == [];
    ResultTally(c, p, AfterParse(Received(c.buffer, bytes), |bytes|, p.outcome), reply, base64Sha1);
  }

  lemma OtherTally(c: Conn, i: nat, e: Event, base64Sha1: string -> string)
    requires HalfDuplex(c) && Enabled(c, i, e) && !e.ReadDone?
    ensures var d := Handle(c, i, e, base64Sha1);
            d.parser == c.parser && d.isHttp == c.isHttp && Tally(c, d, [], 0, [])
  {
    assert Without(c, i).pending == [];
    assert c.handed + [] == c.handed;
  }

  /** Every run of any connection, whatever is read and however it is cut, also when requests end inside a
      chunk: the handler gets exactly the good results of the parser that are no handshake, in order; the
      refused are the bad ones; and exactly their answers are written, in order, each once, but for the last,
      which may be pending or have failed. */
  lemma {:induction false} EveryRunServes(c: Conn, hs: seq<Happening>, base64Sha1: string -> string)
    requires HalfDuplex(c) && Play(c, hs, base64Sha1).Some?
    ensures var d, ps := Play(c, hs, base64Sha1).value, Session(c.parser, c.isHttp, BytesRead(hs));
            && d.handed == c.handed + HandedForAll(ps) && d.refused == c.refused + RefusedIn(ps)
            && d.answered + Outstanding(d) == c.answered + Outstanding(c) + AnswersDue(c.parser, c.isHttp, hs)
    decreases |hs|
  {
    if hs == [] {
      assert c.handed + [] == c.handed;
    } else {
      var d := Handle(c, hs[0].op, hs[0].event, base64Sha1);
      HandleKeepsHalfDuplex(c, hs[0].op, hs[0].event, base64Sha1);
      EveryRunServes(d, hs[1..], base64Sha1);
      FirstThenRest(c, hs, Play(d, hs[1..], base64Sha1).value, base64Sha1);
    }
  }

  /** The first completion and then the rest of a run. */
  lemma FirstThenRest(c: Conn, hs: seq<Happening>, end: Conn, base64Sha1: string -> string)
    requires HalfDuplex(c) && hs != [] && Enabled(c, hs[0].op, hs[0].event)
    requires var d := Handle(c, hs[0].op, hs[0].event, base64Sha1);
             var ps := Session(d.parser, d.isHttp, BytesRead(hs[1..]));
             Tally(d, end, HandedForAll(ps), RefusedIn(ps), AnswersDue(d.parser, d.isHttp, hs[1..]))
    ensures var ps := Session(c.parser, c.isHttp, BytesRead(hs));
            Tally(c, end, HandedForAll(ps), RefusedIn(ps), AnswersDue(c.parser, c.isHttp, hs))
  {
    var i, e := hs[0].op, hs[0].event;
    var d := Handle(c, i, e, base64Sha1);
    var ps := Session(d.parser, d.isHttp, BytesRead(hs[1..]));
    var due := AnswersDue(d.parser, d.isHttp, hs[1..]);
    if e.ReadDone? {
      var p := ParseResult(c.parser, FreshRequest(c.isHttp), e.bytes);
      ReadTally(c, i, e.bytes, e.reply, base64Sha1);
      FirstResult(c.parser, c.isHttp, e.bytes, BytesRead(hs[1..]));
      assert BytesRead(hs) == [e.bytes] + BytesRead(hs[1..]);
      TallyThen(c, d, end, HandedFor(p), BadCount(p), AnswerFor(p, e.reply), HandedForAll(ps), RefusedIn(ps), due);
    } else {
      OtherTally(c, i, e, base64Sha1);
      assert BytesRead(hs) == BytesRead(hs[1..]);
      TallyThen(c, d, end, [], 0, [], HandedForAll(ps), RefusedIn(ps), due);
      assert [] + HandedForAll(ps) == HandedForAll(ps) && [] + due == due;
    }
  }

  lemma FirstResult(cfg: Config, isHttp: bool, chunk: string, chunks: seq<string>)
    requires Sound(cfg)
    ensures var p := ParseResult(cfg, FreshRequest(isHttp), chunk);
            var ps, all := Session(p.cfg, isHttp, chunks), Session(cfg, isHttp, [chunk] + chunks);
            && HandedForAll(all) == HandedFor(p) + HandedForAll(ps)
            && RefusedIn(all) == BadCount(p) + RefusedIn(ps)
  {
    assert ([chunk] + chunks)[1..] == chunks;
    var p := ParseResult(cfg, FreshRequest(isHttp), chunk);
    ResultInFront(p, Session(p.cfg, isHttp, chunks));
  }

  lemma ResultInFront(p: Parsed, ps: seq<Parsed>)
    ensures var all := (if p.outcome == Indeterminate then [] else [p]) + ps;
            HandedForAll(all) == HandedFor(p) + HandedForAll(ps) && RefusedIn(all) == BadCount(p) + RefusedIn(ps)
  {
    if p.outcome == Indeterminate {
      assert [] + ps == ps;
      assert [] + HandedForAll(ps) == HandedForAll(ps);
    } else {
      assert ([p] + ps)[0] == p && ([p] + ps)[1..] == ps;
    }
  }

  /** So for a connection from its start. */
  lemma StartedServes(isHttp: bool, buffer: string, hs: seq<Happening>, base64Sha1: string -> string)
    requires Play(Started(isHttp, buffer), hs, base64Sha1).Some?
    ensures var d, ps := Play(Started(isHttp, buffer), hs, base64Sha1).value, Session(INITIAL, isHttp, BytesRead(hs));
            && HalfDuplex(d) && d.handed == HandedForAll(ps) && d.refused == RefusedIn(ps)
            && d.answered + Outstanding(d) == AnswersDue(INITIAL, isHttp, hs)
  {
    var c := Started(isHttp, buffer);
    var ps := Session(INITIAL, isHttp, BytesRead(hs));
    EveryRunIsHalfDuplex(c, hs, base64Sha1);
    EveryRunServes(c, hs, base64Sha1);
    assert [] + HandedForAll(ps) == HandedForAll(ps);
    assert [] + [] + AnswersDue(INITIAL, isHttp, hs) == AnswersDue(INITIAL, isHttp, hs);
  }

  /** Once a handshake is being answered, the rest of the run is one completion at most: it opens
      exactly one session, and no HTTP read or write follows. */
  lemma HandshakeEndsHttp(c: Conn, hs: seq<Happening>, base64Sha1: string -> string)
    requires HalfDuplex(c) && |c.pending| == 1 && c.pending[0].Handshaking? && Play(c, hs, base64Sha1).Some?
    ensures var c' := Play(c, hs, base64Sha1).value;
            && |hs| <= 1 && c'.handed == c.handed && c'.answered == c.answered
            && (if hs == [] then c' == c else |c'.sessions| == 1 && c'.pending == [])
  {
    if hs != [] {
      HandleKeepsHalfDuplex(c, hs[0].op, hs[0].event, base64Sha1);
      assert hs[1..] == [];
    }
  }

  // ----- keep-alive -----

  /** One request, how it was cut into reads, and what the application answers. */
  datatype Exchange = Exchange(text: string, chunks: seq<string>, reply: Response)

  function ResultOf(text: string, isHttp: bool): Parsed { ParseResult(INITIAL, FreshRequest(isHttp), text) }

  /** A text that a new parser decides at exactly its last byte, good or bad, cut anywhere into reads
      of at least one byte, the last of which ends with the text. */
  predicate DecidedAtEnd(x: Exchange, room: nat) {
    && Run(INITIAL, x.text).outcome in {Good, Bad} && Run(INITIAL, x.text).used == |x.text|
    && Concat(x.chunks) == x.text && ReadsFit(x.chunks, room)
  }

  /** What reads can bring: at least one byte each, and no more than there is room for. */
  predicate ReadsFit(chunks: seq<string>, room: nat) {
    forall i :: 0 <= i < |chunks| ==> 0 < |chunks[i]| <= room
  }

  /** What asks for no WebSocket. */
  predicate Ordinary(x: Exchange, isHttp: bool, room: nat) {
    && DecidedAtEnd(x, room)
    && (ResultOf(x.text, isHttp).outcome == Good ==> IsWSHandshake(ResultOf(x.text, isHttp).request) == Some(false))
  }

  function Reads(chunks: seq<string>, reply: Response): seq<Happening> {
    if chunks == [] then [] else [Happening(0, ReadDone(chunks[0], reply))] + Reads(chunks[1..], reply)
  }

  function Happenings(xs: seq<Exchange>): seq<Happening> {
    if xs == [] then []
    else Reads(xs[0].chunks, xs[0].reply) + [Happening(0, WriteDone)] + Happenings(xs[1..])
  }

  /** The requests among the texts that are good, and what each text is answered with. */
  function GoodRequests(xs: seq<Exchange>, isHttp: bool): seq<Request> {
    if xs == [] then [] else RequestIn(xs[0], isHttp) + GoodRequests(xs[1..], isHttp)
  }

  function RequestIn(x: Exchange, isHttp: bool): seq<Request> {
    var p := ResultOf(x.text, isHttp);
    if p.outcome == Good then [p.request] else []
  }

  function Answers(xs: seq<Exchange>, isHttp: bool): seq<Response> {
    if xs == [] then [] else [AnswerTo(xs[0], isHttp)] + Answers(xs[1..], isHttp)
  }

  function AnswerTo(x: Exchange, isHttp: bool): Response {
    if ResultOf(x.text, isHttp).outcome == Good then x.reply else StockReply(400)
  }

  lemma {:induction false} PlayConcat(c: Conn, hs: seq<Happening>, gs: seq<Happening>, base64Sha1: string -> string)
    ensures Play(c, hs + gs, base64Sha1) ==
            (var r := Play(c, hs, base64Sha1); if r.Some? then Play(r.value, gs, base64Sha1) else None)
    decreases |hs|
  {
    if hs == [] {
      assert hs + gs == gs;
    } else {
      assert (hs + gs)[0] == hs[0] && (hs + gs)[1..] == hs[1..] + gs;
      if Enabled(c, hs[0].op, hs[0].event) {
        PlayConcat(Handle(c, hs[0].op, hs[0].event, base64Sha1), hs[1..], gs, base64Sha1);
      }
    }
  }

  /** A connection waiting for bytes. */
  predicate Waiting(c: Conn) { Sound(c.parser) && c.pending == [Reading(c.buffer)] }

  /** The connection when the parser has come to this result, whatever is in the buffer. */
  function After(c: Conn, p: Parsed, reply: Response, buffer: string, base64Sha1: string -> string): Conn {
    OnResult(c.(parser := p.cfg, request := p.request, response := NO_RESPONSE, buffer := buffer, pending := []),
             p.outcome, reply, base64Sha1)
  }

  /** The reads of one text: nothing happens before the last, which acts on the result for the whole. */
  lemma {:induction false} ReadsLead(c: Conn, chunks: seq<string>, reply: Response, p: Parsed,
                                     base64Sha1: string -> string)
      returns (buffer: string)
    requires Waiting(c) && chunks != [] && ReadsFit(chunks, |c.buffer|)
    requires var r := Run(c.parser, Concat(chunks)); r.used == |Concat(chunks)| && r.outcome in {Good, Bad}
    requires p == ParseResult(c.parser, FreshRequest(c.isHttp), Concat(chunks))
    ensures Play(c, Reads(chunks, reply), base64Sha1) == Some(After(c, p, reply, buffer, base64Sha1))
    ensures |buffer| == |c.buffer|
    decreases |chunks|
  {
    var s, t := chunks[0], Concat(chunks[1..]);
    RunConcat(c.parser, s, t);
    assert Concat(chunks) == s + t;
    if |chunks| > 1 { NonEmptyConcat(chunks[1..]); }
    EmptyOrNot(s, t);
    if Run(c.parser, s).outcome == Indeterminate {
      assert chunks[1..] == [] ==> t == "";
      var d := MiddleRead(c, s, reply, base64Sha1);
      buffer := ReadsLead(d, chunks[1..], reply, p, base64Sha1);
    } else {
      assert t == "";
      buffer := LastRead(c, s, reply, base64Sha1);
      assert Reads(chunks, reply)[1..] == [];
    }
  }

  lemma NonEmptyConcat(chunks: seq<string>)
    requires chunks != [] && chunks[0] != ""
    ensures Concat(chunks) != ""
  {
  }

  lemma EmptyOrNot(s: string, t: string)
    ensures t == "" ==> s + t == s
  {
  }

  lemma MiddleRead(c: Conn, s: string, reply: Response, base64Sha1: string -> string) returns (d: Conn)
    requires Waiting(c) && Run(c.parser, s).outcome == Indeterminate && |s| <= |c.buffer|
    ensures Enabled(c, 0, ReadDone(s, reply)) && d == Handle(c, 0, ReadDone(s, reply), base64Sha1)
    ensures Waiting(d) && |d.buffer| == |c.buffer|
    ensures d == c.(parser := Run(c.parser, s).cfg, request := FreshRequest(c.isHttp), response := NO_RESPONSE,
                    buffer := d.buffer, pending := [Reading(d.buffer)])
  {
    d := Handle(c, 0, ReadDone(s, reply), base64Sha1);
    assert Without(c, 0).pending == [];
  }

  lemma LastRead(c: Conn, s: string, reply: Response, base64Sha1: string -> string) returns (buffer: string)
    requires Waiting(c) && Run(c.parser, s).outcome in {Good, Bad} && |s| <= |c.buffer|
    ensures Enabled(c, 0, ReadDone(s, reply)) && |buffer| == |c.buffer|
    ensures Handle(c, 0, ReadDone(s, reply), base64Sha1) ==
            After(c, ParseResult(c.parser, FreshRequest(c.isHttp), s), reply, buffer, base64Sha1)
  {
    var p := ParseResult(c.parser, FreshRequest(c.isHttp), s);
    buffer := AfterParse(Received(c.buffer, s), |s|, p.outcome);
    assert Without(c, 0).pending == [];
  }

  /** From waiting with a new parser back to waiting with a new parser, having handed over these
      requests, written these answers and refused the rest. */
  predicate Served(c: Conn, d: Conn, requests: seq<Request>, answers: seq<Response>) {
    && Waiting(d) && d.parser == INITIAL && d.isHttp == c.isHttp && |d.buffer| == |c.buffer|
    && d.handed == c.handed + requests && d.answered == c.answered + answers
    && d.refused - c.refused == |answers| - |requests|
    && d.unsent == c.unsent && d.sessions == c.sessions && d.stopped == c.stopped && d.cancels == c.cancels
  }

  /** The keep-alive run: the handler gets exactly the good requests, in order, and everything sent is
      answered once, in order, whatever the handler does; then the connection waits for the next. */
  lemma {:induction false} KeepAlive(c: Conn, xs: seq<Exchange>, base64Sha1: string -> string) returns (d: Conn)
    requires Waiting(c) && c.parser == INITIAL
    requires forall i :: 0 <= i < |xs| ==> Ordinary(xs[i], c.isHttp, |c.buffer|)
    ensures Play(c, Happenings(xs), base64Sha1) == Some(d)
    ensures Served(c, d, GoodRequests(xs, c.isHttp), Answers(xs, c.isHttp))
    decreases |xs|
  {
    if xs == [] {
      d := c;
      assert c.handed + [] == c.handed && c.answered + [] == c.answered;
    } else {
      var x := xs[0];
      var e := OneExchange(c, x, base64Sha1);
      d := KeepAlive(e, xs[1..], base64Sha1);
      PlayConcat(c, Reads(x.chunks, x.reply) + [Happening(0, WriteDone)], Happenings(xs[1..]), base64Sha1);
      ServedThen(c, e, d, RequestIn(x, c.isHttp), [AnswerTo(x, c.isHttp)], GoodRequests(xs[1..], c.isHttp),
                 Answers(xs[1..], c.isHttp));
    }
  }

  lemma ServedThen(c: Conn, e: Conn, d: Conn, rs: seq<Request>, ps: seq<Response>, rs': seq<Request>,
                   ps': seq<Response>)
    requires Served(c, e, rs, ps) && Served(e, d, rs', ps')
    ensures Served(c, d, rs + rs', ps + ps')
  {
    assert c.handed + rs + rs' == c.handed + (rs + rs');
    assert c.answered + ps + ps' == c.answered + (ps + ps');
  }

  lemma OneExchange(c: Conn, x: Exchange, base64Sha1: string -> string) returns (d: Conn)
    requires Waiting(c) && c.parser == INITIAL && Ordinary(x, c.isHttp, |c.buffer|)
    ensures Play(c, Reads(x.chunks, x.reply) + [Happening(0, WriteDone)], base64Sha1) == Some(d)
    ensures Served(c, d, RequestIn(x, c.isHttp), [AnswerTo(x, c.isHttp)])
  {
    var p := ResultOf(x.text, c.isHttp);
    assert x.chunks != [];
    var buffer := ReadsLead(c, x.chunks, x.reply, p, base64Sha1);
    var w := After(c, p, x.reply, buffer, base64Sha1);
    assert w.pending == [Writing(AnswerTo(x, c.isHttp))];
    PlayConcat(c, Reads(x.chunks, x.reply), [Happening(0, WriteDone)], base64Sha1);
    d := WriteThenWaits(w, base64Sha1);
    assert c.handed + [] == c.handed;
  }

  lemma WriteThenWaits(w: Conn, base64Sha1: string -> string) returns (d: Conn)
    requires Sound(w.parser) && |w.pending| == 1 && w.pending[0].Writing?
    ensures Play(w, [Happening(0, WriteDone)], base64Sha1) == Some(d)
    ensures d == w.(answered := w.answered + [w.pending[0].sent], pending := [Reading(w.buffer)])
  {
    d := Handle(w, 0, WriteDone, base64Sha1);
    assert Without(w, 0).pending == [];
    assert [] + [Reading(w.buffer)] == [Reading(w.buffer)];
    assert [Happening(0, WriteDone)][1..] == [];
    assert Play(d, [], base64Sha1) == Some(d);
  }

  /** Every well-formed message is decided at its end; with a Host the handler gets the request it
      denotes, without one it is refused.  Whether it is a handshake its headers decide. */
  lemma MessageIsExchange(m: Message, x: Exchange, isHttp: bool, room: nat)
    requires WellFormedMessage(m) && Brings(x, m, room)
    ensures DecidedAtEnd(x, room)
    ensures RequestIn(x, isHttp) == if HasHost(m) then [RequestOf(m, isHttp)] else []
    ensures AnswerTo(x, isHttp) == if HasHost(m) then x.reply else StockReply(400)
    ensures var hs := HeadersOf(m.head.lines);
            && (Ordinary(x, isHttp, room) <==> !HasHost(m) || (!HandshakeAsked(hs) && !HandshakeThrows(hs)))
            && (AsksForWebSocket(x, isHttp, room) <==> HasHost(m) && HandshakeAsked(hs))
  {
    Completeness.MessageAccepted(m);
    MessageParsed(m, isHttp, "");
    assert MessageText(m) + "" == MessageText(m);
    if HasHost(m) { HandshakeExactly(m, isHttp); }
  }

  /** The text of the message, cut into reads. */
  predicate Brings(x: Exchange, m: Message, room: nat) {
    x.text == MessageText(m) && Concat(x.chunks) == x.text && ReadsFit(x.chunks, room)
  }

  /** What asks for a WebSocket. */
  predicate AsksForWebSocket(x: Exchange, isHttp: bool, room: nat) {
    && DecidedAtEnd(x, room) && ResultOf(x.text, isHttp).outcome == Good
    && IsWSHandshake(ResultOf(x.text, isHttp).request) == Some(true)
  }

  /** The session of a message: the first SID cookie, and the URI it asked for. */
  function SessionFor(m: Message, isHttp: bool, id: string): WsSession
    requires HasHost(m)
  {
    var hs := HeadersOf(m.head.lines);
    WsSession(id, match FirstCookieValue(hs, "SID") { case None => "" case Some(sid) => sid },
              (if isHttp then "ws" else "wss") + ("://" + FirstHeader(hs, "host").value + m.head.uri))
  }

  /** A whole life: any ordinary requests, then a message whose headers ask for a WebSocket.  It is answered for
      its own key, the session gets the cookie and the URI of that very message, and HTTP is over. */
  lemma UpgradeAfterKeepAlive(c: Conn, xs: seq<Exchange>, m: Message, x: Exchange, id: string,
                              base64Sha1: string -> string) returns (d: Conn)
    requires Waiting(c) && c.parser == INITIAL && c.sessions == []
    requires forall i :: 0 <= i < |xs| ==> Ordinary(xs[i], c.isHttp, |c.buffer|)
    requires WellFormedMessage(m) && Brings(x, m, |c.buffer|)
    requires HasHost(m) && HandshakeAsked(HeadersOf(m.head.lines))
    ensures Play(c, Happenings(xs) + (Reads(x.chunks, x.reply) + [Happening(0, HandshakeDone(id))]), base64Sha1)
         == Some(d)
    ensures d.sessions == [SessionFor(m, c.isHttp, id)]
    ensures var hs := HeadersOf(m.head.lines);
            IsHandshakeAnswer(d.response, FirstHeader(hs, "sec-websocket-key").value,
                              FirstHeader(hs, "sec-websocket-protocol") == Some("chat, superchat"), base64Sha1)
    ensures d.pending == [] && d.cancels == c.cancels + 1 && d.stopped == c.stopped
    ensures d.handed == c.handed + GoodRequests(xs, c.isHttp) && d.answered == c.answered + Answers(xs, c.isHttp)
  {
    var e := KeepAlive(c, xs, base64Sha1);
    PlayConcat(c, Happenings(xs), Reads(x.chunks, x.reply) + [Happening(0, HandshakeDone(id))], base64Sha1);
    MessageIsExchange(m, x, c.isHttp, |c.buffer|);
    d := Upgrade(e, x, id, base64Sha1);
    AnswerFits(m, c.isHttp, base64Sha1);
    SessionFits(m, c.isHttp, id);
  }

  lemma AnswerFits(m: Message, isHttp: bool, base64Sha1: string -> string)
    requires WellFormedMessage(m) && HasHost(m) && KeyGiven(HeadersOf(m.head.lines))
    ensures var r, hs := ResultOf(MessageText(m), isHttp).request, HeadersOf(m.head.lines);
            IsHandshakeAnswer(HandshakeResponse(r, base64Sha1), FirstHeader(hs, "sec-websocket-key").value,
                              FirstHeader(hs, "sec-websocket-protocol") == Some("chat, superchat"), base64Sha1)
  {
    HeadersSay(m, isHttp, "sec-websocket-key");
    HeadersSay(m, isHttp, "sec-websocket-protocol");
    HandshakeIsAnswered(ResultOf(MessageText(m), isHttp).request, base64Sha1);
  }

  lemma SessionFits(m: Message, isHttp: bool, id: string)
    requires WellFormedMessage(m) && HasHost(m) && UpgradeAsked(HeadersOf(m.head.lines))
    ensures var r := ResultOf(MessageText(m), isHttp).request;
            WsSession(id, GetCookie(r, "SID").value, r.uri) == SessionFor(m, isHttp, id)
  {
    RequestSays(m, isHttp);
    HeadersSay(m, isHttp, "SID");
  }

  lemma Upgrade(c: Conn, x: Exchange, id: string, base64Sha1: string -> string) returns (d: Conn)
    requires Waiting(c) && c.parser == INITIAL && AsksForWebSocket(x, c.isHttp, |c.buffer|)
    ensures Play(c, Reads(x.chunks, x.reply) + [Happening(0, HandshakeDone(id))], base64Sha1) == Some(d)
    ensures var r := ResultOf(x.text, c.isHttp).request;
            && d.sessions == c.sessions + [WsSession(id, GetCookie(r, "SID").value, r.uri)]
            && d.response == HandshakeResponse(r, base64Sha1) && d.pending == []
            && d.handed == c.handed && d.answered == c.answered && d.cancels == c.cancels + 1 && d.stopped == c.stopped
  {
    var p := ResultOf(x.text, c.isHttp);
    assert x.chunks != [];
    var buffer := ReadsLead(c, x.chunks, x.reply, p, base64Sha1);
    var w := After(c, p, x.reply, buffer, base64Sha1);
    PlayConcat(c, Reads(x.chunks, x.reply), [Happening(0, HandshakeDone(id))], base64Sha1);
    d := SessionOpens(w, id, base64Sha1);
  }

  lemma SessionOpens(w: Conn, id: string, base64Sha1: string -> string) returns (d: Conn)
    requires Sound(w.parser) && |w.pending| == 1 && w.pending[0].Handshaking?
    ensures Play(w, [Happening(0, HandshakeDone(id))], base64Sha1) == Some(d)
    ensures d == w.(sessions := w.sessions + [WsSession(id, GetCookie(w.request, "SID").value, w.request.uri)],
                    pending := [])
  {
    d := Handle(w, 0, HandshakeDone(id), base64Sha1);
    assert Without(w, 0).pending == [];
    assert [Happening(0, HandshakeDone(id))][1..] == [];
    assert Play(d, [], base64Sha1) == Some(d);
  }
}
