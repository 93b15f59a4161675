/** `HTTPParser`: the resumable parser object and its contract. */
module Parser {
  import opened Text
  import opened ParserSpec
  import opened Grammar
  import opened Recognition
  import opened Requests
  import opened Completeness
  import opened Cookies

  /** What one call of `Parse` gives back: the outcome, the request and the parser left behind. */
  datatype Parsed = Parsed(outcome: Outcome, request: Request, cfg: Config)

  /** `Parse` on a request `r`.  A missing Host turns good into bad, with the request already filled.
      After good and bad the parser is reset; an exception leaves everything as it is. */
  function ParseResult(cfg: Config, r: Request, s: string): (p: Parsed)
    requires Sound(cfg)
    ensures Sound(p.cfg)
  {
    var h := Run(cfg, s);
    match h.outcome
    case Good => var (r', hasHost) := Fill(r, h.cfg.data); Parsed(if hasHost then Good else Bad, r', INITIAL)
    case Bad => Parsed(Bad, r, INITIAL)
    case _ => Parsed(h.outcome, r, h.cfg)
  }

  class HTTPParser {
    var state: State
    var data: Data

    constructor ()
      ensures View() == INITIAL
    {
      state, data := MethodStart, EMPTY;
    }

    function View(): Config
      reads this
    {
      Config(state, data)
    }

    method Reset()
      modifies this
      ensures View() == INITIAL
    {
      state := MethodStart;
      data := EMPTY;
    }

    /** One pass through the `switch`; `done` stands for its `return`. */
    method Advance(input: char) returns (done: bool, result: Outcome)
      requires Sound(View())
      modifies this
      ensures ByteStep(old(View()), input) == if done then Stop(result, View()) else Go(View())
    {
      done, result := false, Indeterminate;
      match state {
        case MethodStart =>
          if !IsChar(input) || IsCtl(input) || IsTspecial(input) {
            return true, Bad;
          } else {
            state := Method;
            data := data.(verb := data.verb + [input]);
          }
        case Method =>
          if input == ' ' {
            state := Uri;
          } else if !IsChar(input) || IsCtl(input) || IsTspecial(input) {
            return true, Bad;
          } else {
            data := data.(verb := data.verb + [input]);
          }
        case Uri =>
          if input == ' ' {
            state := VersionH;
          } else if IsCtl(input) {
            return true, Bad;
          } else {
            data := data.(uri := data.uri + [input]);
          }
        case VersionH => done, result := Literal(input, 'H', VersionT1);
        case VersionT1 => done, result := Literal(input, 'T', VersionT2);
        case VersionT2 => done, result := Literal(input, 'T', VersionP);
        case VersionP => done, result := Literal(input, 'P', VersionSlash);
        case VersionSlash => done, result := Literal(input, '/', VersionMajorStart);
        case VersionMajorStart => done, result := AddMajorDigit(input);
        case VersionMajor =>
          if input == '.' {
            state := VersionMinorStart;
          } else {
            done, result := AddMajorDigit(input);
          }
        case VersionMinorStart => done, result := AddMinorDigit(input);
        case VersionMinor =>
          if input == '\r' {
            state := ExpectingNewline1;
          } else {
            done, result := AddMinorDigit(input);
          }
        case ExpectingNewline1 => done, result := Literal(input, '\n', HeaderLineStart);
        case HeaderLineStart => done, result := AtLineStart(input);
        case HeaderLws => done, result := AtValue(input);
        case HeaderName =>
          if input == ':' {
            state := SpaceBeforeHeaderValue;
          } else if !IsChar(input) || IsCtl(input) || IsTspecial(input) {
            return true, Bad;
          } else {
            data := ExtendName(data, input);
          }
        case SpaceBeforeHeaderValue => done, result := Literal(input, ' ', HeaderValue);
        case HeaderValue => done, result := AtValue(input);
        case ExpectingNewline2 => done, result := Literal(input, '\n', HeaderLineStart);
        case ExpectingNewline3 => done, result := AtHeadEnd(input);
        case Body =>
          data := data.(content := data.content + [input]);
          if |data.content| == data.contentLength {
            return true, Good;
          }
      }
    }

    method AtLineStart(input: char) returns (done: bool, result: Outcome)
      requires state.HeaderLineStart?
      modifies this
      ensures ByteStep(old(View()), input) == if done then Stop(result, View()) else Go(View())
    {
      if input == '\r' {
        state := ExpectingNewline3;
      } else if data.headers != [] && (input == ' ' || input == '\t') {
        state := HeaderLws;
      } else if !IsChar(input) || IsCtl(input) || IsTspecial(input) {
        return true, Bad;
      } else {
        data := data.(headers := data.headers + [Header([input], "")]);
        state := HeaderName;
      }
      return false, Indeterminate;
    }

    /** In a value, or in the white space that opens a fold. */
    method AtValue(input: char) returns (done: bool, result: Outcome)
      requires Sound(View()) && (state.HeaderValue? || state.HeaderLws?)
      modifies this
      ensures ByteStep(old(View()), input) == if done then Stop(result, View()) else Go(View())
    {
      if input == '\r' {
        state := ExpectingNewline2;
      } else if state.HeaderLws? && (input == ' ' || input == '\t') {
      } else if IsCtl(input) {
        return true, Bad;
      } else {
        state := HeaderValue;
        data := ExtendValue(data, input);
      }
      return false, Indeterminate;
    }

    method AtHeadEnd(input: char) returns (done: bool, result: Outcome)
      requires state.ExpectingNewline3?
      modifies this
      ensures ByteStep(old(View()), input) == if done then Stop(result, View()) else Go(View())
    {
      if input != '\n' {
        return true, Bad;
      }
      state := Body;
      var length := FindContentLength();
      if length.Some? {
        var n := Stoi(length.value);
        if n.None? {
          return true, Throws;
        }
        data := data.(contentLength := n.value);
      }
      if data.contentLength == 0 {
        return true, Good;
      }
      return false, Indeterminate;
    }

    /** The search for the first Content-Length. */
    method FindContentLength() returns (value: Option<string>)
      ensures value == FirstContentLength(data.headers)
    {
      for i := 0 to |data.headers|
        invariant FirstContentLength(data.headers) == FirstContentLength(data.headers[i..])
      {
        assert data.headers[i..][1..] == data.headers[i + 1..];
        if EqualIgnoringCase(data.headers[i].name, "Content-Length") {
          return Some(data.headers[i].value);
        }
      }
      return None;
    }

    method Literal(input: char, wanted: char, next: State) returns (done: bool, result: Outcome)
      modifies this`state
      ensures Expect(old(View()), input, wanted, next) == if done then Stop(result, View()) else Go(View())
    {
      if input == wanted {
        state := next;
        return false, Indeterminate;
      } else {
        return true, Bad;
      }
    }

    method AddMajorDigit(input: char) returns (done: bool, result: Outcome)
      modifies this
      ensures MajorDigit(old(View()), input) == if done then Stop(result, View()) else Go(View())
    {
      if !IsDigit(input) {
        return true, Bad;
      }
      var v := data.versionMajor * 10 + DigitValue(input);
      if v > INT_MAX {
        return true, Undefined;
      }
      data := data.(versionMajor := v);
      state := VersionMajor;
      return false, Indeterminate;
    }

    method AddMinorDigit(input: char) returns (done: bool, result: Outcome)
      modifies this
      ensures MinorDigit(old(View()), input) == if done then Stop(result, View()) else Go(View())
    {
      if !IsDigit(input) {
        return true, Bad;
      }
      var v := data.versionMinor * 10 + DigitValue(input);
      if v > INT_MAX {
        return true, Undefined;
      }
      data := data.(versionMinor := v);
      state := VersionMinor;
      return false, Indeterminate;
    }

    /** The loop over the bytes of a chunk. */
    method ParseImpl(buffer: array<char>, size: nat) returns (result: Outcome)
      requires size <= buffer.Length && Sound(View())
      modifies this
      ensures var h := Run(old(View()), buffer[..size]); result == h.outcome && View() == h.cfg
    {
      ghost var start := View();
      ghost var text := buffer[..size];
      for i := 0 to size
        invariant Sound(View()) && buffer[..size] == text
        invariant var h, g := Run(start, text), Run(View(), text[i..]); h.outcome == g.outcome && h.cfg == g.cfg
      {
        assert text[i..][0] == buffer[i] && text[i..][1..] == text[i + 1..];
        var done, r := Advance(buffer[i]);
        if done {
          return r;
        }
      }
      return Indeterminate;
    }

    /** `HTTPParser::Parse`.  The chunk is wiped unless an exception leaves the call. */
    method Parse(request: HTTPRequest, buffer: array<char>, size: nat) returns (result: Outcome)
      requires size <= buffer.Length && Sound(View())
      modifies this, request, buffer
      ensures ParseResult(old(View()), old(request.View()), old(buffer[..size])) ==
          Parsed(result, request.View(), View())
      ensures result in {Throws, Undefined} ==> buffer[..] == old(buffer[..])
      ensures result !in {Throws, Undefined} ==>
                forall i :: 0 <= i < buffer.Length ==> buffer[i] == if i < size then '\0' else old(buffer[i])
    {
      result := ParseImpl(buffer, size);
      if result == Throws || result == Undefined {
        return;
      }
      if result == Good {
        var hasHost := request.FillFrom(data);
        if !hasHost {
          result := Bad;
        }
      }
      if result != Indeterminate {
        Reset();
      }
      forall i | 0 <= i < size {
        buffer[i] := '\0';
      }
    }
  }

  // ----- chunks -----

  /** Feeding chunk after chunk, each into a fresh request, until the first definite result. */
  function Feed(cfg: Config, isHttp: bool, chunks: seq<string>): (p: Parsed)
    requires Sound(cfg)
    ensures Sound(p.cfg)
    decreases |chunks|
  {
    if chunks == [] then Parsed(Indeterminate, FreshRequest(isHttp), cfg)
    else
      var p := ParseResult(cfg, FreshRequest(isHttp), chunks[0]);
      if p.outcome == Indeterminate then Feed(p.cfg, isHttp, chunks[1..]) else p
  }

  /** However a byte string is cut, the result is that of one call on the whole. */
  lemma {:induction false} ChunkIndependence(cfg: Config, isHttp: bool, chunks: seq<string>)
    requires Sound(cfg)
    ensures Feed(cfg, isHttp, chunks) == ParseResult(cfg, FreshRequest(isHttp), Concat(chunks))
    decreases |chunks|
  {
    if chunks == [] {
    } else {
      var s, t := chunks[0], Concat(chunks[1..]);
      RunConcat(cfg, s, t);
      var p := ParseResult(cfg, FreshRequest(isHttp), s);
      if p.outcome == Indeterminate {
        ChunkIndependence(p.cfg, isHttp, chunks[1..]);
      }
    }
  }

  // ----- whole messages -----

  predicate HasHost(m: Message) { FirstHeader(HeadersOf(m.head.lines), "host").Some? }

  function RequestOf(m: Message, isHttp: bool): Request { Fill(FreshRequest(isHttp), MessageData(m)).0 }

  lemma HostIsFilled(d: Data, isHttp: bool)
    ensures Fill(FreshRequest(isHttp), d).1 <==> FirstHeader(d.headers, "host").Some?
  {
    InsertHeadersKeepsFirst(map[], d.headers, "host");
  }

  /** One well-formed message with a Host is parsed good; without, bad; either way from a new parser
      to a new parser, and whatever bytes follow it in the chunk are lost. */
  lemma MessageParsed(m: Message, isHttp: bool, rest: string)
    requires WellFormedMessage(m)
    ensures ParseResult(INITIAL, FreshRequest(isHttp), MessageText(m) + rest) ==
            Parsed(if HasHost(m) then Good else Bad, RequestOf(m, isHttp), INITIAL)
  {
    AcceptedThenRest(m, rest);
    HostIsFilled(MessageData(m), isHttp);
  }

  // ----- what a message asks for, by its own text -----

  /** The first Upgrade and the first Connection header, whatever the case of their names and values. */
  predicate UpgradeAsked(hs: seq<Header>) {
    var upgrade, connection := FirstHeader(hs, "upgrade"), FirstHeader(hs, "connection");
    && upgrade.Some? && Lower(upgrade.value) == "websocket"
    && connection.Some? && Lower(connection.value) in {"upgrade", "keep-alive, upgrade"}
  }

  predicate KeyGiven(hs: seq<Header>) {
    FirstHeader(hs, "sec-websocket-key").Some? && FirstHeader(hs, "sec-websocket-key").value != ""
  }

  /** A WebSocket handshake of a version the server speaks. */
  predicate HandshakeAsked(hs: seq<Header>) {
    var version := FirstHeader(hs, "sec-websocket-version");
    && UpgradeAsked(hs) && KeyGiven(hs)
    && version.Some? && Stoi(version.value).Some? && Stoi(version.value).value >= 13
  }

  /** A WebSocket handshake whose version is no number. */
  predicate HandshakeThrows(hs: seq<Header>) {
    var version := FirstHeader(hs, "sec-websocket-version");
    UpgradeAsked(hs) && KeyGiven(hs) && version.Some? && Stoi(version.value) == None
  }

  lemma LowerWords()
    ensures Lower("websocket") == "websocket" && Lower("Upgrade") == "upgrade"
    ensures Lower("keep-alive, Upgrade") == "keep-alive, upgrade"
  {
  }

  lemma UpgradeByHeaders(d: Data, isHttp: bool)
    ensures IsWSUpgrade(Fill(FreshRequest(isHttp), d).0) <==> UpgradeAsked(d.headers)
  {
    LowerWords();
    HeadersAreFirst(d, isHttp, "upgrade");
    HeadersAreFirst(d, isHttp, "connection");
  }

  lemma HandshakeByHeaders(d: Data, isHttp: bool)
    requires Fill(FreshRequest(isHttp), d).1
    ensures var r := Fill(FreshRequest(isHttp), d).0;
            && (IsWSHandshake(r) == Some(true) <==> HandshakeAsked(d.headers))
            && (IsWSHandshake(r) == None <==> HandshakeThrows(d.headers))
  {
    SchemeTellsUpgrade(d, isHttp);
    UpgradeByHeaders(d, isHttp);
    HeadersAreFirst(d, isHttp, "sec-websocket-key");
    HeadersAreFirst(d, isHttp, "sec-websocket-version");
  }

  lemma UriByHeaders(d: Data, isHttp: bool)
    requires FirstHeader(d.headers, "host").Some?
    ensures var uri := Fill(FreshRequest(isHttp), d).0.uri;
            var rest := "://" + FirstHeader(d.headers, "host").value + d.uri;
            && (UpgradeAsked(d.headers) && isHttp ==> uri == "ws" + rest)
            && (UpgradeAsked(d.headers) && !isHttp ==> uri == "wss" + rest)
            && (!UpgradeAsked(d.headers) && isHttp ==> uri == "http" + rest)
            && (!UpgradeAsked(d.headers) && !isHttp ==> uri == "https" + rest)
  {
    UpgradeByHeaders(d, isHttp);
    InsertHeadersKeepsFirst(map[], d.headers, "host");
    SchemeAndRest(IsWSUpgrade(Fill(FreshRequest(isHttp), d).0), isHttp, FirstHeader(d.headers, "host").value, d.uri);
  }

  lemma SchemeAndRest(upgrade: bool, isHttp: bool, host: string, fragment: string)
    ensures Proto(upgrade, isHttp) + "://" + host + fragment == Proto(upgrade, isHttp) + ("://" + host + fragment)
  {
  }

  /** The request of a message with a Host, in terms of the message alone: verb, version numbers, body, and as URI the
      scheme for what is asked for over what, the first Host and the URI of the request line. */
  lemma RequestSays(m: Message, isHttp: bool)
    requires WellFormedMessage(m) && HasHost(m)
    ensures var r, hs := ParseResult(INITIAL, FreshRequest(isHttp), MessageText(m)).request, HeadersOf(m.head.lines);
            var rest := "://" + FirstHeader(hs, "host").value + m.head.uri;
            && r.verb == m.head.verb && r.content == m.body && r.isHttp == isHttp
            && r.versionMajor == DecValue(m.head.versionMajor) && r.versionMinor == DecValue(m.head.versionMinor)
            && (UpgradeAsked(hs) && isHttp ==> r.uri == "ws" + rest)
            && (UpgradeAsked(hs) && !isHttp ==> r.uri == "wss" + rest)
            && (!UpgradeAsked(hs) && isHttp ==> r.uri == "http" + rest)
            && (!UpgradeAsked(hs) && !isHttp ==> r.uri == "https" + rest)
  {
    MessageParsed(m, isHttp, "");
    assert MessageText(m) + "" == MessageText(m);
    MessageAccepted(m);
    BodyAndHeadersAgree(MessageText(m), isHttp);
    UriByHeaders(MessageData(m), isHttp);
  }

  /** Its headers are the first of each name, in any case, without the cookies; its cookies the first of each name in
      the first Cookie header. */
  lemma HeadersSay(m: Message, isHttp: bool, k: string)
    requires WellFormedMessage(m)
    ensures var r, hs := ParseResult(INITIAL, FreshRequest(isHttp), MessageText(m)).request, HeadersOf(m.head.lines);
            && Lookup(r.headers, k) == (if k == "cookie" then None else FirstHeader(hs, k))
            && (var c, v := GetCookie(r, k), FirstCookieValue(hs, k);
                if v.Some? then IsPlain(c, k, v.value) else IsPlain(c, "", ""))
  {
    MessageParsed(m, isHttp, "");
    assert MessageText(m) + "" == MessageText(m);
    HeadersAreFirst(MessageData(m), isHttp, k);
    CookiesAreFirst(MessageData(m), isHttp, k);
  }

  /** The handshake is taken, or its version thrown on, exactly when the headers say so. */
  lemma HandshakeExactly(m: Message, isHttp: bool)
    requires WellFormedMessage(m) && HasHost(m)
    ensures var r, hs := ParseResult(INITIAL, FreshRequest(isHttp), MessageText(m)).request, HeadersOf(m.head.lines);
            && (IsWSHandshake(r) == Some(true) <==> HandshakeAsked(hs))
            && (IsWSHandshake(r) == None <==> HandshakeThrows(hs))
  {
    MessageParsed(m, isHttp, "");
    assert MessageText(m) + "" == MessageText(m);
    HostIsFilled(MessageData(m), isHttp);
    HandshakeByHeaders(MessageData(m), isHttp);
  }

  /** A Content-Length that is no number: the call is left by the exception at the last byte of the head, with the
      request untouched and the parser not reset, in the body that will never come. */
  lemma UnconvertibleLengthThrows(h: Head, isHttp: bool, rest: string)
    requires WellFormedHead(h) && AnnouncedLength(HeadersOf(h.lines)) == None
    ensures ParseResult(INITIAL, FreshRequest(isHttp), HeadText(h) + rest) ==
            Parsed(Throws, FreshRequest(isHttp), Config(Body, HeadData(h)))
  {
    HeadDecides(h, rest);
  }

  /** The converse: a good result comes from the text of one message with a Host, at the front of
      what was fed. */
  lemma GoodIsMessage(s: string, isHttp: bool) returns (m: Message)
    requires ParseResult(INITIAL, FreshRequest(isHttp), s).outcome == Good
    ensures WellFormedMessage(m) && HasHost(m) && MessageText(m) <= s
    ensures ParseResult(INITIAL, FreshRequest(isHttp), s) == Parsed(Good, RequestOf(m, isHttp), INITIAL)
  {
    m := GoodRunReadsOneMessage(s);
    HostIsFilled(MessageData(m), isHttp);
  }

  /** The definite results of a whole life of reads on one parser, in order. */
  function Session(cfg: Config, isHttp: bool, chunks: seq<string>): seq<Parsed>
    requires Sound(cfg)
    decreases |chunks|
  {
    if chunks == [] then []
    else
      var p := ParseResult(cfg, FreshRequest(isHttp), chunks[0]);
      (if p.outcome == Indeterminate then [] else [p]) + Session(p.cfg, isHttp, chunks[1..])
  }

  /** Once a result was good or bad, what follows is what a new parser would give. */
  lemma {:induction false} LaterResultsAreFresh(cfg: Config, isHttp: bool, chunks: seq<string>, later: seq<string>)
    requires Sound(cfg) && chunks != []
    requires Feed(cfg, isHttp, chunks).outcome in {Good, Bad}
    requires Feed(cfg, isHttp, chunks[..|chunks| - 1]).outcome == Indeterminate
    ensures Session(cfg, isHttp, chunks + later) == [Feed(cfg, isHttp, chunks)] + Session(INITIAL, isHttp, later)
    decreases |chunks|
  {
    var p := ParseResult(cfg, FreshRequest(isHttp), chunks[0]);
    assert |chunks| > 1 ==> chunks[..|chunks| - 1][0] == chunks[0];
    assert (chunks + later)[0] == chunks[0] && (chunks + later)[1..] == chunks[1..] + later;
    if p.outcome == Indeterminate {
      var rest := chunks[1..];
      assert chunks[..|chunks| - 1][1..] == rest[..|rest| - 1];
      LaterResultsAreFresh(p.cfg, isHttp, rest, later);
    } else {
      assert chunks[1..] + later == later;
    }
  }
}
