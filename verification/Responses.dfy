/** Printing a response, and reading its headers and body back with the request parser. */
module Responses {
  import opened Text
  import opened ParserSpec
  import opened Grammar
  import opened Completeness
  import opened Recognition

  datatype Response = Response(status: int, headers: map<string, string>, content: string)

  /** A default-constructed response: status `undefined`. */
  const NO_RESPONSE: Response := Response(0, map[], "")

  /** The reason phrase of the status codes the server knows. */
  function Reason(status: int): Option<string> {
    match status
    case 200 => Some("OK")
    case 201 => Some("Created")
    case 202 => Some("Accepted")
    case 204 => Some("No Content")
    case 300 => Some("Multiple Choices")
    case 301 => Some("Moved Permanently")
    case 302 => Some("Moved Temporarily")
    case 304 => Some("Not Modified")
    case 400 => Some("Bad Request")
    case 401 => Some("Unauthorized")
    case 403 => Some("Forbidden")
    case 404 => Some("Not Found")
    case 500 => Some("Internal Server Error")
    case 501 => Some("Not Implemented")
    case 502 => Some("Bad Gateway")
    case 503 => Some("Service Unavailable")
    case _ => None
  }

  /** `status_str_to_buffer`: every other code prints as an internal server error. */
  function StatusLine(status: int): string {
    if status == 101 then CodeLine('1', 101, "Switching Protocols")
    else
      match Reason(status)
      case Some(reason) => CodeLine('0', if status > 0 then status else 0, reason)
      case None => CodeLine('0', 500, "Internal Server Error")
  }

  function CodeLine(minor: char, code: nat, reason: string): string {
    "HTTP/1." + [minor] + " " + Decimal(code) + " " + reason + "\r\n"
  }

  /** `stock_reply_str`: a small page, none for 200; the page for 204 says "204 Content". */
  function StockPage(status: int): string {
    match Reason(status)
    case None => Page("Internal Server Error", "500 Internal Server Error")
    case Some(reason) =>
      if status == 200 then ""
      else if status == 204 then Page("No Content", "204 Content")
      else Page(reason, Decimal(if status > 0 then status else 0) + " " + reason)
  }

  function Page(title: string, heading: string): string {
    "<html><head><title>" + title + "</title></head><body><h1>" + heading + "</h1></body></html>"
  }

  function StockReply(status: int): Response {
    var page := StockPage(status);
    Response(status, map["Content-Length" := Decimal(|page|), "Content-Type" := "text/html"], page)
  }

  // ----- printing -----

  /** An iteration order of an `unordered_map`: every key once. */
  predicate IsOrder(order: seq<string>, headers: map<string, string>) {
    && (forall i, j :: 0 <= i < j < |order| ==> order[i] != order[j])
    && (forall k :: k in order ==> k in headers)
    && (forall k :: k in headers ==> k in order)
  }

  function HeaderList(order: seq<string>, headers: map<string, string>): seq<Header>
    requires forall k :: k in order ==> k in headers
  {
    if order == [] then []
    else HeaderList(order[..|order| - 1], headers) + [Header(order[|order| - 1], headers[order[|order| - 1]])]
  }

  function HeaderLines(hs: seq<Header>): string {
    if hs == [] then "" else HeaderLines(hs[..|hs| - 1]) + hs[|hs| - 1].name + ": " + hs[|hs| - 1].value + "\r\n"
  }

  /** What goes out, for an iteration order of the headers. */
  function ResponseText(r: Response, order: seq<string>): string
    requires IsOrder(order, r.headers)
  {
    StatusLine(r.status) + HeaderLines(HeaderList(order, r.headers)) + "\r\n" + r.content
  }

  /** `HTTPResponse::to_buffers`: the buffers of one gathered write. */
  method ToBuffers(r: Response, order: seq<string>) returns (buffers: seq<string>)
    requires IsOrder(order, r.headers)
    ensures Concat(buffers) == ResponseText(r, order)
    ensures buffers != [] && buffers[0] == StatusLine(r.status) && |buffers| == 4 * |order| + 3
  {
    buffers := [StatusLine(r.status)];
    NoHeadersYet(r, order);
    for i := 0 to |order|
      invariant |buffers| == 4 * i + 1 && buffers[0] == StatusLine(r.status)
      invariant PrintedSoFar(buffers, r, order, i)
    {
      ghost var before := buffers;
      buffers := buffers + [order[i]];
      buffers := buffers + [": "];
      buffers := buffers + [r.headers[order[i]]];
      buffers := buffers + ["\r\n"];
      assert buffers == before + [order[i], ": ", r.headers[order[i]], "\r\n"];
      OneMoreHeader(before, r, order, i);
    }
    ghost var before := buffers;
    buffers := buffers + ["\r\n"];
    buffers := buffers + [r.content];
    assert buffers == before + ["\r\n", r.content];
    AllHeaders(before, r, order);
  }

  /** The buffers so far hold the status line and the first `i` header lines. */
  predicate PrintedSoFar(buffers: seq<string>, r: Response, order: seq<string>, i: nat)
    requires IsOrder(order, r.headers) && i <= |order|
  {
    Concat(buffers) == StatusLine(r.status) + HeaderLines(HeaderList(order[..i], r.headers))
  }

  lemma NoHeadersYet(r: Response, order: seq<string>)
    requires IsOrder(order, r.headers)
    ensures PrintedSoFar([StatusLine(r.status)], r, order, 0)
  {
    assert [StatusLine(r.status)][1..] == [];
    assert StatusLine(r.status) + "" == StatusLine(r.status);
  }

  lemma OneMoreHeader(before: seq<string>, r: Response, order: seq<string>, i: nat)
    requires IsOrder(order, r.headers) && i < |order| && PrintedSoFar(before, r, order, i)
    ensures PrintedSoFar(before + [order[i], ": ", r.headers[order[i]], "\r\n"], r, order, i + 1)
  {
    var name, value := order[i], r.headers[order[i]];
    FourBuffers(before, name, value);
    HeaderListSnoc(order, r.headers, i);
    LineBehind(StatusLine(r.status), HeaderLines(HeaderList(order[..i], r.headers)), name, value);
  }

  lemma LineBehind(status: string, lines: string, name: string, value: string)
    ensures status + lines + name + ": " + value + "\r\n" == status + (lines + name + ": " + value + "\r\n")
  {
  }

  lemma AllHeaders(before: seq<string>, r: Response, order: seq<string>)
    requires IsOrder(order, r.headers) && PrintedSoFar(before, r, order, |order|)
    ensures Concat(before + ["\r\n", r.content]) == ResponseText(r, order)
  {
    assert order[..|order|] == order;
    ConcatAppend(before, ["\r\n", r.content]);
    ConcatTwo("\r\n", r.content);
    assert Concat(before) + ("\r\n" + r.content) == Concat(before) + "\r\n" + r.content;
  }

  lemma ConcatTwo(s: string, t: string)
    ensures Concat([s, t]) == s + t
  {
    assert [s, t][1..] == [t] && [t][1..] == [];
    assert Concat([t]) == t + "" == t;
  }

  lemma FourBuffers(before: seq<string>, name: string, value: string)
    ensures Concat(before + [name, ": ", value, "\r\n"]) == Concat(before) + name + ": " + value + "\r\n"
  {
    ConcatAppend(before, [name, ": ", value, "\r\n"]);
    ConcatAppend([name, ": "], [value, "\r\n"]);
    ConcatTwo(name, ": ");
    ConcatTwo(value, "\r\n");
    assert [name, ": ", value, "\r\n"] == [name, ": "] + [value, "\r\n"];
    var s := Concat(before);
    assert s + ((name + ": ") + (value + "\r\n")) == s + name + ": " + value + "\r\n";
  }

  lemma HeaderListSnoc(order: seq<string>, headers: map<string, string>, i: nat)
    requires i < |order| && forall k :: k in order ==> k in headers
    ensures HeaderLines(HeaderList(order[..i + 1], headers)) ==
            HeaderLines(HeaderList(order[..i], headers)) + order[i] + ": " + headers[order[i]] + "\r\n"
  {
    assert order[..i + 1][..i] == order[..i];
    var hs := HeaderList(order[..i], headers);
    assert (hs + [Header(order[i], headers[order[i]])])[..|hs|] == hs;
  }

  // ----- the status line -----

  datatype Status = Status(major: int, minor: int, code: int, reason: string)

  /** A reader of status lines (section 6.1 of RFC 2616): version, three digits, and a reason up to the line end. */
  function ReadStatusLine(s: string): Option<Status> {
    if |s| >= 15 && s[..5] == "HTTP/" && IsDigit(s[5]) && s[6] == '.' && IsDigit(s[7]) && s[8] == ' '
       && Digits(s[9..12]) && s[12] == ' ' && Printable(s[13..|s| - 2]) && s[|s| - 2..] == "\r\n"
      then Some(Status(DigitValue(s[5]), DigitValue(s[7]), DecValue(s[9..12]), s[13..|s| - 2]))
      else None
  }

  /** The codes with a status line of their own. */
  const KNOWN: set<int> := {200, 201, 202, 204, 300, 301, 302, 304, 400, 401, 403, 404, 500, 501, 502, 503}

  lemma {:induction false} ThreeDigits(n: nat)
    requires 100 <= n < 1000
    ensures Decimal(n) == [(48 + n / 100) as char, (48 + n / 10 % 10) as char, (48 + n % 10) as char]
  {
    assert Decimal(n / 100) == [(48 + n / 100) as char];
    assert Decimal(n / 10) == Decimal(n / 10 / 10) + [(48 + n / 10 % 10) as char];
    assert n / 10 / 10 == n / 100;
  }

  lemma LineReads(minor: char, code: nat, reason: string)
    requires IsDigit(minor) && 100 <= code < 1000 && Printable(reason)
    ensures ReadStatusLine(CodeLine(minor, code, reason)) == Some(Status(1, DigitValue(minor), code, reason))
  {
    var s, digits := CodeLine(minor, code, reason), Decimal(code);
    CodePrints(code);
    assert s[..5] == "HTTP/" && s[9..12] == digits;
    assert s[13..|s| - 2] == reason && s[|s| - 2..] == "\r\n";
  }

  lemma CodePrints(n: nat)
    requires 100 <= n < 1000
    ensures |Decimal(n)| == 3 && Digits(Decimal(n)) && DecValue(Decimal(n)) == n
  {
    ThreeDigits(n);
    DecValueOfDecimal(n);
  }

  /** The reason phrases, code by code. */
  predicate SaysReason(code: int, reason: string) {
    && (code == 101 ==> reason == "Switching Protocols")
    && (code == 200 ==> reason == "OK")
    && (code == 201 ==> reason == "Created")
    && (code == 202 ==> reason == "Accepted")
    && (code == 204 ==> reason == "No Content")
    && (code == 300 ==> reason == "Multiple Choices")
    && (code == 301 ==> reason == "Moved Permanently")
    && (code == 302 ==> reason == "Moved Temporarily")
    && (code == 304 ==> reason == "Not Modified")
    && (code == 400 ==> reason == "Bad Request")
    && (code == 401 ==> reason == "Unauthorized")
    && (code == 403 ==> reason == "Forbidden")
    && (code == 404 ==> reason == "Not Found")
    && (code == 500 ==> reason == "Internal Server Error")
    && (code == 501 ==> reason == "Not Implemented")
    && (code == 502 ==> reason == "Bad Gateway")
    && (code == 503 ==> reason == "Service Unavailable")
  }

  /** The status line of every response reads back: the code itself where it is known, with HTTP/1.0; the switching of
      protocols with HTTP/1.1; and 500 for every other code. */
  lemma StatusLineReads(status: int)
    ensures var r := ReadStatusLine(StatusLine(status));
            && r.Some? && r.value.major == 1 && r.value.minor == (if status == 101 then 1 else 0)
            && r.value.code == (if status == 101 || status in KNOWN then status else 500)
            && SaysReason(r.value.code, r.value.reason)
  {
    if status == 101 {
      LineReads('1', 101, "Switching Protocols");
    } else if status in KNOWN {
      KnownReasons(status);
      LineReads('0', status, Reason(status).value);
    } else {
      LineReads('0', 500, "Internal Server Error");
    }
  }

  lemma KnownReasons(status: int)
    requires status in KNOWN
    ensures 100 <= status < 1000 && Reason(status).Some? && Printable(Reason(status).value)
    ensures SaysReason(status, Reason(status).value)
  {
    assert status >= 300 ==> Printable(Reason(status).value) by {
      if status >= 300 { FailureReasons(status); }
    }
  }

  lemma FailureReasons(status: int)
    requires status in KNOWN && status >= 300
    ensures Reason(status).Some? && Printable(Reason(status).value)
  {
    assert status >= 400 ==> Reason(status).Some? && Printable(Reason(status).value) by {
      if status >= 400 { ErrorReasons(status); }
    }
  }

  lemma ErrorReasons(status: int)
    requires status in KNOWN && status >= 400
    ensures Reason(status).Some? && Printable(Reason(status).value)
  {
    assert status >= 500 ==> Reason(status).Some? && Printable(Reason(status).value) by {
      if status >= 500 { ServerReasons(status); }
    }
  }

  lemma ServerReasons(status: int)
    requires status in KNOWN && status >= 500
    ensures Reason(status).Some? && Printable(Reason(status).value)
  {
    assert status == 500 ==> Reason(status).Some? && Printable(Reason(status).value) by {
      if status == 500 { InternalErrorPrints(); }
    }
  }

  lemma InternalErrorPrints()
    ensures Printable("Internal Server Error")
  {
  }

  /** What a stock reply says of itself. */
  lemma StockReplySays(status: int)
    ensures var r := StockReply(status);
            && r.status == status && r.headers.Keys == {"Content-Length", "Content-Type"}
            && Stoi(r.headers["Content-Length"]) == Some(|r.content|) && r.headers["Content-Type"] == "text/html"
            && (r.content == "" <==> status == 200)
  {
    StockPageIsShort(status);
    StoiOfDecimal(|StockPage(status)|);
  }

  /** The page of a known code: the phrase for its title, the code and the phrase for its heading, but "204 Content";
      any other code has the page of an internal server error. */
  lemma StockPageSays(status: int) returns (title: string)
    requires status != 200
    ensures SaysReason(if status in KNOWN then status else 500, title)
    ensures Shows(StockPage(status), title,
                  if status == 204 then "204 Content"
                  else if status in KNOWN then Decimal(status) + " " + title
                  else "500 Internal Server Error")
  {
    if status in KNOWN {
      KnownReasons(status);
      title := Reason(status).value;
      PageShows(title, if status == 204 then "204 Content" else Decimal(status) + " " + title);
    } else {
      title := OtherPageSays(status);
    }
  }

  lemma OtherPageSays(status: int) returns (title: string)
    requires status !in KNOWN
    ensures SaysReason(500, title) && Shows(StockPage(status), title, "500 Internal Server Error")
  {
    title := "Internal Server Error";
    PageShows(title, "500 Internal Server Error");
  }

  /** The page has these texts in its title and heading elements. */
  predicate Shows(page: string, title: string, heading: string) {
    && |page| == |title| + |heading| + 63
    && page[12..19] == "<title>" && page[19..|title| + 19] == title && page[|title| + 19..|title| + 27] == "</title>"
    && page[|title| + 40..|title| + 44] == "<h1>" && page[|title| + 44..|page| - 19] == heading
  }

  lemma PageShows(title: string, heading: string)
    ensures Shows(Page(title, heading), title, heading)
  {
    var page := Page(title, heading);
    assert page[12..19] == "<title>" && page[19..|title| + 19] == title;
    assert page[|title| + 19..|title| + 27] == "</title>";
  }

  // ----- reading back -----

  predicate HeadersOk(hs: seq<Header>) {
    forall i :: 0 <= i < |hs| ==> hs[i].name != "" && Tokens(hs[i].name) && Printable(hs[i].value)
  }

  function LinesFor(hs: seq<Header>): (ls: seq<Line>)
    ensures |ls| == |hs|
  {
    if hs == [] then [] else LinesFor(hs[..|hs| - 1]) + [Line(hs[|hs| - 1].name, hs[|hs| - 1].value, [])]
  }

  lemma {:induction false} LinesForText(hs: seq<Header>)
    ensures Lines(LinesFor(hs)) == HeaderLines(hs)
  {
    if hs == [] {
    } else {
      var gs, h := hs[..|hs| - 1], hs[|hs| - 1];
      LinesForText(gs);
      LinesSnoc(LinesFor(gs), Line(h.name, h.value, []));
      PlainLineText(HeaderLines(gs), h);
    }
  }

  lemma PlainLineText(before: string, h: Header)
    ensures before + OpenLine(Line(h.name, h.value, [])) + "\r\n" == before + h.name + ": " + h.value + "\r\n"
  {
    var l := h.name + ": " + h.value;
    assert OpenLine(Line(h.name, h.value, [])) == l + "" == l;
    assert before + l == before + h.name + ": " + h.value;
  }

  lemma {:induction false} LinesForHeaders(hs: seq<Header>)
    ensures HeadersOf(LinesFor(hs)) == hs
  {
    if hs == [] {
    } else {
      var gs, h := hs[..|hs| - 1], hs[|hs| - 1];
      LinesForHeaders(gs);
      LinesSnoc(LinesFor(gs), Line(h.name, h.value, []));
      assert FoldedText([]) == "" && h.value + "" == h.value;
    }
  }

  lemma {:induction false} LinesForWellFormed(hs: seq<Header>)
    requires HeadersOk(hs)
    ensures WellFormedLines(LinesFor(hs))
  {
    if hs == [] {
    } else {
      LinesForWellFormed(hs[..|hs| - 1]);
    }
  }

  /** Headers as the parser stores them always have token names and control-free values. */
  lemma {:induction false} ParsedHeadersOk(ls: seq<Line>)
    requires WellFormedLines(ls)
    ensures HeadersOk(HeadersOf(ls))
  {
    if ls == [] {
    } else {
      var ks, l := ls[..|ls| - 1], ls[|ls| - 1];
      ParsedHeadersOk(ks);
      FoldedTextPrintable(l.folds);
    }
  }

  lemma {:induction false} FoldedTextPrintable(fs: seq<Fold>)
    requires forall i :: 0 <= i < |fs| ==> WellFormedFold(fs[i])
    ensures Printable(FoldedText(fs))
  {
    if fs == [] {
    } else {
      FoldedTextPrintable(fs[..|fs| - 1]);
    }
  }

  /** The printed headers and body behind a request line. */
  function AsRequest(h: Head, hs: seq<Header>, body: string): string {
    RequestLine(h) + HeaderLines(hs) + "\r\n" + body
  }

  /** The request parser takes the text good at its last byte and finds these headers and this body. */
  predicate ReadsBack(text: string, hs: seq<Header>, body: string) {
    Accepts(text) && Run(INITIAL, text).cfg.data.headers == hs && Run(INITIAL, text).cfg.data.content == body
  }

  lemma PrintedIsMessage(h: Head, hs: seq<Header>, body: string)
    ensures AsRequest(h, hs, body) == MessageText(Message(h.(lines := LinesFor(hs)), body))
  {
    LinesForText(hs);
  }

  /** Headers and a body print to something that reads back as themselves exactly when the names are
      tokens, the values have no control characters, and the first Content-Length, if there is one,
      converts to the size of the body, which is otherwise empty. */
  lemma PrintedReadsBack(h: Head, hs: seq<Header>, body: string)
    requires WellFormedHead(h)
    ensures ReadsBack(AsRequest(h, hs, body), hs, body) <==>
            HeadersOk(hs) && AnnouncedLength(hs) == Some(|body|)
  {
    var text := AsRequest(h, hs, body);
    var m := Message(h.(lines := LinesFor(hs)), body);
    PrintedIsMessage(h, hs, body);
    LinesForHeaders(hs);
    if HeadersOk(hs) && AnnouncedLength(hs) == Some(|body|) {
      LinesForWellFormed(hs);
      assert WellFormedMessage(m);
      MessageAccepted(m);
    }
    if ReadsBack(text, hs, body) {
      var m' := AcceptedIsMessage(text);
      ParsedHeadersOk(m'.head.lines);
    }
  }

  /** The same for a response and any iteration order: what follows its status line, put behind a request line. */
  lemma ResponseReadsBack(r: Response, order: seq<string>, h: Head)
    requires IsOrder(order, r.headers) && WellFormedHead(h)
    ensures var printed, hs := ResponseText(r, order)[|StatusLine(r.status)|..], HeaderList(order, r.headers);
            ReadsBack(RequestLine(h) + printed, hs, r.content) <==>
            HeadersOk(hs) && AnnouncedLength(hs) == Some(|r.content|)
  {
    PrintedBehind(StatusLine(r.status), HeaderLines(HeaderList(order, r.headers)), r.content, RequestLine(h));
    PrintedReadsBack(h, HeaderList(order, r.headers), r.content);
  }

  lemma PrintedBehind(status: string, lines: string, content: string, start: string)
    ensures start + (status + lines + "\r\n" + content)[|status|..] == start + lines + "\r\n" + content
  {
    assert (status + lines + "\r\n" + content)[|status|..] == lines + "\r\n" + content;
  }

  lemma {:induction false} HeaderListFacts(order: seq<string>, headers: map<string, string>)
    requires forall k :: k in order ==> k in headers
    ensures var hs := HeaderList(order, headers);
            |hs| == |order| && forall i :: 0 <= i < |order| ==> hs[i] == Header(order[i], headers[order[i]])
  {
    if order == [] {
    } else {
      HeaderListFacts(order[..|order| - 1], headers);
    }
  }

  /** The first Content-Length is the one there is, if only one key spells it. */
  lemma {:induction false} OnlyContentLength(hs: seq<Header>, i: nat)
    requires i < |hs| && EqualIgnoringCase(hs[i].name, "Content-Length")
    requires forall j :: 0 <= j < i ==> !EqualIgnoringCase(hs[j].name, "Content-Length")
    ensures FirstContentLength(hs) == Some(hs[i].value)
    decreases i
  {
    if i == 0 {
    } else {
      assert !EqualIgnoringCase(hs[0].name, "Content-Length");
      OnlyContentLength(hs[1..], i - 1);
    }
  }

  lemma StockNames()
    ensures Tokens("Content-Length") && Tokens("Content-Type") && Printable("text/html")
    ensures !EqualIgnoringCase("Content-Type", "Content-Length")
  {
    assert |Lower("Content-Type")| == 12 && |Lower("Content-Length")| == 14;
  }

  lemma DigitsArePrintable(s: string)
    requires Digits(s)
    ensures Printable(s)
  {
  }

  /** Every stock reply, in either header order, reads back as itself behind any request line. */
  lemma StockReplyReadsBack(status: int, order: seq<string>, h: Head)
    requires IsOrder(order, StockReply(status).headers) && WellFormedHead(h)
    ensures var r := StockReply(status);
            ReadsBack(AsRequest(h, HeaderList(order, r.headers), r.content), HeaderList(order, r.headers), r.content)
  {
    var r := StockReply(status);
    StockHeadersOk(status, order);
    StockLengthIsFirst(status, order);
    StockPageIsShort(status);
    StoiOfDecimal(|r.content|);
    PrintedReadsBack(h, HeaderList(order, r.headers), r.content);
  }

  lemma StockPageIsShort(status: int)
    ensures |StockPage(status)| < 200
  {
    var n := if status > 0 then status else 0;
    assert Reason(status).Some? ==> status < 1000 && |Reason(status).value| < 30;
    if n < 1000 {
      DecimalIsShort(n);
    }
  }

  lemma DecimalIsShort(n: nat)
    requires n < 1000
    ensures |Decimal(n)| <= 3
  {
    assert n >= 10 ==> |Decimal(n)| == |Decimal(n / 10)| + 1;
    assert n >= 100 ==> |Decimal(n / 10)| == |Decimal(n / 10 / 10)| + 1;
  }

  lemma StockHeadersOk(status: int, order: seq<string>)
    requires IsOrder(order, StockReply(status).headers)
    ensures HeadersOk(HeaderList(order, StockReply(status).headers))
  {
    HeaderListFacts(order, StockReply(status).headers);
    StockNames();
    DigitsArePrintable(Decimal(|StockPage(status)|));
    assert forall i :: 0 <= i < |order| ==> order[i] in order;
  }

  lemma StockLengthIsFirst(status: int, order: seq<string>)
    requires IsOrder(order, StockReply(status).headers)
    ensures FirstContentLength(HeaderList(order, StockReply(status).headers)) == Some(Decimal(|StockPage(status)|))
  {
    var headers := StockReply(status).headers;
    HeaderListFacts(order, headers);
    StockNames();
    assert "Content-Length" in order;
    var i :| 0 <= i < |order| && order[i] == "Content-Length";
    forall j | 0 <= j < i ensures !EqualIgnoringCase(order[j], "Content-Length") {
      assert order[j] in order;
    }
    OnlyContentLength(HeaderList(order, headers), i);
  }
}
