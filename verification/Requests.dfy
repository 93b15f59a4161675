/** A parsed request and how it is filled in from the parser's data. */
module Requests {
  import opened Text
  import opened ParserSpec
  import opened Cookies

  /** The value of an `HTTPRequest`.  The URI is kept as the text handed to the `Uri` class. */
  datatype Request = Request(
    verb: string, versionMajor: int, versionMinor: int, isHttp: bool,
    headers: map<string, string>, cookies: map<string, Cookie>, content: string, uri: string)

  /** A default-constructed request, told which kind of socket it came from. */
  function FreshRequest(isHttp: bool): Request { Request("", 0, 0, isHttp, map[], map[], "", "") }

  // ----- header and cookie maps: the first of equal names stays -----

  function InsertHeaders(m: map<string, string>, hs: seq<Header>): map<string, string>
    decreases |hs|
  {
    if hs == [] then m
    else
      var k := Lower(hs[0].name);
      InsertHeaders(if k in m then m else m[k := hs[0].value], hs[1..])
  }

  function InsertCookies(m: map<string, Cookie>, cs: seq<Cookie>): map<string, Cookie>
    decreases |cs|
  {
    if cs == [] then m
    else InsertCookies(if cs[0].name in m then m else m[cs[0].name := cs[0]], cs[1..])
  }

  /** The value of the first header whose name, lower-cased, is `k`. */
  function FirstHeader(hs: seq<Header>, k: string): Option<string> {
    if hs == [] then None
    else if Lower(hs[0].name) == k then Some(hs[0].value)
    else FirstHeader(hs[1..], k)
  }

  function FirstPair(ps: seq<Pair>, name: string): Option<Pair> {
    if ps == [] then None else if ps[0].name == name then Some(ps[0]) else FirstPair(ps[1..], name)
  }

  function Lookup<T>(m: map<string, T>, k: string): Option<T> { if k in m then Some(m[k]) else None }

  lemma {:induction false} InsertHeadersKeepsFirst(m: map<string, string>, hs: seq<Header>, k: string)
    ensures Lookup(InsertHeaders(m, hs), k) == if k in m then Some(m[k]) else FirstHeader(hs, k)
    decreases |hs|
  {
    if hs == [] {
    } else {
      var n := Lower(hs[0].name);
      InsertHeadersKeepsFirst(if n in m then m else m[n := hs[0].value], hs[1..], k);
    }
  }

  /** The entry of a name: the one that was there, or a plain cookie of the first such pair, or none. */
  predicate EntryIsFirst(m: map<string, Cookie>, m': map<string, Cookie>, ps: seq<Pair>, k: string) {
    if k in m then k in m' && m'[k] == m[k]
    else
      match FirstPair(ps, k)
      case None => k !in m'
      case Some(p) => k in m' && IsPlain(m'[k], k, p.value)
  }

  lemma {:induction false} InsertCookiesKeepsFirst(m: map<string, Cookie>, ps: seq<Pair>, k: string)
    ensures EntryIsFirst(m, InsertCookies(m, CookiesOf(ps)), ps, k)
    decreases |ps|
  {
    if ps == [] {
      assert CookiesOf(ps) == [];
    } else {
      var c := CookieOf(ps[0]);
      assert CookiesOf(ps)[1..] == CookiesOf(ps[1..]);
      InsertCookiesKeepsFirst(if c.name in m then m else m[c.name := c], ps[1..], k);
    }
  }

  // ----- questions about a request -----

  function GetCookie(r: Request, name: string): Cookie {
    if name in r.cookies then r.cookies[name] else NO_COOKIE
  }

  predicate IsWSUpgrade(r: Request) { UpgradeHeaders(r.headers) }

  predicate UpgradeHeaders(h: map<string, string>) {
    && "upgrade" in h && "connection" in h
    && EqualIgnoringCase(h["upgrade"], "websocket")
    && (EqualIgnoringCase(h["connection"], "Upgrade") || EqualIgnoringCase(h["connection"], "keep-alive, Upgrade"))
  }

  /** The scheme of an assembled URI: what stands before the first colon. */
  function Scheme(uri: string): string {
    if uri == "" || uri[0] == ':' then "" else [uri[0]] + Scheme(uri[1..])
  }

  /** The answer of `isWSHandshake`; `None` when `std::stoi` throws on the version header. */
  function IsWSHandshake(r: Request): Option<bool> {
    if !IsWSUpgrade(r) || !IsWSScheme(Scheme(r.uri)) then Some(false)
    else if "sec-websocket-key" !in r.headers || "sec-websocket-version" !in r.headers then Some(false)
    else if r.headers["sec-websocket-key"] == "" then Some(false)
    else
      match Stoi(r.headers["sec-websocket-version"])
      case None => None
      case Some(v) => Some(v >= 13)
  }

  function Proto(upgrade: bool, isHttp: bool): string {
    if upgrade then (if isHttp then "ws" else "wss") else (if isHttp then "http" else "https")
  }

  lemma SchemeOfProto(upgrade: bool, isHttp: bool, host: string, fragment: string)
    ensures Scheme(Proto(upgrade, isHttp) + "://" + host + fragment) == Proto(upgrade, isHttp)
  {
    var p, rest := Proto(upgrade, isHttp), "://" + host + fragment;
    SchemeBefore(p, rest);
    assert p + "://" + host + fragment == p + rest;
  }

  predicate IsWSScheme(s: string) { s == "ws" || s == "wss" }

  lemma WSProtoIsUpgrade(upgrade: bool, isHttp: bool)
    ensures IsWSScheme(Proto(upgrade, isHttp)) <==> upgrade
  {
    assert "http"[0] == 'h' && "https"[0] == 'h' && "ws"[0] == 'w' && "wss"[0] == 'w';
  }

  lemma {:induction false} SchemeBefore(s: string, rest: string)
    requires ':' !in s && rest != "" && rest[0] == ':'
    ensures Scheme(s + rest) == s
  {
    if s != "" {
      assert (s + rest)[1..] == s[1..] + rest;
      SchemeBefore(s[1..], rest);
    } else {
      assert s + rest == rest;
    }
  }

  // ----- filling in -----

  /** `fill_request` up to the URI.  Cookies and content are added to what the request had. */
  function Filled(r: Request, d: Data): Request {
    var hs := InsertHeaders(map[], d.headers);
    var cookies := if "cookie" in hs then InsertCookies(r.cookies, CookiesOf(Scan(hs["cookie"]))) else r.cookies;
    var hs' := hs - {"cookie"};
    var content := if "content-length" in hs' && |d.content| == d.contentLength then d.content else r.content;
    Request(d.verb, d.versionMajor, d.versionMinor, r.isHttp, hs', cookies, content, r.uri)
  }

  /** `assembleUri`: the request with its URI, and whether it had a Host; without one
      `std::out_of_range` is thrown and the URI stays as it was. */
  function WithUri(f: Request, fragment: string): (Request, bool) {
    if "host" in f.headers
      then (f.(uri := Proto(IsWSUpgrade(f), f.isHttp) + "://" + f.headers["host"] + fragment), true)
      else (f, false)
  }

  function Fill(r: Request, d: Data): (Request, bool) { WithUri(Filled(r, d), d.uri) }

  /** An `HTTPRequest` object, filled in place. */
  class HTTPRequest {
    var verb: string
    var versionMajor: int
    var versionMinor: int
    var isHttp: bool
    var headers: map<string, string>
    var cookies: map<string, Cookie>
    var content: string
    var uri: string

    constructor (isHttp: bool)
      ensures View() == FreshRequest(isHttp)
    {
      verb, versionMajor, versionMinor, this.isHttp := "", 0, 0, isHttp;
      headers, cookies, content, uri := map[], map[], "", "";
    }

    function View(): Request
      reads this
    {
      Request(verb, versionMajor, versionMinor, isHttp, headers, cookies, content, uri)
    }

    method InsertAllHeaders(hs: seq<Header>)
      modifies this`headers
      ensures headers == InsertHeaders(old(headers), hs)
    {
      for i := 0 to |hs|
        invariant InsertHeaders(headers, hs[i..]) == InsertHeaders(old(headers), hs)
      {
        var k := Lower(hs[i].name);
        assert hs[i..][1..] == hs[i + 1..];
        if k !in headers {
          headers := headers[k := hs[i].value];
        }
      }
    }

    method InsertAllCookies(cs: seq<Cookie>)
      modifies this`cookies
      ensures cookies == InsertCookies(old(cookies), cs)
    {
      for i := 0 to |cs|
        invariant InsertCookies(cookies, cs[i..]) == InsertCookies(old(cookies), cs)
      {
        assert cs[i..][1..] == cs[i + 1..];
        if cs[i].name !in cookies {
          cookies := cookies[cs[i].name := cs[i]];
        }
      }
    }

    /** `HTTPParser::fill_request`; false stands for the exception of `assembleUri`. */
    method FillFrom(d: Data) returns (hasHost: bool)
      modifies this
      ensures (View(), hasHost) == Fill(old(View()), d)
    {
      headers := map[];
      InsertAllHeaders(d.headers);
      verb, versionMajor, versionMinor := d.verb, d.versionMajor, d.versionMinor;
      MoveCookies();
      if "content-length" in headers && |d.content| == d.contentLength {
        content := d.content;
      }
      assert View() == Filled(old(View()), d);
      hasHost := AssembleUri(d.uri);
    }

    /** The Cookie header leaves the headers and becomes cookies. */
    method MoveCookies()
      modifies this`headers, this`cookies
      ensures headers == old(headers) - {"cookie"}
      ensures cookies == if "cookie" in old(headers)
          then InsertCookies(old(cookies), CookiesOf(Scan(old(headers)["cookie"])))
                         else old(cookies)
    {
      if "cookie" in headers {
        var found := FromString(headers["cookie"]);
        InsertAllCookies(found);
        headers := headers - {"cookie"};
      } else {
        assert headers == headers - {"cookie"};
      }
    }

    method AssembleUri(fragment: string) returns (hasHost: bool)
      modifies this`uri
      ensures (View(), hasHost) == WithUri(old(View()), fragment)
    {
      var text := if IsWSUpgrade(View()) then (if isHttp then "ws" else "wss")
          else (if isHttp then "http" else "https");
      text := text + "://";
      if "host" !in headers {
        return false;
      }
      text := text + headers["host"];
      text := text + fragment;
      uri := text;
      return true;
    }
  }

  // ----- coherence of body and headers -----

  lemma {:induction false} FirstContentLengthIsFirstHeader(hs: seq<Header>)
    ensures FirstContentLength(hs) == FirstHeader(hs, "content-length")
  {
    LowerContentLength();
    if hs != [] {
      FirstContentLengthIsFirstHeader(hs[1..]);
    }
  }

  lemma LowerContentLength()
    ensures Lower("Content-Length") == "content-length"
  {
  }

  /** Data as a good run leaves them: framed by the first Content-Length, empty without one. */
  predicate Framed(d: Data) {
    match FirstContentLength(d.headers)
    case None => d.content == "" && d.contentLength == 0
    case Some(v) => Stoi(v) == Some(d.contentLength) && |d.content| == d.contentLength
  }

  lemma GoodStepIsFramed(cfg: Config, c: char)
    requires Sound(cfg) && Kept(cfg) && ByteStep(cfg, c).Stop? && ByteStep(cfg, c).outcome == Good
    ensures Framed(ByteStep(cfg, c).cfg.data)
  {
  }

  /** What every configuration reached from a new parser satisfies about the length. */
  predicate Kept(cfg: Config) {
    if cfg.state.Body? then
      var v := FirstContentLength(cfg.data.headers);
      v.Some? && Stoi(v.value) == Some(cfg.data.contentLength)
    else cfg.data.content == "" && cfg.data.contentLength == 0
  }

  lemma {:induction false} GoodRunIsFramed(cfg: Config, s: string)
    requires Sound(cfg) && Kept(cfg) && Run(cfg, s).outcome == Good
    ensures Framed(Run(cfg, s).cfg.data)
    decreases |s|
  {
    var m := ByteStep(cfg, s[0]);
    if m.Stop? {
      GoodStepIsFramed(cfg, s[0]);
    } else {
      StepKeeps(cfg, s[0]);
      GoodRunIsFramed(m.cfg, s[1..]);
    }
  }

  lemma StepKeeps(cfg: Config, c: char)
    requires Sound(cfg) && Kept(cfg) && ByteStep(cfg, c).Go?
    ensures Kept(ByteStep(cfg, c).cfg)
  {
  }

  /** On every good run into a fresh request, the body is the whole accumulated content, and the
      length that framed it is the one the request's headers show. */
  lemma BodyAndHeadersAgree(s: string, isHttp: bool)
    requires Run(INITIAL, s).outcome == Good
    ensures var d := Run(INITIAL, s).cfg.data;
            var r := Fill(FreshRequest(isHttp), d).0;
            && r.content == d.content
            && match Lookup(r.headers, "content-length")
               case Some(v) => Stoi(v) == Some(|r.content|)
               case None => r.content == ""
  {
    var d := Run(INITIAL, s).cfg.data;
    GoodRunIsFramed(INITIAL, s);
    FirstContentLengthIsFirstHeader(d.headers);
    InsertHeadersKeepsFirst(map[], d.headers, "content-length");
  }

  /** Every header but the cookies is found under its lower-cased name, the first of equal names. */
  lemma HeadersAreFirst(d: Data, isHttp: bool, k: string)
    ensures var r := Fill(FreshRequest(isHttp), d).0;
            Lookup(r.headers, k) == if k == "cookie" then None else FirstHeader(d.headers, k)
  {
    InsertHeadersKeepsFirst(map[], d.headers, k);
  }

  /** The value of the first pair of that name in the first Cookie header. */
  function FirstCookieValue(hs: seq<Header>, name: string): Option<string> {
    match FirstHeader(hs, "cookie")
    case None => None
    case Some(v) => match FirstPair(Scan(v), name) { case None => None case Some(p) => Some(p.value) }
  }

  /** `getCookie` returns the first pair of that name in the first Cookie header, and else an empty cookie. */
  lemma CookiesAreFirst(d: Data, isHttp: bool, name: string)
    ensures var c, v := GetCookie(Fill(FreshRequest(isHttp), d).0, name), FirstCookieValue(d.headers, name);
            if v.Some? then IsPlain(c, name, v.value) else IsPlain(c, "", "")
  {
    InsertHeadersKeepsFirst(map[], d.headers, "cookie");
    var v := FirstHeader(d.headers, "cookie");
    if v.Some? {
      InsertCookiesKeepsFirst(map[], Scan(v.value), name);
    }
  }

  /** The scheme of an assembled request tells exactly whether it asks for an upgrade, so the scheme
      test in `isWSHandshake` never fails by itself. */
  lemma SchemeTellsUpgrade(d: Data, isHttp: bool)
    requires Fill(FreshRequest(isHttp), d).1
    ensures var r := Fill(FreshRequest(isHttp), d).0;
            IsWSScheme(Scheme(r.uri)) <==> IsWSUpgrade(r)
  {
    var r := Fill(FreshRequest(isHttp), d).0;
    SchemeOfProto(IsWSUpgrade(r), isHttp, r.headers["host"], d.uri);
    WSProtoIsUpgrade(IsWSUpgrade(r), isHttp);
  }
}
