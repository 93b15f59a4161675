/** Every text of the grammar is read to its end. */
module Completeness {
  import opened Text
  import opened ParserSpec
  import opened Grammar

  // ----- states that collect a run of similar bytes -----

  lemma {:induction false} EatVerb(t: string, d: Data)
    requires t != "" && Tokens(t) && d.verb == ""
    ensures Eats(Config(MethodStart, d), t, Config(Method, d.(verb := t)))
  {
    var u, c := t[..|t| - 1], t[|t| - 1];
    assert t == u + [c];
    if u == "" {
      EatsOne(Config(MethodStart, d), c, Config(Method, d.(verb := [c])));
    } else {
      EatVerb(u, d);
      EatsThen(Config(MethodStart, d), u, Config(Method, d.(verb := u)), c, Config(Method, d.(verb := t)));
    }
  }

  lemma {:induction false} EatUri(t: string, d: Data)
    requires Printable(t) && NoSpace(t) && d.uri == ""
    ensures Eats(Config(Uri, d), t, Config(Uri, d.(uri := t)))
  {
    if t == "" {
    } else {
      var u, c := t[..|t| - 1], t[|t| - 1];
      assert t == u + [c];
      EatUri(u, d);
      EatsThen(Config(Uri, d), u, Config(Uri, d.(uri := u)), c, Config(Uri, d.(uri := t)));
    }
  }

  lemma {:induction false} EatMajor(t: string, d: Data)
    requires t != "" && Digits(t) && DecValue(t) <= INT_MAX && d.versionMajor == 0
    ensures Eats(Config(VersionMajorStart, d), t, Config(VersionMajor, d.(versionMajor := DecValue(t))))
  {
    var u, c := t[..|t| - 1], t[|t| - 1];
    assert t == u + [c];
    DecValueSnoc(u, c);
    if u == "" {
      EatsOne(Config(VersionMajorStart, d), c, Config(VersionMajor, d.(versionMajor := DecValue(t))));
    } else {
      DecValueGrows(u, [c]);
      EatMajor(u, d);
      OneMoreMajor(d, DecValue(u), c);
      EatsThen(Config(VersionMajorStart, d), u, Config(VersionMajor, d.(versionMajor := DecValue(u))),
               c, Config(VersionMajor, d.(versionMajor := DecValue(t))));
    }
  }

  lemma OneMoreMajor(d: Data, v: nat, c: char)
    requires IsDigit(c) && v * 10 + DigitValue(c) <= INT_MAX
    ensures ByteStep(Config(VersionMajor, d.(versionMajor := v)), c)
         == Go(Config(VersionMajor, d.(versionMajor := v * 10 + DigitValue(c))))
  {
  }

  lemma {:induction false} EatMinor(t: string, d: Data)
    requires t != "" && Digits(t) && DecValue(t) <= INT_MAX && d.versionMinor == 0
    ensures Eats(Config(VersionMinorStart, d), t, Config(VersionMinor, d.(versionMinor := DecValue(t))))
  {
    var u, c := t[..|t| - 1], t[|t| - 1];
    assert t == u + [c];
    DecValueSnoc(u, c);
    if u == "" {
      EatsOne(Config(VersionMinorStart, d), c, Config(VersionMinor, d.(versionMinor := DecValue(t))));
    } else {
      DecValueGrows(u, [c]);
      EatMinor(u, d);
      OneMoreMinor(d, DecValue(u), c);
      EatsThen(Config(VersionMinorStart, d), u, Config(VersionMinor, d.(versionMinor := DecValue(u))),
               c, Config(VersionMinor, d.(versionMinor := DecValue(t))));
    }
  }

  lemma OneMoreMinor(d: Data, v: nat, c: char)
    requires IsDigit(c) && v * 10 + DigitValue(c) <= INT_MAX
    ensures ByteStep(Config(VersionMinor, d.(versionMinor := v)), c)
         == Go(Config(VersionMinor, d.(versionMinor := v * 10 + DigitValue(c))))
  {
  }

  /** The data with one more header than `hs`. */
  function WithHeader(d: Data, hs: seq<Header>, name: string, value: string): (r: Data)
    ensures r.headers != []
  {
    d.(headers := hs + [Header(name, value)])
  }

  lemma {:induction false} EatName(t: string, d: Data)
    requires t != "" && Tokens(t)
    ensures Eats(Config(HeaderLineStart, d), t, Config(HeaderName, WithHeader(d, d.headers, t, "")))
  {
    var u, c := t[..|t| - 1], t[|t| - 1];
    assert t == u + [c];
    var b := Config(HeaderName, WithHeader(d, d.headers, t, ""));
    if u == "" {
      EatsOne(Config(HeaderLineStart, d), c, b);
    } else {
      EatName(u, d);
      EatsThen(Config(HeaderLineStart, d), u, Config(HeaderName, WithHeader(d, d.headers, u, "")), c, b);
    }
  }

  lemma {:induction false} EatValue(t: string, d: Data, hs: seq<Header>, name: string, value: string)
    requires Printable(t)
    ensures Eats(Config(HeaderValue, WithHeader(d, hs, name, value)), t,
                 Config(HeaderValue, WithHeader(d, hs, name, value + t)))
  {
    var a := Config(HeaderValue, WithHeader(d, hs, name, value));
    if t == "" {
      assert value + t == value;
    } else {
      var u, c := t[..|t| - 1], t[|t| - 1];
      assert t == u + [c];
      assert value + t == value + u + [c];
      EatValue(u, d, hs, name, value);
      EatsThen(a, u, Config(HeaderValue, WithHeader(d, hs, name, value + u)), c,
               Config(HeaderValue, WithHeader(d, hs, name, value + t)));
    }
  }

  lemma {:induction false} EatBlank(t: string, d: Data)
    requires t != "" && Blank(t) && d.headers != []
    ensures Eats(Config(HeaderLineStart, d), t, Config(HeaderLws, d))
  {
    var u, c := t[..|t| - 1], t[|t| - 1];
    assert t == u + [c];
    if u == "" {
      EatsOne(Config(HeaderLineStart, d), c, Config(HeaderLws, d));
    } else {
      EatBlank(u, d);
      EatsThen(Config(HeaderLineStart, d), u, Config(HeaderLws, d), c, Config(HeaderLws, d));
    }
  }

  lemma {:induction false} EatBody(t: string, d: Data)
    requires d.content == "" && (d.contentLength < 0 || |t| < d.contentLength)
    ensures Eats(Config(Body, d), t, Config(Body, d.(content := t)))
  {
    if t == "" {
    } else {
      var u, c := t[..|t| - 1], t[|t| - 1];
      assert t == u + [c];
      EatBody(u, d);
      EatsThen(Config(Body, d), u, Config(Body, d.(content := u)), c, Config(Body, d.(content := t)));
    }
  }

  // ----- request line -----

  lemma EatSlash(d: Data)
    ensures Eats(Config(VersionH, d), "HTTP/", Config(VersionMajorStart, d))
  {
    var a := Config(VersionH, d);
    EatHTT(d);
    EatsThen(a, "HTT", Config(VersionP, d), 'P', Config(VersionSlash, d));
    EatsThen(a, "HTTP", Config(VersionSlash, d), '/', Config(VersionMajorStart, d));
    assert "HTTP/" == "HTTP" + ['/'];
  }

  lemma EatHTT(d: Data)
    ensures Eats(Config(VersionH, d), "HTT", Config(VersionP, d))
  {
    var a := Config(VersionH, d);
    EatsOne(a, 'H', Config(VersionT1, d));
    EatsThen(a, "H", Config(VersionT1, d), 'T', Config(VersionT2, d));
    EatsThen(a, "HT", Config(VersionT2, d), 'T', Config(VersionP, d));
  }

  lemma EatVersionStart(h: Head)
    requires WellFormedStart(h)
    ensures Eats(INITIAL, VersionStart(h), Config(VersionH, EMPTY.(verb := h.verb, uri := h.uri)))
  {
    var d := EMPTY.(verb := h.verb);
    EatVerb(h.verb, EMPTY);
    EatsThen(INITIAL, h.verb, Config(Method, d), ' ', Config(Uri, d));
    EatUri(h.uri, d);
    EatsConcat(INITIAL, h.verb + " ", Config(Uri, d), h.uri, Config(Uri, d.(uri := h.uri)));
    EatsThen(INITIAL, h.verb + " " + h.uri, Config(Uri, d.(uri := h.uri)), ' ', Config(VersionH, d.(uri := h.uri)));
  }

  lemma EatMajorDot(t: string, d: Data)
    requires WellFormedVersion(t) && d.versionMajor == 0
    ensures Eats(Config(VersionMajorStart, d), t + ".", Config(VersionMinorStart, d.(versionMajor := DecValue(t))))
  {
    var e := d.(versionMajor := DecValue(t));
    EatMajor(t, d);
    EatsThen(Config(VersionMajorStart, d), t, Config(VersionMajor, e), '.', Config(VersionMinorStart, e));
  }

  lemma EatMinorLine(t: string, d: Data)
    requires WellFormedVersion(t) && d.versionMinor == 0
    ensures Eats(Config(VersionMinorStart, d), t + "\r\n", Config(HeaderLineStart, d.(versionMinor := DecValue(t))))
  {
    var a, e := Config(VersionMinorStart, d), d.(versionMinor := DecValue(t));
    EatMinor(t, d);
    EatsThen(a, t, Config(VersionMinor, e), '\r', Config(ExpectingNewline1, e));
    EatsThen(a, t + "\r", Config(ExpectingNewline1, e), '\n', Config(HeaderLineStart, e));
    assert t + "\r" + "\n" == t + "\r\n";
  }

  /** Up to the slash. */
  lemma EatToVersion(h: Head)
    requires WellFormedStart(h)
    ensures Eats(INITIAL, VersionStart(h) + "HTTP/", Config(VersionMajorStart, EMPTY.(verb := h.verb, uri := h.uri)))
  {
    var d := EMPTY.(verb := h.verb, uri := h.uri);
    EatVersionStart(h);
    EatSlash(d);
    EatsConcat(INITIAL, VersionStart(h), Config(VersionH, d), "HTTP/", Config(VersionMajorStart, d));
  }

  /** Up to the dot. */
  lemma EatToMinor(h: Head)
    requires WellFormedStart(h) && WellFormedVersion(h.versionMajor)
    ensures Eats(INITIAL, VersionStart(h) + "HTTP/" + (h.versionMajor + "."),
                 Config(VersionMinorStart,
                        EMPTY.(verb := h.verb, uri := h.uri, versionMajor := DecValue(h.versionMajor))))
  {
    var d := EMPTY.(verb := h.verb, uri := h.uri);
    var e := d.(versionMajor := DecValue(h.versionMajor));
    EatToVersion(h);
    EatMajorDot(h.versionMajor, d);
    EatsConcat(INITIAL, VersionStart(h) + "HTTP/", Config(VersionMajorStart, d),
               h.versionMajor + ".", Config(VersionMinorStart, e));
  }

  lemma EatRequestLine(h: Head)
    requires WellFormedHead(h)
    ensures Eats(INITIAL, RequestLine(h), Config(HeaderLineStart, HeadData(h.(lines := []))))
  {
    var e := EMPTY.(verb := h.verb, uri := h.uri, versionMajor := DecValue(h.versionMajor));
    var f := e.(versionMinor := DecValue(h.versionMinor));
    EatToMinor(h);
    EatMinorLine(h.versionMinor, e);
    EatsConcat(INITIAL, VersionStart(h) + "HTTP/" + (h.versionMajor + "."), Config(VersionMinorStart, e),
               h.versionMinor + "\r\n", Config(HeaderLineStart, f));
    RequestLineJoin(h);
  }

  lemma RequestLineJoin(h: Head)
    ensures VersionStart(h) + "HTTP/" + (h.versionMajor + ".") + (h.versionMinor + "\r\n") == RequestLine(h)
  {
  }

  // ----- header lines -----

  /** A configuration inside a value: after some text, or in the white space of a fold. */
  predicate InValue(a: Config) { (a.state.HeaderValue? || a.state.HeaderLws?) && a.data.headers != [] }

  lemma {:induction false} EatFolds(fs: seq<Fold>, d: Data, hs: seq<Header>, name: string, value: string)
      returns (b: Config)
    requires forall i :: 0 <= i < |fs| ==> WellFormedFold(fs[i])
    ensures InValue(b) && b.data == WithHeader(d, hs, name, value + FoldedText(fs))
    ensures Eats(Config(HeaderValue, WithHeader(d, hs, name, value)), Folds(fs), b)
  {
    var a := Config(HeaderValue, WithHeader(d, hs, name, value));
    if fs == [] {
      b := a;
      assert value + "" == value;
    } else {
      var f, gs := fs[|fs| - 1], fs[..|fs| - 1];
      var m := EatFolds(gs, d, hs, name, value);
      b := EatFold(f, m, d, hs, name, value + FoldedText(gs));
      EatsConcat(a, Folds(gs), m, "\r\n" + f.lws + f.text, b);
      OneMoreFold(fs, value);
    }
  }

  lemma OneMoreFold(fs: seq<Fold>, value: string)
    requires fs != []
    ensures var f, gs := fs[|fs| - 1], fs[..|fs| - 1];
            && value + FoldedText(gs) + f.text == value + FoldedText(fs)
            && Folds(gs) + ("\r\n" + f.lws + f.text) == Folds(fs)
  {
    var f, gs := fs[|fs| - 1], fs[..|fs| - 1];
    assert value + FoldedText(gs) + f.text == value + (FoldedText(gs) + f.text);
    assert Folds(gs) + ("\r\n" + f.lws + f.text) == Folds(gs) + "\r\n" + f.lws + f.text;
  }

  lemma EatFold(f: Fold, m: Config, d: Data, hs: seq<Header>, name: string, v: string) returns (b: Config)
    requires WellFormedFold(f) && InValue(m) && m.data == WithHeader(d, hs, name, v)
    ensures InValue(b) && b.data == WithHeader(d, hs, name, v + f.text)
    ensures Eats(m, "\r\n" + f.lws + f.text, b)
  {
    EatLineEnd(m);
    var e := m.data;
    EatBlank(f.lws, e);
    EatsConcat(m, "\r\n", Config(HeaderLineStart, e), f.lws, Config(HeaderLws, e));
    b := EatFoldText(f.text, d, hs, name, v);
    EatsConcat(m, "\r\n" + f.lws, Config(HeaderLws, e), f.text, b);
  }

  lemma EatLineEnd(m: Config)
    requires InValue(m)
    ensures Eats(m, "\r\n", Config(HeaderLineStart, m.data))
  {
    var n := Config(ExpectingNewline2, m.data);
    EatsOne(m, '\r', n);
    EatsThen(m, "\r", n, '\n', Config(HeaderLineStart, m.data));
    assert "\r" + "\n" == "\r\n";
  }

  lemma EatFoldText(t: string, d: Data, hs: seq<Header>, name: string, v: string) returns (b: Config)
    requires Printable(t) && (t != "" ==> !IsLws(t[0]))
    ensures InValue(b) && b.data == WithHeader(d, hs, name, v + t)
    ensures Eats(Config(HeaderLws, WithHeader(d, hs, name, v)), t, b)
  {
    var a := Config(HeaderLws, WithHeader(d, hs, name, v));
    if t == "" {
      assert v + t == v;
      b := a;
    } else {
      var m := Config(HeaderValue, WithHeader(d, hs, name, v + [t[0]]));
      EatsOne(a, t[0], m);
      EatValue(t[1..], d, hs, name, v + [t[0]]);
      assert v + [t[0]] + t[1..] == v + t;
      assert [t[0]] + t[1..] == t;
      b := Config(HeaderValue, WithHeader(d, hs, name, v + t));
      EatsConcat(a, [t[0]], m, t[1..], b);
    }
  }

  lemma EatNameColon(name: string, d: Data)
    requires name != "" && Tokens(name)
    ensures Eats(Config(HeaderLineStart, d), name + ": ", Config(HeaderValue, WithHeader(d, d.headers, name, "")))
  {
    var a, e := Config(HeaderLineStart, d), WithHeader(d, d.headers, name, "");
    EatName(name, d);
    EatsThen(a, name, Config(HeaderName, e), ':', Config(SpaceBeforeHeaderValue, e));
    EatsThen(a, name + ":", Config(SpaceBeforeHeaderValue, e), ' ', Config(HeaderValue, e));
    assert name + ":" + " " == name + ": ";
  }

  lemma EatLine(l: Line, d: Data)
    requires WellFormedLine(l)
    ensures Eats(Config(HeaderLineStart, d), OpenLine(l) + "\r\n",
                 Config(HeaderLineStart, d.(headers := d.headers + [HeaderOf(l)])))
  {
    var a, hs := Config(HeaderLineStart, d), d.headers;
    EatNameColon(l.name, d);
    EatValue(l.first, d, hs, l.name, "");
    assert "" + l.first == l.first;
    var m := Config(HeaderValue, WithHeader(d, hs, l.name, l.first));
    EatsConcat(a, l.name + ": ", Config(HeaderValue, WithHeader(d, hs, l.name, "")), l.first, m);
    var b := EatFolds(l.folds, d, hs, l.name, l.first);
    EatsConcat(a, l.name + ": " + l.first, m, Folds(l.folds), b);
    EatLineEnd(b);
    EatsConcat(a, OpenLine(l), b, "\r\n", Config(HeaderLineStart, b.data));
  }

  lemma {:induction false} EatLines(ls: seq<Line>, d: Data)
    requires WellFormedLines(ls) && d.headers == []
    ensures Eats(Config(HeaderLineStart, d), Lines(ls), Config(HeaderLineStart, d.(headers := HeadersOf(ls))))
  {
    if ls == [] {
    } else {
      var ks, l := ls[..|ls| - 1], ls[|ls| - 1];
      EatLines(ks, d);
      var e := d.(headers := HeadersOf(ks));
      EatLine(l, e);
      EatsConcat(Config(HeaderLineStart, d), Lines(ks), Config(HeaderLineStart, e), OpenLine(l) + "\r\n",
                 Config(HeaderLineStart, d.(headers := HeadersOf(ls))));
      assert Lines(ks) + (OpenLine(l) + "\r\n") == Lines(ls);
    }
  }

  // ----- head and message -----

  /** Everything of a head but its last byte. */
  function HeadButLast(h: Head): string { RequestLine(h) + Lines(h.lines) + "\r" }

  lemma HeadTextSplit(h: Head)
    ensures HeadText(h) == HeadButLast(h) + ['\n']
  {
  }

  lemma EatHead(h: Head)
    requires WellFormedHead(h)
    ensures Eats(INITIAL, HeadButLast(h), Config(ExpectingNewline3, HeadData(h)))
  {
    EatRequestLine(h);
    var d := HeadData(h.(lines := []));
    EatLines(h.lines, d);
    EatsConcat(INITIAL, RequestLine(h), Config(HeaderLineStart, d), Lines(h.lines),
        Config(HeaderLineStart, HeadData(h)));
    EatsThen(INITIAL, RequestLine(h) + Lines(h.lines), Config(HeaderLineStart, HeadData(h)), '\r',
             Config(ExpectingNewline3, HeadData(h)));
  }

  /** A well-formed message is accepted at exactly its last byte, with the values the grammar gives it. */
  lemma MessageAccepted(m: Message)
    requires WellFormedMessage(m)
    ensures Run(INITIAL, MessageText(m)) == Halt(Good, Config(Body, MessageData(m)), |MessageText(m)|)
  {
    EatHead(m.head);
    HeadTextSplit(m.head);
    var s, a := HeadButLast(m.head), Config(ExpectingNewline3, HeadData(m.head));
    if m.body == "" {
      EatsStops(INITIAL, s, a, '\n');
      assert MessageText(m) == s + ['\n'];
    } else {
      EatsThen(INITIAL, s, a, '\n', Config(Body, HeadData(m.head).(contentLength := |m.body|)));
      BodyAccepted(m);
    }
  }

  lemma BodyAccepted(m: Message)
    requires WellFormedMessage(m) && m.body != ""
    requires Eats(INITIAL, HeadText(m.head), Config(Body, HeadData(m.head).(contentLength := |m.body|)))
    ensures Run(INITIAL, MessageText(m)) == Halt(Good, Config(Body, MessageData(m)), |MessageText(m)|)
  {
    var n := |m.body|;
    var u, c := m.body[..n - 1], m.body[n - 1];
    var e := HeadData(m.head).(contentLength := n);
    assert m.body == u + [c];
    EatBody(u, e);
    EatsConcat(INITIAL, HeadText(m.head), Config(Body, e), u, Config(Body, e.(content := u)));
    EatsStops(INITIAL, HeadText(m.head) + u, Config(Body, e.(content := u)), c);
    assert MessageText(m) == HeadText(m.head) + u + [c];
  }
}
