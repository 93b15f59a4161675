/** Whatever the automaton has read so far is the beginning of a text of the grammar. */
module Soundness {
  import opened Text
  import opened ParserSpec
  import opened Grammar
  import opened Completeness

  /** A configuration together with the pieces of text it was built from. */
  datatype Partial = Partial(state: State, head: Head, body: string)

  const NO_HEAD: Head := Head("", "", "", "", [])

  const START: Partial := Partial(MethodStart, NO_HEAD, "")

  predicate BeforeMajor(s: State) {
    s in {VersionH, VersionT1, VersionT2, VersionP, VersionSlash, VersionMajorStart}
  }

  predicate InMajor(s: State) { s.VersionMajor? || s.VersionMinorStart? }

  predicate InHeaders(s: State) {
    s in {HeaderLineStart, HeaderLws, HeaderName, SpaceBeforeHeaderValue, HeaderValue,
          ExpectingNewline2, ExpectingNewline3, Body}
  }

  function LastLine(h: Head): Line
    requires h.lines != []
  {
    h.lines[|h.lines| - 1]
  }

  /** The pieces are well formed as far as they go. */
  predicate Consistent(p: Partial) {
    var h := p.head;
    && Tokens(h.verb) && Printable(h.uri) && NoSpace(h.uri)
    && (h.verb == "" <==> p.state.MethodStart?)
    && (p.state.MethodStart? || p.state.Method? ==> h.uri == "")
    && (p.state.MethodStart? || p.state.Method? || p.state.Uri? || BeforeMajor(p.state) ==> h.versionMajor == "")
    && (InMajor(p.state) || p.state.MethodStart? || p.state.Method? || p.state.Uri? || BeforeMajor(p.state) ==>
          h.versionMinor == "")
    && (InMajor(p.state) ==> WellFormedVersion(h.versionMajor))
    && (p.state.VersionMinor? || p.state.ExpectingNewline1? || InHeaders(p.state) ==>
          WellFormedVersion(h.versionMajor) && WellFormedVersion(h.versionMinor))
    && WellFormedLines(h.lines)
    && (!InHeaders(p.state) ==> h.lines == [])
    && LineConsistent(p)
    && (!p.state.Body? ==> p.body == "")
    && (p.state.Body? ==>
          var n := AnnouncedLength(HeadersOf(h.lines));
          n.Some? && n.value != 0 && (n.value > 0 ==> |p.body| < n.value))
  }

  /** What the state says about the last line. */
  predicate LineConsistent(p: Partial) {
    var h := p.head;
    match p.state
    case HeaderName => h.lines != [] && LastLine(h).first == "" && LastLine(h).folds == []
    case SpaceBeforeHeaderValue => h.lines != [] && LastLine(h).first == "" && LastLine(h).folds == []
    case HeaderLws =>
      && h.lines != [] && LastLine(h).folds != []
      && LastLine(h).folds[|LastLine(h).folds| - 1].text == ""
    case HeaderValue =>
      && h.lines != []
      && (LastLine(h).folds != [] ==> LastLine(h).folds[|LastLine(h).folds| - 1].text != "")
    case ExpectingNewline2 => h.lines != []
    case _ => true
  }

  function LengthIn(p: Partial): int {
    if p.state.Body? then
      match AnnouncedLength(HeadersOf(p.head.lines)) { case Some(n) => n case None => 0 }
    else 0
  }

  /** The configuration the pieces stand for. */
  function Forget(p: Partial): Config {
    Config(p.state, HeadData(p.head).(content := p.body, contentLength := LengthIn(p)))
  }

  /** The text read so far. */
  function Shown(p: Partial): string
    requires Consistent(p)
  {
    var h := p.head;
    match p.state
    case MethodStart => ""
    case Method => h.verb
    case Uri => h.verb + " " + h.uri
    case VersionH => VersionStart(h)
    case VersionT1 => VersionStart(h) + "H"
    case VersionT2 => VersionStart(h) + "HT"
    case VersionP => VersionStart(h) + "HTT"
    case VersionSlash => VersionStart(h) + "HTTP"
    case VersionMajorStart => VersionStart(h) + "HTTP/"
    case VersionMajor => VersionStart(h) + "HTTP/" + h.versionMajor
    case VersionMinorStart => VersionStart(h) + "HTTP/" + h.versionMajor + "."
    case VersionMinor => VersionStart(h) + "HTTP/" + h.versionMajor + "." + h.versionMinor
    case ExpectingNewline1 => VersionStart(h) + "HTTP/" + h.versionMajor + "." + h.versionMinor + "\r"
    case HeaderLineStart => RequestLine(h) + Lines(h.lines)
    case HeaderName => ClosedPart(h) + LastLine(h).name
    case SpaceBeforeHeaderValue => ClosedPart(h) + LastLine(h).name + ":"
    case HeaderLws => ClosedPart(h) + OpenLine(LastLine(h))
    case HeaderValue => ClosedPart(h) + OpenLine(LastLine(h))
    case ExpectingNewline2 => ClosedPart(h) + OpenLine(LastLine(h)) + "\r"
    case ExpectingNewline3 => HeadButLast(h)
    case Body => HeadText(h) + p.body
  }

  /** Everything before the last line. */
  function ClosedPart(h: Head): string
    requires h.lines != []
  {
    RequestLine(h) + Lines(h.lines[..|h.lines| - 1])
  }

  function WithLast(h: Head, l: Line): Head
    requires h.lines != []
  {
    h.(lines := h.lines[..|h.lines| - 1] + [l])
  }

  /** The last line with one more character of text, in the fold if there is one. */
  function LengthenLine(l: Line, c: char): Line {
    if l.folds == [] then l.(first := l.first + [c])
    else
      var f := l.folds[|l.folds| - 1];
      l.(folds := l.folds[..|l.folds| - 1] + [f.(text := f.text + [c])])
  }

  /** The last line with one more character of white space in its last fold. */
  function LengthenLws(l: Line, c: char): Line
    requires l.folds != []
  {
    var f := l.folds[|l.folds| - 1];
    l.(folds := l.folds[..|l.folds| - 1] + [f.(lws := f.lws + [c])])
  }

  /** One byte: the pieces follow the automaton and the text grows by exactly that byte. */
  predicate Follows(p: Partial, c: char, q: Partial) {
    && Consistent(p) && Consistent(q)
    && Sound(Forget(p)) && ByteStep(Forget(p), c) == Go(Forget(q))
    && Shown(q) == Shown(p) + [c]
  }

  predicate Moves(p: Partial, c: char) {
    Consistent(p) && Sound(Forget(p)) && ByteStep(Forget(p), c).Go?
  }

  lemma LastOfLines(ls: seq<Line>, l: Line)
    requires ls != []
    ensures var ks := ls[..|ls| - 1] + [l];
            && ks[..|ks| - 1] == ls[..|ls| - 1] && ks[|ks| - 1] == l
            && HeadersOf(ks) == HeadersOf(ls)[..|ls| - 1] + [HeaderOf(l)]
            && (WellFormedLines(ls) && WellFormedLine(l) ==> WellFormedLines(ks))
            && HeadersOf(ls)[|ls| - 1] == HeaderOf(ls[|ls| - 1])
  {
    LinesSnoc(ls[..|ls| - 1], l);
  }

  lemma TokensSnoc(s: string, c: char)
    requires Tokens(s) && IsTokenChar(c)
    ensures Tokens(s + [c])
  {
  }

  lemma PrintableSnoc(s: string, c: char)
    requires Printable(s) && !IsCtl(c)
    ensures Printable(s + [c])
  {
  }

  lemma FollowsRequestLine(p: Partial, c: char) returns (q: Partial)
    requires Moves(p, c)
    requires p.state in {MethodStart, Method, Uri, VersionH, VersionT1, VersionT2, VersionP, VersionSlash}
    ensures Follows(p, c, q)
  {
    var h, next := p.head, ByteStep(Forget(p), c).cfg.state;
    assert DecValue("") == 0;
    if p.state.Uri? && c != ' ' {
      PrintableSnoc(h.uri, c);
      q := p.(head := h.(uri := h.uri + [c]));
    } else if (p.state.MethodStart? || p.state.Method?) && c != ' ' {
      TokensSnoc(h.verb, c);
      q := Partial(Method, h.(verb := h.verb + [c]), "");
    } else {
      q := p.(state := next);
    }
  }

  lemma VersionGrows(s: string, c: char)
    requires Digits(s) && IsDigit(c)
    ensures Digits(s + [c]) && DecValue(s + [c]) == DecValue(s) * 10 + DigitValue(c)
  {
    DecValueSnoc(s, c);
  }

  lemma FollowsMajor(p: Partial, c: char) returns (q: Partial)
    requires Moves(p, c)
    requires p.state in {VersionMajorStart, VersionMajor}
    ensures Follows(p, c, q)
  {
    if c == '.' {
      q := p.(state := VersionMinorStart);
    } else {
      VersionGrows(p.head.versionMajor, c);
      q := Partial(VersionMajor, p.head.(versionMajor := p.head.versionMajor + [c]), "");
    }
  }

  lemma FollowsMinor(p: Partial, c: char) returns (q: Partial)
    requires Moves(p, c)
    requires p.state in {VersionMinorStart, VersionMinor}
    ensures Follows(p, c, q)
  {
    if c == '\r' {
      q := p.(state := ExpectingNewline1);
    } else {
      VersionGrows(p.head.versionMinor, c);
      q := Partial(VersionMinor, p.head.(versionMinor := p.head.versionMinor + [c]), "");
    }
  }

  lemma FollowsNewline1(p: Partial, c: char) returns (q: Partial)
    requires Moves(p, c)
    requires p.state.ExpectingNewline1?
    ensures Follows(p, c, q)
  {
    q := p.(state := HeaderLineStart);
    assert Lines([]) == "";
    assert Shown(p) + "\n" == RequestLine(p.head) + "";
  }

  function WithFold(l: Line, c: char): Line { l.(folds := l.folds + [Fold([c], "")]) }

  lemma AddFold(l: Line, c: char)
    requires WellFormedLine(l) && IsLws(c)
    ensures var l' := WithFold(l, c);
            && l'.folds != [] && l'.folds[|l'.folds| - 1].text == "" && WellFormedLine(l')
            && HeaderOf(l') == HeaderOf(l)
  {
    FoldsSnoc(l.folds, Fold([c], ""));
    assert FoldedText(l.folds) + "" == FoldedText(l.folds);
  }

  lemma AddFoldText(l: Line, c: char)
    ensures OpenLine(WithFold(l, c)) == OpenLine(l) + "\r\n" + [c]
  {
    FoldsSnoc(l.folds, Fold([c], ""));
    var s := l.name + ": " + l.first;
    assert s + (Folds(l.folds) + "\r\n" + [c] + "") == s + Folds(l.folds) + "\r\n" + [c];
  }

  lemma ClosedLines(h: Head)
    requires h.lines != []
    ensures RequestLine(h) + Lines(h.lines) == ClosedPart(h) + OpenLine(LastLine(h)) + "\r\n"
  {
    assert Lines(h.lines) == Lines(h.lines[..|h.lines| - 1]) + OpenLine(LastLine(h)) + "\r\n";
  }

  lemma FoldStep(p: Partial, c: char)
    requires Consistent(p) && Sound(Forget(p)) && p.state.HeaderLineStart? && p.head.lines != [] && IsLws(c)
    ensures ByteStep(Forget(p), c) == Go(Forget(p).(state := HeaderLws))
  {
    assert Forget(p).data.headers == HeadersOf(p.head.lines);
  }

  lemma FollowsFold(p: Partial, c: char) returns (q: Partial)
    requires Moves(p, c)
    requires p.state.HeaderLineStart? && p.head.lines != [] && IsLws(c)
    ensures Follows(p, c, q)
  {
    var l := WithFold(LastLine(p.head), c);
    AddFold(LastLine(p.head), c);
    RewriteLast(p, l, HeaderLws);
    q := Partial(HeaderLws, WithLast(p.head, l), "");
    FoldStep(p, c);
    FoldText(p.head, c);
  }

  lemma FoldText(h: Head, c: char)
    requires h.lines != []
    ensures ClosedPart(h) + OpenLine(WithFold(LastLine(h), c)) == RequestLine(h) + Lines(h.lines) + [c]
  {
    var l := LastLine(h);
    AddFoldText(l, c);
    ClosedLines(h);
    assert ClosedPart(h) + (OpenLine(l) + "\r\n" + [c]) == ClosedPart(h) + OpenLine(l) + "\r\n" + [c];
  }

  /** Exchanging the last line for one that means the same. */
  lemma RewriteLast(p: Partial, l: Line, next: State)
    requires Consistent(p) && p.head.lines != [] && InHeaders(p.state) && !p.state.Body?
    requires WellFormedLine(l) && HeaderOf(l) == HeaderOf(LastLine(p.head)) && next in {HeaderLws, HeaderValue}
    requires LineConsistent(Partial(next, WithLast(p.head, l), ""))
    ensures var q := Partial(next, WithLast(p.head, l), "");
            && Consistent(q)
            && Shown(q) == ClosedPart(p.head) + OpenLine(l)
            && Forget(q) == Forget(p).(state := next)
  {
    ReplaceLast(p, l, next);
    var hs := Forget(p).data.headers;
    assert hs[..|hs| - 1] + [HeaderOf(l)] == hs;
  }

  /** Exchanging the last line, for every state inside a line. */
  lemma ReplaceLast(p: Partial, l: Line, next: State)
    requires Consistent(p) && p.head.lines != [] && InHeaders(p.state) && !p.state.Body?
    requires WellFormedLine(l) && next in {HeaderName, HeaderLws, HeaderValue}
    requires LineConsistent(Partial(next, WithLast(p.head, l), ""))
    ensures var q := Partial(next, WithLast(p.head, l), "");
            && Consistent(q)
            && Shown(q) == ClosedPart(p.head) + (if next.HeaderName? then l.name else OpenLine(l))
            && var hs := Forget(p).data.headers;
            && hs != [] && hs[|hs| - 1] == HeaderOf(LastLine(p.head))
            && Forget(q) == Config(next, Forget(p).data.(headers := hs[..|hs| - 1] + [HeaderOf(l)]))
  {
    LastOfLines(p.head.lines, l);
  }

  lemma FollowsBlankLine(p: Partial, c: char) returns (q: Partial)
    requires Moves(p, c)
    requires p.state.HeaderLineStart? && c == '\r'
    ensures Follows(p, c, q)
  {
    q := p.(state := ExpectingNewline3);
  }

  function WithNewLine(h: Head, c: char): (g: Head)
    ensures g.lines != []
  {
    h.(lines := h.lines + [Line([c], "", [])])
  }

  lemma FollowsNewLine(p: Partial, c: char) returns (q: Partial)
    requires Moves(p, c)
    requires p.state.HeaderLineStart? && c != '\r' && !(p.head.lines != [] && IsLws(c))
    ensures Follows(p, c, q)
  {
    q := Partial(HeaderName, WithNewLine(p.head, c), "");
    NewLineStep(Forget(p), c);
    NewLineConsistent(p, c, q);
    NewLineMeaning(p, c, q);
    NewLineShown(p, c, q);
  }

  lemma NewLineStep(cfg: Config, c: char)
    requires cfg.state.HeaderLineStart? && ByteStep(cfg, c).Go? && c != '\r' && !(cfg.data.headers != [] && IsLws(c))
    ensures IsTokenChar(c) && ByteStep(cfg, c) == Go(Config(HeaderName, NewHeader(cfg.data, c)))
  {
  }

  lemma NewLineConsistent(p: Partial, c: char, q: Partial)
    requires Consistent(p) && p.state.HeaderLineStart? && IsTokenChar(c)
    requires q == Partial(HeaderName, WithNewLine(p.head, c), "")
    ensures Consistent(q)
  {
    assert WellFormedLine(Line([c], "", []));
  }

  lemma NewLineMeaning(p: Partial, c: char, q: Partial)
    requires p.state.HeaderLineStart? && p.body == "" && q == Partial(HeaderName, WithNewLine(p.head, c), "")
    ensures Forget(q) == Config(HeaderName, NewHeader(Forget(p).data, c))
  {
    LinesSnoc(p.head.lines, Line([c], "", []));
    assert FoldedText([]) == "" && HeaderOf(Line([c], "", [])) == Header([c], "");
  }

  lemma NewLineShown(p: Partial, c: char, q: Partial)
    requires Consistent(p) && Consistent(q) && p.state.HeaderLineStart?
    requires q == Partial(HeaderName, WithNewLine(p.head, c), "")
    ensures Shown(q) == Shown(p) + [c]
  {
    var h, l := p.head, Line([c], "", []);
    assert (h.lines + [l])[..|h.lines|] == h.lines;
  }

  lemma FollowsName(p: Partial, c: char) returns (q: Partial)
    requires Moves(p, c)
    requires p.state.HeaderName? && c != ':'
    ensures Follows(p, c, q)
  {
    var l := LastLine(p.head);
    var l' := l.(name := l.name + [c]);
    assert WellFormedLine(l);
    TokensSnoc(l.name, c);
    ReplaceLast(p, l', HeaderName);
    assert HeaderOf(l') == Header(l.name + [c], HeaderOf(l).value);
    q := Partial(HeaderName, WithLast(p.head, l'), "");
  }

  lemma FollowsColon(p: Partial, c: char) returns (q: Partial)
    requires Moves(p, c)
    requires p.state.SpaceBeforeHeaderValue? || (p.state.HeaderName? && c == ':')
    ensures Follows(p, c, q)
  {
    var l := LastLine(p.head);
    assert l.name + ":" + " " == l.name + ": ";
    assert OpenLine(l) == l.name + ": " + "" + "";
    q := p.(state := if c == ':' then SpaceBeforeHeaderValue else HeaderValue);
  }

  lemma LengthenLineText(l: Line, c: char)
    ensures OpenLine(LengthenLine(l, c)) == OpenLine(l) + [c]
    ensures HeaderOf(LengthenLine(l, c)) == Header(l.name, HeaderOf(l).value + [c])
  {
    if l.folds != [] {
      var f, gs := l.folds[|l.folds| - 1], l.folds[..|l.folds| - 1];
      FoldsSnoc(gs, f.(text := f.text + [c]));
      FoldsSnoc(gs, f);
      assert gs + [f] == l.folds;
    }
  }

  lemma LengthenLwsText(l: Line, c: char)
    requires l.folds != [] && l.folds[|l.folds| - 1].text == ""
    ensures OpenLine(LengthenLws(l, c)) == OpenLine(l) + [c]
    ensures HeaderOf(LengthenLws(l, c)) == HeaderOf(l)
  {
    var f, gs := l.folds[|l.folds| - 1], l.folds[..|l.folds| - 1];
    FoldsSnoc(gs, f.(lws := f.lws + [c]));
    FoldsSnoc(gs, f);
    assert gs + [f] == l.folds;
  }

  lemma LengthenWellFormed(l: Line, c: char)
    requires WellFormedLine(l)
    ensures !IsCtl(c) && (l.folds != [] && l.folds[|l.folds| - 1].text == "" ==> !IsLws(c))
            ==> WellFormedLine(LengthenLine(l, c))
    ensures l.folds != [] && IsLws(c) ==> WellFormedLine(LengthenLws(l, c))
  {
    if !IsCtl(c) { PrintableSnoc(l.first, c); }
    if l.folds != [] {
      var f := l.folds[|l.folds| - 1];
      assert WellFormedFold(f);
    }
  }

  lemma FollowsValue(p: Partial, c: char) returns (q: Partial)
    requires Moves(p, c)
    requires p.state in {HeaderValue, HeaderLws} && c != '\r' && !(p.state.HeaderLws? && IsLws(c))
    ensures Follows(p, c, q)
  {
    var l := LengthenLine(LastLine(p.head), c);
    q := Partial(HeaderValue, WithLast(p.head, l), "");
    ValueStep(Forget(p), c);
    ValueLine(p, c, l);
    ReplaceLast(p, l, HeaderValue);
    LengthenLineText(LastLine(p.head), c);
  }

  lemma ValueLine(p: Partial, c: char, l: Line)
    requires Consistent(p) && p.state in {HeaderValue, HeaderLws} && !IsCtl(c) && !(p.state.HeaderLws? && IsLws(c))
    requires l == LengthenLine(LastLine(p.head), c)
    ensures WellFormedLine(l) && LineConsistent(Partial(HeaderValue, WithLast(p.head, l), ""))
  {
    LengthenWellFormed(LastLine(p.head), c);
  }

  lemma ValueStep(cfg: Config, c: char)
    requires cfg.state in {HeaderValue, HeaderLws} && c != '\r' && !(cfg.state.HeaderLws? && IsLws(c))
    requires Sound(cfg) && ByteStep(cfg, c).Go?
    ensures !IsCtl(c) && cfg.data.headers != [] && ByteStep(cfg, c) == Go(Config(HeaderValue, ExtendValue(cfg.data, c)))
  {
  }

  lemma FollowsLws(p: Partial, c: char) returns (q: Partial)
    requires Moves(p, c)
    requires p.state.HeaderLws? && IsLws(c)
    ensures Follows(p, c, q)
  {
    var l := LastLine(p.head);
    LengthenLwsText(l, c);
    LengthenWellFormed(l, c);
    RewriteLast(p, LengthenLws(l, c), HeaderLws);
    q := Partial(HeaderLws, WithLast(p.head, LengthenLws(l, c)), "");
  }

  lemma FollowsReturn(p: Partial, c: char) returns (q: Partial)
    requires Moves(p, c)
    requires p.state in {HeaderValue, HeaderLws} && c == '\r'
    ensures Follows(p, c, q)
  {
    q := p.(state := ExpectingNewline2);
  }

  lemma FollowsNewline2(p: Partial, c: char) returns (q: Partial)
    requires Moves(p, c)
    requires p.state.ExpectingNewline2?
    ensures Follows(p, c, q)
  {
    q := p.(state := HeaderLineStart);
    ClosedLines(p.head);
    assert Shown(p) + "\n" == ClosedPart(p.head) + OpenLine(LastLine(p.head)) + "\r\n";
  }

  lemma FollowsNewline3(p: Partial, c: char) returns (q: Partial)
    requires Moves(p, c)
    requires p.state.ExpectingNewline3?
    ensures Follows(p, c, q)
  {
    q := p.(state := Body);
    HeadTextSplit(p.head);
    assert HeadText(p.head) + "" == HeadText(p.head);
  }

  lemma FollowsBody(p: Partial, c: char) returns (q: Partial)
    requires Moves(p, c)
    requires p.state.Body?
    ensures Follows(p, c, q)
  {
    q := p.(body := p.body + [c]);
    assert HeadText(p.head) + p.body + [c] == HeadText(p.head) + (p.body + [c]);
  }

  lemma FollowsAlways(p: Partial, c: char) returns (q: Partial)
    requires Moves(p, c)
    ensures Follows(p, c, q)
  {
    match p.state
    case HeaderLineStart =>
      if c == '\r' { q := FollowsBlankLine(p, c); }
      else if p.head.lines != [] && IsLws(c) { q := FollowsFold(p, c); }
      else { q := FollowsNewLine(p, c); }
    case HeaderName => if c == ':' { q := FollowsColon(p, c); } else { q := FollowsName(p, c); }
    case SpaceBeforeHeaderValue => q := FollowsColon(p, c);
    case HeaderLws =>
      if c == '\r' { q := FollowsReturn(p, c); }
      else if IsLws(c) { q := FollowsLws(p, c); }
      else { q := FollowsValue(p, c); }
    case HeaderValue => if c == '\r' { q := FollowsReturn(p, c); } else { q := FollowsValue(p, c); }
    case ExpectingNewline2 => q := FollowsNewline2(p, c);
    case ExpectingNewline3 => q := FollowsNewline3(p, c);
    case Body => q := FollowsBody(p, c);
    case VersionMajorStart => q := FollowsMajor(p, c);
    case VersionMajor => q := FollowsMajor(p, c);
    case VersionMinorStart => q := FollowsMinor(p, c);
    case VersionMinor => q := FollowsMinor(p, c);
    case ExpectingNewline1 => q := FollowsNewline1(p, c);
    case _ => q := FollowsRequestLine(p, c);
  }

  lemma RunOfOne(a: Config, c: char)
    requires Sound(a)
    ensures Run(a, [c]).outcome == Indeterminate ==> ByteStep(a, c) == Go(Run(a, [c]).cfg)
  {
    NeverStopsIndeterminate(a, c);
    RunOne(a, c, ByteStep(a, c));
  }

  lemma NeverStopsIndeterminate(a: Config, c: char)
    requires Sound(a)
    ensures ByteStep(a, c).Stop? ==> ByteStep(a, c).outcome != Indeterminate
  {
  }

  /** The pieces of any text read without a decision. */
  lemma {:induction false} PiecesOf(s: string) returns (p: Partial)
    requires Run(INITIAL, s).outcome == Indeterminate
    ensures Consistent(p) && Forget(p) == Run(INITIAL, s).cfg && Shown(p) == s
    decreases |s|
  {
    if s == "" {
      p := START;
      assert DecValue("") == 0;
    } else {
      var u, c := s[..|s| - 1], s[|s| - 1];
      assert s == u + [c];
      RunConcat(INITIAL, u, [c]);
      var q := PiecesOf(u);
      RunOfOne(Forget(q), c);
      p := FollowsAlways(q, c);
    }
  }
}
