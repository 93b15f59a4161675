/** The request automaton as a function of one byte, and its runs. */
module ParserSpec {
  import opened Text

  datatype Header = Header(name: string, value: string)

  datatype Data = Data(
    headers: seq<Header>, verb: string, uri: string, content: string,
    versionMajor: int, versionMinor: int, contentLength: int)

  datatype State =
    | MethodStart | Method | Uri
    | VersionH | VersionT1 | VersionT2 | VersionP | VersionSlash
    | VersionMajorStart | VersionMajor | VersionMinorStart | VersionMinor
    | ExpectingNewline1
    | HeaderLineStart | HeaderLws | HeaderName | SpaceBeforeHeaderValue | HeaderValue
    | ExpectingNewline2 | ExpectingNewline3
    | Body

  /** What `parse_impl` comes to.  `Throws` is the exception of `std::stoi`, which no
      `try` around it catches; `Undefined` is a version number overflowing `int`. */
  datatype Outcome = Good | Bad | Indeterminate | Throws | Undefined

  datatype Config = Config(state: State, data: Data)

  datatype Move = Go(cfg: Config) | Stop(outcome: Outcome, cfg: Config)

  const EMPTY: Data := Data([], "", "", "", 0, 0, 0)

  /** A newly constructed parser. */
  const INITIAL: Config := Config(MethodStart, EMPTY)

  /** The value of the first header called Content-Length in any case. */
  function FirstContentLength(hs: seq<Header>): Option<string> {
    if hs == [] then None
    else if EqualIgnoringCase(hs[0].name, "Content-Length") then Some(hs[0].value)
    else FirstContentLength(hs[1..])
  }

  /** The length the head announces: zero without the header, `None` when `std::stoi` throws. */
  function AnnouncedLength(hs: seq<Header>): (r: Option<int>) {
    match FirstContentLength(hs)
    case None => Some(0)
    case Some(v) => Stoi(v)
  }

  function NewHeader(d: Data, c: char): Data {
    d.(headers := d.headers + [Header([c], "")])
  }

  function ExtendName(d: Data, c: char): Data
    requires d.headers != []
  {
    var h := d.headers[|d.headers| - 1];
    d.(headers := d.headers[..|d.headers| - 1] + [Header(h.name + [c], h.value)])
  }

  function ExtendValue(d: Data, c: char): Data
    requires d.headers != []
  {
    var h := d.headers[|d.headers| - 1];
    d.(headers := d.headers[..|d.headers| - 1] + [Header(h.name, h.value + [c])])
  }

  /** The header states only occur with a header to extend. */
  predicate Sound(cfg: Config) {
    || cfg.data.headers != []
    || cfg.state !in {HeaderLws, HeaderName, SpaceBeforeHeaderValue, HeaderValue, ExpectingNewline2}
  }

  function Expect(cfg: Config, c: char, wanted: char, next: State): Move {
    if c == wanted then Go(cfg.(state := next)) else Stop(Bad, cfg)
  }

  function ByteStep(cfg: Config, c: char): (m: Move)
    requires Sound(cfg)
    ensures Sound(m.cfg)
  {
    var d := cfg.data;
    match cfg.state
    case MethodStart =>
      if IsTokenChar(c) then Go(Config(Method, d.(verb := d.verb + [c]))) else Stop(Bad, cfg)
    case Method =>
      if c == ' ' then Go(cfg.(state := Uri))
      else if IsTokenChar(c) then Go(Config(Method, d.(verb := d.verb + [c])))
      else Stop(Bad, cfg)
    case Uri =>
      if c == ' ' then Go(cfg.(state := VersionH))
      else if IsCtl(c) then Stop(Bad, cfg)
      else Go(Config(Uri, d.(uri := d.uri + [c])))
    case VersionH => Expect(cfg, c, 'H', VersionT1)
    case VersionT1 => Expect(cfg, c, 'T', VersionT2)
    case VersionT2 => Expect(cfg, c, 'T', VersionP)
    case VersionP => Expect(cfg, c, 'P', VersionSlash)
    case VersionSlash => Expect(cfg, c, '/', VersionMajorStart)
    case VersionMajorStart => MajorDigit(cfg, c)
    case VersionMajor => if c == '.' then Go(cfg.(state := VersionMinorStart)) else MajorDigit(cfg, c)
    case VersionMinorStart => MinorDigit(cfg, c)
    case VersionMinor => if c == '\r' then Go(cfg.(state := ExpectingNewline1)) else MinorDigit(cfg, c)
    case ExpectingNewline1 => Expect(cfg, c, '\n', HeaderLineStart)
    case HeaderLineStart =>
      if c == '\r' then Go(cfg.(state := ExpectingNewline3))
      else if d.headers != [] && IsLws(c) then Go(cfg.(state := HeaderLws))
      else if IsTokenChar(c) then Go(Config(HeaderName, NewHeader(d, c)))
      else Stop(Bad, cfg)
    case HeaderLws =>
      if c == '\r' then Go(cfg.(state := ExpectingNewline2))
      else if IsLws(c) then Go(cfg)
      else if IsCtl(c) then Stop(Bad, cfg)
      else Go(Config(HeaderValue, ExtendValue(d, c)))
    case HeaderName =>
      if c == ':' then Go(cfg.(state := SpaceBeforeHeaderValue))
      else if IsTokenChar(c) then Go(Config(HeaderName, ExtendName(d, c)))
      else Stop(Bad, cfg)
    case SpaceBeforeHeaderValue => Expect(cfg, c, ' ', HeaderValue)
    case HeaderValue =>
      if c == '\r' then Go(cfg.(state := ExpectingNewline2))
      else if IsCtl(c) then Stop(Bad, cfg)
      else Go(Config(HeaderValue, ExtendValue(d, c)))
    case ExpectingNewline2 => Expect(cfg, c, '\n', HeaderLineStart)
    case ExpectingNewline3 => if c == '\n' then EndOfHead(d) else Stop(Bad, cfg)
    case Body =>
      var d' := d.(content := d.content + [c]);
      if |d'.content| == d.contentLength then Stop(Good, Config(Body, d')) else Go(Config(Body, d'))
  }

  function MajorDigit(cfg: Config, c: char): Move {
    var v := cfg.data.versionMajor * 10 + DigitValue(c);
    if !IsDigit(c) then Stop(Bad, cfg)
    else if v > INT_MAX then Stop(Undefined, cfg)
    else Go(Config(VersionMajor, cfg.data.(versionMajor := v)))
  }

  function MinorDigit(cfg: Config, c: char): Move {
    var v := cfg.data.versionMinor * 10 + DigitValue(c);
    if !IsDigit(c) then Stop(Bad, cfg)
    else if v > INT_MAX then Stop(Undefined, cfg)
    else Go(Config(VersionMinor, cfg.data.(versionMinor := v)))
  }

  /** The blank line has been read: the state is already `Body` when `std::stoi` runs. */
  function EndOfHead(d: Data): Move {
    match FirstContentLength(d.headers)
    case None => FramedBy(d, d.contentLength)
    case Some(v) =>
      match Stoi(v)
      case None => Stop(Throws, Config(Body, d))
      case Some(n) => FramedBy(d, n)
  }

  function FramedBy(d: Data, n: int): Move {
    var cfg := Config(Body, d.(contentLength := n));
    if n == 0 then Stop(Good, cfg) else Go(cfg)
  }

  /** What became of a byte string: the outcome, the parser left behind and the bytes read. */
  datatype Halt = Halt(outcome: Outcome, cfg: Config, used: nat)

  function Run(cfg: Config, s: string): (h: Halt)
    requires Sound(cfg)
    ensures h.used <= |s| && Sound(h.cfg)
    ensures h.outcome == Indeterminate ==> h.used == |s|
    ensures h.outcome != Indeterminate ==> h.used > 0
    decreases |s|
  {
    if s == "" then Halt(Indeterminate, cfg, 0)
    else
      match ByteStep(cfg, s[0])
      case Stop(o, cfg') => Halt(o, cfg', 1)
      case Go(cfg') =>
        var h := Run(cfg', s[1..]);
        Halt(h.outcome, h.cfg, h.used + 1)
  }

  /** The automaton reads all of `s` and wants more. */
  predicate Eats(cfg: Config, s: string, cfg': Config)
    requires Sound(cfg)
  {
    Run(cfg, s) == Halt(Indeterminate, cfg', |s|)
  }

  function Shift(h: Halt, n: nat): Halt { Halt(h.outcome, h.cfg, h.used + n) }

  /** Stopping at any byte and resuming later is the same as not stopping. */
  lemma {:induction false} RunConcat(cfg: Config, s: string, t: string)
    requires Sound(cfg)
    ensures Run(cfg, s + t) ==
            (var h := Run(cfg, s); if h.outcome == Indeterminate then Shift(Run(h.cfg, t), |s|) else h)
    decreases |s|
  {
    if s == "" {
      assert s + t == t;
    } else {
      assert (s + t)[0] == s[0] && (s + t)[1..] == s[1..] + t;
      var m := ByteStep(cfg, s[0]);
      if m.Go? {
        RunConcat(m.cfg, s[1..], t);
      }
    }
  }

  lemma EatsConcat(a: Config, s: string, b: Config, t: string, c: Config)
    requires Sound(a) && Sound(b) && Eats(a, s, b) && Eats(b, t, c)
    ensures Eats(a, s + t, c)
  {
    RunConcat(a, s, t);
  }

  lemma RunEmpty(a: Config)
    requires Sound(a)
    ensures Run(a, "") == Halt(Indeterminate, a, 0)
  {
  }

  lemma RunOne(a: Config, c: char, m: Move)
    requires Sound(a) && m == ByteStep(a, c)
    ensures Run(a, [c]) == if m.Stop? then Halt(m.outcome, m.cfg, 1) else Halt(Indeterminate, m.cfg, 1)
  {
    assert [c][1..] == "";
    RunEmpty(m.cfg);
  }

  lemma EatsOne(a: Config, c: char, b: Config)
    requires Sound(a) && ByteStep(a, c) == Go(b)
    ensures Eats(a, [c], b)
  {
    assert Run(b, "") == Halt(Indeterminate, b, 0);
    assert [c][1..] == "";
  }

  lemma EatsThen(a: Config, s: string, b: Config, c: char, d: Config)
    requires Sound(a) && Sound(b) && Eats(a, s, b) && ByteStep(b, c) == Go(d)
    ensures Eats(a, s + [c], d)
  {
    EatsOne(b, c, d);
    EatsConcat(a, s, b, [c], d);
  }

  /** Reading up to the byte that decides. */
  lemma EatsStops(a: Config, s: string, b: Config, c: char)
    requires Sound(a) && Sound(b) && Eats(a, s, b) && ByteStep(b, c).Stop?
    ensures Run(a, s + [c]) == Halt(ByteStep(b, c).outcome, ByteStep(b, c).cfg, |s| + 1)
  {
    RunConcat(a, s, [c]);
    assert [c][1..] == "";
    assert Run(b, [c]) == Halt(ByteStep(b, c).outcome, ByteStep(b, c).cfg, 1);
  }

  /** A run that stops has eaten everything before its last byte. */
  lemma {:induction false} StopsAfterEating(a: Config, s: string) returns (b: Config)
    requires Sound(a) && Run(a, s).outcome != Indeterminate
    ensures Sound(b) && Eats(a, s[..Run(a, s).used - 1], b)
    ensures ByteStep(b, s[Run(a, s).used - 1]) == Stop(Run(a, s).outcome, Run(a, s).cfg)
    decreases |s|
  {
    var h := Run(a, s);
    var m := ByteStep(a, s[0]);
    if m.Stop? {
      b := a;
      assert s[..0] == "";
    } else {
      b := StopsAfterEating(m.cfg, s[1..]);
      var n := h.used - 1;
      assert s[..n] == [s[0]] + s[1..][..n - 1];
      EatsOne(a, s[0], m.cfg);
      EatsConcat(a, [s[0]], m.cfg, s[1..][..n - 1], b);
    }
  }

  /** What is read before the decision decides alone: bytes behind it change nothing. */
  lemma OnlyUsedBytesMatter(a: Config, s: string, t: string)
    requires Sound(a) && Run(a, s).outcome != Indeterminate
    ensures Run(a, s[..Run(a, s).used]) == Run(a, s) == Run(a, s + t)
  {
    var h := Run(a, s);
    RunConcat(a, s, t);
    var u, v := s[..h.used], s[h.used..];
    assert s == u + v;
    RunConcat(a, u, v);
  }
}
