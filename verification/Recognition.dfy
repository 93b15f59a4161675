/** The automaton and the grammar describe the same messages. */
module Recognition {
  import opened Text
  import opened ParserSpec
  import opened Grammar
  import opened Completeness
  import opened Soundness

  /** Good, and at exactly the last byte. */
  predicate Accepts(s: string) {
    Run(INITIAL, s).outcome == Good && Run(INITIAL, s).used == |s|
  }

  // ----- messages -----

  lemma PiecesBeforeDecision(s: string) returns (p: Partial, c: char)
    requires var h := Run(INITIAL, s); h.outcome != Indeterminate && h.used == |s|
    ensures Consistent(p) && Sound(Forget(p)) && s == Shown(p) + [c]
    ensures ByteStep(Forget(p), c) == Stop(Run(INITIAL, s).outcome, Run(INITIAL, s).cfg)
  {
    var b := StopsAfterEating(INITIAL, s);
    var u := s[..|s| - 1];
    c := s[|s| - 1];
    assert s == u + [c];
    p := PiecesOf(u);
  }

  /** An accepted text is that of a message, and the parser holds exactly what the message denotes. */
  lemma AcceptedIsMessage(s: string) returns (m: Message)
    requires Accepts(s)
    ensures WellFormedMessage(m) && MessageText(m) == s
    ensures Run(INITIAL, s).cfg == Config(Body, MessageData(m))
  {
    var p, c := PiecesBeforeDecision(s);
    if p.state.Body? {
      m := Message(p.head, p.body + [c]);
      GoodInBody(p, c);
      assert MessageText(m) == Shown(p) + [c];
    } else {
      m := Message(p.head, "");
      GoodAtHeadEnd(p, c);
      HeadTextSplit(p.head);
      assert MessageText(m) == HeadText(p.head);
    }
  }

  lemma GoodInBody(p: Partial, c: char)
    requires Consistent(p) && Sound(Forget(p)) && p.state.Body?
    requires ByteStep(Forget(p), c).Stop? && ByteStep(Forget(p), c).outcome == Good
    ensures var m := Message(p.head, p.body + [c]);
            WellFormedMessage(m) && ByteStep(Forget(p), c).cfg == Config(Body, MessageData(m))
  {
  }

  lemma GoodAtHeadEnd(p: Partial, c: char)
    requires Consistent(p) && Sound(Forget(p)) && !p.state.Body?
    requires ByteStep(Forget(p), c).Stop? && ByteStep(Forget(p), c).outcome == Good
    ensures p.state.ExpectingNewline3? && c == '\n'
    ensures var m := Message(p.head, "");
            WellFormedMessage(m) && ByteStep(Forget(p), c).cfg == Config(Body, MessageData(m))
  {
  }

  /** Good at the last byte: exactly the well-formed messages. */
  lemma AcceptsExactlyMessages(s: string)
    ensures Accepts(s) <==> exists m :: WellFormedMessage(m) && MessageText(m) == s
  {
    if Accepts(s) {
      var m := AcceptedIsMessage(s);
    }
    forall m | WellFormedMessage(m) && MessageText(m) == s
      ensures Accepts(s)
    {
      MessageAccepted(m);
    }
  }

  /** Wherever a run from a new parser ends well, the bytes read so far are one message and the
      data are its denotation; two messages with one text denote the same. */
  lemma GoodRunReadsOneMessage(s: string) returns (m: Message)
    requires Run(INITIAL, s).outcome == Good
    ensures WellFormedMessage(m) && MessageText(m) == s[..Run(INITIAL, s).used]
    ensures Run(INITIAL, s).cfg.data == MessageData(m)
    ensures forall m' :: WellFormedMessage(m') && MessageText(m') <= s ==>
              MessageText(m') == MessageText(m) && MessageData(m') == MessageData(m)
  {
    var h := Run(INITIAL, s);
    OnlyUsedBytesMatter(INITIAL, s, "");
    m := AcceptedIsMessage(s[..h.used]);
    forall m' | WellFormedMessage(m') && MessageText(m') <= s
      ensures MessageText(m') == MessageText(m) && MessageData(m') == MessageData(m)
    {
      MessageAccepted(m');
      var t := MessageText(m');
      assert s == t + s[|t|..];
      OnlyUsedBytesMatter(INITIAL, t, s[|t|..]);
    }
  }

  /** No message is the beginning of another. */
  lemma MessagesArePrefixFree(m: Message, m': Message)
    requires WellFormedMessage(m) && WellFormedMessage(m') && MessageText(m) <= MessageText(m')
    ensures MessageText(m) == MessageText(m')
  {
    MessageAccepted(m);
    MessageAccepted(m');
    AcceptedPrefix(MessageText(m), MessageText(m'));
  }

  lemma AcceptedPrefix(s: string, t: string)
    requires Accepts(s) && Accepts(t) && s <= t
    ensures s == t
  {
    assert t == s + t[|s|..];
    OnlyUsedBytesMatter(INITIAL, s, t[|s|..]);
  }

  /** What a complete head leads to, whatever follows it: the announced number of bytes and no
      more are read; a negative length never completes; an unconvertible one throws at once. */
  lemma HeadDecides(h: Head, t: string)
    requires WellFormedHead(h)
    ensures var r := Run(INITIAL, HeadText(h) + t);
            match AnnouncedLength(HeadersOf(h.lines))
            case None => r == Halt(Throws, Config(Body, HeadData(h)), |HeadText(h)|)
            case Some(n) =>
              if 0 <= n <= |t| then
                r == Halt(Good, Config(Body, MessageData(Message(h, t[..n]))), |HeadText(h)| + n)
              else
                r.outcome == Indeterminate && r.cfg.state == Body && r.cfg.data.content == t
  {
    match AnnouncedLength(HeadersOf(h.lines))
    case None => HeadThrows(h, t);
    case Some(n) => if 0 <= n <= |t| { HeadThenBody(h, t, n); } else { HeadWaits(h, t, n); }
  }

  lemma HeadThrows(h: Head, t: string)
    requires WellFormedHead(h) && AnnouncedLength(HeadersOf(h.lines)) == None
    ensures Run(INITIAL, HeadText(h) + t) == Halt(Throws, Config(Body, HeadData(h)), |HeadText(h)|)
  {
    EatHead(h);
    HeadTextSplit(h);
    EatsStops(INITIAL, HeadButLast(h), Config(ExpectingNewline3, HeadData(h)), '\n');
    OnlyUsedBytesMatter(INITIAL, HeadText(h), t);
  }

  lemma HeadThenBody(h: Head, t: string, n: nat)
    requires WellFormedHead(h) && AnnouncedLength(HeadersOf(h.lines)) == Some(n) && n <= |t|
    ensures Run(INITIAL, HeadText(h) + t)
            == Halt(Good, Config(Body, MessageData(Message(h, t[..n]))), |HeadText(h)| + n)
  {
    var m := Message(h, t[..n]);
    BodyThenRest(h, t, n);
    AcceptedThenRest(m, t[n..]);
  }

  lemma BodyThenRest(h: Head, t: string, n: nat)
    requires n <= |t|
    ensures MessageText(Message(h, t[..n])) + t[n..] == HeadText(h) + t
    ensures |MessageText(Message(h, t[..n]))| == |HeadText(h)| + n
  {
    assert t[..n] + t[n..] == t;
    assert HeadText(h) + t[..n] + t[n..] == HeadText(h) + (t[..n] + t[n..]);
  }

  /** Bytes behind a message do not change what became of it. */
  lemma AcceptedThenRest(m: Message, t: string)
    requires WellFormedMessage(m)
    ensures Run(INITIAL, MessageText(m) + t) == Halt(Good, Config(Body, MessageData(m)), |MessageText(m)|)
  {
    MessageAccepted(m);
    OnlyUsedBytesMatter(INITIAL, MessageText(m), t);
  }

  lemma HeadWaits(h: Head, t: string, n: int)
    requires WellFormedHead(h) && AnnouncedLength(HeadersOf(h.lines)) == Some(n) && !(0 <= n <= |t|)
    ensures var b := HeadData(h).(contentLength := n, content := t);
            Run(INITIAL, HeadText(h) + t) == Halt(Indeterminate, Config(Body, b), |HeadText(h) + t|)
  {
    EatHead(h);
    HeadTextSplit(h);
    var b := Config(Body, HeadData(h).(contentLength := n));
    EatsThen(INITIAL, HeadButLast(h), Config(ExpectingNewline3, HeadData(h)), '\n', b);
    EatBody(t, b.data);
    EatsConcat(INITIAL, HeadText(h), b, t, Config(Body, b.data.(content := t)));
  }

  // ----- rejection -----

  ghost predicate IsHeadPrefix(s: string) {
    exists h, q :: WellFormedHead(h) && HeadText(h) == s + q
  }

  /** Undecided and still before the end of the head. */
  predicate InHead(s: string) {
    Run(INITIAL, s).outcome == Indeterminate && Run(INITIAL, s).cfg.state != Body
  }

  lemma FinishRequestLine(p: Partial) returns (h: Head, q: string)
    requires Consistent(p) && !InHeaders(p.state)
    ensures WellFormedHead(h) && HeadText(h) == Shown(p) + q && q != ""
  {
    h := Finished(p);
    FinishedIsWellFormed(p);
    ShownPrefix(p, h);
    q := HeadText(h)[|Shown(p)|..];
  }

  /** A head that continues the pieces of a request line. */
  function Finished(p: Partial): Head {
    var g := p.head;
    if BeforeMajor(p.state) || p.state.MethodStart? || p.state.Method? || p.state.Uri? then
      Head(if p.state.MethodStart? then "a" else g.verb, g.uri, "1", "1", [])
    else if InMajor(p.state) then g.(versionMinor := "1")
    else g
  }

  lemma FinishedIsWellFormed(p: Partial)
    requires Consistent(p) && !InHeaders(p.state)
    ensures WellFormedHead(Finished(p))
  {
    assert DecValue("1") == 1 by { assert "1"[..0] == ""; }
  }

  /** The text shown so far begins every head that continues its pieces. */
  lemma ShownPrefix(p: Partial, h: Head)
    requires Consistent(p) && !InHeaders(p.state)
    requires h.lines == []
    requires p.state.MethodStart? || h.verb == p.head.verb
    requires p.state.MethodStart? || p.state.Method? || h.uri == p.head.uri
    requires InMajor(p.state) ==> h.versionMajor == p.head.versionMajor
    requires p.state.VersionMinor? || p.state.ExpectingNewline1? ==>
               h.versionMajor == p.head.versionMajor && h.versionMinor == p.head.versionMinor
    ensures Shown(p) <= HeadText(h) && |Shown(p)| < |HeadText(h)|
  {
    var v := VersionStart(h);
    assert v <= HeadText(h);
    assert v + "HTTP/" <= HeadText(h);
    assert v + "HTTP/" + h.versionMajor + "." <= HeadText(h);
    assert v + "HTTP/" + h.versionMajor + "." + h.versionMinor + "\r\n" <= HeadText(h);
  }

  lemma FinishHeaders(p: Partial) returns (q: string)
    requires Consistent(p) && InHeaders(p.state) && !p.state.Body?
    ensures WellFormedHead(p.head) && HeadText(p.head) == Shown(p) + q && q != ""
  {
    if p.state.ExpectingNewline3? {
      q := "\n";
    } else if p.state.HeaderLineStart? {
      q := "\r\n";
    } else {
      q := FinishLine(p);
    }
  }

  lemma FinishLine(p: Partial) returns (q: string)
    requires Consistent(p) && InHeaders(p.state) && p.state !in {HeaderLineStart, ExpectingNewline3, Body}
    ensures HeadText(p.head) == Shown(p) + q && q != ""
  {
    ClosedLines(p.head);
    var l, start := LastLine(p.head), ClosedPart(p.head);
    if p.state.HeaderName? || p.state.SpaceBeforeHeaderValue? {
      assert l.first == "" && l.folds == [];
      BareLine(start, l);
      q := if p.state.HeaderName? then ": \r\n\r\n" else " \r\n\r\n";
    } else {
      q := if p.state.ExpectingNewline2? then "\n\r\n" else "\r\n\r\n";
    }
  }

  lemma BareLine(start: string, l: Line)
    requires l.first == "" && l.folds == []
    ensures start + OpenLine(l) + "\r\n" + "\r\n" == start + l.name + ": \r\n\r\n" == start + l.name + ":" + " \r\n\r\n"
  {
    assert OpenLine(l) == l.name + ": ";
  }

  /** Undecided within the head: exactly the proper beginnings of well-formed heads. */
  lemma InHeadExactly(s: string)
    ensures InHead(s) <==> exists h, q :: WellFormedHead(h) && HeadText(h) == s + q && q != ""
  {
    if InHead(s) {
      var p := PiecesOf(s);
      if InHeaders(p.state) {
        var q := FinishHeaders(p);
      } else {
        var h, q := FinishRequestLine(p);
      }
    }
    forall h, q | WellFormedHead(h) && HeadText(h) == s + q && q != ""
      ensures InHead(s)
    {
      HeadPrefixUndecided(h, s, q);
    }
  }

  lemma HeadPrefixUndecided(h: Head, s: string, q: string)
    requires WellFormedHead(h) && HeadText(h) == s + q && q != ""
    ensures InHead(s)
  {
    EatHead(h);
    HeadTextSplit(h);
    var r := q[..|q| - 1];
    assert HeadButLast(h) == (s + q)[..|s + q| - 1] == s + r;
    RunConcat(INITIAL, s, r);
    if Run(INITIAL, s).outcome == Indeterminate && Run(INITIAL, s).cfg.state == Body {
      BodyIsFinal(Run(INITIAL, s).cfg, r);
    }
  }

  /** From the body there is no way back into the head. */
  lemma {:induction false} BodyIsFinal(a: Config, r: string)
    requires Sound(a) && a.state == Body
    ensures Run(a, r).cfg.state == Body
    decreases |r|
  {
    if r == "" {
    } else {
      var m := ByteStep(a, r[0]);
      if m.Go? {
        BodyIsFinal(m.cfg, r[1..]);
      }
    }
  }

  /** A digit with which a version number no longer fits an `int`. */
  predicate TooBig(digits: string, c: char) {
    Digits(digits) && IsDigit(c) && DecValue(digits) <= INT_MAX < DecValue(digits + [c])
  }

  function MajorText(h: Head, digits: string): string { VersionStart(h) + "HTTP/" + digits }

  function MinorText(h: Head, digits: string): string { VersionStart(h) + "HTTP/" + h.versionMajor + "." + digits }

  /** A request line up to such a digit, of the major or of the minor version. */
  ghost predicate OverflowsVersion(s: string) { exists h, digits, c :: OverflowsWith(s, h, digits, c) }

  lemma TooBigHasDigits(digits: string, c: char)
    requires TooBig(digits, c)
    ensures digits != "" && DecValue(digits) * 10 + DigitValue(c) > INT_MAX
  {
    DecValueSnoc(digits, c);
    assert DecValue("") == 0;
  }

  lemma MajorOverflows(h: Head, digits: string, c: char)
    requires WellFormedStart(h) && TooBig(digits, c)
    ensures var r := Run(INITIAL, MajorText(h, digits) + [c]);
            r.outcome == Undefined && r.used == |MajorText(h, digits) + [c]|
  {
    var d := EMPTY.(verb := h.verb, uri := h.uri);
    var b := Config(VersionMajor, d.(versionMajor := DecValue(digits)));
    TooBigHasDigits(digits, c);
    EatToVersion(h);
    EatMajor(digits, d);
    EatsConcat(INITIAL, VersionStart(h) + "HTTP/", Config(VersionMajorStart, d), digits, b);
    EatsStops(INITIAL, MajorText(h, digits), b, c);
  }

  lemma MinorOverflows(h: Head, digits: string, c: char)
    requires WellFormedStart(h) && WellFormedVersion(h.versionMajor) && TooBig(digits, c)
    ensures var r := Run(INITIAL, MinorText(h, digits) + [c]);
            r.outcome == Undefined && r.used == |MinorText(h, digits) + [c]|
  {
    var e := EMPTY.(verb := h.verb, uri := h.uri, versionMajor := DecValue(h.versionMajor));
    var b := Config(VersionMinor, e.(versionMinor := DecValue(digits)));
    TooBigHasDigits(digits, c);
    EatToMinor(h);
    EatMinor(digits, e);
    var s := VersionStart(h) + "HTTP/" + (h.versionMajor + ".");
    EatsConcat(INITIAL, s, Config(VersionMinorStart, e), digits, b);
    assert s + digits == MinorText(h, digits);
    EatsStops(INITIAL, MinorText(h, digits), b, c);
  }

  /** C++ leaves undefined what happens exactly where a version number first exceeds `int`. */
  lemma OverflowsExactly(s: string)
    ensures Run(INITIAL, s).outcome == Undefined && Run(INITIAL, s).used == |s| <==> OverflowsVersion(s)
  {
    if Run(INITIAL, s).outcome == Undefined && Run(INITIAL, s).used == |s| {
      var p, c := PiecesBeforeDecision(s);
      OverflowAtPieces(p, c);
    }
    if OverflowsVersion(s) { OverflowIsUndefined(s); }
  }

  /** A digit overflows the major or the minor version of this text. */
  predicate OverflowsWith(s: string, h: Head, digits: string, c: char) {
    && WellFormedStart(h) && TooBig(digits, c)
    && (s == MajorText(h, digits) + [c]
        || (WellFormedVersion(h.versionMajor) && s == MinorText(h, digits) + [c]))
  }

  lemma OverflowIsUndefined(s: string)
    requires OverflowsVersion(s)
    ensures Run(INITIAL, s).outcome == Undefined && Run(INITIAL, s).used == |s|
  {
    var h, digits, c :| OverflowsWith(s, h, digits, c);
    if s == MajorText(h, digits) + [c] { MajorOverflows(h, digits, c); } else { MinorOverflows(h, digits, c); }
  }

  lemma OverflowAtPieces(p: Partial, c: char)
    requires Consistent(p) && Sound(Forget(p))
    requires ByteStep(Forget(p), c).Stop? && ByteStep(Forget(p), c).outcome == Undefined
    ensures OverflowsVersion(Shown(p) + [c])
  {
    var h := p.head;
    UndefinedIsDigit(Forget(p), c);
    if InMajorDigits(p.state) {
      StartIsWellFormed(p);
      DigitsTooBig(h.versionMajor, c);
      assert Shown(p) == MajorText(h, h.versionMajor);
      assert OverflowsWith(Shown(p) + [c], h, h.versionMajor, c);
    } else {
      StartIsWellFormed(p);
      DigitsTooBig(h.versionMinor, c);
      assert Shown(p) == MinorText(h, h.versionMinor);
      assert OverflowsWith(Shown(p) + [c], h, h.versionMinor, c);
    }
  }

  predicate InMajorDigits(s: State) { s.VersionMajorStart? || s.VersionMajor? }

  predicate InMinorDigits(s: State) { s.VersionMinorStart? || s.VersionMinor? }

  lemma UndefinedIsDigit(cfg: Config, c: char)
    requires Sound(cfg) && ByteStep(cfg, c).Stop? && ByteStep(cfg, c).outcome == Undefined
    ensures IsDigit(c) && (InMajorDigits(cfg.state) || InMinorDigits(cfg.state))
    ensures InMajorDigits(cfg.state) ==> cfg.data.versionMajor * 10 + DigitValue(c) > INT_MAX
    ensures InMinorDigits(cfg.state) ==> cfg.data.versionMinor * 10 + DigitValue(c) > INT_MAX
  {
  }

  lemma DigitsTooBig(digits: string, c: char)
    requires Digits(digits) && IsDigit(c) && DecValue(digits) <= INT_MAX
    requires DecValue(digits) * 10 + DigitValue(c) > INT_MAX
    ensures TooBig(digits, c)
  {
    DecValueSnoc(digits, c);
  }

  lemma StartIsWellFormed(p: Partial)
    requires Consistent(p) && (InMajorDigits(p.state) || InMinorDigits(p.state))
    ensures WellFormedStart(p.head)
    ensures InMajorDigits(p.state) ==> Digits(p.head.versionMajor) && DecValue(p.head.versionMajor) <= INT_MAX
    ensures InMinorDigits(p.state) ==>
              && WellFormedVersion(p.head.versionMajor)
              && Digits(p.head.versionMinor) && DecValue(p.head.versionMinor) <= INT_MAX
  {
    assert DecValue("") == 0;
  }

  /** Within the head, a byte is refused exactly when no well-formed head begins that way:
      never later, and never a byte that could still be completed.  It is refused as bad unless it is the
      digit with which a version number overflows. */
  lemma RefusedExactlyAtFirstHopelessByte(s: string, c: char)
    requires InHead(s)
    ensures Run(INITIAL, s + [c]).outcome in {Bad, Undefined} <==> !IsHeadPrefix(s + [c])
    ensures Run(INITIAL, s + [c]).outcome == Bad <==> !IsHeadPrefix(s + [c]) && !OverflowsVersion(s + [c])
    ensures Run(INITIAL, s + [c]).outcome == Undefined <==> OverflowsVersion(s + [c])
  {
    var o := Run(INITIAL, s + [c]).outcome;
    RunConcat(INITIAL, s, [c]);
    OverflowsExactly(s + [c]);
    if o in {Bad, Undefined} {
      RefusedIsNoPrefix(s + [c]);
    } else {
      NotRefusedIsPrefix(s, c);
    }
  }

  lemma RefusedIsNoPrefix(s: string)
    requires Run(INITIAL, s).outcome in {Bad, Undefined}
    ensures !IsHeadPrefix(s)
  {
    forall h, q | WellFormedHead(h)
      ensures HeadText(h) != s + q
    {
      OnlyUsedBytesMatter(INITIAL, s, q);
      HeadDecides(h, "");
      assert HeadText(h) + "" == HeadText(h);
    }
  }

  lemma NotRefusedIsPrefix(s: string, c: char)
    requires InHead(s) && Run(INITIAL, s + [c]).outcome !in {Bad, Undefined}
    ensures IsHeadPrefix(s + [c])
  {
    if InHead(s + [c]) {
      InHeadExactly(s + [c]);
    } else {
      RunConcat(INITIAL, s, [c]);
      var p := PiecesOf(s);
      assert [c][1..] == "";
      var m := ByteStep(Forget(p), c);
      assert p.state.ExpectingNewline3? && c == '\n' by { EntersBody(Forget(p), c); }
      HeadTextSplit(p.head);
      assert HeadText(p.head) == s + [c] + "";
    }
  }

  /** The only way out of the head is its last line feed. */
  lemma EntersBody(a: Config, c: char)
    requires Sound(a) && a.state != Body
    requires var r := Run(a, [c]);
             r.outcome !in {Bad, Undefined} && !(r.outcome == Indeterminate && r.cfg.state != Body)
    ensures a.state.ExpectingNewline3? && c == '\n'
  {
    assert [c][1..] == "";
    var m := ByteStep(a, c);
    if m.Go? {
      assert Run(m.cfg, "") == Halt(Indeterminate, m.cfg, 0);
    }
  }
}
