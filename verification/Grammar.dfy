/** The messages the automaton accepts, written as a grammar, and what a message denotes.

      head     = verb SP uri SP "HTTP/" digits "." digits CRLF *line CRLF
      line     = name ":" SP text *fold CRLF
      fold     = CRLF 1*(SP / HT) text                                                  */
module Grammar {
  import opened Text
  import opened ParserSpec

  datatype Fold = Fold(lws: string, text: string)

  datatype Line = Line(name: string, first: string, folds: seq<Fold>)

  datatype Head = Head(verb: string, uri: string, versionMajor: string, versionMinor: string, lines: seq<Line>)

  datatype Message = Message(head: Head, body: string)

  // ----- well-formedness -----

  /** The text of a fold starts behind all the leading white space. */
  predicate WellFormedFold(f: Fold) {
    && f.lws != "" && Blank(f.lws)
    && Printable(f.text) && (f.text != "" ==> !IsLws(f.text[0]))
  }

  predicate WellFormedLine(l: Line) {
    && l.name != "" && Tokens(l.name) && Printable(l.first)
    && forall i :: 0 <= i < |l.folds| ==> WellFormedFold(l.folds[i])
  }

  predicate WellFormedLines(ls: seq<Line>) {
    forall i :: 0 <= i < |ls| ==> WellFormedLine(ls[i])
  }

  predicate WellFormedVersion(s: string) { s != "" && Digits(s) && DecValue(s) <= INT_MAX }

  /** Verb and URI are well formed. */
  predicate WellFormedStart(h: Head) { h.verb != "" && Tokens(h.verb) && Printable(h.uri) && NoSpace(h.uri) }

  predicate WellFormedHead(h: Head) {
    && WellFormedStart(h)
    && WellFormedVersion(h.versionMajor) && WellFormedVersion(h.versionMinor)
    && WellFormedLines(h.lines)
  }

  /** The body is as long as the first Content-Length says, and empty without one. */
  predicate WellFormedMessage(m: Message) {
    WellFormedHead(m.head) && AnnouncedLength(HeadersOf(m.head.lines)) == Some(|m.body|)
  }

  // ----- text -----

  function Folds(fs: seq<Fold>): string {
    if fs == [] then "" else Folds(fs[..|fs| - 1]) + "\r\n" + fs[|fs| - 1].lws + fs[|fs| - 1].text
  }

  /** A line without its closing CRLF. */
  function OpenLine(l: Line): string { l.name + ": " + l.first + Folds(l.folds) }

  function Lines(ls: seq<Line>): string {
    if ls == [] then "" else Lines(ls[..|ls| - 1]) + OpenLine(ls[|ls| - 1]) + "\r\n"
  }

  function VersionStart(h: Head): string { h.verb + " " + h.uri + " " }

  function RequestLine(h: Head): string {
    VersionStart(h) + "HTTP/" + h.versionMajor + "." + h.versionMinor + "\r\n"
  }

  function HeadText(h: Head): string { RequestLine(h) + Lines(h.lines) + "\r\n" }

  function MessageText(m: Message): string { HeadText(m.head) + m.body }

  // ----- meaning -----

  /** Folds are joined with no separator. */
  function FoldedText(fs: seq<Fold>): string {
    if fs == [] then "" else FoldedText(fs[..|fs| - 1]) + fs[|fs| - 1].text
  }

  function HeaderOf(l: Line): Header { Header(l.name, l.first + FoldedText(l.folds)) }

  function HeadersOf(ls: seq<Line>): (hs: seq<Header>)
    ensures |hs| == |ls|
  {
    if ls == [] then [] else HeadersOf(ls[..|ls| - 1]) + [HeaderOf(ls[|ls| - 1])]
  }

  function HeadData(h: Head): Data {
    Data(HeadersOf(h.lines), h.verb, h.uri, "", DecValue(h.versionMajor), DecValue(h.versionMinor), 0)
  }

  function MessageData(m: Message): Data {
    HeadData(m.head).(content := m.body, contentLength := |m.body|)
  }

  // ----- one more line, one more fold -----

  lemma FoldsSnoc(fs: seq<Fold>, f: Fold)
    ensures Folds(fs + [f]) == Folds(fs) + "\r\n" + f.lws + f.text
    ensures FoldedText(fs + [f]) == FoldedText(fs) + f.text
  {
    assert (fs + [f])[..|fs|] == fs;
  }

  lemma LinesSnoc(ls: seq<Line>, l: Line)
    ensures Lines(ls + [l]) == Lines(ls) + OpenLine(l) + "\r\n"
    ensures HeadersOf(ls + [l]) == HeadersOf(ls) + [HeaderOf(l)]
  {
    assert (ls + [l])[..|ls|] == ls;
  }
}
