/** Scanning and printing of cookies. */
module Cookies {
  import opened Text

  datatype Cookie = Cookie(
    name: string, value: string, path: string, domain: string,
    httpOnly: bool, secure: bool, expires: real)

  /** A default-constructed cookie; `expires` of -1.0 means no date. */
  const NO_COOKIE: Cookie := Cookie("", "", "", "", false, false, -1.0)

  datatype Pair = Pair(name: string, value: string)

  /** The class `[\w-_.]` in the "C" locale. */
  predicate IsNameChar(c: char) {
    'a' <= c <= 'z' || 'A' <= c <= 'Z' || '0' <= c <= '9' || c == '_' || c == '-' || c == '.'
  }

  /** By codes: the digits, the letters, '-', '.' and '_'. */
  lemma NameChars(c: char)
    ensures var k := c as int;
            IsNameChar(c) <==> 48 <= k <= 57 || 65 <= k <= 90 || 97 <= k <= 122 || k == 45 || k == 46 || k == 95
  {
  }

  predicate IsName(s: string) { s != "" && forall i :: 0 <= i < |s| ==> IsNameChar(s[i]) }

  predicate IsValue(s: string) { ';' !in s }

  // ----- one match of ([\w-_.]+)=([^;]*) -----

  /** The pattern matches from `i`, with the equals sign at `j`, up to `k`. */
  predicate IsMatch(s: string, i: int, j: int, k: int) {
    && 0 <= i < j < k <= |s| && s[j] == '='
    && (forall m :: i <= m < j ==> IsNameChar(s[m]))
    && (forall m :: j < m < k ==> s[m] != ';')
  }

  datatype Match = Match(start: nat, equals: nat, end: nat)

  function NameRun(s: string): (n: nat)
    ensures n <= |s|
  {
    if s != "" && IsNameChar(s[0]) then 1 + NameRun(s[1..]) else 0
  }

  lemma {:induction false} NameRunIsMaximal(s: string)
    ensures var n := NameRun(s);
            (n < |s| ==> !IsNameChar(s[n])) && forall m :: 0 <= m < n ==> IsNameChar(s[m])
  {
    if s != "" && IsNameChar(s[0]) {
      NameRunIsMaximal(s[1..]);
      assert forall m :: 1 <= m < |s| ==> s[m] == s[1..][m - 1];
    }
  }

  function ValueRun(s: string): (n: nat)
    ensures n <= |s|
  {
    if s != "" && s[0] != ';' then 1 + ValueRun(s[1..]) else 0
  }

  lemma {:induction false} ValueRunIsMaximal(s: string)
    ensures var n := ValueRun(s);
            (n < |s| ==> s[n] == ';') && forall m :: 0 <= m < n ==> s[m] != ';'
  {
    if s != "" && s[0] != ';' {
      ValueRunIsMaximal(s[1..]);
      assert forall m :: 1 <= m < |s| ==> s[m] == s[1..][m - 1];
    }
  }

  predicate StartsWithPair(s: string) {
    var j := NameRun(s);
    0 < j < |s| && s[j] == '='
  }

  /** How far the search goes on where no match starts. */
  function SkipLength(s: string): (n: nat)
    requires s != ""
    ensures 0 < n <= |s|
  {
    if NameRun(s) == 0 then 1 else NameRun(s)
  }

  /** `std::regex_search` with that pattern: a name is a maximal run of name characters, so behind
      a run that no equals sign follows the search goes on. */
  function RegexSearch(s: string): (r: Option<Match>)
    ensures r.Some? ==> r.value.start < r.value.equals < r.value.end <= |s|
  {
    if s == "" then None
    else if StartsWithPair(s) then
      var j := NameRun(s);
      Some(Match(0, j, j + 1 + ValueRun(s[j + 1..])))
    else
      var n := SkipLength(s);
      match RegexSearch(s[n..])
      case None => None
      case Some(m) => Some(Moved(m, n))
  }

  function Moved(m: Match, n: nat): Match { Match(m.start + n, m.equals + n, m.end + n) }

  /** A match behind the first `n` characters, seen from the start. */
  lemma MatchBehind(s: string, n: nat, i: int, j: int, k: int)
    requires n <= |s| && n <= i
    ensures IsMatch(s, i, j, k) <==> IsMatch(s[n..], i - n, j - n, k - n)
  {
    var t := s[n..];
    assert forall m :: n <= m < |s| ==> s[m] == t[m - n];
    assert forall m :: 0 <= m < |t| ==> t[m] == s[m + n];
  }

  lemma PairIsMatch(s: string)
    requires StartsWithPair(s)
    ensures var j := NameRun(s); IsMatch(s, 0, j, j + 1 + ValueRun(s[j + 1..]))
  {
    var j := NameRun(s);
    var t := s[j + 1..];
    NameRunIsMaximal(s);
    ValueRunIsMaximal(t);
    assert forall m :: j < m < |s| ==> s[m] == t[m - (j + 1)];
  }

  lemma SearchSkips(s: string, t: string)
    requires s != "" && !StartsWithPair(s) && t == s[SkipLength(s)..]
    ensures var r := RegexSearch(t);
            RegexSearch(s) == if r.Some? then Some(Moved(r.value, SkipLength(s))) else None
  {
  }

  predicate IsMatchAt(s: string, r: Option<Match>) {
    r.Some? ==> IsMatch(s, r.value.start, r.value.equals, r.value.end)
  }

  lemma MatchFurther(s: string, n: nat, t: string, r: Option<Match>)
    requires n <= |s| && t == s[n..] && IsMatchAt(t, r)
    ensures IsMatchAt(s, if r.Some? then Some(Moved(r.value, n)) else None)
  {
    if r.Some? { MatchBehind(s, n, r.value.start + n, r.value.equals + n, r.value.end + n); }
  }

  lemma {:induction false} SearchMatches(s: string)
    ensures IsMatchAt(s, RegexSearch(s))
  {
    if s == "" {
    } else if StartsWithPair(s) {
      PairIsMatch(s);
    } else {
      var n := SkipLength(s);
      var t := s[n..];
      SearchMatches(t);
      SearchSkips(s, t);
      MatchFurther(s, n, t, RegexSearch(t));
    }
  }

  lemma {:induction false} SearchIsLeftmost(s: string, i: int, j: int, k: int)
    requires IsMatch(s, i, j, k)
    ensures var r := RegexSearch(s);
            && r.Some? && r.value.start <= i
            && (r.value.start == i ==> r.value.equals == j && k <= r.value.end)
    decreases |s|
  {
    var n := NameRun(s);
    NameRunIsMaximal(s);
    if StartsWithPair(s) {
      if i == 0 {
        assert j == n;
        var v := ValueRun(s[n + 1..]);
        ValueRunIsMaximal(s[n + 1..]);
        assert n + 1 + v < |s| ==> s[n + 1 + v] == s[n + 1..][v];
      }
    } else {
      var skip := SkipLength(s);
      assert i < n ==> j == n;
      assert skip <= i;
      MatchBehind(s, skip, i, j, k);
      SearchIsLeftmost(s[skip..], i - skip, j - skip, k - skip);
    }
  }

  /** The search finds the leftmost match, and from there the longest name and the longest value;
      it finds nothing exactly when there is no match anywhere. */
  lemma SearchIsLeftmostGreedy(s: string)
    ensures RegexSearch(s).None? <==> forall i, j, k :: !IsMatch(s, i, j, k)
    ensures RegexSearch(s).Some? ==>
              var m := RegexSearch(s).value;
              && IsMatch(s, m.start, m.equals, m.end)
              && forall i, j, k :: IsMatch(s, i, j, k) ==>
                   m.start <= i && (i == m.start ==> j == m.equals && k <= m.end)
  {
    SearchMatches(s);
    forall i, j, k | IsMatch(s, i, j, k)
      ensures RegexSearch(s).Some?
      ensures var m := RegexSearch(s).value; m.start <= i && (i == m.start ==> j == m.equals && k <= m.end)
    {
      SearchIsLeftmost(s, i, j, k);
    }
  }

  // ----- all matches -----

  /** The pairs of a cookie text, left to right: where a name run is followed by an equals sign there
      is a pair; otherwise the run, or one other character, is passed over. */
  function Scan(s: string): (ps: seq<Pair>)
    decreases |s|
  {
    if s == "" then []
    else if StartsWithPair(s) then
      var j := NameRun(s);
      var k := j + 1 + ValueRun(s[j + 1..]);
      [Pair(s[..j], s[j + 1..k])] + Scan(s[k..])
    else Scan(s[SkipLength(s)..])
  }

  /** The pair a match cuts out. */
  function PairAt(s: string, m: Match): Pair
    requires m.start < m.equals < m.end <= |s|
  {
    Pair(s[m.start..m.equals], s[m.equals + 1..m.end])
  }

  /** What a search result says about the pairs found from there on. */
  predicate CutsTo(s: string, r: Option<Match>, ps: seq<Pair>)
    requires r.Some? ==> r.value.start < r.value.equals < r.value.end <= |s|
  {
    match r
    case None => ps == []
    case Some(m) => ps == [PairAt(s, m)] + Scan(s[m.end..])
  }

  /** Searching, cutting behind the match and searching again finds the same pairs. */
  predicate BySearching(s: string) { CutsTo(s, RegexSearch(s), Scan(s)) }

  lemma {:induction false} ScanBySearching(s: string)
    ensures BySearching(s)
    decreases |s|
  {
    if s == "" {
    } else if StartsWithPair(s) {
      SearchingAtStart(s);
    } else {
      var n := SkipLength(s);
      var t := s[n..];
      ScanBySearching(t);
      SearchSkips(s, t);
      ScanSkips(s, t);
      CutsFurther(s, n, t, RegexSearch(t), Scan(t));
    }
  }

  lemma SearchingAtStart(s: string)
    requires StartsWithPair(s)
    ensures BySearching(s)
  {
    var j := NameRun(s);
    assert s[0..j] == s[..j];
  }

  lemma ScanSkips(s: string, t: string)
    requires s != "" && !StartsWithPair(s) && t == s[SkipLength(s)..]
    ensures Scan(s) == Scan(t)
  {
  }

  lemma CutsFurther(s: string, n: nat, t: string, r: Option<Match>, ps: seq<Pair>)
    requires n <= |s| && t == s[n..] && (r.Some? ==> r.value.start < r.value.equals < r.value.end <= |t|)
    requires CutsTo(t, r, ps)
    ensures CutsTo(s, if r.Some? then Some(Moved(r.value, n)) else None, ps)
  {
    if r.Some? {
      PairBehind(s, n, t, r.value);
    }
  }

  lemma PairBehind(s: string, n: nat, t: string, m: Match)
    requires n <= |s| && t == s[n..] && m.start < m.equals < m.end <= |t|
    ensures PairAt(t, m) == PairAt(s, Moved(m, n)) && t[m.end..] == s[Moved(m, n).end..]
  {
    assert t[m.start..m.equals] == s[m.start + n..m.equals + n];
    assert t[m.equals + 1..m.end] == s[m.equals + n + 1..m.end + n];
  }

  function CookieOf(p: Pair): Cookie { NO_COOKIE.(name := p.name, value := p.value) }

  /** A cookie that has a name and a value and nothing else. */
  predicate IsPlain(c: Cookie, name: string, value: string) {
    && c.name == name && c.value == value
    && c.path == "" && c.domain == "" && !c.httpOnly && !c.secure && c.expires == -1.0
  }

  /** Cookie for cookie, these pairs and nothing else. */
  predicate ArePlain(cs: seq<Cookie>, ps: seq<Pair>) {
    |cs| == |ps| && forall i :: 0 <= i < |cs| ==> IsPlain(cs[i], ps[i].name, ps[i].value)
  }

  function CookiesOf(ps: seq<Pair>): (cs: seq<Cookie>)
    ensures |cs| == |ps|
  {
    seq(|ps|, i requires 0 <= i < |ps| => CookieOf(ps[i]))
  }

  lemma CookiesSnoc(ps: seq<Pair>, p: Pair)
    ensures CookiesOf(ps + [p]) == CookiesOf(ps) + [CookieOf(p)]
  {
  }

  /** What remains to be scanned, seen from the loop below. */
  predicate ScannedSoFar(found: seq<Pair>, s: string, text: string) { found + Scan(s) == Scan(text) }

  lemma ScanStep(found: seq<Pair>, s: string, text: string, m: Match)
    requires ScannedSoFar(found, s, text) && RegexSearch(s) == Some(m)
    ensures ScannedSoFar(found + [PairAt(s, m)], s[m.end..], text)
  {
    ScanBySearching(s);
    var rest := Scan(s[m.end..]);
    assert found + [PairAt(s, m)] + rest == found + ([PairAt(s, m)] + rest);
  }

  lemma ScanDone(found: seq<Pair>, s: string, text: string)
    requires ScannedSoFar(found, s, text) && RegexSearch(s) == None
    ensures found == Scan(text)
  {
    ScanBySearching(s);
    assert found + [] == found;
  }

  /** The loop of `Cookie::fromString`. */
  method FromString(text: string) returns (cookies: seq<Cookie>)
    ensures cookies == CookiesOf(Scan(text)) && ArePlain(cookies, Scan(text))
    ensures forall ps :: PairsOk(ps) && text == CookieList(ps) ==> ArePlain(cookies, ps)
  {
    var s := text;
    ghost var found: seq<Pair> := [];
    cookies := [];
    var found? := RegexSearch(s);
    assert [] + Scan(s) == Scan(text);
    while found?.Some?
      invariant found? == RegexSearch(s)
      invariant ScannedSoFar(found, s, text)
      invariant cookies == CookiesOf(found)
      decreases |s|
    {
      var m := found?.value;
      var pair := Pair(s[m.start..m.equals], s[m.equals + 1..m.end]);
      cookies := cookies + [CookieOf(pair)];
      CookiesSnoc(found, pair);
      ScanStep(found, s, text, m);
      found := found + [pair];
      s := s[m.end..];
      found? := RegexSearch(s);
    }
    ScanDone(found, s, text);
    ScannedArePlain(text);
  }

  lemma ScannedArePlain(text: string)
    ensures var cookies := CookiesOf(Scan(text));
            ArePlain(cookies, Scan(text)) &&
            forall ps :: PairsOk(ps) && text == CookieList(ps) ==> ArePlain(cookies, ps)
  {
    forall ps | PairsOk(ps) && text == CookieList(ps) ensures ArePlain(CookiesOf(Scan(text)), ps) {
      CookieListRoundTrip(ps);
    }
  }

  predicate PairOk(p: Pair) { IsName(p.name) && IsValue(p.value) }

  predicate PairsOk(ps: seq<Pair>) { forall i :: 0 <= i < |ps| ==> PairOk(ps[i]) }

  lemma MatchIsPair(s: string, m: Match)
    requires IsMatch(s, m.start, m.equals, m.end)
    ensures PairOk(PairAt(s, m))
  {
  }

  lemma PairsOkFrom(p: Pair, ps: seq<Pair>)
    requires PairOk(p) && PairsOk(ps)
    ensures PairsOk([p] + ps)
  {
  }

  lemma {:induction false} ScanFindsPairs(s: string)
    ensures PairsOk(Scan(s))
    decreases |s|
  {
    ScanBySearching(s);
    SearchMatches(s);
    var r := RegexSearch(s);
    if r.Some? {
      var rest := s[r.value.end..];
      MatchIsPair(s, r.value);
      ScanFindsPairs(rest);
      PairsOkFrom(PairAt(s, r.value), Scan(rest));
    }
  }

  // ----- round trips -----

  /** One item of a cookie text: a pair, or a bare attribute such as `Secure`. */
  datatype Item = Assigned(pair: Pair) | Bare(word: string)

  predicate ItemOk(t: Item) {
    match t
    case Assigned(p) => PairOk(p)
    case Bare(w) => IsName(w)
  }

  predicate ItemsOk(ts: seq<Item>) { forall i :: 0 <= i < |ts| ==> ItemOk(ts[i]) }

  function ItemText(t: Item): string {
    match t
    case Assigned(p) => p.name + "=" + p.value
    case Bare(w) => w
  }

  /** The text of the items behind the first, each announced by "; ". */
  function Tail(ts: seq<Item>): string {
    if ts == [] then "" else "; " + ItemText(ts[0]) + Tail(ts[1..])
  }

  function Joined(ts: seq<Item>): string { if ts == [] then "" else ItemText(ts[0]) + Tail(ts[1..]) }

  function PairsIn(ts: seq<Item>): seq<Pair> {
    if ts == [] then []
    else (if ts[0].Assigned? then [ts[0].pair] else []) + PairsIn(ts[1..])
  }

  lemma {:induction false} NameRunOf(w: string, rest: string)
    requires forall m :: 0 <= m < |w| ==> IsNameChar(w[m])
    requires rest == "" || !IsNameChar(rest[0])
    ensures NameRun(w + rest) == |w|
  {
    if w == "" {
      assert w + rest == rest;
    } else {
      assert (w + rest)[1..] == w[1..] + rest;
      NameRunOf(w[1..], rest);
    }
  }

  lemma {:induction false} ValueRunOf(v: string, rest: string)
    requires IsValue(v) && (rest == "" || rest[0] == ';')
    ensures ValueRun(v + rest) == |v|
  {
    if v == "" {
      assert v + rest == rest;
    } else {
      assert (v + rest)[1..] == v[1..] + rest;
      ValueRunOf(v[1..], rest);
    }
  }

  lemma ScanPair(p: Pair, rest: string)
    requires PairOk(p) && (rest == "" || rest[0] == ';')
    ensures Scan(p.name + "=" + p.value + rest) == [p] + Scan(rest)
  {
    var s, n, k := p.name + "=" + p.value + rest, |p.name|, |p.name| + 1 + |p.value|;
    PairCut(p, rest);
    NameRunOf(p.name, "=" + p.value + rest);
    ValueRunOf(p.value, rest);
    assert StartsWithPair(s);
    assert Scan(s) == [Pair(s[..n], s[n + 1..k])] + Scan(s[k..]);
  }

  /** Where the parts of a pair lie. */
  lemma PairCut(p: Pair, rest: string)
    ensures var s, n := p.name + "=" + p.value + rest, |p.name|;
            && s == p.name + ("=" + p.value + rest) && s[n] == '=' && s[n + 1..] == p.value + rest
            && s[..n] == p.name && s[n + 1..n + 1 + |p.value|] == p.value && s[n + 1 + |p.value|..] == rest
  {
  }

  lemma ScanBare(w: string, rest: string)
    requires IsName(w) && (rest == "" || rest[0] == ';')
    ensures Scan(w + rest) == Scan(rest)
  {
    NameRunOf(w, rest);
    assert (w + rest)[|w|..] == rest;
  }

  lemma ScanSeparator(rest: string)
    ensures Scan("; " + rest) == Scan(rest)
  {
    assert ("; " + rest)[1..] == " " + rest;
    assert (" " + rest)[1..] == rest;
  }

  lemma {:induction false} ScanTail(ts: seq<Item>)
    requires ItemsOk(ts)
    ensures Scan(Tail(ts)) == PairsIn(ts)
  {
    if ts == [] {
    } else {
      ScanTail(ts[1..]);
      var rest := Tail(ts[1..]);
      ScanItem(ts[0], rest);
      ScanSeparator(ItemText(ts[0]) + rest);
      assert "; " + ItemText(ts[0]) + rest == "; " + (ItemText(ts[0]) + rest);
    }
  }

  lemma ScanItem(t: Item, rest: string)
    requires ItemOk(t) && (rest == "" || rest[0] == ';')
    ensures Scan(ItemText(t) + rest) == (if t.Assigned? then [t.pair] else []) + Scan(rest)
  {
    match t
    case Assigned(p) => ScanPair(p, rest);
    case Bare(w) => ScanBare(w, rest);
  }

  /** Scanning joined items gives back exactly the pairs among them, in order. */
  lemma ScanOfJoined(ts: seq<Item>)
    requires ItemsOk(ts)
    ensures Scan(Joined(ts)) == PairsIn(ts)
  {
    if ts != [] {
      ScanTail(ts[1..]);
      ScanItem(ts[0], Tail(ts[1..]));
    }
  }

  function AsItems(ps: seq<Pair>): seq<Item> {
    if ps == [] then [] else [Assigned(ps[0])] + AsItems(ps[1..])
  }

  /** The cookie list of section 4.2.1 of RFC 6265. */
  function CookieList(ps: seq<Pair>): string { Joined(AsItems(ps)) }

  lemma {:induction false} PairsInAsItems(ps: seq<Pair>)
    ensures PairsIn(AsItems(ps)) == ps
    ensures PairsOk(ps) ==> ItemsOk(AsItems(ps))
  {
    if ps == [] {
    } else {
      PairsInAsItems(ps[1..]);
      assert PairsOk(ps) ==> PairsOk(ps[1..]);
    }
  }

  /** A list of pairs survives printing and scanning exactly when its names are non-empty and made
      of name characters and no value has a semicolon. */
  lemma CookieListRoundTrip(ps: seq<Pair>)
    ensures Scan(CookieList(ps)) == ps <==> PairsOk(ps)
  {
    PairsInAsItems(ps);
    if PairsOk(ps) {
      ScanOfJoined(AsItems(ps));
    }
    ScanFindsPairs(CookieList(ps));
  }

  // ----- printing one cookie -----

  function When(b: bool, t: Item): seq<Item> { if b then [t] else [] }

  function TextWhen(b: bool, s: string): string { if b then s else "" }

  /** What a cookie prints as; nothing at all without a name or a value. */
  function CookieText(c: Cookie, date: real -> string): string {
    if c.name == "" || c.value == "" then ""
    else c.name + "=" + c.value
         + TextWhen(c.path != "", "; Path=" + c.path)
         + TextWhen(c.domain != "", "; Domain=" + c.domain)
         + TextWhen(c.httpOnly, "; HttpOnly")
         + TextWhen(c.secure, "; Secure")
         + TextWhen(c.expires != -1.0, "; Expires=" + date(c.expires))
  }

  /** `Cookie::toString`, appending to a stream piece by piece. */
  method ToString(c: Cookie, date: real -> string) returns (text: string)
    ensures text == CookieText(c, date)
  {
    if c.name == "" || c.value == "" {
      return "";
    }
    text := c.name + "=" + c.value;
    text := AppendScope(text, c);
    text := AppendFlags(text, c);
    if c.expires != -1.0 {
      text := text + ("; Expires=" + date(c.expires));
    } else {
      assert text + "" == text;
    }
  }

  method AppendFlags(before: string, c: Cookie) returns (text: string)
    ensures text == before + TextWhen(c.httpOnly, "; HttpOnly") + TextWhen(c.secure, "; Secure")
  {
    text := before;
    if c.httpOnly {
      text := text + "; HttpOnly";
    } else {
      assert text + "" == text;
    }
    if c.secure {
      text := text + "; Secure";
    } else {
      assert text + "" == text;
    }
  }

  /** The first two insertions. */
  method AppendScope(before: string, c: Cookie) returns (text: string)
    ensures text == before + TextWhen(c.path != "", "; Path=" + c.path)
                    + TextWhen(c.domain != "", "; Domain=" + c.domain)
  {
    text := before;
    if c.path != "" {
      text := text + ("; Path=" + c.path);
    }
    if c.domain != "" {
      text := text + ("; Domain=" + c.domain);
    }
  }

  lemma TailWhen(b: bool, t: Item)
    ensures Tail(When(b, t)) == TextWhen(b, "; " + ItemText(t))
    ensures PairsIn(When(b, t)) == if b && t.Assigned? then [t.pair] else []
  {
    assert [t][1..] == [];
    assert Tail([]) == "";
    assert "; " + ItemText(t) + "" == "; " + ItemText(t);
  }

  function ScopeItems(c: Cookie): seq<Item> {
    When(c.path != "", Assigned(Pair("Path", c.path))) + When(c.domain != "", Assigned(Pair("Domain", c.domain)))
  }

  function FlagItems(c: Cookie): seq<Item> { When(c.httpOnly, Bare("HttpOnly")) + When(c.secure, Bare("Secure")) }

  function DateItems(c: Cookie, date: real -> string): seq<Item> {
    When(c.expires != -1.0, Assigned(Pair("Expires", date(c.expires))))
  }

  function Attributes(c: Cookie, date: real -> string): seq<Item> {
    ScopeItems(c) + FlagItems(c) + DateItems(c, date)
  }

  /** An attribute with a value; `announced` is the literal the code inserts before the value. */
  lemma ValueText(b: bool, announced: string, name: string, value: string)
    requires announced == "; " + name + "="
    ensures Tail(When(b, Assigned(Pair(name, value)))) == TextWhen(b, announced + value)
    ensures PairsIn(When(b, Assigned(Pair(name, value)))) == PairWhen(b, Pair(name, value))
  {
    TailWhen(b, Assigned(Pair(name, value)));
    assert "; " + (name + "=" + value) == announced + value;
  }

  lemma ScopeText(c: Cookie)
    ensures Tail(ScopeItems(c)) == TextWhen(c.path != "", "; Path=" + c.path)
                                   + TextWhen(c.domain != "", "; Domain=" + c.domain)
    ensures PairsIn(ScopeItems(c)) == PairWhen(c.path != "", Pair("Path", c.path))
                                      + PairWhen(c.domain != "", Pair("Domain", c.domain))
  {
    TailConcat(When(c.path != "", Assigned(Pair("Path", c.path))),
        When(c.domain != "", Assigned(Pair("Domain", c.domain))));
    PairsConcat(When(c.path != "", Assigned(Pair("Path", c.path))),
        When(c.domain != "", Assigned(Pair("Domain", c.domain))));
    PathText(c);
    DomainText(c);
  }

  lemma PathText(c: Cookie)
    ensures Tail(When(c.path != "", Assigned(Pair("Path", c.path)))) == TextWhen(c.path != "", "; Path=" + c.path)
    ensures PairsIn(When(c.path != "", Assigned(Pair("Path", c.path)))) == PairWhen(c.path != "", Pair("Path", c.path))
  {
    ValueText(c.path != "", "; Path=", "Path", c.path);
  }

  lemma DomainText(c: Cookie)
    ensures Tail(When(c.domain != "", Assigned(Pair("Domain", c.domain)))) ==
        TextWhen(c.domain != "", "; Domain=" + c.domain)
    ensures PairsIn(When(c.domain != "", Assigned(Pair("Domain", c.domain)))) ==
        PairWhen(c.domain != "", Pair("Domain", c.domain))
  {
    ValueText(c.domain != "", "; Domain=", "Domain", c.domain);
  }

  lemma FlagText(c: Cookie)
    ensures Tail(FlagItems(c)) == TextWhen(c.httpOnly, "; HttpOnly") + TextWhen(c.secure, "; Secure")
    ensures PairsIn(FlagItems(c)) == []
  {
    TailConcat(When(c.httpOnly, Bare("HttpOnly")), When(c.secure, Bare("Secure")));
    PairsConcat(When(c.httpOnly, Bare("HttpOnly")), When(c.secure, Bare("Secure")));
    TailWhen(c.httpOnly, Bare("HttpOnly"));
    TailWhen(c.secure, Bare("Secure"));
    assert "; " + ItemText(Bare("HttpOnly")) == "; HttpOnly";
    assert "; " + ItemText(Bare("Secure")) == "; Secure";
  }

  lemma DateText(c: Cookie, date: real -> string)
    ensures Tail(DateItems(c, date)) == TextWhen(c.expires != -1.0, "; Expires=" + date(c.expires))
    ensures PairsIn(DateItems(c, date)) == PairWhen(c.expires != -1.0, Pair("Expires", date(c.expires)))
  {
    ValueText(c.expires != -1.0, "; Expires=", "Expires", date(c.expires));
  }

  lemma AttributesText(c: Cookie, date: real -> string)
    ensures Tail(Attributes(c, date)) == Tail(ScopeItems(c)) + Tail(FlagItems(c)) + Tail(DateItems(c, date))
    ensures PairsIn(Attributes(c, date)) == PairsIn(ScopeItems(c)) + PairsIn(FlagItems(c)) + PairsIn(DateItems(c, date))
  {
    TailConcat(ScopeItems(c) + FlagItems(c), DateItems(c, date));
    PairsConcat(ScopeItems(c) + FlagItems(c), DateItems(c, date));
    TailConcat(ScopeItems(c), FlagItems(c));
    PairsConcat(ScopeItems(c), FlagItems(c));
  }

  lemma {:induction false} TailConcat(ts: seq<Item>, us: seq<Item>)
    ensures Tail(ts + us) == Tail(ts) + Tail(us)
  {
    if ts == [] {
      assert ts + us == us;
    } else {
      assert (ts + us)[1..] == ts[1..] + us;
      TailConcat(ts[1..], us);
      var t := "; " + ItemText(ts[0]);
      assert t + (Tail(ts[1..]) + Tail(us)) == t + Tail(ts[1..]) + Tail(us);
    }
  }

  lemma {:induction false} PairsConcat(ts: seq<Item>, us: seq<Item>)
    ensures PairsIn(ts + us) == PairsIn(ts) + PairsIn(us)
  {
    if ts == [] {
      assert ts + us == us;
    } else {
      assert (ts + us)[1..] == ts[1..] + us;
      PairsConcat(ts[1..], us);
      var first := if ts[0].Assigned? then [ts[0].pair] else [];
      assert first + (PairsIn(ts[1..]) + PairsIn(us)) == first + PairsIn(ts[1..]) + PairsIn(us);
    }
  }

  /** Cookies whose printed form can be scanned back. */
  predicate Scannable(c: Cookie, date: real -> string) {
    && IsName(c.name) && c.value != "" && IsValue(c.value) && IsValue(c.path) && IsValue(c.domain)
    && (c.expires != -1.0 ==> IsValue(date(c.expires)))
  }

  function PairWhen(b: bool, p: Pair): seq<Pair> { if b then [p] else [] }

  function PrintedAttributes(c: Cookie, date: real -> string): seq<Pair> {
    PairWhen(c.path != "", Pair("Path", c.path))
    + PairWhen(c.domain != "", Pair("Domain", c.domain))
    + PairWhen(c.expires != -1.0, Pair("Expires", date(c.expires)))
  }

  lemma ItemsOkConcat(ts: seq<Item>, us: seq<Item>)
    requires ItemsOk(ts) && ItemsOk(us)
    ensures ItemsOk(ts + us)
  {
  }

  lemma WhenOk(b: bool, t: Item)
    requires b ==> ItemOk(t)
    ensures ItemsOk(When(b, t))
  {
  }

  lemma AttributesOk(c: Cookie, date: real -> string)
    requires Scannable(c, date)
    ensures ItemsOk(Attributes(c, date))
  {
    ScopeOk(c, date);
    WhenOk(c.httpOnly, Bare("HttpOnly"));
    WhenOk(c.secure, Bare("Secure"));
    WhenOk(c.expires != -1.0, Assigned(Pair("Expires", date(c.expires))));
    ItemsOkConcat(ScopeItems(c), FlagItems(c));
    ItemsOkConcat(ScopeItems(c) + FlagItems(c), DateItems(c, date));
  }

  lemma ScopeOk(c: Cookie, date: real -> string)
    requires Scannable(c, date)
    ensures ItemsOk(ScopeItems(c))
  {
    WhenOk(c.path != "", Assigned(Pair("Path", c.path)));
    WhenOk(c.domain != "", Assigned(Pair("Domain", c.domain)));
  }

  /** Scanning a printed cookie finds the pair, then Path, Domain and Expires as far as they are
      there, exactly when the cookie is of the right form; the bare attributes leave no trace. */
  lemma PrintedCookieScan(c: Cookie, date: real -> string)
    ensures Scan(CookieText(c, date)) == [Pair(c.name, c.value)] + PrintedAttributes(c, date) <==> Scannable(c, date)
  {
    if Scannable(c, date) { ScannableIsScanned(c, date); }
    ScanFindsPairs(CookieText(c, date));
    if Scan(CookieText(c, date)) == [Pair(c.name, c.value)] + PrintedAttributes(c, date) {
      OnlyGoodAttributes(c, date);
      assert c.value == "" ==> Scan(CookieText(c, date)) == [];
    }
  }

  lemma OnlyGoodAttributes(c: Cookie, date: real -> string)
    requires PairsOk([Pair(c.name, c.value)] + PrintedAttributes(c, date))
    ensures PairOk(Pair(c.name, c.value))
    ensures IsValue(c.path) && IsValue(c.domain) && (c.expires != -1.0 ==> IsValue(date(c.expires)))
  {
    var ps := [Pair(c.name, c.value)] + PrintedAttributes(c, date);
    assert ps[0] == Pair(c.name, c.value);
    assert c.path != "" ==> ps[1] == Pair("Path", c.path);
    assert c.domain != "" ==> ps[if c.path != "" then 2 else 1] == Pair("Domain", c.domain);
    assert c.expires != -1.0 ==> ps[|ps| - 1] == Pair("Expires", date(c.expires));
  }

  lemma ScannableIsScanned(c: Cookie, date: real -> string)
    requires Scannable(c, date)
    ensures Scan(CookieText(c, date)) == [Pair(c.name, c.value)] + PrintedAttributes(c, date)
  {
    var ts := Attributes(c, date);
    AttributesOk(c, date);
    ScanTail(ts);
    TailShape(ts);
    ScanPair(Pair(c.name, c.value), Tail(ts));
    CookieTextTail(c, date);
    PairsInAttributes(c, date);
  }

  lemma PairsInAttributes(c: Cookie, date: real -> string)
    ensures PairsIn(Attributes(c, date)) == PrintedAttributes(c, date)
  {
    AttributesText(c, date);
    ScopeText(c);
    FlagText(c);
    DateText(c, date);
  }

  lemma CookieTextTail(c: Cookie, date: real -> string)
    requires c.name != "" && c.value != ""
    ensures CookieText(c, date) == c.name + "=" + c.value + Tail(Attributes(c, date))
  {
    AttributesText(c, date);
    ScopeText(c);
    FlagText(c);
    DateText(c, date);
    Regroup(c.name + "=" + c.value,
            TextWhen(c.path != "", "; Path=" + c.path), TextWhen(c.domain != "", "; Domain=" + c.domain),
            TextWhen(c.httpOnly, "; HttpOnly"), TextWhen(c.secure, "; Secure"),
            TextWhen(c.expires != -1.0, "; Expires=" + date(c.expires)));
  }

  lemma Regroup(s: string, t: string, u: string, v: string, w: string, x: string)
    ensures s + t + u + v + w + x == s + ((t + u) + (v + w) + x)
  {
  }

  lemma TailShape(ts: seq<Item>)
    ensures Tail(ts) == "" || Tail(ts)[0] == ';'
  {
  }
}
