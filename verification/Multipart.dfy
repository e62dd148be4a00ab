/** The hand-built upload body of internal/uploader/uploader.go, and a reader of it that
    follows section 5.1.1 of RFC 2046 (parts as in section 4 of RFC 7578). Bytes are chars. */
module Multipart {
  import opened Basics

  datatype Part = Part(name: string, filename: Option<string>, ctype: Option<string>, body: string)

  // ---------------------------------------------------------------- quoting

  /** The letter `%q` escapes this control character with, if it has one. */
  function Letter(c: char): Option<char> {
    match c as int
    case 7 => Some('a')
    case 8 => Some('b')
    case 9 => Some('t')
    case 10 => Some('n')
    case 11 => Some('v')
    case 12 => Some('f')
    case 13 => Some('r')
    case _ => None
  }

  predicate Control(c: char) { c < ' ' || c as int == 127 }

  function Hex(n: nat): (c: char)
    requires n < 16
    ensures !Control(c) && c != '"' && c != '\\' && c != '-'
  {
    if n < 10 then Digit(n) else 'a' + (n - 10) as char
  }

  /** What `%q` writes for one character. */
  function Escaped(c: char): (e: string)
    ensures e != [] && forall i | 0 <= i < |e| :: !Control(e[i])
  {
    if c == '"' || c == '\\' then ['\\', c]
    else if Control(c) then
      (match Letter(c)
       case Some(l) => ['\\', l]
       case None => ['\\', 'x', Hex(c as int / 16), Hex(c as int % 16)])
    else [c]
  }

  function EscapedAll(s: string): (e: string)
    ensures forall i | 0 <= i < |e| :: !Control(e[i])
  {
    if s == "" then "" else Escaped(s[0]) + EscapedAll(s[1..])
  }

  /** `%q` of a string of bytes. */
  function Quoted(s: string): (q: string)
    ensures forall i | 0 <= i < |q| :: !Control(q[i])
  {
    ['"'] + EscapedAll(s) + ['"']
  }

  /** The rest of a quoted string: a backslash stands for the character after it. */
  function Unquoted(t: string): Option<(string, string)> {
    if t == "" then None
    else if t[0] == '"' then Some(("", t[1..]))
    else if t[0] == '\\' then
      if |t| < 2 then None
      else
        match Unquoted(t[2..])
        case None => None
        case Some((s, rest)) => Some(([t[1]] + s, rest))
    else
      match Unquoted(t[1..])
      case None => None
      case Some((s, rest)) => Some(([t[0]] + s, rest))
  }

  /** What a reader makes of one quoted character: itself, unless it is a control character. */
  function ReadBack(c: char): (r: string)
    ensures r != [] && forall i | 0 <= i < |r| :: !Control(r[i])
  {
    if Control(c) then
      (match Letter(c)
       case Some(l) => [l]
       case None => ['x', Hex(c as int / 16), Hex(c as int % 16)])
    else [c]
  }

  function ReadBackAll(s: string): (r: string)
    ensures forall i | 0 <= i < |r| :: !Control(r[i])
  {
    if s == "" then "" else ReadBack(s[0]) + ReadBackAll(s[1..])
  }

  predicate Printable(s: string) {
    forall i | 0 <= i < |s| :: !Control(s[i])
  }

  lemma {:induction false} QuotedReads(s: string, rest: string)
    ensures Unquoted(EscapedAll(s) + (['"'] + rest)) == Some((ReadBackAll(s), rest))
  {
    var end := ['"'] + rest;
    if s == "" {
      assert EscapedAll(s) + end == end;
      assert end[1..] == rest;
    } else {
      QuotedReads(s[1..], rest);
      OneReads(s[0], EscapedAll(s[1..]) + end, ReadBackAll(s[1..]), rest);
      assert EscapedAll(s) + end == Escaped(s[0]) + (EscapedAll(s[1..]) + end);
    }
  }

  lemma OneReads(c: char, t: string, s: string, rest: string)
    requires Unquoted(t) == Some((s, rest))
    ensures Unquoted(Escaped(c) + t) == Some((ReadBack(c) + s, rest))
  {
    var e := Escaped(c);
    if |e| == 1 {
      assert (e + t)[1..] == t;
    } else if |e| == 2 {
      assert (e + t)[2..] == t;
    } else {
      PlainReads(e[3], t, s, rest);
      PlainReads(e[2], [e[3]] + t, [e[3]] + s, rest);
      var u := [e[2]] + ([e[3]] + t);
      assert e + t == ['\\', 'x'] + u;
      assert (e + t)[2..] == u;
      assert ['x'] + ([e[2]] + ([e[3]] + s)) == ReadBack(c) + s;
    }
  }

  lemma PlainReads(c: char, t: string, s: string, rest: string)
    requires Unquoted(t) == Some((s, rest)) && c != '"' && c != '\\'
    ensures Unquoted([c] + t) == Some(([c] + s, rest))
  {
  }

  lemma {:induction false} PrintableReadsBack(s: string)
    requires Printable(s)
    ensures ReadBackAll(s) == s
  {
    if s != "" {
      PrintableReadsBack(s[1..]);
    }
  }

  /** A quoted name reads back as itself exactly when it holds no control character. */
  lemma ReadsBackWhen(s: string)
    ensures ReadBackAll(s) == s <==> Printable(s)
  {
  }

  // ---------------------------------------------------------------- one part

  const LEAD := "Content-Disposition: form-data; name="
  const FILE := "; filename="
  const TYPE := "\r\nContent-Type: "

  function TypePiece(ctype: Option<string>, typed: string): string {
    if ctype.Some? then typed + ctype.value else ""
  }

  function FilePiece(filename: Option<string>, file: string): string {
    if filename.Some? then file + Quoted(filename.value) else ""
  }

  /** A part's header, given the fixed words around its values. */
  function HeaderWith(p: Part, lead: string, file: string, typed: string): string {
    lead + (Quoted(p.name) + (FilePiece(p.filename, file) + TypePiece(p.ctype, typed)))
  }

  function HeaderOf(p: Part): string { HeaderWith(p, LEAD, FILE, TYPE) }

  function StartsWith(s: string, pre: string): (b: bool)
    ensures b <==> pre <= s
  {
    |pre| <= |s| && s[..|pre|] == pre
  }

  function AfterQuote(t: string): Option<(string, string)> {
    if t == "" || t[0] != '"' then None else Unquoted(t[1..])
  }

  function ParseType(t: string, typed: string): Option<Option<string>> {
    if t == "" then Some(None)
    else if StartsWith(t, typed) then Some(Some(t[|typed|..]))
    else None
  }

  /** Name, file name and content type, given the fixed words around them. */
  function ParseWith(h: string, lead: string, file: string, typed: string)
    : Option<(string, Option<string>, Option<string>)>
  {
    if !StartsWith(h, lead) then None
    else
      match AfterQuote(h[|lead|..])
      case None => None
      case Some((name, t)) =>
        if StartsWith(t, file) then
          match AfterQuote(t[|file|..])
          case None => None
          case Some((filename, u)) =>
            match ParseType(u, typed)
            case None => None
            case Some(ctype) => Some((name, Some(filename), ctype))
        else
          match ParseType(t, typed)
          case None => None
          case Some(ctype) => Some((name, None, ctype))
  }

  lemma Stripped(pre: string, rest: string)
    ensures StartsWith(pre + rest, pre) && (pre + rest)[|pre|..] == rest
  {
  }

  lemma AfterQuoteOf(s: string, rest: string)
    ensures AfterQuote(Quoted(s) + rest) == Some((ReadBackAll(s), rest))
  {
    QuotedReads(s, rest);
    assert (Quoted(s) + rest)[1..] == EscapedAll(s) + (['"'] + rest);
  }

  function ReadBackOption(s: Option<string>): Option<string> {
    if s.Some? then Some(ReadBackAll(s.value)) else None
  }

  lemma TypeParses(ctype: Option<string>, typed: string)
    requires typed != ""
    ensures ParseType(TypePiece(ctype, typed), typed) == Some(ctype)
  {
  }

  lemma PiecesParse(p: Part, lead: string, file: string, typed: string)
    requires file != "" && typed != "" && file[0] != typed[0]
    ensures ParseWith(HeaderWith(p, lead, file, typed), lead, file, typed)
         == Some((ReadBackAll(p.name), ReadBackOption(p.filename), p.ctype))
  {
    var u := TypePiece(p.ctype, typed);
    var t := FilePiece(p.filename, file) + u;
    Stripped(lead, Quoted(p.name) + t);
    AfterQuoteOf(p.name, t);
    TypeParses(p.ctype, typed);
    if p.filename.Some? {
      assert t == file + (Quoted(p.filename.value) + u);
      Stripped(file, Quoted(p.filename.value) + u);
      AfterQuoteOf(p.filename.value, u);
    } else {
      assert t == u;
      assert p.ctype.Some? ==> u[0] == typed[0];
    }
  }

  lemma Words()
    ensures FILE != "" && TYPE != "" && FILE[0] != TYPE[0]
    ensures '\r' !in LEAD && '\r' !in FILE && '\r' !in TYPE[1..]
    ensures |TYPE| > 2 && TYPE[0] == '\r' && TYPE[1] == '\n' && TYPE[2] == 'C'
  {
  }

  function ParseHeader(h: string): Option<(string, Option<string>, Option<string>)> {
    ParseWith(h, LEAD, FILE, TYPE)
  }

  lemma HeaderParses(p: Part)
    ensures ParseHeader(HeaderOf(p)) == Some((ReadBackAll(p.name), ReadBackOption(p.filename), p.ctype))
  {
    Words();
    PiecesParse(p, LEAD, FILE, TYPE);
  }

  // ---------------------------------------------------------------- finding delimiters

  predicate Occurs(pattern: string, s: string, at: nat) {
    at + |pattern| <= |s| && s[at..at + |pattern|] == pattern
  }

  function SearchFrom(s: string, pattern: string, from: nat): (r: Option<nat>)
    requires from <= |s|
    ensures r.Some? ==> from <= r.value && Occurs(pattern, s, r.value)
    ensures r.Some? ==> forall i: nat | from <= i < r.value :: !Occurs(pattern, s, i)
    ensures r.None? ==> forall i: nat | from <= i :: !Occurs(pattern, s, i)
    decreases |s| - from
  {
    if Occurs(pattern, s, from) then Some(from)
    else if from == |s| then None
    else SearchFrom(s, pattern, from + 1)
  }

  /** The first occurrence of the pattern. */
  function Search(s: string, pattern: string): (r: Option<nat>)
    ensures r.Some? ==> Occurs(pattern, s, r.value) && forall i: nat | i < r.value :: !Occurs(pattern, s, i)
    ensures r.None? ==> forall i: nat :: !Occurs(pattern, s, i)
  {
    SearchFrom(s, pattern, 0)
  }

  const CRLF := ['\r', '\n']
  const BLANK := ['\r', '\n', '\r', '\n']

  function Dash(b: string): string { ['-', '-'] + b }

  function Delimiter(b: string): (d: string)
    ensures |d| == 4 + |b| && d[0] == '\r' && d[1] == '\n' && d[2] == '-' && d[3] == '-' && d[4..] == b
  {
    CRLF + Dash(b)
  }

  /** A boundary without CR, as `randomBoundary` makes them. */
  predicate Boundary(b: string) { '\r' !in b }

  lemma HeadOnly(b: string)
    requires Boundary(b)
    ensures forall k | 1 <= k < |Delimiter(b)| :: Delimiter(b)[k] != '\r'
  {
  }

  lemma Letters(pattern: string, s: string, at: nat)
    requires Occurs(pattern, s, at)
    ensures forall k | at <= k < at + |pattern| :: s[k] == pattern[k - at]
  {
  }

  /** The key fact: CR is only at the head of the delimiter, so two of its occurrences are
      the same one or do not overlap. */
  lemma NoOverlap(b: string, s: string, i: nat, j: nat)
    requires Boundary(b) && Occurs(Delimiter(b), s, i) && Occurs(Delimiter(b), s, j) && i < j
    ensures i + |Delimiter(b)| <= j
  {
    HeadOnly(b);
    Letters(Delimiter(b), s, i);
    Letters(Delimiter(b), s, j);
    assert s[j] == '\r';
  }

  /** No delimiter can be taken to begin in a body, at its start or after one of its line
      breaks. */
  predicate Clear(b: string, body: string) {
    forall i: nat | i <= |body| :: !Occurs(Delimiter(b), CRLF + body, i)
  }

  /** Enough for that: the boundary line does not occur in the body. */
  lemma ClearWithout(b: string, body: string)
    requires forall i: nat | i <= |body| :: !Occurs(Dash(b), body, i)
    ensures Clear(b, body)
  {
    forall i: nat | i <= |body|
      ensures !Occurs(Delimiter(b), CRLF + body, i)
    {
      if Occurs(Delimiter(b), CRLF + body, i) {
        assert body[i..i + |Dash(b)|] == (CRLF + body)[i..i + |Delimiter(b)|][2..];
        assert Delimiter(b)[2..] == Dash(b);
        assert Occurs(Dash(b), body, i);
      }
    }
  }

  /** In a header every CR begins a line break that neither a dash nor another line break
      follows. */
  predicate HeaderLike(h: string) {
    forall i | 0 <= i < |h| && h[i] == '\r' :: i + 2 < |h| && h[i + 1] == '\n' && h[i + 2] != '-' && h[i + 2] != '\r'
  }

  lemma FrontHeaderLike(front: string, typed: string, ctype: string)
    requires '\r' !in front && '\r' !in ctype
    requires |typed| > 2 && typed[0] == '\r' && typed[1] == '\n' && typed[2] != '-' && '\r' !in typed[1..]
    ensures HeaderLike(front) && HeaderLike(front + (typed + ctype))
  {
  }

  lemma QuotedNoBreak(s: string)
    ensures '\r' !in Quoted(s)
  {
  }

  lemma PiecesHeaderLike(p: Part, lead: string, file: string, typed: string)
    requires p.ctype.Some? ==> '\r' !in p.ctype.value
    requires '\r' !in lead && '\r' !in file
    requires |typed| > 2 && typed[0] == '\r' && typed[1] == '\n' && typed[2] != '-' && '\r' !in typed[1..]
    ensures HeaderLike(HeaderWith(p, lead, file, typed))
  {
    var front := lead + (Quoted(p.name) + FilePiece(p.filename, file));
    QuotedNoBreak(p.name);
    if p.filename.Some? {
      QuotedNoBreak(p.filename.value);
    }
    assert '\r' !in front;
    FrontHeaderLike(front, typed, if p.ctype.Some? then p.ctype.value else "");
    assert HeaderWith(p, lead, file, typed) == front + TypePiece(p.ctype, typed);
    assert front + "" == front;
  }

  lemma HeaderIsHeaderLike(p: Part)
    requires p.ctype.Some? ==> '\r' !in p.ctype.value
    ensures HeaderLike(HeaderOf(p))
  {
    Words();
    PiecesHeaderLike(p, LEAD, FILE, TYPE);
  }

  // ---------------------------------------------------------------- one section

  /** A part between its delimiters: header, blank line, body. */
  function Section(h: string, body: string): (s: string)
    ensures |s| == |h| + 4 + |body|
  {
    h + (BLANK + body)
  }

  /** No line of a header, and no blank line after one, can be taken for a delimiter. */
  lemma NotInHeader(h: string, body: string, rest: string, i: nat)
    requires HeaderLike(h) && i < |h| + 2 && i + 2 < |h| + 4 + |body| + |rest|
    ensures var s := Section(h, body) + rest; s[i] == '\r' ==> s[i + 2] != '-'
  {
  }

  lemma Inner(u: string, v: string, w: string, pattern: string, i: nat)
    requires |u| <= i && i + |pattern| <= |u| + |v|
    ensures Occurs(pattern, u + v + w, i) <==> Occurs(pattern, v, i - |u|)
  {
  }

  /** Where a delimiter can occur before the one that ends the section: only where the body
      is not clear of it. */
  lemma DelimiterIn(h: string, body: string, b: string, rest: string, i: nat)
    requires Boundary(b) && HeaderLike(h) && i < |h| + 4 + |body|
    ensures Occurs(Delimiter(b), Section(h, body) + (Delimiter(b) + rest), i) ==>
      i >= |h| + 2 && Occurs(Delimiter(b), CRLF + body, i - (|h| + 2))
  {
    var d := Delimiter(b);
    var s := Section(h, body) + (d + rest);
    var end := |h| + 4 + |body|;
    assert Occurs(d, s, end) by {
      assert s[end..end + |d|] == d;
    }
    if Occurs(d, s, i) {
      Letters(d, s, i);
      assert s[i] == '\r' && s[i + 2] == '-';
      if i < |h| + 2 {
        NotInHeader(h, body, d + rest, i);
      }
      NoOverlap(b, s, i, end);
      assert s == (h + CRLF) + (CRLF + body) + (d + rest);
      Inner(h + CRLF, CRLF + body, d + rest, d, i);
    }
  }

  lemma ClearIsFound(h: string, body: string, b: string, rest: string)
    requires Boundary(b) && HeaderLike(h) && Clear(b, body)
    ensures Search(Section(h, body) + (Delimiter(b) + rest), Delimiter(b)) == Some(|Section(h, body)|)
  {
    var s := Section(h, body) + (Delimiter(b) + rest);
    var n := |Section(h, body)|;
    assert s[n..n + |Delimiter(b)|] == Delimiter(b);
    assert Occurs(Delimiter(b), s, n);
    forall i: nat | i < n
      ensures !Occurs(Delimiter(b), s, i)
    {
      DelimiterIn(h, body, b, rest, i);
    }
  }

  /** A body that is not clear is cut short, or its part is lost with the blank line. */
  lemma UnclearIsCut(h: string, body: string, b: string, rest: string) returns (n: nat)
    requires Boundary(b) && HeaderLike(h) && !Clear(b, body)
    ensures Search(Section(h, body) + (Delimiter(b) + rest), Delimiter(b)) == Some(n)
    ensures |h| + 2 <= n < |Section(h, body)|
  {
    var s := Section(h, body) + (Delimiter(b) + rest);
    var i: nat :| i <= |body| && Occurs(Delimiter(b), CRLF + body, i);
    var j := i + |h| + 2;
    assert s[j..j + |Delimiter(b)|] == (CRLF + body)[i..i + |Delimiter(b)|];
    assert Occurs(Delimiter(b), s, j);
    n := Search(s, Delimiter(b)).value;
    DelimiterIn(h, body, b, rest, n);
  }

  function ParsePart(section: string): Option<Part> {
    match Search(section, BLANK)
    case None => None
    case Some(n) =>
      match ParseHeader(section[..n])
      case None => None
      case Some((name, filename, ctype)) => Some(Part(name, filename, ctype, section[n + 4..]))
  }

  /** A header holds no blank line, nor the beginning of one. */
  lemma NoBlankWithin(h: string, s: string, i: nat)
    requires HeaderLike(h) && h <= s && i < |h|
    ensures !Occurs(BLANK, s, i)
  {
    assert s[i] == h[i];
    if i + 4 <= |s| {
      assert s[i..i + 4][0] == s[i] && s[i..i + 4][2] == s[i + 2];
      assert i + 2 < |h| ==> s[i + 2] == h[i + 2];
    }
  }

  lemma BlankFound(h: string, body: string)
    requires HeaderLike(h)
    ensures Search(Section(h, body), BLANK) == Some(|h|)
  {
    var s := Section(h, body);
    assert s[|h|..|h| + 4] == BLANK;
    assert Occurs(BLANK, s, |h|);
    forall i: nat | i < |h|
      ensures !Occurs(BLANK, s, i)
    {
      NoBlankWithin(h, s, i);
    }
  }

  /** The part a section of p's header and some body reads back as. */
  function PartReadBack(p: Part, body: string): Part {
    Part(ReadBackAll(p.name), ReadBackOption(p.filename), p.ctype, body)
  }

  lemma SectionParses(p: Part, body: string)
    requires p.ctype.Some? ==> '\r' !in p.ctype.value
    ensures ParsePart(Section(HeaderOf(p), body)) == Some(PartReadBack(p, body))
  {
    var h := HeaderOf(p);
    HeaderIsHeaderLike(p);
    BlankFound(h, body);
    HeaderParses(p);
    SectionSplits(h, body);
  }

  lemma SectionSplits(h: string, body: string)
    ensures Section(h, body)[..|h|] == h && Section(h, body)[|h| + 4..] == body
  {
  }

  /** A section cut off inside or before its body never reads back as the part it was. */
  lemma CutSectionDiffers(p: Part, n: nat)
    requires p.ctype.Some? ==> '\r' !in p.ctype.value
    requires |HeaderOf(p)| + 2 <= n < |Section(HeaderOf(p), p.body)|
    ensures ParsePart(Section(HeaderOf(p), p.body)[..n]) != Some(p)
  {
    var h := HeaderOf(p);
    var cut := Section(h, p.body)[..n];
    match Search(cut, BLANK)
    case None =>
    case Some(m) =>
      HeaderIsHeaderLike(p);
      forall i: nat | i < |h|
        ensures !Occurs(BLANK, cut, i)
      {
        NoBlankWithin(h, cut, i);
      }
  }

  // ---------------------------------------------------------------- the whole body

  /** A reader: the boundary line first, then parts up to the delimiter each, then two dashes. */
  function Parse(b: string, s: string): Option<seq<Part>> {
    if StartsWith(s, Dash(b)) then Sections(b, s[|Dash(b)|..]) else None
  }

  /** The part after a boundary line's `--boundary`, and what follows the next one. */
  function ReadPart(b: string, s: string): (r: Option<(Part, string)>)
    ensures r.Some? ==> |r.value.1| < |s|
  {
    if !StartsWith(s, CRLF) then None
    else
      var t := s[2..];
      match Search(t, Delimiter(b))
      case None => None
      case Some(n) =>
        match ParsePart(t[..n])
        case None => None
        case Some(p) => Some((p, t[n + |Delimiter(b)|..]))
  }

  /** The text after a boundary line's `--boundary`. */
  function Sections(b: string, s: string): Option<seq<Part>>
    decreases |s|
  {
    if StartsWith(s, ['-', '-']) then Some([])
    else
      match ReadPart(b, s)
      case None => None
      case Some((p, rest)) =>
        match Sections(b, rest)
        case None => None
        case Some(more) => Some([p] + more)
  }

  /** What follows the first `--boundary`. */
  function Tail(b: string, parts: seq<Part>): string {
    if parts == [] then ['-', '-'] + CRLF
    else CRLF + (Section(HeaderOf(parts[0]), parts[0].body) + (Delimiter(b) + Tail(b, parts[1..])))
  }

  /** A part's content type is one of the service's own words. */
  predicate Typed(parts: seq<Part>) {
    forall i | 0 <= i < |parts| :: parts[i].ctype.Some? ==> '\r' !in parts[i].ctype.value
  }

  /** A part survives the trip: its names are printable and its body is clear of the delimiter. */
  predicate Survives(b: string, p: Part) {
    && Printable(p.name)
    && (p.filename.Some? ==> Printable(p.filename.value))
    && Clear(b, p.body)
  }

  lemma ReadsBackAsItself(p: Part)
    ensures PartReadBack(p, p.body) == p <==> Printable(p.name) && (p.filename.Some? ==> Printable(p.filename.value))
  {
    ReadsBackWhen(p.name);
    if p.filename.Some? {
      ReadsBackWhen(p.filename.value);
    }
  }

  /** The reader on a section whose delimiter it finds at n. */
  lemma ReadsUpTo(b: string, t: string, n: nat)
    requires Search(t, Delimiter(b)) == Some(n)
    ensures ReadPart(b, CRLF + t) ==
      match ParsePart(t[..n]) case None => None case Some(p) => Some((p, t[n + |Delimiter(b)|..]))
  {
  }

  lemma Taken(a: string, d: string, rest: string)
    ensures (a + (d + rest))[..|a|] == a && (a + (d + rest))[|a| + |d|..] == rest
  {
  }

  lemma TakenShort(a: string, rest: string, n: nat)
    requires n <= |a|
    ensures (a + rest)[..n] == a[..n]
  {
  }

  lemma ClearSection(b: string, p: Part, rest: string)
    requires Boundary(b) && Clear(b, p.body) && (p.ctype.Some? ==> '\r' !in p.ctype.value)
    ensures ReadPart(b, CRLF + (Section(HeaderOf(p), p.body) + (Delimiter(b) + rest)))
         == Some((PartReadBack(p, p.body), rest))
  {
    var section := Section(HeaderOf(p), p.body);
    HeaderIsHeaderLike(p);
    ClearIsFound(HeaderOf(p), p.body, b, rest);
    ReadsUpTo(b, section + (Delimiter(b) + rest), |section|);
    SectionParses(p, p.body);
    Taken(section, Delimiter(b), rest);
  }

  lemma UnclearSection(b: string, p: Part, rest: string)
    requires Boundary(b) && !Clear(b, p.body) && (p.ctype.Some? ==> '\r' !in p.ctype.value)
    ensures var r := ReadPart(b, CRLF + (Section(HeaderOf(p), p.body) + (Delimiter(b) + rest)));
      r.None? || r.value.0 != p
  {
    var section := Section(HeaderOf(p), p.body);
    HeaderIsHeaderLike(p);
    var n := UnclearIsCut(HeaderOf(p), p.body, b, rest);
    ReadsUpTo(b, section + (Delimiter(b) + rest), n);
    CutSectionDiffers(p, n);
    TakenShort(section, Delimiter(b) + rest, n);
  }

  lemma SectionsOne(b: string, s: string)
    requires s != "" && s[0] == '\r'
    ensures var r := ReadPart(b, s);
      Sections(b, s) ==
        if r.None? || Sections(b, r.value.1).None? then None
        else Some([r.value.0] + Sections(b, r.value.1).value)
  {
  }

  lemma Consed<T>(p: T, more: seq<T>, parts: seq<T>)
    requires parts != []
    ensures [p] + more == parts <==> p == parts[0] && more == parts[1..]
  {
  }

  /** The reader goes on from what one part leaves. */
  lemma SectionsFrom(b: string, s: string, parts: seq<Part>)
    requires s != "" && s[0] == '\r' && parts != []
    ensures Sections(b, s) == Some(parts) <==>
      var r := ReadPart(b, s);
      r.Some? && r.value.0 == parts[0] && Sections(b, r.value.1) == Some(parts[1..])
  {
    SectionsOne(b, s);
    var r := ReadPart(b, s);
    if r.Some? && Sections(b, r.value.1).Some? {
      Consed(r.value.0, Sections(b, r.value.1).value, parts);
    }
  }

  /** The fate of one part. */
  lemma PartReads(b: string, p: Part, rest: string)
    requires Boundary(b) && (p.ctype.Some? ==> '\r' !in p.ctype.value)
    ensures var r := ReadPart(b, CRLF + (Section(HeaderOf(p), p.body) + (Delimiter(b) + rest)));
      if Survives(b, p) then r == Some((p, rest)) else r.None? || r.value.0 != p
  {
    ReadsBackAsItself(p);
    if Clear(b, p.body) {
      ClearSection(b, p, rest);
    } else {
      UnclearSection(b, p, rest);
    }
  }

  predicate AllSurvive(b: string, parts: seq<Part>) {
    forall i | 0 <= i < |parts| :: Survives(b, parts[i])
  }

  lemma SurviveSplit(b: string, p: Part, rest: seq<Part>)
    ensures AllSurvive(b, [p] + rest) <==> Survives(b, p) && AllSurvive(b, rest)
  {
    var parts := [p] + rest;
    if AllSurvive(b, parts) {
      assert parts[0] == p;
      forall i | 0 <= i < |rest|
        ensures Survives(b, rest[i])
      {
        assert rest[i] == parts[i + 1];
      }
    }
  }

  lemma {:induction false} TailRoundTrip(b: string, parts: seq<Part>)
    requires Boundary(b) && Typed(parts)
    ensures Sections(b, Tail(b, parts)) == Some(parts) <==> AllSurvive(b, parts)
    decreases |parts|
  {
    if parts != [] {
      var p, rest := parts[0], parts[1..];
      assert parts == [p] + rest;
      assert Typed(rest);
      TailRoundTrip(b, rest);
      SurviveSplit(b, p, rest);
      PartReads(b, p, Tail(b, rest));
      SectionsFrom(b, Tail(b, parts), parts);
    }
  }
}
