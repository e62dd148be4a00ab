/** One post to the media API: `Post`, `prologue` and `randomBoundary` of
    internal/uploader/uploader.go. */
module Uploader {
  import opened Basics
  import opened Multipart
  import Ordering

  type Routing = map<string, string>

  datatype Request = Request(filename: string, caption: string, duration: int, width: int, height: int)

  // ---------------------------------------------------------------- what is sent

  const OWN := ["caption", "filename", "duration", "width", "height", "no_audio"]
  const THUMBNAIL := "thumbnail"
  const COVER_NAME := "cover.jpg"
  const JPEG := "image/jpeg"
  const VIDEO := "video"
  const MP4 := "video/mp4"

  function Values(req: Request): (values: seq<string>)
    ensures |values| == 6
  {
    [req.caption, req.filename, Itoa(req.duration), Itoa(req.width), Itoa(req.height), "true"]
  }

  function Field(name: string, value: string): Part { Part(name, None, None, value) }

  function Fields(names: seq<string>, values: seq<string>): (parts: seq<Part>)
    requires |names| == |values|
    ensures |parts| == |names| && forall i | 0 <= i < |names| :: parts[i] == Field(names[i], values[i])
  {
    seq(|names|, i requires 0 <= i < |names| && |names| == |values| => Field(names[i], values[i]))
  }

  function Looked(keys: seq<string>, m: Routing): (values: seq<string>)
    requires forall i | 0 <= i < |keys| :: keys[i] in m
    ensures |values| == |keys| && forall i | 0 <= i < |keys| :: values[i] == m[keys[i]]
  {
    seq(|keys|, i requires 0 <= i < |keys| && keys[i] in m => m[keys[i]])
  }

  /** The configured routing, in key order. */
  ghost function PassThrough(m: Routing): seq<Part> {
    Fields(Ordering.Ordered(m.Keys), Looked(Ordering.Ordered(m.Keys), m))
  }

  /** The cover, if it could be read and holds anything. */
  function Cover(read: Option<string>): seq<Part> {
    if read.Some? && read.value != "" then [Part(THUMBNAIL, Some(COVER_NAME), Some(JPEG), read.value)]
    else []
  }

  function Video(req: Request, bytes: string): Part {
    Part(VIDEO, Some(req.filename), Some(MP4), bytes)
  }

  /** Every part but the video, in order. */
  ghost function Before(m: Routing, req: Request, read: Option<string>): seq<Part> {
    PassThrough(m) + Fields(OWN, Values(req)) + Cover(read)
  }

  /** The parts of a post, in order: routing, the service's own fields, cover, video. */
  ghost function Parts(m: Routing, req: Request, read: Option<string>, video: string): seq<Part> {
    Before(m, req, read) + [Video(req, video)]
  }

  // ---------------------------------------------------------------- how it is written

  /** One part and the line break after it. */
  function Line(b: string, p: Part): string {
    Dash(b) + CRLF + Section(HeaderOf(p), p.body) + CRLF
  }

  /** Texts one after the other. */
  function Flat(texts: seq<string>): string {
    if texts == [] then "" else Flat(texts[..|texts| - 1]) + texts[|texts| - 1]
  }

  lemma Associates<T>(x: seq<T>, y: seq<T>, z: seq<T>)
    ensures x + y + z == x + (y + z)
  {
  }

  lemma FlatMore(texts: seq<string>, text: string)
    ensures Flat(texts + [text]) == Flat(texts) + text
  {
  }

  lemma FlatOne(text: string)
    ensures Flat([text]) == text
  {
  }

  lemma {:induction false} FlatJoin(x: seq<string>, y: seq<string>)
    ensures Flat(x + y) == Flat(x) + Flat(y)
    decreases |y|
  {
    if y == [] {
      assert x + y == x;
    } else {
      var front, last := y[..|y| - 1], y[|y| - 1];
      FlatJoin(x, front);
      assert x + y == (x + front) + [last];
      FlatMore(x + front, last);
      Associates(Flat(x), Flat(front), last);
    }
  }

  function Texts(b: string, parts: seq<Part>): (texts: seq<string>)
    ensures |texts| == |parts| && forall i | 0 <= i < |parts| :: texts[i] == Line(b, parts[i])
  {
    seq(|parts|, i requires 0 <= i < |parts| => Line(b, parts[i]))
  }

  function Lines(b: string, parts: seq<Part>): string { Flat(Texts(b, parts)) }

  /** What has been written since start is the first i texts. */
  ghost predicate Written(out: string, start: string, texts: seq<string>, i: nat)
    requires i <= |texts|
  {
    out == start + Flat(texts[..i])
  }

  lemma WriteOne(was: string, start: string, texts: seq<string>, i: nat)
    requires i < |texts| && Written(was, start, texts, i)
    ensures Written(was + texts[i], start, texts, i + 1)
  {
    assert texts[..i + 1] == texts[..i] + [texts[i]];
    FlatMore(texts[..i], texts[i]);
  }

  lemma WrittenNone(start: string, texts: seq<string>)
    ensures Written(start, start, texts, 0)
  {
  }

  lemma WrittenAll(out: string, start: string, texts: seq<string>)
    requires Written(out, start, texts, |texts|)
    ensures out == start + Flat(texts)
  {
    assert texts[..|texts|] == texts;
  }

  function VideoHead(b: string, req: Request): string {
    Dash(b) + CRLF + HeaderOf(Video(req, "")) + BLANK
  }

  function Epilogue(b: string): string { CRLF + Dash(b) + ['-', '-'] + CRLF }

  /** The closure of `prologue` that writes one field. */
  method WriteField(buf: string, b: string, name: string, value: string) returns (out: string)
    ensures out == buf + Line(b, Field(name, value))
  {
    out := buf + ['-', '-'] + b + CRLF;
    out := out + LEAD + Quoted(name);
    out := out + BLANK + value + CRLF;
    FieldLine(buf, b, name, value);
  }

  lemma FieldLine(buf: string, b: string, name: string, value: string)
    ensures buf + ['-', '-'] + b + CRLF + LEAD + Quoted(name) + BLANK + value + CRLF
         == buf + Line(b, Field(name, value))
  {
    FieldHeader(name, value, LEAD, FILE, TYPE);
    LineSplits(buf, b, LEAD + Quoted(name), value);
  }

  lemma FieldHeader(name: string, value: string, lead: string, file: string, typed: string)
    ensures HeaderWith(Field(name, value), lead, file, typed) == lead + Quoted(name)
  {
  }

  lemma LineSplits(buf: string, b: string, header: string, body: string)
    ensures buf + ['-', '-'] + b + CRLF + header + BLANK + body + CRLF
         == buf + (Dash(b) + CRLF + Section(header, body) + CRLF)
  {
  }

  /** The next part of a run of them. */
  method WriteNext(
    buf: string, b: string, name: string, value: string, ghost start: string, ghost parts: seq<Part>, ghost i: nat)
    returns (out: string)
    requires i < |parts| && parts[i] == Field(name, value) && Written(buf, start, Texts(b, parts), i)
    ensures Written(out, start, Texts(b, parts), i + 1)
  {
    WriteOne(buf, start, Texts(b, parts), i);
    out := WriteField(buf, b, name, value);
  }

  /** Fields under these names, in this order. */
  method WriteFields(buf: string, b: string, names: seq<string>, values: seq<string>) returns (out: string)
    requires |names| == |values|
    ensures out == buf + Lines(b, Fields(names, values))
  {
    ghost var parts := Fields(names, values);
    out := buf;
    WrittenNone(buf, Texts(b, parts));
    for i := 0 to |names|
      invariant Written(out, buf, Texts(b, parts), i)
    {
      out := WriteNext(out, b, names[i], values[i], buf, parts, i);
    }
    WrittenAll(out, buf, Texts(b, parts));
  }

  /** The configured routing, in key order. */
  method WriteRouting(buf: string, b: string, m: Routing) returns (out: string)
    ensures out == buf + Lines(b, PassThrough(m))
  {
    var keys := Ordering.SortedKeys(m);
    assert forall i | 0 <= i < |keys| :: keys[i] in keys;
    out := WriteFields(buf, b, keys, Looked(keys, m));
  }

  /** The six fields the service owns. */
  method WriteOwn(buf: string, b: string, req: Request) returns (out: string)
    ensures out == buf + Lines(b, Fields(OWN, Values(req)))
  {
    out := WriteFields(buf, b, OWN,
      [req.caption, req.filename, Itoa(req.duration), Itoa(req.width), Itoa(req.height), "true"]);
  }

  method WriteThumbnail(buf: string, b: string, cover: string) returns (out: string)
    ensures out == buf + Line(b, Part(THUMBNAIL, Some(COVER_NAME), Some(JPEG), cover))
  {
    var header := HeaderOf(Part(THUMBNAIL, Some(COVER_NAME), Some(JPEG), cover));
    out := buf + ['-', '-'] + b + CRLF + header + BLANK;
    out := out + cover;
    out := out + CRLF;
    LineSplits(buf, b, header, cover);
  }

  lemma LineAlone(b: string, p: Part)
    ensures Lines(b, [p]) == Line(b, p)
  {
    FlatOne(Line(b, p));
    assert Texts(b, [p]) == [Line(b, p)];
  }

  lemma NoLines(buf: string, b: string)
    ensures buf + Lines(b, []) == buf
  {
  }

  method WriteCover(buf: string, b: string, read: Option<string>) returns (out: string)
    ensures out == buf + Lines(b, Cover(read))
  {
    if read.Some? && |read.value| > 0 {
      out := WriteThumbnail(buf, b, read.value);
      LineAlone(b, Part(THUMBNAIL, Some(COVER_NAME), Some(JPEG), read.value));
    } else {
      NoLines(buf, b);
      out := buf;
    }
  }

  lemma LinesJoin(b: string, x: seq<Part>, y: seq<Part>)
    ensures Lines(b, x + y) == Lines(b, x) + Lines(b, y)
  {
    assert Texts(b, x + y) == Texts(b, x) + Texts(b, y);
    FlatJoin(Texts(b, x), Texts(b, y));
  }

  lemma ThreeRuns(b: string, x: seq<Part>, y: seq<Part>, z: seq<Part>)
    ensures "" + Lines(b, x) + Lines(b, y) + Lines(b, z) == Lines(b, x + y + z)
  {
    LinesJoin(b, x, y);
    LinesJoin(b, x + y, z);
    FromNothing(Lines(b, x), Lines(b, y), Lines(b, z));
  }

  lemma FromNothing(x: string, y: string, z: string)
    ensures "" + x + y + z == x + y + z
  {
  }

  /** `prologue`: everything up to the video's bytes. */
  method Prologue(b: string, m: Routing, req: Request, read: Option<string>) returns (buf: string)
    ensures buf == Lines(b, Before(m, req, read)) + VideoHead(b, req)
  {
    buf := WriteRouting("", b, m);
    buf := WriteOwn(buf, b, req);
    buf := WriteCover(buf, b, read);
    ThreeRuns(b, PassThrough(m), Fields(OWN, Values(req)), Cover(read));
    buf := buf + VideoHead(b, req);
  }

  // ---------------------------------------------------------------- the post

  datatype Answer = Unreachable | Http(status: int, payload: string, ids: Option<seq<int>>)

  datatype Outcome = Sent(ids: seq<int>) | Failure(status: int, payload: string, retryable: bool)

  datatype Wire = Wire(body: string, length: nat)

  const SERVER_ERROR_FLOOR := 500

  /** Nothing is worth another attempt but a missing boundary, a transport failure and a
      server error. */
  predicate WorthRetrying(random: Option<seq<nat>>, ready: bool, answer: Answer) {
    random.None? || (ready && (answer.Unreachable? || answer.status >= SERVER_ERROR_FLOOR))
  }

  /** `Post`. random is what the generator gave, video the opened file's bytes, read the
      cover's; formed says the request could be built. */
  method Post(
    m: Routing, req: Request, random: Option<seq<nat>>, video: Option<string>, read: Option<string>,
    formed: bool, answer: Answer)
    returns (out: Outcome, sent: Option<Wire>)
    requires random.Some? ==> Bytes(random.value)
    ensures sent.Some? <==> random.Some? && video.Some? && formed
    ensures sent.Some? ==>
      var b := RandomBoundary(random.value);
      sent.value.body == Dash(b) + Tail(b, Parts(m, req, read, video.value)) && sent.value.length == |sent.value.body|
    ensures sent.Some? ==> Says(Parts(m, req, read, video.value), req)
    ensures out.Sent? <==> sent.Some? && answer.Http? && answer.status == 200 && answer.ids.Some?
    ensures out.Sent? ==> out.ids == answer.ids.value
    ensures out.Failure? ==> (out.retryable <==> WorthRetrying(random, sent.Some?, answer))
  {
    if random.None? {
      return Failure(0, "", true), None;
    }
    var b := RandomBoundary(random.value);
    if video.None? {
      return Failure(0, "", false), None;
    }
    var prologue := Prologue(b, m, req, read);
    var epilogue := CRLF + Dash(b) + ['-', '-'] + CRLF;
    if !formed {
      return Failure(0, "", false), None;
    }
    sent := Some(Wire(prologue + video.value + epilogue, |prologue| + |video.value| + |epilogue|));
    Layout(b, Before(m, req, read), req, video.value);
    RequestArrives(m, req, read, video.value);
    if answer.Unreachable? {
      return Failure(0, "", true), sent;
    }
    if answer.status != 200 {
      return Failure(answer.status, answer.payload, answer.status >= SERVER_ERROR_FLOOR), sent;
    }
    if answer.ids.None? {
      return Failure(0, "", false), sent;
    }
    return Sent(answer.ids.value), sent;
  }

  lemma {:induction false} LinesThenTail(b: string, parts: seq<Part>, more: seq<Part>)
    ensures Lines(b, parts) + (Dash(b) + Tail(b, more)) == Dash(b) + Tail(b, parts + more)
    decreases |parts|
  {
    if parts == [] {
      assert parts + more == more;
      NothingThen(b, Dash(b) + Tail(b, more));
    } else {
      var front, last := parts[..|parts| - 1], parts[|parts| - 1];
      assert parts == front + [last];
      Associates(front, [last], more);
      LinesThenTail(b, front, [last] + more);
      LinesJoin(b, front, [last]);
      LastLine(b, last, more);
      Associates(Lines(b, front), Lines(b, [last]), Dash(b) + Tail(b, more));
    }
  }

  lemma NothingThen(b: string, rest: string)
    ensures Lines(b, []) + rest == rest
  {
  }

  lemma LastLine(b: string, last: Part, more: seq<Part>)
    ensures Lines(b, [last]) + (Dash(b) + Tail(b, more)) == Dash(b) + Tail(b, [last] + more)
  {
    LineAlone(b, last);
    assert ([last] + more)[1..] == more;
    OneTail(b, Section(HeaderOf(last), last.body), Tail(b, more));
  }

  lemma OneTail(b: string, section: string, tail: string)
    ensures Dash(b) + CRLF + section + CRLF + (Dash(b) + tail) == Dash(b) + (CRLF + (section + (Delimiter(b) + tail)))
  {
  }

  lemma HeaderIgnoresBody(p: Part, body: string)
    ensures HeaderOf(p.(body := body)) == HeaderOf(p)
  {
  }

  lemma VideoTail(b: string, v: Part)
    ensures Tail(b, [v]) == CRLF + (Section(HeaderOf(v), v.body) + (Delimiter(b) + (['-', '-'] + CRLF)))
  {
  }

  lemma VideoEnds(b: string, header: string, video: string)
    ensures Dash(b) + CRLF + header + BLANK + video + Epilogue(b)
         == Dash(b) + (CRLF + (Section(header, video) + (Delimiter(b) + (['-', '-'] + CRLF))))
  {
  }

  lemma Regroup(lines: string, head: string, video: string, end: string)
    ensures lines + head + video + end == lines + (head + video + end)
  {
  }

  /** The three pieces `Post` sends one after the other are one multipart body. */
  lemma Layout(b: string, before: seq<Part>, req: Request, video: string)
    ensures Lines(b, before) + VideoHead(b, req) + video + Epilogue(b)
         == Dash(b) + Tail(b, before + [Video(req, video)])
  {
    var v := Video(req, video);
    LinesThenTail(b, before, [v]);
    HeaderIgnoresBody(v, "");
    VideoTail(b, v);
    VideoEnds(b, HeaderOf(v), video);
    Regroup(Lines(b, before), VideoHead(b, req), video, Epilogue(b));
  }

  // ---------------------------------------------------------------- the boundary

  predicate Bytes(r: seq<nat>) {
    |r| == 16 && forall i | 0 <= i < |r| :: r[i] < 256
  }

  function HexAll(r: seq<nat>): (s: string)
    requires forall i | 0 <= i < |r| :: r[i] < 256
    ensures |s| == 2 * |r|
    ensures forall i | 0 <= i < |s| :: IsDigit(s[i]) || 'a' <= s[i] <= 'f'
  {
    if r == [] then "" else [Hex(r[0] / 16), Hex(r[0] % 16)] + HexAll(r[1..])
  }

  const BOUNDARY_HEAD := "----bambu"

  /** `randomBoundary`. */
  function RandomBoundary(r: seq<nat>): string
    requires Bytes(r)
  {
    BOUNDARY_HEAD + HexAll(r)
  }

  /** It is a legal boundary by section 5.1.1 of RFC 2046: at most 70 characters of the
      allowed ones, not ending in a space. */
  lemma BoundaryLegal(r: seq<nat>)
    requires Bytes(r)
    ensures var b := RandomBoundary(r);
      Boundary(b) && |b| == 41 && forall i | 0 <= i < |b| :: IsDigit(b[i]) || 'a' <= b[i] <= 'z' || b[i] == '-'
  {
  }

  // ---------------------------------------------------------------- reading it back

  /** What the caller must see to: printable names, and nothing a reader would take for the
      delimiter in any value, the cover or the video. */
  ghost predicate Sendable(b: string, m: Routing, req: Request, read: Option<string>, video: string) {
    && (forall k | k in m :: Printable(k) && Clear(b, m[k]))
    && Clear(b, req.caption)
    && Clear(b, req.filename) && Printable(req.filename)
    && (read.Some? ==> Clear(b, read.value))
    && Clear(b, video)
  }

  lemma OwnWords()
    ensures forall i | 0 <= i < |OWN| :: Printable(OWN[i])
    ensures Printable(THUMBNAIL) && Printable(VIDEO) && Printable(COVER_NAME)
    ensures '\r' !in JPEG && '\r' !in MP4
  {
  }

  /** A text whose first two characters are not both dashes, and without CR, is clear. */
  lemma PlainClear(b: string, text: string)
    requires '\r' !in text && (|text| >= 2 ==> text[0] != '-' || text[1] != '-')
    ensures Clear(b, text)
  {
  }

  lemma ItoaClear(b: string, n: int)
    ensures Clear(b, Itoa(n))
  {
  }

  lemma FieldSurvives(b: string, name: string, value: string)
    ensures Survives(b, Field(name, value)) <==> Printable(name) && Clear(b, value)
  {
  }

  lemma SurviveJoin(b: string, x: seq<Part>, y: seq<Part>)
    ensures AllSurvive(b, x + y) <==> AllSurvive(b, x) && AllSurvive(b, y)
  {
    if AllSurvive(b, x + y) {
      forall i | 0 <= i < |x|
        ensures Survives(b, x[i])
      {
        assert (x + y)[i] == x[i];
      }
      forall i | 0 <= i < |y|
        ensures Survives(b, y[i])
      {
        assert (x + y)[|x| + i] == y[i];
      }
    }
  }

  lemma RoutingSurvives(b: string, m: Routing)
    ensures AllSurvive(b, PassThrough(m)) <==> forall k | k in m :: Printable(k) && Clear(b, m[k])
  {
  }

  lemma OwnSurvive(b: string, names: seq<string>, req: Request)
    requires |names| == 6 && forall i | 0 <= i < |names| :: Printable(names[i])
    ensures AllSurvive(b, Fields(names, Values(req))) <==> Clear(b, req.caption) && Clear(b, req.filename)
  {
    var v := Values(req);
    ItoaClear(b, req.duration);
    ItoaClear(b, req.width);
    ItoaClear(b, req.height);
    PlainClear(b, "true");
    assert v[0] == req.caption && v[1] == req.filename;
    assert forall i | 2 <= i < 6 :: Clear(b, v[i]);
    var parts := Fields(names, v);
    forall i | 0 <= i < 6
      ensures Survives(b, parts[i]) <==> Clear(b, v[i])
    {
      FieldSurvives(b, names[i], v[i]);
    }
    assert AllSurvive(b, parts) ==> Survives(b, parts[0]) && Survives(b, parts[1]);
  }

  lemma EmptyClear(b: string)
    ensures Clear(b, "")
  {
  }

  lemma CoverSurvives(b: string, read: Option<string>)
    ensures AllSurvive(b, Cover(read)) <==> (read.Some? ==> Clear(b, read.value))
  {
    OwnWords();
    EmptyClear(b);
    var parts := Cover(read);
    assert parts != [] ==> (AllSurvive(b, parts) <==> Survives(b, parts[0]));
  }

  lemma VideoSurvives(b: string, req: Request, video: string)
    ensures AllSurvive(b, [Video(req, video)]) <==> Printable(req.filename) && Clear(b, video)
  {
    OwnWords();
    assert AllSurvive(b, [Video(req, video)]) <==> Survives(b, [Video(req, video)][0]);
  }

  lemma SendableSurvives(b: string, m: Routing, req: Request, read: Option<string>, video: string)
    ensures AllSurvive(b, Parts(m, req, read, video)) <==> Sendable(b, m, req, read, video)
  {
    OwnWords();
    SurviveJoin(b, Before(m, req, read), [Video(req, video)]);
    SurviveJoin(b, PassThrough(m) + Fields(OWN, Values(req)), Cover(read));
    SurviveJoin(b, PassThrough(m), Fields(OWN, Values(req)));
    RoutingSurvives(b, m);
    OwnSurvive(b, OWN, req);
    CoverSurvives(b, read);
    VideoSurvives(b, req, video);
  }

  lemma PartsTyped(m: Routing, req: Request, read: Option<string>, video: string)
    ensures Typed(Parts(m, req, read, video))
  {
    OwnWords();
  }

  /** The round trip: a reader gets back exactly the parts written, in order, the video last,
      exactly when the caller saw to what it must. */
  lemma UploadRoundTrip(b: string, m: Routing, req: Request, read: Option<string>, video: string)
    requires Boundary(b)
    ensures Parse(b, Dash(b) + Tail(b, Parts(m, req, read, video))) == Some(Parts(m, req, read, video))
       <==> Sendable(b, m, req, read, video)
  {
    var parts := Parts(m, req, read, video);
    Stripped(Dash(b), Tail(b, parts));
    PartsTyped(m, req, read, video);
    TailRoundTrip(b, parts);
    SendableSurvives(b, m, req, read, video);
  }

  // ---------------------------------------------------------------- who wins

  /** A reader that lets a later part of the same name win. */
  function LastOf(parts: seq<Part>, name: string): Option<string> {
    if parts == [] then None
    else if parts[|parts| - 1].name == name then Some(parts[|parts| - 1].body)
    else LastOf(parts[..|parts| - 1], name)
  }

  lemma {:induction false} LastIs(parts: seq<Part>, name: string, i: nat)
    requires i < |parts| && parts[i].name == name
    requires forall j | i < j < |parts| :: parts[j].name != name
    ensures LastOf(parts, name) == Some(parts[i].body)
  {
    if i < |parts| - 1 {
      LastIs(parts[..|parts| - 1], name, i);
    }
  }

  lemma OwnApart()
    ensures forall i, j | 0 <= i < j < |OWN| :: OWN[i] != OWN[j]
    ensures THUMBNAIL !in OWN && VIDEO !in OWN && THUMBNAIL != VIDEO
  {
  }

  lemma LastAmong(pass: seq<Part>, own: seq<Part>, tail: seq<Part>, i: nat)
    requires i < |own|
    requires forall j | i < j < |own| :: own[j].name != own[i].name
    requires forall j | 0 <= j < |tail| :: tail[j].name != own[i].name
    ensures LastOf(pass + own + tail, own[i].name) == Some(own[i].body)
  {
    var parts := pass + own + tail;
    var n := |pass|;
    assert parts[n + i] == own[i];
    forall j | n + i < j < |parts|
      ensures parts[j].name != own[i].name
    {
      if j < n + |own| {
        assert parts[j] == own[j - n];
      } else {
        assert parts[j] == tail[j - n - |own|];
      }
    }
    LastIs(parts, own[i].name, n + i);
  }

  /** Whatever the configuration passes through, a last-wins reader gets the service's own
      values for the fields the service owns. */
  lemma OwnedFieldsWin(m: Routing, req: Request, read: Option<string>, video: string, i: nat)
    requires i < 6
    ensures LastOf(Parts(m, req, read, video), OWN[i]) == Some(Values(req)[i])
  {
    OwnApart();
    var own, tail := Fields(OWN, Values(req)), Cover(read) + [Video(req, video)];
    Associates(PassThrough(m) + own, Cover(read), [Video(req, video)]);
    LastAmong(PassThrough(m), own, tail, i);
  }

  /** And the video it sent, whatever the configuration calls its fields. */
  lemma VideoWins(m: Routing, req: Request, read: Option<string>, video: string)
    ensures LastOf(Parts(m, req, read, video), VIDEO) == Some(video)
  {
  }

  /** And a routing field under any other name reaches the reader as configured. */
  lemma RoutingReaches(m: Routing, req: Request, read: Option<string>, video: string, k: string)
    requires k in m && k !in OWN && k != VIDEO && k != THUMBNAIL
    ensures LastOf(Parts(m, req, read, video), k) == Some(m[k])
  {
    var keys := Ordering.Ordered(m.Keys);
    var pass := PassThrough(m);
    var parts := Parts(m, req, read, video);
    assert k in keys;
    var i :| 0 <= i < |keys| && keys[i] == k;
    assert parts[i] == pass[i] == Field(k, m[k]);
    forall j | i < j < |parts|
      ensures parts[j].name != k
    {
      if j < |pass| {
        assert parts[j] == pass[j] && Ordering.Less(keys[i], keys[j]);
        Ordering.LessTotal(keys[i], keys[j]);
        Ordering.LessTotal(keys[i], keys[i]);
      } else if j < |pass| + |OWN| {
        assert parts[j].name == OWN[j - |pass|] && parts[j].name in OWN;
      }
    }
    LastIs(parts, k, i);
  }

  // ---------------------------------------------------------------- in so many words

  /** A text under that name that reads back as the number. */
  ghost predicate Number(parts: seq<Part>, name: string, n: int) {
    var text := LastOf(parts, name);
    text.Some? && Signed(text.value) == Some(n)
  }

  /** What a last-wins reader is told of the request. */
  ghost predicate Says(parts: seq<Part>, req: Request) {
    && LastOf(parts, "caption") == Some(req.caption)
    && LastOf(parts, "filename") == Some(req.filename)
    && Number(parts, "duration", req.duration)
    && Number(parts, "width", req.width)
    && Number(parts, "height", req.height)
    && LastOf(parts, "no_audio") == Some("true")
  }

  lemma SaysUnder(parts: seq<Part>, names: seq<string>, req: Request)
    requires names == OWN && |names| == 6
    requires forall i | 0 <= i < 6 :: LastOf(parts, names[i]) == Some(Values(req)[i])
    ensures Says(parts, req)
  {
    ItoaReads(req.duration);
    ItoaReads(req.width);
    ItoaReads(req.height);
    var v := Values(req);
    assert LastOf(parts, names[0]) == Some(v[0]) && LastOf(parts, names[1]) == Some(v[1]);
    assert LastOf(parts, names[2]) == Some(v[2]) && LastOf(parts, names[3]) == Some(v[3]);
    assert LastOf(parts, names[4]) == Some(v[4]) && LastOf(parts, names[5]) == Some(v[5]);
  }

  /** Under the destination's own names, every field of the request arrives: the texts as they
      are, and the numbers as decimals that read back as themselves. */
  lemma RequestArrives(m: Routing, req: Request, read: Option<string>, video: string)
    ensures Says(Parts(m, req, read, video), req)
  {
    forall i | 0 <= i < 6
      ensures LastOf(Parts(m, req, read, video), OWN[i]) == Some(Values(req)[i])
    {
      OwnedFieldsWin(m, req, read, video, i);
    }
    SaysUnder(Parts(m, req, read, video), OWN, req);
  }

  /** The files: the cover before the video if there is one, the video last. */
  lemma FilesArrive(m: Routing, req: Request, read: Option<string>, video: string)
    ensures var parts := Parts(m, req, read, video);
      && |parts| > 6
      && parts[|parts| - 1] == Part("video", Some(req.filename), Some("video/mp4"), video)
      && (read.Some? && read.value != "" ==>
            parts[|parts| - 2] == Part("thumbnail", Some("cover.jpg"), Some("image/jpeg"), read.value))
  {
  }

  /** A name `%q` leaves as it is. */
  predicate Bare(s: string) {
    forall i | 0 <= i < |s| :: !Control(s[i]) && s[i] != '"' && s[i] != '\\'
  }

  lemma {:induction false} BareQuoted(s: string)
    requires Bare(s)
    ensures EscapedAll(s) == s && Quoted(s) == ['"'] + s + ['"']
  {
    if s != "" {
      BareQuoted(s[1..]);
      assert s == [s[0]] + s[1..];
    }
  }

  /** The bytes of one field, word by word. */
  lemma FieldBytes(b: string, name: string, value: string)
    requires Bare(name)
    ensures Line(b, Field(name, value)) ==
      ['-', '-'] + b + ['\r', '\n'] + LEAD + (['"'] + name + ['"']) + ['\r', '\n', '\r', '\n'] + value + ['\r', '\n']
    ensures LEAD == "Content-Disposition: form-data; name="
  {
    BareQuoted(name);
    FieldHeader(name, value, LEAD, FILE, TYPE);
    LineSplits("", b, LEAD + Quoted(name), value);
    FromStart(b, LEAD, Quoted(name), value);
  }

  lemma FromStart(b: string, lead: string, quoted: string, value: string)
    ensures "" + ['-', '-'] + b + CRLF + (lead + quoted) + BLANK + value + CRLF
         == ['-', '-'] + b + ['\r', '\n'] + lead + quoted + ['\r', '\n', '\r', '\n'] + value + ['\r', '\n']
    ensures "" + (Dash(b) + CRLF + Section(lead + quoted, value) + CRLF)
         == Dash(b) + CRLF + Section(lead + quoted, value) + CRLF
  {
  }

  /** The head of a file's part, word by word. */
  lemma FileBytes(name: string, filename: string, ctype: string, body: string)
    requires Bare(name) && Bare(filename)
    ensures HeaderOf(Part(name, Some(filename), Some(ctype), body)) ==
      LEAD + (['"'] + name + ['"'] + (FILE + (['"'] + filename + ['"']) + (TYPE + ctype)))
    ensures FILE == "; filename=" && TYPE == "\r\nContent-Type: "
  {
    BareQuoted(name);
    BareQuoted(filename);
    FileHeader(Part(name, Some(filename), Some(ctype), body), LEAD, FILE, TYPE);
  }

  lemma FileHeader(p: Part, lead: string, file: string, typed: string)
    requires p.filename.Some? && p.ctype.Some?
    ensures HeaderWith(p, lead, file, typed)
         == lead + (Quoted(p.name) + (file + Quoted(p.filename.value) + (typed + p.ctype.value)))
  {
  }
}
