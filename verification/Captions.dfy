/** The caption script: `overlayText` and `writeCommands` of internal/camera/encode.go,
    what ffmpeg's sendcmd filter reads out of it, and when it acts on it. */
module Captions {
  import opened Basics

  // ---------------------------------------------------------------- overlayText

  predicate Dropped(c: char) {
    c in "\\':%,;[]="
  }

  predicate Syntax(c: char) { c < ' ' || Dropped(c) }

  /** Unicode white space, which `strings.TrimSpace` trims. */
  predicate IsSpace(c: char) {
    var n := c as int;
    || 0x09 <= n <= 0x0d || n == 0x20 || n == 0x85 || n == 0xa0 || n == 0x1680
    || 0x2000 <= n <= 0x200a || n == 0x2028 || n == 0x2029 || n == 0x202f || n == 0x205f || n == 0x3000
  }

  function Blanked(s: string): (t: string)
    ensures |t| == |s|
    ensures forall i | 0 <= i < |s| :: t[i] == if Syntax(s[i]) then ' ' else s[i]
  {
    seq(|s|, i requires 0 <= i < |s| => if Syntax(s[i]) then ' ' else s[i])
  }

  function TrimLeft(s: string): string {
    if s != "" && IsSpace(s[0]) then TrimLeft(s[1..]) else s
  }

  function TrimRight(s: string): string {
    if s != "" && IsSpace(s[|s| - 1]) then TrimRight(s[..|s| - 1]) else s
  }

  function OverlayText(s: string): string {
    TrimRight(TrimLeft(Blanked(s)))
  }

  /** Nothing any of the nested parsers would read as syntax. */
  predicate Plain(s: string) {
    forall i | 0 <= i < |s| :: !Syntax(s[i])
  }

  predicate Tight(s: string) {
    s != "" ==> !IsSpace(s[0]) && !IsSpace(s[|s| - 1])
  }

  lemma BlankedPlain(s: string)
    ensures Plain(Blanked(s))
    ensures Plain(s) ==> Blanked(s) == s
  {
  }

  lemma {:induction false} TrimLeftPlain(s: string)
    requires Plain(s)
    ensures Plain(TrimLeft(s)) && (TrimLeft(s) != "" ==> !IsSpace(TrimLeft(s)[0]))
  {
    if s != "" && IsSpace(s[0]) {
      TrimLeftPlain(s[1..]);
    }
  }

  lemma {:induction false} TrimRightPlain(s: string)
    requires Plain(s) && (s != "" ==> !IsSpace(s[0]))
    ensures Plain(TrimRight(s)) && Tight(TrimRight(s))
  {
    if s != "" && IsSpace(s[|s| - 1]) {
      TrimRightPlain(s[..|s| - 1]);
    }
  }

  lemma OverlayTextPlain(s: string)
    ensures Plain(OverlayText(s)) && Tight(OverlayText(s))
  {
    BlankedPlain(s);
    TrimLeftPlain(Blanked(s));
    TrimRightPlain(TrimLeft(Blanked(s)));
  }

  /** The characters that are dropped, one by one. */
  lemma SyntaxIs(c: char)
    ensures Syntax(c) <==>
      || c < ' '
      || c == '\\' || c == '\'' || c == ':' || c == '%' || c == ',' || c == ';' || c == '[' || c == ']' || c == '='
  {
  }

  /** Text is left alone exactly when it holds no syntax and no outer white space. */
  lemma OverlayTextKeeps(s: string)
    ensures OverlayText(s) == s <==> Plain(s) && Tight(s)
  {
    OverlayTextPlain(s);
    BlankedPlain(s);
  }

  lemma OverlayTextIdempotent(s: string)
    ensures OverlayText(OverlayText(s)) == OverlayText(s)
  {
    OverlayTextPlain(s);
    OverlayTextKeeps(OverlayText(s));
  }

  /** The counter line of one frame. */
  function LayerLine(layer: int, total: int): string {
    "Layer " + Itoa(layer) + if total > 0 then "/" + Itoa(total) else ""
  }

  /** Different layers have different lines. */
  lemma LayerLineInjective(m: int, n: int, total: int)
    requires LayerLine(m, total) == LayerLine(n, total)
    ensures m == n
  {
    var tail := if total > 0 then "/" + Itoa(total) else "";
    SameMiddle("Layer ", Itoa(m), Itoa(n), tail);
    ItoaInjective(m, n);
  }

  lemma SameMiddle(head: string, x: string, y: string, tail: string)
    requires head + x + tail == head + y + tail
    ensures x == y
  {
    assert |x| == |y|;
    assert (head + x + tail)[|head|..|head| + |x|] == x;
    assert (head + y + tail)[|head|..|head| + |y|] == y;
  }

  /** A reader of a counter line: the layer, and the layer count if there is one. */
  function ReadLayers(line: string): Option<(int, Option<int>)> {
    if |line| >= 6 && line[..6] == "Layer " then ReadNumbers(line[6..]) else None
  }

  /** One number, or two with a slash between them. */
  function ReadNumbers(text: string): Option<(int, Option<int>)> {
    var slash := Find(text, '/');
    if slash == |text| then
      match Signed(text)
      case Some(layer) => Some((layer, None))
      case None => None
    else
      match (Signed(text[..slash]), Signed(text[slash + 1..]))
      case (Some(layer), Some(total)) => Some((layer, Some(total)))
      case _ => None
  }

  lemma OneNumber(a: string, x: int)
    requires '/' !in a && Signed(a) == Some(x)
    ensures ReadNumbers(a) == Some((x, None))
  {
    assert Find(a, '/') == |a|;
  }

  lemma TwoNumbers(a: string, b: string, x: int, y: int)
    requires '/' !in a && Signed(a) == Some(x) && Signed(b) == Some(y)
    ensures ReadNumbers(a + ['/'] + b) == Some((x, Some(y)))
  {
    var text := a + ['/'] + b;
    FindAt(text, '/', |a|);
    assert text[..|a|] == a && text[|a| + 1..] == b;
  }

  lemma HeadRead(head: string, a: string, tail: string)
    requires head == "Layer "
    ensures ReadLayers(head + a + tail) == ReadNumbers(a + tail)
  {
    var line := head + a + tail;
    assert line[..6] == head && line[6..] == a + tail;
  }

  lemma NumbersRead(a: string, b: string, x: int, y: int, more: bool)
    requires '/' !in a && Signed(a) == Some(x) && Signed(b) == Some(y)
    ensures ReadNumbers(a + if more then "/" + b else "") == Some((x, if more then Some(y) else None))
  {
    if more {
      TwoNumbers(a, b, x, y);
      assert a + ("/" + b) == a + ['/'] + b;
    } else {
      OneNumber(a, x);
      assert a + "" == a;
    }
  }

  /** Every counter line reads as its layer, and as the layer count when that is positive. */
  lemma LayerLineReads(layer: int, total: int)
    ensures ReadLayers(LayerLine(layer, total)) == Some((layer, if total > 0 then Some(total) else None))
  {
    ItoaReads(layer);
    ItoaReads(total);
    NumbersRead(Itoa(layer), Itoa(total), layer, total, total > 0);
    HeadRead("Layer ", Itoa(layer), if total > 0 then "/" + Itoa(total) else "");
  }

  /** In so many words. */
  lemma LayerLineExamples()
    ensures LayerLine(5, 10) == "Layer 5/10" && LayerLine(5, 0) == "Layer 5"
  {
    DecimalStep(10);
  }

  lemma ItoaPlain(n: int)
    ensures Plain(Itoa(n)) && Tight(Itoa(n))
  {
  }

  lemma LayerLineKept(layer: int, total: int)
    ensures OverlayText(LayerLine(layer, total)) == LayerLine(layer, total)
  {
    ItoaPlain(layer);
    ItoaPlain(total);
    var head := "Layer " + Itoa(layer);
    assert Plain("Layer ") && Plain("/");
    assert Plain(head);
    var line := LayerLine(layer, total);
    assert line[0] == 'L';
    assert total <= 0 ==> line == head && line[|line| - 1] == Itoa(layer)[|Itoa(layer)| - 1];
    assert total > 0 ==> line == head + "/" + Itoa(total) && line[|line| - 1] == Itoa(total)[|Itoa(total)| - 1];
    OverlayTextKeeps(line);
  }

  // ---------------------------------------------------------------- time stamps

  /** (i - 1/4)/fps seconds, at least zero, in exact milliseconds. */
  function Lead(i: nat, fps: nat): real
    requires fps > 0
  {
    var at := (i as real - 0.25) / fps as real;
    if at < 0.0 then 0.0 else at * 1000.0
  }

  /** The nearest whole millisecond; on a tie, either. */
  function Nearest(x: real, up: bool): (m: nat)
    requires x >= 0.0
    ensures x - 0.5 <= m as real <= x + 0.5
  {
    var low := x.Floor;
    if x - low as real < 0.5 || (x - low as real == 0.5 && !up) then low else low + 1
  }

  function Stamp(i: nat, fps: nat, up: bool): nat
    requires fps > 0
  {
    Nearest(Lead(i, fps), up)
  }

  function Stamps(n: nat, fps: nat, ties: seq<bool>): (ms: seq<nat>)
    requires fps > 0 && |ties| == n
    ensures |ms| == n
  {
    seq(n, i requires 0 <= i < n => Stamp(i, fps, ties[i]))
  }

  /** The presentation time of frame i in exact milliseconds. */
  function Pts(i: nat, fps: nat): real
    requires fps > 0
  {
    1000.0 * i as real / fps as real
  }

  /** One frame's share of a quarter of a second, in milliseconds. */
  function Quarter(fps: nat): real
    requires fps > 0
  {
    250.0 / fps as real
  }

  lemma LeadIs(i: nat, fps: nat)
    requires fps > 0
    ensures i > 0 ==> Lead(i, fps) == Pts(i, fps) - Quarter(fps)
    ensures i == 0 ==> Lead(i, fps) == 0.0 == Pts(i, fps)
    ensures Pts(i + 1, fps) == Pts(i, fps) + 4.0 * Quarter(fps)
  {
  }

  lemma QuarterAtLeast(fps: nat)
    requires 0 < fps <= 500
    ensures Quarter(fps) >= 0.5
  {
  }

  /** A frame time late or early by less than this still falls between its own command and
      the next one. */
  predicate Timely(pts: real, i: nat, fps: nat)
    requires fps > 0
  {
    && pts >= 0.0
    && pts >= Pts(i, fps) - (Quarter(fps) - 0.5)
    && pts < Pts(i, fps) + (3.0 * Quarter(fps) - 0.5)
  }

  /** Up to 500 frames a second, stamps climb strictly, and a timely frame time lies at or
      past its own stamp and before the next. */
  lemma StampsSeparate(i: nat, fps: nat, up: bool, nextUp: bool, pts: real)
    requires 0 < fps <= 500
    ensures Stamp(i, fps, up) < Stamp(i + 1, fps, nextUp)
    ensures Timely(pts, i, fps) ==> Stamp(i, fps, up) as real <= pts < Stamp(i + 1, fps, nextUp) as real
    ensures Timely(Pts(i, fps), i, fps)
  {
    LeadIs(i, fps);
    LeadIs(i + 1, fps);
    QuarterAtLeast(fps);
    var q := Quarter(fps);
    assert Pts(i, fps) >= 0.0;
    assert Lead(i + 1, fps) == Pts(i, fps) + 3.0 * q;
    assert Stamp(i + 1, fps, nextUp) as real >= Pts(i, fps) + 3.0 * q - 0.5;
    assert Stamp(0, fps, up) == 0;
    if i > 0 {
      assert Stamp(i, fps, up) as real <= Pts(i, fps) - q + 0.5;
    }
  }

  lemma {:induction false} StampsClimb(i: nat, j: nat, fps: nat, tieI: bool, tieJ: bool)
    requires 0 < fps <= 500 && i < j
    ensures Stamp(i, fps, tieI) < Stamp(j, fps, tieJ)
    decreases j
  {
    StampsSeparate(j - 1, fps, tieI, tieJ, 0.0);
    if i < j - 1 {
      StampsClimb(i, j - 1, fps, tieI, tieI);
    }
  }

  /** The commands whose time has come at a timely frame time are exactly those of the
      frames so far: the latest is the frame's own. */
  lemma LatestIsOwn(i: nat, j: nat, fps: nat, ties: seq<bool>, pts: real)
    requires 0 < fps <= 500 && i < |ties| && j < |ties| && Timely(pts, i, fps)
    ensures Stamp(j, fps, ties[j]) as real <= pts <==> j <= i
  {
    StampsSeparate(i, fps, ties[i], if i + 1 < |ties| then ties[i + 1] else true, pts);
    if j < i {
      StampsClimb(j, i, fps, ties[j], ties[i]);
    } else if i + 1 < j {
      StampsClimb(i + 1, j, fps, ties[i + 1], ties[j]);
    }
  }

  /** At this time frame i's command is due and the next frame's is not, however ties round. */
  ghost predicate InTime(pts: real, i: nat, fps: nat)
    requires fps > 0
  {
    forall up :: Stamp(i, fps, up) as real <= pts < Stamp(i + 1, fps, up) as real
  }

  lemma InTimeAt(pts: real, i: nat, fps: nat, up: bool)
    requires fps > 0 && InTime(pts, i, fps)
    ensures Stamp(i, fps, up) as real <= pts < Stamp(i + 1, fps, up) as real
  {
  }

  lemma TimelyInTime(pts: real, i: nat, fps: nat)
    requires 0 < fps <= 500 && Timely(pts, i, fps)
    ensures InTime(pts, i, fps)
  {
    forall up
      ensures Stamp(i, fps, up) as real <= pts < Stamp(i + 1, fps, up) as real
    {
      StampsSeparate(i, fps, up, up, pts);
    }
  }

  // ---------------------------------------------------------------- the script

  const COUNTER := "drawtext@counter"
  const TEXT := "text"

  datatype Command = Command(time: nat, target: string, name: string, arg: string)

  /** Milliseconds as seconds with three decimals. */
  function FormatMs(m: nat): string {
    Decimal(m / 1000) + "." + [Digit(m / 100 % 10), Digit(m / 10 % 10), Digit(m % 10)]
  }

  /** `<time> <target> <name> '<arg>';` and a line break. */
  function Rendered(time: string, target: string, name: string, arg: string): string {
    time + [' '] + (target + [' '] + (name + [' '] + (['\''] + (arg + ['\''] + [';', '\n']))))
  }

  function CommandLine(m: nat, line: string): string {
    Rendered(FormatMs(m), COUNTER, TEXT, OverlayText(line))
  }

  function Script(ms: seq<nat>, lines: seq<string>): string
    requires |ms| == |lines|
  {
    if lines == [] then "" else CommandLine(ms[0], lines[0]) + Script(ms[1..], lines[1..])
  }

  /** A body that is the script of the first i lines, given one more line. */
  ghost predicate WrittenTo(body: string, ms: seq<nat>, lines: seq<string>, i: nat)
    requires |ms| == |lines| && i <= |lines|
  {
    body + Script(ms[i..], lines[i..]) == Script(ms, lines)
  }

  lemma ScriptUnrolled(ms: seq<nat>, lines: seq<string>, i: nat)
    requires |ms| == |lines| && i < |lines|
    ensures Script(ms[i..], lines[i..]) == CommandLine(ms[i], lines[i]) + Script(ms[i + 1..], lines[i + 1..])
  {
    assert ms[i..][0] == ms[i] && ms[i..][1..] == ms[i + 1..] && lines[i..][1..] == lines[i + 1..];
  }

  lemma OneLineMore(body: string, ms: seq<nat>, lines: seq<string>, i: nat, line: string)
    requires |ms| == |lines| && i < |lines| && WrittenTo(body, ms, lines, i)
    requires line == CommandLine(ms[i], lines[i])
    ensures WrittenTo(body + line, ms, lines, i + 1)
  {
    ScriptUnrolled(ms, lines, i);
    var rest := Script(ms[i + 1..], lines[i + 1..]);
    assert (body + line) + rest == body + (line + rest);
  }

  /** One turn of `writeCommands`: the time, led by a quarter of a frame and not negative,
      then the rest of the line. */
  method AppendCommand(body: string, i: nat, fps: nat, tie: bool, line: string) returns (out: string)
    requires fps > 0
    ensures out == body + CommandLine(Stamp(i, fps, tie), line)
  {
    var at := (i as real - 0.25) / fps as real;
    if at < 0.0 {
      at := 0.0;
    }
    var time := FormatMs(Nearest(at * 1000.0, tie));
    out := body + time;
    out := out + ([' '] + COUNTER + [' '] + TEXT + [' ', '\'']);
    out := out + OverlayText(line);
    out := out + ['\'', ';', '\n'];
    Pieces(body, time, COUNTER, TEXT, OverlayText(line));
  }

  lemma Pieces(body: string, time: string, target: string, name: string, arg: string)
    ensures body + time + ([' '] + target + [' '] + name + [' ', '\'']) + arg + ['\'', ';', '\n']
         == body + Rendered(time, target, name, arg)
  {
  }

  /** `writeCommands`, up to writing the file. ties says how the quotient of two floats
      rounds where the exact value is halfway between two milliseconds. */
  method WriteCommands(lines: seq<string>, fps: nat, ties: seq<bool>) returns (body: string)
    requires fps > 0 && |ties| == |lines|
    ensures body == Script(Stamps(|lines|, fps, ties), lines)
  {
    body := "";
    ghost var ms := Stamps(|lines|, fps, ties);
    assert ms[0..] == ms && lines[0..] == lines;
    for i := 0 to |lines|
      invariant WrittenTo(body, ms, lines, i)
    {
      ghost var was := body;
      body := AppendCommand(body, i, fps, ties[i], lines[i]);
      OneLineMore(was, ms, lines, i, CommandLine(ms[i], lines[i]));
    }
    assert ms[|lines|..] == [] && lines[|lines|..] == [];
  }

  // ---------------------------------------------------------------- reading it back

  /** The position of the first c, or the length. */
  function Find(s: string, c: char): (n: nat)
    ensures n <= |s| && (forall i | 0 <= i < n :: s[i] != c) && (n < |s| ==> s[n] == c)
  {
    if s == "" || s[0] == c then 0 else 1 + Find(s[1..], c)
  }

  /** The text before the first c, and the text after it. */
  function Cut(s: string, c: char): Option<(string, string)> {
    var n := Find(s, c);
    if n == |s| then None else Some((s[..n], s[n + 1..]))
  }

  function ParseMs(s: string): Option<nat> {
    match Cut(s, '.')
    case None => None
    case Some((whole, frac)) =>
      if |frac| == 3
         && (forall i | 0 <= i < |whole| :: IsDigit(whole[i]))
         && (forall i | 0 <= i < 3 :: IsDigit(frac[i]))
      then Some(Value(whole) * 1000 + Value(frac))
      else None
  }

  /** One command: a time, a target, a command name and a quoted argument, ended by a
      semicolon and a line break. */
  function ParseCommand(s: string): Option<(Command, string)> {
    match Cut(s, ' ')
    case None => None
    case Some((time, s1)) =>
      match (ParseMs(time), Cut(s1, ' '))
      case (Some(m), Some((target, s2))) =>
        (match Cut(s2, ' ')
         case None => None
         case Some((name, s3)) =>
           if s3 == "" || s3[0] != '\'' then None
           else
             match Cut(s3[1..], '\'')
             case None => None
             case Some((arg, s4)) =>
               if |s4| >= 2 && s4[0] == ';' && s4[1] == '\n'
               then Some((Command(m, target, name, arg), s4[2..])) else None)
      case _ => None
  }

  function ParseScript(s: string): Option<seq<Command>>
    decreases |s|
  {
    if s == "" then Some([])
    else
      match ParseCommand(s)
      case None => None
      case Some((command, rest)) =>
        if |rest| >= |s| then None
        else
          match ParseScript(rest)
          case None => None
          case Some(more) => Some([command] + more)
  }

  lemma {:induction false} FindAt(s: string, c: char, n: nat)
    requires n < |s| && s[n] == c && forall i | 0 <= i < n :: s[i] != c
    ensures Find(s, c) == n
  {
  }

  lemma CutJoined(a: string, c: char, b: string)
    requires forall i | 0 <= i < |a| :: a[i] != c
    ensures Cut(a + [c] + b, c) == Some((a, b))
  {
    var s := a + [c] + b;
    FindAt(s, c, |a|);
    assert s[..|a|] == a && s[|a| + 1..] == b;
  }

  lemma ThreeDigits(x: nat, y: nat, z: nat)
    requires x < 10 && y < 10 && z < 10
    ensures Value([Digit(x), Digit(y), Digit(z)]) == 100 * x + 10 * y + z
  {
    var text := [Digit(x), Digit(y), Digit(z)];
    assert text[..2] == [Digit(x), Digit(y)];
    assert text[..2][..1] == [Digit(x)];
    assert text[..2][..1][..0] == [];
    assert Value([Digit(x)]) == x;
    assert Value([Digit(x), Digit(y)]) == 10 * x + y;
  }

  lemma DigitsAreMod(m: nat)
    ensures 100 * (m / 100 % 10) + 10 * (m / 10 % 10) + m % 10 == m % 1000
  {
    var k, a := m / 1000, m % 1000;
    assert m / 100 == 10 * k + a / 100;
    assert m / 10 == 100 * k + a / 10;
    assert (10 * k + a / 100) % 10 == a / 100 % 10;
    assert (100 * k + a / 10) % 10 == a / 10 % 10;
    assert m % 10 == a % 10;
  }

  lemma FormatMsParses(m: nat)
    ensures ParseMs(FormatMs(m)) == Some(m)
    ensures forall i | 0 <= i < |FormatMs(m)| :: FormatMs(m)[i] != ' '
  {
    var whole := Decimal(m / 1000);
    var frac := [Digit(m / 100 % 10), Digit(m / 10 % 10), Digit(m % 10)];
    assert FormatMs(m) == whole + ['.'] + frac;
    CutJoined(whole, '.', frac);
    ValueOfDecimal(m / 1000);
    ThreeDigits(m / 100 % 10, m / 10 % 10, m % 10);
    DigitsAreMod(m);
  }

  lemma RenderedParses(m: nat, time: string, target: string, name: string, arg: string, rest: string)
    requires ParseMs(time) == Some(m)
    requires ' ' !in time && ' ' !in target && ' ' !in name && '\'' !in arg
    ensures ParseCommand(Rendered(time, target, name, arg) + rest) == Some((Command(m, target, name, arg), rest))
  {
    var s4 := [';', '\n'] + rest;
    var s3 := ['\''] + (arg + ['\''] + s4);
    var s2 := name + [' '] + s3;
    var s1 := target + [' '] + s2;
    assert Rendered(time, target, name, arg) + rest == time + [' '] + s1;
    CutJoined(time, ' ', s1);
    CutJoined(target, ' ', s2);
    CutJoined(name, ' ', s3);
    assert s3[1..] == arg + ['\''] + s4;
    CutJoined(arg, '\'', s4);
    assert s4[2..] == rest;
  }

  lemma CommandLineParses(m: nat, line: string, rest: string)
    ensures ParseCommand(CommandLine(m, line) + rest)
         == Some((Command(m, COUNTER, TEXT, OverlayText(line)), rest))
  {
    OverlayTextPlain(line);
    FormatMsParses(m);
    assert '\'' !in OverlayText(line);
    assert ' ' !in COUNTER && ' ' !in TEXT;
    RenderedParses(m, FormatMs(m), COUNTER, TEXT, OverlayText(line), rest);
  }

  /** What a script of these lines must say. */
  function Commands(ms: seq<nat>, lines: seq<string>): (cmds: seq<Command>)
    requires |ms| == |lines|
    ensures |cmds| == |lines|
    ensures forall i | 0 <= i < |lines| :: cmds[i] == Command(ms[i], COUNTER, TEXT, OverlayText(lines[i]))
  {
    seq(|lines|, i requires 0 <= i < |lines| => Command(ms[i], COUNTER, TEXT, OverlayText(lines[i])))
  }

  lemma ParseOneMore(s: string, command: Command, rest: string, more: seq<Command>)
    requires ParseCommand(s) == Some((command, rest)) && |rest| < |s| && ParseScript(rest) == Some(more)
    ensures ParseScript(s) == Some([command] + more)
  {
  }

  lemma CommandsStep(ms: seq<nat>, lines: seq<string>)
    requires |ms| == |lines| > 0
    ensures Commands(ms, lines)
         == [Command(ms[0], COUNTER, TEXT, OverlayText(lines[0]))] + Commands(ms[1..], lines[1..])
  {
  }

  lemma LineNotEmpty(m: nat, line: string)
    ensures |CommandLine(m, line)| > 0
  {
  }

  /** Reading the script back gives one command per line, whatever the lines hold. */
  lemma {:induction false} ScriptParses(ms: seq<nat>, lines: seq<string>)
    requires |ms| == |lines|
    ensures ParseScript(Script(ms, lines)) == Some(Commands(ms, lines))
    decreases |lines|
  {
    if lines != [] {
      var line, rest := CommandLine(ms[0], lines[0]), Script(ms[1..], lines[1..]);
      CommandLineParses(ms[0], lines[0], rest);
      LineNotEmpty(ms[0], lines[0]);
      ScriptParses(ms[1..], lines[1..]);
      var command := Command(ms[0], COUNTER, TEXT, OverlayText(lines[0]));
      ParseOneMore(line + rest, command, rest, Commands(ms[1..], lines[1..]));
      CommandsStep(ms, lines);
    }
  }

  /** Command i goes to the counter, by the name its filter has, and sets its text. */
  lemma ScriptAddresses(ms: seq<nat>, lines: seq<string>, i: nat)
    requires |ms| == |lines| && i < |lines|
    ensures var read := ParseScript(Script(ms, lines));
      && read.Some? && |read.value| == |lines|
      && read.value[i] == Command(ms[i], "drawtext@counter", "text", OverlayText(lines[i]))
  {
    ScriptParses(ms, lines);
  }

  /** Times are written in seconds with three decimals. */
  lemma FormatExamples()
    ensures FormatMs(0) == "0.000" && FormatMs(37) == "0.037" && FormatMs(12487) == "12.487"
  {
    DecimalStep(12);
  }

  // ---------------------------------------------------------------- acting on it

  /** sendcmd at one frame: it fires every command not yet fired whose time has come. */
  function Fire(cmds: seq<Command>, k: nat, text: Option<string>, pts: real): (nat, Option<string>)
    requires k <= |cmds|
    decreases |cmds| - k
  {
    if k < |cmds| && cmds[k].time as real <= pts
    then Fire(cmds, k + 1, Some(cmds[k].arg), pts)
    else (k, text)
  }

  lemma FireBounded(cmds: seq<Command>, k: nat, text: Option<string>, pts: real)
    requires k <= |cmds|
    ensures Fire(cmds, k, text, pts).0 <= |cmds|
    decreases |cmds| - k
  {
  }

  /** The text in force on each frame, frame times given. */
  function Play(cmds: seq<Command>, k: nat, text: Option<string>, pts: seq<real>): (texts: seq<Option<string>>)
    requires k <= |cmds|
    ensures |texts| == |pts|
    decreases |pts|
  {
    if pts == [] then []
    else
      var (next, now) := Fire(cmds, k, text, pts[0]);
      FireBounded(cmds, k, text, pts[0]);
      [now] + Play(cmds, next, now, pts[1..])
  }

  /** When each command's time has come by its own frame and not before, frame i shows
      command i, and frames past the last command keep its text. */
  lemma {:induction false} PlayFollows(cmds: seq<Command>, k: nat, text: Option<string>, pts: seq<real>, i: nat)
    requires k <= |cmds| && i < |pts| && cmds != []
    requires k == |cmds| ==> text == Some(cmds[|cmds| - 1].arg)
    requires forall j | 0 <= j < |pts| && k + j < |cmds| :: cmds[k + j].time as real <= pts[j]
    requires forall j | 0 <= j < |pts| && k + j + 1 < |cmds| :: pts[j] < cmds[k + j + 1].time as real
    ensures Play(cmds, k, text, pts)[i] == Some(cmds[if k + i < |cmds| then k + i else |cmds| - 1].arg)
    decreases |pts|
  {
    if k < |cmds| {
      assert cmds[k + 0].time as real <= pts[0];
      assert k + 1 < |cmds| ==> pts[0] < cmds[k + 0 + 1].time as real;
    }
    var next := if k < |cmds| then k + 1 else k;
    var now := if k < |cmds| then Some(cmds[k].arg) else text;
    assert Fire(cmds, k, text, pts[0]) == (next, now);
    if i > 0 {
      assert forall j | 0 <= j < |pts| - 1 :: pts[1..][j] == pts[j + 1];
      PlayFollows(cmds, next, now, pts[1..], i - 1);
    }
  }

  lemma CommandInStep(lines: seq<string>, fps: nat, ties: seq<bool>, pts: seq<real>, j: nat)
    requires fps > 0 && |ties| == |lines| && j < |pts| && j < |lines| && InTime(pts[j], j, fps)
    ensures var cmds := Commands(Stamps(|lines|, fps, ties), lines);
      cmds[j].time as real <= pts[j] && (j + 1 < |cmds| ==> pts[j] < cmds[j + 1].time as real)
  {
    InTimeAt(pts[j], j, fps, ties[j]);
    if j + 1 < |ties| {
      InTimeAt(pts[j], j, fps, ties[j + 1]);
    }
  }

  /** Played against frame times that are in time, the script written for these lines puts
      line i on frame i, and the last line on any frame after it. */
  lemma ScriptPlays(lines: seq<string>, cmds: seq<Command>, fps: nat, ties: seq<bool>, pts: seq<real>, i: nat)
    requires fps > 0 && |ties| == |lines| > 0 && i < |pts|
    requires cmds == Commands(Stamps(|lines|, fps, ties), lines)
    requires forall j: nat | j < |pts| :: InTime(pts[j], j, fps)
    ensures Play(cmds, 0, None, pts)[i] == Some(OverlayText(lines[if i < |lines| then i else |lines| - 1]))
  {
    forall j: nat | j < |pts| && j < |cmds|
      ensures cmds[j].time as real <= pts[j]
      ensures j + 1 < |cmds| ==> pts[j] < cmds[j + 1].time as real
    {
      CommandInStep(lines, fps, ties, pts, j);
    }
    PlayFollows(cmds, 0, None, pts, i);
  }
}
