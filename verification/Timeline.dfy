/** The final encode: `Encode` and `buildGraph` of internal/camera/encode.go, with `overlay`
    and `duration` of internal/service/service.go, and what the graph they build shows. */
module Timeline {
  import opened Basics
  import opened Sessions
  import Captions
  import FrameRates

  // ---------------------------------------------------------------- what is asked for

  /** Holds are whole seconds, as the configuration has them. */
  datatype Hold = Hold(path: string, seconds: nat)

  datatype Overlay = Overlay(title: string, lines: seq<string>)

  datatype Options = Options(
    fps: nat, crop: bool, intro: Hold, outro: Hold, tailHold: nat, overlay: Option<Overlay>)

  predicate Shown(h: Hold) { h.path != "" && h.seconds > 0 }

  // ---------------------------------------------------------------- what is built

  datatype Input = Frames | Looped(still: Hold)

  /** The filters of the main chain, as far as they tell pictures apart. */
  datatype Filter =
    | Crop
    | SendCommands(script: string)
    | DrawTitle(text: string)
    | DrawCounter(text: string)
    | CloneTail(seconds: nat)
    | Format
    | SetSar

  datatype Label = Main | Intro | Outro

  /** `[0:v]main[main]`, then one chain per still, then the concat; or the main chain alone. */
  datatype Graph = Graph(main: seq<Filter>, stills: seq<(nat, Label)>, order: seq<Label>, joined: bool)

  function OverlayFilters(o: Overlay, script: string): seq<Filter> {
    if o.lines == [] then [DrawTitle(Captions.OverlayText(o.title))]
    else [SendCommands(script), DrawTitle(Captions.OverlayText(o.title)), DrawCounter(Captions.OverlayText(o.lines[0]))]
  }

  function MainChain(o: Options, script: string): seq<Filter> {
    (if o.crop then [Crop] else [])
    + (if o.overlay.Some? then OverlayFilters(o.overlay.value, script) else [])
    + (if o.tailHold > 0 && !Shown(o.outro) then [CloneTail(o.tailHold)] else [])
    + [Format, SetSar]
  }

  /** The script `overlayFilters` writes. */
  function ScriptOf(o: Options, ties: seq<bool>): string
    requires o.fps > 0
    requires o.overlay.Some? ==> |ties| == |o.overlay.value.lines|
  {
    if o.overlay.None? then ""
    else
      var lines := o.overlay.value.lines;
      Captions.Script(Captions.Stamps(|lines|, o.fps, ties), lines)
  }

  function Requested(o: Options): seq<Hold> {
    (if Shown(o.intro) then [o.intro] else []) + (if Shown(o.outro) then [o.outro] else [])
  }

  /** Whether any still makes it into the encode: one is wanted, and the size it must be
      scaled to is known. */
  predicate Stilled(o: Options, sized: bool) {
    Requested(o) != [] && sized
  }

  /** `overlayFilters`: it writes the script only when there are lines to command. */
  method OverlayChain(o: Overlay, fps: nat, ties: seq<bool>) returns (filters: seq<Filter>)
    requires fps > 0 && |ties| == |o.lines|
    ensures filters == OverlayFilters(o, Captions.Script(Captions.Stamps(|o.lines|, fps, ties), o.lines))
  {
    var title := DrawTitle(Captions.OverlayText(o.title));
    if |o.lines| == 0 {
      return [title];
    }
    var script := Captions.WriteCommands(o.lines, fps, ties);
    filters := [SendCommands(script), title, DrawCounter(Captions.OverlayText(o.lines[0]))];
  }

  method BuildMain(o: Options, ties: seq<bool>) returns (main: seq<Filter>)
    requires o.fps > 0
    requires o.overlay.Some? ==> |ties| == |o.overlay.value.lines|
    ensures main == MainChain(o, ScriptOf(o, ties))
  {
    main := [];
    if o.crop {
      main := main + [Crop];
    }
    if o.overlay.Some? {
      var filters := OverlayChain(o.overlay.value, o.fps, ties);
      main := main + filters;
    }
    if o.tailHold > 0 && !Shown(o.outro) {
      main := main + [CloneTail(o.tailHold)];
    }
    main := main + [Format, SetSar];
  }

  method BuildGraph(o: Options, stills: bool, ties: seq<bool>) returns (g: Graph)
    requires o.fps > 0
    requires o.overlay.Some? ==> |ties| == |o.overlay.value.lines|
    ensures g == GraphOf(o, stills, ScriptOf(o, ties))
  {
    var main := BuildMain(o, ties);
    if !stills {
      return Graph(main, [], [Main], false);
    }
    var chains: seq<(nat, Label)> := [];
    var segments: seq<Label> := [];
    var input := 1;
    if Shown(o.intro) {
      chains := chains + [(input, Intro)];
      segments := segments + [Intro];
      input := input + 1;
    }
    segments := segments + [Main];
    if Shown(o.outro) {
      chains := chains + [(input, Outro)];
      segments := segments + [Outro];
    }
    g := Graph(main, chains, segments, true);
  }

  function GraphOf(o: Options, stills: bool, script: string): Graph {
    if !stills then Graph(MainChain(o, script), [], [Main], false)
    else
      Graph(
        MainChain(o, script),
        (if Shown(o.intro) then [(1, Intro)] else [])
        + (if Shown(o.outro) then [(if Shown(o.intro) then 2 else 1, Outro)] else []),
        (if Shown(o.intro) then [Intro] else []) + [Main] + (if Shown(o.outro) then [Outro] else []),
        true)
  }

  /** `Encode` up to running ffmpeg: the `-i` inputs in order, and the graph over them. */
  method Encode(o: Options, sized: bool, ties: seq<bool>) returns (inputs: seq<Input>, g: Graph)
    requires o.fps > 0
    requires o.overlay.Some? ==> |ties| == |o.overlay.value.lines|
    ensures inputs == InputsOf(o, sized)
    ensures g == GraphOf(o, Stilled(o, sized), ScriptOf(o, ties))
  {
    inputs := [Frames];
    var stills: seq<Hold> := [];
    if Shown(o.intro) {
      stills := stills + [o.intro];
    }
    if Shown(o.outro) {
      stills := stills + [o.outro];
    }
    assert stills == Requested(o);
    if |stills| > 0 && !sized {
      stills := [];
    }
    ghost var kept := stills;
    for i := 0 to |stills|
      invariant inputs == [Frames] + seq(i, j requires 0 <= j < i && i <= |kept| => Looped(kept[j]))
    {
      inputs := inputs + [Looped(stills[i])];
    }
    g := BuildGraph(o, |stills| > 0, ties);
  }

  function InputsOf(o: Options, sized: bool): seq<Input> {
    var stills := if Stilled(o, sized) then Requested(o) else [];
    [Frames] + seq(|stills|, i requires 0 <= i < |stills| => Looped(stills[i]))
  }

  // ---------------------------------------------------------------- what it shows

  datatype Source = Footage(index: nat) | Held(input: nat)

  /** One output frame: where it comes from, whether it was cropped, what is written on it. */
  datatype Picture = Picture(source: Source, cropped: bool, title: Option<string>, counter: Option<string>)

  function Repeat<T>(x: T, n: nat): (xs: seq<T>)
    ensures |xs| == n && forall i | 0 <= i < n :: xs[i] == x
  {
    seq(n, _ => x)
  }

  /** What reaches a filter: a picture, the text a sendcmd further up has put in force, and
      the time in milliseconds. */
  datatype Frame = Frame(pic: Picture, told: Option<string>, pts: real)

  /** The n frame files as image2 reads them at this rate. */
  function Footages(n: nat, fps: nat): (s: seq<Frame>)
    requires fps > 0
    ensures |s| == n
    ensures forall i: nat | i < n :: s[i] == Frame(Picture(Footage(i), false, None, None), None, Captions.Pts(i, fps))
  {
    seq(n, i requires 0 <= i < n => Frame(Picture(Footage(i), false, None, None), None, Captions.Pts(i, fps)))
  }

  function Times(s: seq<Frame>): (pts: seq<real>)
    ensures |pts| == |s| && forall i | 0 <= i < |s| :: pts[i] == s[i].pts
  {
    seq(|s|, i requires 0 <= i < |s| => s[i].pts)
  }

  /** What one filter does to one frame it neither adds nor times. */
  function Drawn(f: Filter, x: Frame): Frame {
    match f
    case Crop => x.(pic := Picture(x.pic.source, true, None, None))
    case DrawTitle(text) => x.(pic := x.pic.(title := Some(text)))
    case DrawCounter(text) => x.(pic := x.pic.(counter := if x.told.Some? then x.told else Some(text)))
    case _ => x
  }

  function WithTexts(s: seq<Frame>, texts: seq<Option<string>>): (t: seq<Frame>)
    requires |texts| == |s|
    ensures |t| == |s| && forall i | 0 <= i < |s| :: t[i] == s[i].(told := texts[i])
  {
    seq(|s|, i requires 0 <= i < |s| => s[i].(told := texts[i]))
  }

  function Cloned(x: Frame, fps: nat, n: nat): (t: seq<Frame>)
    requires fps > 0
    ensures |t| == n && forall i | 0 <= i < n :: t[i].pic == x.pic && t[i].told == x.told
  {
    seq(n, i requires 0 <= i < n => x.(pts := x.pts + 1000.0 * (i + 1) as real / fps as real))
  }

  /** One filter over the whole stream. Drawing before a crop loses what was drawn; a sendcmd
      tells only the filters after it; a clone repeats the last picture as it is. */
  function Filtered(f: Filter, s: seq<Frame>, fps: nat): (t: seq<Frame>)
    requires fps > 0
    ensures !f.SendCommands? && !f.CloneTail? ==> |t| == |s| && forall i | 0 <= i < |s| :: t[i] == Drawn(f, s[i])
  {
    match f
    case SendCommands(script) =>
      (match Captions.ParseScript(script)
       case None => s
       case Some(cmds) => WithTexts(s, Captions.Play(cmds, 0, None, Times(s))))
    case CloneTail(seconds) =>
      if s == [] then s else s + Cloned(s[|s| - 1], fps, seconds * fps)
    case _ => seq(|s|, i requires 0 <= i < |s| => Drawn(f, s[i]))
  }

  function Chained(chain: seq<Filter>, s: seq<Frame>, fps: nat): seq<Frame>
    requires fps > 0
    decreases |chain|
  {
    if chain == [] then s else Chained(chain[1..], Filtered(chain[0], s, fps), fps)
  }

  function Pictures(s: seq<Frame>): (pics: seq<Picture>)
    ensures |pics| == |s| && forall i | 0 <= i < |s| :: pics[i] == s[i].pic
  {
    seq(|s|, i requires 0 <= i < |s| => s[i].pic)
  }

  /** A looped still: its hold's worth of one picture. */
  function StillPictures(inputs: seq<Input>, input: nat, fps: nat): seq<Picture> {
    if input < |inputs| && inputs[input].Looped?
    then Repeat(Picture(Held(input), false, None, None), inputs[input].still.seconds * fps)
    else []
  }

  /** The segment a concat pad stands for. */
  function Segment(g: Graph, l: Label, inputs: seq<Input>, n: nat, fps: nat): seq<Picture>
    requires fps > 0
  {
    if l.Main? then Pictures(Chained(g.main, Footages(n, fps), fps))
    else StillsNamed(g.stills, l, inputs, fps)
  }

  function StillsNamed(stills: seq<(nat, Label)>, l: Label, inputs: seq<Input>, fps: nat): seq<Picture> {
    if stills == [] then []
    else if stills[0].1 == l then StillPictures(inputs, stills[0].0, fps)
    else StillsNamed(stills[1..], l, inputs, fps)
  }

  function Joined(g: Graph, order: seq<Label>, inputs: seq<Input>, n: nat, fps: nat): seq<Picture>
    requires fps > 0
    decreases |order|
  {
    if order == [] then [] else Segment(g, order[0], inputs, n, fps) + Joined(g, order[1..], inputs, n, fps)
  }

  /** What the mapped output shows when there are n frame files. */
  function Video(g: Graph, inputs: seq<Input>, n: nat, fps: nat): seq<Picture>
    requires fps > 0
  {
    if g.joined then Joined(g, g.order, inputs, n, fps) else Segment(g, Main, inputs, n, fps)
  }

  /** The inputs the graph reads, in the order it reads them. */
  function Reads(g: Graph): (read: seq<nat>)
    ensures |read| == 1 + |g.stills|
  {
    [0] + seq(|g.stills|, i requires 0 <= i < |g.stills| => g.stills[i].0)
  }

  // ---------------------------------------------------------------- the timeline

  lemma {:induction false} ChainSplits(a: seq<Filter>, b: seq<Filter>, s: seq<Frame>, fps: nat)
    requires fps > 0
    ensures Chained(a + b, s, fps) == Chained(b, Chained(a, s, fps), fps)
    decreases |a|
  {
    if a == [] {
      assert a + b == b;
    } else {
      assert (a + b)[1..] == a[1..] + b;
      ChainSplits(a[1..], b, Filtered(a[0], s, fps), fps);
    }
  }

  /** What each footage frame must look like. */
  ghost predicate Captioned(x: Frame, o: Options, i: nat, text: Option<string>)
  {
    && x.pic.source == Footage(i)
    && x.pic.cropped == o.crop
    && x.pic.title == (if o.overlay.Some? then Some(Captions.OverlayText(o.overlay.value.title)) else None)
    && x.pic.counter == text
  }

  /** The counter of footage frame i: its own line, or the last line past the end of the list. */
  function CounterOf(o: Options, i: nat): Option<string> {
    if o.overlay.None? || o.overlay.value.lines == [] then None
    else
      var lines := o.overlay.value.lines;
      Some(Captions.OverlayText(lines[if i < |lines| then i else |lines| - 1]))
  }

  lemma OneFilter(f: Filter, s: seq<Frame>, fps: nat)
    requires fps > 0
    ensures Chained([f], s, fps) == Filtered(f, s, fps)
  {
  }

  lemma TwoFilters(f: Filter, g: Filter, s: seq<Frame>, fps: nat)
    requires fps > 0
    ensures Chained([f, g], s, fps) == Filtered(g, Filtered(f, s, fps), fps)
  {
    assert [f, g][1..] == [g];
    OneFilter(g, Filtered(f, s, fps), fps);
  }

  lemma ThreeFilters(f: Filter, g: Filter, h: Filter, s: seq<Frame>, fps: nat)
    requires fps > 0
    ensures Chained([f, g, h], s, fps) == Filtered(h, Filtered(g, Filtered(f, s, fps), fps), fps)
  {
    assert [f, g, h][1..] == [g, h];
    TwoFilters(g, h, Filtered(f, s, fps), fps);
  }

  /** Cropped footage, before anything is drawn on it. */
  ghost predicate Bare(s: seq<Frame>, n: nat, crop: bool, fps: nat)
    requires fps > 0
  {
    |s| == n && forall i: nat | i < n ::
      s[i] == Frame(Picture(Footage(i), crop, None, None), None, Captions.Pts(i, fps))
  }

  /** Captioned footage. */
  ghost predicate Dressed(s: seq<Frame>, o: Options, n: nat) {
    |s| == n && forall i: nat | i < n :: Captioned(s[i], o, i, CounterOf(o, i))
  }

  lemma CropPart(o: Options, n: nat)
    requires o.fps > 0
    ensures Bare(Chained(if o.crop then [Crop] else [], Footages(n, o.fps), o.fps), n, o.crop, o.fps)
  {
    OneFilter(Crop, Footages(n, o.fps), o.fps);
  }

  /** The text sendcmd has in force on frame i of the footage. */
  lemma TextInForce(o: Options, ties: seq<bool>, s: seq<Frame>, n: nat, i: nat)
    requires FrameRates.Steady(o.fps) && Bare(s, n, o.crop, o.fps) && i < n
    requires o.overlay.Some? && |ties| == |o.overlay.value.lines| > 0
    ensures var lines := o.overlay.value.lines;
      Captions.Play(Captions.Commands(Captions.Stamps(|lines|, o.fps, ties), lines), 0, None, Times(s))[i]
        == CounterOf(o, i)
  {
    var lines := o.overlay.value.lines;
    FrameRates.SteadyInTime(o.fps);
    assert forall j: nat | j < n :: Times(s)[j] == Captions.Pts(j, o.fps);
    var cmds := Captions.Commands(Captions.Stamps(|lines|, o.fps, ties), lines);
    Captions.ScriptPlays(lines, cmds, o.fps, ties, Times(s), i);
  }

  lemma CommandsTell(o: Options, ties: seq<bool>, s: seq<Frame>, n: nat)
    requires FrameRates.Steady(o.fps) && Bare(s, n, o.crop, o.fps)
    requires o.overlay.Some? && |ties| == |o.overlay.value.lines| > 0
    ensures var t := Filtered(SendCommands(ScriptOf(o, ties)), s, o.fps);
      |t| == n && forall i: nat | i < n :: t[i] == s[i].(told := CounterOf(o, i))
  {
    var lines := o.overlay.value.lines;
    Captions.ScriptParses(Captions.Stamps(|lines|, o.fps, ties), lines);
    forall i: nat | i < n
      ensures Captions.Play(Captions.Commands(Captions.Stamps(|lines|, o.fps, ties), lines), 0, None, Times(s))[i]
           == CounterOf(o, i)
    {
      TextInForce(o, ties, s, n, i);
    }
  }

  /** The caption filters over cropped footage. */
  lemma CaptionPart(o: Options, ties: seq<bool>, s: seq<Frame>, n: nat)
    requires FrameRates.Steady(o.fps) && Bare(s, n, o.crop, o.fps)
    requires o.overlay.Some? && |ties| == |o.overlay.value.lines|
    ensures Dressed(Chained(OverlayFilters(o.overlay.value, ScriptOf(o, ties)), s, o.fps), o, n)
  {
    var v := o.overlay.value;
    var script := ScriptOf(o, ties);
    var title := DrawTitle(Captions.OverlayText(v.title));
    if v.lines == [] {
      OneFilter(title, s, o.fps);
    } else {
      ThreeFilters(SendCommands(script), title, DrawCounter(Captions.OverlayText(v.lines[0])), s, o.fps);
      CommandsTell(o, ties, s, n);
    }
  }

  function TailSeconds(o: Options): nat { if Shown(o.outro) then 0 else o.tailHold }

  /** Every frame file once, in order, cropped and captioned, and then the last picture held,
      caption and all, unless a still ends the video. */
  ghost predicate ShowsFootage(s: seq<Frame>, o: Options, n: nat) {
    && |s| == n + TailSeconds(o) * o.fps
    && (forall i: nat | i < n && i < |s| :: Captioned(s[i], o, i, CounterOf(o, i)))
    && (forall i: nat, j: nat | j == n - 1 && n <= i < |s| :: s[i].pic == s[j].pic)
  }

  lemma TailPart(o: Options, s: seq<Frame>, n: nat)
    requires o.fps > 0 && n > 0 && Dressed(s, o, n)
    ensures
      var tail := if o.tailHold > 0 && !Shown(o.outro) then [CloneTail(o.tailHold)] else [];
      ShowsFootage(Chained(tail, s, o.fps), o, n)
  {
    OneFilter(CloneTail(o.tailHold), s, o.fps);
  }

  lemma EndPart(s: seq<Frame>, fps: nat)
    requires fps > 0
    ensures Chained([Format, SetSar], s, fps) == s
  {
  }

  lemma FourParts(a: seq<Filter>, b: seq<Filter>, c: seq<Filter>, d: seq<Filter>, s: seq<Frame>, fps: nat)
    requires fps > 0
    ensures Chained(a + b + c + d, s, fps) == Chained(d, Chained(c, Chained(b, Chained(a, s, fps), fps), fps), fps)
  {
    ChainSplits(a + b + c, d, s, fps);
    ChainSplits(a + b, c, s, fps);
    ChainSplits(a, b, s, fps);
  }

  /** The main chain shows the footage. */
  lemma MainShows(o: Options, ties: seq<bool>, n: nat)
    requires FrameRates.Steady(o.fps) && n > 0
    requires o.overlay.Some? ==> |ties| == |o.overlay.value.lines|
    ensures ShowsFootage(Chained(MainChain(o, ScriptOf(o, ties)), Footages(n, o.fps), o.fps), o, n)
  {
    var script := ScriptOf(o, ties);
    var a := if o.crop then [Crop] else [];
    var b := if o.overlay.Some? then OverlayFilters(o.overlay.value, script) else [];
    var t := if o.tailHold > 0 && !Shown(o.outro) then [CloneTail(o.tailHold)] else [];
    FourParts(a, b, t, [Format, SetSar], Footages(n, o.fps), o.fps);
    var s1 := Chained(a, Footages(n, o.fps), o.fps);
    CropPart(o, n);
    var s2 := Chained(b, s1, o.fps);
    CaptionsOrNone(o, ties, s1, n);
    TailPart(o, s2, n);
    EndPart(Chained(t, s2, o.fps), o.fps);
  }

  lemma CaptionsOrNone(o: Options, ties: seq<bool>, s: seq<Frame>, n: nat)
    requires FrameRates.Steady(o.fps) && Bare(s, n, o.crop, o.fps)
    requires o.overlay.Some? ==> |ties| == |o.overlay.value.lines|
    ensures
      var filters := if o.overlay.Some? then OverlayFilters(o.overlay.value, ScriptOf(o, ties)) else [];
      Dressed(Chained(filters, s, o.fps), o, n)
  {
    if o.overlay.Some? {
      CaptionPart(o, ties, s, n);
    }
  }

  // ---------------------------------------------------------------- the whole video

  /** The stills that are not shown at either end are not there; the others are. */
  function IntroPictures(o: Options): seq<Picture> {
    if Shown(o.intro) then Repeat(Picture(Held(1), false, None, None), o.intro.seconds * o.fps) else []
  }

  function OutroPictures(o: Options): seq<Picture> {
    if Shown(o.outro)
    then Repeat(Picture(Held(if Shown(o.intro) then 2 else 1), false, None, None), o.outro.seconds * o.fps)
    else []
  }

  lemma JoinOne(g: Graph, x: Label, rest: seq<Label>, inputs: seq<Input>, n: nat, fps: nat)
    requires fps > 0
    ensures Joined(g, [x] + rest, inputs, n, fps) == Segment(g, x, inputs, n, fps) + Joined(g, rest, inputs, n, fps)
  {
  }

  lemma JoinTwo(g: Graph, x: Label, y: Label, inputs: seq<Input>, n: nat, fps: nat)
    requires fps > 0
    ensures Joined(g, [x, y], inputs, n, fps) == Segment(g, x, inputs, n, fps) + Segment(g, y, inputs, n, fps)
  {
    assert [x, y] == [x] + ([y] + []);
    JoinOne(g, x, [y] + [], inputs, n, fps);
    JoinOne(g, y, [], inputs, n, fps);
    assert Joined(g, [], inputs, n, fps) == [];
  }

  lemma JoinThree(g: Graph, x: Label, y: Label, z: Label, inputs: seq<Input>, n: nat, fps: nat)
    requires fps > 0
    ensures Joined(g, [x, y, z], inputs, n, fps) ==
      Segment(g, x, inputs, n, fps) + Segment(g, y, inputs, n, fps) + Segment(g, z, inputs, n, fps)
  {
    assert [x, y, z] == [x] + [y, z];
    JoinOne(g, x, [y, z], inputs, n, fps);
    JoinTwo(g, y, z, inputs, n, fps);
  }

  lemma NamedFirst(x: (nat, Label), rest: seq<(nat, Label)>, l: Label, inputs: seq<Input>, fps: nat)
    ensures StillsNamed([x] + rest, l, inputs, fps) ==
      if x.1 == l then StillPictures(inputs, x.0, fps) else StillsNamed(rest, l, inputs, fps)
  {
  }

  /** Each still's chain reads the input its arguments put there. */
  lemma StillSegments(o: Options, script: string, n: nat)
    requires o.fps > 0 && Requested(o) != []
    ensures var g := GraphOf(o, true, script); var inputs := InputsOf(o, true);
      && (Shown(o.intro) ==> Segment(g, Intro, inputs, n, o.fps) == IntroPictures(o))
      && (Shown(o.outro) ==> Segment(g, Outro, inputs, n, o.fps) == OutroPictures(o))
  {
    var g, inputs := GraphOf(o, true, script), InputsOf(o, true);
    if Shown(o.intro) {
      var rest := if Shown(o.outro) then [(2, Outro)] else [];
      assert g.stills == [(1, Intro)] + rest;
      NamedFirst((1, Intro), rest, Intro, inputs, o.fps);
      NamedFirst((1, Intro), rest, Outro, inputs, o.fps);
      if Shown(o.outro) {
        assert rest == [(2, Outro)] + [];
        NamedFirst((2, Outro), [], Outro, inputs, o.fps);
      }
    } else {
      assert g.stills == [(1, Outro)] + [];
      NamedFirst((1, Outro), [], Outro, inputs, o.fps);
    }
  }

  /** The graph reads every input once, in the order the arguments name them. */
  lemma GraphReadsInputs(o: Options, script: string, sized: bool)
    ensures Reads(GraphOf(o, Stilled(o, sized), script)) == seq(|InputsOf(o, sized)|, i => i)
  {
  }

  lemma OrderShows(o: Options, script: string, n: nat)
    requires o.fps > 0 && Requested(o) != []
    ensures var g := GraphOf(o, true, script); var inputs := InputsOf(o, true);
      Joined(g, g.order, inputs, n, o.fps) ==
        IntroPictures(o) + Segment(g, Main, inputs, n, o.fps) + OutroPictures(o)
  {
    var g, inputs := GraphOf(o, true, script), InputsOf(o, true);
    StillSegments(o, script, n);
    if Shown(o.intro) && Shown(o.outro) {
      assert g.order == [Intro, Main, Outro];
      JoinThree(g, Intro, Main, Outro, inputs, n, o.fps);
    } else if Shown(o.intro) {
      assert g.order == [Intro, Main];
      JoinTwo(g, Intro, Main, inputs, n, o.fps);
    } else {
      assert g.order == [Main, Outro];
      JoinTwo(g, Main, Outro, inputs, n, o.fps);
    }
  }

  /** With its stills sized, or none wanted, the graph shows intro, footage, outro. */
  lemma GraphShows(o: Options, script: string, sized: bool, n: nat)
    requires o.fps > 0 && (Requested(o) == [] || sized)
    ensures Video(GraphOf(o, Stilled(o, sized), script), InputsOf(o, sized), n, o.fps)
         == IntroPictures(o) + Pictures(Chained(MainChain(o, script), Footages(n, o.fps), o.fps)) + OutroPictures(o)
  {
    if Stilled(o, sized) {
      OrderShows(o, script, n);
    }
  }

  /** The video `Encode` makes of n frame files. */
  function Encoded(o: Options, sized: bool, script: string, n: nat): seq<Picture>
    requires o.fps > 0
  {
    Video(GraphOf(o, Stilled(o, sized), script), InputsOf(o, sized), n, o.fps)
  }

  /** Whether or not the stills made it into the encode. */
  lemma VideoIs(o: Options, script: string, sized: bool, n: nat)
    requires o.fps > 0
    ensures var main := Pictures(Chained(MainChain(o, script), Footages(n, o.fps), o.fps));
      Encoded(o, sized, script, n)
        == if Stilled(o, sized) then IntroPictures(o) + main + OutroPictures(o) else main
  {
    if Stilled(o, sized) {
      OrderShows(o, script, n);
    }
  }

  /** How far into the video the footage begins. */
  function Opening(o: Options, sized: bool): nat {
    if Stilled(o, sized) then |IntroPictures(o)| else 0
  }

  /** A picture of the video that is footage frame i, cropped and captioned as asked. */
  ghost predicate IsFootage(pic: Picture, o: Options, i: nat) {
    && pic.source == Footage(i) && pic.cropped == o.crop && pic.counter == CounterOf(o, i)
    && pic.title == (if o.overlay.Some? then Some(Captions.OverlayText(o.overlay.value.title)) else None)
  }

  ghost predicate FootageAt(video: seq<Picture>, k: nat, o: Options, i: nat) {
    k < |video| && IsFootage(video[k], o, i)
  }

  lemma AtItsPlace<T>(a: seq<T>, b: seq<T>, c: seq<T>, i: nat)
    requires i < |b|
    ensures |a| + i < |a + b + c| && (a + b + c)[|a| + i] == b[i]
  {
  }

  lemma PictureIs(s: seq<Frame>, o: Options, n: nat, i: nat)
    requires ShowsFootage(s, o, n) && i < n
    ensures i < |Pictures(s)| && IsFootage(Pictures(s)[i], o, i)
  {
  }

  lemma MainPicture(o: Options, ties: seq<bool>, n: nat, i: nat)
    requires FrameRates.Steady(o.fps) && i < n
    requires o.overlay.Some? ==> |ties| == |o.overlay.value.lines|
    ensures var main := Pictures(Chained(MainChain(o, ScriptOf(o, ties)), Footages(n, o.fps), o.fps));
      i < |main| && IsFootage(main[i], o, i)
  {
    MainShows(o, ties, n);
    PictureIs(Chained(MainChain(o, ScriptOf(o, ties)), Footages(n, o.fps), o.fps), o, n, i);
  }

  /** Every footage frame is at its place in the whole video, whatever is held around it. */
  lemma VideoShowsFootage(o: Options, ties: seq<bool>, sized: bool, n: nat, i: nat)
    requires FrameRates.Steady(o.fps) && i < n
    requires o.overlay.Some? ==> |ties| == |o.overlay.value.lines|
    ensures FootageAt(Encoded(o, sized, ScriptOf(o, ties), n), Opening(o, sized) + i, o, i)
  {
    var script := ScriptOf(o, ties);
    var main := Pictures(Chained(MainChain(o, script), Footages(n, o.fps), o.fps));
    MainPicture(o, ties, n, i);
    VideoIs(o, script, sized, n);
    AtItsPlace(IntroPictures(o), main, OutroPictures(o), i);
  }

  lemma LastHeld(s: seq<Frame>, o: Options, n: nat, i: nat)
    requires ShowsFootage(s, o, n) && 0 < n <= i < |s|
    ensures |Pictures(s)| == |s| && Pictures(s)[i] == Pictures(s)[n - 1]
  {
    var j: nat := n - 1;
    assert s[i].pic == s[j].pic;
  }

  /** A cloned tail holds the last footage frame, crop, caption and all. */
  lemma VideoHoldsLast(o: Options, ties: seq<bool>, sized: bool, n: nat, i: nat)
    requires FrameRates.Steady(o.fps) && 0 < n <= i < n + TailSeconds(o) * o.fps
    requires o.overlay.Some? ==> |ties| == |o.overlay.value.lines|
    ensures var video := Encoded(o, sized, ScriptOf(o, ties), n);
      Opening(o, sized) + i < |video| && video[Opening(o, sized) + i] == video[Opening(o, sized) + n - 1]
  {
    var script := ScriptOf(o, ties);
    var s := Chained(MainChain(o, script), Footages(n, o.fps), o.fps);
    MainShows(o, ties, n);
    LastHeld(s, o, n, i);
    VideoIs(o, script, sized, n);
    AtItsPlace(IntroPictures(o), Pictures(s), OutroPictures(o), i);
    AtItsPlace(IntroPictures(o), Pictures(s), OutroPictures(o), n - 1);
  }

  // ---------------------------------------------------------------- how long it runs

  lemma {:induction false} LengthKept(chain: seq<Filter>, s: seq<Frame>, fps: nat)
    requires fps > 0 && forall i | 0 <= i < |chain| :: !chain[i].CloneTail?
    ensures |Chained(chain, s, fps)| == |s|
    decreases |chain|
  {
    if chain != [] {
      assert !chain[0].CloneTail?;
      LengthKept(chain[1..], Filtered(chain[0], s, fps), fps);
    }
  }

  lemma ThreeParts(a: seq<Filter>, b: seq<Filter>, c: seq<Filter>, s: seq<Frame>, fps: nat)
    requires fps > 0
    ensures Chained(a + b + c, s, fps) == Chained(c, Chained(b, Chained(a, s, fps), fps), fps)
  {
    ChainSplits(a + b, c, s, fps);
    ChainSplits(a, b, s, fps);
  }

  /** The chain without its tail. */
  function Front(o: Options, script: string): (front: seq<Filter>)
    ensures forall i | 0 <= i < |front| :: !front[i].CloneTail?
  {
    (if o.crop then [Crop] else []) + (if o.overlay.Some? then OverlayFilters(o.overlay.value, script) else [])
  }

  lemma TailLength(o: Options, s: seq<Frame>)
    requires o.fps > 0 && s != []
    ensures |Chained(if o.tailHold > 0 && !Shown(o.outro) then [CloneTail(o.tailHold)] else [], s, o.fps)|
         == |s| + TailSeconds(o) * o.fps
  {
  }

  lemma MainLength(o: Options, script: string, n: nat)
    requires o.fps > 0 && n > 0
    ensures |Chained(MainChain(o, script), Footages(n, o.fps), o.fps)| == n + TailSeconds(o) * o.fps
  {
    var a := Front(o, script);
    var t := if o.tailHold > 0 && !Shown(o.outro) then [CloneTail(o.tailHold)] else [];
    var s := Footages(n, o.fps);
    ThreeParts(a, t, [Format, SetSar], s, o.fps);
    LengthKept(a, s, o.fps);
    TailLength(o, Chained(a, s, o.fps));
    EndPart(Chained(t, Chained(a, s, o.fps), o.fps), o.fps);
  }

  /** The seconds the options ask to hold, at both ends. */
  function HeldSeconds(o: Options): nat {
    (if Shown(o.intro) then o.intro.seconds else 0) + (if Shown(o.outro) then o.outro.seconds else o.tailHold)
  }

  /** The seconds that are held. */
  function HeldFor(o: Options, sized: bool): nat {
    if Requested(o) == [] || sized then HeldSeconds(o) else TailSeconds(o)
  }

  lemma Distributes(i: nat, t: nat, e: nat, fps: nat)
    ensures (i + t + e) * fps == i * fps + t * fps + e * fps
  {
  }

  lemma MoreIsMore(a: nat, b: nat, fps: nat)
    requires fps > 0 && a < b
    ensures a * fps < b * fps
  {
  }

  lemma JoinedLength<T>(a: seq<T>, b: seq<T>, c: seq<T>)
    ensures |a + b + c| == |a| + |b| + |c|
  {
  }

  lemma StillLengths(o: Options)
    ensures |IntroPictures(o)| == (if Shown(o.intro) then o.intro.seconds else 0) * o.fps
    ensures |OutroPictures(o)| == (if Shown(o.outro) then o.outro.seconds else 0) * o.fps
  {
  }

  /** The length in pieces. */
  lemma EncodedPieces(o: Options, script: string, sized: bool, n: nat)
    requires o.fps > 0
    ensures var main := |Chained(MainChain(o, script), Footages(n, o.fps), o.fps)|;
      |Encoded(o, sized, script, n)| ==
        if Stilled(o, sized) then |IntroPictures(o)| + main + |OutroPictures(o)| else main
  {
    VideoIs(o, script, sized, n);
    var main := Pictures(Chained(MainChain(o, script), Footages(n, o.fps), o.fps));
    JoinedLength(IntroPictures(o), main, OutroPictures(o));
  }

  lemma PiecesHeld(o: Options, sized: bool, n: nat)
    ensures (if Stilled(o, sized) then |IntroPictures(o)| + (n + TailSeconds(o) * o.fps) + |OutroPictures(o)|
             else n + TailSeconds(o) * o.fps)
         == n + HeldFor(o, sized) * o.fps
  {
    StillLengths(o);
    var i := if Shown(o.intro) then o.intro.seconds else 0;
    var e := if Shown(o.outro) then o.outro.seconds else 0;
    Distributes(i, TailSeconds(o), e, o.fps);
  }

  lemma VideoLength(o: Options, script: string, sized: bool, n: nat)
    requires o.fps > 0 && n > 0
    ensures |Encoded(o, sized, script, n)| == n + HeldFor(o, sized) * o.fps
  {
    EncodedPieces(o, script, sized, n);
    MainLength(o, script, n);
    PiecesHeld(o, sized, n);
  }

  /** The video runs for the footage and everything held exactly when its stills could be
      sized or none were wanted. */
  lemma RunsInFull(o: Options, script: string, sized: bool, n: nat)
    requires o.fps > 0 && n > 0
    ensures (|Encoded(o, sized, script, n)| == n + HeldSeconds(o) * o.fps) <==> (Requested(o) == [] || sized)
  {
    VideoLength(o, script, sized, n);
    if HeldFor(o, sized) < HeldSeconds(o) {
      MoreIsMore(HeldFor(o, sized), HeldSeconds(o), o.fps);
    }
  }

  // ---------------------------------------------------------------- the service's side

  const TITLE_DOT := " \U{00B7} "

  /** `overlay`: no caption without a font, and no counter when the layer list does not
      match the frames. */
  function OverlayOf(on: bool, font: string, printer: string, x: Session): Option<Overlay> {
    if !on || font == "" then None
    else
      var title := printer + if x.jobName != "" then TITLE_DOT + x.jobName else "";
      Some(Overlay(title, if |x.layers| == x.frames then LinesOf(x, x.frames) else []))
  }

  /** The counter lines of the first n frames. */
  function LinesOf(x: Session, n: nat): (lines: seq<string>)
    requires n <= |x.layers|
    ensures |lines| == n
    ensures forall i | 0 <= i < n :: lines[i] == Captions.LayerLine(x.layers[i], x.totalLayers)
  {
    seq(n, i requires 0 <= i < n && n <= |x.layers| => Captions.LayerLine(x.layers[i], x.totalLayers))
  }

  /** Line i reads as the layer of frame i, and as the layer count if that is known. */
  ghost predicate LinesRead(lines: seq<string>, x: Session) {
    |lines| == |x.layers| && forall i | 0 <= i < |lines| ::
      Captions.ReadLayers(lines[i]) == Some((x.layers[i], if x.totalLayers > 0 then Some(x.totalLayers) else None))
  }

  lemma OverlaySays(on: bool, font: string, printer: string, x: Session)
    ensures var o := OverlayOf(on, font, printer, x);
      o.Some? ==>
        && o.value.title == (if x.jobName == "" then printer else printer + " \U{00B7} " + x.jobName)
        && (|x.layers| == x.frames ==> LinesRead(o.value.lines, x))
  {
    assert printer + "" == printer;
    assert printer + (" \U{00B7} " + x.jobName) == printer + " \U{00B7} " + x.jobName;
    if |x.layers| == x.frames {
      forall i | 0 <= i < x.frames
        ensures Captions.ReadLayers(LinesOf(x, x.frames)[i])
             == Some((x.layers[i], if x.totalLayers > 0 then Some(x.totalLayers) else None))
      {
        Captions.LayerLineReads(x.layers[i], x.totalLayers);
      }
    }
  }

  method OverlayFor(on: bool, font: string, printer: string, x: Session) returns (o: Option<Overlay>)
    ensures o == OverlayOf(on, font, printer, x)
    ensures o.None? <==> !on || font == ""
    ensures o.Some? ==>
      && o.value.title == (if x.jobName == "" then printer else printer + " \U{00B7} " + x.jobName)
      && (|x.layers| != x.frames ==> o.value.lines == [])
      && (|x.layers| == x.frames ==> LinesRead(o.value.lines, x))
  {
    OverlaySays(on, font, printer, x);
    if !on {
      return None;
    }
    if font == "" {
      return None;
    }
    var title := printer;
    if x.jobName != "" {
      title := title + (TITLE_DOT + x.jobName);
    }
    assert title == printer + if x.jobName != "" then TITLE_DOT + x.jobName else "";
    if |x.layers| != x.frames {
      return Some(Overlay(title, []));
    }
    var lines := [];
    for i := 0 to |x.layers|
      invariant |lines| == i
      invariant forall j | 0 <= j < i :: lines[j] == Captions.LayerLine(x.layers[j], x.totalLayers)
    {
      if x.totalLayers > 0 {
        lines := lines + ["Layer " + Itoa(x.layers[i]) + ("/" + Itoa(x.totalLayers))];
      } else {
        lines := lines + ["Layer " + Itoa(x.layers[i]) + ""];
      }
    }
    assert lines == LinesOf(x, x.frames);
    return Some(Overlay(title, lines));
  }

  /** What `encode` asks for: the preview held in front, the cover held at the end. */
  function JobOptions(
    fps: nat, crop: bool, preview: string, intro: nat, cover: string, tail: nat, overlay: Option<Overlay>): Options
  {
    Options(fps, crop, Hold(preview, intro), Hold(cover, tail), tail, overlay)
  }

  /** The picture is the still of this path, as it is. */
  ghost predicate ShowsStill(pic: Picture, inputs: seq<Input>, path: string) {
    && pic.source.Held? && pic.source.input < |inputs|
    && inputs[pic.source.input].Looped? && inputs[pic.source.input].still.path == path
    && !pic.cropped && pic.title == None && pic.counter == None
  }

  ghost predicate StillAt(video: seq<Picture>, k: nat, inputs: seq<Input>, path: string) {
    k < |video| && ShowsStill(video[k], inputs, path)
  }

  /** Counted from the end. */
  ghost predicate StillBack(video: seq<Picture>, k: nat, inputs: seq<Input>, path: string) {
    k < |video| && ShowsStill(video[|video| - 1 - k], inputs, path)
  }

  lemma StillPaths(o: Options, k: nat)
    ensures k < |IntroPictures(o)| ==> StillAt(IntroPictures(o), k, InputsOf(o, true), o.intro.path)
    ensures k < |OutroPictures(o)| ==> StillBack(OutroPictures(o), k, InputsOf(o, true), o.outro.path)
  {
  }

  lemma StillKept(a: seq<Picture>, b: seq<Picture>, c: seq<Picture>, k: nat, inputs: seq<Input>, path: string)
    ensures StillAt(a, k, inputs, path) ==> StillAt(a + b + c, k, inputs, path)
    ensures StillBack(c, k, inputs, path) ==> StillBack(a + b + c, k, inputs, path)
  {
    assert k < |a| ==> (a + b + c)[k] == a[k];
    assert k < |c| ==> (a + b + c)[|a + b + c| - 1 - k] == c[|c| - 1 - k];
  }

  lemma SizedVideo(o: Options, script: string, n: nat)
    requires o.fps > 0
    ensures var main := Pictures(Chained(MainChain(o, script), Footages(n, o.fps), o.fps));
      Encoded(o, true, script, n) == IntroPictures(o) + main + OutroPictures(o)
  {
    VideoIs(o, script, true, n);
    var main := Pictures(Chained(MainChain(o, script), Footages(n, o.fps), o.fps));
    if Requested(o) == [] {
      assert [] + main + [] == main;
    }
  }

  lemma VideoEnds(o: Options, script: string, n: nat, k: nat)
    requires o.fps > 0
    ensures k < |IntroPictures(o)| ==> StillAt(Encoded(o, true, script, n), k, InputsOf(o, true), o.intro.path)
    ensures k < |OutroPictures(o)| ==> StillBack(Encoded(o, true, script, n), k, InputsOf(o, true), o.outro.path)
  {
    SizedVideo(o, script, n);
    StillPaths(o, k);
    var main := Pictures(Chained(MainChain(o, script), Footages(n, o.fps), o.fps));
    StillKept(IntroPictures(o), main, OutroPictures(o), k, InputsOf(o, true), o.intro.path);
    StillKept(IntroPictures(o), main, OutroPictures(o), k, InputsOf(o, true), o.outro.path);
  }

  lemma JobHolds(
    fps: nat, crop: bool, preview: string, intro: nat, cover: string, tail: nat, overlay: Option<Overlay>)
    ensures var o := JobOptions(fps, crop, preview, intro, cover, tail, overlay);
      && |IntroPictures(o)| == (if preview != "" then intro * fps else 0)
      && |OutroPictures(o)| == (if cover != "" then tail * fps else 0)
      && Opening(o, true) == |IntroPictures(o)|
  {
    StillLengths(JobOptions(fps, crop, preview, intro, cover, tail, overlay));
  }

  /** With the size known: the job's video opens on the preview for as long as the intro lasts
      and ends on the cover for as long as the tail does, picture by picture. */
  lemma JobEnds(
    fps: nat, crop: bool, preview: string, intro: nat, cover: string, tail: nat, overlay: Option<Overlay>,
    script: string, n: nat, k: nat)
    requires fps > 0
    ensures
      var o := JobOptions(fps, crop, preview, intro, cover, tail, overlay);
      && (preview != "" && k < intro * fps ==> StillAt(Encoded(o, true, script, n), k, InputsOf(o, true), preview))
      && (cover != "" && k < tail * fps ==> StillBack(Encoded(o, true, script, n), k, InputsOf(o, true), cover))
  {
    JobHolds(fps, crop, preview, intro, cover, tail, overlay);
    VideoEnds(JobOptions(fps, crop, preview, intro, cover, tail, overlay), script, n, k);
  }

  /** Frame i of the footage, cropped and titled like this. */
  ghost predicate FrameAt(video: seq<Picture>, k: nat, i: nat, crop: bool, title: Option<string>) {
    k < |video| && video[k].source == Footage(i) && video[k].cropped == crop && video[k].title == title
  }

  lemma FrameIs(video: seq<Picture>, k: nat, o: Options, i: nat)
    requires FootageAt(video, k, o, i)
    ensures FrameAt(video, k, i, o.crop,
                    if o.overlay.Some? then Some(Captions.OverlayText(o.overlay.value.title)) else None)
  {
  }

  /** Between them is the footage, cropped as configured and under the overlay's title. */
  lemma JobFootage(
    fps: nat, crop: bool, preview: string, intro: nat, cover: string, tail: nat, overlay: Option<Overlay>,
    ties: seq<bool>, n: nat, i: nat, lead: nat)
    requires FrameRates.Steady(fps) && i < n && lead == if preview != "" then intro * fps else 0
    requires overlay.Some? ==> |ties| == |overlay.value.lines|
    ensures var o := JobOptions(fps, crop, preview, intro, cover, tail, overlay);
      FrameAt(Encoded(o, true, ScriptOf(o, ties), n), lead + i, i, crop,
              if overlay.Some? then Some(Captions.OverlayText(overlay.value.title)) else None)
  {
    var o := JobOptions(fps, crop, preview, intro, cover, tail, overlay);
    JobHolds(fps, crop, preview, intro, cover, tail, overlay);
    VideoShowsFootage(o, ties, true, n, i);
    FrameIs(Encoded(o, true, ScriptOf(o, ties), n), lead + i, o, i);
  }

  /** `encode`: a failure with a caption is retried without it, and only then. Each attempt
      probes the frame size for itself; first and second are what ffmpeg answers. */
  method EncodeJob(
    o: Options, ties: seq<bool>, sized: bool, first: bool, resized: bool, second: bool)
    returns (ok: bool, inputs: seq<Input>, g: Graph)
    requires o.fps > 0
    requires o.overlay.Some? ==> |ties| == |o.overlay.value.lines|
    ensures ok <==> first || (o.overlay.Some? && second)
    ensures first ==> inputs == InputsOf(o, sized) && g == GraphOf(o, Stilled(o, sized), ScriptOf(o, ties))
    ensures !first && ok ==>
      var bare := o.(overlay := None);
      inputs == InputsOf(bare, resized) && g == GraphOf(bare, Stilled(bare, resized), "")
  {
    inputs, g := Encode(o, sized, ties);
    if first || o.overlay.None? {
      return first, inputs, g;
    }
    inputs, g := Encode(o.(overlay := None), resized, []);
    ok := second;
  }

  /** The same picture of both videos, but for the caption. */
  ghost predicate SameBare(video: seq<Picture>, k: nat, again: seq<Picture>, m: nat) {
    k < |video| && m < |again| && again[m] == video[k].(title := None, counter := None)
  }

  lemma Undressed(video: seq<Picture>, again: seq<Picture>, o: Options, k: nat, m: nat, i: nat)
    requires FootageAt(video, k, o, i) && FootageAt(again, m, o.(overlay := None), i)
    ensures SameBare(video, k, again, m)
  {
  }

  lemma RetryOpens(o: Options, sized: bool)
    ensures Opening(o.(overlay := None), sized) == Opening(o, sized)
  {
  }

  lemma RetryHolds(o: Options, sized: bool)
    ensures HeldFor(o.(overlay := None), sized) == HeldFor(o, sized)
  {
  }

  /** The two attempts run for the same time exactly when both could size the stills or
      neither, or none were wanted. */
  lemma RetryLength(o: Options, script: string, sized: bool, resized: bool, n: nat)
    requires o.fps > 0 && n > 0
    ensures (|Encoded(o.(overlay := None), resized, "", n)| == |Encoded(o, sized, script, n)|)
      <==> (Requested(o) == [] || sized == resized)
  {
    VideoLength(o, script, sized, n);
    VideoLength(o.(overlay := None), "", resized, n);
    RetryHolds(o, resized);
    if HeldFor(o, sized) < HeldFor(o, resized) {
      MoreIsMore(HeldFor(o, sized), HeldFor(o, resized), o.fps);
    } else if HeldFor(o, resized) < HeldFor(o, sized) {
      MoreIsMore(HeldFor(o, resized), HeldFor(o, sized), o.fps);
    }
  }

  lemma RetryShows(o: Options, resized: bool, n: nat, i: nat)
    requires FrameRates.Steady(o.fps) && i < n
    ensures FootageAt(Encoded(o.(overlay := None), resized, "", n), Opening(o, resized) + i, o.(overlay := None), i)
  {
    RetryOpens(o, resized);
    VideoShowsFootage(o.(overlay := None), [], resized, n, i);
  }

  /** Losing the caption to a retry costs no footage: each frame is in both videos, after
      what is held in front of it, and differs in the caption alone. */
  lemma RetryKeepsFootage(o: Options, ties: seq<bool>, sized: bool, resized: bool, n: nat, i: nat)
    requires FrameRates.Steady(o.fps) && i < n
    requires o.overlay.Some? ==> |ties| == |o.overlay.value.lines|
    ensures SameBare(Encoded(o, sized, ScriptOf(o, ties), n), Opening(o, sized) + i,
                     Encoded(o.(overlay := None), resized, "", n), Opening(o, resized) + i)
  {
    VideoShowsFootage(o, ties, sized, n, i);
    RetryShows(o, resized, n, i);
    Undressed(
      Encoded(o, sized, ScriptOf(o, ties), n), Encoded(o.(overlay := None), resized, "", n),
      o, Opening(o, sized) + i, Opening(o, resized) + i, i);
  }

  const SECOND := 1_000_000_000

  /** `duration`, in nanoseconds until the last step. */
  function Duration(frames: nat, fps: nat, tail: nat, preview: string, intro: nat): int
    requires fps > 0
  {
    var footage := frames * SECOND / fps;
    var held := tail * SECOND + if preview != "" then intro * SECOND else 0;
    Max(1, (footage + held) / SECOND)
  }

  lemma QuotientIs(a: int, b: int, q: int, r: int)
    requires b > 0 && a == q * b + r && 0 <= r < b
    ensures a / b == q
  {
    var d := a / b - q;
    assert d * b == r - a % b;
    assert d >= 1 ==> d * b >= b;
    assert d <= -1 ==> d * b <= -b;
  }

  lemma FloorTwice(n: nat, fps: nat)
    requires fps > 0
    ensures n * SECOND / fps / SECOND == n / fps
  {
    var q, r := n / fps, n % fps;
    var part := r * SECOND / fps;
    assert 0 <= part < SECOND by {
      assert part * fps <= r * SECOND;
      assert part >= SECOND ==> part * fps >= SECOND * fps;
    }
    assert (q * SECOND) * fps == q * fps * SECOND;
    assert n == q * fps + r;
    assert n * SECOND == q * fps * SECOND + r * SECOND;
    assert n * SECOND == (q * SECOND + part) * fps + r * SECOND % fps;
    QuotientIs(n * SECOND, fps, q * SECOND + part, r * SECOND % fps);
  }

  lemma WholeSeconds(n: nat, held: nat, fps: nat)
    requires fps > 0
    ensures (n + held * fps) / fps == n / fps + held
  {
    var q, r := n / fps, n % fps;
    assert n + held * fps == (q + held) * fps + r;
    QuotientIs(n + held * fps, fps, q + held, r);
  }

  /** The seconds told for both ends together. */
  function Told(preview: string, intro: nat, tail: nat): nat {
    tail + if preview != "" then intro else 0
  }

  lemma ToldIsHeld(
    fps: nat, crop: bool, preview: string, intro: nat, cover: string, tail: nat, overlay: Option<Overlay>)
    ensures HeldSeconds(JobOptions(fps, crop, preview, intro, cover, tail, overlay)) == Told(preview, intro, tail)
  {
  }

  lemma DurationIs(frames: nat, fps: nat, preview: string, intro: nat, tail: nat)
    requires fps > 0
    ensures Duration(frames, fps, tail, preview, intro) == Max(1, frames / fps + Told(preview, intro, tail))
  {
    FloorTwice(frames, fps);
    var held := Told(preview, intro, tail);
    assert tail * SECOND + (if preview != "" then intro * SECOND else 0) == held * SECOND;
    assert (frames * SECOND / fps + held * SECOND) / SECOND == frames * SECOND / fps / SECOND + held;
  }

  lemma Rounded(q: nat, less: nat, more: nat)
    requires less <= more
    ensures (Max(1, q + more) == Max(1, q + less)) <==> (less == more || q + more <= 1)
  {
  }

  /** The whole seconds a video runs for. */
  lemma VideoSeconds(o: Options, script: string, sized: bool, n: nat)
    requires o.fps > 0 && n > 0
    ensures |Encoded(o, sized, script, n)| / o.fps == n / o.fps + HeldFor(o, sized)
  {
    VideoLength(o, script, sized, n);
    WholeSeconds(n, HeldFor(o, sized), o.fps);
  }

  /** The comparison, in numbers alone. */
  lemma ToldMatches(told: int, seconds: int, q: nat, held: nat, full: nat, sized: bool)
    requires told == Max(1, q + full) && seconds == q + held && held <= full && (held == full <==> sized)
    ensures (told == Max(1, seconds)) <==> (sized || q + full <= 1)
  {
    Rounded(q, held, full);
  }

  lemma HeldInFull(o: Options, sized: bool)
    ensures HeldFor(o, sized) <= HeldSeconds(o)
    ensures HeldFor(o, sized) == HeldSeconds(o) <==> Requested(o) == [] || sized
  {
  }

  lemma ToldOf(o: Options, script: string, sized: bool, n: nat, told: int)
    requires o.fps > 0 && n > 0 && told == Max(1, n / o.fps + HeldSeconds(o))
    ensures (told == Max(1, |Encoded(o, sized, script, n)| / o.fps))
      <==> (Requested(o) == [] || sized || n / o.fps + HeldSeconds(o) <= 1)
  {
    VideoSeconds(o, script, sized, n);
    HeldInFull(o, sized);
    ToldMatches(told, |Encoded(o, sized, script, n)| / o.fps, n / o.fps,
                HeldFor(o, sized), HeldSeconds(o), Requested(o) == [] || sized);
  }

  /** The posted duration is the whole seconds the video runs for, and at least one, exactly
      when the stills could be sized, or none were wanted, or it is one second all told. */
  lemma DurationMatches(
    n: nat, fps: nat, crop: bool, preview: string, intro: nat, cover: string, tail: nat,
    overlay: Option<Overlay>, script: string, sized: bool)
    requires fps > 0 && n > 0
    ensures
      var o := JobOptions(fps, crop, preview, intro, cover, tail, overlay);
      (Duration(n, fps, tail, preview, intro) == Max(1, |Encoded(o, sized, script, n)| / fps))
      <==> (Requested(o) == [] || sized || n / fps + Told(preview, intro, tail) <= 1)
  {
    DurationIs(n, fps, preview, intro, tail);
    ToldIsHeld(fps, crop, preview, intro, cover, tail, overlay);
    ToldOf(JobOptions(fps, crop, preview, intro, cover, tail, overlay), script, sized, n,
           Duration(n, fps, tail, preview, intro));
  }
}
