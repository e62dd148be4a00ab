/** From the printer's report to the finished video: over every run of the service, the
    counter drawn on a frame is the layer that triggered the picture in it, and the posted
    duration is the video's. */
module EndToEnd {
  import opened Basics
  import opened Sessions
  import opened Protocol
  import Captions
  import Drain
  import FrameRates
  import EncoderPrefix
  import Lifecycle
  import Timeline

  /** The frame files the encoder reads out of a folder. */
  function Scanned(f: Folder): nat { EncoderPrefix.Scan(f.stills, 1) }

  lemma {:induction false} ScanReaches(stills: map<nat, Still>, from: nat, n: nat)
    requires from <= n + 1 && forall i: nat | from <= i <= n :: i in stills
    ensures EncoderPrefix.Scan(stills, from) >= n + 1 - from
    decreases n + 1 - from
  {
    if from <= n {
      assert from in stills;
      ScanReaches(stills, from + 1, n);
    }
  }

  lemma TruthScanned(x: Session, f: Folder)
    requires Truth(x, f.stills)
    ensures Scanned(f) >= x.frames
  {
    forall i: nat | 1 <= i <= x.frames
      ensures i in f.stills
    {
      assert Shows(x, f.stills, i - 1);
    }
    ScanReaches(f.stills, 1, x.frames);
  }

  /** The counter says this layer, and the job's layer count if that is known. */
  ghost predicate CounterSays(counter: Option<string>, layer: int, total: int) {
    counter.Some? && Captions.ReadLayers(counter.value) == Some((layer, if total > 0 then Some(total) else None))
  }

  /** Frame i of the footage carries the layer that triggered its picture. */
  ghost predicate TellsLayer(pic: Timeline.Picture, x: Session, stills: map<nat, Still>, i: nat) {
    && pic.source == Timeline.Footage(i)
    && i + 1 in stills && stills[i + 1].Photo?
    && CounterSays(pic.counter, stills[i + 1].layer, x.totalLayers)
  }

  lemma CounterTells(x: Session, stills: map<nat, Still>, o: Timeline.Options, font: string, printer: string, i: nat)
    requires Truth(x, stills) && font != "" && i < x.frames
    requires o.overlay == Timeline.OverlayOf(true, font, printer, x)
    ensures i + 1 in stills && stills[i + 1].Photo?
    ensures CounterSays(Timeline.CounterOf(o, i), stills[i + 1].layer, x.totalLayers)
  {
    assert Shows(x, stills, i);
    Captions.LayerLineKept(x.layers[i], x.totalLayers);
    Captions.LayerLineReads(x.layers[i], x.totalLayers);
    assert o.overlay.value.lines == Timeline.LinesOf(x, x.frames);
  }

  lemma VideoTells(
    x: Session, f: Folder, o: Timeline.Options, font: string, printer: string,
    ties: seq<bool>, sized: bool, i: nat)
    requires Truth(x, f.stills) && font != "" && i < x.frames && FrameRates.Steady(o.fps)
    requires o.overlay == Timeline.OverlayOf(true, font, printer, x) && |ties| == |o.overlay.value.lines|
    ensures var video := Timeline.Encoded(o, sized, Timeline.ScriptOf(o, ties), Scanned(f));
      var k := Timeline.Opening(o, sized) + i;
      k < |video| && TellsLayer(video[k], x, f.stills, i)
  {
    TruthScanned(x, f);
    CounterTells(x, f.stills, o, font, printer, i);
    Timeline.VideoShowsFootage(o, ties, sized, Scanned(f), i);
  }

  /** In every reachable state under E1 to E3, whatever grabs and saves failed on the way:
      if the session h were encoded now, with a caption and at a steady frame rate,
      every committed frame would be in the video, carrying the layer that triggered it. */
  lemma CaptionTellsTheTruth(
    c: Config, a: Assume, run: seq<Label>, h: nat,
    o: Timeline.Options, font: string, printer: string, ties: seq<bool>, sized: bool, i: nat)
    requires a.ids && a.jobs && Runs(c, a, INITIAL, run)
    requires var s := After(c, a, INITIAL, run);
      h < |s.open| && s.open[h].dir in s.disk && !s.disk[s.open[h].dir].handedOver && i < s.open[h].sess.frames
    requires font != "" && FrameRates.Steady(o.fps)
    requires o.overlay == Timeline.OverlayOf(true, font, printer, After(c, a, INITIAL, run).open[h].sess)
    requires |ties| == |o.overlay.value.lines|
    ensures var s := After(c, a, INITIAL, run); var f := s.disk[s.open[h].dir];
      var video := Timeline.Encoded(o, sized, Timeline.ScriptOf(o, ties), Scanned(f));
      var k := Timeline.Opening(o, sized) + i;
      k < |video| && TellsLayer(video[k], s.open[h].sess, f.stills, i)
  {
    Lifecycle.SessionsTellTheTruth(c, a, run, h);
    var s := After(c, a, INITIAL, run);
    VideoTells(s.open[h].sess, s.disk[s.open[h].dir], o, font, printer, ties, sized, i);
  }

  /** The video is not made in an instant. From any reachable state under E1 to E3 in which
      h is rendering and no capture is on it, whatever the other actors do meanwhile: read at
      any moment until its encode ends, its directory gives a video that tells the truth. */
  lemma EncodeTellsTheTruth(
    c: Config, a: Assume, before: seq<Label>, run: seq<Label>, h: nat,
    o: Timeline.Options, font: string, printer: string, ties: seq<bool>, sized: bool, i: nat)
    requires a.ids && a.jobs && Runs(c, a, INITIAL, before)
    requires var s := After(c, a, INITIAL, before);
      && h in s.finals && Drain.Rendering(s.finals[h].phase) && !OnShot(s.shot, h)
      && Runs(c, a, s, run) && Lifecycle.NoCrash(run)
      && h in After(c, a, s, run).finals && After(c, a, s, run).finals[h].phase.Encoding?
      && h < |s.open| && s.open[h].dir in s.disk && !s.disk[s.open[h].dir].handedOver && i < s.open[h].sess.frames
    requires font != "" && FrameRates.Steady(o.fps)
    requires o.overlay == Timeline.OverlayOf(true, font, printer, After(c, a, INITIAL, before).open[h].sess)
    requires |ties| == |o.overlay.value.lines|
    ensures var s := After(c, a, INITIAL, before); var t := After(c, a, s, run);
      && Drain.Same(s, t, h)
      && var f := t.disk[t.open[h].dir];
         var video := Timeline.Encoded(o, sized, Timeline.ScriptOf(o, ties), Scanned(f));
         var k := Timeline.Opening(o, sized) + i;
         k < |video| && TellsLayer(video[k], t.open[h].sess, f.stills, i)
  {
    Drain.EncodeSeesOneFolder(c, a, before, run, h);
    CaptionTellsTheTruth(c, a, before, h, o, font, printer, ties, sized, i);
  }

  // ---------------------------------------------------------------- the whole footage

  lemma {:induction false} ScanContains(stills: map<nat, Still>, from: nat, i: nat)
    requires from <= i < from + EncoderPrefix.Scan(stills, from)
    ensures i in stills
    decreases i - from
  {
    if from < i {
      ScanContains(stills, from + 1, i);
    }
  }

  /** A picture that was never counted is shown under the last counted frame's line. */
  ghost predicate SameAsLast(x: Session, stills: map<nat, Still>, i: nat) {
    && 0 < x.frames == |x.layers|
    && i + 1 in stills && stills[i + 1].Photo? && stills[i + 1].layer == x.layers[x.frames - 1]
  }

  lemma UncountedTells(
    x: Session, stills: map<nat, Still>, o: Timeline.Options, font: string, printer: string,
    pic: Timeline.Picture, i: nat)
    requires |x.layers| == x.frames <= i && font != "" && i + 1 in stills
    requires o.overlay == Timeline.OverlayOf(true, font, printer, x)
    requires Timeline.IsFootage(pic, o, i)
    ensures TellsLayer(pic, x, stills, i) <==> SameAsLast(x, stills, i)
  {
    assert o.overlay.value.lines == Timeline.LinesOf(x, x.frames);
    if x.frames > 0 {
      var last := x.layers[x.frames - 1];
      Captions.LayerLineKept(last, x.totalLayers);
      Captions.LayerLineReads(last, x.totalLayers);
    }
  }

  ghost predicate Tells(video: seq<Timeline.Picture>, from: nat, x: Session, stills: map<nat, Still>, i: nat) {
    from + i < |video| && TellsLayer(video[from + i], x, stills, i)
  }

  /** The footage that begins there tells the truth, every frame of it. */
  ghost predicate FootageTells(video: seq<Timeline.Picture>, from: nat, x: Session, stills: map<nat, Still>, n: nat) {
    forall i: nat | i < n :: Tells(video, from, x, stills, i)
  }

  lemma CountedAt(
    x: Session, f: Folder, o: Timeline.Options, font: string, printer: string,
    ties: seq<bool>, sized: bool, i: nat)
    requires Truth(x, f.stills) && font != "" && FrameRates.Steady(o.fps) && i < x.frames
    requires o.overlay == Timeline.OverlayOf(true, font, printer, x) && |ties| == |o.overlay.value.lines|
    ensures Tells(Timeline.Encoded(o, sized, Timeline.ScriptOf(o, ties), Scanned(f)), Timeline.Opening(o, sized),
                  x, f.stills, i)
  {
    VideoTells(x, f, o, font, printer, ties, sized, i);
  }

  lemma FrameTells(
    x: Session, f: Folder, o: Timeline.Options, font: string, printer: string,
    ties: seq<bool>, sized: bool, i: nat)
    requires Truth(x, f.stills) && font != "" && FrameRates.Steady(o.fps) && i < Scanned(f)
    requires o.overlay == Timeline.OverlayOf(true, font, printer, x) && |ties| == |o.overlay.value.lines|
    ensures
      Tells(Timeline.Encoded(o, sized, Timeline.ScriptOf(o, ties), Scanned(f)), Timeline.Opening(o, sized),
            x, f.stills, i)
      <==> (i < x.frames || SameAsLast(x, f.stills, i))
  {
    if i < x.frames {
      CountedAt(x, f, o, font, printer, ties, sized, i);
    } else {
      UncountedFrame(x, f, o, font, printer, ties, sized, i);
    }
  }

  lemma UncountedFrame(
    x: Session, f: Folder, o: Timeline.Options, font: string, printer: string,
    ties: seq<bool>, sized: bool, i: nat)
    requires |x.layers| == x.frames <= i && font != "" && FrameRates.Steady(o.fps) && i < Scanned(f)
    requires o.overlay == Timeline.OverlayOf(true, font, printer, x) && |ties| == |o.overlay.value.lines|
    ensures
      Tells(Timeline.Encoded(o, sized, Timeline.ScriptOf(o, ties), Scanned(f)), Timeline.Opening(o, sized),
            x, f.stills, i)
      <==> SameAsLast(x, f.stills, i)
  {
    FootageThere(f, o, ties, sized, i);
    ScanContains(f.stills, 1, i + 1);
    UncountedAt(Timeline.Encoded(o, sized, Timeline.ScriptOf(o, ties), Scanned(f)), Timeline.Opening(o, sized),
                x, f.stills, o, font, printer, i);
  }

  lemma FootageThere(f: Folder, o: Timeline.Options, ties: seq<bool>, sized: bool, i: nat)
    requires FrameRates.Steady(o.fps) && i < Scanned(f)
    requires o.overlay.Some? ==> |ties| == |o.overlay.value.lines|
    ensures Timeline.FootageAt(
      Timeline.Encoded(o, sized, Timeline.ScriptOf(o, ties), Scanned(f)), Timeline.Opening(o, sized) + i, o, i)
  {
    Timeline.VideoShowsFootage(o, ties, sized, Scanned(f), i);
  }

  lemma UncountedAt(
    video: seq<Timeline.Picture>, from: nat, x: Session, stills: map<nat, Still>,
    o: Timeline.Options, font: string, printer: string, i: nat)
    requires |x.layers| == x.frames <= i && font != "" && i + 1 in stills
    requires o.overlay == Timeline.OverlayOf(true, font, printer, x)
    requires Timeline.FootageAt(video, from + i, o, i)
    ensures Tells(video, from, x, stills, i) <==> SameAsLast(x, stills, i)
  {
    UncountedTells(x, stills, o, font, printer, video[from + i], i);
  }

  lemma CountedOrSame(video: seq<Timeline.Picture>, from: nat, x: Session, stills: map<nat, Still>, n: nat)
    requires forall i: nat | i < n :: Tells(video, from, x, stills, i) <==> (i < x.frames || SameAsLast(x, stills, i))
    ensures FootageTells(video, from, x, stills, n)
      <==> (forall i: nat | x.frames <= i < n :: SameAsLast(x, stills, i))
  {
    if FootageTells(video, from, x, stills, n) {
      forall i: nat | x.frames <= i < n
        ensures SameAsLast(x, stills, i)
      {
        assert Tells(video, from, x, stills, i);
      }
    }
  }

  /** Every frame of the footage tells the truth exactly when every picture that was never
      counted was triggered by the layer of the last one that was. */
  lemma WholeFootageTells(
    x: Session, f: Folder, o: Timeline.Options, font: string, printer: string, ties: seq<bool>, sized: bool)
    requires Truth(x, f.stills) && font != "" && FrameRates.Steady(o.fps)
    requires o.overlay == Timeline.OverlayOf(true, font, printer, x) && |ties| == |o.overlay.value.lines|
    ensures
      FootageTells(Timeline.Encoded(o, sized, Timeline.ScriptOf(o, ties), Scanned(f)), Timeline.Opening(o, sized),
                   x, f.stills, Scanned(f))
      <==> (forall i: nat | x.frames <= i < Scanned(f) :: SameAsLast(x, f.stills, i))
  {
    var video := Timeline.Encoded(o, sized, Timeline.ScriptOf(o, ties), Scanned(f));
    var from := Timeline.Opening(o, sized);
    forall i: nat | i < Scanned(f)
      ensures Tells(video, from, x, f.stills, i) <==> (i < x.frames || SameAsLast(x, f.stills, i))
    {
      FrameTells(x, f, o, font, printer, ties, sized, i);
    }
    CountedOrSame(video, from, x, f.stills, Scanned(f));
  }

  /** And a cloned tail tells of the picture it holds. */
  lemma TailTells(
    x: Session, f: Folder, o: Timeline.Options, ties: seq<bool>, sized: bool, j: nat)
    requires FrameRates.Steady(o.fps) && 0 < Scanned(f) <= j < Scanned(f) + Timeline.TailSeconds(o) * o.fps
    requires o.overlay.Some? ==> |ties| == |o.overlay.value.lines|
    requires var video := Timeline.Encoded(o, sized, Timeline.ScriptOf(o, ties), Scanned(f));
      Tells(video, Timeline.Opening(o, sized), x, f.stills, Scanned(f) - 1)
    ensures var video := Timeline.Encoded(o, sized, Timeline.ScriptOf(o, ties), Scanned(f));
      var k := Timeline.Opening(o, sized) + j;
      k < |video| && TellsLayer(video[k], x, f.stills, Scanned(f) - 1)
  {
    Timeline.VideoHoldsLast(o, ties, sized, Scanned(f), j);
  }

  // ---------------------------------------------------------------- the duration

  lemma CountScanned(o: Open, storing: bool, disk: Disk)
    requires o.dir in disk && !disk[o.dir].handedOver && disk[o.dir].state.Some?
    requires EncoderPrefix.CountSaved(o, storing, disk) && EncoderPrefix.AtMostOneMore(disk[o.dir])
    ensures o.sess.frames <= Scanned(disk[o.dir]) <= o.sess.frames + 1
  {
    var f := disk[o.dir];
    if EncoderPrefix.FilesTo(f.stills, o.sess.frames) {
      EncoderPrefix.ScanReads(f.stills, 1, o.sess.frames);
    } else {
      EncoderPrefix.ScanReads(f.stills, 1, o.sess.frames + 1);
    }
  }

  lemma DurationWithinOne(
    frames: nat, n: nat, crop: bool, fps: nat, preview: string, intro: nat, cover: string, tail: nat,
    overlay: Option<Timeline.Overlay>, script: string, sized: bool)
    requires fps > 0 && 0 < n && frames <= n <= frames + 1
    requires sized || Timeline.Requested(Timeline.JobOptions(fps, crop, preview, intro, cover, tail, overlay)) == []
    ensures var o := Timeline.JobOptions(fps, crop, preview, intro, cover, tail, overlay);
      var told := Timeline.Duration(frames, fps, tail, preview, intro);
      told <= Max(1, |Timeline.Encoded(o, sized, script, n)| / fps) <= told + 1
  {
    Timeline.DurationMatches(n, fps, crop, preview, intro, cover, tail, overlay, script, sized);
    DurationStep(frames, n, fps, preview, intro, tail);
  }

  lemma DurationStep(frames: nat, n: nat, fps: nat, preview: string, intro: nat, tail: nat)
    requires fps > 0 && frames <= n <= frames + 1
    ensures var told := Timeline.Duration(frames, fps, tail, preview, intro);
      told <= Timeline.Duration(n, fps, tail, preview, intro) <= told + 1
  {
    Timeline.DurationIs(n, fps, preview, intro, tail);
    Timeline.DurationIs(frames, fps, preview, intro, tail);
    OneMore(frames, fps);
  }

  lemma OneMore(n: nat, fps: nat)
    requires fps > 0
    ensures n / fps <= (n + 1) / fps <= n / fps + 1
  {
    var q, r := n / fps, n % fps;
    if r + 1 < fps {
      Timeline.QuotientIs(n + 1, fps, q, r + 1);
    } else {
      assert (q + 1) * fps == q * fps + fps;
      Timeline.QuotientIs(n + 1, fps, q + 1, 0);
    }
  }

  /** When saves succeed, the duration told to the destination is the video's in whole
      seconds, or one second less when a picture landed that was never counted. */
  lemma DurationTellsTheTruth(
    c: Config, a: Assume, run: seq<Label>, h: nat,
    fps: nat, preview: string, intro: nat, cover: string, tail: nat,
    overlay: Option<Timeline.Overlay>, script: string, sized: bool)
    requires a.ids && a.jobs && a.saves && Runs(c, a, INITIAL, run)
    requires var s := After(c, a, INITIAL, run);
      h < |s.open| && s.open[h].dir in s.disk && !s.disk[s.open[h].dir].handedOver
      && s.disk[s.open[h].dir].state.Some? && Scanned(s.disk[s.open[h].dir]) > 0
    requires fps > 0
    requires sized || Timeline.Requested(Timeline.JobOptions(fps, c.crop, preview, intro, cover, tail, overlay)) == []
    ensures var s := After(c, a, INITIAL, run);
      var o := Timeline.JobOptions(fps, c.crop, preview, intro, cover, tail, overlay);
      var told := Timeline.Duration(s.open[h].sess.frames, fps, tail, preview, intro);
      told <= Max(1, |Timeline.Encoded(o, sized, script, Scanned(s.disk[s.open[h].dir]))| / fps) <= told + 1
  {
    Lifecycle.InitialHolds();
    Lifecycle.RunKeepsPrefix(c, a, INITIAL, run);
    var s := After(c, a, INITIAL, run);
    var f := s.disk[s.open[h].dir];
    CountScanned(s.open[h], EncoderPrefix.StoringOn(s.shot, h), s.disk);
    DurationWithinOne(
      s.open[h].sess.frames, Scanned(f), c.crop, fps, preview, intro, cover, tail, overlay, script, sized);
  }
}
