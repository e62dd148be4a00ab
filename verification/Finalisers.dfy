/** What a finaliser does with a finished job, case by case: when it encodes, posts, keeps,
    removes and parks; and which jobs get how far, over every run. */
module Finalisers {
  import opened Basics
  import opened Sessions
  import opened Protocol
  import BasicInvariant
  import Lifecycle

  // ---------------------------------------------------------------- one step

  /** The phase a finaliser's step leaves it in. */
  function Next(c: Config, s: State, h: nat, e: FinalEvent): (q: Phase)
    requires Enabled(c, s, OnFinal(h, e))
    ensures Apply(c, s, OnFinal(h, e)).finals == s.finals[h := Apply(c, s, OnFinal(h, e)).finals[h]]
  {
    Apply(c, s, OnFinal(h, e)).finals[h].phase
  }

  /** A job is encoded exactly when it has frames enough, and removed unseen exactly when it
      has not. */
  lemma EncodesExactly(c: Config, s: State, h: nat, e: FinalEvent)
    requires Enabled(c, s, OnFinal(h, e))
    ensures var p, q, frames := s.finals[h].phase, Next(c, s, h, e), s.open[h].sess.frames;
      && (q.Covering? <==> p.Draining?)
      && (q.Judging? <==> p.Covering?)
      && (q.Encoding? <==> p.Judging? && frames >= c.minFrames)
      && (q.Encoding? ==> q.cover == p.cover)
      && (q == Clearing(TooFew) <==> p.Judging? && frames < c.minFrames)
      && (q == Parking(EncodeFailed) <==> p.Encoding? && !e.ok)
      && (q.Gone? <==> p.Clearing? || p.Parking?)
  {
  }

  /** An encoded job is posted exactly when an API is configured, and again only after an answer
      that another attempt could mend, twice at most; an accepted one is done. */
  lemma PostsExactly(c: Config, s: State, h: nat, e: FinalEvent)
    requires Enabled(c, s, OnFinal(h, e))
    ensures var p, q := s.finals[h].phase, Next(c, s, h, e);
      && (p.Encoding? ==> (q == Posting(1) <==> e.ok && !c.local))
      && (p.Posting? ==> (q == Posting(p.attempt + 1) <==> e.outcome.TryAgain? && p.attempt < 3))
      && (q.Posting? ==> p.Encoding? || p.Posting?)
      && (q == Clearing(Posted) <==> p.Posting? && e.outcome.Accepted?)
      && (q == Parking(UploadFailed) <==>
            p.Posting? && (e.outcome.Refused? || (e.outcome.TryAgain? && p.attempt >= 3)))
  {
  }

  /** It is kept locally exactly when none is configured, the directory can be written and the
      video moved. */
  lemma KeepsExactly(c: Config, s: State, h: nat, e: FinalEvent)
    requires Enabled(c, s, OnFinal(h, e))
    ensures var p, q := s.finals[h].phase, Next(c, s, h, e);
      && (q.Opening? <==> p.Encoding? && e.ok && c.local)
      && (q.Moving? <==> p.Opening? && e.ok)
      && (q.Delivering? <==> p.Moving? && e.ok)
      && (q.Opening? || q.Moving? || q.Delivering? ==> q.cover == p.cover)
      && (q == Parking(OutputUnwritable) <==> (p.Opening? || p.Moving?) && !e.ok)
      && (q == Clearing(KeptLocally) <==> p.Delivering?)
  {
  }

  /** The poster: the fresh grab if the print has just ended and the grab worked; else the last
      frame if it is on disk, cropped when crops are wanted and the crop worked; else none. */
  lemma CoversExactly(c: Config, s: State, h: nat, e: FinalEvent)
    requires Enabled(c, s, OnFinal(h, e)) && s.finals[h].phase.Covering?
    ensures var q, f, o := Next(c, s, h, e), s.finals[h], s.open[h];
      var there := o.dir in s.disk && o.sess.frames in s.disk[o.dir].stills;
      && (q == Judging(OwnCover) <==> (!f.skipDelay && e.grabbed) || (there && c.crop && e.cropped))
      && (q == Judging(NoCover) <==> (f.skipDelay || !e.grabbed) && !there)
      && (q == Judging(LastFrame(o.sess.frames)) <==>
            (f.skipDelay || !e.grabbed) && there && !(c.crop && e.cropped))
  {
  }

  /** What becomes of the disk: nothing before the end; then the directory goes, or moves whole
      to its place under failed/. A delivery may take the poster out first. */
  lemma EndsExactly(c: Config, s: State, h: nat, e: FinalEvent)
    requires Enabled(c, s, OnFinal(h, e))
    ensures var p, o, t := s.finals[h].phase, s.open[h], Apply(c, s, OnFinal(h, e));
      && (!p.Delivering? && !p.Clearing? && !p.Parking? ==> t.disk == s.disk)
      && (p.Clearing? ==> t.disk == s.disk - {o.dir})
      && (p.Parking? && !e.ok ==> t.disk == s.disk - {o.dir})
      && (p.Parking? && e.ok ==>
            && t.disk == (s.disk - {o.dir})[Parked(p.reason, o.dir.name) := s.disk[o.dir]]
            && t.open == s.open[h := Open(o.sess, Parked(p.reason, o.dir.name))])
      && (!(p.Parking? && e.ok) ==> t.open == s.open)
  {
  }

  // ---------------------------------------------------------------- over every run

  /** The job has been found worth a video. */
  predicate Passed(p: Phase) {
    || p.Encoding? || p.Posting? || p.Opening? || p.Moving? || p.Delivering? || p.Parking?
    || p == Clearing(Posted) || p == Clearing(KeptLocally)
  }

  predicate ToBePosted(p: Phase) { p.Posting? || p == Clearing(Posted) || p == Parking(UploadFailed) }

  predicate ToBeKept(p: Phase) {
    p.Opening? || p.Moving? || p.Delivering? || p == Clearing(KeptLocally) || p == Parking(OutputUnwritable)
  }

  /** What a job at this point of its finaliser has behind it. */
  predicate Fits(c: Config, p: Phase, frames: nat) {
    && (Passed(p) ==> frames >= c.minFrames)
    && (ToBePosted(p) ==> !c.local)
    && (ToBeKept(p) ==> c.local)
    && (p.Posting? ==> 1 <= p.attempt <= 3)
  }

  ghost predicate AllFit(c: Config, s: State) {
    forall h | h in s.finals && h < |s.open| :: Fits(c, s.finals[h].phase, s.open[h].sess.frames)
  }

  lemma FinalFits(c: Config, s: State, h: nat, e: FinalEvent)
    requires AllFit(c, s) && Enabled(c, s, OnFinal(h, e))
    ensures AllFit(c, Apply(c, s, OnFinal(h, e)))
  {
    var t := Apply(c, s, OnFinal(h, e));
    EncodesExactly(c, s, h, e);
    PostsExactly(c, s, h, e);
    KeepsExactly(c, s, h, e);
    EndsExactly(c, s, h, e);
    var q := Next(c, s, h, e);
    assert Fits(c, s.finals[h].phase, s.open[h].sess.frames);
    assert Fits(c, q, s.open[h].sess.frames);
  }

  /** Nobody but a finaliser moves one on, and no frame count falls while the process lives. */
  ghost predicate Beside(s: State, t: State) {
    && |t.open| >= |s.open|
    && (forall h: nat | h < |s.open| :: t.open[h].sess.frames >= s.open[h].sess.frames)
    && (forall h | h in t.finals :: (h in s.finals && t.finals[h] == s.finals[h]) || t.finals[h].phase.Draining?)
  }

  lemma RecordBeside(s: State, wrote: bool)
    requires BasicInvariant.Inv(s) && CallEnabled(s, Record(wrote))
    ensures Beside(s, Call(s, Record(wrote)))
  {
  }

  lemma CallBeside(s: State, k: CallStep)
    requires BasicInvariant.Inv(s) && CallEnabled(s, k)
    ensures Beside(s, Call(s, k))
  {
    if k.Record? {
      RecordBeside(s, k.wrote);
    }
  }

  lemma CaptureBeside(s: State, k: ShotStep)
    requires BasicInvariant.Inv(s) && ShotEnabled(s, k)
    ensures Beside(s, Capture(s, k))
  {
  }

  lemma BesideFits(c: Config, s: State, t: State)
    requires BasicInvariant.Inv(s) && AllFit(c, s) && Beside(s, t)
    ensures AllFit(c, t)
  {
    forall h | h in t.finals && h < |t.open|
      ensures Fits(c, t.finals[h].phase, t.open[h].sess.frames)
    {
      assert h in s.finals ==> Fits(c, s.finals[h].phase, s.open[h].sess.frames);
    }
  }

  lemma FitsStep(c: Config, s: State, l: Label)
    requires BasicInvariant.Inv(s) && AllFit(c, s) && Enabled(c, s, l)
    ensures AllFit(c, Apply(c, s, l))
  {
    match l
    case OnMessage(k) => CallBeside(s, k); BesideFits(c, s, Call(s, k));
    case OnCapture(k) => CaptureBeside(s, k); BesideFits(c, s, Capture(s, k));
    case OnFinal(h, e) => FinalFits(c, s, h, e);
    case DropParked(_, _) =>
    case Crash =>
  }

  lemma {:induction false} RunFits(c: Config, a: Assume, s: State, run: seq<Label>)
    requires BasicInvariant.Inv(s) && AllFit(c, s) && Runs(c, a, s, run)
    ensures AllFit(c, After(c, a, s, run))
    decreases |run|
  {
    if run != [] {
      FitsStep(c, s, run[0]);
      BasicInvariant.Step(c, s, run[0]);
      RunFits(c, a, Apply(c, s, run[0]), run[1..]);
    }
  }

  /** Over every run, whatever the printer reports and however the actors interleave: a job
      that is being encoded, posted or kept, or has been posted, kept or parked, has at least
      the frames a video needs; one is posted only if an API is configured and kept only if
      none is; and no job is posted more than three times. */
  lemma OnlyWorthwhileJobs(c: Config, a: Assume, run: seq<Label>, h: nat)
    requires Runs(c, a, INITIAL, run) && h in After(c, a, INITIAL, run).finals
    ensures var s := After(c, a, INITIAL, run);
      h < |s.open| && Fits(c, s.finals[h].phase, s.open[h].sess.frames)
  {
    Lifecycle.InitialHolds();
    Lifecycle.RunKeepsBasic(c, a, INITIAL, run);
    RunFits(c, a, INITIAL, run);
  }
}
