/** What waiting for the camera is worth: exactly when the session of a finaliser can still
    change, and what the encoder sees once it cannot. */
module Drain {
  import opened Basics
  import opened Sessions
  import opened Protocol
  import BasicInvariant
  import Exclusive
  import FrameTruth
  import Identity
  import Lifecycle
  import Ownership

  // ---------------------------------------------------------------- a frame to come

  /** A capture on h that can still count a frame: its picture has landed, or the directory
      it is to be written to is there. */
  ghost predicate Counting(s: State, h: nat) {
    && OnShot(s.shot, h) && h < |s.open|
    && match s.shot {
         case Delayed(_, _, _, _) => s.open[h].dir in s.disk
         case Grabbing(_, _, _, _, dest, _) => dest in s.disk
         case Landed(_, _, _, _, _) => true
         case _ => false
       }
  }

  /** Some crash-free run changes the session of h. */
  ghost predicate CanChange(c: Config, a: Assume, s: State, h: nat) {
    exists run :: Changes(c, a, s, run, h)
  }

  ghost predicate Changes(c: Config, a: Assume, s: State, run: seq<Label>, h: nat) {
    && h < |s.open| && Runs(c, a, s, run) && Lifecycle.NoCrash(run)
    && h < |After(c, a, s, run).open| && After(c, a, s, run).open[h].sess != s.open[h].sess
  }

  lemma Prepend(c: Config, a: Assume, s: State, l: Label, run: seq<Label>, h: nat)
    requires Enabled(c, s, l) && Allowed(a, s, l) && !l.Crash? && h < |s.open| && h < |Apply(c, s, l).open|
    requires Apply(c, s, l).open[h].sess == s.open[h].sess
    requires Changes(c, a, Apply(c, s, l), run, h)
    ensures Changes(c, a, s, [l] + run, h)
  {
    assert ([l] + run)[1..] == run;
  }

  /** How many steps the late frame takes. */
  function Steps(s: State): nat {
    (if s.cb.Saving? then 1 else 0) + if s.shot.Delayed? then 2 else if s.shot.Grabbing? then 1 else 0
  }

  /** The temporary file a save is about to publish is there. */
  ghost predicate SaveReady(s: State) {
    s.cb.Saving? && StoredAt(s, s.cb.h) ==> CanRename(s.disk, s.open[s.cb.h].dir)
  }

  /** The next step towards the late frame. */
  ghost function Towards(s: State): Label
    requires !s.shot.Resting?
  {
    if s.cb.Saving? then OnMessage(SaveRename(s.cb.h < |s.open| && CanRename(s.disk, s.open[s.cb.h].dir)))
    else if s.shot.Delayed? then OnCapture(Aim)
    else if s.shot.Grabbing? then OnCapture(GrabOk)
    else OnCapture(Commit(StoredAt(s, s.shot.h)))
  }

  lemma TowardsEnabled(c: Config, a: Assume, s: State, h: nat)
    requires BasicInvariant.Inv(s) && Counting(s, h) && (a.saves ==> SaveReady(s))
    ensures Enabled(c, s, Towards(s)) && Allowed(a, s, Towards(s))
  {
  }

  lemma TowardsCounts(c: Config, s: State, h: nat)
    requires BasicInvariant.Inv(s) && Counting(s, h) && Enabled(c, s, Towards(s))
    requires s.cb.Saving? || !s.shot.Landed?
    ensures var t := Apply(c, s, Towards(s));
      && h < |t.open| && t.open[h].sess == s.open[h].sess
      && Counting(t, h) && !t.cb.Saving? && Steps(t) < Steps(s)
  {
  }

  lemma CommitChanges(c: Config, a: Assume, s: State, h: nat)
    requires s.shot.Landed? && Counting(s, h) && !s.cb.Saving?
    requires Enabled(c, s, Towards(s)) && Allowed(a, s, Towards(s))
    ensures Changes(c, a, s, [Towards(s)], h)
  {
    assert [Towards(s)][1..] == [];
    assert Counted(s.open[h].sess, s.shot.layer).frames != s.open[h].sess.frames;
  }

  /** Such a capture can still count its frame, under any hypotheses or none. */
  lemma {:induction false} LateFrame(c: Config, a: Assume, s: State, h: nat) returns (run: seq<Label>)
    requires BasicInvariant.Inv(s) && Counting(s, h) && (a.saves ==> SaveReady(s))
    ensures Changes(c, a, s, run, h)
    decreases Steps(s)
  {
    var l := Towards(s);
    TowardsEnabled(c, a, s, h);
    if !s.cb.Saving? && s.shot.Landed? {
      CommitChanges(c, a, s, h);
      run := [l];
    } else {
      var t := Apply(c, s, l);
      BasicInvariant.Step(c, s, l);
      TowardsCounts(c, s, h);
      var rest := LateFrame(c, a, t, h);
      Prepend(c, a, s, l, rest, h);
      run := [l] + rest;
    }
  }

  // ---------------------------------------------------------------- no frame to come

  /** A grab aimed at a parked directory belongs to a session whose finaliser is done. */
  ghost predicate Aimed(s: State) {
    s.shot.Grabbing? && s.shot.dest.Parked? ==> Ownership.IsGone(s, s.shot.h)
  }

  ghost predicate Inv(s: State) {
    FrameTruth.All(s) && Exclusive.Inv(s) && Aimed(s)
  }

  lemma GoneStays(c: Config, s: State, l: Label, h: nat)
    requires BasicInvariant.Inv(s) && Enabled(c, s, l) && !l.Crash? && Ownership.IsGone(s, h)
    ensures Ownership.IsGone(Apply(c, s, l), h)
    ensures h < |Apply(c, s, l).open| && Apply(c, s, l).open[h].dir == s.open[h].dir
  {
    Lifecycle.FinaliserStartsOnce(c, s, l, h);
  }

  lemma CaptureAims(s: State, k: ShotStep)
    requires BasicInvariant.Inv(s) && Exclusive.Stored(s) && Aimed(s) && ShotEnabled(s, k)
    ensures Aimed(Capture(s, k))
  {
    if k.Aim? {
      assert !Ownership.IsGone(s, s.shot.h) ==> Exclusive.Unfinished(s, s.shot.h);
    }
  }

  lemma CallAims(s: State, k: CallStep)
    requires CallEnabled(s, k)
    ensures Call(s, k).shot.Grabbing? ==> Call(s, k).shot == s.shot
  {
  }

  lemma FinalAims(c: Config, s: State, h: nat, e: FinalEvent)
    requires FinalEnabled(c, s, h, e)
    ensures Finalise(c, s, h, e).shot == s.shot
  {
  }

  lemma OthersAim(c: Config, s: State, l: Label)
    requires Enabled(c, s, l) && !l.OnCapture?
    ensures Apply(c, s, l).shot.Grabbing? ==> Apply(c, s, l).shot == s.shot && !l.Crash?
  {
    match l
    case OnMessage(k) => CallAims(s, k);
    case OnFinal(h, e) => FinalAims(c, s, h, e);
    case DropParked(_, _) =>
    case Crash =>
  }

  lemma AimedStep(c: Config, s: State, l: Label)
    requires Inv(s) && Enabled(c, s, l)
    ensures Aimed(Apply(c, s, l))
  {
    if l.OnCapture? {
      CaptureAims(s, l.shot);
    } else {
      OthersAim(c, s, l);
      if !l.Crash? && s.shot.Grabbing? && s.shot.dest.Parked? {
        GoneStays(c, s, l, s.shot.h);
      }
    }
  }

  lemma Step(c: Config, s: State, l: Label)
    requires Inv(s) && Enabled(c, s, l)
    requires l.OnMessage? && l.call.Report? ==> E1(l.call.v) && E2(s, l.call.v) && E3(s, l.call.v)
    ensures Inv(Apply(c, s, l))
  {
    FrameTruth.Step(c, s, l);
    if l.OnMessage? {
      Exclusive.NoneReopened(s, l);
    }
    Exclusive.StepExact(c, s, l);
    AimedStep(c, s, l);
  }

  lemma {:induction false} RunKeeps(c: Config, a: Assume, s: State, run: seq<Label>)
    requires a.ids && a.jobs && Inv(s) && Runs(c, a, s, run)
    ensures Inv(After(c, a, s, run))
    decreases |run|
  {
    if run != [] {
      Step(c, s, run[0]);
      RunKeeps(c, a, Apply(c, s, run[0]), run[1..]);
    }
  }

  lemma CallMakes(s: State, k: CallStep, p: Place)
    requires CallEnabled(s, k) && p !in s.disk && p in Call(s, k).disk
    ensures p.Staged?
  {
  }

  lemma FinalMakes(s: State, k: nat, g: Finaliser, x: Effect, p: Place)
    requires CanAdvance(s, k, g, x) && p !in s.disk && p in Advance(s, k, g, x).disk
    ensures x.MoveTo? && p.name == s.open[k].dir.name && s.open[k].dir in s.disk
  {
  }

  /** Nor by a park: a session that is being parked is still staged. */
  lemma FinalNeverMakes(c: Config, s: State, k: nat, e: FinalEvent, p: Place)
    requires Ownership.All(s) && FinalEnabled(c, s, k, e) && p !in s.disk && Staged(p.name) !in s.disk
    ensures p !in Finalise(c, s, k, e).disk
  {
    FinaliseAdvances(c, s, k, e);
    assert Ownership.OpenPlaced(s.open[k], Ownership.IsGone(s, k), s.disk);
    var g, x := NextFinaliser(c, s, k, e), EffectOf(s.finals[k], e);
    if p in Advance(s, k, g, x).disk {
      FinalMakes(s, k, g, x, p);
    }
  }

  /** Once the finaliser of h is done, no directory of that name comes to be again. */
  lemma NeverAgain(c: Config, s: State, l: Label, h: nat, p: Place)
    requires Inv(s) && Enabled(c, s, l) && !l.Crash?
    requires l.OnMessage? && l.call.Report? ==> E1(l.call.v) && E2(s, l.call.v) && E3(s, l.call.v)
    requires h < |s.open| && Ownership.IsGone(s, h) && p.name == s.open[h].dir.name && p !in s.disk
    ensures p !in Apply(c, s, l).disk
  {
    assert Ownership.OpenPlaced(s.open[h], true, s.disk);
    match l
    case OnMessage(k) => CallNeverMakes(c, s, k, h, p);
    case OnCapture(k) => CaptureMakes(s, k);
    case OnFinal(k, e) => FinalNeverMakes(c, s, k, e, p);
    case DropParked(_, _) =>
  }

  lemma CaptureMakes(s: State, k: ShotStep)
    requires ShotEnabled(s, k)
    ensures Capture(s, k).disk.Keys == s.disk.Keys
  {
  }

  lemma CallNeverMakes(c: Config, s: State, k: CallStep, h: nat, p: Place)
    requires Ownership.All(s) && CallEnabled(s, k)
    requires k.Report? ==> E1(k.v) && E2(s, k.v) && E3(s, k.v)
    requires h < |s.open| && Ownership.IsGone(s, h) && p.name == s.open[h].dir.name && p !in s.disk
    ensures p !in Call(s, k).disk
  {
    Ownership.Step(c, s, OnMessage(k));
    GoneStays(c, s, OnMessage(k), h);
    assert Ownership.OpenPlaced(Call(s, k).open[h], true, Call(s, k).disk);
    if p in Call(s, k).disk {
      CallMakes(s, k, p);
    }
  }

  /** No capture on h can count a frame, and none ever will. */
  ghost predicate Over(s: State, h: nat) {
    h in s.finals && h < |s.open| && !Counting(s, h)
  }

  lemma GoneWithout(s: State, h: nat)
    requires Inv(s) && Over(s, h) && OnShot(s.shot, h) && (s.shot.Delayed? || s.shot.Grabbing?)
    ensures Ownership.IsGone(s, h)
    ensures s.shot.Grabbing? ==> s.shot.dest.name == s.open[h].dir.name
  {
    assert Exclusive.Unfinished(s, h) ==> Exclusive.Recorded(s.disk, s.open[h].dir);
    assert Identity.ShotInv(s);
  }

  lemma OverStep(c: Config, s: State, l: Label, h: nat)
    requires Inv(s) && Over(s, h) && Enabled(c, s, l) && !l.Crash?
    requires l.OnMessage? && l.call.Report? ==> E1(l.call.v) && E2(s, l.call.v) && E3(s, l.call.v)
    ensures Over(Apply(c, s, l), h) && Apply(c, s, l).open[h].sess == s.open[h].sess
  {
    if !OnShot(s.shot, h) {
      Lifecycle.SettledStep(c, s, l, h);
    } else {
      BasicInvariant.Step(c, s, l);
      Lifecycle.FinaliserStartsOnce(c, s, l, h);
      if s.shot.Delayed? || s.shot.Grabbing? {
        GoneWithout(s, h);
        GoneStays(c, s, l, h);
        NeverAgain(c, s, l, h, if s.shot.Delayed? then s.open[h].dir else s.shot.dest);
      }
      OnShotStep(c, s, l, h);
    }
  }

  lemma CaptureOver(s: State, k: ShotStep, h: nat)
    requires Over(s, h) && OnShot(s.shot, h) && ShotEnabled(s, k)
    requires s.shot.Delayed? ==> s.open[h].dir !in Capture(s, k).disk
    requires s.shot.Grabbing? ==> s.shot.dest !in Capture(s, k).disk
    ensures Over(Capture(s, k), h) && Capture(s, k).open[h].sess == s.open[h].sess
  {
  }

  /** The steps of the others, while a capture on h has no frame to come. */
  lemma OthersOver(s: State, t: State, h: nat)
    requires Over(s, h) && OnShot(s.shot, h) && t.shot == s.shot && h in t.finals && h < |t.open|
    requires t.open[h].sess == s.open[h].sess
    requires s.shot.Delayed? ==> t.open[h].dir !in t.disk
    requires s.shot.Grabbing? ==> s.shot.dest !in t.disk
    ensures Over(t, h)
  {
  }

  lemma CallKeepsShot(s: State, k: CallStep)
    requires CallEnabled(s, k) && !s.shot.Resting?
    ensures Call(s, k).shot == s.shot
  {
  }

  lemma FinalKeepsShot(c: Config, s: State, k: nat, e: FinalEvent, h: nat)
    requires FinalEnabled(c, s, k, e) && h < |s.open|
    ensures var t := Finalise(c, s, k, e); t.shot == s.shot && h < |t.open| && t.open[h].sess == s.open[h].sess
  {
  }

  lemma OnShotStep(c: Config, s: State, l: Label, h: nat)
    requires BasicInvariant.Inv(s) && Over(s, h) && OnShot(s.shot, h) && Enabled(c, s, l) && !l.Crash?
    requires var t := Apply(c, s, l); h in t.finals && h < |t.open|
    requires var t := Apply(c, s, l);
      && (s.shot.Delayed? ==> t.open[h].dir == s.open[h].dir && s.open[h].dir !in t.disk)
      && (s.shot.Grabbing? ==> s.shot.dest !in t.disk)
    ensures Over(Apply(c, s, l), h) && Apply(c, s, l).open[h].sess == s.open[h].sess
  {
    var t := Apply(c, s, l);
    match l
    case OnMessage(k) =>
      CallKeepsShot(s, k);
      Lifecycle.CallSparesFinals(s, k, h);
      OthersOver(s, t, h);
    case OnCapture(k) => CaptureOver(s, k, h);
    case OnFinal(k, e) =>
      FinalKeepsShot(c, s, k, e, h);
      OthersOver(s, t, h);
    case DropParked(_, _) => OthersOver(s, t, h);
  }

  lemma {:induction false} OverForever(c: Config, a: Assume, s: State, run: seq<Label>, h: nat)
    requires a.ids && a.jobs && Inv(s) && Over(s, h) && Runs(c, a, s, run) && Lifecycle.NoCrash(run)
    ensures h < |After(c, a, s, run).open| && After(c, a, s, run).open[h].sess == s.open[h].sess
    decreases |run|
  {
    if run != [] {
      Step(c, s, run[0]);
      OverStep(c, s, run[0], h);
      OverForever(c, a, Apply(c, s, run[0]), run[1..], h);
    }
  }

  /** In every reachable state under E1 to E3, the session of a finaliser can still change,
      before the next crash, exactly when a capture on it can still count a frame. */
  lemma DrainExactly(c: Config, a: Assume, before: seq<Label>, h: nat)
    requires a.ids && a.jobs && Runs(c, a, INITIAL, before) && h in After(c, a, INITIAL, before).finals
    ensures CanChange(c, a, After(c, a, INITIAL, before), h) <==> Counting(After(c, a, INITIAL, before), h)
  {
    Lifecycle.InitialHolds();
    RunKeeps(c, a, INITIAL, before);
    var s := After(c, a, INITIAL, before);
    if Counting(s, h) {
      var run := LateFrame(c, a, s, h);
    } else if CanChange(c, a, s, h) {
      var run :| Changes(c, a, s, run, h);
      OverForever(c, a, s, run, h);
    }
  }

  // ---------------------------------------------------------------- without hypotheses

  /** A capture on h that has not counted its frame yet. */
  ghost predicate Pending(s: State, h: nat) {
    OnShot(s.shot, h) && (s.shot.Delayed? || s.shot.Grabbing? || s.shot.Landed?)
  }

  lemma SpentStep(c: Config, s: State, l: Label, h: nat)
    requires BasicInvariant.Inv(s) && Enabled(c, s, l) && !l.Crash? && h in s.finals && !Pending(s, h)
    ensures var t := Apply(c, s, l);
      h in t.finals && h < |t.open| && h < |s.open| && !Pending(t, h) && t.open[h].sess == s.open[h].sess
  {
    if !OnShot(s.shot, h) {
      Lifecycle.SettledStep(c, s, l, h);
    } else {
      Lifecycle.FinaliserStartsOnce(c, s, l, h);
      match l
      case OnMessage(k) =>
        CallKeepsShot(s, k);
        Lifecycle.CallSparesFinals(s, k, h);
      case OnCapture(k) => SpentCapture(s, k, h);
      case OnFinal(k, e) => FinalKeepsShot(c, s, k, e, h);
      case DropParked(_, _) =>
    }
  }

  lemma SpentCapture(s: State, k: ShotStep, h: nat)
    requires ShotEnabled(s, k) && OnShot(s.shot, h) && !Pending(s, h) && h < |s.open|
    ensures var t := Capture(s, k);
      t.finals == s.finals && |t.open| == |s.open| && !Pending(t, h) && t.open[h].sess == s.open[h].sess
  {
  }

  lemma {:induction false} SpentForever(c: Config, a: Assume, s: State, run: seq<Label>, h: nat)
    requires BasicInvariant.Inv(s) && Runs(c, a, s, run) && Lifecycle.NoCrash(run) && h in s.finals && !Pending(s, h)
    ensures !Changes(c, a, s, run, h)
    decreases |run|
  {
    if run != [] {
      BasicInvariant.Step(c, s, run[0]);
      SpentStep(c, s, run[0], h);
      SpentForever(c, a, Apply(c, s, run[0]), run[1..], h);
    }
  }

  /** Whatever the printer reports and whatever saves fail: only the session of a capture that
      has not counted its frame can still change, and it can if its picture has landed or the
      directory for it is there. What lies between is a directory that is gone and that a
      report against the hypotheses may bring back. */
  lemma DrainBounds(c: Config, a: Assume, before: seq<Label>, h: nat)
    requires !a.saves && Runs(c, a, INITIAL, before) && h in After(c, a, INITIAL, before).finals
    ensures var s := After(c, a, INITIAL, before);
      (Counting(s, h) ==> CanChange(c, a, s, h)) && (CanChange(c, a, s, h) ==> Pending(s, h))
  {
    Lifecycle.InitialHolds();
    Lifecycle.RunKeepsBasic(c, a, INITIAL, before);
    var s := After(c, a, INITIAL, before);
    if Counting(s, h) {
      var run := LateFrame(c, a, s, h);
    }
    if CanChange(c, a, s, h) && !Pending(s, h) {
      var run :| Changes(c, a, s, run, h);
      SpentForever(c, a, s, run, h);
    }
  }

  // ---------------------------------------------------------------- while it is encoded

  /** Between the drain and the end of the encode. */
  predicate Rendering(p: Phase) { p.Covering? || p.Judging? || p.Encoding? }

  /** h is being rendered, no capture is on it, and its directory is there. */
  ghost predicate Rendered(s: State, h: nat) {
    && h in s.finals && h < |s.open| && Rendering(s.finals[h].phase) && !OnShot(s.shot, h)
    && s.open[h].dir.Staged? && s.open[h].dir in s.disk
  }

  /** The session and its directory are what they were. */
  ghost predicate Same(s: State, t: State, h: nat) {
    && h < |s.open| && h < |t.open| && t.open[h] == s.open[h]
    && s.open[h].dir in s.disk && s.open[h].dir in t.disk
    && t.disk[s.open[h].dir] == s.disk[s.open[h].dir]
  }

  /** The callback writes only where its own session is, or where it makes one. */
  lemma CallWrites(s: State, k: CallStep, p: Place)
    requires BasicInvariant.Inv(s) && CallEnabled(s, k) && p in s.disk
    requires k.Begin? ==> s.view.taskID == "" || p != Staged(DirName(s.view.taskID))
    requires k.CreateRename? ==> p != Staged(DirName(s.cb.made.taskID))
    requires k.Record? || k.SaveRename? ==> p != s.open[s.cb.h].dir
    ensures p in Call(s, k).disk && Call(s, k).disk[p] == s.disk[p]
  {
  }

  lemma CallOpens(s: State, k: CallStep, h: nat)
    requires BasicInvariant.Inv(s) && CallEnabled(s, k) && h in s.finals
    ensures h < |Call(s, k).open| && Call(s, k).open[h] == s.open[h]
  {
  }

  lemma CallSame(s: State, k: CallStep, h: nat)
    requires Exclusive.Inv(s) && CallEnabled(s, k) && Rendered(s, h) && !Exclusive.Reopens(s, OnMessage(k))
    ensures Same(s, Call(s, k), h)
  {
    assert Exclusive.Unfinished(s, h);
    if k.Record? || k.SaveRename? {
      assert Exclusive.Unfinished(s, s.cb.h);
    }
    CallWrites(s, k, s.open[h].dir);
    CallOpens(s, k, h);
  }

  lemma CaptureSame(s: State, k: ShotStep, h: nat)
    requires FrameTruth.All(s) && ShotEnabled(s, k) && Rendered(s, h)
    ensures Same(s, Capture(s, k), h)
  {
    FrameTruth.AllApart(s);
    Lifecycle.CaptureSparesOthers(s, k, h);
    CaptureWrites(s, k, s.open[h].dir);
  }

  lemma CaptureWrites(s: State, k: ShotStep, p: Place)
    requires FrameTruth.ShotInv(s) && ShotEnabled(s, k) && p in s.disk
    requires !s.shot.Resting? && s.shot.h < |s.open| ==> p != s.open[s.shot.h].dir
    requires !s.shot.Resting? ==> s.shot.h < |s.open|
    ensures p in Capture(s, k).disk && Capture(s, k).disk[p] == s.disk[p]
  {
  }

  lemma AdvanceSame(s: State, k: nat, g: Finaliser, x: Effect, h: nat)
    requires CanAdvance(s, k, g, x) && Rendered(s, h)
    requires k == h ==> x.Stay?
    requires k != h ==> s.open[k].dir != s.open[h].dir
    ensures Same(s, Advance(s, k, g, x), h)
  {
  }

  lemma FinalSame(c: Config, s: State, k: nat, e: FinalEvent, h: nat)
    requires Exclusive.Inv(s) && FinalEnabled(c, s, k, e) && Rendered(s, h)
    ensures Same(s, Finalise(c, s, k, e), h)
  {
    FinaliseAdvances(c, s, k, e);
    assert Exclusive.Unfinished(s, h) && Exclusive.Unfinished(s, k);
    AdvanceSame(s, k, NextFinaliser(c, s, k, e), EffectOf(s.finals[k], e), h);
  }

  /** No step changes what is being encoded, not even the one that ends the encode. */
  lemma RenderedStep(c: Config, s: State, l: Label, h: nat)
    requires Inv(s) && Rendered(s, h) && Enabled(c, s, l) && !l.Crash?
    ensures Same(s, Apply(c, s, l), h)
  {
    match l
    case OnMessage(k) =>
      Exclusive.NoneReopened(s, l);
      CallSame(s, k, h);
    case OnCapture(k) => CaptureSame(s, k, h);
    case OnFinal(k, e) => FinalSame(c, s, k, e, h);
    case DropParked(_, _) =>
  }

  /** A finaliser past the encode does not come back to it. */
  ghost predicate PastEncode(s: State, h: nat) {
    h in s.finals && !s.finals[h].phase.Draining? && !Rendering(s.finals[h].phase)
  }

  lemma PhaseAdvances(c: Config, s: State, h: nat, e: FinalEvent)
    requires FinalEnabled(c, s, h, e)
    ensures !s.finals[h].phase.Draining? && !Rendering(s.finals[h].phase) ==> !Rendering(NextPhase(c, s, h, e))
  {
  }

  lemma PastStays(c: Config, s: State, l: Label, h: nat)
    requires BasicInvariant.Inv(s) && Enabled(c, s, l) && !l.Crash? && PastEncode(s, h)
    ensures PastEncode(Apply(c, s, l), h)
  {
    Lifecycle.FinaliserStartsOnce(c, s, l, h);
    if l.OnFinal? && l.h == h {
      PhaseAdvances(c, s, h, l.event);
      Lifecycle.FinalMovesOn(c, s, h, l.event);
    }
  }

  lemma {:induction false} PastForever(c: Config, a: Assume, s: State, run: seq<Label>, h: nat)
    requires BasicInvariant.Inv(s) && Runs(c, a, s, run) && Lifecycle.NoCrash(run) && PastEncode(s, h)
    ensures PastEncode(After(c, a, s, run), h)
    decreases |run|
  {
    if run != [] {
      BasicInvariant.Step(c, s, run[0]);
      PastStays(c, s, run[0], h);
      PastForever(c, a, Apply(c, s, run[0]), run[1..], h);
    }
  }

  /** Along any crash-free run that ends while h is still being encoded, its session and its
      directory do not change. */
  lemma {:induction false} RenderedRun(c: Config, a: Assume, s: State, run: seq<Label>, h: nat)
    requires a.ids && a.jobs && Inv(s) && Rendered(s, h) && Runs(c, a, s, run) && Lifecycle.NoCrash(run)
    requires h in After(c, a, s, run).finals && After(c, a, s, run).finals[h].phase.Encoding?
    ensures Same(s, After(c, a, s, run), h) && Rendered(After(c, a, s, run), h)
    decreases |run|
  {
    if run != [] {
      var t := Apply(c, s, run[0]);
      Step(c, s, run[0]);
      RenderedStep(c, s, run[0], h);
      Lifecycle.SettledStep(c, s, run[0], h);
      Lifecycle.FinaliserStartsOnce(c, s, run[0], h);
      if Rendering(t.finals[h].phase) {
        RenderedRun(c, a, t, run[1..], h);
      } else {
        PastForever(c, a, t, run[1..], h);
      }
    }
  }

  /** What a drained finaliser finds, it finds until the encode is over: from any reachable
      state under E1 to E3 in which it is rendering and no capture is on its session. */
  lemma EncodeSeesOneFolder(c: Config, a: Assume, before: seq<Label>, run: seq<Label>, h: nat)
    requires a.ids && a.jobs && Runs(c, a, INITIAL, before)
    requires var s := After(c, a, INITIAL, before);
      && h in s.finals && Rendering(s.finals[h].phase) && !OnShot(s.shot, h)
      && Runs(c, a, s, run) && Lifecycle.NoCrash(run)
      && h in After(c, a, s, run).finals && After(c, a, s, run).finals[h].phase.Encoding?
    ensures var s := After(c, a, INITIAL, before); Same(s, After(c, a, s, run), h)
  {
    Lifecycle.InitialHolds();
    RunKeeps(c, a, INITIAL, before);
    var s := After(c, a, INITIAL, before);
    assert Exclusive.Unfinished(s, h) && Exclusive.Recorded(s.disk, s.open[h].dir);
    RenderedRun(c, a, s, run, h);
  }
}
