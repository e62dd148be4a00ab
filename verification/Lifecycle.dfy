/** What every run guarantees: the theorems about the job lifecycle. */
module Lifecycle {
  import opened Basics
  import opened Sessions
  import opened Protocol
  import BasicInvariant
  import Identity
  import Ownership
  import FrameTruth
  import Layers
  import EncoderPrefix

  // ---------------------------------------------------------------- invariants over runs

  lemma {:induction false} RunKeepsBasic(c: Config, a: Assume, s: State, run: seq<Label>)
    requires BasicInvariant.Inv(s) && Runs(c, a, s, run)
    ensures BasicInvariant.Inv(After(c, a, s, run))
    decreases |run|
  {
    if run != [] {
      BasicInvariant.Step(c, s, run[0]);
      RunKeepsBasic(c, a, Apply(c, s, run[0]), run[1..]);
    }
  }

  lemma {:induction false} RunKeepsIdentity(c: Config, a: Assume, s: State, run: seq<Label>)
    requires a.ids && Identity.Both(s) && Runs(c, a, s, run)
    ensures Identity.Both(After(c, a, s, run))
    decreases |run|
  {
    if run != [] {
      Identity.Step(c, s, run[0]);
      RunKeepsIdentity(c, a, Apply(c, s, run[0]), run[1..]);
    }
  }

  lemma {:induction false} RunKeepsOwnership(c: Config, a: Assume, s: State, run: seq<Label>)
    requires a.ids && a.jobs && Ownership.All(s) && Runs(c, a, s, run)
    ensures Ownership.All(After(c, a, s, run))
    decreases |run|
  {
    if run != [] {
      Ownership.Step(c, s, run[0]);
      RunKeepsOwnership(c, a, Apply(c, s, run[0]), run[1..]);
    }
  }

  lemma {:induction false} RunKeepsTruth(c: Config, a: Assume, s: State, run: seq<Label>)
    requires a.ids && a.jobs && FrameTruth.All(s) && Runs(c, a, s, run)
    ensures FrameTruth.All(After(c, a, s, run))
    decreases |run|
  {
    if run != [] {
      FrameTruth.Step(c, s, run[0]);
      RunKeepsTruth(c, a, Apply(c, s, run[0]), run[1..]);
    }
  }

  lemma {:induction false} RunKeepsLayers(c: Config, a: Assume, s: State, run: seq<Label>)
    requires a.ids && a.jobs && a.layers && Layers.All(s) && Runs(c, a, s, run)
    ensures Layers.All(After(c, a, s, run))
    decreases |run|
  {
    if run != [] {
      Layers.Step(c, s, run[0]);
      RunKeepsLayers(c, a, Apply(c, s, run[0]), run[1..]);
    }
  }

  lemma {:induction false} RunKeepsPrefix(c: Config, a: Assume, s: State, run: seq<Label>)
    requires a.ids && a.jobs && a.saves && EncoderPrefix.All(s) && Runs(c, a, s, run)
    ensures EncoderPrefix.All(After(c, a, s, run))
    decreases |run|
  {
    if run != [] {
      EncoderPrefix.Step(c, s, run[0]);
      RunKeepsPrefix(c, a, Apply(c, s, run[0]), run[1..]);
    }
  }

  lemma InitialHolds()
    ensures FrameTruth.All(INITIAL) && Layers.Inv(INITIAL) && EncoderPrefix.Inv(INITIAL)
  {
  }

  // ---------------------------------------------------------------- exclusive ownership

  ghost predicate Current(s: State, h: nat) { s.current == Some(h) }

  ghost predicate Queued(s: State, h: nat) { s.cb.Settling? && h in s.cb.queue }

  /** No directory is held by two of `current`, the startup queue and the finalisers, and
      every session a process opened has exactly one holder. A finaliser that is done still
      counts, so a job is handed to a finaliser at most once per process. */
  lemma ExclusiveOwnership(c: Config, a: Assume, run: seq<Label>)
    requires a.ids && a.jobs && Runs(c, a, INITIAL, run)
    ensures var s := After(c, a, INITIAL, run);
      && (forall h: nat, k: nat | h < |s.open| && k < |s.open| && h != k ::
            s.open[h].dir.name != s.open[k].dir.name && s.open[h].sess.taskID != s.open[k].sess.taskID)
      && (forall h: nat | h < |s.open| ::
            && (Current(s, h) || h in s.finals || Queued(s, h))
            && !(Current(s, h) && h in s.finals)
            && !(Current(s, h) && Queued(s, h))
            && !(h in s.finals && Queued(s, h)))
  {
    InitialHolds();
    RunKeepsOwnership(c, a, INITIAL, run);
    var s := After(c, a, INITIAL, run);
    FrameTruth.AllApart(s);
  }

  lemma CallKeepsFinals(s: State, k: CallStep, h: nat)
    requires BasicInvariant.Inv(s) && CallEnabled(s, k) && h in s.finals
    ensures h in Call(s, k).finals && Call(s, k).finals[h] == s.finals[h]
  {
    if k.Settle? && s.cb.queue != [] {
      assert s.cb.queue[0] !in s.finals;
    }
  }

  lemma CaptureKeepsFinals(s: State, k: ShotStep)
    requires ShotEnabled(s, k)
    ensures Capture(s, k).finals == s.finals
  {
  }

  lemma FinalMovesOn(c: Config, s: State, h: nat, e: FinalEvent)
    requires FinalEnabled(c, s, h, e)
    ensures Finalise(c, s, h, e).finals == s.finals[h := NextFinaliser(c, s, h, e)]
    ensures !NextPhase(c, s, h, e).Draining?
  {
  }

  /** A finaliser is never started a second time for the session it has: only its own step
      changes it, and never back to the beginning. */
  lemma FinaliserStartsOnce(c: Config, s: State, l: Label, h: nat)
    requires BasicInvariant.Inv(s) && Enabled(c, s, l) && !l.Crash? && h in s.finals
    ensures var t := Apply(c, s, l);
      h in t.finals && (t.finals[h] == s.finals[h] || (l.OnFinal? && l.h == h && !t.finals[h].phase.Draining?))
  {
    match l
    case OnMessage(k) => CallKeepsFinals(s, k, h);
    case OnCapture(k) => CaptureKeepsFinals(s, k);
    case OnFinal(k, e) => FinalMovesOn(c, s, k, e);
    case DropParked(_, _) =>
  }

  // ---------------------------------------------------------------- draining

  ghost predicate NoCrash(run: seq<Label>) { Crash !in run }

  /** A session with a finaliser and no capture on it is settled: nothing the process does
      afterwards changes it, although other jobs' captures go on. */
  ghost predicate Settled(s: State, h: nat, x: Session) {
    h < |s.open| && h in s.finals && !OnShot(s.shot, h) && s.open[h].sess == x
  }

  lemma CallSparesFinals(s: State, k: CallStep, h: nat)
    requires BasicInvariant.Inv(s) && CallEnabled(s, k) && h in s.finals
    ensures h < |Call(s, k).open| && Call(s, k).open[h].sess == s.open[h].sess
  {
  }

  lemma CaptureSparesOthers(s: State, k: ShotStep, h: nat)
    requires ShotEnabled(s, k) && h < |s.open| && !OnShot(s.shot, h)
    ensures h < |Capture(s, k).open| && Capture(s, k).open[h] == s.open[h]
  {
  }

  lemma SettledStep(c: Config, s: State, l: Label, h: nat)
    requires BasicInvariant.Inv(s) && Enabled(c, s, l) && !l.Crash?
    requires h in s.finals && !OnShot(s.shot, h)
    ensures Settled(Apply(c, s, l), h, s.open[h].sess)
  {
    BasicInvariant.Step(c, s, l);
    FinaliserStartsOnce(c, s, l, h);
    match l
    case OnMessage(k) => CallSparesFinals(s, k, h);
    case OnCapture(k) => CaptureSparesOthers(s, k, h);
    case OnFinal(_, _) =>
    case DropParked(_, _) =>
  }

  lemma {:induction false} SettledForever(c: Config, a: Assume, s: State, run: seq<Label>, h: nat)
    requires BasicInvariant.Inv(s) && Runs(c, a, s, run) && NoCrash(run)
    requires h in s.finals && !OnShot(s.shot, h)
    ensures Settled(After(c, a, s, run), h, s.open[h].sess)
    decreases |run|
  {
    if run != [] {
      BasicInvariant.Step(c, s, run[0]);
      SettledStep(c, s, run[0], h);
      SettledForever(c, a, Apply(c, s, run[0]), run[1..], h);
    }
  }

  /** Under no hypothesis about the printer or the disk: whatever its wait came to, a
      finaliser with no capture on its session has it settled. */
  lemma OffCameraSound(c: Config, a: Assume, run: seq<Label>, rest: seq<Label>, h: nat)
    requires Runs(c, a, INITIAL, run)
    requires var s := After(c, a, INITIAL, run); h in s.finals && !OnShot(s.shot, h) && Runs(c, a, s, rest)
    requires NoCrash(rest)
    ensures var s := After(c, a, INITIAL, run);
      h < |s.open| && Settled(After(c, a, s, rest), h, s.open[h].sess)
  {
    InitialHolds();
    RunKeepsBasic(c, a, INITIAL, run);
    SettledForever(c, a, After(c, a, INITIAL, run), rest, h);
  }

  /** And a wait that ended because no capture was in flight leaves none on its session. */
  lemma DrainSound(c: Config, a: Assume, run: seq<Label>, rest: seq<Label>, h: nat)
    requires Runs(c, a, INITIAL, run)
    requires var s := After(c, a, INITIAL, run); h in s.finals && s.finals[h].drained && Runs(c, a, s, rest)
    requires NoCrash(rest)
    ensures var s := After(c, a, INITIAL, run);
      h < |s.open| && Settled(After(c, a, s, rest), h, s.open[h].sess)
  {
    InitialHolds();
    RunKeepsBasic(c, a, INITIAL, run);
    OffCameraSound(c, a, run, rest, h);
  }

  /** Under E1 to E3 a capture does not touch the directory of a drained session either,
      wherever that directory is by now. */
  lemma CaptureSparesDrained(s: State, k: ShotStep, h: nat)
    requires FrameTruth.All(s) && ShotEnabled(s, k) && h in s.finals && s.finals[h].drained
    ensures var p := s.open[h].dir; var t := Capture(s, k);
      (p in t.disk <==> p in s.disk) && (p in s.disk ==> t.disk[p] == s.disk[p])
  {
    FrameTruth.AllApart(s);
  }

  // ---------------------------------------------------------------- frames and layers

  /** In every reachable state, so at every crash point, whatever saves and grabs failed:
      until local delivery begins, a state file's layers are those of the pictures. */
  lemma FramesTellTheTruth(c: Config, a: Assume, run: seq<Label>, p: Place)
    requires a.ids && a.jobs && Runs(c, a, INITIAL, run)
    requires p in After(c, a, INITIAL, run).disk
    ensures var f := After(c, a, INITIAL, run).disk[p];
      f.state.Some? && !f.handedOver ==> Truth(f.state.value, f.stills)
  {
    InitialHolds();
    RunKeepsTruth(c, a, INITIAL, run);
    assert FrameTruth.SavedTruth(After(c, a, INITIAL, run).disk[p]);
  }

  /** The same of the sessions in memory, which the finalisers encode. */
  lemma SessionsTellTheTruth(c: Config, a: Assume, run: seq<Label>, h: nat)
    requires a.ids && a.jobs && Runs(c, a, INITIAL, run)
    requires h < |After(c, a, INITIAL, run).open|
    ensures var s := After(c, a, INITIAL, run); var o := s.open[h];
      o.dir in s.disk && !s.disk[o.dir].handedOver ==> Truth(o.sess, s.disk[o.dir].stills)
  {
    InitialHolds();
    RunKeepsTruth(c, a, INITIAL, run);
    assert FrameTruth.OpenTruth(After(c, a, INITIAL, run).open[h], After(c, a, INITIAL, run).disk);
  }

  /** Captures climb strictly: of every session in memory and on disk, and of the capture
      in flight against everything its session has committed. */
  lemma CapturesClimb(c: Config, a: Assume, run: seq<Label>)
    requires a.ids && a.jobs && a.layers && Runs(c, a, INITIAL, run)
    ensures var s := After(c, a, INITIAL, run);
      && (forall h: nat | h < |s.open| :: Climbing(s.open[h].sess))
      && (forall p | p in s.disk && s.disk[p].state.Some? :: Climbing(s.disk[p].state.value))
      && (s.shot.Delayed? || s.shot.Grabbing? || s.shot.Landed? ==>
            s.shot.h < |s.open| && Layers.Ahead(s.open[s.shot.h].sess, s.shot.layer))
  {
    InitialHolds();
    RunKeepsLayers(c, a, INITIAL, run);
    var s := After(c, a, INITIAL, run);
    forall h: nat | h < |s.open|
      ensures Climbing(s.open[h].sess)
    {
      assert Layers.Sound(s.printer, s.open[h].sess);
    }
    forall p | p in s.disk && s.disk[p].state.Some?
      ensures Climbing(s.disk[p].state.value)
    {
      assert Layers.FolderSound(s.printer, s.disk[p]);
    }
  }

  /** The labels of a picture are what they say: the open session, and the merged view. */
  lemma ShotLabelled(s: State)
    requires BasicInvariant.Inv(s) && s.cb.Shooting? && s.shot.Resting?
    ensures s.current.Some? && s.current.value < |s.open|
    ensures var t := StartShot(s, true);
      t.shot == Delayed(s.current.value, s.cb.layer, s.open[s.current.value].sess.taskID, s.view.taskID)
  {
  }

  /** With E1 alone, a picture is in the directory of the job that was open when its report
      was handled, and that report named this job or none. */
  lemma RightDirectory(c: Config, a: Assume, run: seq<Label>, p: Place, n: nat)
    requires a.ids && Runs(c, a, INITIAL, run)
    requires var s := After(c, a, INITIAL, run); p in s.disk && n in s.disk[p].stills && s.disk[p].stills[n].Photo?
    ensures var x := After(c, a, INITIAL, run).disk[p].stills[n];
      DirName(x.owner) == p.name && (x.job == "" || x.job == x.owner)
  {
    InitialHolds();
    RunKeepsIdentity(c, a, INITIAL, run);
    assert Identity.OneJob(After(c, a, INITIAL, run).disk[p], p.name);
  }

  /** When saves succeed, the encoder's scan to the first missing file reads every committed
      frame and at most one more, at every crash point before delivery. */
  lemma EncoderReadsCommitted(c: Config, a: Assume, run: seq<Label>, p: Place)
    requires a.ids && a.jobs && a.saves && Runs(c, a, INITIAL, run)
    requires p in After(c, a, INITIAL, run).disk
    ensures var f := After(c, a, INITIAL, run).disk[p];
      f.state.Some? && !f.handedOver ==>
        f.state.value.frames <= EncoderPrefix.Scan(f.stills, 1) <= f.state.value.frames + 1
  {
    InitialHolds();
    RunKeepsPrefix(c, a, INITIAL, run);
    var f := After(c, a, INITIAL, run).disk[p];
    assert EncoderPrefix.AtMostOneMore(f);
    if f.state.Some? && !f.handedOver {
      if EncoderPrefix.FilesTo(f.stills, f.state.value.frames) {
        EncoderPrefix.ScanReads(f.stills, 1, f.state.value.frames);
      } else {
        EncoderPrefix.ScanReads(f.stills, 1, f.state.value.frames + 1);
      }
    }
  }
}
