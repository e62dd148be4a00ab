/** No footage lost: under E1 to E3 a recorded job is always in exactly one place, its
    committed pictures never change, and it disappears only for a listed reason. */
module Conservation {
  import opened Basics
  import opened Sessions
  import opened Protocol
  import BasicInvariant
  import Identity
  import Ownership
  import FrameTruth
  import Lifecycle

  // ---------------------------------------------------------------- one home

  /** A directory name is in use at most once, staged or parked. */
  ghost predicate OneHome(disk: Disk) {
    forall p, q | p in disk && q in disk && p.name == q.name :: p == q
  }

  /** Making a directory for the live job finds no other place with its name. */
  lemma HomesAfterMake(e: Printer, disk: Disk, id: string, f: Folder)
    requires Ownership.Folders(e, disk) && Identity.DiskNamed(disk) && OneHome(disk)
    requires e.live == Some(id) && id !in e.over && Kept(id)
    ensures OneHome(disk[Staged(DirName(id)) := f])
  {
    forall p | p in disk && p.name == DirName(id)
      ensures p == Staged(DirName(id))
    {
      assert Identity.OneJob(disk[p], p.name);
      Ownership.LiveNotParked(e, disk, p, id);
    }
  }

  lemma CallAddsNoPlace(s: State, k: CallStep)
    requires CallEnabled(s, k) && !k.Begin?
    ensures Call(s, k).disk.Keys == s.disk.Keys
  {
  }

  lemma HomesAfterCall(s: State, k: CallStep)
    requires Ownership.All(s) && OneHome(s.disk) && CallEnabled(s, k)
    ensures OneHome(Call(s, k).disk)
  {
    if k.Begin? {
      var t := BeginJob(s, k.mkdir, k.wrote, k.now);
      var dir := Staged(DirName(s.view.taskID));
      if s.view.taskID != "" && dir in t.disk {
        assert t.disk == s.disk[dir := t.disk[dir]] || t.disk == s.disk;
        HomesAfterMake(s.printer, s.disk, s.view.taskID, t.disk[dir]);
      }
    } else {
      CallAddsNoPlace(s, k);
    }
  }

  lemma HomesAfterAdvance(s: State, h: nat, g: Finaliser, x: Effect)
    requires OneHome(s.disk) && CanAdvance(s, h, g, x)
    ensures OneHome(Advance(s, h, g, x).disk)
  {
  }

  lemma HomesAfterCapture(s: State, k: ShotStep)
    requires ShotEnabled(s, k) && OneHome(s.disk)
    ensures OneHome(Capture(s, k).disk)
  {
  }

  lemma HomesStep(c: Config, s: State, l: Label)
    requires Ownership.All(s) && OneHome(s.disk) && Enabled(c, s, l)
    ensures OneHome(Apply(c, s, l).disk)
  {
    match l
    case OnMessage(k) => HomesAfterCall(s, k);
    case OnCapture(k) => HomesAfterCapture(s, k);
    case OnFinal(h, e) =>
      FinaliseAdvances(c, s, h, e);
      HomesAfterAdvance(s, h, NextFinaliser(c, s, h, e), EffectOf(s.finals[h], e));
    case DropParked(_, _) =>
    case Crash =>
  }

  lemma {:induction false} RunKeepsHomes(c: Config, a: Assume, s: State, run: seq<Label>)
    requires a.ids && a.jobs && Ownership.All(s) && OneHome(s.disk) && Runs(c, a, s, run)
    ensures OneHome(After(c, a, s, run).disk)
    decreases |run|
  {
    if run != [] {
      Ownership.Step(c, s, run[0]);
      HomesStep(c, s, run[0]);
      RunKeepsHomes(c, a, Apply(c, s, run[0]), run[1..]);
    }
  }

  /** Parking never finds its destination taken, so a rename that fails is an I/O error. */
  lemma ParkDestinationFree(c: Config, a: Assume, run: seq<Label>, h: nat, r: Reason)
    requires a.ids && a.jobs && Runs(c, a, INITIAL, run)
    requires var s := After(c, a, INITIAL, run);
      h in s.finals && s.finals[h].phase == Parking(r) && h < |s.open| && s.open[h].dir in s.disk
    ensures FinalEnabled(c, After(c, a, INITIAL, run), h, ParkRenamed(true))
  {
    Lifecycle.InitialHolds();
    Lifecycle.RunKeepsOwnership(c, a, INITIAL, run);
    RunKeepsHomes(c, a, INITIAL, run);
    var s := After(c, a, INITIAL, run);
    assert Ownership.OpenPlaced(s.open[h], Ownership.IsGone(s, h), s.disk);
  }

  // ---------------------------------------------------------------- where footage goes

  /** The job directory called name is recorded, staged or parked. */
  ghost predicate Recorded(disk: Disk, p: Place) {
    p in disk && disk[p].state.Some?
  }

  ghost predicate HasFootage(disk: Disk, name: string) {
    exists p :: Recorded(disk, p) && p.name == name
  }

  /** The actions that may remove the job directory called name. */
  ghost predicate Removes(c: Config, s: State, l: Label, name: string) {
    match l
    case OnFinal(h, e) =>
      && FinalEnabled(c, s, h, e) && s.open[h].dir == Staged(name)
      && match s.finals[h].phase {
           case Clearing(_) => true
           case Parking(_) => e.ParkRenamed? && !e.ok
           case _ => false
         }
    case DropParked(p, _) => p.Parked? && p.name == name
    case _ => false
  }

  /** The directory whose state file this step of the callback publishes. */
  function Publishes(s: State, k: CallStep): Option<Place>
    requires CallEnabled(s, k)
  {
    match k
    case CreateRename(ok) => if ok then Some(Staged(DirName(s.cb.made.taskID))) else None
    case SaveRename(ok) => if ok then Some(s.open[s.cb.h].dir) else None
    case _ => None
  }

  /** What the callback does to a folder: it publishes the temporary file, or at most
      rewrites it. */
  lemma CallFolder(s: State, k: CallStep, p: Place)
    requires CallEnabled(s, k) && p in s.disk
    ensures p in Call(s, k).disk
    ensures var f, g := s.disk[p], Call(s, k).disk[p];
      if Publishes(s, k) == Some(p) then f.temp.Some? && g == f.(state := f.temp, temp := None)
      else g == f.(temp := g.temp)
  {
  }

  lemma CallRecords(s: State, k: CallStep, p: Place)
    requires CallEnabled(s, k) && Recorded(Call(s, k).disk, p)
    ensures Recorded(s.disk, p) || Publishes(s, k) == Some(p)
  {
  }

  lemma CallKeepsFootage(s: State, k: CallStep, p: Place)
    requires CallEnabled(s, k) && Recorded(s.disk, p)
    ensures Recorded(Call(s, k).disk, p)
  {
    CallFolder(s, k, p);
  }

  lemma CaptureKeepsFootage(s: State, k: ShotStep, p: Place)
    requires ShotEnabled(s, k) && Recorded(s.disk, p)
    ensures Recorded(Capture(s, k).disk, p)
  {
  }

  /** A finaliser that parks a job moves its whole folder, and touches no other. */
  lemma AdvanceKeepsFootage(s: State, h: nat, g: Finaliser, x: Effect, p: Place)
    requires CanAdvance(s, h, g, x) && Recorded(s.disk, p)
    requires !(x.Remove? && p == s.open[h].dir)
    ensures var q := if x.MoveTo? && p == s.open[h].dir then Parked(x.reason, p.name) else p;
      var disk := Advance(s, h, g, x).disk;
      Recorded(disk, q) && (x.Give? || disk[q] == s.disk[p])
  {
  }

  /** One step removes a recorded job only if it is one of the listed actions. */
  lemma FootageStep(c: Config, s: State, l: Label, name: string)
    requires Ownership.All(s) && Enabled(c, s, l) && HasFootage(s.disk, name)
    ensures HasFootage(Apply(c, s, l).disk, name) || Removes(c, s, l, name)
  {
    var p :| Recorded(s.disk, p) && p.name == name;
    var t := Apply(c, s, l);
    match l
    case OnMessage(k) => CallKeepsFootage(s, k, p);
    case OnCapture(k) => CaptureKeepsFootage(s, k, p);
    case OnFinal(h, e) =>
      FinaliseAdvances(c, s, h, e);
      assert Ownership.OpenPlaced(s.open[h], Ownership.IsGone(s, h), s.disk);
      var x := EffectOf(s.finals[h], e);
      if x.Remove? && p == s.open[h].dir {
        assert Removes(c, s, l, name);
      } else {
        AdvanceKeepsFootage(s, h, NextFinaliser(c, s, h, e), x, p);
        var q := if x.MoveTo? && p == s.open[h].dir then Parked(x.reason, p.name) else p;
        assert Recorded(t.disk, q) && q.name == name;
      }
    case DropParked(q, _) =>
      if q != p {
        assert Recorded(t.disk, p);
      }
    case Crash => assert Recorded(t.disk, p);
  }

  /** Something the predicate describes happens on the run. */
  ghost predicate Happens(c: Config, a: Assume, s: State, run: seq<Label>, what: (State, Label) -> bool)
    requires Runs(c, a, s, run)
    decreases |run|
  {
    run != [] && (what(s, run[0]) || Happens(c, a, Apply(c, s, run[0]), run[1..], what))
  }

  lemma {:induction false} FootageAccounted(c: Config, a: Assume, s: State, run: seq<Label>, name: string)
    requires a.ids && a.jobs && Ownership.All(s) && Runs(c, a, s, run) && HasFootage(s.disk, name)
    ensures HasFootage(After(c, a, s, run).disk, name)
      || Happens(c, a, s, run, (x, l) => Removes(c, x, l, name))
    decreases |run|
  {
    if run != [] {
      Ownership.Step(c, s, run[0]);
      FootageStep(c, s, run[0], name);
      if HasFootage(Apply(c, s, run[0]).disk, name) {
        FootageAccounted(c, a, Apply(c, s, run[0]), run[1..], name);
      }
    }
  }

  // ---------------------------------------------------------------- why a job is cleared

  /** What must have happened to the finaliser of h for it to be clearing its directory. */
  ghost predicate Reason(c: Config, s: State, l: Label, h: nat, why: Removal) {
    match why
    case TooFew => h < |s.open| && s.open[h].sess.frames < c.minFrames && l == OnFinal(h, Judged)
    case Posted => l == OnFinal(h, PostAnswered(Accepted))
    case KeptLocally => l == OnFinal(h, VideoMoved(true))
  }

  /** The finaliser of h is past that point. */
  ghost predicate Past(s: State, h: nat, why: Removal) {
    && h in s.finals
    && (s.finals[h].phase == Clearing(why) || (why.KeptLocally? && s.finals[h].phase.Delivering?))
  }

  lemma CallReleases(s: State, k: CallStep, h: nat)
    requires CallEnabled(s, k) && h !in s.finals && h in Call(s, k).finals
    ensures Call(s, k).finals[h].phase.Draining?
  {
  }

  lemma AdvancePasts(c: Config, s: State, h: nat, e: FinalEvent, why: Removal)
    requires FinalEnabled(c, s, h, e) && !Past(s, h, why)
    ensures Past(Finalise(c, s, h, e), h, why) ==> Reason(c, s, OnFinal(h, e), h, why)
  {
  }

  lemma PastStep(c: Config, s: State, l: Label, h: nat, why: Removal)
    requires BasicInvariant.Inv(s) && Enabled(c, s, l) && !Past(s, h, why)
    ensures Past(Apply(c, s, l), h, why) ==> Reason(c, s, l, h, why)
  {
    match l
    case OnMessage(k) =>
      if h in s.finals {
        Lifecycle.CallKeepsFinals(s, k, h);
      } else if h in Call(s, k).finals {
        CallReleases(s, k, h);
      }
    case OnCapture(k) => Lifecycle.CaptureKeepsFinals(s, k);
    case OnFinal(j, e) => if j == h { AdvancePasts(c, s, h, e, why); }
    case DropParked(_, _) =>
    case Crash =>
  }

  /** A job is cleared only after it was found too short, or its post was answered with a
      decoded 200, or its video was moved to the output directory. */
  lemma {:induction false} ClearedForAReason(
    c: Config, a: Assume, s: State, run: seq<Label>, h: nat, why: Removal)
    requires BasicInvariant.Inv(s) && Runs(c, a, s, run) && !Past(s, h, why)
    requires Past(After(c, a, s, run), h, why)
    ensures Happens(c, a, s, run, (x, l) => Reason(c, x, l, h, why))
    decreases |run|
  {
    assert run != [];
    BasicInvariant.Step(c, s, run[0]);
    PastStep(c, s, run[0], h, why);
    if !Past(Apply(c, s, run[0]), h, why) {
      ClearedForAReason(c, a, Apply(c, s, run[0]), run[1..], h, why);
    }
  }

  ghost predicate Happened(c: Config, a: Assume, s: State, run: seq<Label>, h: nat, why: Removal)
    requires Runs(c, a, s, run)
  {
    Happens(c, a, s, run, (x, l) => Reason(c, x, l, h, why))
  }

  /** Footage that was recorded and, one action of a running process later, is not: either
      parked footage was swept or reposted, or a park rename failed, or the finaliser that
      discarded it had a reason to. s0 is the start of that process. */
  lemma RemovalJustified(
    c: Config, a: Assume, r0: seq<Label>, r1: seq<Label>, l: Label, name: string)
    requires a.ids && a.jobs && Runs(c, a, INITIAL, r0)
    requires var s0 := After(c, a, INITIAL, r0);
      s0.finals == map[] && Runs(c, a, s0, r1) && Lifecycle.NoCrash(r1)
    requires var s := After(c, a, After(c, a, INITIAL, r0), r1);
      Enabled(c, s, l) && HasFootage(s.disk, name) && !HasFootage(Apply(c, s, l).disk, name)
    ensures l.DropParked? || (l.OnFinal? &&
      var s0 := After(c, a, INITIAL, r0);
      (l.event == ParkRenamed(false) || exists why :: Happened(c, a, s0, r1, l.h, why)))
  {
    Lifecycle.InitialHolds();
    Lifecycle.RunKeepsOwnership(c, a, INITIAL, r0);
    var s0 := After(c, a, INITIAL, r0);
    Lifecycle.RunKeepsOwnership(c, a, s0, r1);
    var s := After(c, a, s0, r1);
    FootageStep(c, s, l, name);
    if l.OnFinal? && s.finals[l.h].phase.Clearing? {
      ClearedForAReason(c, a, s0, r1, l.h, s.finals[l.h].phase.why);
      assert Happened(c, a, s0, r1, l.h, s.finals[l.h].phase.why);
    }
  }

  // ---------------------------------------------------------------- removed stays removed

  /** The job id is over and its directory is not staged. */
  ghost predicate Unstaged(s: State, id: string) {
    Kept(id) && id in s.printer.over && !Recorded(s.disk, Staged(DirName(id)))
  }

  lemma CallKeepsOver(s: State, k: CallStep)
    requires CallEnabled(s, k)
    ensures s.printer.over <= Call(s, k).printer.over
  {
  }

  lemma UnstagedAfterCall(s: State, k: CallStep, id: string)
    requires Ownership.All(s) && CallEnabled(s, k) && Unstaged(s, id)
    ensures Unstaged(Call(s, k), id)
  {
    CallKeepsOver(s, k);
    var p := Staged(DirName(id));
    if k.CreateRename? {
      DirNameInjective(id, s.cb.made.taskID);
    }
    if k.SaveRename? && k.ok {
      assert Ownership.OpenPlaced(s.open[s.cb.h], Ownership.IsGone(s, s.cb.h), s.disk);
    }
    if Recorded(Call(s, k).disk, p) {
      CallRecords(s, k, p);
    }
  }

  lemma UnstagedAfterCapture(s: State, k: ShotStep, id: string)
    requires Ownership.All(s) && ShotEnabled(s, k) && Unstaged(s, id)
    ensures Unstaged(Capture(s, k), id)
  {
    if k.CommitRename? {
      assert Ownership.OpenPlaced(s.open[s.shot.h], Ownership.IsGone(s, s.shot.h), s.disk);
    }
  }

  lemma UnstagedAfterAdvance(s: State, h: nat, g: Finaliser, x: Effect, id: string)
    requires Unstaged(s, id) && CanAdvance(s, h, g, x)
    ensures Unstaged(Advance(s, h, g, x), id)
  {
  }

  /** A job that is over and not staged is never staged again. */
  lemma UnstagedStays(c: Config, s: State, l: Label, id: string)
    requires Ownership.All(s) && Enabled(c, s, l) && Unstaged(s, id)
    ensures Unstaged(Apply(c, s, l), id)
  {
    match l
    case OnMessage(k) => UnstagedAfterCall(s, k, id);
    case OnCapture(k) => UnstagedAfterCapture(s, k, id);
    case OnFinal(h, e) =>
      FinaliseAdvances(c, s, h, e);
      UnstagedAfterAdvance(s, h, NextFinaliser(c, s, h, e), EffectOf(s.finals[h], e), id);
    case DropParked(_, _) =>
    case Crash =>
  }

  lemma {:induction false} UnstagedForever(c: Config, a: Assume, s: State, run: seq<Label>, id: string)
    requires a.ids && a.jobs && Ownership.All(s) && Runs(c, a, s, run) && Unstaged(s, id)
    ensures Unstaged(After(c, a, s, run), id)
    decreases |run|
  {
    if run != [] {
      Ownership.Step(c, s, run[0]);
      UnstagedStays(c, s, run[0], id);
      UnstagedForever(c, a, Apply(c, s, run[0]), run[1..], id);
    }
  }

  // ---------------------------------------------------------------- committed frames

  /** g is a later folder of the job f is a folder of: frames 1..n that f's record counts
      are still there, unchanged, and g's record counts no fewer. */
  ghost predicate Grown(f: Folder, g: Folder)
    requires f.state.Some?
  {
    && g.state.Some?
    && f.state.value.taskID == g.state.value.taskID
    && f.state.value.frames <= g.state.value.frames
    && forall i: nat | 1 <= i <= f.state.value.frames && i in f.stills :: i in g.stills && g.stills[i] == f.stills[i]
  }

  lemma GrownAfterCall(s: State, k: CallStep, p: Place)
    requires FrameTruth.All(s) && CallEnabled(s, k) && Recorded(s.disk, p) && !s.disk[p].handedOver
    ensures p in Call(s, k).disk && Grown(s.disk[p], Call(s, k).disk[p])
  {
    CallFolder(s, k, p);
    if Publishes(s, k) == Some(p) {
      assert k.SaveRename?;
      assert FrameTruth.OpenTruth(s.open[s.cb.h], s.disk);
      assert Identity.OneJob(s.disk[p], p.name);
      DirNameInjective(s.disk[p].state.value.taskID, s.disk[p].temp.value.taskID);
    }
  }

  lemma GrownAfterCapture(s: State, k: ShotStep, p: Place)
    requires FrameTruth.All(s) && ShotEnabled(s, k) && Recorded(s.disk, p) && !s.disk[p].handedOver
    ensures p in Capture(s, k).disk && Grown(s.disk[p], Capture(s, k).disk[p])
  {
    assert Identity.OneJob(s.disk[p], p.name);
    if !s.shot.Resting? && p == s.open[s.shot.h].dir {
      assert FrameTruth.OpenTruth(s.open[s.shot.h], s.disk) && Identity.OpenNamed(s.open[s.shot.h]);
      DirNameInjective(s.disk[p].state.value.taskID, s.open[s.shot.h].sess.taskID);
    }
  }

  lemma GrownAfterAdvance(s: State, h: nat, g: Finaliser, x: Effect, p: Place)
    requires CanAdvance(s, h, g, x) && Recorded(s.disk, p)
    requires var t := Advance(s, h, g, x); p in t.disk && !t.disk[p].handedOver
    ensures Grown(s.disk[p], Advance(s, h, g, x).disk[p])
  {
  }

  /** No action rewrites a committed frame of a recorded job, short of local delivery. */
  lemma GrownStep(c: Config, s: State, l: Label, p: Place)
    requires FrameTruth.All(s) && Enabled(c, s, l) && Recorded(s.disk, p) && !s.disk[p].handedOver
    requires var t := Apply(c, s, l); p in t.disk && !t.disk[p].handedOver
    ensures Grown(s.disk[p], Apply(c, s, l).disk[p])
  {
    match l
    case OnMessage(k) => GrownAfterCall(s, k, p);
    case OnCapture(k) => GrownAfterCapture(s, k, p);
    case OnFinal(h, e) =>
      FinaliseAdvances(c, s, h, e);
      GrownAfterAdvance(s, h, NextFinaliser(c, s, h, e), EffectOf(s.finals[h], e), p);
    case DropParked(_, _) =>
    case Crash =>
  }

  lemma HandedAfterCapture(s: State, k: ShotStep, p: Place)
    requires ShotEnabled(s, k) && Recorded(s.disk, p)
    ensures Recorded(Capture(s, k).disk, p) && Capture(s, k).disk[p].handedOver == s.disk[p].handedOver
  {
  }

  lemma LeavesWhenOver(s: State, h: nat, g: Finaliser, x: Effect, p: Place)
    requires Ownership.All(s) && CanAdvance(s, h, g, x) && Recorded(s.disk, p) && p.Staged?
    ensures var t := Advance(s, h, g, x);
      if Recorded(t.disk, p) then s.disk[p].handedOver ==> t.disk[p].handedOver
      else Unstaged(t, s.disk[p].state.value.taskID)
  {
    assert Identity.OneJob(s.disk[p], p.name);
    if p == s.open[h].dir {
      assert Identity.OpenNamed(s.open[h]);
      DirNameInjective(s.disk[p].state.value.taskID, s.open[h].sess.taskID);
    }
  }

  /** A staged job stays staged, and handed over once it is, until it is over and gone. */
  lemma StagedStep(c: Config, s: State, l: Label, p: Place)
    requires Ownership.All(s) && Enabled(c, s, l) && Recorded(s.disk, p) && p.Staged?
    ensures var t := Apply(c, s, l);
      if Recorded(t.disk, p) then s.disk[p].handedOver ==> t.disk[p].handedOver
      else Unstaged(t, s.disk[p].state.value.taskID)
  {
    match l
    case OnMessage(k) => CallFolder(s, k, p);
    case OnCapture(k) => HandedAfterCapture(s, k, p);
    case OnFinal(h, e) =>
      FinaliseAdvances(c, s, h, e);
      LeavesWhenOver(s, h, NextFinaliser(c, s, h, e), EffectOf(s.finals[h], e), p);
    case DropParked(_, _) =>
    case Crash =>
  }

  lemma {:induction false} HandedForever(c: Config, a: Assume, s: State, run: seq<Label>, p: Place)
    requires a.ids && a.jobs && Ownership.All(s) && Runs(c, a, s, run)
    requires Recorded(s.disk, p) && p.Staged? && s.disk[p].handedOver
    ensures Recorded(After(c, a, s, run).disk, p) ==> After(c, a, s, run).disk[p].handedOver
    decreases |run|
  {
    if run != [] {
      var t := Apply(c, s, run[0]);
      Ownership.Step(c, s, run[0]);
      StagedStep(c, s, run[0], p);
      if Recorded(t.disk, p) {
        HandedForever(c, a, t, run[1..], p);
      } else {
        NotStagedLater(c, a, t, run[1..], p, s.disk[p].state.value.taskID);
      }
    }
  }

  lemma NotStagedLater(c: Config, a: Assume, s: State, run: seq<Label>, p: Place, id: string)
    requires a.ids && a.jobs && Ownership.All(s) && Runs(c, a, s, run)
    requires Unstaged(s, id) && p == Staged(DirName(id))
    ensures !Recorded(After(c, a, s, run).disk, p)
  {
    UnstagedForever(c, a, s, run, id);
  }

  /** Along every run, through failed saves, crashes and resumed older records: while a job
      is staged and not being delivered, the frames once counted in its state file stay as
      they are, and the count never falls. */
  lemma {:induction false} CommittedFramesStay(c: Config, a: Assume, s: State, run: seq<Label>, p: Place)
    requires a.ids && a.jobs && FrameTruth.All(s) && Runs(c, a, s, run)
    requires Recorded(s.disk, p) && p.Staged?
    requires var t := After(c, a, s, run); Recorded(t.disk, p) && !t.disk[p].handedOver
    ensures Grown(s.disk[p], After(c, a, s, run).disk[p])
    decreases |run|
  {
    if s.disk[p].handedOver {
      HandedForever(c, a, s, run, p);
    } else if run != [] {
      var t := Apply(c, s, run[0]);
      var id := s.disk[p].state.value.taskID;
      assert Identity.OneJob(s.disk[p], p.name);
      FrameTruth.Step(c, s, run[0]);
      StagedStep(c, s, run[0], p);
      if !Recorded(t.disk, p) {
        NotStagedLater(c, a, t, run[1..], p, id);
      } else if t.disk[p].handedOver {
        HandedForever(c, a, t, run[1..], p);
      } else {
        GrownStep(c, s, run[0], p);
        CommittedFramesStay(c, a, t, run[1..], p);
      }
    }
  }

  /** The same, from the first start of the service. */
  lemma CommittedFramesNeverRewritten(c: Config, a: Assume, run: seq<Label>, rest: seq<Label>, p: Place)
    requires a.ids && a.jobs && Runs(c, a, INITIAL, run) && Runs(c, a, After(c, a, INITIAL, run), rest)
    requires Recorded(After(c, a, INITIAL, run).disk, p) && p.Staged?
    requires var t := After(c, a, After(c, a, INITIAL, run), rest); Recorded(t.disk, p) && !t.disk[p].handedOver
    ensures var s := After(c, a, INITIAL, run); Grown(s.disk[p], After(c, a, s, rest).disk[p])
  {
    Lifecycle.InitialHolds();
    Lifecycle.RunKeepsTruth(c, a, INITIAL, run);
    CommittedFramesStay(c, a, After(c, a, INITIAL, run), rest, p);
  }

  /** In every reachable state a job directory is in at most one place, and what was recorded
      before is still recorded unless one of the listed actions happened. */
  lemma NoFootageLost(c: Config, a: Assume, run: seq<Label>, rest: seq<Label>, name: string)
    requires a.ids && a.jobs && Runs(c, a, INITIAL, run) && Runs(c, a, After(c, a, INITIAL, run), rest)
    requires HasFootage(After(c, a, INITIAL, run).disk, name)
    ensures var s := After(c, a, INITIAL, run); var t := After(c, a, s, rest);
      && OneHome(t.disk)
      && (HasFootage(t.disk, name) || Happens(c, a, s, rest, (x, l) => Removes(c, x, l, name)))
  {
    Lifecycle.InitialHolds();
    Lifecycle.RunKeepsOwnership(c, a, INITIAL, run);
    RunKeepsHomes(c, a, INITIAL, run);
    RunKeepsHomes(c, a, After(c, a, INITIAL, run), rest);
    FootageAccounted(c, a, After(c, a, INITIAL, run), rest, name);
  }
}
