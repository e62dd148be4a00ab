/** Under E1 to E4: captured layers climb strictly, and a capture in flight is ahead of
    everything its session has committed. */
module Layers {
  import opened Basics
  import opened Sessions
  import opened Protocol
  import BasicInvariant
  import Identity
  import Ownership

  /** A record's layers climb, and the live job's have not passed what was reported. */
  ghost predicate Sound(e: Printer, x: Session) {
    && Climbing(x)
    && (e.live == Some(x.taskID) ==> x.lastLayer <= e.floor)
  }

  ghost predicate FolderSound(e: Printer, f: Folder) {
    && (f.state.Some? ==> Sound(e, f.state.value))
    && (f.temp.Some? ==> Sound(e, f.temp.value))
  }

  ghost predicate DiskSound(e: Printer, disk: Disk) {
    forall p | p in disk :: FolderSound(e, disk[p])
  }

  ghost predicate OpenSound(e: Printer, open: seq<Open>) {
    forall h: nat | h < |open| :: Sound(e, open[h].sess)
  }

  /** layer lies above everything x has committed and not above the last layer it saw. */
  ghost predicate Ahead(x: Session, layer: int) {
    && 0 < layer <= x.lastLayer
    && forall i | 0 <= i < |x.layers| :: x.layers[i] < layer
  }

  ghost predicate InFlight(t: Shot) { t.Delayed? || t.Grabbing? || t.Landed? }

  ghost predicate ShotInv(s: State) {
    InFlight(s.shot) ==> s.shot.h < |s.open| && Ahead(s.open[s.shot.h].sess, s.shot.layer)
  }

  /** The layer the callback is about to capture is ahead of the capture in flight as well. */
  ghost predicate NextInv(s: State, h: nat, layer: int) {
    && h < |s.open|
    && s.open[h].sess.lastLayer == layer
    && Ahead(s.open[h].sess, layer)
    && (InFlight(s.shot) && s.shot.h == h ==> s.shot.layer < layer)
  }

  ghost predicate CallbackInv(s: State) {
    && (Ownership.MidReport(s.cb) || s.cb.Recording? ==>
          s.view.gcode.Running? && s.view.layer > 0 ==> s.printer.floor == s.view.layer)
    && (s.cb.Recording? ==> s.view.gcode.Running?)
    && (s.cb.Saving? ==> NextInv(s, s.cb.h, s.cb.layer))
    && (s.cb.Shooting? ==> NextInv(s, s.cb.h, s.cb.layer))
    && (s.cb.Creating? ==> s.cb.made.layers == [] && s.cb.made.lastLayer == -1)
  }

  ghost predicate Inv(s: State) {
    && s.printer.floor >= 0
    && DiskSound(s.printer, s.disk)
    && OpenSound(s.printer, s.open)
    && ShotInv(s)
    && CallbackInv(s)
  }

  ghost predicate All(s: State) { Ownership.All(s) && Inv(s) }

  lemma HearDisk(s: State, v: View)
    requires All(s) && s.cb.Waiting? && E2(s, v)
    ensures DiskSound(Hear(s, v).printer, s.disk)
  {
  }

  lemma HearOpen(s: State, v: View)
    requires All(s) && s.cb.Waiting? && E2(s, v)
    ensures OpenSound(Hear(s, v).printer, s.open)
  {
  }

  lemma HearStep(s: State, v: View)
    requires All(s) && s.cb.Waiting? && E2(s, v) && E4(s, v)
    ensures Inv(Hear(s, v))
  {
    HearDisk(s, v);
    HearOpen(s, v);
  }

  lemma AddSound(e: Printer, open: seq<Open>, o: Open)
    requires OpenSound(e, open) && Sound(e, o.sess)
    ensures OpenSound(e, open + [o])
  {
  }

  lemma ReplaceSound(e: Printer, open: seq<Open>, h: nat, o: Open)
    requires OpenSound(e, open) && h < |open| && Sound(e, o.sess)
    ensures OpenSound(e, open[h := o])
  {
  }

  lemma FolderReplaced(e: Printer, disk: Disk, p: Place, f: Folder)
    requires DiskSound(e, disk) && FolderSound(e, f)
    ensures DiskSound(e, disk[p := f])
  {
  }

  lemma ListStep(s: State, order: seq<string>)
    requires Inv(s) && s.cb.Merged? && Listing(s.disk, order) && s.open == [] && s.shot.Resting?
    ensures Inv(ListAll(s, order))
  {
  }

  lemma BeginStep(s: State, mkdir: bool, wrote: bool, now: int)
    requires Inv(s) && BasicInvariant.Inv(s) && s.cb.Beginning?
    ensures Inv(BeginJob(s, mkdir, wrote, now))
  {
    var dir := Staged(DirName(s.view.taskID));
    if s.view.taskID != "" {
      if dir in s.disk {
        assert FolderSound(s.printer, s.disk[dir]);
      }
      if dir in s.disk && s.disk[dir].state.Some? {
        AddSound(s.printer, s.open, Open(s.disk[dir].state.value, dir));
      } else if mkdir {
        FolderReplaced(s.printer, s.disk, dir, BeginJob(s, mkdir, wrote, now).disk[dir]);
      }
    }
  }

  lemma CreateStep(s: State, ok: bool)
    requires Inv(s) && BasicInvariant.Inv(s) && s.cb.Creating?
    requires ok ==> CanRename(s.disk, Staged(DirName(s.cb.made.taskID)))
    ensures Inv(FinishCreate(s, ok))
  {
  }

  /** A layer worth a frame is higher than any the session has seen. */
  lemma NewLayerRises(s: State)
    requires All(s) && s.cb.Recording?
    requires ChangedLayer(s.view.layer, s.open[s.cb.h].sess.lastLayer)
    ensures s.open[s.cb.h].sess.lastLayer < s.view.layer == s.printer.floor
  {
  }

  lemma RecordStep(s: State, wrote: bool)
    requires All(s) && s.cb.Recording? && !s.shot.Storing?
    requires wrote ==> s.open[s.cb.h].dir in s.disk
    ensures Inv(RecordView(s, wrote))
  {
    var t := RecordView(s, wrote);
    var h, o := s.cb.h, s.open[s.cb.h];
    var x := t.open[h].sess;
    assert Sound(s.printer, o.sess);
    if ChangedLayer(s.view.layer, o.sess.lastLayer) {
      NewLayerRises(s);
    }
    assert Sound(s.printer, x);
    ReplaceSound(s.printer, s.open, h, o.(sess := x));
    if t.cb.Saving? {
      assert FolderSound(s.printer, s.disk[o.dir]);
      FolderReplaced(s.printer, s.disk, o.dir, t.disk[o.dir]);
    }
  }

  lemma SaveStep(s: State, ok: bool)
    requires Inv(s) && s.cb.Saving? && (ok ==> CanRename(s.disk, s.open[s.cb.h].dir))
    ensures Inv(FinishSave(s, ok))
  {
  }

  /** Deciding what to do with a report changes no record. */
  lemma DecideStep(s: State, t: State)
    requires Inv(s) && (s.cb.Merged? || s.cb.Settling? || s.cb.Handling?)
    requires t.disk == s.disk && t.open == s.open && t.printer == s.printer && t.view == s.view && t.shot == s.shot
    requires t.cb.Waiting? || t.cb.Handling? || t.cb.Settling? || t.cb.Beginning? || t.cb.Recording?
    requires t.cb.Recording? ==> s.view.gcode.Running?
    ensures Inv(t)
  {
  }

  lemma ShootStep(s: State, room: bool)
    requires Inv(s) && s.cb.Shooting?
    ensures Inv(StartShot(s, room))
  {
  }

  ghost predicate Quiet(k: CallStep) {
    k.ListFails? || k.Settle? || k.Handle? || k.Shoot?
  }

  lemma QuietCall(s: State, k: CallStep)
    requires Inv(s) && CallEnabled(s, k) && Quiet(k)
    ensures Inv(Call(s, k))
  {
    match k
    case ListFails => DecideStep(s, Call(s, k));
    case Settle => DecideStep(s, SettleOne(s));
    case Handle => DecideStep(s, HandleView(s));
    case Shoot(room) => ShootStep(s, room);
  }

  lemma OpenStep(s: State, k: CallStep)
    requires All(s) && CallEnabled(s, k) && !Quiet(k)
    requires k.Report? ==> E2(s, k.v) && E4(s, k.v)
    ensures Inv(Call(s, k))
  {
    match k
    case Report(v) => HearStep(s, v);
    case List(order) => ListStep(s, order);
    case Begin(mkdir, wrote, now) => BeginStep(s, mkdir, wrote, now);
    case CreateRename(ok) => CreateStep(s, ok);
    case Record(wrote) => RecordStep(s, wrote);
    case SaveRename(ok) => SaveStep(s, ok);
  }

  lemma CommitStep(s: State, wrote: bool)
    requires Inv(s) && s.shot.Landed? && !s.cb.Saving?
    requires wrote ==> s.open[s.shot.h].dir in s.disk
    ensures Inv(CommitShot(s, wrote))
  {
    var h, o := s.shot.h, s.open[s.shot.h];
    var x := Counted(o.sess, s.shot.layer);
    assert Sound(s.printer, o.sess);
    assert Sound(s.printer, x);
    ReplaceSound(s.printer, s.open, h, o.(sess := x));
    if wrote {
      assert FolderSound(s.printer, s.disk[o.dir]);
      FolderReplaced(s.printer, s.disk, o.dir, s.disk[o.dir].(temp := Some(x)));
    }
  }

  lemma StoreStep(s: State, ok: bool)
    requires Inv(s) && s.shot.Storing? && s.shot.h < |s.open|
    requires ok ==> CanRename(s.disk, s.open[s.shot.h].dir)
    ensures Inv(FinishCommit(s, ok))
  {
  }

  lemma GrabStep(s: State, k: ShotStep)
    requires Inv(s) && ShotEnabled(s, k) && s.shot.Grabbing?
    ensures Inv(Capture(s, k))
  {
    if s.shot.dest in s.disk {
      assert FolderSound(s.printer, s.disk[s.shot.dest]);
    }
  }

  lemma CaptureStep(s: State, k: ShotStep)
    requires Inv(s) && ShotEnabled(s, k)
    ensures Inv(Capture(s, k))
  {
    match k
    case Scribble | GrabOk | GrabFail(_) => GrabStep(s, k);
    case Commit(wrote) => CommitStep(s, wrote);
    case CommitRename(ok) => StoreStep(s, ok);
    case Aim | Abandon | Leave =>
  }

  lemma FinalStep(s: State, h: nat, g: Finaliser, x: Effect)
    requires Inv(s) && CanAdvance(s, h, g, x)
    ensures Inv(Advance(s, h, g, x))
  {
  }

  /** Every action of every actor keeps the invariant. */
  lemma Step(c: Config, s: State, l: Label)
    requires All(s) && Enabled(c, s, l)
    requires l.OnMessage? && l.call.Report? ==> E1(l.call.v) && E2(s, l.call.v) && E3(s, l.call.v) && E4(s, l.call.v)
    ensures All(Apply(c, s, l))
  {
    Ownership.Step(c, s, l);
    match l
    case OnMessage(k) => if Quiet(k) { QuietCall(s, k); } else { OpenStep(s, k); }
    case OnCapture(k) => CaptureStep(s, k);
    case OnFinal(h, e) =>
      FinaliseAdvances(c, s, h, e);
      FinalStep(s, h, NextFinaliser(c, s, h, e), EffectOf(s.finals[h], e));
    case DropParked(_, _) =>
    case Crash =>
  }
}
