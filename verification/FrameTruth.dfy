/** Under E1 to E3, and whatever saves, grabs and crashes do: until its local delivery
    begins, the layers a session claims are the layers of the pictures beside it. */
module FrameTruth {
  import opened Basics
  import opened Sessions
  import opened Protocol
  import BasicInvariant
  import Identity
  import Ownership

  /** The state file tells the truth about the pictures. */
  ghost predicate SavedTruth(f: Folder) {
    !f.handedOver && f.state.Some? ==> Truth(f.state.value, f.stills)
  }

  /** An open session tells the truth, and is at least as far as its state file. */
  ghost predicate OpenTruth(o: Open, disk: Disk) {
    o.dir in disk && !disk[o.dir].handedOver ==>
      && Truth(o.sess, disk[o.dir].stills)
      && (disk[o.dir].state.Some? ==> disk[o.dir].state.value.frames <= o.sess.frames)
  }

  ghost predicate DiskTruth(disk: Disk) {
    forall p | p in disk :: SavedTruth(disk[p])
  }

  ghost predicate AllTruth(open: seq<Open>, disk: Disk) {
    forall h: nat | h < |open| :: OpenTruth(open[h], disk)
  }

  /** Between the halves of `Save`, the temporary file holds the session as it is. */
  ghost predicate TempInv(s: State) {
    && (s.cb.Saving? && s.cb.h < |s.open| && s.open[s.cb.h].dir in s.disk ==>
          s.disk[s.open[s.cb.h].dir].temp == Some(s.open[s.cb.h].sess))
    && (s.shot.Storing? && s.shot.h < |s.open| && s.open[s.shot.h].dir in s.disk ==>
          s.disk[s.open[s.shot.h].dir].temp == Some(s.open[s.shot.h].sess))
    && (s.cb.Creating? ==>
          && s.cb.made.frames == 0 && s.cb.made.layers == []
          && var dir := Staged(DirName(s.cb.made.taskID));
             dir in s.disk ==> s.disk[dir].temp == Some(s.cb.made) && s.disk[dir].state.None?)
  }

  /** A grab writes only into its session's own directory, and once it has succeeded the
      picture is there. */
  ghost predicate ShotInv(s: State) {
    && (s.shot.Grabbing? && s.shot.h < |s.open| && s.shot.dest in s.disk ==> s.shot.dest == s.open[s.shot.h].dir)
    && (s.shot.Landed? && s.shot.h < |s.open| && s.open[s.shot.h].dir in s.disk
        && !s.disk[s.open[s.shot.h].dir].handedOver ==>
          var stills := s.disk[s.open[s.shot.h].dir].stills;
          s.shot.index in stills && stills[s.shot.index] == Photo(s.shot.owner, s.shot.job, s.shot.layer))
  }

  ghost predicate Inv(s: State) {
    && DiskTruth(s.disk)
    && AllTruth(s.open, s.disk)
    && TempInv(s)
    && ShotInv(s)
  }

  ghost predicate All(s: State) { Ownership.All(s) && Inv(s) }

  /** No two open sessions share a directory. */
  ghost predicate Apart(open: seq<Open>) {
    forall h: nat, k: nat | h < |open| && k < |open| && h != k :: open[h].dir.name != open[k].dir.name
  }

  lemma AllApart(s: State)
    requires Ownership.All(s)
    ensures Apart(s.open)
    ensures s.cb.Creating? ==> forall h: nat | h < |s.open| :: s.open[h].dir != Staged(DirName(s.cb.made.taskID))
  {
    forall h: nat, k: nat | h < |s.open| && k < |s.open| && h != k
      ensures s.open[h].dir.name != s.open[k].dir.name
    {
      Ownership.OpenApart(s, h, k);
    }
    if s.cb.Creating? {
      Ownership.NewcomerDistinct(s, s.cb.made.taskID);
      Ownership.NewcomerApart(s, s.cb.made.taskID);
    }
  }

  /** Replacing one folder is fine if its own record and its own session stay true. */
  lemma ReplaceFolder(open: seq<Open>, disk: Disk, p: Place, f: Folder)
    requires DiskTruth(disk) && AllTruth(open, disk) && SavedTruth(f)
    requires forall h: nat | h < |open| && open[h].dir == p :: OpenTruth(open[h], disk[p := f])
    ensures DiskTruth(disk[p := f]) && AllTruth(open, disk[p := f])
  {
  }

  /** A session may change while its directory stays as it is. */
  lemma ReplaceOpen(open: seq<Open>, disk: Disk, h: nat, o: Open)
    requires AllTruth(open, disk) && h < |open| && OpenTruth(o, disk)
    ensures AllTruth(open[h := o], disk)
  {
  }

  lemma AddOpen(open: seq<Open>, disk: Disk, o: Open)
    requires AllTruth(open, disk) && OpenTruth(o, disk)
    ensures AllTruth(open + [o], disk)
  {
  }

  /** Writing the temporary file changes nothing that is true. */
  lemma WriteTemp(open: seq<Open>, disk: Disk, p: Place, temp: Option<Session>)
    requires DiskTruth(disk) && AllTruth(open, disk) && p in disk
    ensures DiskTruth(disk[p := disk[p].(temp := temp)]) && AllTruth(open, disk[p := disk[p].(temp := temp)])
  {
  }

  /** Publishing a session that is true of its own directory. */
  lemma Publish(open: seq<Open>, disk: Disk, h: nat)
    requires DiskTruth(disk) && AllTruth(open, disk) && Apart(open) && h < |open|
    requires CanRename(disk, open[h].dir) && disk[open[h].dir].temp == Some(open[h].sess)
    ensures DiskTruth(Renamed(disk, open[h].dir)) && AllTruth(open, Renamed(disk, open[h].dir))
  {
  }

  /** The file after a session's last frame may hold anything. */
  lemma TouchStill(open: seq<Open>, disk: Disk, h: nat, index: nat, f: Folder)
    requires DiskTruth(disk) && AllTruth(open, disk) && Apart(open) && h < |open| && open[h].dir in disk
    requires index == open[h].sess.frames + 1
    requires f == disk[open[h].dir].(stills := f.stills)
    requires forall n | n in disk[open[h].dir].stills && n != index ::
               n in f.stills && f.stills[n] == disk[open[h].dir].stills[n]
    ensures DiskTruth(disk[open[h].dir := f]) && AllTruth(open, disk[open[h].dir := f])
  {
    var p := open[h].dir;
    assert OpenTruth(open[h], disk) && SavedTruth(disk[p]);
    if !f.handedOver {
      TruthBelow(open[h].sess, disk[p].stills, f.stills, index);
      if f.state.Some? {
        TruthBelow(f.state.value, disk[p].stills, f.stills, index);
      }
    }
    ReplaceFolder(open, disk, p, f);
  }

  lemma GrabDisk(s: State, k: ShotStep)
    requires All(s) && ShotEnabled(s, k) && s.shot.Grabbing? && s.shot.dest in s.disk
    ensures var t := Capture(s, k); DiskTruth(t.disk) && AllTruth(t.open, t.disk)
  {
    AllApart(s);
    TouchStill(s.open, s.disk, s.shot.h, s.shot.index, Capture(s, k).disk[s.shot.dest]);
  }

  lemma GrabRest(s: State, k: ShotStep)
    requires Inv(s) && BasicInvariant.Inv(s) && ShotEnabled(s, k) && s.shot.Grabbing?
    requires s.cb.Creating? ==> s.open[s.shot.h].dir != Staged(DirName(s.cb.made.taskID))
    ensures var t := Capture(s, k); TempInv(t) && ShotInv(t)
  {
  }

  lemma GrabStep(s: State, k: ShotStep)
    requires All(s) && ShotEnabled(s, k) && s.shot.Grabbing?
    ensures Inv(Capture(s, k))
  {
    AllApart(s);
    if s.shot.dest in s.disk {
      GrabDisk(s, k);
    }
    GrabRest(s, k);
  }

  lemma CommitStep(s: State, wrote: bool)
    requires All(s) && s.shot.Landed? && !s.cb.Saving?
    requires wrote ==> s.open[s.shot.h].dir in s.disk
    ensures Inv(CommitShot(s, wrote))
  {
    AllApart(s);
    var h, o := s.shot.h, s.open[s.shot.h];
    var x := Counted(o.sess, s.shot.layer);
    assert OpenTruth(o, s.disk);
    if o.dir in s.disk && !s.disk[o.dir].handedOver {
      TruthGrows(o.sess, x, s.disk[o.dir].stills, s.shot.layer);
    }
    ReplaceOpen(s.open, s.disk, h, o.(sess := x));
    if wrote {
      WriteTemp(s.open[h := o.(sess := x)], s.disk, o.dir, Some(x));
    }
  }

  lemma StoreStep(s: State, ok: bool)
    requires All(s) && s.shot.Storing? && (ok ==> CanRename(s.disk, s.open[s.shot.h].dir))
    ensures Inv(FinishCommit(s, ok))
  {
    AllApart(s);
    if ok {
      Publish(s.open, s.disk, s.shot.h);
    }
  }

  lemma CaptureStep(s: State, k: ShotStep)
    requires All(s) && ShotEnabled(s, k)
    ensures Inv(Capture(s, k))
  {
    match k
    case Scribble | GrabOk | GrabFail(_) => GrabStep(s, k);
    case Commit(wrote) => CommitStep(s, wrote);
    case CommitRename(ok) => StoreStep(s, ok);
    case Aim | Abandon | Leave =>
  }

  lemma ListStep(s: State, order: seq<string>)
    requires All(s) && s.cb.Merged? && Listing(s.disk, order)
    ensures Inv(ListAll(s, order))
  {
  }

  lemma BeginStep(s: State, mkdir: bool, wrote: bool, now: int)
    requires All(s) && s.cb.Beginning?
    ensures Inv(BeginJob(s, mkdir, wrote, now))
  {
    var id := s.view.taskID;
    if id != "" {
      var dir := Staged(DirName(id));
      Ownership.NewcomerDistinct(s, id);
      Ownership.NewcomerApart(s, id);
      if dir in s.disk {
        assert SavedTruth(s.disk[dir]);
      }
      if dir in s.disk && s.disk[dir].state.Some? {
        AddOpen(s.open, s.disk, Open(s.disk[dir].state.value, dir));
      } else if mkdir {
        ReplaceFolder(s.open, s.disk, dir, BeginJob(s, mkdir, wrote, now).disk[dir]);
      }
    }
  }

  lemma CreateStep(s: State, ok: bool)
    requires All(s) && s.cb.Creating?
    requires ok ==> CanRename(s.disk, Staged(DirName(s.cb.made.taskID)))
    ensures Inv(FinishCreate(s, ok))
  {
    if ok {
      var id := s.cb.made.taskID;
      var dir := Staged(DirName(id));
      Ownership.NewcomerDistinct(s, id);
      Ownership.NewcomerApart(s, id);
      var disk := Renamed(s.disk, dir);
      ReplaceFolder(s.open, s.disk, dir, disk[dir]);
      AddOpen(s.open, disk, Open(s.cb.made, dir));
    }
  }

  lemma RecordDisk(s: State, wrote: bool)
    requires All(s) && s.cb.Recording? && !s.shot.Storing?
    requires wrote ==> s.open[s.cb.h].dir in s.disk
    ensures var t := RecordView(s, wrote); DiskTruth(t.disk) && AllTruth(t.open, t.disk)
  {
    var h, o := s.cb.h, s.open[s.cb.h];
    var x := RecordView(s, wrote).open[h].sess;
    assert OpenTruth(o, s.disk);
    if o.dir in s.disk && !s.disk[o.dir].handedOver {
      TruthSame(o.sess, x, s.disk[o.dir].stills);
    }
    ReplaceOpen(s.open, s.disk, h, o.(sess := x));
    if wrote {
      WriteTemp(s.open[h := o.(sess := x)], s.disk, o.dir, Some(x));
    }
  }

  lemma RecordStep(s: State, wrote: bool)
    requires All(s) && s.cb.Recording? && !s.shot.Storing?
    requires wrote ==> s.open[s.cb.h].dir in s.disk
    ensures Inv(RecordView(s, wrote))
  {
    AllApart(s);
    RecordDisk(s, wrote);
  }

  lemma SaveStep(s: State, ok: bool)
    requires All(s) && s.cb.Saving? && (ok ==> CanRename(s.disk, s.open[s.cb.h].dir))
    ensures Inv(FinishSave(s, ok))
  {
    AllApart(s);
    if ok {
      Publish(s.open, s.disk, s.cb.h);
    }
  }

  /** A step that neither saves nor grabs. */
  lemma QuietStep(s: State, t: State)
    requires Inv(s) && t.open == s.open && t.disk == s.disk
    requires !t.cb.Saving? && !t.cb.Creating? && (t.shot == s.shot || t.shot.Delayed?)
    ensures Inv(t)
  {
  }

  lemma OpenStep(s: State, k: CallStep)
    requires All(s) && CallEnabled(s, k)
    requires k.List? || k.Begin? || k.CreateRename? || k.Record? || k.SaveRename?
    ensures Inv(Call(s, k))
  {
    match k
    case List(order) => ListStep(s, order);
    case Begin(mkdir, wrote, now) => BeginStep(s, mkdir, wrote, now);
    case CreateRename(ok) => CreateStep(s, ok);
    case Record(wrote) => RecordStep(s, wrote);
    case SaveRename(ok) => SaveStep(s, ok);
  }

  ghost predicate Quiet(k: CallStep) {
    k.Report? || k.ListFails? || k.Settle? || k.Handle? || k.Shoot?
  }

  /** It leaves disk and sessions alone, and of the capture it can only start one. */
  lemma QuietSame(s: State, k: CallStep)
    requires CallEnabled(s, k) && Quiet(k)
    ensures var t := Call(s, k);
      && t.disk == s.disk && t.open == s.open && !t.cb.Creating? && !t.cb.Saving?
      && (t.shot == s.shot || (s.shot.Resting? && t.shot.Delayed?))
  {
  }

  lemma QuietCall(s: State, k: CallStep)
    requires Inv(s) && CallEnabled(s, k) && Quiet(k)
    ensures Inv(Call(s, k))
  {
    QuietSame(s, k);
    QuietStep(s, Call(s, k));
  }

  lemma CallStep(s: State, k: CallStep)
    requires All(s) && CallEnabled(s, k)
    ensures Inv(Call(s, k))
  {
    if Quiet(k) {
      QuietCall(s, k);
    } else {
      OpenStep(s, k);
    }
  }

  lemma FinalDisk(s: State, h: nat, g: Finaliser, x: Effect)
    requires All(s) && CanAdvance(s, h, g, x)
    ensures var t := Advance(s, h, g, x); DiskTruth(t.disk) && AllTruth(t.open, t.disk)
  {
    AllApart(s);
    var t := Advance(s, h, g, x);
    var dir := s.open[h].dir;
    if dir in s.disk {
      assert SavedTruth(s.disk[dir]);
    }
    forall k: nat | k < |t.open|
      ensures OpenTruth(t.open[k], t.disk)
    {
      assert OpenTruth(s.open[k], s.disk);
      assert k != h ==> s.open[k].dir.name != dir.name;
    }
  }

  lemma FinalRest(s: State, h: nat, g: Finaliser, x: Effect)
    requires All(s) && CanAdvance(s, h, g, x)
    ensures var t := Advance(s, h, g, x); TempInv(t) && ShotInv(t)
  {
    AllApart(s);
    assert Ownership.OpenPlaced(s.open[h], Ownership.IsGone(s, h), s.disk);
  }

  lemma FinalStep(c: Config, s: State, h: nat, e: FinalEvent)
    requires All(s) && FinalEnabled(c, s, h, e)
    ensures Inv(Finalise(c, s, h, e))
  {
    FinaliseAdvances(c, s, h, e);
    FinalDisk(s, h, NextFinaliser(c, s, h, e), EffectOf(s.finals[h], e));
    FinalRest(s, h, NextFinaliser(c, s, h, e), EffectOf(s.finals[h], e));
  }

  lemma DropStep(s: State, p: Place)
    requires Inv(s)
    ensures Inv(s.(disk := s.disk - {p}))
  {
  }

  /** Every action of every actor keeps the invariant. */
  lemma Step(c: Config, s: State, l: Label)
    requires All(s) && Enabled(c, s, l)
    requires l.OnMessage? && l.call.Report? ==> E1(l.call.v) && E2(s, l.call.v) && E3(s, l.call.v)
    ensures All(Apply(c, s, l))
  {
    Ownership.Step(c, s, l);
    match l
    case OnMessage(k) => CallStep(s, k);
    case OnCapture(k) => CaptureStep(s, k);
    case OnFinal(h, e) => FinalStep(c, s, h, e);
    case DropParked(p, _) => DropStep(s, p);
    case Crash =>
  }
}
