/** Under E1 to E3: no job is held twice, and what is held is what the disk says. */
module Ownership {
  import opened Basics
  import opened Sessions
  import opened Protocol
  import BasicInvariant
  import Identity

  ghost predicate Known(e: Printer, id: string) {
    id in e.over || e.live == Some(id)
  }

  /** This report takes the current job away from the job called id. */
  ghost predicate Released(v: View, id: string) {
    Ended(v.gcode) || (v.gcode.Running? && v.taskID != "" && v.taskID != id)
  }

  function IdOf(s: State, h: nat): string
    requires h < |s.open|
  {
    s.open[h].sess.taskID
  }

  ghost predicate CurrentInv(s: State) {
    s.current.Some? && s.current.value < |s.open| ==>
      if s.cb.Handling? && Released(s.view, IdOf(s, s.current.value))
      then IdOf(s, s.current.value) in s.printer.over
      else s.printer.live == Some(IdOf(s, s.current.value))
  }

  ghost predicate MidReport(cb: Callback) {
    cb.Merged? || cb.Settling? || cb.Handling? || cb.Beginning? || cb.Creating?
  }

  /** While a report is being dealt with, the job it names is the live one. */
  ghost predicate ViewInv(s: State) {
    && (MidReport(s.cb) && s.view.gcode.Running? && s.view.taskID != ""
        ==> s.printer.live == Some(s.view.taskID))
    && (s.cb.Merged? || s.cb.Settling?
        ==> s.printer.live == if Printing(s.view.gcode) then Some(s.view.taskID) else None)
  }

  ghost predicate QueueInv(s: State) {
    s.cb.Settling? ==>
      forall i | 0 <= i < |s.cb.queue| && s.cb.queue[i] < |s.open| :: Known(s.printer, IdOf(s, s.cb.queue[i]))
  }

  /** The jobs in hand: pairwise different, the current one live, the released ones over. */
  ghost predicate Jobs(s: State) {
    && (s.printer.live.Some? ==> s.printer.live.value !in s.printer.over)
    && Identity.Distinct(s.open)
    && (forall h | h in s.finals && h < |s.open| :: IdOf(s, h) in s.printer.over)
    && CurrentInv(s)
    && ViewInv(s)
    && QueueInv(s)
  }

  ghost predicate FolderKnown(e: Printer, p: Place, f: Folder) {
    && (f.state.Some? ==> Known(e, f.state.value.taskID))
    && (f.temp.Some? ==> Known(e, f.temp.value.taskID))
    && (p.Parked? ==> f.state.Some? && f.state.value.taskID in e.over)
  }

  ghost predicate Folders(e: Printer, disk: Disk) {
    forall p | p in disk :: FolderKnown(e, p, disk[p])
  }

  /** An open session's directory, while it exists, is a session's; only a finaliser that is
      done has a session elsewhere, and it leaves nothing staged. */
  ghost predicate OpenPlaced(o: Open, gone: bool, disk: Disk) {
    && (o.dir in disk ==> disk[o.dir].state.Some?)
    && (o.dir.Parked? ==> gone)
    && (gone ==> Staged(o.dir.name) !in disk)
  }

  ghost predicate IsGone(s: State, h: nat) {
    h in s.finals && s.finals[h].phase.Gone?
  }

  ghost predicate Placed(s: State) {
    forall h: nat | h < |s.open| :: OpenPlaced(s.open[h], IsGone(s, h), s.disk)
  }

  ghost predicate Inv(s: State) {
    && Jobs(s)
    && Folders(s.printer, s.disk)
    && Placed(s)
  }

  ghost predicate All(s: State) { Identity.Both(s) && Inv(s) }

  // ---------------------------------------------------------------- the callback

  lemma HearStep(s: State, v: View)
    requires BasicInvariant.Inv(s) && Jobs(s) && s.cb.Waiting? && E2(s, v) && E3(s, v)
    ensures Jobs(Hear(s, v))
  {
  }

  lemma HeardKnown(e: Printer, first: bool, v: View, disk: Disk)
    requires Folders(e, disk)
    ensures Folders(Heard(e, first, v), disk)
  {
  }

  lemma ListStep(s: State, order: seq<string>)
    requires All(s) && s.cb.Merged? && Listing(s.disk, order)
    ensures Inv(ListAll(s, order))
  {
    Identity.ListStep(s, order);
    var t := ListAll(s, order);
    assert s.open == [];
    forall h: nat | h < |t.open|
      ensures OpenPlaced(t.open[h], IsGone(t, h), t.disk) && Known(t.printer, IdOf(t, h))
    {
      assert Listable(s.disk, order[h]);
      assert FolderKnown(s.printer, Staged(order[h]), s.disk[Staged(order[h])]);
    }
  }

  lemma SettleJobs(s: State)
    requires BasicInvariant.Inv(s) && Jobs(s) && s.cb.Settling?
    ensures Jobs(SettleOne(s))
  {
    if s.cb.queue != [] {
      assert Known(s.printer, IdOf(s, s.cb.queue[0]));
      assert forall i | 0 <= i < |s.cb.queue| - 1 :: s.cb.queue[1..][i] == s.cb.queue[i + 1];
    }
  }

  lemma SettlePlaced(s: State)
    requires BasicInvariant.Inv(s) && Placed(s) && s.cb.Settling?
    ensures Placed(SettleOne(s))
  {
  }

  lemma SettleStep(s: State)
    requires BasicInvariant.Inv(s) && Inv(s) && s.cb.Settling?
    ensures Inv(SettleOne(s))
  {
    SettleJobs(s);
    SettlePlaced(s);
    SettleFolders(s);
  }

  lemma SettleFolders(s: State)
    requires Folders(s.printer, s.disk) && s.cb.Settling? && (s.cb.queue != [] ==> s.cb.queue[0] < |s.open|)
    ensures Folders(SettleOne(s).printer, SettleOne(s).disk)
  {
  }

  lemma HandleStep(s: State)
    requires BasicInvariant.Inv(s) && Jobs(s) && s.cb.Handling?
    ensures Jobs(HandleView(s))
  {
  }

  lemma HandlePlaced(s: State)
    requires BasicInvariant.Inv(s) && Placed(s) && s.cb.Handling?
    ensures Placed(HandleView(s))
  {
  }

  /** A new session is for the live job, and every session already open is over. */
  lemma NewcomerDistinct(s: State, id: string)
    requires BasicInvariant.Inv(s) && Identity.Held(s) && Jobs(s)
    requires (s.cb.Beginning? || s.cb.Creating?) && s.printer.live == Some(id)
    ensures forall h: nat | h < |s.open| :: h in s.finals && IdOf(s, h) != id
  {
  }

  /** A directory with the live job's name is not parked. */
  lemma LiveNotParked(e: Printer, disk: Disk, p: Place, id: string)
    requires Folders(e, disk) && p in disk && Identity.OneJob(disk[p], p.name)
    requires e.live == Some(id) && id !in e.over && Kept(id) && p.name == DirName(id)
    ensures p.Staged?
  {
    assert FolderKnown(e, p, disk[p]);
    if p.Parked? {
      DirNameInjective(id, disk[p].state.value.taskID);
    }
  }

  /** No open session uses the directory of a job that is not open. */
  lemma NewcomerApart(s: State, id: string)
    requires Identity.Both(s) && Kept(id)
    requires forall h: nat | h < |s.open| :: IdOf(s, h) != id
    ensures forall h: nat | h < |s.open| :: s.open[h].dir.name != DirName(id)
  {
    forall h: nat | h < |s.open|
      ensures s.open[h].dir.name != DirName(id)
    {
      assert Identity.OpenNamed(s.open[h]);
      DirNameInjective(id, IdOf(s, h));
    }
  }

  /** The callback opens a session for the live job: all of `begin` that others can see. */
  lemma Newcomer(s: State, t: State, o: Open)
    requires All(s) && (s.cb.Beginning? || s.cb.Creating?)
    requires s.printer.live == Some(o.sess.taskID) && o.dir == Staged(DirName(o.sess.taskID)) && Kept(o.sess.taskID)
    requires t == s.(disk := t.disk, open := s.open + [o], current := Some(|s.open|), cb := Recording(|s.open|))
    requires o.dir in t.disk && t.disk[o.dir].state.Some?
    requires forall p | p != o.dir :: p in t.disk ==> p in s.disk && t.disk[p] == s.disk[p]
    ensures Jobs(t) && Placed(t)
  {
    NewcomerDistinct(s, o.sess.taskID);
    NewcomerApart(s, o.sess.taskID);
    forall h: nat | h < |t.open|
      ensures OpenPlaced(t.open[h], IsGone(t, h), t.disk)
    {
      if h < |s.open| {
        assert OpenPlaced(s.open[h], IsGone(s, h), s.disk);
      }
    }
  }

  lemma ReopenStep(s: State, mkdir: bool, wrote: bool, now: int)
    requires All(s) && s.cb.Beginning? && s.view.taskID != ""
    requires var dir := Staged(DirName(s.view.taskID)); dir in s.disk && s.disk[dir].state.Some?
    ensures Inv(BeginJob(s, mkdir, wrote, now))
  {
    var id, dir := s.view.taskID, Staged(DirName(s.view.taskID));
    assert FolderKnown(s.printer, dir, s.disk[dir]);
    assert Identity.OneJob(s.disk[dir], dir.name);
    DirNameInjective(id, s.disk[dir].state.value.taskID);
    Newcomer(s, BeginJob(s, mkdir, wrote, now), Open(s.disk[dir].state.value, dir));
  }

  lemma BeginStep(s: State, mkdir: bool, wrote: bool, now: int)
    requires All(s) && s.cb.Beginning?
    ensures Inv(BeginJob(s, mkdir, wrote, now))
  {
    var id := s.view.taskID;
    var dir := Staged(DirName(id));
    if id != "" && dir in s.disk && s.disk[dir].state.Some? {
      ReopenStep(s, mkdir, wrote, now);
    } else if id != "" && mkdir {
      if dir in s.disk {
        assert FolderKnown(s.printer, dir, s.disk[dir]);
        assert Identity.OneJob(s.disk[dir], dir.name);
      }
      NewcomerDistinct(s, id);
      NewcomerApart(s, id);
    }
  }

  lemma CreateStep(s: State, ok: bool)
    requires All(s) && s.cb.Creating?
    requires ok ==> CanRename(s.disk, Staged(DirName(s.cb.made.taskID)))
    ensures Inv(FinishCreate(s, ok))
  {
    var dir := Staged(DirName(s.cb.made.taskID));
    if ok {
      assert FolderKnown(s.printer, dir, s.disk[dir]);
      Newcomer(s, FinishCreate(s, ok), Open(s.cb.made, dir));
    }
  }

  // ---------------------------------------------------------------- saves and frames

  /** Saving a held session, or publishing what was saved, claims no new directory. */
  ghost predicate SameClaims(s: State, t: State) {
    && |t.open| == |s.open|
    && (forall h: nat | h < |s.open| :: t.open[h].dir == s.open[h].dir && IdOf(t, h) == IdOf(s, h))
    && t.disk.Keys == s.disk.Keys
    && (forall p | p in s.disk && s.disk[p].state.Some? :: t.disk[p].state.Some?)
    && t.finals == s.finals
    && t.printer == s.printer
  }

  lemma ClaimsPlaced(s: State, t: State)
    requires Placed(s) && SameClaims(s, t)
    ensures Placed(t)
  {
  }

  lemma ClaimsJobs(s: State, t: State)
    requires BasicInvariant.Inv(s) && Jobs(s) && SameClaims(s, t)
    requires t.current == s.current && t.view == s.view
    requires t.cb == s.cb || (!MidReport(t.cb) && !MidReport(s.cb))
    ensures Jobs(t)
  {
  }

  lemma RenamedKnown(e: Printer, disk: Disk, p: Place)
    requires Folders(e, disk) && CanRename(disk, p) && Identity.OneJob(disk[p], p.name)
    ensures Folders(e, Renamed(disk, p))
  {
    assert FolderKnown(e, p, disk[p]);
    if p.Parked? {
      DirNameInjective(disk[p].state.value.taskID, disk[p].temp.value.taskID);
    }
  }

  lemma WrittenKnown(e: Printer, disk: Disk, p: Place, x: Session)
    requires Folders(e, disk) && p in disk && Known(e, x.taskID)
    ensures Folders(e, Written(disk, p, x))
  {
  }

  lemma HeldKnown(s: State, h: nat)
    requires BasicInvariant.Inv(s) && Identity.Held(s) && Jobs(s) && h < |s.open|
    ensures Known(s.printer, IdOf(s, h))
  {
  }

  lemma RecordClaims(s: State, wrote: bool)
    requires s.cb.Recording? && s.cb.h < |s.open| && (wrote ==> s.open[s.cb.h].dir in s.disk)
    ensures var t := RecordView(s, wrote);
      && SameClaims(s, t) && t.current == s.current && t.view == s.view && !MidReport(t.cb)
      && (t.disk == s.disk || (wrote && t.disk == Written(s.disk, s.open[s.cb.h].dir, t.open[s.cb.h].sess)))
  {
  }

  lemma RecordStep(s: State, wrote: bool)
    requires All(s) && s.cb.Recording? && !s.shot.Storing?
    requires wrote ==> s.open[s.cb.h].dir in s.disk
    ensures Inv(RecordView(s, wrote))
  {
    var t := RecordView(s, wrote);
    HeldKnown(s, s.cb.h);
    RecordClaims(s, wrote);
    if wrote {
      WrittenKnown(s.printer, s.disk, s.open[s.cb.h].dir, t.open[s.cb.h].sess);
    }
    ClaimsJobs(s, t);
    ClaimsPlaced(s, t);
  }

  lemma SaveStep(s: State, ok: bool)
    requires All(s) && s.cb.Saving? && (ok ==> CanRename(s.disk, s.open[s.cb.h].dir))
    ensures Inv(FinishSave(s, ok))
  {
    var t := FinishSave(s, ok);
    if ok {
      RenamedKnown(s.printer, s.disk, s.open[s.cb.h].dir);
    }
    ClaimsJobs(s, t);
    ClaimsPlaced(s, t);
  }

  lemma ShootStep(s: State, room: bool)
    requires All(s) && s.cb.Shooting?
    ensures Inv(StartShot(s, room))
  {
  }

  lemma CommitStep(s: State, wrote: bool)
    requires All(s) && s.shot.Landed? && !s.cb.Saving?
    requires wrote ==> s.open[s.shot.h].dir in s.disk
    ensures SameClaims(s, CommitShot(s, wrote))
    ensures Folders(s.printer, CommitShot(s, wrote).disk)
  {
    HeldKnown(s, s.shot.h);
    if wrote {
      WrittenKnown(s.printer, s.disk, s.open[s.shot.h].dir, Counted(s.open[s.shot.h].sess, s.shot.layer));
    }
  }

  lemma StoreStep(s: State, ok: bool)
    requires All(s) && s.shot.Storing? && (ok ==> CanRename(s.disk, s.open[s.shot.h].dir))
    ensures SameClaims(s, FinishCommit(s, ok))
    ensures Folders(s.printer, FinishCommit(s, ok).disk)
  {
    if ok {
      RenamedKnown(s.printer, s.disk, s.open[s.shot.h].dir);
    }
  }

  lemma ReportStep(s: State, v: View)
    requires All(s) && s.cb.Waiting? && E2(s, v) && E3(s, v)
    ensures Inv(Hear(s, v))
  {
    HearStep(s, v);
    HeardKnown(s.printer, !s.reconciled, v, s.disk);
  }

  lemma CallStep(s: State, k: CallStep)
    requires All(s) && CallEnabled(s, k)
    requires k.Report? ==> E2(s, k.v) && E3(s, k.v)
    ensures Inv(Call(s, k))
  {
    match k
    case Report(v) => ReportStep(s, v);
    case List(order) => ListStep(s, order);
    case ListFails =>
    case Settle => SettleStep(s);
    case Handle => HandleStep(s); HandlePlaced(s);
    case Begin(mkdir, wrote, now) => BeginStep(s, mkdir, wrote, now);
    case CreateRename(ok) => CreateStep(s, ok);
    case Record(wrote) => RecordStep(s, wrote);
    case SaveRename(ok) => SaveStep(s, ok);
    case Shoot(room) => ShootStep(s, room);
  }

  lemma StillClaims(s: State, t: State, p: Place)
    requires Folders(s.printer, s.disk) && p in s.disk
    requires p in t.disk && t == s.(disk := s.disk[p := s.disk[p].(stills := t.disk[p].stills)], shot := t.shot)
    ensures SameClaims(s, t) && Folders(s.printer, t.disk)
  {
  }

  lemma GrabClaims(s: State, k: ShotStep)
    requires All(s) && ShotEnabled(s, k) && s.shot.Grabbing?
    ensures SameClaims(s, Capture(s, k))
    ensures Folders(s.printer, Capture(s, k).disk)
  {
    if s.shot.dest in Capture(s, k).disk && s.shot.dest in s.disk {
      StillClaims(s, Capture(s, k), s.shot.dest);
    }
  }

  lemma CaptureClaims(s: State, k: ShotStep)
    requires All(s) && ShotEnabled(s, k)
    ensures SameClaims(s, Capture(s, k))
    ensures Folders(s.printer, Capture(s, k).disk)
  {
    match k
    case Commit(wrote) => CommitStep(s, wrote);
    case CommitRename(ok) => StoreStep(s, ok);
    case Scribble | GrabOk | GrabFail(_) => GrabClaims(s, k);
    case Aim | Abandon | Leave =>
  }

  lemma CaptureStep(s: State, k: ShotStep)
    requires All(s) && ShotEnabled(s, k)
    ensures Inv(Capture(s, k))
  {
    CaptureClaims(s, k);
    var t := Capture(s, k);
    assert t.current == s.current && t.view == s.view && t.cb == s.cb;
    ClaimsJobs(s, t);
    ClaimsPlaced(s, t);
  }

  // ---------------------------------------------------------------- finalisers

  /** Two open sessions never share a directory name. */
  lemma OpenApart(s: State, h: nat, k: nat)
    requires Identity.Both(s) && Jobs(s) && h < |s.open| && k < |s.open| && h != k
    ensures s.open[h].dir.name != s.open[k].dir.name
  {
    assert Identity.OpenNamed(s.open[h]) && Identity.OpenNamed(s.open[k]);
    DirNameInjective(IdOf(s, h), IdOf(s, k));
  }

  lemma FinalPlaced(s: State, h: nat, g: Finaliser, x: Effect)
    requires All(s) && CanAdvance(s, h, g, x)
    ensures Placed(Advance(s, h, g, x))
  {
    var t := Advance(s, h, g, x);
    assert OpenPlaced(s.open[h], IsGone(s, h), s.disk);
    forall k: nat | k < |t.open|
      ensures OpenPlaced(t.open[k], IsGone(t, k), t.disk)
    {
      assert OpenPlaced(s.open[k], IsGone(s, k), s.disk);
      if k != h {
        OpenApart(s, h, k);
      }
    }
  }

  lemma FinalFolders(s: State, h: nat, g: Finaliser, x: Effect)
    requires All(s) && CanAdvance(s, h, g, x)
    ensures Folders(s.printer, Advance(s, h, g, x).disk)
  {
    var dir := s.open[h].dir;
    assert OpenPlaced(s.open[h], IsGone(s, h), s.disk);
    if dir in s.disk {
      assert FolderKnown(s.printer, dir, s.disk[dir]);
      assert Identity.OneJob(s.disk[dir], dir.name) && Identity.OpenNamed(s.open[h]);
      DirNameInjective(s.disk[dir].state.value.taskID, IdOf(s, h));
    }
  }

  lemma FinalJobs(s: State, h: nat, g: Finaliser, x: Effect)
    requires BasicInvariant.Inv(s) && Jobs(s) && CanAdvance(s, h, g, x)
    ensures Jobs(Advance(s, h, g, x))
  {
    var t := Advance(s, h, g, x);
    AdvanceFinals(s, h, g, x);
    assert forall k: nat | k < |s.open| :: IdOf(t, k) == IdOf(s, k);
    assert Identity.Distinct(t.open);
  }

  lemma FinalStep(c: Config, s: State, h: nat, e: FinalEvent)
    requires All(s) && FinalEnabled(c, s, h, e)
    ensures Inv(Finalise(c, s, h, e))
  {
    FinaliseAdvances(c, s, h, e);
    var g, x := NextFinaliser(c, s, h, e), EffectOf(s.finals[h], e);
    FinalPlaced(s, h, g, x);
    FinalFolders(s, h, g, x);
    FinalJobs(s, h, g, x);
  }

  lemma DropStep(s: State, p: Place)
    requires All(s) && p.Parked?
    ensures Inv(s.(disk := s.disk - {p}))
  {
  }

  lemma CrashStep(s: State)
    requires All(s)
    ensures Inv(Restarted(s))
  {
  }

  /** Every action of every actor keeps the invariant. */
  lemma Step(c: Config, s: State, l: Label)
    requires All(s) && Enabled(c, s, l)
    requires l.OnMessage? && l.call.Report? ==> E1(l.call.v) && E2(s, l.call.v) && E3(s, l.call.v)
    ensures All(Apply(c, s, l))
  {
    Identity.Step(c, s, l);
    match l
    case OnMessage(k) => CallStep(s, k);
    case OnCapture(k) => CaptureStep(s, k);
    case OnFinal(h, e) => FinalStep(c, s, h, e);
    case DropParked(p, _) => DropStep(s, p);
    case Crash => CrashStep(s);
  }
}
