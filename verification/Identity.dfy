/** Under E1: every directory holds one job, and a frame lands in its own job's directory. */
module Identity {
  import opened Basics
  import opened Sessions
  import opened Protocol
  import BasicInvariant

  /** id names the directory called name. */
  ghost predicate Names(id: string, name: string) {
    Kept(id) && DirName(id) == name
  }

  /** The picture was triggered for the job that the directory called name belongs to, and
      by a report that named that job or none. */
  ghost predicate Belongs(x: Still, name: string)
    requires x.Photo?
  {
    Names(x.owner, name) && (x.job == "" || x.job == x.owner)
  }

  /** A folder called name holds one job's records and pictures. */
  ghost predicate OneJob(f: Folder, name: string) {
    && (f.state.Some? ==> Names(f.state.value.taskID, name))
    && (f.temp.Some? ==> Names(f.temp.value.taskID, name))
    && (forall n | n in f.stills :: f.stills[n].Photo? ==> Belongs(f.stills[n], name))
  }

  ghost predicate OpenNamed(o: Open) {
    Names(o.sess.taskID, o.dir.name)
  }

  /** The merged id is blank or the id of the session the callback is working on. */
  ghost predicate Agrees(s: State, h: nat)
    requires h < |s.open|
  {
    s.view.taskID == "" || s.view.taskID == s.open[h].sess.taskID
  }

  ghost predicate CallbackInv(s: State) {
    match s.cb
    case Recording(h) => h < |s.open| && Agrees(s, h)
    case Saving(h, _) => h < |s.open| && Agrees(s, h)
    case Shooting(h, _) => h < |s.open| && Agrees(s, h)
    case Creating(made) => Kept(made.taskID) && made.taskID == s.view.taskID
    case _ => true
  }

  ghost predicate ShotInv(s: State) {
    && (s.shot.Delayed? || s.shot.Grabbing? || s.shot.Landed? ==>
          s.shot.h < |s.open| && s.shot.owner == s.open[s.shot.h].sess.taskID
          && (s.shot.job == "" || s.shot.job == s.shot.owner))
    && (s.shot.Grabbing? ==> s.shot.h < |s.open| && s.shot.dest.name == s.open[s.shot.h].dir.name)
  }

  /** Every session this process opened is held by somebody: the callback's queue, `current`
      or a finaliser. While the startup pass runs, no two of them are the same job. */
  ghost predicate Held(s: State) {
    && (forall h: nat | h < |s.open| ::
          s.current == Some(h) || h in s.finals || (s.cb.Settling? && h in s.cb.queue))
    && (s.cb.Settling? ==> Distinct(s.open))
    && (s.cb.Settling? && s.current.Some? ==>
          s.current.value < |s.open| && s.open[s.current.value].sess.taskID == s.view.taskID)
  }

  ghost predicate Distinct(open: seq<Open>) {
    forall i, j | 0 <= i < j < |open| :: open[i].sess.taskID != open[j].sess.taskID
  }

  ghost predicate DiskNamed(disk: Disk) {
    forall p | p in disk :: OneJob(disk[p], p.name)
  }

  ghost predicate AllNamed(open: seq<Open>) {
    forall h: nat | h < |open| :: OpenNamed(open[h])
  }

  ghost predicate Inv(s: State) {
    && (s.view.taskID == "" || Kept(s.view.taskID))
    && DiskNamed(s.disk)
    && AllNamed(s.open)
    && CallbackInv(s)
    && ShotInv(s)
    && Held(s)
  }

  ghost predicate Both(s: State) { BasicInvariant.Inv(s) && Inv(s) }

  lemma HearStep(s: State, v: View)
    requires Inv(s) && s.cb.Waiting? && (v.taskID == "" || Kept(v.taskID))
    ensures Inv(Hear(s, v))
  {
  }

  /** Reconcile reads every directory once, so what it loads are different jobs. */
  lemma LoadedDistinct(disk: Disk, order: seq<string>)
    requires DiskNamed(disk) && Listing(disk, order)
    ensures AllNamed(Loaded(disk, order)) && Distinct(Loaded(disk, order))
  {
  }

  lemma ListStep(s: State, order: seq<string>)
    requires Both(s) && s.cb.Merged? && Listing(s.disk, order)
    ensures Inv(ListAll(s, order))
  {
    var t := ListAll(s, order);
    LoadedDistinct(s.disk, order);
    assert t.open == Loaded(s.disk, order);
    forall h: nat | h < |t.open|
      ensures h in t.cb.queue
    {
      assert t.cb.queue[h] == h;
    }
  }

  lemma SettleStep(s: State)
    requires Both(s) && s.cb.Settling?
    ensures Inv(SettleOne(s))
  {
    if s.cb.queue != [] {
      var q := s.cb.queue[0];
      assert forall h | h in s.cb.queue :: h == q || h in s.cb.queue[1..];
      assert s.current.Some? ==> s.open[q].sess.taskID != s.view.taskID;
    }
  }

  lemma HandleHeld(s: State)
    requires Held(s) && s.cb.Handling?
    requires s.current.Some? ==> s.current.value < |s.open|
    ensures Held(HandleView(s))
  {
  }

  lemma HandleStep(s: State)
    requires Inv(s) && s.cb.Handling?
    requires s.current.Some? ==> s.current.value < |s.open|
    ensures Inv(HandleView(s))
  {
    HandleHeld(s);
  }

  lemma BeginStep(s: State, mkdir: bool, wrote: bool, now: int)
    requires Both(s) && s.cb.Beginning?
    ensures Inv(BeginJob(s, mkdir, wrote, now))
  {
    var t := BeginJob(s, mkdir, wrote, now);
    var dir := Staged(DirName(s.view.taskID));
    if s.view.taskID != "" && dir in s.disk && s.disk[dir].state.Some? {
      assert OneJob(s.disk[dir], dir.name);
      DirNameInjective(s.view.taskID, s.disk[dir].state.value.taskID);
    }
  }

  lemma CreateStep(s: State, ok: bool)
    requires Both(s) && s.cb.Creating?
    requires ok ==> CanRename(s.disk, Staged(DirName(s.cb.made.taskID)))
    ensures Inv(FinishCreate(s, ok))
  {
  }

  lemma RecordHeld(s: State, wrote: bool)
    requires CallbackInv(s) && ShotInv(s) && Held(s) && s.cb.Recording?
    requires wrote ==> s.open[s.cb.h].dir in s.disk
    ensures var t := RecordView(s, wrote); CallbackInv(t) && ShotInv(t) && Held(t) && t.view == s.view
  {
  }

  lemma RecordNamed(s: State, wrote: bool)
    requires DiskNamed(s.disk) && AllNamed(s.open) && s.cb.Recording? && s.cb.h < |s.open|
    requires wrote ==> s.open[s.cb.h].dir in s.disk
    ensures var t := RecordView(s, wrote); DiskNamed(t.disk) && AllNamed(t.open)
  {
  }

  lemma RecordStep(s: State, wrote: bool)
    requires Inv(s) && s.cb.Recording? && !s.shot.Storing?
    requires wrote ==> s.open[s.cb.h].dir in s.disk
    ensures Inv(RecordView(s, wrote))
  {
    RecordHeld(s, wrote);
    RecordNamed(s, wrote);
  }

  lemma SaveStep(s: State, ok: bool)
    requires Inv(s) && s.cb.Saving? && (ok ==> CanRename(s.disk, s.open[s.cb.h].dir))
    ensures Inv(FinishSave(s, ok))
  {
  }

  lemma ShootStep(s: State, room: bool)
    requires Inv(s) && s.cb.Shooting?
    ensures Inv(StartShot(s, room))
  {
  }

  lemma AimStep(s: State)
    requires Both(s) && s.shot.Delayed?
    ensures Inv(TakeAim(s))
  {
  }

  lemma ScribbleStep(s: State)
    requires Both(s) && s.shot.Grabbing? && s.shot.dest in s.disk
    ensures Inv(s.(disk := WithStill(s.disk, s.shot.dest, s.shot.index, Blurred)))
  {
  }

  lemma GrabStep(s: State)
    requires Both(s) && s.shot.Grabbing? && s.shot.dest in s.disk
    ensures Inv(FinishGrab(s))
  {
  }

  lemma MissStep(s: State, removed: bool)
    requires Inv(s) && s.shot.Grabbing?
    ensures Inv(FailGrab(s, removed))
  {
  }

  lemma CommitStep(s: State, wrote: bool)
    requires Inv(s) && s.shot.Landed? && !s.cb.Saving?
    requires wrote ==> s.open[s.shot.h].dir in s.disk
    ensures Inv(CommitShot(s, wrote))
  {
  }

  lemma StoreStep(s: State, ok: bool)
    requires Inv(s) && s.shot.Storing? && s.shot.h < |s.open| && (ok ==> CanRename(s.disk, s.open[s.shot.h].dir))
    ensures Inv(FinishCommit(s, ok))
  {
  }

  lemma FinalStep(s: State, h: nat, g: Finaliser, x: Effect)
    requires Inv(s) && CanAdvance(s, h, g, x)
    ensures Inv(Advance(s, h, g, x))
  {
  }

  lemma CallStep(s: State, k: CallStep)
    requires Both(s) && CallEnabled(s, k)
    requires k.Report? ==> E1(k.v)
    ensures Inv(Call(s, k))
  {
    match k
    case Report(v) => HearStep(s, v);
    case List(order) => ListStep(s, order);
    case ListFails =>
    case Settle => SettleStep(s);
    case Handle => HandleStep(s);
    case Begin(mkdir, wrote, now) => BeginStep(s, mkdir, wrote, now);
    case CreateRename(ok) => CreateStep(s, ok);
    case Record(wrote) => RecordStep(s, wrote);
    case SaveRename(ok) => SaveStep(s, ok);
    case Shoot(room) => ShootStep(s, room);
  }

  lemma CaptureStep(s: State, k: ShotStep)
    requires Both(s) && ShotEnabled(s, k)
    ensures Inv(Capture(s, k))
  {
    match k
    case Aim => AimStep(s);
    case Scribble => ScribbleStep(s);
    case GrabOk => GrabStep(s);
    case GrabFail(removed) => MissStep(s, removed);
    case Abandon | Leave =>
    case Commit(wrote) => CommitStep(s, wrote);
    case CommitRename(ok) => StoreStep(s, ok);
  }

  /** Every action of every actor keeps the invariant. */
  lemma Step(c: Config, s: State, l: Label)
    requires Both(s) && Enabled(c, s, l)
    requires l.OnMessage? && l.call.Report? ==> E1(l.call.v)
    ensures Both(Apply(c, s, l))
  {
    BasicInvariant.Step(c, s, l);
    match l
    case OnMessage(k) => CallStep(s, k);
    case OnCapture(k) => CaptureStep(s, k);
    case OnFinal(h, e) =>
      FinaliseAdvances(c, s, h, e);
      FinalStep(s, h, NextFinaliser(c, s, h, e), EffectOf(s.finals[h], e));
    case DropParked(_, _) =>
    case Crash =>
  }
}
