/** What holds of every run, whatever the printer reports. */
module BasicInvariant {
  import opened Basics
  import opened Sessions
  import opened Protocol

  /** The layer of the last report, which said RUNNING, has been noted in the session h. */
  ghost predicate Noticed(s: State, h: nat, layer: int) {
    && s.view.gcode.Running? && 0 < layer == s.view.layer
    && h < |s.open| && s.open[h].sess.lastLayer == layer
  }

  /** A callback in the middle of handling a layer is handling the current session's. */
  ghost predicate CallbackInv(s: State) {
    match s.cb
    case Recording(h) => s.current == Some(h) && s.view.gcode.Running?
    case Saving(h, layer) => s.current == Some(h) && Noticed(s, h, layer)
    case Shooting(h, layer) => s.current == Some(h) && Noticed(s, h, layer)
    case Beginning => s.current.None? && s.view.gcode.Running?
    case Creating(_) => s.current.None? && s.view.gcode.Running?
    case Merged => !s.view.gcode.Unreported? && !s.reconciled
    case Settling(queue) =>
      && s.shot.Resting?
      && (forall i | 0 <= i < |queue| :: queue[i] < |s.open| && queue[i] !in s.finals && s.current != Some(queue[i]))
      && (forall i, j | 0 <= i < j < |queue| :: queue[i] != queue[j])
    case _ => true
  }

  /** A capture belongs to the current session or to one already given to a finaliser, and
      the file it writes is the one after its session's last frame. */
  ghost predicate ShotInv(s: State) {
    !s.shot.Resting? ==>
      && s.shot.h < |s.open|
      && (s.current == Some(s.shot.h) || s.shot.h in s.finals)
      && ((s.shot.Grabbing? || s.shot.Landed?) ==> s.shot.index == s.open[s.shot.h].sess.frames + 1)
  }

  /** Nothing is open before the startup pass. */
  ghost predicate Untouched(s: State) {
    && s.open == [] && s.current.None? && s.finals == map[] && s.shot.Resting?
    && (s.cb.Waiting? || s.cb.Merged? || (s.cb.Handling? && s.view.gcode.Unreported?))
  }

  ghost predicate Inv(s: State) {
    && (s.current.Some? ==> s.current.value < |s.open| && s.current.value !in s.finals)
    && (forall h | h in s.finals :: h < |s.open|)
    && CallbackInv(s)
    && ShotInv(s)
    && !(s.cb.Saving? && s.shot.Storing?)
    && (forall h | h in s.finals :: s.finals[h].drained ==> !OnShot(s.shot, h))
    && (!s.reconciled ==> Untouched(s))
  }

  lemma HearStep(s: State, v: View)
    requires Inv(s) && s.cb.Waiting?
    ensures Inv(Hear(s, v))
  {
  }

  lemma ListStep(s: State, order: seq<string>)
    requires Inv(s) && s.cb.Merged? && Listing(s.disk, order)
    ensures Inv(ListAll(s, order))
  {
  }

  lemma SettleStep(s: State)
    requires Inv(s) && s.cb.Settling?
    ensures Inv(SettleOne(s))
  {
    if s.cb.queue != [] {
      var rest := s.cb.queue[1..];
      assert forall i | 0 <= i < |rest| :: rest[i] == s.cb.queue[i + 1];
    }
  }

  lemma HandleStep(s: State)
    requires Inv(s) && s.cb.Handling?
    ensures Inv(HandleView(s))
  {
  }

  lemma BeginStep(s: State, mkdir: bool, wrote: bool, now: int)
    requires Inv(s) && s.cb.Beginning?
    ensures Inv(BeginJob(s, mkdir, wrote, now))
  {
  }

  lemma CreateStep(s: State, ok: bool)
    requires Inv(s) && s.cb.Creating?
    requires ok ==> CanRename(s.disk, Staged(DirName(s.cb.made.taskID)))
    ensures Inv(FinishCreate(s, ok))
  {
  }

  lemma RecordStep(s: State, wrote: bool)
    requires Inv(s) && s.cb.Recording? && !s.shot.Storing?
    requires wrote ==> s.open[s.cb.h].dir in s.disk
    ensures Inv(RecordView(s, wrote))
  {
  }

  lemma SaveStep(s: State, ok: bool)
    requires Inv(s) && s.cb.Saving? && (ok ==> CanRename(s.disk, s.open[s.cb.h].dir))
    ensures Inv(FinishSave(s, ok))
  {
  }

  lemma ShootStep(s: State, room: bool)
    requires Inv(s) && s.cb.Shooting?
    ensures Inv(StartShot(s, room))
  {
  }

  lemma AimStep(s: State)
    requires Inv(s) && s.shot.Delayed?
    ensures Inv(TakeAim(s))
  {
  }

  lemma GrabStep(s: State)
    requires Inv(s) && s.shot.Grabbing? && s.shot.dest in s.disk
    ensures Inv(FinishGrab(s))
  {
  }

  lemma MissStep(s: State, removed: bool)
    requires Inv(s) && s.shot.Grabbing?
    ensures Inv(FailGrab(s, removed))
  {
  }

  lemma CommitStep(s: State, wrote: bool)
    requires Inv(s) && s.shot.Landed? && !s.cb.Saving?
    requires wrote ==> s.open[s.shot.h].dir in s.disk
    ensures Inv(CommitShot(s, wrote))
  {
  }

  lemma StoreStep(s: State, ok: bool)
    requires Inv(s) && s.shot.Storing? && (ok ==> CanRename(s.disk, s.open[s.shot.h].dir))
    ensures Inv(FinishCommit(s, ok))
  {
  }

  lemma FinalStep(s: State, h: nat, g: Finaliser, x: Effect)
    requires Inv(s) && CanAdvance(s, h, g, x)
    ensures Inv(Advance(s, h, g, x))
  {
  }

  lemma CallStep(s: State, k: CallStep)
    requires Inv(s) && CallEnabled(s, k)
    ensures Inv(Call(s, k))
  {
    match k
    case Report(v) => HearStep(s, v);
    case List(order) => ListStep(s, order);
    case ListFails =>
    case Settle => SettleStep(s);
    case Handle => HandleStep(s);
    case Begin(mkdir, wrote, now) => BeginStep(s, mkdir, wrote, now);
    case CreateRename(ok) => CreateStep(s, ok);
    case Record(wrote) => RecordStep(s, wrote);
    case SaveRename(ok) => SaveStep(s, ok);
    case Shoot(room) => ShootStep(s, room);
  }

  lemma CaptureStep(s: State, k: ShotStep)
    requires Inv(s) && ShotEnabled(s, k)
    ensures Inv(Capture(s, k))
  {
    match k
    case Aim => AimStep(s);
    case GrabOk => GrabStep(s);
    case GrabFail(removed) => MissStep(s, removed);
    case Abandon | Scribble | Leave =>
    case Commit(wrote) => CommitStep(s, wrote);
    case CommitRename(ok) => StoreStep(s, ok);
  }

  /** Every action of every actor keeps the invariant. */
  lemma Step(c: Config, s: State, l: Label)
    requires Inv(s) && Enabled(c, s, l)
    ensures Inv(Apply(c, s, l))
  {
    match l
    case OnMessage(k) => CallStep(s, k);
    case OnCapture(k) => CaptureStep(s, k);
    case OnFinal(h, e) =>
      FinaliseAdvances(c, s, h, e);
      FinalStep(s, h, NextFinaliser(c, s, h, e), EffectOf(s.finals[h], e));
    case DropParked(_, _) =>
    case Crash =>
  }
}
