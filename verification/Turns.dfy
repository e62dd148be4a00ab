/** What one uninterrupted turn of one actor does, as the protocol's steps one after the
    other, and that every such turn is a run of the protocol. */
module Turns {
  import opened Basics
  import opened Sessions
  import opened Protocol
  import BasicInvariant
  import Lifecycle
  import Storage

  const ANY := Assume(false, false, false, false)

  // ---------------------------------------------------------------- runs

  /** The run leads from s to t. */
  ghost predicate Path(c: Config, s: State, run: seq<Label>, t: State) {
    Runs(c, ANY, s, run) && After(c, ANY, s, run) == t
  }

  lemma {:induction false} PathMore(c: Config, s: State, run: seq<Label>, t: State, l: Label)
    requires Path(c, s, run, t) && Enabled(c, t, l)
    ensures Path(c, s, run + [l], Apply(c, t, l))
    decreases |run|
  {
    if run == [] {
      assert (run + [l])[1..] == [];
    } else {
      assert (run + [l])[1..] == run[1..] + [l];
      PathMore(c, Apply(c, s, run[0]), run[1..], t, l);
    }
  }

  lemma {:induction false} PathJoin(c: Config, s: State, run: seq<Label>, t: State, more: seq<Label>, u: State)
    requires Path(c, s, run, t) && Path(c, t, more, u)
    ensures Path(c, s, run + more, u)
    decreases |run|
  {
    if run == [] {
      assert run + more == more;
    } else {
      assert (run + more)[1..] == run[1..] + more;
      PathJoin(c, Apply(c, s, run[0]), run[1..], t, more, u);
    }
  }

  lemma OneStep(c: Config, s: State, l: Label)
    requires Enabled(c, s, l)
    ensures Path(c, s, [l], Apply(c, s, l))
  {
  }

  /** What holds of a process between the turns of its actors. */
  ghost predicate Between(s: State) {
    && s.cb.Waiting? && !s.shot.Storing? && !s.shot.Leaving?
    && (s.current.Some? ==> s.current.value < |s.open|)
    && (!s.shot.Resting? ==> s.shot.h < |s.open|)
    && (forall h | h in s.finals :: h < |s.open|)
  }

  /** Every state a run leads to is one of these once no callback and no commit is under way. */
  lemma ReachedBetween(c: Config, history: seq<Label>, s: State)
    requires Path(c, INITIAL, history, s)
    requires s.cb.Waiting? && !s.shot.Storing? && !s.shot.Leaving?
    ensures Between(s) && BasicInvariant.Inv(s)
  {
    Lifecycle.InitialHolds();
    Lifecycle.RunKeepsBasic(c, ANY, INITIAL, history);
  }

  // ---------------------------------------------------------------- the callback's turn

  /** How the system calls of one callback go. */
  datatype CallLuck = CallLuck(
    entries: Option<seq<string>>, mkdir: bool, created: bool, published: bool, now: int,
    wrote: bool, renamed: bool, room: bool)

  /** The session a report has been noted in. */
  function Noted(x: Session, v: View): Session {
    var noted := if x.totalLayers == 0 then x.(totalLayers := v.total) else x;
    if ChangedLayer(v.layer, x.lastLayer) then noted.(lastLayer := v.layer) else noted
  }

  /** `record` and the rest of `handle`. */
  ghost function RecordTurn(s: State, luck: CallLuck): State
    requires s.cb.Recording? && s.cb.h < |s.open|
  {
    var h := s.cb.h;
    var o := s.open[h];
    var x := Noted(o.sess, s.view);
    var t := s.(open := s.open[h := o.(sess := x)]);
    if !ChangedLayer(s.view.layer, o.sess.lastLayer) then t.(cb := Waiting)
    else
      var saved := Storage.Saved(s.disk, o.dir, x, luck.wrote, luck.renamed);
      StartShot(t.(disk := saved, cb := Shooting(h, s.view.layer)), luck.room)
  }

  ghost function BeginTurn(s: State, luck: CallLuck): State
    requires s.cb.Beginning?
  {
    var t := BeginJob(s, luck.mkdir, luck.created, luck.now);
    if t.cb.Creating? then FinishCreate(t, luck.published) else t
  }

  ghost function HandleTurn(s: State, luck: CallLuck): State
    requires s.cb.Handling? && (s.current.Some? ==> s.current.value < |s.open|)
  {
    var t := HandleView(s);
    var u := if t.cb.Beginning? then BeginTurn(t, luck) else t;
    if u.cb.Recording? then RecordTurn(u, luck) else u
  }

  ghost function SettleTurn(s: State): (t: State)
    requires s.cb.Settling? && forall i | 0 <= i < |s.cb.queue| :: s.cb.queue[i] < |s.open|
    ensures t.cb.Handling? && t.open == s.open
    ensures (s.current.Some? ==> s.current.value < |s.open|) ==> (t.current.Some? ==> t.current.value < |t.open|)
    decreases |s.cb.queue|
  {
    var t := SettleOne(s);
    if s.cb.queue == [] then t else SettleTurn(t)
  }

  ghost function ReconcileTurn(s: State, order: Option<seq<string>>): State
    requires s.cb.Merged?
    requires order.Some? ==> forall i | 0 <= i < |order.value| :: Listable(s.disk, order.value[i])
  {
    if order.None? then s.(reconciled := true, cb := Handling)
    else SettleTurn(ListAll(s, order.value))
  }

  /** One report, from the view it leaves to the end of the callback. */
  ghost function CallbackTurn(s: State, v: View, order: Option<seq<string>>, luck: CallLuck): State
    requires Between(s)
    requires order.Some? ==> forall i | 0 <= i < |order.value| :: Listable(s.disk, order.value[i])
  {
    var t := Hear(s, v);
    var u := if t.cb.Merged? then ReconcileTurn(t, order) else t;
    HandleTurn(u, luck)
  }

  /** Up to the shot: both halves of the save it calls for. */
  lemma RecordSaves(s: State, luck: CallLuck)
    requires s.cb.Recording? && s.cb.h < |s.open| && ChangedLayer(s.view.layer, s.open[s.cb.h].sess.lastLayer)
    ensures var h := s.cb.h; var o := s.open[h]; var x := Noted(o.sess, s.view);
      var t := RecordView(s, luck.wrote && StoredAt(s, h));
      (if t.cb.Saving? then FinishSave(t, luck.renamed) else t)
        == s.(open := s.open[h := o.(sess := x)],
              disk := Storage.Saved(s.disk, o.dir, x, luck.wrote, luck.renamed),
              cb := Shooting(h, s.view.layer))
  {
  }

  lemma RecordPath(c: Config, s: State, luck: CallLuck) returns (run: seq<Label>)
    requires s.cb.Recording? && s.cb.h < |s.open| && !s.shot.Storing?
    ensures Path(c, s, run, RecordTurn(s, luck))
  {
    var wrote := luck.wrote && StoredAt(s, s.cb.h);
    var t := RecordView(s, wrote);
    OneStep(c, s, OnMessage(Record(wrote)));
    run := [OnMessage(Record(wrote))];
    if ChangedLayer(s.view.layer, s.open[s.cb.h].sess.lastLayer) {
      RecordSaves(s, luck);
      if t.cb.Saving? {
        PathMore(c, s, run, t, OnMessage(SaveRename(luck.renamed)));
        run, t := run + [OnMessage(SaveRename(luck.renamed))], FinishSave(t, luck.renamed);
      }
      PathMore(c, s, run, t, OnMessage(Shoot(luck.room)));
      run := run + [OnMessage(Shoot(luck.room))];
    }
  }

  lemma BeginPath(c: Config, s: State, luck: CallLuck) returns (run: seq<Label>)
    requires s.cb.Beginning?
    ensures Path(c, s, run, BeginTurn(s, luck))
  {
    var l := OnMessage(Begin(luck.mkdir, luck.created, luck.now));
    OneStep(c, s, l);
    run := [l];
    var t := BeginJob(s, luck.mkdir, luck.created, luck.now);
    if t.cb.Creating? {
      PathMore(c, s, run, t, OnMessage(CreateRename(luck.published)));
      run := run + [OnMessage(CreateRename(luck.published))];
    }
  }

  lemma BeginFits(s: State, luck: CallLuck)
    requires s.cb.Beginning?
    ensures var t := BeginTurn(s, luck);
      (t.cb.Waiting? || (t.cb.Recording? && t.cb.h < |t.open|)) && t.shot == s.shot
  {
  }

  lemma HandleFits(s: State)
    requires s.cb.Handling? && (s.current.Some? ==> s.current.value < |s.open|)
    ensures var t := HandleView(s);
      (t.cb.Waiting? || t.cb.Beginning? || (t.cb.Recording? && t.cb.h < |t.open|)) && t.shot == s.shot
  {
  }

  lemma HandlePath(c: Config, s: State, luck: CallLuck) returns (run: seq<Label>)
    requires s.cb.Handling? && (s.current.Some? ==> s.current.value < |s.open|) && !s.shot.Storing?
    ensures Path(c, s, run, HandleTurn(s, luck))
  {
    var t := HandleView(s);
    OneStep(c, s, OnMessage(Handle));
    run := [OnMessage(Handle)];
    HandleFits(s);
    if t.cb.Beginning? {
      var more := BeginPath(c, t, luck);
      BeginFits(t, luck);
      PathJoin(c, s, run, t, more, BeginTurn(t, luck));
      run, t := run + more, BeginTurn(t, luck);
    }
    if t.cb.Recording? {
      var more := RecordPath(c, t, luck);
      PathJoin(c, s, run, t, more, RecordTurn(t, luck));
      run := run + more;
    }
  }

  lemma {:induction false} SettlePath(c: Config, s: State) returns (run: seq<Label>)
    requires s.cb.Settling? && forall i | 0 <= i < |s.cb.queue| :: s.cb.queue[i] < |s.open|
    ensures Path(c, s, run, SettleTurn(s)) && SettleTurn(s).shot == s.shot
    decreases |s.cb.queue|
  {
    OneStep(c, s, OnMessage(Settle));
    run := [OnMessage(Settle)];
    if s.cb.queue != [] {
      var t := SettleOne(s);
      var more := SettlePath(c, t);
      PathJoin(c, s, run, t, more, SettleTurn(t));
      run := run + more;
    }
  }

  lemma ReconcilePath(c: Config, s: State, order: Option<seq<string>>) returns (run: seq<Label>)
    requires s.cb.Merged? && (order.Some? ==> Listing(s.disk, order.value))
    ensures Path(c, s, run, ReconcileTurn(s, order)) && ReconcileTurn(s, order).shot == s.shot
  {
    if order.None? {
      OneStep(c, s, OnMessage(ListFails));
      run := [OnMessage(ListFails)];
    } else {
      var t := ListAll(s, order.value);
      OneStep(c, s, OnMessage(List(order.value)));
      var more := SettlePath(c, t);
      PathJoin(c, s, [OnMessage(List(order.value))], t, more, SettleTurn(t));
      run := [OnMessage(List(order.value))] + more;
    }
  }

  /** A callback's turn is a run of the protocol. */
  lemma CallbackPath(c: Config, s: State, v: View, order: Option<seq<string>>, luck: CallLuck) returns (run: seq<Label>)
    requires Between(s) && (order.Some? ==> Listing(s.disk, order.value))
    ensures Path(c, s, run, CallbackTurn(s, v, order, luck))
    ensures run != [] && run[0] == OnMessage(Report(v))
  {
    var t := Hear(s, v);
    OneStep(c, s, OnMessage(Report(v)));
    run := [OnMessage(Report(v))];
    if t.cb.Merged? {
      var more := ReconcilePath(c, t, order);
      PathJoin(c, s, run, t, more, ReconcileTurn(t, order));
      run, t := run + more, ReconcileTurn(t, order);
    }
    var more := HandlePath(c, t, luck);
    PathJoin(c, s, run, t, more, HandleTurn(t, luck));
    run := run + more;
  }

  // ---------------------------------------------------------------- the capture's turns

  /** Up to choosing where the frame goes, or giving up in a shutdown. */
  ghost function AimTurn(s: State, stopped: bool): State
    requires s.shot.Delayed? && s.shot.h < |s.open|
  {
    if stopped then s.(shot := Resting) else TakeAim(s)
  }

  /** The grab; a failed one ends the goroutine. */
  ghost function GrabTurn(s: State, grabbed: bool, removed: bool): State
    requires s.shot.Grabbing?
  {
    if grabbed && s.shot.dest in s.disk then FinishGrab(s) else FailGrab(s, removed).(shot := Resting)
  }

  /** Counting the frame under the lock, and the end of the goroutine. */
  ghost function CommitTurn(s: State, wrote: bool, renamed: bool): State
    requires s.shot.Landed? && s.shot.h < |s.open|
  {
    var o := s.open[s.shot.h];
    var x := Counted(o.sess, s.shot.layer);
    s.(open := s.open[s.shot.h := o.(sess := x)],
       disk := Storage.Saved(s.disk, o.dir, x, wrote, renamed),
       shot := Resting)
  }

  lemma AimPath(c: Config, s: State, stopped: bool) returns (run: seq<Label>)
    requires s.shot.Delayed? && s.shot.h < |s.open|
    ensures Path(c, s, run, AimTurn(s, stopped))
  {
    if stopped {
      OneStep(c, s, OnCapture(Abandon));
      PathMore(c, s, [OnCapture(Abandon)], Capture(s, Abandon), OnCapture(Leave));
      run := [OnCapture(Abandon)] + [OnCapture(Leave)];
    } else {
      OneStep(c, s, OnCapture(Aim));
      run := [OnCapture(Aim)];
    }
  }

  lemma GrabPath(c: Config, s: State, grabbed: bool, removed: bool) returns (run: seq<Label>)
    requires s.shot.Grabbing?
    ensures Path(c, s, run, GrabTurn(s, grabbed, removed))
  {
    if grabbed && s.shot.dest in s.disk {
      OneStep(c, s, OnCapture(GrabOk));
      run := [OnCapture(GrabOk)];
    } else {
      OneStep(c, s, OnCapture(GrabFail(removed)));
      PathMore(c, s, [OnCapture(GrabFail(removed))], FailGrab(s, removed), OnCapture(Leave));
      run := [OnCapture(GrabFail(removed))] + [OnCapture(Leave)];
    }
  }

  lemma CommitPath(c: Config, s: State, wrote: bool, renamed: bool) returns (run: seq<Label>)
    requires s.shot.Landed? && s.shot.h < |s.open| && s.cb.Waiting?
    ensures Path(c, s, run, CommitTurn(s, wrote, renamed))
  {
    var w := wrote && StoredAt(s, s.shot.h);
    var t := CommitShot(s, w);
    OneStep(c, s, OnCapture(Commit(w)));
    run := [OnCapture(Commit(w))];
    if t.shot.Storing? {
      PathMore(c, s, run, t, OnCapture(CommitRename(renamed)));
      run, t := run + [OnCapture(CommitRename(renamed))], FinishCommit(t, renamed);
    }
    PathMore(c, s, run, t, OnCapture(Leave));
    run := run + [OnCapture(Leave)];
  }

  // ---------------------------------------------------------------- a finaliser's turn

  /** How the system calls of one finaliser go. */
  datatype FinalLuck = FinalLuck(
    grabbed: bool, cropped: bool, encoded: bool, answers: seq<PostOutcome>,
    output: bool, moved: bool, coverMoved: bool, parked: bool)

  ghost predicate CanPark(s: State, h: nat, r: Reason) {
    StoredAt(s, h) && Parked(r, s.open[h].dir.name) !in s.disk
  }

  function Answer(luck: FinalLuck, attempt: nat): PostOutcome {
    if 1 <= attempt <= |luck.answers| then luck.answers[attempt - 1] else TryAgain
  }

  ghost function EventOf(s: State, h: nat, luck: FinalLuck): FinalEvent
    requires h in s.finals
  {
    match s.finals[h].phase
    case Draining => if s.shot.Resting? then DrainClear else DrainTimeout
    case Covering => CoverTaken(luck.grabbed, luck.cropped)
    case Judging(_) => Judged
    case Encoding(_) => Encoded(luck.encoded)
    case Posting(attempt) => PostAnswered(Answer(luck, attempt))
    case Opening(_) => OutputReady(luck.output)
    case Moving(_) => VideoMoved(luck.moved)
    case Delivering(_) => CoverMoved(luck.coverMoved)
    case Clearing(_) => Discarded
    case Parking(r) => ParkRenamed(luck.parked && CanPark(s, h, r))
    case Gone => Discarded
  }

  /** How far a finaliser still has to go at most. */
  function Left(p: Phase): nat {
    match p
    case Draining => 20
    case Covering => 19
    case Judging(_) => 18
    case Encoding(_) => 17
    case Posting(attempt) => if attempt < UPLOAD_ATTEMPTS then 10 + UPLOAD_ATTEMPTS - attempt else 10
    case Opening(_) => 9
    case Moving(_) => 8
    case Delivering(_) => 7
    case Clearing(_) => 1
    case Parking(_) => 1
    case Gone => 0
  }

  ghost predicate Finalising(s: State, h: nat) { h in s.finals && h < |s.open| }

  lemma EventEnabled(c: Config, s: State, h: nat, luck: FinalLuck)
    requires Finalising(s, h) && !s.finals[h].phase.Gone?
    ensures FinalEnabled(c, s, h, EventOf(s, h, luck))
  {
  }

  lemma PhaseLeft(c: Config, s: State, h: nat, luck: FinalLuck)
    requires Finalising(s, h) && !s.finals[h].phase.Gone? && FinalEnabled(c, s, h, EventOf(s, h, luck))
    ensures Left(NextPhase(c, s, h, EventOf(s, h, luck))) < Left(s.finals[h].phase)
  {
  }

  lemma Progress(c: Config, s: State, h: nat, luck: FinalLuck)
    requires Finalising(s, h) && !s.finals[h].phase.Gone?
    ensures FinalEnabled(c, s, h, EventOf(s, h, luck))
    ensures var t := Finalise(c, s, h, EventOf(s, h, luck));
      Finalising(t, h) && Left(t.finals[h].phase) < Left(s.finals[h].phase)
  {
    EventEnabled(c, s, h, luck);
    PhaseLeft(c, s, h, luck);
    var e := EventOf(s, h, luck);
    FinaliseAdvances(c, s, h, e);
    AdvanceFinals(s, h, NextFinaliser(c, s, h, e), EffectOf(s.finals[h], e));
  }

  /** A finaliser left alone, from where it is to its end. */
  ghost function FinalTurn(c: Config, s: State, h: nat, luck: FinalLuck): State
    requires Finalising(s, h)
    decreases Left(s.finals[h].phase)
  {
    if s.finals[h].phase.Gone? then s
    else
      Progress(c, s, h, luck);
      FinalTurn(c, Finalise(c, s, h, EventOf(s, h, luck)), h, luck)
  }

  lemma LastStep(c: Config, s: State, h: nat, luck: FinalLuck)
    requires Finalising(s, h) && !s.finals[h].phase.Gone?
    requires var e := EventOf(s, h, luck); FinalEnabled(c, s, h, e) && NextPhase(c, s, h, e).Gone?
    ensures FinalTurn(c, s, h, luck) == Finalise(c, s, h, EventOf(s, h, luck))
    ensures Finalising(FinalTurn(c, s, h, luck), h) && FinalTurn(c, s, h, luck).finals[h].phase.Gone?
  {
  }

  /** It is a run of the protocol, and it ends. */
  lemma {:induction false} FinalPath(c: Config, s: State, h: nat, luck: FinalLuck) returns (run: seq<Label>)
    requires Finalising(s, h)
    ensures Path(c, s, run, FinalTurn(c, s, h, luck))
    ensures var t := FinalTurn(c, s, h, luck); h in t.finals && t.finals[h].phase.Gone?
    decreases Left(s.finals[h].phase)
  {
    if s.finals[h].phase.Gone? {
      run := [];
    } else {
      Progress(c, s, h, luck);
      var l := OnFinal(h, EventOf(s, h, luck));
      OneStep(c, s, l);
      var more := FinalPath(c, Apply(c, s, l), h, luck);
      PathJoin(c, s, [l], Apply(c, s, l), more, FinalTurn(c, s, h, luck));
      run := [l] + more;
    }
  }
}
