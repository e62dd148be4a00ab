/** Where the guarantees end: what happens when a hypothesis of the theorems does not hold. */
module Limits {
  import opened Basics
  import opened Sessions
  import opened Protocol
  import opened Turns
  import BasicInvariant
  import Drain
  import Exclusive

  // ---------------------------------------------------------------- which report reopens

  /** The report makes a service between two turns begin a job: it says RUNNING, and no job is
      open or the open one is another. */
  predicate Begins(s: State, v: View)
    requires s.current.Some? ==> s.current.value < |s.open|
  {
    v.gcode.Running? &&
    (s.current.None? || (v.taskID != "" && s.open[s.current.value].sess.taskID != v.taskID))
  }

  /** The state in which `begin` is called, if it is. */
  ghost function Handled(s: State, v: View): State
    requires Between(s) && s.reconciled
  {
    HandleView(Hear(s, v))
  }

  /** Exactly which reports reopen: those that begin a job whose directory an unfinished
      session has. The session may be the one this very report supersedes. */
  lemma ReportReopens(s: State, v: View, mkdir: bool, wrote: bool, now: int)
    requires Between(s) && BasicInvariant.Inv(s) && s.reconciled
    ensures Handled(s, v).cb.Beginning? <==> Begins(s, v)
    ensures Begins(s, v) ==>
      (Exclusive.Reopens(Handled(s, v), OnMessage(Begin(mkdir, wrote, now)))
       <==> v.taskID != "" && Exclusive.Taken(s, Staged(DirName(v.taskID))))
  {
    var t := Handled(s, v);
    if Begins(s, v) {
      assert forall h: nat :: Exclusive.Unfinished(t, h) <==> Exclusive.Unfinished(s, h);
    }
  }

  lemma {:induction false} Breaks(c: Config, s: State, run: seq<Label>, t: State, l: Label)
    requires Path(c, s, run, t) && Enabled(c, t, l) && Exclusive.Reopens(t, l)
    ensures Runs(c, ANY, s, run + [l]) && !Exclusive.NeverReopens(c, ANY, s, run + [l])
    decreases |run|
  {
    PathMore(c, s, run, t, l);
    if run == [] {
      assert run + [l] == [l];
    } else {
      assert (run + [l])[1..] == run[1..] + [l];
      Breaks(c, Apply(c, s, run[0]), run[1..], t, l);
    }
  }

  /** A run that comes to such a report is not exclusive. */
  lemma RunBreaks(c: Config, before: seq<Label>, s: State, v: View) returns (run: seq<Label>)
    requires Path(c, INITIAL, before, s) && Between(s) && s.reconciled && Begins(s, v)
    requires v.taskID != "" && Exclusive.Taken(s, Staged(DirName(v.taskID)))
    ensures Runs(c, ANY, INITIAL, run) && !Exclusive.AlwaysApart(c, ANY, INITIAL, run)
  {
    var l := OnMessage(Begin(true, true, 0));
    OneStep(c, s, OnMessage(Report(v)));
    PathJoin(c, INITIAL, before, s, [OnMessage(Report(v))], Hear(s, v));
    var mid := before + [OnMessage(Report(v))];
    PathMore(c, INITIAL, mid, Hear(s, v), OnMessage(Handle));
    ReachedBetween(c, before, s);
    ReportReopens(s, v, true, true, 0);
    Breaks(c, INITIAL, mid + [OnMessage(Handle)], Handled(s, v), l);
    run := mid + [OnMessage(Handle)] + [l];
    Exclusive.ExclusiveExactly(c, ANY, run);
  }

  // ---------------------------------------------------------------- what comes before it

  const LUCK := CallLuck(Some([]), true, true, true, 0, true, true, true)

  /** A job's first report, to a service that has nothing. */
  lemma Opens(v: View) returns (t: State)
    requires v.gcode.Running? && v.taskID != "" && v.layer == 0
    ensures t == CallbackTurn(INITIAL, v, Some([]), LUCK) && Between(t)
    ensures t.reconciled && t.current == Some(0) && t.finals == map[] && |t.open| == 1 && t.shot.Resting?
    ensures t.open[0].dir == Staged(DirName(v.taskID))
    ensures t.open[0].sess.taskID == v.taskID && t.open[0].sess.lastLayer == -1 && t.open[0].sess.frames == 0
    ensures t.disk.Keys == {t.open[0].dir} && t.disk[t.open[0].dir].state == Some(t.open[0].sess)
  {
    var s1 := Hear(INITIAL, v);
    var s2 := ReconcileTurn(s1, Some([]));
    assert s2 == s1.(reconciled := true, cb := Handling, open := []);
    assert HandleView(s2) == s2.(cb := Beginning);
    var s3 := BeginTurn(s2.(cb := Beginning), LUCK);
    t := CallbackTurn(INITIAL, v, Some([]), LUCK);
    assert t == RecordTurn(s3, LUCK);
  }

  /** Its first layer. */
  lemma Shoots(s: State, v: View) returns (t: State)
    requires Between(s) && s.reconciled && s.current == Some(0) && |s.open| == 1 && s.shot.Resting?
    requires v.gcode.Running? && v.taskID == s.open[0].sess.taskID && v.layer == 1 && s.open[0].sess.lastLayer == -1
    requires s.open[0].dir in s.disk
    ensures t == CallbackTurn(s, v, None, LUCK) && Between(t) && t.reconciled && t.current == Some(0)
    ensures t.shot == Delayed(0, 1, v.taskID, v.taskID) && t.finals == s.finals
    ensures |t.open| == 1 && t.open[0].dir == s.open[0].dir && t.open[0].dir in t.disk
  {
    var s1 := Hear(s, v);
    assert HandleView(s1) == s1.(cb := Recording(0));
    t := CallbackTurn(s, v, None, LUCK);
    assert t == RecordTurn(s1.(cb := Recording(0)), LUCK);
  }

  /** Its end. */
  lemma Ends(s: State, v: View)
    requires Between(s) && s.reconciled && s.current.Some? && Ended(v.gcode)
    ensures CallbackTurn(s, v, None, LUCK)
         == Release(s.(view := v, printer := Heard(s.printer, false, v), current := None), s.current.value, false)
  {
  }

  /** The startup pass when the first report names no job: the session on disk goes to a
      finaliser, although its job is still printing. */
  lemma Strands(s: State, v: View, name: string) returns (t: State)
    requires Between(s) && !s.reconciled && s.open == [] && s.current.None? && s.finals == map[]
    requires v.gcode.Running? && v.taskID == ""
    requires Listing(s.disk, [name]) && Listable(s.disk, name) && s.disk[Staged(name)].state.value.taskID != ""
    ensures t == CallbackTurn(s, v, Some([name]), LUCK) && Between(t)
    ensures t.reconciled && t.current.None? && t.disk == s.disk
    ensures 0 in t.finals && t.finals[0].phase.Draining? && |t.open| == 1 && t.open[0].dir == Staged(name)
  {
    var s1 := Hear(s, v);
    var s2 := ListAll(s1, [name]);
    assert s2.cb.queue[0] == 0 && s2.cb.queue[1..] == [];
    var s3 := SettleOne(s2);
    assert s3 == Release(s2.(cb := Settling([])), 0, true);
    assert SettleTurn(s3) == s3.(cb := Handling);
    assert SettleTurn(s2) == SettleTurn(s3);
    t := CallbackTurn(s, v, Some([name]), LUCK);
    assert t == HandleTurn(s3.(cb := Handling), LUCK);
  }

  lemma OnlyJob(s: State, id: string)
    requires s.disk.Keys == {Staged(DirName(id))} && s.disk[Staged(DirName(id))].state.Some?
    ensures Listing(s.disk, [DirName(id)])
  {
  }

  // ---------------------------------------------------------------- without a hypothesis

  /** Without E1: two ids that agree after sanitising, one reported after the other. */
  lemma IdsThatCollide(c: Config, a: string, b: string) returns (run: seq<Label>)
    requires a != b && a != "" && b != "" && DirName(a) == DirName(b)
    ensures Runs(c, ANY, INITIAL, run) && !Exclusive.AlwaysApart(c, ANY, INITIAL, run)
  {
    var on := View(Running, a, 0, 0, "");
    var s := Opens(on);
    var r1 := CallbackPath(c, INITIAL, on, Some([]), LUCK);
    assert Exclusive.Unfinished(s, 0);
    run := RunBreaks(c, r1, s, View(Running, b, 0, 0, ""));
  }

  /** Without E2: a job reported RUNNING, FINISH and RUNNING again. */
  lemma OverAndReportedAgain(c: Config, id: string) returns (run: seq<Label>)
    requires id != ""
    ensures Runs(c, ANY, INITIAL, run) && !Exclusive.AlwaysApart(c, ANY, INITIAL, run)
  {
    var on := View(Running, id, 0, 0, "");
    var off := View(Finish, id, 0, 0, "");
    var s := Opens(on);
    var r1 := CallbackPath(c, INITIAL, on, Some([]), LUCK);
    Ends(s, off);
    var t := CallbackTurn(s, off, None, LUCK);
    var r2 := CallbackPath(c, s, off, None, LUCK);
    PathJoin(c, INITIAL, r1, s, r2, t);
    assert Exclusive.Unfinished(t, 0);
    run := RunBreaks(c, r1 + r2, t, on);
  }

  /** Without E3: after a restart mid-print, a first report that says RUNNING and names no
      job, and then one that does. */
  lemma FirstReportNamesNoJob(c: Config, id: string) returns (run: seq<Label>)
    requires id != ""
    ensures Runs(c, ANY, INITIAL, run) && !Exclusive.AlwaysApart(c, ANY, INITIAL, run)
  {
    var on := View(Running, id, 0, 0, "");
    var unnamed := View(Running, "", 0, 0, "");
    var s := Opens(on);
    var r1 := CallbackPath(c, INITIAL, on, Some([]), LUCK);
    PathMore(c, INITIAL, r1, s, Crash);
    var u := Restarted(s);
    var name := DirName(id);
    OnlyJob(s, id);
    var t := Strands(u, unnamed, name);
    var r2 := CallbackPath(c, u, unnamed, Some([name]), LUCK);
    PathJoin(c, INITIAL, r1 + [Crash], u, r2, t);
    assert Exclusive.Unfinished(t, 0);
    run := RunBreaks(c, r1 + [Crash] + r2, t, on);
  }

  // ---------------------------------------------------------------- a wait that gives up

  /** From the first start: a layer, the end of the job, and a wait that gives up before the
      grab. The finaliser goes on, and its session can still change. */
  lemma TimedOutDrain(c: Config, id: string) returns (before: seq<Label>, late: seq<Label>)
    requires id != ""
    ensures Runs(c, ANY, INITIAL, before) && before != [] && before[|before| - 1] == OnFinal(0, DrainTimeout)
    ensures var s := After(c, ANY, INITIAL, before);
      0 in s.finals && s.finals[0].phase.Covering? && Drain.Changes(c, ANY, s, late, 0)
  {
    var on, layer := View(Running, id, 0, 0, ""), View(Running, id, 1, 0, "");
    var off := View(Finish, id, 0, 0, "");
    var s := Opens(on);
    var r1 := CallbackPath(c, INITIAL, on, Some([]), LUCK);
    var t := Shoots(s, layer);
    var r2 := CallbackPath(c, s, layer, None, LUCK);
    PathJoin(c, INITIAL, r1, s, r2, t);
    Ends(t, off);
    var u := CallbackTurn(t, off, None, LUCK);
    var r3 := CallbackPath(c, t, off, None, LUCK);
    PathJoin(c, INITIAL, r1 + r2, t, r3, u);
    PathMore(c, INITIAL, r1 + r2 + r3, u, OnFinal(0, DrainTimeout));
    before := r1 + r2 + r3 + [OnFinal(0, DrainTimeout)];
    var v := Finalise(c, u, 0, DrainTimeout);
    ReachedBetween(c, before, v);
    late := Drain.LateFrame(c, ANY, v, 0);
  }
}
