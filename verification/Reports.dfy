/** What one report does, in plain terms: which one ends a job, which one begins it, and which
    one is worth a frame. */
module Reports {
  import opened Basics
  import opened Sessions
  import opened Protocol
  import opened Turns
  import BasicInvariant
  import Storage

  // ---------------------------------------------------------------- a layer

  /** Recording a report: the layer is noted exactly if it is new, the layer count if there was
      none, and nothing else of any session changes. */
  lemma Notes(s: State, luck: CallLuck)
    requires s.cb.Recording? && s.cb.h < |s.open|
    ensures var h, v, t := s.cb.h, s.view, RecordTurn(s, luck);
      var was, x := s.open[h].sess, t.open[h].sess;
      && x.lastLayer == (if v.layer > 0 && v.layer != was.lastLayer then v.layer else was.lastLayer)
      && x.totalLayers == (if was.totalLayers == 0 then v.total else was.totalLayers)
      && x == was.(lastLayer := x.lastLayer, totalLayers := x.totalLayers)
      && t.open == s.open[h := Open(x, s.open[h].dir)]
  {
  }

  lemma Leaves(s: State, luck: CallLuck)
    requires s.cb.Recording? && s.cb.h < |s.open|
    ensures var t := RecordTurn(s, luck); t.cb.Waiting? && t.current == s.current && t.finals == s.finals
  {
  }

  /** And a capture starts exactly if the layer is new, none is in flight and there is room. */
  lemma Fires(s: State, luck: CallLuck)
    requires s.cb.Recording? && s.cb.h < |s.open|
    ensures var h, v, t := s.cb.h, s.view, RecordTurn(s, luck);
      t.shot ==
        if v.layer > 0 && v.layer != s.open[h].sess.lastLayer && s.shot.Resting? && luck.room
        then Delayed(h, v.layer, s.open[h].sess.taskID, v.taskID)
        else s.shot
  {
  }

  /** And the record is saved exactly if the layer is new, as far as the writes work. */
  lemma Saves(s: State, luck: CallLuck)
    requires s.cb.Recording? && s.cb.h < |s.open|
    ensures var h, v, t := s.cb.h, s.view, RecordTurn(s, luck);
      var dir, x := s.open[h].dir, t.open[h].sess;
      if v.layer <= 0 || v.layer == s.open[h].sess.lastLayer || dir !in s.disk || !luck.wrote
      then t.disk == s.disk
      else if !luck.renamed then t.disk == s.disk[dir := s.disk[dir].(temp := Some(x))]
      else t.disk == s.disk[dir := s.disk[dir].(state := Some(x), temp := None)]
  {
  }

  // ---------------------------------------------------------------- one callback

  /** The callback of a report, once the startup pass has been made. */
  ghost function Told(s: State, v: View, luck: CallLuck): State
    requires Between(s) && s.reconciled
  {
    CallbackTurn(s, v, None, luck)
  }

  /** The report changes what is known of the printer and nothing else. */
  ghost predicate OnlyHeard(s: State, v: View, t: State) {
    && t.view == v && t.disk == s.disk && t.open == s.open && t.current == s.current
    && t.shot == s.shot && t.finals == s.finals && t.reconciled == s.reconciled && t.cb.Waiting?
  }

  /** A pause, an unknown state or none, and an end when nothing is open: nothing happens. So it
      does when a job without a name is printing and nothing is open. */
  lemma Ignored(s: State, v: View, luck: CallLuck)
    requires Between(s) && s.reconciled
    requires
      || v.gcode.Pause? || v.gcode.Other? || v.gcode.Unreported?
      || ((v.gcode.Finish? || v.gcode.Failed? || v.gcode.Idle?) && s.current.None?)
      || (v.gcode.Running? && v.taskID == "" && s.current.None?)
    ensures OnlyHeard(s, v, Told(s, v, luck))
  {
  }

  /** An end state hands the open job to a finaliser that waits for its poster. */
  lemma HandsOver(s: State, v: View, luck: CallLuck)
    requires Between(s) && s.reconciled && s.current.Some?
    requires v.gcode.Finish? || v.gcode.Failed? || v.gcode.Idle?
    ensures var t := Told(s, v, luck);
      && t.current == None && t.finals == s.finals[s.current.value := Finaliser(Draining, false, false)]
      && OnlyHeard(s, v, t.(current := s.current, finals := s.finals))
  {
  }

  /** The open job goes on printing, named or not: its report is recorded, and that is all. */
  lemma GoesOn(s: State, v: View, luck: CallLuck)
    requires Between(s) && s.reconciled && s.current.Some? && v.gcode.Running?
    requires v.taskID == "" || v.taskID == s.open[s.current.value].sess.taskID
    ensures var r := Hear(s, v).(cb := Recording(s.current.value));
      && Told(s, v, luck) == RecordTurn(r, luck)
      && OnlyHeard(s, v, r.(cb := Waiting))
  {
  }

  // ---------------------------------------------------------------- a job begins

  /** The job with this name is reopened if it has a record, and otherwise begun, as far as the
      directory can be made and the record written. */
  lemma Begins(s: State, luck: CallLuck)
    requires s.cb.Beginning? && s.view.taskID != ""
    ensures var v, t, dir := s.view, BeginTurn(s, luck), Staged(DirName(s.view.taskID));
      var was := if dir in s.disk then s.disk[dir].state else None;
      if was.Some? || (luck.mkdir && luck.created && luck.published)
      then
        && |t.open| == |s.open| + 1 && t.open == s.open + [t.open[|s.open|]] && t.open[|s.open|].dir == dir
        && t.current == Some(|s.open|) && t.cb == Recording(|s.open|)
        && (was.Some? ==> t.open[|s.open|].sess == was.value && t.disk == s.disk)
        && (was.None? ==> Storage.IsNew(t.open[|s.open|].sess, v, luck.now))
        && dir in t.disk && t.disk[dir].state == Some(t.open[|s.open|].sess)
      else t.cb.Waiting? && t.open == s.open && t.current == s.current
  {
  }

  lemma BeginsBeside(s: State, luck: CallLuck)
    requires s.cb.Beginning?
    ensures var t := BeginTurn(s, luck);
      t.shot == s.shot && t.finals == s.finals && t.view == s.view && t.reconciled == s.reconciled
    ensures var t, dir := BeginTurn(s, luck), Staged(DirName(s.view.taskID));
      forall p | p != dir :: (p in t.disk <==> p in s.disk) && (p in t.disk ==> t.disk[p] == s.disk[p])
  {
  }

  /** The state in which `begin` is called: the job that was open, if any, has gone to a
      finaliser that does not wait. */
  ghost function Clear(s: State, v: View): State
    requires Between(s)
  {
    var u := Hear(s, v).(current := None, cb := Beginning);
    if s.current.Some? then u.(finals := s.finals[s.current.value := Finaliser(Draining, false, true)]) else u
  }

  /** A named job is printing that is not the open one. */
  ghost predicate Another(s: State, v: View)
    requires Between(s)
  {
    v.gcode.Running? && v.taskID != "" &&
    (s.current.None? || v.taskID != s.open[s.current.value].sess.taskID)
  }

  lemma Cleared(s: State, v: View, luck: CallLuck)
    requires Between(s) && s.reconciled && Another(s, v)
    ensures Told(s, v, luck) ==
      var u := BeginTurn(Clear(s, v), luck); if u.cb.Recording? then RecordTurn(u, luck) else u
  {
    assert HandleView(Hear(s, v)) == Clear(s, v);
  }

  /** Then the open job goes to a finaliser that does not wait, whatever comes of the new one;
      and the new one, if its record is there or could be written, is the open job. */
  lemma Supersedes(s: State, v: View, luck: CallLuck)
    requires Between(s) && s.reconciled && Another(s, v)
    ensures var t, n, dir := Told(s, v, luck), |s.open|, Staged(DirName(v.taskID));
      var was := if dir in s.disk then s.disk[dir].state else None;
      && t.finals == (if s.current.Some? then s.finals[s.current.value := Finaliser(Draining, false, true)]
                      else s.finals)
      && if was.Some? || (luck.mkdir && luck.created && luck.published)
         then t.current == Some(n) && |t.open| == n + 1 && t.open[..n] == s.open && t.open[n].dir == dir
         else t.current == None && t.open == s.open && t.shot == s.shot
  {
    var c := Clear(s, v);
    Cleared(s, v, luck);
    Begins(c, luck);
    BeginsBeside(c, luck);
    var u := BeginTurn(c, luck);
    if u.cb.Recording? {
      Notes(u, luck);
      Leaves(u, luck);
    }
  }

  /** And its first layer is taken at once: of a new job any positive one, of a reopened job any
      but the last it noted. */
  lemma FirstLayer(s: State, v: View, luck: CallLuck)
    requires Between(s) && s.reconciled && Another(s, v) && v.layer > 0 && s.shot.Resting? && luck.room
    ensures var t, n, dir := Told(s, v, luck), |s.open|, Staged(DirName(v.taskID));
      var was := if dir in s.disk then s.disk[dir].state else None;
      && (was.None? && luck.mkdir && luck.created && luck.published ==>
            t.shot == Delayed(n, v.layer, v.taskID, v.taskID))
      && (was.Some? && v.layer != was.value.lastLayer ==>
            t.shot == Delayed(n, v.layer, was.value.taskID, v.taskID))
  {
    var c := Clear(s, v);
    Cleared(s, v, luck);
    Begins(c, luck);
    BeginsBeside(c, luck);
    var u := BeginTurn(c, luck);
    if u.cb.Recording? {
      Fires(u, luck);
    }
  }

  // ---------------------------------------------------------------- over every run

  /** A report worth a frame of the session h: it says RUNNING, names the session's job or none,
      and its layer is positive and not the last one noted. It may be a lower one. */
  ghost predicate WorthAFrame(x: Session, v: View) {
    v.gcode.Running? && (v.taskID == "" || v.taskID == x.taskID) && v.layer > 0 && v.layer != x.lastLayer
  }

  /** Whatever came before: such a report, with the camera idle and room on the disk, is noted
      and starts a capture. */
  lemma EveryNewLayer(c: Config, history: seq<Label>, s: State, v: View, luck: CallLuck, h: nat)
    requires Path(c, INITIAL, history, s) && s.cb.Waiting? && s.shot.Resting? && s.current == Some(h)
    requires h < |s.open| && WorthAFrame(s.open[h].sess, v) && luck.room
    ensures Between(s) && s.reconciled
    ensures var t := Told(s, v, luck);
      && t.shot == Delayed(h, v.layer, s.open[h].sess.taskID, v.taskID)
      && h < |t.open| && t.open[h].sess.lastLayer == v.layer
  {
    ReachedBetween(c, history, s);
    GoesOn(s, v, luck);
    var r := Hear(s, v).(cb := Recording(h));
    Notes(r, luck);
    Fires(r, luck);
  }

  /** The callback is on its way to the layer of this report. */
  ghost predicate OnTheWay(s: State, v: View, h: nat, id: string) {
    && s.view == v && s.reconciled && s.current == Some(h) && h < |s.open| && s.shot.Resting?
    && s.open[h].sess.taskID == id
    && (((s.cb.Handling? || s.cb == Recording(h)) && WorthAFrame(s.open[h].sess, v))
        || s.cb == Saving(h, v.layer) || s.cb == Shooting(h, v.layer))
  }

  lemma CallOnTheWay(s: State, k: CallStep, v: View, h: nat, id: string)
    requires OnTheWay(s, v, h, id) && CallEnabled(s, k) && !k.Shoot?
    ensures OnTheWay(Call(s, k), v, h, id)
  {
  }

  lemma FinalOnTheWay(c: Config, s: State, i: nat, e: FinalEvent, v: View, h: nat, id: string)
    requires OnTheWay(s, v, h, id) && FinalEnabled(c, s, i, e)
    ensures OnTheWay(Finalise(c, s, i, e), v, h, id)
  {
  }

  lemma ShotOnTheWay(s: State, v: View, h: nat, id: string)
    requires OnTheWay(s, v, h, id) && CallEnabled(s, Shoot(true))
    ensures Call(s, Shoot(true)).shot == Delayed(h, v.layer, id, v.taskID)
  {
  }

  lemma StaysOnTheWay(c: Config, s: State, l: Label, v: View, h: nat, id: string)
    requires OnTheWay(s, v, h, id) && Enabled(c, s, l) && !l.Crash? && !(l.OnMessage? && l.call.Shoot?)
    ensures OnTheWay(Apply(c, s, l), v, h, id)
  {
    match l
    case OnMessage(k) => CallOnTheWay(s, k, v, h, id);
    case OnFinal(i, e) => FinalOnTheWay(c, s, i, e, v, h, id);
    case OnCapture(_) =>
    case DropParked(_, _) =>
  }

  /** The same however the other actors interleave with the callback: on every run from such a
      report to the end of its callback, without a crash and with room, the callback shoots, and
      at that moment the capture starts. */
  lemma {:induction false} ShootsOnTheWay(c: Config, s: State, run: seq<Label>, v: View, h: nat, id: string)
    returns (front: seq<Label>, at: State)
    requires OnTheWay(s, v, h, id) && Runs(c, ANY, s, run) && After(c, ANY, s, run).cb.Waiting?
    requires forall i | 0 <= i < |run| :: !run[i].Crash? && run[i] != OnMessage(Shoot(false))
    ensures |front| < |run| && front == run[..|front|] && run[|front|] == OnMessage(Shoot(true))
    ensures Path(c, s, front, at) && Enabled(c, at, OnMessage(Shoot(true)))
    ensures Apply(c, at, OnMessage(Shoot(true))).shot == Delayed(h, v.layer, id, v.taskID)
    decreases |run|
  {
    assert !run[0].Crash?;
    if run[0] == OnMessage(Shoot(true)) {
      front, at := [], s;
      ShotOnTheWay(s, v, h, id);
    } else {
      StaysOnTheWay(c, s, run[0], v, h, id);
      assert forall i | 0 <= i < |run[1..]| :: run[1..][i] == run[i + 1];
      var rest;
      rest, at := ShootsOnTheWay(c, Apply(c, s, run[0]), run[1..], v, h, id);
      front := [run[0]] + rest;
      assert front[1..] == rest && front == run[..|front|];
    }
  }

  /** From the report itself. */
  lemma EveryNewLayerInterleaved(c: Config, history: seq<Label>, s: State, v: View, run: seq<Label>, h: nat)
    returns (front: seq<Label>, at: State)
    requires Path(c, INITIAL, history, s) && s.cb.Waiting? && s.shot.Resting? && s.current == Some(h)
    requires h < |s.open| && WorthAFrame(s.open[h].sess, v)
    requires Runs(c, ANY, Hear(s, v), run) && After(c, ANY, Hear(s, v), run).cb.Waiting?
    requires forall i | 0 <= i < |run| :: !run[i].Crash? && run[i] != OnMessage(Shoot(false))
    ensures |front| < |run| && front == run[..|front|] && run[|front|] == OnMessage(Shoot(true))
    ensures Path(c, Hear(s, v), front, at) && Enabled(c, at, OnMessage(Shoot(true)))
    ensures Apply(c, at, OnMessage(Shoot(true))).shot == Delayed(h, v.layer, s.open[h].sess.taskID, v.taskID)
  {
    ReachedBetween(c, history, s);
    front, at := ShootsOnTheWay(c, Hear(s, v), run, v, h, s.open[h].sess.taskID);
  }
}
