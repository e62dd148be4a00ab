/** When ownership is exclusive, whatever the printer reports: exactly as long as `Create`
    does not reopen the directory of a session that is not done yet. */
module Exclusive {
  import opened Basics
  import opened Sessions
  import opened Protocol
  import BasicInvariant
  import Identity
  import Ownership

  /** A session of this process that no finaliser has finished. */
  ghost predicate Unfinished(s: State, h: nat) {
    h < |s.open| && !Ownership.IsGone(s, h)
  }

  /** No two unfinished sessions have one directory. */
  ghost predicate Apart(s: State) {
    forall h: nat, k: nat | Unfinished(s, h) && Unfinished(s, k) && h != k :: s.open[h].dir != s.open[k].dir
  }

  /** The step is a `Create` for a job whose directory an unfinished session has. */
  ghost predicate Reopens(s: State, l: Label) {
    && l.OnMessage? && l.call.Begin?
    && s.view.taskID != ""
    && Taken(s, Staged(DirName(s.view.taskID)))
  }

  ghost predicate Taken(s: State, p: Place) {
    exists h: nat :: Unfinished(s, h) && s.open[h].dir == p
  }

  /** An unfinished session is staged and recorded. */
  ghost predicate Stored(s: State) {
    forall h: nat | Unfinished(s, h) :: Recorded(s.disk, s.open[h].dir)
  }

  ghost predicate Recorded(disk: Disk, p: Place) {
    p.Staged? && p in disk && disk[p].state.Some?
  }

  ghost predicate Inv(s: State) {
    && BasicInvariant.Inv(s)
    && Apart(s)
    && Stored(s)
    && (s.cb.Creating? ==> !Taken(s, Staged(DirName(s.cb.made.taskID))))
  }

  // ---------------------------------------------------------------- one step

  /** The unfinished sessions are those there were, at most fewer, and their records are there. */
  lemma FewerSessions(s: State, t: State)
    requires Inv(s) && BasicInvariant.Inv(t)
    requires |t.open| == |s.open|
    requires forall h: nat | Unfinished(t, h) :: Unfinished(s, h) && t.open[h].dir == s.open[h].dir
    requires forall h: nat | Unfinished(t, h) :: Recorded(t.disk, s.open[h].dir)
    requires t.cb.Creating? ==> t.cb == s.cb
    ensures Inv(t)
  {
  }

  lemma ListStep(s: State, order: seq<string>)
    requires Inv(s) && s.cb.Merged? && Listing(s.disk, order)
    ensures Inv(ListAll(s, order))
  {
    BasicInvariant.ListStep(s, order);
    var t := ListAll(s, order);
    assert s.open == [];
    forall h: nat | h < |t.open|
      ensures t.open[h].dir == Staged(order[h]) && Recorded(t.disk, t.open[h].dir)
    {
      assert Listable(s.disk, order[h]);
    }
  }

  lemma SettleStep(s: State)
    requires Inv(s) && s.cb.Settling?
    ensures Inv(SettleOne(s))
  {
    BasicInvariant.SettleStep(s);
    FewerSessions(s, SettleOne(s));
  }

  lemma HandleStep(s: State)
    requires Inv(s) && s.cb.Handling?
    ensures Inv(HandleView(s))
  {
    BasicInvariant.HandleStep(s);
    FewerSessions(s, HandleView(s));
  }

  /** A session more, on this directory. */
  lemma OneMore(s: State, t: State, p: Place)
    requires Inv(s) && |t.open| == |s.open| + 1 && t.finals == s.finals
    requires forall h: nat | h < |s.open| :: t.open[h] == s.open[h]
    requires t.open[|s.open|].dir == p && |s.open| !in s.finals
    ensures Apart(t) <==> !Taken(s, p)
  {
    assert forall h: nat | h < |s.open| :: Unfinished(t, h) <==> Unfinished(s, h);
    assert Unfinished(t, |s.open|);
    if h: nat :| Unfinished(s, h) && s.open[h].dir == p {
      assert Unfinished(t, h) && t.open[h].dir == t.open[|s.open|].dir;
    }
  }

  /** `Create` up to its rename: it reopens a directory that is recorded, and otherwise opens
      nothing, in a directory no unfinished session has. */
  lemma BeginStep(s: State, mkdir: bool, wrote: bool, now: int)
    requires Inv(s) && s.cb.Beginning?
    ensures var t := BeginJob(s, mkdir, wrote, now);
      && (Apart(t) <==> !Reopens(s, OnMessage(Begin(mkdir, wrote, now))))
      && (Apart(t) ==> Inv(t))
  {
    BasicInvariant.BeginStep(s, mkdir, wrote, now);
    var t := BeginJob(s, mkdir, wrote, now);
    var dir := Staged(DirName(s.view.taskID));
    if s.view.taskID == "" {
    } else if dir in s.disk && s.disk[dir].state.Some? {
      OneMore(s, t, dir);
    } else {
      assert !Taken(s, dir);
      assert forall h: nat | Unfinished(t, h) :: Unfinished(s, h) && t.open[h].dir != dir;
    }
  }

  lemma CreateStep(s: State, ok: bool)
    requires Inv(s) && s.cb.Creating?
    requires ok ==> CanRename(s.disk, Staged(DirName(s.cb.made.taskID)))
    ensures Inv(FinishCreate(s, ok))
  {
    BasicInvariant.CreateStep(s, ok);
    var t := FinishCreate(s, ok);
    if ok {
      OneMore(s, t, Staged(DirName(s.cb.made.taskID)));
      assert forall h: nat | h < |s.open| :: Unfinished(t, h) <==> Unfinished(s, h);
    }
  }

  /** The rest of the callback leaves directories and who is finished as they are, and no
      state file disappears. */
  ghost predicate Rest(k: CallStep) {
    k.Report? || k.ListFails? || k.Record? || k.SaveRename? || k.Shoot?
  }

  lemma RestKeeps(s: State, k: CallStep, h: nat)
    requires BasicInvariant.Inv(s) && CallEnabled(s, k) && Rest(k) && h < |s.open|
    ensures var t := Call(s, k);
      && |t.open| == |s.open| && t.open[h].dir == s.open[h].dir && t.finals == s.finals
      && (Recorded(s.disk, s.open[h].dir) ==> Recorded(t.disk, s.open[h].dir))
      && !t.cb.Creating?
  {
  }

  lemma RestLength(s: State, k: CallStep)
    requires CallEnabled(s, k) && Rest(k)
    ensures |Call(s, k).open| == |s.open| && !Call(s, k).cb.Creating? && Call(s, k).finals == s.finals
  {
  }

  lemma RestStep(s: State, k: CallStep)
    requires Inv(s) && CallEnabled(s, k) && Rest(k)
    ensures Inv(Call(s, k))
  {
    BasicInvariant.CallStep(s, k);
    RestLength(s, k);
    var t := Call(s, k);
    forall h: nat | Unfinished(t, h)
      ensures Unfinished(s, h) && t.open[h].dir == s.open[h].dir && Recorded(t.disk, s.open[h].dir)
    {
      RestKeeps(s, k, h);
    }
    FewerSessions(s, t);
  }

  lemma CaptureKeeps(s: State, k: ShotStep, h: nat)
    requires BasicInvariant.Inv(s) && ShotEnabled(s, k) && h < |s.open|
    ensures var t := Capture(s, k);
      && |t.open| == |s.open| && t.open[h].dir == s.open[h].dir && t.finals == s.finals && t.cb == s.cb
      && (Recorded(s.disk, s.open[h].dir) ==> Recorded(t.disk, s.open[h].dir))
  {
  }

  lemma CaptureLength(s: State, k: ShotStep)
    requires ShotEnabled(s, k)
    ensures |Capture(s, k).open| == |s.open| && Capture(s, k).finals == s.finals && Capture(s, k).cb == s.cb
  {
  }

  lemma CaptureStep(s: State, k: ShotStep)
    requires Inv(s) && ShotEnabled(s, k)
    ensures Inv(Capture(s, k))
  {
    BasicInvariant.CaptureStep(s, k);
    CaptureLength(s, k);
    var t := Capture(s, k);
    forall h: nat | Unfinished(t, h)
      ensures Unfinished(s, h) && t.open[h].dir == s.open[h].dir && Recorded(t.disk, s.open[h].dir)
    {
      CaptureKeeps(s, k, h);
    }
    FewerSessions(s, t);
  }

  /** A finaliser removes or moves no directory but that of the session it finishes. */
  lemma FinalStep(s: State, h: nat, g: Finaliser, x: Effect)
    requires Inv(s) && CanAdvance(s, h, g, x)
    ensures Inv(Advance(s, h, g, x))
  {
    BasicInvariant.FinalStep(s, h, g, x);
    var t := Advance(s, h, g, x);
    AdvanceFinals(s, h, g, x);
    assert Unfinished(s, h);
    forall k: nat | Unfinished(t, k)
      ensures Unfinished(s, k) && t.open[k].dir == s.open[k].dir && Recorded(t.disk, s.open[k].dir)
    {
      assert Recorded(s.disk, s.open[k].dir);
      assert k == h || s.open[k].dir != s.open[h].dir;
    }
    FewerSessions(s, t);
  }

  lemma CallStep(s: State, k: CallStep)
    requires Inv(s) && CallEnabled(s, k)
    ensures Apart(Call(s, k)) <==> !Reopens(s, OnMessage(k))
    ensures Apart(Call(s, k)) ==> Inv(Call(s, k))
  {
    match k
    case List(order) => ListStep(s, order);
    case Settle => SettleStep(s);
    case Handle => HandleStep(s);
    case Begin(mkdir, wrote, now) => BeginStep(s, mkdir, wrote, now);
    case CreateRename(ok) => CreateStep(s, ok);
    case Report(_) | ListFails | Record(_) | SaveRename(_) | Shoot(_) => RestStep(s, k);
  }

  /** In one step exclusive ownership is lost exactly when the step reopens the directory of
      an unfinished session. No hypothesis about the printer, the disk or the clock. */
  lemma StepExact(c: Config, s: State, l: Label)
    requires Inv(s) && Enabled(c, s, l)
    ensures Apart(Apply(c, s, l)) <==> !Reopens(s, l)
    ensures Apart(Apply(c, s, l)) ==> Inv(Apply(c, s, l))
  {
    match l
    case OnMessage(k) => CallStep(s, k);
    case OnCapture(k) => CaptureStep(s, k);
    case OnFinal(h, e) =>
      FinaliseAdvances(c, s, h, e);
      FinalStep(s, h, NextFinaliser(c, s, h, e), EffectOf(s.finals[h], e));
    case DropParked(_, _) =>
      BasicInvariant.Step(c, s, l);
      FewerSessions(s, Apply(c, s, l));
    case Crash => BasicInvariant.Step(c, s, l);
  }

  // ---------------------------------------------------------------- every run

  /** Ownership is exclusive in every state of the run. */
  ghost predicate AlwaysApart(c: Config, a: Assume, s: State, run: seq<Label>)
    requires Runs(c, a, s, run)
    decreases |run|
  {
    Apart(s) && (run == [] || AlwaysApart(c, a, Apply(c, s, run[0]), run[1..]))
  }

  /** No step of the run reopens the directory of an unfinished session. */
  ghost predicate NeverReopens(c: Config, a: Assume, s: State, run: seq<Label>)
    requires Runs(c, a, s, run)
    decreases |run|
  {
    run == [] || (!Reopens(s, run[0]) && NeverReopens(c, a, Apply(c, s, run[0]), run[1..]))
  }

  lemma {:induction false} ExclusiveFrom(c: Config, a: Assume, s: State, run: seq<Label>)
    requires Inv(s) && Runs(c, a, s, run)
    ensures AlwaysApart(c, a, s, run) <==> NeverReopens(c, a, s, run)
    ensures NeverReopens(c, a, s, run) ==> Inv(After(c, a, s, run))
    decreases |run|
  {
    if run != [] {
      var t := Apply(c, s, run[0]);
      StepExact(c, s, run[0]);
      if Apart(t) {
        ExclusiveFrom(c, a, t, run[1..]);
      }
    }
  }

  /** Over every run from the first start, under whatever hypotheses or none: in every state
      no two unfinished sessions have one directory, exactly when no step reopens one. */
  lemma ExclusiveExactly(c: Config, a: Assume, run: seq<Label>)
    requires Runs(c, a, INITIAL, run)
    ensures AlwaysApart(c, a, INITIAL, run) <==> NeverReopens(c, a, INITIAL, run)
  {
    ExclusiveFrom(c, a, INITIAL, run);
  }

  // ---------------------------------------------------------------- under E1 to E3

  /** Under E1 to E3 no step reopens: the job being begun is live, and every unfinished
      session of another time is of a job that is over. */
  lemma NoneReopened(s: State, l: Label)
    requires Ownership.All(s) && l.OnMessage? && CallEnabled(s, l.call)
    ensures !Reopens(s, l)
  {
    if l.call.Begin? && s.view.taskID != "" {
      forall h: nat | Unfinished(s, h)
        ensures s.open[h].dir != Staged(DirName(s.view.taskID))
      {
        assert h in s.finals;
        assert Ownership.IdOf(s, h) in s.printer.over && s.view.taskID !in s.printer.over;
        assert Identity.OpenNamed(s.open[h]);
        DirNameInjective(s.open[h].sess.taskID, s.view.taskID);
      }
    }
  }

  lemma {:induction false} NeverUnderHypotheses(c: Config, a: Assume, s: State, run: seq<Label>)
    requires a.ids && a.jobs && Ownership.All(s) && Runs(c, a, s, run)
    ensures NeverReopens(c, a, s, run)
    decreases |run|
  {
    if run != [] {
      if run[0].OnMessage? {
        NoneReopened(s, run[0]);
      }
      Ownership.Step(c, s, run[0]);
      NeverUnderHypotheses(c, a, Apply(c, s, run[0]), run[1..]);
    }
  }

  /** So under E1 to E3 ownership is exclusive in every state of every run. */
  lemma ExclusiveUnder(c: Config, a: Assume, run: seq<Label>)
    requires a.ids && a.jobs && Runs(c, a, INITIAL, run)
    ensures AlwaysApart(c, a, INITIAL, run)
  {
    NeverUnderHypotheses(c, a, INITIAL, run);
    ExclusiveExactly(c, a, run);
  }
}
