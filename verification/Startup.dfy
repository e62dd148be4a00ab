/** The startup pass: what becomes of the sessions an earlier process left on disk. */
module Startup {
  import opened Basics
  import opened Sessions
  import opened Protocol
  import BasicInvariant
  import Identity
  import Lifecycle

  /** Before the pass, no session is open, no capture runs and nothing is being finalised. */
  lemma NothingBeforeThePass(c: Config, a: Assume, run: seq<Label>)
    requires Runs(c, a, INITIAL, run)
    ensures var s := After(c, a, INITIAL, run);
      !s.reconciled ==> s.open == [] && s.current.None? && s.finals == map[] && s.shot.Resting?
  {
    Lifecycle.InitialHolds();
    Lifecycle.RunKeepsBasic(c, a, INITIAL, run);
  }

  /** The actions that can come between the listing and the end of the pass: its own turns,
      the finalisers it has started, and the retry of parked uploads. */
  predicate DuringPass(run: seq<Label>) {
    forall i | 0 <= i < |run| :: run[i] == OnMessage(Settle) || run[i].OnFinal? || run[i].DropParked?
  }

  /** The sessions the pass loaded are unchanged, and the report is the one it began with. */
  ghost predicate SameRecords(s: State, t: State) {
    && |t.open| == |s.open|
    && (forall h: nat | h < |s.open| :: t.open[h].sess == s.open[h].sess)
    && t.view == s.view
  }

  lemma PassStep(c: Config, s: State, l: Label)
    requires Enabled(c, s, l) && (l == OnMessage(Settle) || l.OnFinal? || l.DropParked?)
    ensures SameRecords(s, Apply(c, s, l))
  {
  }

  /** Who got which session so far: those taken off the queue were adopted if they are the
      running job, and given to a finaliser otherwise. */
  ghost predicate Fates(s: State) {
    && (forall h | h in s.finals && h < |s.open| ::
          s.finals[h].skipDelay && !(Printing(s.view.gcode) && s.open[h].sess.taskID == s.view.taskID))
    && (s.current.Some? && s.current.value < |s.open| ==>
          Printing(s.view.gcode) && s.open[s.current.value].sess.taskID == s.view.taskID)
  }

  lemma FatesSettle(s: State)
    requires BasicInvariant.Inv(s) && Fates(s) && CallEnabled(s, Settle)
    ensures Fates(SettleOne(s))
  {
  }

  lemma FatesAdvance(s: State, h: nat, g: Finaliser, x: Effect)
    requires Fates(s) && CanAdvance(s, h, g, x) && g.skipDelay == s.finals[h].skipDelay
    ensures Fates(Advance(s, h, g, x))
  {
  }

  lemma FatesStep(c: Config, s: State, l: Label)
    requires BasicInvariant.Inv(s) && Fates(s) && Enabled(c, s, l)
    requires l == OnMessage(Settle) || l.OnFinal? || l.DropParked?
    ensures Fates(Apply(c, s, l))
  {
    match l
    case OnMessage(_) => FatesSettle(s);
    case OnFinal(h, e) =>
      FinaliseAdvances(c, s, h, e);
      FatesAdvance(s, h, NextFinaliser(c, s, h, e), EffectOf(s.finals[h], e));
    case DropParked(_, _) =>
  }

  lemma {:induction false} PassRuns(c: Config, a: Assume, s: State, run: seq<Label>)
    requires a.ids && Identity.Both(s) && Fates(s) && Runs(c, a, s, run) && DuringPass(run)
    ensures var t := After(c, a, s, run); Identity.Both(t) && Fates(t) && SameRecords(s, t)
    decreases |run|
  {
    if run != [] {
      var t := Apply(c, s, run[0]);
      Identity.Step(c, s, run[0]);
      PassStep(c, s, run[0]);
      FatesStep(c, s, run[0]);
      PassRuns(c, a, t, run[1..]);
    }
  }

  /** The fate of the session h once the pass has ended: it is the open one if the printer says
      RUNNING or PAUSE and names its job, and goes to a finaliser that does not wait otherwise. */
  ghost predicate Settled(t: State, h: nat, x: Session) {
    && h < |t.open| && t.open[h].sess == x
    && (forall k: nat | k < |t.open| && k != h :: t.open[k].sess.taskID != x.taskID)
    && (if (t.view.gcode.Running? || t.view.gcode.Pause?) && x.taskID == t.view.taskID
        then t.current == Some(h) && h !in t.finals
        else t.current != Some(h) && h in t.finals && t.finals[h].skipDelay)
  }

  lemma PassEnds(c: Config, a: Assume, s: State, pass: seq<Label>, h: nat)
    requires a.ids && Identity.Both(s) && Fates(s) && Identity.Distinct(s.open) && h < |s.open|
    requires Runs(c, a, s, pass) && DuringPass(pass) && After(c, a, s, pass).cb.Handling?
    ensures Settled(After(c, a, s, pass), h, s.open[h].sess)
  {
    PassRuns(c, a, s, pass);
  }

  /** What the listing opens. */
  lemma Listed(c: Config, s: State, order: seq<string>, name: string) returns (h: nat)
    requires Identity.Both(s) && s.cb.Merged? && Listing(s.disk, order)
    requires Staged(name) in s.disk && s.disk[Staged(name)].state.Some?
    ensures var t := ListAll(s, order);
      && Identity.Both(t) && Fates(t) && Identity.Distinct(t.open)
      && h < |t.open| && t.open[h].sess == s.disk[Staged(name)].state.value
  {
    Identity.Step(c, s, OnMessage(List(order)));
    Identity.LoadedDistinct(s.disk, order);
    h :| h < |order| && order[h] == name;
  }

  /** Reconcile totality, under E1: when the listing succeeds, by the end of the pass every
      session that was on disk is open exactly once, with the record it was saved with; it is
      `current` if it is the job the printer is on, and with a finaliser otherwise. */
  lemma ReconcileTotal(
    c: Config, a: Assume, before: seq<Label>, order: seq<string>, pass: seq<Label>, name: string)
    returns (h: nat)
    requires a.ids && Runs(c, a, INITIAL, before)
    requires var s := After(c, a, INITIAL, before);
      s.cb.Merged? && Listing(s.disk, order) && Staged(name) in s.disk && s.disk[Staged(name)].state.Some?
    requires var listed := ListAll(After(c, a, INITIAL, before), order);
      Runs(c, a, listed, pass) && DuringPass(pass) && After(c, a, listed, pass).cb.Handling?
    ensures var s := After(c, a, INITIAL, before);
      Settled(After(c, a, ListAll(s, order), pass), h, s.disk[Staged(name)].state.value)
  {
    Lifecycle.InitialHolds();
    Lifecycle.RunKeepsIdentity(c, a, INITIAL, before);
    var s := After(c, a, INITIAL, before);
    h := Listed(c, s, order, name);
    PassEnds(c, a, ListAll(s, order), pass, h);
  }
}
