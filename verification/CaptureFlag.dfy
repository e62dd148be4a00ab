/** The `capturing` flag of internal/service/service.go, with the goroutines it lets through:
    why the protocol needs one capture and no more. */
module CaptureFlag {

  /** Where a callback is in `capture`: not in it, past the `Load`, or past the `Store(true)`
      and about to start its goroutine. */
  datatype Caller = Away | Checked | Marked

  /** callers are the callbacks that may run at a time; running are the goroutines alive. */
  datatype Flag = Flag(capturing: bool, callers: seq<Caller>, running: set<nat>)

  datatype Step = Load(i: nat) | Store(i: nat) | Go(i: nat, g: nat) | Finish(g: nat)

  /** The flag is read and written apart; a goroutine clears it as the last thing it does. */
  predicate Enabled(s: Flag, k: Step) {
    match k
    case Load(i) => i < |s.callers| && s.callers[i].Away?
    case Store(i) => i < |s.callers| && s.callers[i].Checked?
    case Go(i, g) => i < |s.callers| && s.callers[i].Marked? && g !in s.running
    case Finish(g) => g in s.running
  }

  function Apply(s: Flag, k: Step): Flag
    requires Enabled(s, k)
  {
    match k
    case Load(i) => if s.capturing then s else s.(callers := s.callers[i := Checked])
    case Store(i) => s.(capturing := true, callers := s.callers[i := Marked])
    case Go(i, g) => s.(callers := s.callers[i := Away], running := s.running + {g})
    case Finish(g) => s.(capturing := false, running := s.running - {g})
  }

  function Start(n: nat): Flag { Flag(false, seq(n, _ => Away), {}) }

  predicate Runs(s: Flag, run: seq<Step>)
    decreases |run|
  {
    run == [] || (Enabled(s, run[0]) && Runs(Apply(s, run[0]), run[1..]))
  }

  function After(s: Flag, run: seq<Step>): Flag
    requires Runs(s, run)
    decreases |run|
  {
    if run == [] then s else After(Apply(s, run[0]), run[1..])
  }

  /** With one callback at a time: the flag is set just when a goroutine is alive or about to
      be started, and never two of them. */
  ghost predicate Inv(s: Flag) {
    && |s.callers| <= 1
    && (|s.callers| == 1 && !s.callers[0].Away? ==> s.running == {})
    && (s.capturing <==> s.running != {} || (|s.callers| == 1 && s.callers[0].Marked?))
    && AtMostOne(s)
  }

  ghost predicate AtMostOne(s: Flag) {
    forall g, k | g in s.running && k in s.running :: g == k
  }

  lemma KeepsInv(s: Flag, k: Step)
    requires Inv(s) && Enabled(s, k)
    ensures Inv(Apply(s, k))
  {
    if k.Finish? {
      assert s.running == {k.g};
    }
  }

  lemma {:induction false} RunKeepsInv(s: Flag, run: seq<Step>)
    requires Inv(s) && Runs(s, run)
    ensures Inv(After(s, run))
    decreases |run|
  {
    if run != [] {
      KeepsInv(s, run[0]);
      RunKeepsInv(Apply(s, run[0]), run[1..]);
    }
  }

  ghost predicate OneCapture(n: nat) {
    forall run | Runs(Start(n), run) :: AtMostOne(After(Start(n), run))
  }

  /** Two callbacks at a time get past the flag together. */
  lemma TwoGetThrough(n: nat) returns (run: seq<Step>)
    requires n >= 2
    ensures Runs(Start(n), run) && !AtMostOne(After(Start(n), run))
  {
    run := [Load(0), Load(1), Store(0), Store(1), Go(0, 0), Go(1, 1)];
    var s0 := Start(n);
    var s1 := Apply(s0, Load(0));
    var s2 := Apply(s1, Load(1));
    var s3 := Apply(s2, Store(0));
    var s4 := Apply(s3, Store(1));
    var s5 := Apply(s4, Go(0, 0));
    var s6 := Apply(s5, Go(1, 1));
    Last(s5, Go(1, 1), []);
    Last(s4, Go(0, 0), [Go(1, 1)]);
    Last(s3, Store(1), [Go(0, 0), Go(1, 1)]);
    Last(s2, Store(0), [Store(1), Go(0, 0), Go(1, 1)]);
    Last(s1, Load(1), [Store(0), Store(1), Go(0, 0), Go(1, 1)]);
    Last(s0, Load(0), [Load(1), Store(0), Store(1), Go(0, 0), Go(1, 1)]);
    assert run == [Load(0)] + [Load(1), Store(0), Store(1), Go(0, 0), Go(1, 1)];
    assert 0 in s6.running && 1 in s6.running;
  }

  lemma Last(s: Flag, k: Step, rest: seq<Step>)
    requires Enabled(s, k) && Runs(Apply(s, k), rest)
    ensures Runs(s, [k] + rest) && After(s, [k] + rest) == After(Apply(s, k), rest)
  {
    assert ([k] + rest)[1..] == rest;
  }

  /** At most one capture is ever in flight exactly when callbacks come one at a time. */
  lemma OneCaptureExactly(n: nat)
    ensures OneCapture(n) <==> n <= 1
  {
    if n <= 1 {
      forall run | Runs(Start(n), run)
        ensures AtMostOne(After(Start(n), run))
      {
        RunKeepsInv(Start(n), run);
      }
    } else {
      var run := TwoGetThrough(n);
    }
  }
}
