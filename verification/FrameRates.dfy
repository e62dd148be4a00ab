/** Which frame rates the caption script is exact for: the rounding of `writeCommands` in
    internal/camera/encode.go against the frame times. */
module FrameRates {
  import opened Basics
  import opened Captions

  // ---------------------------------------------------------------- arithmetic

  function Gcd(a: nat, b: nat): (g: nat)
    requires a > 0
    ensures g > 0
    decreases b
  {
    if b == 0 then a else Gcd(b, a % b)
  }

  ghost predicate Divides(g: int, n: int) { exists k: int :: n == g * k }

  lemma DividesSum(g: int, m: int, n: int, k: int)
    requires Divides(g, m) && Divides(g, n)
    ensures Divides(g, m + n * k)
  {
    var x: int :| m == g * x;
    var y: int :| n == g * y;
    assert m + n * k == g * (x + y * k) by {
      assert n * k == g * (y * k);
    }
  }

  lemma {:induction false} GcdDivides(a: nat, b: nat)
    requires a > 0
    ensures Divides(Gcd(a, b), a) && Divides(Gcd(a, b), b)
    decreases b
  {
    if b == 0 {
      assert a == a * 1 && 0 == a * 0;
    } else {
      GcdDivides(b, a % b);
      DividesSum(Gcd(a, b), a % b, b, a / b);
      assert a == a % b + b * (a / b);
    }
  }

  /** Bezout: the greatest common divisor is a combination of the two. */
  lemma {:induction false} Bezout(a: nat, b: nat) returns (x: int, y: int)
    requires a > 0
    ensures a * x + b * y == Gcd(a, b)
    decreases b
  {
    if b == 0 {
      x, y := 1, 0;
    } else {
      var u, v := Bezout(b, a % b);
      x, y := v, u - (a / b) * v;
      Recombine(a, b, a / b, a % b, u, v);
    }
  }

  lemma Recombine(a: int, b: int, q: int, r: int, u: int, v: int)
    requires a == b * q + r
    ensures a * v + b * (u - q * v) == b * u + r * v
  {
    assert a * v == b * q * v + r * v;
    assert b * (u - q * v) == b * u - b * q * v;
  }

  lemma MultipleAtLeast(g: int, n: int)
    requires g > 0 && n > 0 && Divides(g, n)
    ensures n >= g
  {
    var k: int :| n == g * k;
    assert k <= 0 ==> g * k <= 0;
    assert k >= 1 ==> g * k >= g;
  }

  lemma RemainderIs(n: int, f: int, k: int, r: int)
    requires f > 0 && n == f * k + r && 0 <= r < f
    ensures n % f == r
  {
    var d := n / f - k;
    assert f * d == r - n % f;
    assert d >= 1 ==> f * d >= f;
    assert d <= -1 ==> f * d <= -f;
  }

  // ---------------------------------------------------------------- phases

  /** How far into a millisecond frame i is, in units of 1/fps ms. */
  function Phase(i: nat, fps: nat): (r: nat)
    requires fps > 0
    ensures r < fps
  {
    (1000 * i) % fps
  }

  /** The phases of a rate: the highest is one greatest common divisor below the rate. */
  lemma PhaseBound(i: nat, fps: nat)
    requires fps > 0
    ensures Phase(i, fps) <= fps - Gcd(1000, fps)
  {
    var g := Gcd(1000, fps);
    GcdDivides(1000, fps);
    var q := 1000 * i / fps;
    var back: int := -(i as int);
    assert 0 == g * 0;
    DividesSum(g, 0, 1000, back);
    DividesSum(g, 0 + 1000 * back, fps, q + 1);
    assert fps - Phase(i, fps) == 0 + 1000 * back + fps * (q + 1);
    MultipleAtLeast(g, fps - Phase(i, fps));
  }

  lemma Shifted(fps: int, k: int, x: int, y: int, g: int)
    requires 1000 * x + fps * y == g
    ensures 1000 * (fps * k - x) == fps * (1000 * k + y - 1) + (fps - g)
  {
    assert fps * (1000 * k + y - 1) == 1000 * (fps * k) + fps * y - fps;
  }

  lemma TimesAtLeast(fps: nat, k: nat)
    requires fps > 0
    ensures fps * k >= k
  {
  }

  lemma PhaseReached(fps: nat) returns (i: nat)
    requires fps > 0
    ensures Phase(i, fps) == fps - Gcd(1000, fps)
  {
    var g := Gcd(1000, fps);
    var x, y := Bezout(1000, fps);
    var k: nat := if x > 0 then x else 0;
    TimesAtLeast(fps, k);
    i := fps * k - x;
    PhaseBound(0, fps);
    Shifted(fps, k, x, y, g);
    RemainderIs(1000 * i, fps, 1000 * k + y - 1, fps - g);
  }

  // ---------------------------------------------------------------- one frame

  lemma NearestAbove(x: real, q: int, up: bool)
    requires x >= 0.0
    ensures Nearest(x, up) > q <==> x > q as real + 0.5 || (x == q as real + 0.5 && up)
  {
  }

  /** The times of a frame and of its command, times the rate. */
  lemma TimesRate(i: nat, fps: nat)
    requires fps > 0
    ensures Pts(i, fps) * fps as real == (1000 * i) as real
    ensures i > 0 ==> Lead(i, fps) * fps as real == (1000 * i) as real - 250.0
    ensures Lead(i + 1, fps) * fps as real == (1000 * i) as real + 750.0
  {
    var f := fps as real;
    assert 1000.0 * i as real / f * f == 1000.0 * i as real;
    assert (i as real - 0.25) / f * f == i as real - 0.25;
    assert ((i + 1) as real - 0.25) / f * f == (i + 1) as real - 0.25;
    assert (i as real - 0.25) / f * 1000.0 * f == (i as real - 0.25) * 1000.0;
    assert ((i + 1) as real - 0.25) / f * 1000.0 * f == ((i + 1) as real - 0.25) * 1000.0;
    LeadSign(i, fps);
    LeadSign(i + 1, fps);
  }

  lemma LeadSign(i: nat, fps: nat)
    requires fps > 0
    ensures i > 0 ==> Lead(i, fps) == (i as real - 0.25) / fps as real * 1000.0
    ensures Lead(i, fps) >= 0.0
  {
    assert i > 0 ==> (i as real - 0.25) / fps as real > 0.0;
  }

  lemma Fraction(d: real, f: real, r: real)
    requires f > 0.0 && d * f == r && 0.0 <= r < f
    ensures 0.0 <= d < 1.0
  {
    assert d < 0.0 ==> d * f < 0.0;
    assert d >= 1.0 ==> d * f >= f;
  }

  /** The whole milliseconds of a frame time. */
  lemma PtsSplits(i: nat, fps: nat) returns (q: nat)
    requires fps > 0
    ensures 1000 * i == q * fps + Phase(i, fps)
    ensures q as real <= Pts(i, fps) < q as real + 1.0
  {
    q := 1000 * i / fps;
    TimesRate(i, fps);
    Product(q, fps);
    Fraction(Pts(i, fps) - q as real, fps as real, Phase(i, fps) as real);
  }

  lemma Product(q: nat, fps: nat)
    ensures (q as real) * (fps as real) == (q * fps) as real
  {
  }

  /** Frame i's own command is due at its time. */
  predicate OwnDue(i: nat, fps: nat, up: bool)
    requires fps > 0
  {
    Stamp(i, fps, up) as real <= Pts(i, fps)
  }

  /** The next frame's command is not. */
  predicate NextWaits(i: nat, fps: nat, up: bool)
    requires fps > 0
  {
    Pts(i, fps) < Stamp(i + 1, fps, up) as real
  }

  lemma OwnDueWhen(i: nat, fps: nat, up: bool)
    requires fps > 0
    ensures OwnDue(i, fps, up) <==>
      2 * Phase(i, fps) < fps + 500 || (2 * Phase(i, fps) == fps + 500 && !up)
  {
    var q := PtsSplits(i, fps);
    if i > 0 {
      TimesRate(i, fps);
      LeadSign(i, fps);
      NearestAbove(Lead(i, fps), q, up);
      Scaled(Lead(i, fps), fps, q, 2 * Phase(i, fps) - 500);
    }
  }

  /** Being past the middle of the millisecond, in whole numbers. */
  lemma Scaled(x: real, fps: nat, q: nat, twice: int)
    requires fps > 0 && 2.0 * (x * fps as real) == (2 * q * fps + twice) as real
    ensures x > q as real + 0.5 <==> twice > fps
    ensures x == q as real + 0.5 <==> twice == fps
  {
    var f := fps as real;
    var d := x - (q as real + 0.5);
    Product(q, fps);
    assert 2.0 * (d * f) == (twice - fps) as real;
    assert d > 0.0 <==> d * f > 0.0;
    assert d == 0.0 <==> d * f == 0.0;
  }

  lemma NextWaitsWhen(i: nat, fps: nat, up: bool)
    requires fps > 0
    ensures NextWaits(i, fps, up) <==>
      2 * Phase(i, fps) + 1500 > fps || (2 * Phase(i, fps) + 1500 == fps && up)
  {
    var q := PtsSplits(i, fps);
    TimesRate(i, fps);
    LeadSign(i + 1, fps);
    NearestAbove(Lead(i + 1, fps), q, up);
    Scaled(Lead(i + 1, fps), fps, q, 2 * Phase(i, fps) + 1500);
  }

  // ---------------------------------------------------------------- every frame

  ghost predicate AllOwnDue(fps: nat, up: bool)
    requires fps > 0
  {
    forall i: nat :: OwnDue(i, fps, up)
  }

  ghost predicate AllNextWait(fps: nat, up: bool)
    requires fps > 0
  {
    forall i: nat :: NextWaits(i, fps, up)
  }

  /** Every frame's own command is due at its time exactly below 500 plus twice the greatest
      common divisor of the rate and 1000, or at it if ties round down. */
  lemma OwnDueExactly(fps: nat, up: bool)
    requires fps > 0
    ensures AllOwnDue(fps, up) <==>
      fps < 500 + 2 * Gcd(1000, fps) || (fps == 500 + 2 * Gcd(1000, fps) && !up)
  {
    var worst := PhaseReached(fps);
    OwnDueWhen(worst, fps, up);
    forall i: nat
      ensures OwnDue(worst, fps, up) ==> OwnDue(i, fps, up)
    {
      OwnDueWhen(i, fps, up);
      PhaseBound(i, fps);
    }
  }

  /** The next frame's command is never due early exactly below 1500 frames a second, or at
      it if ties round up. */
  lemma NextWaitsExactly(fps: nat, up: bool)
    requires fps > 0
    ensures AllNextWait(fps, up) <==> fps < 1500 || (fps == 1500 && up)
  {
    NextWaitsWhen(0, fps, up);
    assert Phase(0, fps) == 0;
    forall i: nat
      ensures NextWaits(0, fps, up) ==> NextWaits(i, fps, up)
    {
      NextWaitsWhen(i, fps, up);
    }
  }

  /** The rates the script is exact for. */
  predicate Steady(fps: nat) {
    fps > 0 && fps < 500 + 2 * Gcd(1000, fps) && fps < 1500
  }

  /** All rates up to 500 are, and some above: 1000 is, 999 is not. */
  lemma SteadyRates(fps: nat)
    ensures 0 < fps <= 500 ==> Steady(fps)
    ensures Steady(1000) && !Steady(999)
  {
    assert Gcd(1000, 1000) == Gcd(1000, 0) == 1000;
    assert Gcd(1000, 999) == Gcd(999, 1) == Gcd(1, 0) == 1;
  }

  /** At 999 frames a second some frame is shown before its own command is due. */
  lemma TooFastForMilliseconds(up: bool)
    ensures !AllOwnDue(999, up)
  {
    SteadyRates(1);
    OwnDueExactly(999, up);
  }

  lemma PtsClimb(i: nat, j: nat, fps: nat)
    requires fps > 0 && i <= j
    ensures Pts(i, fps) <= Pts(j, fps)
  {
    assert 1000.0 * i as real <= 1000.0 * j as real;
  }

  ghost predicate AllInTime(fps: nat)
    requires fps > 0
  {
    forall i: nat :: InTime(Pts(i, fps), i, fps)
  }

  lemma InTimeParts(i: nat, fps: nat)
    requires fps > 0
    ensures InTime(Pts(i, fps), i, fps)
      <==> OwnDue(i, fps, true) && OwnDue(i, fps, false) && NextWaits(i, fps, true) && NextWaits(i, fps, false)
  {
    if InTime(Pts(i, fps), i, fps) {
      InTimeAt(Pts(i, fps), i, fps, true);
      InTimeAt(Pts(i, fps), i, fps, false);
    }
  }

  lemma AllInTimeParts(fps: nat)
    requires fps > 0
    ensures AllInTime(fps)
      <==> AllOwnDue(fps, true) && AllOwnDue(fps, false) && AllNextWait(fps, true) && AllNextWait(fps, false)
  {
    forall i: nat
      ensures InTime(Pts(i, fps), i, fps)
        <==> OwnDue(i, fps, true) && OwnDue(i, fps, false) && NextWaits(i, fps, true) && NextWaits(i, fps, false)
    {
      InTimeParts(i, fps);
    }
  }

  /** At its exact time every frame's command is due and the next one's is not, however ties
      round, exactly at the steady rates. */
  lemma SteadyInTime(fps: nat)
    requires fps > 0
    ensures AllInTime(fps) <==> Steady(fps)
  {
    AllInTimeParts(fps);
    OwnDueExactly(fps, true);
    OwnDueExactly(fps, false);
    NextWaitsExactly(fps, true);
    NextWaitsExactly(fps, false);
  }

  /** Command j is due at the time of frame i just when j <= i. */
  ghost predicate LatestIsOwn(i: nat, j: nat, fps: nat)
    requires fps > 0
  {
    forall up :: Stamp(j, fps, up) as real <= Pts(i, fps) <==> j <= i
  }

  /** The latest command due is the frame's own, for every frame and every rounding of ties,
      exactly at the steady rates. */
  lemma LatestIsOwnExactly(fps: nat)
    requires fps > 0
    ensures (forall i: nat, j: nat :: LatestIsOwn(i, j, fps)) <==> Steady(fps)
  {
    SteadyInTime(fps);
    if Steady(fps) {
      forall i: nat, j: nat
        ensures LatestIsOwn(i, j, fps)
      {
        SteadyOrder(i, j, fps);
      }
    }
    if forall i: nat, j: nat :: LatestIsOwn(i, j, fps) {
      forall i: nat
        ensures InTime(Pts(i, fps), i, fps)
      {
        assert LatestIsOwn(i, i, fps) && LatestIsOwn(i, i + 1, fps);
      }
    }
  }

  lemma SteadyOrder(i: nat, j: nat, fps: nat)
    requires fps > 0 && AllInTime(fps)
    ensures LatestIsOwn(i, j, fps)
  {
    forall up
      ensures Stamp(j, fps, up) as real <= Pts(i, fps) <==> j <= i
    {
      if j <= i {
        PtsClimb(j, i, fps);
        InTimeAt(Pts(j, fps), j, fps, up);
      } else {
        PtsClimb(i, j - 1, fps);
        InTimeAt(Pts(j - 1, fps), j - 1, fps, up);
      }
    }
  }

  // ---------------------------------------------------------------- the captions

  /** The times of the first n frames. */
  function Exact(n: nat, fps: nat): (pts: seq<real>)
    requires fps > 0
    ensures |pts| == n && forall i: nat | i < n :: pts[i] == Pts(i, fps)
  {
    seq(n, i requires 0 <= i < n => Pts(i, fps))
  }

  /** Replayed at exact frame times, the script shows frame i line i. */
  ghost predicate ShowsOwn(lines: seq<string>, ties: seq<bool>, fps: nat, i: nat)
    requires fps > 0 && |ties| == |lines| && i < |lines|
  {
    Play(Commands(Stamps(|lines|, fps, ties), lines), 0, None, Exact(|lines|, fps))[i] == Some(OverlayText(lines[i]))
  }

  ghost predicate AlwaysShowsOwn(fps: nat)
    requires fps > 0
  {
    forall lines, ties, i: nat | |ties| == |lines| && i < |lines| :: ShowsOwn(lines, ties, fps, i)
  }

  lemma SteadyShows(fps: nat)
    requires Steady(fps)
    ensures AlwaysShowsOwn(fps)
  {
    SteadyInTime(fps);
    forall lines: seq<string>, ties: seq<bool>, i: nat | |ties| == |lines| && i < |lines|
      ensures ShowsOwn(lines, ties, fps, i)
    {
      var cmds := Commands(Stamps(|lines|, fps, ties), lines);
      ScriptPlays(lines, cmds, fps, ties, Exact(|lines|, fps), i);
    }
  }

  lemma FireStops(cmds: seq<Command>, k: nat, text: Option<string>, pts: real, m: nat)
    requires k <= m < |cmds| && cmds[m].time as real > pts
    ensures var (next, now) := Fire(cmds, k, text, pts);
      next <= m && (now == text || exists q :: 0 <= q < m && now == Some(cmds[q].arg))
    decreases |cmds| - k
  {
  }

  /** As long as command m is not due, its text is not shown, unless another's is the same. */
  lemma {:induction false} NotYetShown(cmds: seq<Command>, k: nat, text: Option<string>, pts: seq<real>, i: nat, m: nat)
    requires k <= m < |cmds| && i < |pts|
    requires forall j | 0 <= j <= i :: cmds[m].time as real > pts[j]
    requires forall q | 0 <= q < m :: cmds[q].arg != cmds[m].arg
    requires text != Some(cmds[m].arg)
    ensures Play(cmds, k, text, pts)[i] != Some(cmds[m].arg)
    decreases |pts|
  {
    var (next, now) := Fire(cmds, k, text, pts[0]);
    FireStops(cmds, k, text, pts[0], m);
    if i > 0 {
      assert forall j | 0 <= j <= i - 1 :: pts[1..][j] == pts[j + 1];
      NotYetShown(cmds, next, now, pts[1..], i - 1, m);
    }
  }

  /** Lines that all differ. */
  function Numbered(n: nat): (lines: seq<string>)
    ensures |lines| == n && forall i | 0 <= i < n :: lines[i] == LayerLine(i, 0)
  {
    seq(n, i requires 0 <= i < n => LayerLine(i, 0))
  }

  function Alike(up: bool, n: nat): (ties: seq<bool>)
    ensures |ties| == n && forall i | 0 <= i < n :: ties[i] == up
  {
    seq(n, _ => up)
  }

  lemma NumberedDiffer(i: int, j: int)
    requires i != j
    ensures OverlayText(LayerLine(i, 0)) != OverlayText(LayerLine(j, 0))
  {
    LayerLineKept(i, 0);
    LayerLineKept(j, 0);
    if LayerLine(i, 0) == LayerLine(j, 0) {
      LayerLineInjective(i, j, 0);
    }
  }

  lemma LateShowsOther(fps: nat, i: nat, up: bool)
    requires fps > 0 && !OwnDue(i, fps, up)
    ensures !ShowsOwn(Numbered(i + 1), Alike(up, i + 1), fps, i)
  {
    var lines, ties := Numbered(i + 1), Alike(up, i + 1);
    var cmds := Commands(Stamps(i + 1, fps, ties), lines);
    forall q | 0 <= q < i
      ensures cmds[q].arg != cmds[i].arg
    {
      NumberedDiffer(q, i);
    }
    var pts := Exact(i + 1, fps);
    forall j | 0 <= j <= i
      ensures cmds[i].time as real > pts[j]
    {
      PtsClimb(j, i, fps);
    }
    NotYetShown(cmds, 0, None, pts, i, i);
  }

  lemma EarlyShowsOther(fps: nat)
    requires fps > 0 && !NextWaits(0, fps, false)
    ensures !ShowsOwn(Numbered(2), Alike(false, 2), fps, 0)
  {
    var lines, ties, pts := Numbered(2), Alike(false, 2), Exact(2, fps);
    var cmds := Commands(Stamps(2, fps, ties), lines);
    LeadIs(0, fps);
    assert cmds[0].time == 0 && pts[0] == 0.0;
    assert cmds[1].time as real <= pts[0];
    assert Fire(cmds, 2, Some(cmds[1].arg), pts[0]) == (2, Some(cmds[1].arg));
    assert Fire(cmds, 1, Some(cmds[0].arg), pts[0]) == (2, Some(cmds[1].arg));
    assert Fire(cmds, 0, None, pts[0]) == (2, Some(cmds[1].arg));
    NumberedDiffer(0, 1);
  }

  /** The counter is right on every frame, whatever the lines and however ties round, exactly
      at the steady rates. */
  lemma CaptionsRightExactly(fps: nat)
    requires fps > 0
    ensures AlwaysShowsOwn(fps) <==> Steady(fps)
  {
    if Steady(fps) {
      SteadyShows(fps);
    } else if fps >= 1500 {
      NextWaitsWhen(0, fps, false);
      EarlyShowsOther(fps);
    } else {
      var worst := PhaseReached(fps);
      OwnDueWhen(worst, fps, true);
      LateShowsOther(fps, worst, true);
    }
  }
}
