/** Under E1 to E3 and when saves succeed: the encoder, which reads frame files up to the
    first missing index, reads every committed frame and at most one more. */
module EncoderPrefix {
  import opened Basics
  import opened Sessions
  import opened Protocol
  import BasicInvariant
  import Identity
  import Ownership
  import FrameTruth

  /** The frame files are exactly 1..n. */
  ghost predicate FilesTo(stills: map<nat, Still>, n: nat) {
    forall k: nat :: k in stills <==> 1 <= k <= n
  }

  /** How many stills a scan from file `from` to the first missing index reads. */
  function Scan(stills: map<nat, Still>, from: nat): (n: nat)
    decreases |stills.Keys - set k: nat | k in stills && k < from|
  {
    if from !in stills then 0
    else
      assert from in stills.Keys - (set k: nat | k in stills && k < from);
      assert from !in stills.Keys - (set k: nat | k in stills && k < from + 1);
      assert stills.Keys - (set k: nat | k in stills && k < from + 1)
           < stills.Keys - (set k: nat | k in stills && k < from);
      SubsetSmaller(stills.Keys - (set k: nat | k in stills && k < from + 1),
                    stills.Keys - (set k: nat | k in stills && k < from));
      1 + Scan(stills, from + 1)
  }

  lemma SubsetSmaller(a: set<nat>, b: set<nat>)
    requires a < b
    ensures |a| < |b|
  {
    assert b == a + (b - a);
    assert b - a != {};
  }

  lemma {:induction false} ScanReads(stills: map<nat, Still>, from: nat, n: nat)
    requires FilesTo(stills, n) && 1 <= from <= n + 1
    ensures Scan(stills, from) == n + 1 - from
    decreases n + 1 - from
  {
    if from <= n {
      assert from in stills;
      ScanReads(stills, from + 1, n);
    } else {
      assert from !in stills;
    }
  }

  ghost predicate AtMostOneMore(f: Folder) {
    && (f.state.None? ==> FilesTo(f.stills, 0))
    && (f.state.Some? && !f.handedOver ==>
          FilesTo(f.stills, f.state.value.frames) || FilesTo(f.stills, f.state.value.frames + 1))
  }

  ghost predicate DiskPrefix(disk: Disk) {
    forall p | p in disk :: AtMostOneMore(disk[p])
  }

  /** An open session's count is its state file's, but for the moment between counting a
      frame and publishing it. */
  ghost predicate CountSaved(o: Open, storing: bool, disk: Disk) {
    o.dir in disk && !disk[o.dir].handedOver && disk[o.dir].state.Some? ==>
      if storing
      then o.sess.frames == disk[o.dir].state.value.frames + 1 && FilesTo(disk[o.dir].stills, o.sess.frames)
      else o.sess.frames == disk[o.dir].state.value.frames
  }

  ghost predicate StoringOn(t: Shot, h: nat) { t.Storing? && t.h == h }

  ghost predicate Counts(open: seq<Open>, shot: Shot, disk: Disk) {
    forall h: nat | h < |open| :: CountSaved(open[h], StoringOn(shot, h), disk)
  }

  ghost predicate Inv(s: State) {
    && DiskPrefix(s.disk)
    && Counts(s.open, s.shot, s.disk)
    && (s.cb.Creating? && Staged(DirName(s.cb.made.taskID)) in s.disk ==>
          FilesTo(s.disk[Staged(DirName(s.cb.made.taskID))].stills, 0))
  }

  ghost predicate All(s: State) { FrameTruth.All(s) && Inv(s) }

  /** Replacing one folder is fine if it keeps its own count and its session's. */
  lemma ReplaceFolder(open: seq<Open>, shot: Shot, disk: Disk, p: Place, f: Folder)
    requires DiskPrefix(disk) && Counts(open, shot, disk) && AtMostOneMore(f)
    requires forall h: nat | h < |open| && open[h].dir == p :: CountSaved(open[h], StoringOn(shot, h), disk[p := f])
    ensures DiskPrefix(disk[p := f]) && Counts(open, shot, disk[p := f])
  {
  }

  lemma AddOpen(open: seq<Open>, shot: Shot, disk: Disk, o: Open)
    requires Counts(open, shot, disk) && CountSaved(o, StoringOn(shot, |open|), disk)
    ensures Counts(open + [o], shot, disk)
  {
  }

  lemma TouchStill(before: map<nat, Still>, after: map<nat, Still>, n: nat)
    requires FilesTo(before, n) || FilesTo(before, n + 1)
    requires forall k: nat | k != n + 1 :: k in before <==> k in after
    ensures if n + 1 in after then FilesTo(after, n + 1) else FilesTo(after, n)
  {
  }

  /** A grab changes one file of one folder, the one after those its session counts. */
  lemma GrabTouches(s: State, p: Place, g: Folder)
    requires All(s) && s.shot.Grabbing? && p == s.shot.dest && p in s.disk
    requires g == s.disk[p].(stills := g.stills)
    requires forall k: nat | k != s.shot.index :: k in s.disk[p].stills <==> k in g.stills
    ensures DiskPrefix(s.disk[p := g]) && Counts(s.open, s.shot, s.disk[p := g])
    ensures s.cb.Creating? ==> p != Staged(DirName(s.cb.made.taskID))
  {
    FrameTruth.AllApart(s);
    var h := s.shot.h;
    assert CountSaved(s.open[h], false, s.disk) && AtMostOneMore(s.disk[p]);
    assert Ownership.OpenPlaced(s.open[h], Ownership.IsGone(s, h), s.disk);
    if !s.disk[p].handedOver {
      TouchStill(s.disk[p].stills, g.stills, s.open[h].sess.frames);
    }
    ReplaceFolder(s.open, s.shot, s.disk, p, g);
  }

  /** What every step of a grab looks like. */
  lemma GrabShape(s: State, k: ShotStep)
    requires ShotEnabled(s, k) && s.shot.Grabbing?
    ensures var t := Capture(s, k); var p := s.shot.dest;
      && t.open == s.open && t.cb == s.cb && !t.shot.Storing?
      && (if p !in s.disk then t.disk == s.disk
          else
            && p in t.disk && t.disk == s.disk[p := t.disk[p]]
            && t.disk[p] == s.disk[p].(stills := t.disk[p].stills)
            && forall n: nat | n != s.shot.index :: n in s.disk[p].stills <==> n in t.disk[p].stills)
  {
  }

  lemma NoFolderTouched(s: State, t: State)
    requires Inv(s) && s.shot.Grabbing? && !t.shot.Storing?
    requires t.disk == s.disk && t.open == s.open && t.cb == s.cb
    ensures Inv(t)
  {
    assert forall h: nat | h < |s.open| :: StoringOn(t.shot, h) == StoringOn(s.shot, h);
  }

  lemma OneFolderTouched(s: State, t: State, p: Place, g: Folder)
    requires s.shot.Grabbing? && !t.shot.Storing? && t.open == s.open && t.cb == s.cb && t.disk == s.disk[p := g]
    requires DiskPrefix(t.disk) && Counts(s.open, s.shot, t.disk)
    requires Inv(s) && (s.cb.Creating? ==> p != Staged(DirName(s.cb.made.taskID)))
    ensures Inv(t)
  {
    assert forall h: nat | h < |s.open| :: StoringOn(t.shot, h) == StoringOn(s.shot, h);
  }

  lemma GrabStep(s: State, k: ShotStep)
    requires All(s) && ShotEnabled(s, k) && s.shot.Grabbing?
    ensures Inv(Capture(s, k))
  {
    var t := Capture(s, k);
    var p := s.shot.dest;
    GrabShape(s, k);
    if p in s.disk {
      GrabTouches(s, p, t.disk[p]);
      OneFolderTouched(s, t, p, t.disk[p]);
    } else {
      NoFolderTouched(s, t);
    }
  }

  lemma CommitStep(s: State, wrote: bool)
    requires All(s) && s.shot.Landed? && !s.cb.Saving?
    requires wrote <==> s.open[s.shot.h].dir in s.disk
    ensures Inv(CommitShot(s, wrote))
  {
    FrameTruth.AllApart(s);
    var t := CommitShot(s, wrote);
    var h, o := s.shot.h, s.open[s.shot.h];
    assert CountSaved(o, false, s.disk);
    if wrote {
      assert AtMostOneMore(s.disk[o.dir]);
      assert t.disk[o.dir].stills == s.disk[o.dir].stills;
    }
    forall k: nat | k < |t.open|
      ensures CountSaved(t.open[k], StoringOn(t.shot, k), t.disk)
    {
      assert CountSaved(s.open[k], StoringOn(s.shot, k), s.disk);
    }
  }

  lemma StoreStep(s: State, ok: bool)
    requires All(s) && s.shot.Storing? && (ok ==> CanRename(s.disk, s.open[s.shot.h].dir))
    requires s.open[s.shot.h].dir in s.disk ==> ok
    ensures Inv(FinishCommit(s, ok))
  {
    FrameTruth.AllApart(s);
    var t := FinishCommit(s, ok);
    var h, o := s.shot.h, s.open[s.shot.h];
    assert CountSaved(o, true, s.disk);
    assert Ownership.OpenPlaced(o, Ownership.IsGone(s, h), s.disk);
    if ok {
      assert AtMostOneMore(s.disk[o.dir]);
    }
    forall k: nat | k < |t.open|
      ensures CountSaved(t.open[k], StoringOn(t.shot, k), t.disk)
    {
      assert CountSaved(s.open[k], StoringOn(s.shot, k), s.disk);
    }
  }

  lemma CaptureStep(s: State, k: ShotStep)
    requires All(s) && ShotEnabled(s, k) && SavesSucceed(s, OnCapture(k))
    ensures Inv(Capture(s, k))
  {
    match k
    case Scribble | GrabOk | GrabFail(_) => GrabStep(s, k);
    case Commit(wrote) => CommitStep(s, wrote);
    case CommitRename(ok) => StoreStep(s, ok);
    case Aim | Abandon | Leave =>
      assert forall h: nat | h < |s.open| :: StoringOn(Capture(s, k).shot, h) == StoringOn(s.shot, h);
  }

  lemma ListStep(s: State, order: seq<string>)
    requires All(s) && s.cb.Merged? && Listing(s.disk, order)
    ensures Inv(ListAll(s, order))
  {
  }

  lemma BeginStep(s: State, mkdir: bool, wrote: bool, now: int)
    requires All(s) && s.cb.Beginning?
    ensures Inv(BeginJob(s, mkdir, wrote, now))
  {
    var id := s.view.taskID;
    if id != "" {
      var dir := Staged(DirName(id));
      Ownership.NewcomerDistinct(s, id);
      Ownership.NewcomerApart(s, id);
      if dir in s.disk {
        assert AtMostOneMore(s.disk[dir]);
      }
      if dir in s.disk && s.disk[dir].state.Some? {
        AddOpen(s.open, s.shot, s.disk, Open(s.disk[dir].state.value, dir));
      } else if mkdir {
        ReplaceFolder(s.open, s.shot, s.disk, dir, BeginJob(s, mkdir, wrote, now).disk[dir]);
      }
    }
  }

  lemma CreateStep(s: State, ok: bool)
    requires All(s) && s.cb.Creating?
    requires ok ==> CanRename(s.disk, Staged(DirName(s.cb.made.taskID)))
    ensures Inv(FinishCreate(s, ok))
  {
    if ok {
      FrameTruth.AllApart(s);
      var dir := Staged(DirName(s.cb.made.taskID));
      var disk := Renamed(s.disk, dir);
      ReplaceFolder(s.open, s.shot, s.disk, dir, disk[dir]);
      AddOpen(s.open, s.shot, disk, Open(s.cb.made, dir));
    }
  }

  lemma RecordStep(s: State, wrote: bool)
    requires All(s) && s.cb.Recording? && !s.shot.Storing?
    requires wrote ==> s.open[s.cb.h].dir in s.disk
    ensures Inv(RecordView(s, wrote))
  {
    var t := RecordView(s, wrote);
    var o := s.open[s.cb.h];
    if t.cb.Saving? {
      assert AtMostOneMore(s.disk[o.dir]);
    }
    forall k: nat | k < |t.open|
      ensures CountSaved(t.open[k], StoringOn(t.shot, k), t.disk)
    {
      assert CountSaved(s.open[k], StoringOn(s.shot, k), s.disk);
    }
  }

  lemma SaveStep(s: State, ok: bool)
    requires All(s) && s.cb.Saving? && (ok ==> CanRename(s.disk, s.open[s.cb.h].dir))
    ensures Inv(FinishSave(s, ok))
  {
    if ok {
      FrameTruth.AllApart(s);
      var o := s.open[s.cb.h];
      assert CountSaved(o, StoringOn(s.shot, s.cb.h), s.disk) && AtMostOneMore(s.disk[o.dir]);
      assert Ownership.OpenPlaced(o, Ownership.IsGone(s, s.cb.h), s.disk);
      ReplaceFolder(s.open, s.shot, s.disk, o.dir, Renamed(s.disk, o.dir)[o.dir]);
    }
  }

  /** A step that neither saves nor grabs. */
  lemma QuietCall(s: State, k: CallStep)
    requires Inv(s) && CallEnabled(s, k) && FrameTruth.Quiet(k)
    ensures Inv(Call(s, k))
  {
    FrameTruth.QuietSame(s, k);
    QuietKeeps(s, Call(s, k));
  }

  lemma QuietKeeps(s: State, t: State)
    requires Inv(s) && t.disk == s.disk && t.open == s.open && !t.cb.Creating?
    requires t.shot == s.shot || (s.shot.Resting? && t.shot.Delayed?)
    ensures Inv(t)
  {
    assert forall h: nat | h < |s.open| :: StoringOn(t.shot, h) == StoringOn(s.shot, h);
  }

  lemma OpenStep(s: State, k: CallStep)
    requires All(s) && CallEnabled(s, k) && !FrameTruth.Quiet(k)
    ensures Inv(Call(s, k))
  {
    match k
    case List(order) => ListStep(s, order);
    case Begin(mkdir, wrote, now) => BeginStep(s, mkdir, wrote, now);
    case CreateRename(ok) => CreateStep(s, ok);
    case Record(wrote) => RecordStep(s, wrote);
    case SaveRename(ok) => SaveStep(s, ok);
  }

  lemma FinalStep(s: State, h: nat, g: Finaliser, x: Effect)
    requires All(s) && CanAdvance(s, h, g, x)
    ensures Inv(Advance(s, h, g, x))
  {
    FrameTruth.AllApart(s);
    var t := Advance(s, h, g, x);
    var dir := s.open[h].dir;
    assert Ownership.OpenPlaced(s.open[h], Ownership.IsGone(s, h), s.disk);
    if dir in s.disk {
      assert AtMostOneMore(s.disk[dir]);
    }
    forall k: nat | k < |t.open|
      ensures CountSaved(t.open[k], StoringOn(t.shot, k), t.disk)
    {
      assert CountSaved(s.open[k], StoringOn(s.shot, k), s.disk);
      assert k != h ==> s.open[k].dir.name != dir.name;
    }
  }

  lemma DropStep(s: State, p: Place)
    requires Inv(s)
    ensures Inv(s.(disk := s.disk - {p}))
  {
  }

  /** Every action of every actor keeps the invariant. */
  lemma Step(c: Config, s: State, l: Label)
    requires All(s) && Enabled(c, s, l) && SavesSucceed(s, l)
    requires l.OnMessage? && l.call.Report? ==> E1(l.call.v) && E2(s, l.call.v) && E3(s, l.call.v)
    ensures All(Apply(c, s, l))
  {
    FrameTruth.Step(c, s, l);
    match l
    case OnMessage(k) => if FrameTruth.Quiet(k) { QuietCall(s, k); } else { OpenStep(s, k); }
    case OnCapture(k) => CaptureStep(s, k);
    case OnFinal(h, e) =>
      FinaliseAdvances(c, s, h, e);
      FinalStep(s, h, NextFinaliser(c, s, h, e), EffectOf(s.finals[h], e));
    case DropParked(p, _) => DropStep(s, p);
    case Crash =>
  }
}
