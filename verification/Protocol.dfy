/** The job lifecycle as a transition system: internal/service/service.go.

    One process runs a sequential MQTT callback, at most one capture goroutine and any
    number of finalisers; a crash keeps only the disk. Each label below is one atomic
    action of one of them, so a run interleaves them freely. Everything the program
    cannot decide itself (a grab, a write, a rename, a post, the clock, a crash) is a
    parameter of the label. */
module Protocol {
  import opened Basics
  import opened Sessions

  // ---------------------------------------------------------------- the printer

  datatype Gcode = Unreported | Running | Pause | Finish | Failed | Idle | Other

  predicate Ended(g: Gcode) { g.Finish? || g.Failed? || g.Idle? }

  predicate Printing(g: Gcode) { g.Running? || g.Pause? }

  /** What the merged telemetry says: the accessors the lifecycle reads. */
  datatype View = View(gcode: Gcode, taskID: string, layer: int, total: int, jobName: string)

  const NO_VIEW := View(Unreported, "", 0, 0, "")

  /** What the reports so far say about the printer, across every process: the job it is
      on, the jobs that are over, and the highest layer of the live one. */
  datatype Printer = Printer(live: Option<string>, over: set<string>, floor: int)

  function LiveSet(e: Printer): set<string> {
    if e.live.Some? then {e.live.value} else {}
  }

  /** The printer after a report. A job is over once another is reported, once an end state
      is reported, or once the first state a process hears is neither RUNNING nor PAUSE. */
  function Heard(e: Printer, first: bool, v: View): Printer {
    if v.gcode.Running? || (first && v.gcode.Pause?) then
      var on := if v.taskID == "" || e.live == Some(v.taskID) then e
                else Printer(Some(v.taskID), e.over + LiveSet(e), 0);
      if v.gcode.Running? && v.layer > on.floor then on.(floor := v.layer) else on
    else if Ended(v.gcode) || (first && !v.gcode.Unreported?) then
      Printer(None, e.over + LiveSet(e), 0)
    else e
  }

  // ---------------------------------------------------------------- the process

  /** A `*Session` of this process: its fields, and where its directory is now. */
  datatype Open = Open(sess: Session, dir: Place)

  /** Where the MQTT callback is. `Saving` and `Creating` sit between the two halves of
      `Save`: the temporary file is written and not yet renamed. */
  datatype Callback =
    | Waiting
    | Merged
    | Settling(queue: seq<nat>)
    | Handling
    | Beginning
    | Creating(made: Session)
    | Recording(h: nat)
    | Saving(h: nat, layer: int)
    | Shooting(h: nat, layer: int)

  /** Where the capture goroutine is; `Resting` is `capturing == false`. When the frame
      was triggered, `owner` was the session's id and `job` the id in the merged view. */
  datatype Shot =
    | Resting
    | Delayed(h: nat, layer: int, owner: string, job: string)
    | Grabbing(h: nat, layer: int, owner: string, job: string, dest: Place, index: nat)
    | Landed(h: nat, layer: int, owner: string, job: string, index: nat)
    | Storing(h: nat)
    | Leaving(h: nat)

  predicate OnShot(t: Shot, h: nat) { !t.Resting? && t.h == h }

  datatype Cover = NoCover | OwnCover | LastFrame(index: nat)

  datatype Removal = TooFew | Posted | KeptLocally

  datatype Phase =
    | Draining
    | Covering
    | Judging(cover: Cover)
    | Encoding(cover: Cover)
    | Posting(attempt: nat)
    | Opening(cover: Cover)
    | Moving(cover: Cover)
    | Delivering(cover: Cover)
    | Clearing(why: Removal)
    | Parking(reason: Reason)
    | Gone

  /** A finaliser; `drained` says that its wait ended because no capture was in flight. */
  datatype Finaliser = Finaliser(phase: Phase, drained: bool, skipDelay: bool)

  datatype State = State(
    disk: Disk, printer: Printer,
    view: View, reconciled: bool,
    open: seq<Open>, current: Option<nat>,
    cb: Callback, shot: Shot, finals: map<nat, Finaliser>)

  datatype Config = Config(minFrames: int, local: bool, crop: bool)

  const UPLOAD_ATTEMPTS := 3

  const INITIAL := State(
    map[], Printer(None, {}, 0), NO_VIEW, false, [], None, Waiting, Resting, map[])

  // ---------------------------------------------------------------- labels

  datatype PostOutcome = Accepted | TryAgain | Refused

  datatype FinalEvent =
    | DrainClear
    | DrainTimeout
    | CoverTaken(grabbed: bool, cropped: bool)
    | Judged
    | Encoded(ok: bool)
    | PostAnswered(outcome: PostOutcome)
    | OutputReady(ok: bool)
    | VideoMoved(ok: bool)
    | CoverMoved(moved: bool)
    | Discarded
    | ParkRenamed(ok: bool)

  datatype Why = Swept | Reposted

  datatype CallStep =
    | Report(v: View)
    | List(order: seq<string>)
    | ListFails
    | Settle
    | Handle
    | Begin(mkdir: bool, wrote: bool, now: int)
    | CreateRename(ok: bool)
    | Record(wrote: bool)
    | SaveRename(ok: bool)
    | Shoot(room: bool)

  datatype ShotStep =
    | Aim
    | Abandon
    | Scribble
    | GrabOk
    | GrabFail(removed: bool)
    | Commit(wrote: bool)
    | CommitRename(ok: bool)
    | Leave

  datatype Label =
    | OnMessage(call: CallStep)
    | OnCapture(shot: ShotStep)
    | OnFinal(h: nat, event: FinalEvent)
    | DropParked(place: Place, why: Why)
    | Crash

  // ---------------------------------------------------------------- the callback

  predicate ChangedLayer(layer: int, last: int) {
    layer != last && layer > 0
  }

  function Hear(s: State, v: View): State {
    var first := !s.reconciled && !v.gcode.Unreported?;
    s.(view := v,
       printer := Heard(s.printer, !s.reconciled, v),
       cb := if first then Merged else Handling)
  }

  predicate Listable(disk: Disk, name: string) {
    Staged(name) in disk && disk[Staged(name)].state.Some?
  }

  predicate Listing(disk: Disk, order: seq<string>) {
    && (forall i | 0 <= i < |order| :: Listable(disk, order[i]))
    && (forall p | p in disk && p.Staged? && disk[p].state.Some? :: p.name in order)
    && (forall i, j | 0 <= i < j < |order| :: order[i] != order[j])
    && (forall i, j | 0 <= i < j < |order| ::
          disk[Staged(order[i])].state.value.startedAt >= disk[Staged(order[j])].state.value.startedAt)
  }

  function Loaded(disk: Disk, order: seq<string>): (loaded: seq<Open>)
    requires forall i | 0 <= i < |order| :: Listable(disk, order[i])
    ensures |loaded| == |order|
  {
    seq(|order|, i requires 0 <= i < |order| && Listable(disk, order[i]) =>
      Open(disk[Staged(order[i])].state.value, Staged(order[i])))
  }

  function ListAll(s: State, order: seq<string>): State
    requires forall i | 0 <= i < |order| :: Listable(s.disk, order[i])
  {
    s.(reconciled := true,
       open := s.open + Loaded(s.disk, order),
       cb := Settling(seq(|order|, i requires 0 <= i < |order| => |s.open| + i)))
  }

  function Release(s: State, h: nat, skipDelay: bool): State {
    s.(finals := s.finals[h := Finaliser(Draining, false, skipDelay)])
  }

  /** One turn of reconcile's loop, or its end. */
  function SettleOne(s: State): State
    requires s.cb.Settling?
    requires s.cb.queue != [] ==> s.cb.queue[0] < |s.open|
  {
    if s.cb.queue == [] then s.(cb := Handling)
    else
      var q := s.cb.queue[0];
      var rest := s.(cb := Settling(s.cb.queue[1..]));
      if Printing(s.view.gcode) && s.open[q].sess.taskID == s.view.taskID
      then rest.(current := Some(q))
      else Release(rest, q, true)
  }

  function HandleView(s: State): State
    requires s.current.Some? ==> s.current.value < |s.open|
  {
    if s.view.gcode.Running? then
      if s.current.None? then s.(cb := Beginning)
      else
        var h := s.current.value;
        if s.open[h].sess.taskID != s.view.taskID && s.view.taskID != ""
        then Release(s.(current := None, cb := Beginning), h, true)
        else s.(cb := Recording(h))
    else if Ended(s.view.gcode) && s.current.Some? then
      Release(s.(current := None, cb := Waiting), s.current.value, false)
    else s.(cb := Waiting)
  }

  function Fresh(v: View, now: int): Session {
    Session(v.taskID, v.jobName, now, 0, -1, v.total, [], v.layer > 1)
  }

  function FolderAt(disk: Disk, p: Place): Folder {
    if p in disk then disk[p] else EMPTY_FOLDER
  }

  /** `begin`, and `Store.Create` up to the first half of its `Save`. */
  function BeginJob(s: State, mkdir: bool, wrote: bool, now: int): State {
    var dir := Staged(DirName(s.view.taskID));
    if s.view.taskID == "" then s.(cb := Waiting)
    else if dir in s.disk && s.disk[dir].state.Some? then
      s.(open := s.open + [Open(s.disk[dir].state.value, dir)],
         current := Some(|s.open|),
         cb := Recording(|s.open|))
    else if !mkdir then s.(cb := Waiting)
    else
      var made := Fresh(s.view, now);
      var folder := FolderAt(s.disk, dir);
      if wrote
      then s.(disk := s.disk[dir := folder.(temp := Some(made))], cb := Creating(made))
      else s.(disk := s.disk[dir := folder.(temp := None)], cb := Waiting)
  }

  predicate CanRename(disk: Disk, p: Place) {
    p in disk && disk[p].temp.Some?
  }

  /** The second half of `Save`: the temporary file becomes the state file. */
  function Renamed(disk: Disk, p: Place): Disk
    requires CanRename(disk, p)
  {
    disk[p := disk[p].(state := disk[p].temp, temp := None)]
  }

  /** The first half of `Save`; a missing directory or a failed write leaves things as they are. */
  function Written(disk: Disk, p: Place, x: Session): Disk
    requires p in disk
  {
    disk[p := disk[p].(temp := Some(x))]
  }

  function FinishCreate(s: State, ok: bool): State
    requires s.cb.Creating?
    requires ok ==> CanRename(s.disk, Staged(DirName(s.cb.made.taskID)))
  {
    if !ok then s.(cb := Waiting)
    else
      var dir := Staged(DirName(s.cb.made.taskID));
      s.(disk := Renamed(s.disk, dir),
         open := s.open + [Open(s.cb.made, dir)],
         current := Some(|s.open|),
         cb := Recording(|s.open|))
  }

  /** `record`, then `changedLayer`, then the first half of the `Save` it leads to. */
  function RecordView(s: State, wrote: bool): State
    requires s.cb.Recording? && s.cb.h < |s.open|
    requires wrote ==> s.open[s.cb.h].dir in s.disk
  {
    var h := s.cb.h;
    var was := s.open[h].sess;
    var noted := if was.totalLayers == 0 then was.(totalLayers := s.view.total) else was;
    if !ChangedLayer(s.view.layer, was.lastLayer) then
      s.(open := s.open[h := s.open[h].(sess := noted)], cb := Waiting)
    else
      var x := noted.(lastLayer := s.view.layer);
      var t := s.(open := s.open[h := s.open[h].(sess := x)]);
      if wrote
      then t.(disk := Written(s.disk, s.open[h].dir, x), cb := Saving(h, s.view.layer))
      else t.(cb := Shooting(h, s.view.layer))
  }

  function FinishSave(s: State, ok: bool): State
    requires s.cb.Saving? && s.cb.h < |s.open|
    requires ok ==> CanRename(s.disk, s.open[s.cb.h].dir)
  {
    var t := s.(cb := Shooting(s.cb.h, s.cb.layer));
    if ok then t.(disk := Renamed(s.disk, s.open[s.cb.h].dir)) else t
  }

  /** `capture` up to starting the goroutine. */
  function StartShot(s: State, room: bool): State
    requires s.cb.Shooting? && s.cb.h < |s.open|
  {
    var t := s.(cb := Waiting);
    if !s.shot.Resting? || !room then t
    else t.(shot := Delayed(s.cb.h, s.cb.layer, s.open[s.cb.h].sess.taskID, s.view.taskID))
  }

  // ---------------------------------------------------------------- the capture goroutine

  function TakeAim(s: State): State
    requires s.shot.Delayed? && s.shot.h < |s.open|
  {
    var o := s.open[s.shot.h];
    s.(shot := Grabbing(s.shot.h, s.shot.layer, s.shot.owner, s.shot.job, o.dir, o.sess.frames + 1))
  }

  function WithStill(disk: Disk, p: Place, index: nat, still: Still): Disk
    requires p in disk
  {
    disk[p := disk[p].(stills := disk[p].stills[index := still])]
  }

  function WithoutStill(disk: Disk, p: Place, index: nat): Disk
    requires p in disk
  {
    disk[p := disk[p].(stills := disk[p].stills - {index})]
  }

  function FinishGrab(s: State): State
    requires s.shot.Grabbing? && s.shot.dest in s.disk
  {
    var still := Photo(s.shot.owner, s.shot.job, s.shot.layer);
    s.(disk := WithStill(s.disk, s.shot.dest, s.shot.index, still),
       shot := Landed(s.shot.h, s.shot.layer, s.shot.owner, s.shot.job, s.shot.index))
  }

  function FailGrab(s: State, removed: bool): State
    requires s.shot.Grabbing?
  {
    var t := s.(shot := Leaving(s.shot.h));
    if removed && s.shot.dest in s.disk
    then t.(disk := WithoutStill(s.disk, s.shot.dest, s.shot.index))
    else t
  }

  function Counted(x: Session, layer: int): Session {
    x.(frames := x.frames + 1, layers := x.layers + [layer])
  }

  function CommitShot(s: State, wrote: bool): State
    requires s.shot.Landed? && s.shot.h < |s.open|
    requires wrote ==> s.open[s.shot.h].dir in s.disk
  {
    var o := s.open[s.shot.h];
    var x := Counted(o.sess, s.shot.layer);
    var t := s.(open := s.open[s.shot.h := o.(sess := x)]);
    if wrote
    then t.(disk := Written(s.disk, o.dir, x), shot := Storing(s.shot.h))
    else t.(shot := Leaving(s.shot.h))
  }

  function FinishCommit(s: State, ok: bool): State
    requires s.shot.Storing? && s.shot.h < |s.open|
    requires ok ==> CanRename(s.disk, s.open[s.shot.h].dir)
  {
    var t := s.(shot := Leaving(s.shot.h));
    if ok then t.(disk := Renamed(s.disk, s.open[s.shot.h].dir)) else t
  }

  // ---------------------------------------------------------------- the finalisers

  /** `coverFrame`: which picture the video gets as its poster. */
  function CoverOf(c: Config, skipDelay: bool, grabbed: bool, cropped: bool, last: nat, onDisk: bool): Cover {
    if !skipDelay && grabbed then OwnCover
    else if !onDisk then NoCover
    else if c.crop && cropped then OwnCover
    else LastFrame(last)
  }

  predicate FinalEnabled(c: Config, s: State, h: nat, e: FinalEvent) {
    h in s.finals && h < |s.open| &&
    var o := s.open[h];
    match s.finals[h].phase
    case Draining => e.DrainTimeout? || (e.DrainClear? && s.shot.Resting?)
    case Covering => e.CoverTaken?
    case Judging(_) => e.Judged?
    case Encoding(_) => e.Encoded?
    case Posting(_) => e.PostAnswered?
    case Opening(_) => e.OutputReady?
    case Moving(_) => e.VideoMoved?
    case Delivering(_) => e.CoverMoved?
    case Clearing(_) => e.Discarded?
    case Parking(r) =>
      e.ParkRenamed? && (e.ok ==> o.dir in s.disk && Parked(r, o.dir.name) !in s.disk)
    case Gone => false
  }

  function AfterPost(attempt: nat, answer: PostOutcome): Phase {
    if answer.Accepted? then Clearing(Posted)
    else if answer.TryAgain? && attempt < UPLOAD_ATTEMPTS then Posting(attempt + 1)
    else Parking(UploadFailed)
  }

  /** The finaliser's own next phase; only the last four events below touch the disk. */
  function NextPhase(c: Config, s: State, h: nat, e: FinalEvent): Phase
    requires FinalEnabled(c, s, h, e)
  {
    var o := s.open[h];
    match s.finals[h].phase
    case Draining => Covering
    case Covering =>
      Judging(CoverOf(c, s.finals[h].skipDelay, e.grabbed, e.cropped, o.sess.frames,
                      o.dir in s.disk && o.sess.frames in s.disk[o.dir].stills))
    case Judging(cover) =>
      if o.sess.frames < c.minFrames then Clearing(TooFew) else Encoding(cover)
    case Encoding(cover) =>
      if !e.ok then Parking(EncodeFailed)
      else if c.local then Opening(cover)
      else Posting(1)
    case Posting(attempt) => AfterPost(attempt, e.outcome)
    case Opening(cover) => if e.ok then Moving(cover) else Parking(OutputUnwritable)
    case Moving(cover) => if e.ok then Delivering(cover) else Parking(OutputUnwritable)
    case Delivering(_) => Clearing(KeptLocally)
    case Clearing(_) => Gone
    case Parking(_) => Gone
    case Gone => Gone
  }

  function HandOver(disk: Disk, p: Place, cover: Cover): Disk {
    if p !in disk then disk
    else
      var f := disk[p];
      disk[p := f.(handedOver := true,
                   stills := if cover.LastFrame? then f.stills - {cover.index} else f.stills)]
  }

  /** What a finaliser's step does to its directory. */
  datatype Effect = Stay | Give(cover: Cover) | Remove | MoveTo(reason: Reason)

  function EffectOf(f: Finaliser, e: FinalEvent): Effect {
    match f.phase
    case Delivering(cover) => Give(if e.CoverMoved? && e.moved then cover else NoCover)
    case Clearing(_) => Remove
    case Parking(r) => if e.ParkRenamed? && e.ok then MoveTo(r) else Remove
    case _ => Stay
  }

  /** The finaliser of h moves on to g, with that effect on the disk. */
  function Advance(s: State, h: nat, g: Finaliser, x: Effect): State
    requires h < |s.open|
    requires x.MoveTo? ==> s.open[h].dir in s.disk
  {
    var o := s.open[h];
    var t := s.(finals := s.finals[h := g]);
    match x
    case Stay => t
    case Give(cover) => t.(disk := HandOver(s.disk, o.dir, cover))
    case Remove => t.(disk := s.disk - {o.dir})
    case MoveTo(r) =>
      var dest := Parked(r, o.dir.name);
      t.(disk := (s.disk - {o.dir})[dest := s.disk[o.dir]],
         open := s.open[h := o.(dir := dest)])
  }

  function NextFinaliser(c: Config, s: State, h: nat, e: FinalEvent): Finaliser
    requires FinalEnabled(c, s, h, e)
  {
    var f := s.finals[h];
    f.(phase := NextPhase(c, s, h, e), drained := f.drained || e.DrainClear?)
  }

  function Finalise(c: Config, s: State, h: nat, e: FinalEvent): State
    requires FinalEnabled(c, s, h, e)
  {
    Advance(s, h, NextFinaliser(c, s, h, e), EffectOf(s.finals[h], e))
  }

  /** How any finaliser step looks: it is done exactly when its directory is removed or moved. */
  predicate CanAdvance(s: State, h: nat, g: Finaliser, x: Effect) {
    && h in s.finals && h < |s.open|
    && !s.finals[h].phase.Gone?
    && (g.phase.Gone? <==> x.Remove? || x.MoveTo?)
    && (x.MoveTo? ==> s.open[h].dir in s.disk && Parked(x.reason, s.open[h].dir.name) !in s.disk)
    && (g.drained ==> s.finals[h].drained || s.shot.Resting?)
  }

  lemma FinaliseAdvances(c: Config, s: State, h: nat, e: FinalEvent)
    requires FinalEnabled(c, s, h, e)
    ensures CanAdvance(s, h, NextFinaliser(c, s, h, e), EffectOf(s.finals[h], e))
  {
  }

  lemma AdvanceFinals(s: State, h: nat, g: Finaliser, x: Effect)
    requires h < |s.open| && (x.MoveTo? ==> s.open[h].dir in s.disk)
    ensures Advance(s, h, g, x).finals == s.finals[h := g] && |Advance(s, h, g, x).open| == |s.open|
  {
  }

  // ---------------------------------------------------------------- the step relation

  function Restarted(s: State): State {
    INITIAL.(disk := s.disk, printer := s.printer)
  }

  predicate CallEnabled(s: State, k: CallStep) {
    match k
    case Report(_) => s.cb.Waiting?
    case List(order) => s.cb.Merged? && Listing(s.disk, order)
    case ListFails => s.cb.Merged?
    case Settle => s.cb.Settling? && (s.cb.queue != [] ==> s.cb.queue[0] < |s.open|)
    case Handle => s.cb.Handling? && (s.current.Some? ==> s.current.value < |s.open|)
    case Begin(_, _, _) => s.cb.Beginning?
    case CreateRename(ok) =>
      s.cb.Creating? && (ok ==> CanRename(s.disk, Staged(DirName(s.cb.made.taskID))))
    case Record(wrote) =>
      && s.cb.Recording? && !s.shot.Storing? && s.cb.h < |s.open|
      && (wrote ==> s.open[s.cb.h].dir in s.disk)
    case SaveRename(ok) =>
      s.cb.Saving? && s.cb.h < |s.open| && (ok ==> CanRename(s.disk, s.open[s.cb.h].dir))
    case Shoot(_) => s.cb.Shooting? && s.cb.h < |s.open|
  }

  function Call(s: State, k: CallStep): State
    requires CallEnabled(s, k)
  {
    match k
    case Report(v) => Hear(s, v)
    case List(order) => ListAll(s, order)
    case ListFails => s.(reconciled := true, cb := Handling)
    case Settle => SettleOne(s)
    case Handle => HandleView(s)
    case Begin(mkdir, wrote, now) => BeginJob(s, mkdir, wrote, now)
    case CreateRename(ok) => FinishCreate(s, ok)
    case Record(wrote) => RecordView(s, wrote)
    case SaveRename(ok) => FinishSave(s, ok)
    case Shoot(room) => StartShot(s, room)
  }

  predicate ShotEnabled(s: State, k: ShotStep) {
    match k
    case Aim => s.shot.Delayed? && s.shot.h < |s.open|
    case Abandon => s.shot.Delayed?
    case Scribble => s.shot.Grabbing? && s.shot.dest in s.disk
    case GrabOk => s.shot.Grabbing? && s.shot.dest in s.disk
    case GrabFail(_) => s.shot.Grabbing?
    case Commit(wrote) =>
      && s.shot.Landed? && !s.cb.Saving? && s.shot.h < |s.open|
      && (wrote ==> s.open[s.shot.h].dir in s.disk)
    case CommitRename(ok) =>
      s.shot.Storing? && s.shot.h < |s.open| && (ok ==> CanRename(s.disk, s.open[s.shot.h].dir))
    case Leave => s.shot.Leaving?
  }

  function Capture(s: State, k: ShotStep): State
    requires ShotEnabled(s, k)
  {
    match k
    case Aim => TakeAim(s)
    case Abandon => s.(shot := Leaving(s.shot.h))
    case Scribble => s.(disk := WithStill(s.disk, s.shot.dest, s.shot.index, Blurred))
    case GrabOk => FinishGrab(s)
    case GrabFail(removed) => FailGrab(s, removed)
    case Commit(wrote) => CommitShot(s, wrote)
    case CommitRename(ok) => FinishCommit(s, ok)
    case Leave => s.(shot := Resting)
  }

  predicate Enabled(c: Config, s: State, l: Label) {
    match l
    case OnMessage(k) => CallEnabled(s, k)
    case OnCapture(k) => ShotEnabled(s, k)
    case OnFinal(h, e) => FinalEnabled(c, s, h, e)
    case DropParked(p, why) =>
      p.Parked? && p in s.disk && (why.Reposted? ==> p.reason.UploadFailed?)
    case Crash => true
  }

  function Apply(c: Config, s: State, l: Label): State
    requires Enabled(c, s, l)
  {
    match l
    case OnMessage(k) => Call(s, k)
    case OnCapture(k) => Capture(s, k)
    case OnFinal(h, e) => Finalise(c, s, h, e)
    case DropParked(p, _) => s.(disk := s.disk - {p})
    case Crash => Restarted(s)
  }

  // ---------------------------------------------------------------- hypotheses and runs

  /** E1: a reported id is blank or made of characters the directory name keeps. */
  predicate E1(v: View) {
    v.taskID == "" || Kept(v.taskID)
  }

  /** E2: a job that is over is never reported as printing again. */
  predicate E2(s: State, v: View) {
    v.gcode.Running? || (!s.reconciled && v.gcode.Pause?) ==> v.taskID !in s.printer.over
  }

  /** E3: the first state a process hears, if it is RUNNING or PAUSE, names its job. That any
      other first state means the job is over is part of `Heard`. */
  predicate E3(s: State, v: View) {
    !s.reconciled && Printing(v.gcode) ==> v.taskID != ""
  }

  /** E4: while one job is live, the layer RUNNING reports carry does not fall. */
  predicate E4(s: State, v: View) {
    v.gcode.Running? && v.layer > 0 && (v.taskID == "" || s.printer.live == Some(v.taskID))
    ==> v.layer >= s.printer.floor
  }

  predicate StoredAt(s: State, h: nat) {
    h < |s.open| && s.open[h].dir in s.disk
  }

  /** Every `Save` into a directory that exists succeeds. */
  predicate SavesSucceed(s: State, l: Label) {
    match l
    case OnMessage(Begin(_, wrote, _)) => wrote
    case OnMessage(CreateRename(ok)) => ok
    case OnMessage(Record(wrote)) => s.cb.Recording? && StoredAt(s, s.cb.h) ==> wrote
    case OnMessage(SaveRename(ok)) => s.cb.Saving? && StoredAt(s, s.cb.h) ==> ok
    case OnCapture(Commit(wrote)) => s.shot.Landed? && StoredAt(s, s.shot.h) ==> wrote
    case OnCapture(CommitRename(ok)) => s.shot.Storing? && StoredAt(s, s.shot.h) ==> ok
    case _ => true
  }

  datatype Assume = Assume(ids: bool, jobs: bool, layers: bool, saves: bool)

  /** The hypotheses a run is under: `ids` is E1, `jobs` is E2 and E3, `layers` is E4. */
  predicate Allowed(a: Assume, s: State, l: Label) {
    && (l.OnMessage? && l.call.Report? ==>
          && (a.ids ==> E1(l.call.v))
          && (a.jobs ==> E2(s, l.call.v) && E3(s, l.call.v))
          && (a.layers ==> E4(s, l.call.v)))
    && (a.saves ==> SavesSucceed(s, l))
  }

  /** A run from s under the hypotheses, and the state it ends in. */
  predicate Runs(c: Config, a: Assume, s: State, run: seq<Label>)
    decreases |run|
  {
    run == [] ||
    (Enabled(c, s, run[0]) && Allowed(a, s, run[0]) && Runs(c, a, Apply(c, s, run[0]), run[1..]))
  }

  function After(c: Config, a: Assume, s: State, run: seq<Label>): State
    requires Runs(c, a, s, run)
    decreases |run|
  {
    if run == [] then s else After(c, a, Apply(c, s, run[0]), run[1..])
  }
}
