/** The running service: internal/service/service.go in its own form, a class whose methods
    update its fields. Each method is one uninterrupted turn of one actor, proved to leave
    exactly the state that actor's steps in the protocol lead to, which the protocol itself
    interleaves; how each system call goes is a parameter. */
module Service {
  import opened Basics
  import opened Sessions
  import opened Protocol
  import opened Turns
  import opened Views
  import Lifecycle
  import Storage
  import Telemetry
  import Uploader

  // ---------------------------------------------------------------- one attempt to post

  /** What the retry loop makes of an attempt: it stops for good on an error that no other
      attempt could mend. */
  function Verdict(out: Uploader.Outcome): PostOutcome {
    match out
    case Sent(_) => Accepted
    case Failure(_, _, retryable) => if retryable then TryAgain else Refused
  }

  /** An attempt is accepted, which is what lets the footage go, only on a decoded 200; and it
      is given up on only for an error of the service's own, a status below 500 or an answer
      that does not decode. */
  method Attempt(
    m: Uploader.Routing, req: Uploader.Request, random: Option<seq<nat>>, video: Option<string>, read: Option<string>,
    formed: bool, answer: Uploader.Answer)
    returns (verdict: PostOutcome)
    requires random.Some? ==> Uploader.Bytes(random.value)
    ensures verdict.Accepted? <==>
      random.Some? && video.Some? && formed && answer.Http? && answer.status == 200 && answer.ids.Some?
    ensures verdict.Refused? <==>
      random.Some? && (video.None? || !formed ||
        (answer.Http? && answer.status < 500 && !(answer.status == 200 && answer.ids.Some?)))
  {
    var out, _ := Uploader.Post(m, req, random, video, read, formed, answer);
    verdict := Verdict(out);
  }

  // ---------------------------------------------------------------- the process

  /** What a finaliser asks of the world outside: to encode the job's frames, to post the video
      and to move it to the output directory, each with the poster it has. */
  datatype Call = Encode(h: nat, cover: Cover) | Post(h: nat, cover: Cover) | Keep(h: nat, cover: Cover)

  class Service {
    const c: Config
    const store: Storage.Store
    const state: Telemetry.State
    /** What the accessors of `state` return since the last report. */
    var view: View
    var reconciled: bool
    var current: Option<nat>
    var capturing: bool
    /** Every `*Session` of this process; an index stands for its address. */
    var sessions: seq<Open>
    /** Where the goroutines are, what the printer has told, and every step so far. */
    ghost var shot: Shot
    ghost var finals: map<nat, Finaliser>
    ghost var printer: Printer
    ghost var history: seq<Label>
    /** Every report so far, and everything asked of the world outside. */
    ghost var reports: seq<Telemetry.Fields>
    ghost var calls: seq<Call>

    ghost function Snapshot(cb: Callback): State
      reads this`printer, this`view, this`reconciled, this`sessions, this`current, this`shot, this`finals, store
    {
      State(store.disk, printer, view, reconciled, sessions, current, cb, shot, finals)
    }

    /** The flag says whether a capture is in flight, and the steps so far lead to here. */
    ghost predicate Steady()
      reads this`printer, this`view, this`reconciled, this`sessions, this`current, this`shot, this`finals, store
      reads this`capturing, this`history
    {
      && Between(Snapshot(Waiting))
      && (capturing <==> !shot.Resting?)
      && Path(c, INITIAL, history, Snapshot(Waiting))
    }

    /** And what the accessors return is what the reports come to. */
    ghost predicate Valid()
      reads this, store, state
    {
      Steady() && state.fields == Telemetry.View(reports) && view == ViewOf(state.fields)
    }

    /** A start after a crash: only the disk survives. */
    constructor (c: Config, disk: Disk, ghost before: seq<Label>, ghost s: State)
      requires Path(c, INITIAL, before, s) && s.disk == disk
      ensures Valid() && history == before + [Crash] && store.disk == disk && this.c == c
      ensures fresh(store) && fresh(state) && reports == [] && calls == []
    {
      this.c := c;
      this.store := new Storage.Store(disk);
      this.state := new Telemetry.State();
      view := NO_VIEW;
      reconciled := false;
      current := None;
      capturing := false;
      sessions := [];
      shot := Resting;
      finals := map[];
      printer := s.printer;
      history := before + [Crash];
      reports := [];
      calls := [];
      new;
      NothingReported();
      PathMore(c, INITIAL, before, s, Crash);
    }

    /** A turn has been taken. */
    ghost method Extend(was: State, run: seq<Label>)
      requires Path(c, INITIAL, history, was) && Path(c, was, run, Snapshot(Waiting))
      requires !shot.Storing? && !shot.Leaving? && (capturing <==> !shot.Resting?)
      modifies this`history
      ensures Steady() && history == old(history) + run
    {
      PathJoin(c, INITIAL, history, was, run, Snapshot(Waiting));
      history := history + run;
      ReachedBetween(c, history, Snapshot(Waiting));
    }

    // -------------------------------------------------------------- the callback

    /** `startFinalize`: a finaliser of h begins. */
    ghost method StartFinalize(h: nat, skipDelay: bool)
      modifies this`finals
      ensures finals == old(finals)[h := Finaliser(Draining, false, skipDelay)]
    {
      finals := finals[h := Finaliser(Draining, false, skipDelay)];
    }

    /** `capture`, up to starting the goroutine. */
    method Capture(h: nat, layer: int, room: bool)
      requires h < |sessions| && (capturing <==> !shot.Resting?)
      modifies this`capturing, this`shot
      ensures shot == old(shot) || shot.Delayed?
      ensures capturing <==> !shot.Resting?
      ensures Snapshot(Waiting) == StartShot(old(Snapshot(Shooting(h, layer))), room)
      ensures shot ==
        if !old(capturing) && room then Delayed(h, layer, sessions[h].sess.taskID, view.taskID) else old(shot)
    {
      if capturing {
        return;
      }
      if !room {
        return;
      }
      capturing := true;
      shot := Delayed(h, layer, sessions[h].sess.taskID, view.taskID);
    }

    /** `record`, `changedLayer` and the save, under the lock. */
    method NoteReport(h: nat, luck: CallLuck) returns (newLayer: bool)
      requires h < |sessions|
      modifies this`sessions, store
      ensures newLayer <==> view.layer > 0 && view.layer != old(sessions[h].sess.lastLayer)
      ensures |sessions| == |old(sessions)|
      ensures sessions == old(sessions)[h := Open(Noted(old(sessions[h].sess), view), old(sessions[h].dir))]
      ensures var was, x := old(sessions[h].sess), sessions[h].sess;
        && x.lastLayer == (if newLayer then view.layer else was.lastLayer)
        && x.totalLayers == (if was.totalLayers == 0 then view.total else was.totalLayers)
        && x == was.(lastLayer := x.lastLayer, totalLayers := x.totalLayers)
      ensures store.disk ==
        if newLayer
        then Storage.Saved(old(store.disk), old(sessions[h].dir), sessions[h].sess, luck.wrote, luck.renamed)
        else old(store.disk)
    {
      var x := sessions[h].sess;
      if x.totalLayers == 0 {
        x := x.(totalLayers := view.total);
      }
      newLayer := ChangedLayer(view.layer, x.lastLayer);
      if newLayer {
        x := x.(lastLayer := view.layer);
      }
      sessions := sessions[h := sessions[h].(sess := x)];
      if newLayer {
        var _ := store.Save(sessions[h].dir, x, luck.wrote, luck.renamed);
      }
    }

    /** `record`, and the rest of `handle` after it: a positive layer that is not the last one
        noted is noted, saved as far as the writes work, and captured if no capture is in flight
        and there is room; any other is not. */
    method RecordReport(h: nat, luck: CallLuck)
      requires h < |sessions| && (capturing <==> !shot.Resting?)
      modifies this`sessions, this`capturing, this`shot, store
      ensures shot == old(shot) || shot.Delayed?
      ensures capturing <==> !shot.Resting?
      ensures Snapshot(Waiting) == RecordTurn(old(Snapshot(Recording(h))), luck)
      ensures |sessions| == |old(sessions)|
      ensures var was, x := old(sessions[h].sess), sessions[h].sess;
        && x.lastLayer == (if view.layer > 0 && view.layer != was.lastLayer then view.layer else was.lastLayer)
        && x.totalLayers == (if was.totalLayers == 0 then view.total else was.totalLayers)
        && x == was.(lastLayer := x.lastLayer, totalLayers := x.totalLayers)
        && sessions == old(sessions)[h := Open(x, old(sessions[h].dir))]
      ensures shot ==
        if view.layer > 0 && view.layer != old(sessions[h].sess.lastLayer) && !old(capturing) && luck.room
        then Delayed(h, view.layer, old(sessions[h].sess.taskID), view.taskID)
        else old(shot)
      ensures store.disk ==
        if view.layer > 0 && view.layer != old(sessions[h].sess.lastLayer)
        then Storage.Saved(old(store.disk), old(sessions[h].dir), sessions[h].sess, luck.wrote, luck.renamed)
        else old(store.disk)
    {
      var newLayer := NoteReport(h, luck);
      if newLayer {
        Capture(h, view.layer, luck.room);
      }
    }

    /** `begin`. */
    method BeginSession(luck: CallLuck) returns (h: Option<nat>)
      modifies this`sessions, this`current, store
      ensures
        Snapshot(if h.Some? then Recording(h.value) else Waiting) == BeginTurn(old(Snapshot(Beginning)), luck)
      ensures h.Some? ==> h.value < |sessions|
    {
      if view.taskID == "" {
        return None;
      }
      var made, dir := store.Create(view, luck.mkdir, luck.created, luck.published, luck.now);
      if made.None? {
        return None;
      }
      current := Some(|sessions|);
      sessions := sessions + [Open(made.value, dir)];
      return current;
    }

    /** RUNNING: a job other than the open one ends it. */
    method Supersede() returns (cur: Option<nat>)
      requires (current.Some? ==> current.value < |sessions|) && view.gcode.Running?
      modifies this`current, this`finals
      ensures cur.Some? ==> cur.value < |sessions|
      ensures Snapshot(if cur.Some? then Recording(cur.value) else Beginning) == HandleView(old(Snapshot(Handling)))
    {
      cur := current;
      if cur.Some? && sessions[cur.value].sess.taskID != view.taskID && view.taskID != "" {
        current := None;
        StartFinalize(cur.value, true);
        cur := None;
      }
    }

    /** An end state: the open job, if any, goes to a finaliser. */
    method EndSession()
      requires (current.Some? ==> current.value < |sessions|) && Ended(view.gcode)
      modifies this`current, this`finals
      ensures Snapshot(Waiting) == HandleView(old(Snapshot(Handling)))
    {
      var cur := current;
      if cur.None? {
        return;
      }
      current := None;
      StartFinalize(cur.value, false);
    }

    /** `handle`. */
    method HandleReport(luck: CallLuck)
      requires current.Some? ==> current.value < |sessions|
      requires capturing <==> !shot.Resting?
      modifies this`sessions, this`current, this`capturing, this`shot, this`finals, store
      ensures shot == old(shot) || shot.Delayed?
      ensures capturing <==> !shot.Resting?
      ensures Snapshot(Waiting) == HandleTurn(old(Snapshot(Handling)), luck)
    {
      match view.gcode
      case Running =>
        var cur := Supersede();
        if cur.None? {
          cur := BeginSession(luck);
          if cur.None? {
            return;
          }
        }
        RecordReport(cur.value, luck);
      case Pause =>
      case Finish | Failed | Idle => EndSession();
      case Unreported | Other =>
    }

    /** One turn of `reconcile`'s loop: the job still printing is adopted, any other one is
        finalised. */
    method SettleSession(h: nat, live: string, running: bool, ghost queue: seq<nat>)
      requires queue != [] && queue[0] == h < |sessions|
      requires live == view.taskID && (running <==> Printing(view.gcode))
      modifies this`current, this`finals
      ensures Snapshot(Settling(queue[1..])) == SettleOne(old(Snapshot(Settling(queue))))
    {
      if running && sessions[h].sess.taskID == live {
        current := Some(h);
      } else {
        StartFinalize(h, true);
      }
    }

    method Settle(base: nat, n: nat)
      requires base + n == |sessions|
      modifies this`current, this`finals
      ensures Snapshot(Handling) == SettleTurn(old(Snapshot(Settling(Queue(base, n, 0)))))
    {
      var live := view.taskID;
      var running := view.gcode.Running? || view.gcode.Pause?;
      ghost var all := Snapshot(Settling(Queue(base, n, 0)));
      for i := 0 to n
        invariant SettleTurn(Snapshot(Settling(Queue(base, n, i)))) == SettleTurn(all)
      {
        QueueStep(base, n, i);
        SettleSession(base + i, live, running, Queue(base, n, i));
      }
    }

    /** `reconcile`: what becomes of the sessions an earlier process left. */
    method Reconcile(luck: CallLuck) returns (ghost order: Option<seq<string>>)
      requires luck.entries.Some? ==> Storage.Entries(store.disk, luck.entries.value)
      modifies this`reconciled, this`sessions, this`current, this`finals
      ensures order.Some? <==> luck.entries.Some?
      ensures order.Some? ==> Listing(store.disk, order.value)
      ensures Snapshot(Handling) == ReconcileTurn(old(Snapshot(Merged)), order)
    {
      ghost var was := Snapshot(Merged);
      reconciled := true;
      order := None;
      if luck.entries.None? {
        return;
      }
      var found, names := store.List(luck.entries.value);
      order := Some(names);
      var base := |sessions|;
      sessions := sessions + found;
      assert Queue(base, |found|, 0) == ListAll(was, names).cb.queue;
      Settle(base, |found|);
    }

    /** The rest of `onMessage` once the view has changed. */
    method React(luck: CallLuck, ghost was: State) returns (ghost order: Option<seq<string>>)
      requires luck.entries.Some? ==> Storage.Entries(store.disk, luck.entries.value)
      requires Between(was) && (capturing <==> !shot.Resting?)
      requires Snapshot(Waiting) == was.(view := view, printer := Heard(was.printer, !was.reconciled, view))
      modifies this`reconciled, this`sessions, this`current, this`capturing, this`shot, this`finals, store
      ensures shot == old(shot) || shot.Delayed?
      ensures capturing <==> !shot.Resting?
      ensures order.Some? ==> Listing(was.disk, order.value)
      ensures !was.reconciled && !view.gcode.Unreported? ==> (order.Some? <==> luck.entries.Some?)
      ensures Snapshot(Waiting) == CallbackTurn(was, view, order, luck)
    {
      order := None;
      if !reconciled && !view.gcode.Unreported? {
        assert Snapshot(Merged) == Protocol.Hear(was, view);
        order := Reconcile(luck);
      }
      HandleReport(luck);
    }

    /** The view of the fields as they are now, and what it tells of the printer. */
    method Refresh()
      modifies this`view, this`printer
      ensures view == ViewOf(state.fields) && printer == Heard(old(printer), !reconciled, view)
    {
      view := ViewOf(state.fields);
      printer := Heard(printer, !reconciled, view);
    }

    /** The callback, once the report has been merged. */
    method Respond(luck: CallLuck) returns (ghost order: Option<seq<string>>)
      requires Steady()
      requires luck.entries.Some? ==> Storage.Entries(store.disk, luck.entries.value)
      modifies this`view, this`printer, this`reconciled, this`sessions, this`current, this`capturing, this`shot
      modifies this`finals, this`history, store
      ensures Steady() && view == ViewOf(state.fields)
      ensures order.Some? ==> Listing(old(store.disk), order.value)
      ensures !old(reconciled) && !view.gcode.Unreported? ==> (order.Some? <==> luck.entries.Some?)
      ensures Snapshot(Waiting) == CallbackTurn(old(Snapshot(Waiting)), view, order, luck)
      ensures old(history) + [Label.OnMessage(Report(view))] <= history
    {
      ghost var was := Snapshot(Waiting);
      Refresh();
      order := React(luck, was);
      ghost var run := CallbackPath(c, was, view, order, luck);
      Extend(was, run);
    }

    /** `onMessage`. A payload that is not a report changes nothing. */
    method OnMessage(payload: Telemetry.Payload, luck: CallLuck) returns (ghost order: Option<seq<string>>)
      requires Valid()
      requires luck.entries.Some? ==> Storage.Entries(store.disk, luck.entries.value)
      modifies this, store, state
      ensures Valid() && calls == old(calls)
      ensures reports == if payload.Report? then old(reports) + [payload.section] else old(reports)
      ensures !payload.Report? ==> Snapshot(Waiting) == old(Snapshot(Waiting)) && history == old(history)
      ensures payload.Report? ==>
        && state.fields == Telemetry.Merged(old(state.fields), payload.section)
        && view == ViewOf(state.fields)
        && (order.Some? ==> Listing(old(store.disk), order.value))
        && (!old(reconciled) && !view.gcode.Unreported? ==> (order.Some? <==> luck.entries.Some?))
        && Snapshot(Waiting) == CallbackTurn(old(Snapshot(Waiting)), view, order, luck)
        && old(history) + [Label.OnMessage(Report(view))] <= history
    {
      order := None;
      var report := state.Merge(payload);
      if !report {
        return;
      }
      Telemetry.ViewMore(reports, payload.section);
      reports := reports + [payload.section];
      order := Respond(luck);
    }

    // -------------------------------------------------------------- the capture goroutine

    /** The delay, and where the frame is to go; a shutdown ends the goroutine here. */
    method AimShot(h: nat, stopped: bool) returns (dest: Option<(Place, nat)>)
      requires Valid() && shot.Delayed? && shot.h == h
      modifies this`capturing, this`shot, this`history
      ensures Valid() && old(history) <= history && (capturing <==> !stopped)
      ensures h < |sessions| && dest == if stopped then None else Some((sessions[h].dir, sessions[h].sess.frames + 1))
      ensures Snapshot(Waiting) == AimTurn(old(Snapshot(Waiting)), stopped)
      ensures dest.Some? ==> shot.Grabbing? && shot.h == h && dest.value == (shot.dest, shot.index)
    {
      ghost var was := Snapshot(Waiting);
      ghost var run := AimPath(c, was, stopped);
      if stopped {
        capturing := false;
        shot := Resting;
        dest := None;
      } else {
        dest := Some((sessions[h].dir, sessions[h].sess.frames + 1));
        shot := Grabbing(h, shot.layer, shot.owner, shot.job, dest.value.0, dest.value.1);
      }
      assert Snapshot(Waiting) == AimTurn(was, stopped);
      Extend(was, run);
    }

    /** The grab. ffmpeg writes the file it was told to, in a directory that is there. */
    method GrabFrame(
      dest: Place, index: nat, owner: string, job: string, layer: int, grabbed: bool, removed: bool)
      returns (ok: bool)
      requires Valid() && shot.Grabbing?
      requires dest == shot.dest && index == shot.index && layer == shot.layer
      requires owner == shot.owner && job == shot.job
      modifies this`capturing, this`shot, this`history, store
      ensures Valid() && old(history) <= history
      ensures Snapshot(Waiting) == GrabTurn(old(Snapshot(Waiting)), grabbed, removed)
      ensures (ok <==> shot.Landed?) && (ok <==> capturing) && (ok <==> grabbed && dest in old(store.disk))
      ensures var was := old(store.disk);
        if ok then store.disk == was[dest := was[dest].(stills := was[dest].stills[index := Photo(owner, job, layer)])]
        else if removed && dest in was then store.disk == was[dest := was[dest].(stills := was[dest].stills - {index})]
        else store.disk == was
    {
      ghost var was := Snapshot(Waiting);
      ghost var run := GrabPath(c, was, grabbed, removed);
      ok := store.Grab(dest, index, Photo(owner, job, layer), grabbed, removed);
      if ok {
        shot := Landed(shot.h, shot.layer, shot.owner, shot.job, shot.index);
      } else {
        capturing := false;
        shot := Resting;
      }
      assert Snapshot(Waiting) == GrabTurn(was, grabbed, removed);
      Extend(was, run);
    }

    /** Under the lock: the frame is counted, with its layer, and the record saved. */
    method CountAndSave(h: nat, layer: int, wrote: bool, renamed: bool)
      requires h < |sessions|
      modifies this`sessions, store
      ensures |sessions| == |old(sessions)|
      ensures var was := old(sessions[h].sess);
        sessions[h].sess == was.(frames := was.frames + 1, layers := was.layers + [layer])
      ensures sessions == old(sessions)[h := Open(sessions[h].sess, old(sessions[h].dir))]
      ensures store.disk ==
        Storage.Saved(old(store.disk), old(sessions[h].dir), sessions[h].sess, wrote, renamed)
    {
      var x := sessions[h].sess;
      x := x.(frames := x.frames + 1);
      x := x.(layers := x.layers + [layer]);
      sessions := sessions[h := sessions[h].(sess := x)];
      var _ := store.Save(sessions[h].dir, x, wrote, renamed);
    }

    /** A picture that has landed is counted; the goroutine ends. */
    method CountFrame(h: nat, layer: int, wrote: bool, renamed: bool)
      requires Valid() && shot.Landed? && shot.h == h && shot.layer == layer
      modifies this`sessions, this`capturing, this`shot, this`history, store
      ensures Valid() && old(history) <= history && !capturing
      ensures Snapshot(Waiting) == CommitTurn(old(Snapshot(Waiting)), wrote, renamed)
      ensures h < |old(sessions)| == |sessions|
      ensures var was, x := old(sessions[h].sess), sessions[h].sess;
        && x == was.(frames := was.frames + 1, layers := was.layers + [layer])
        && sessions == old(sessions)[h := Open(x, old(sessions[h].dir))]
        && store.disk == Storage.Saved(old(store.disk), old(sessions[h].dir), x, wrote, renamed)
    {
      ghost var was := Snapshot(Waiting);
      ghost var run := CommitPath(c, was, wrote, renamed);
      CountAndSave(h, layer, wrote, renamed);
      capturing := false;
      shot := Resting;
      assert Snapshot(Waiting) == CommitTurn(was, wrote, renamed);
      Extend(was, run);
    }

    // -------------------------------------------------------------- the finalisers

    ghost predicate InFinal(h: nat)
      reads this`printer, this`view, this`reconciled, this`sessions, this`current, this`shot, this`finals, store
    {
      Finalising(Snapshot(Waiting), h)
    }

    ghost function Rest(h: nat, luck: FinalLuck): State
      requires InFinal(h)
      reads this`printer, this`view, this`reconciled, this`sessions, this`current, this`shot, this`finals, store
    {
      FinalTurn(c, Snapshot(Waiting), h, luck)
    }

    /** The finaliser of h goes on to its next phase; its directory is not touched. */
    ghost method Tick(h: nat, luck: FinalLuck, next: Phase)
      requires InFinal(h) && !finals[h].phase.Gone?
      requires EffectOf(finals[h], EventOf(Snapshot(Waiting), h, luck)).Stay?
      requires
        && FinalEnabled(c, Snapshot(Waiting), h, EventOf(Snapshot(Waiting), h, luck))
        && NextPhase(c, Snapshot(Waiting), h, EventOf(Snapshot(Waiting), h, luck)) == next
      modifies this`finals
      ensures InFinal(h) && finals[h].phase == next && finals[h].skipDelay == old(finals[h].skipDelay)
      ensures Rest(h, luck) == old(Rest(h, luck))
    {
      ghost var s := Snapshot(Waiting);
      Progress(c, s, h, luck);
      finals := finals[h := NextFinaliser(c, s, h, EventOf(s, h, luck))];
    }

    /** `Discard`, and the end of the finaliser. */
    method Discard(h: nat, luck: FinalLuck)
      requires InFinal(h) && finals[h].phase.Clearing?
      modifies this`finals, store
      ensures InFinal(h) && finals[h].phase.Gone? && Snapshot(Waiting) == old(Rest(h, luck))
      ensures store.disk == old(store.disk) - {sessions[h].dir}
    {
      ghost var s := Snapshot(Waiting);
      EventEnabled(c, s, h, luck);
      LastStep(c, s, h, luck);
      store.Discard(sessions[h].dir);
      finals := finals[h := NextFinaliser(c, s, h, Discarded)];
      assert Snapshot(Waiting) == Finalise(c, s, h, Discarded);
    }

    /** `Park`, and the end of the finaliser. */
    method Park(h: nat, reason: Reason, luck: FinalLuck)
      requires InFinal(h) && finals[h].phase == Parking(reason)
      modifies this`finals, this`sessions, store
      ensures InFinal(h) && finals[h].phase.Gone? && Snapshot(Waiting) == old(Rest(h, luck))
      ensures SetAside(old(store.disk), store.disk, old(sessions[h].dir), reason, luck.parked)
      ensures sessions == old(sessions)[h := Open(old(sessions[h].sess), sessions[h].dir)]
    {
      ghost var s := Snapshot(Waiting);
      EventEnabled(c, s, h, luck);
      LastStep(c, s, h, luck);
      var dir := sessions[h].dir;
      var renamed := luck.parked && dir in store.disk && Parked(reason, dir.name) !in store.disk;
      var dest := store.Park(dir, reason, renamed);
      sessions := sessions[h := sessions[h].(dir := dest)];
      finals := finals[h := NextFinaliser(c, s, h, ParkRenamed(renamed))];
      assert Snapshot(Waiting) == Finalise(c, s, h, ParkRenamed(renamed));
    }

    /** `awaitCapture`, uninterrupted: it ends at once if no grab is in flight, and at the
        deadline otherwise. */
    ghost method AwaitCapture(h: nat, luck: FinalLuck)
      requires InFinal(h) && finals[h].phase.Draining?
      modifies this`finals
      ensures InFinal(h) && finals[h].phase.Covering? && finals[h].skipDelay == old(finals[h].skipDelay)
      ensures finals[h].drained == (old(finals[h].drained) || shot.Resting?)
      ensures Rest(h, luck) == old(Rest(h, luck))
    {
      Progress(c, Snapshot(Waiting), h, luck);
      finals := finals[h := Finaliser(Covering, finals[h].drained || shot.Resting?, finals[h].skipDelay)];
    }

    /** `coverFrame`. */
    method CoverFrame(h: nat, skipDelay: bool, luck: FinalLuck) returns (cover: Cover)
      requires InFinal(h) && finals[h].phase.Covering? && finals[h].skipDelay == skipDelay
      modifies this`finals
      ensures InFinal(h) && finals[h].phase == Judging(cover)
      ensures Rest(h, luck) == old(Rest(h, luck))
      ensures var last, dir := sessions[h].sess.frames, sessions[h].dir;
        IsPoster(cover, !skipDelay && luck.grabbed, dir in store.disk && last in store.disk[dir].stills,
                 c.crop && luck.cropped, last)
    {
      var last := sessions[h].sess.frames;
      var dir := sessions[h].dir;
      cover := LastFrame(last);
      if !skipDelay && luck.grabbed {
        cover := OwnCover;
      }
      if cover.LastFrame? && !(dir in store.disk && last in store.disk[dir].stills) {
        cover := NoCover;
      } else if c.crop && luck.cropped {
        cover := OwnCover;
      }
      Tick(h, luck, Judging(cover));
    }

    /** One attempt to post: what comes next depends on its answer and on how many there were. */
    method TryPost(h: nat, cover: Cover, attempt: nat, luck: FinalLuck) returns (answer: PostOutcome)
      requires h in finals && finals[h].phase == Posting(attempt)
      modifies this`finals, this`calls
      ensures answer == Answer(luck, attempt) && calls == old(calls) + [Post(h, cover)]
      ensures finals == old(finals)[h := old(finals[h]).(phase := AfterPost(attempt, answer))]
    {
      calls := calls + [Post(h, cover)];
      answer := Answer(luck, attempt);
      finals := finals[h := finals[h].(phase := AfterPost(attempt, answer))];
    }

    /** The attempts to post: up to three while another could succeed. It is posted exactly
        when one of the first three answers accepts, and those before it were worth retrying. */
    method PostVideo(h: nat, cover: Cover, luck: FinalLuck) returns (posted: bool, ghost n: nat)
      requires h in finals && finals[h].phase == Posting(1)
      modifies this`finals, this`calls
      ensures finals ==
        old(finals)[h := old(finals[h]).(phase := if posted then Clearing(Posted) else Parking(UploadFailed))]
      ensures posted <==> exists k: nat :: 1 <= k <= 3 && AcceptedAt(luck, k)
      ensures calls == old(calls) + Posts(h, cover, n) && Tried(luck, n, posted)
    {
      ghost var was, asked := finals, calls;
      var attempt := 1;
      n := 0;
      posted := false;
      while attempt <= UPLOAD_ATTEMPTS
        invariant 1 <= attempt <= 4 && n == attempt - 1 && calls == asked + Posts(h, cover, n)
        invariant forall j: nat | 1 <= j < attempt :: Answer(luck, j).TryAgain?
        invariant finals ==
          was[h := was[h].(phase := if attempt <= 3 then Posting(attempt) else Parking(UploadFailed))]
      {
        var answer := TryPost(h, cover, attempt, luck);
        n := n + 1;
        if !answer.TryAgain? {
          posted := answer.Accepted?;
          break;
        }
        attempt := attempt + 1;
      }
      TriedAccepted(luck, n, posted);
    }

    /** Posting as a whole: the job goes if it was posted and is set aside if not. */
    method PostAndEnd(h: nat, cover: Cover, luck: FinalLuck) returns (ghost n: nat)
      requires InFinal(h) && finals[h].phase == Posting(1)
      modifies this`finals, this`sessions, this`calls, store
      ensures InFinal(h) && finals[h].phase.Gone? && Snapshot(Waiting) == old(Rest(h, luck))
      ensures sessions == old(sessions)[h := Open(old(sessions[h].sess), sessions[h].dir)]
      ensures calls == old(calls) + Posts(h, cover, n) && Tried(luck, n, Answer(luck, n).Accepted?)
      ensures
        if Answer(luck, n).Accepted? then store.disk == old(store.disk) - {old(sessions[h].dir)}
        else SetAside(old(store.disk), store.disk, old(sessions[h].dir), UploadFailed, luck.parked)
    {
      ghost var s := Snapshot(Waiting);
      var posted;
      posted, n := PostVideo(h, cover, luck);
      PostsTurn(c, s, h, luck, 1, n, posted);
      if posted {
        Discard(h, luck);
      } else {
        Park(h, UploadFailed, luck);
      }
    }

    /** `deliverLocally`. */
    method DeliverLocally(h: nat, cover: Cover, luck: FinalLuck)
      requires InFinal(h) && finals[h].phase == Opening(cover)
      modifies this`finals, this`sessions, this`calls, store
      ensures InFinal(h) && finals[h].phase.Gone? && Snapshot(Waiting) == old(Rest(h, luck))
      ensures calls == old(calls) + if luck.output then [Keep(h, cover)] else []
      ensures sessions == old(sessions)[h := Open(old(sessions[h].sess), sessions[h].dir)]
      ensures
        if luck.output && luck.moved then store.disk == old(store.disk) - {old(sessions[h].dir)}
        else SetAside(old(store.disk), store.disk, old(sessions[h].dir), OutputUnwritable, luck.parked)
    {
      if !luck.output {
        Tick(h, luck, Parking(OutputUnwritable));
        Park(h, OutputUnwritable, luck);
        return;
      }
      Tick(h, luck, Moving(cover));
      calls := calls + [Keep(h, cover)];
      if !luck.moved {
        Tick(h, luck, Parking(OutputUnwritable));
        Park(h, OutputUnwritable, luck);
        return;
      }
      Tick(h, luck, Delivering(cover));
      MoveCover(h, cover, luck);
      Discard(h, luck);
    }

    /** The video is out; the cover follows it. */
    method MoveCover(h: nat, cover: Cover, luck: FinalLuck)
      requires InFinal(h) && finals[h].phase == Delivering(cover)
      modifies this`finals, store
      ensures InFinal(h) && finals[h].phase == Clearing(KeptLocally)
      ensures Rest(h, luck) == old(Rest(h, luck))
      ensures store.disk - {sessions[h].dir} == old(store.disk) - {sessions[h].dir}
    {
      ghost var s := Snapshot(Waiting);
      Progress(c, s, h, luck);
      store.TakeOut(sessions[h].dir, if luck.coverMoved then cover else NoCover);
      finals := finals[h := NextFinaliser(c, s, h, CoverMoved(luck.coverMoved))];
      assert Snapshot(Waiting) == Finalise(c, s, h, CoverMoved(luck.coverMoved));
    }

    /** `finalize`: whatever happens on the way, the finaliser ends as the protocol says. With
        too few frames the job is removed and nothing is asked of anybody. Otherwise it is
        encoded, and then posted exactly if an API is configured and kept exactly if none is;
        and it is removed exactly if that worked, and set aside if not. */
    method Finalize(h: nat, skipDelay: bool, luck: FinalLuck) returns (cover: Cover, ghost posts: nat)
      requires Valid() && h in finals && finals[h].phase.Draining? && finals[h].skipDelay == skipDelay
      modifies this`finals, this`sessions, this`history, this`calls, store
      ensures Valid() && old(history) <= history
      ensures InFinal(h) && finals[h].phase.Gone?
      ensures Snapshot(Waiting) == FinalTurn(c, old(Snapshot(Waiting)), h, luck)
      ensures h < |old(sessions)|
      ensures sessions == old(sessions)[h := Open(old(sessions[h].sess), sessions[h].dir)]
      ensures var last, dir, was := old(sessions[h].sess.frames), old(sessions[h].dir), old(store.disk);
        && IsPoster(cover, !skipDelay && luck.grabbed, dir in was && last in was[dir].stills,
                    c.crop && luck.cropped, last)
        && Finished(c, luck, h, last, dir, cover, posts, was, store.disk, old(calls), calls)
    {
      ghost var was := Snapshot(Waiting);
      ghost var run := FinalPath(c, was, h, luck);
      FinalKeeps(c, was, h, luck);
      cover, posts := AwaitAndConclude(h, skipDelay, luck);
      Extend(was, run);
    }

    /** `finalize` as such. */
    method AwaitAndConclude(h: nat, skipDelay: bool, luck: FinalLuck) returns (cover: Cover, ghost posts: nat)
      requires InFinal(h) && finals[h].phase.Draining? && finals[h].skipDelay == skipDelay
      modifies this`finals, this`sessions, this`calls, store
      ensures InFinal(h) && finals[h].phase.Gone? && Snapshot(Waiting) == old(Rest(h, luck))
      ensures sessions == old(sessions)[h := Open(old(sessions[h].sess), sessions[h].dir)]
      ensures var last, dir, was := old(sessions[h].sess.frames), old(sessions[h].dir), old(store.disk);
        && IsPoster(cover, !skipDelay && luck.grabbed, dir in was && last in was[dir].stills,
                    c.crop && luck.cropped, last)
        && Finished(c, luck, h, last, dir, cover, posts, was, store.disk, old(calls), calls)
    {
      AwaitCapture(h, luck);
      cover := CoverFrame(h, skipDelay, luck);
      posts := Conclude(h, cover, luck);
    }

    /** `finalize` from the frame count on. */
    method Conclude(h: nat, cover: Cover, luck: FinalLuck) returns (ghost posts: nat)
      requires InFinal(h) && finals[h].phase == Judging(cover)
      modifies this`finals, this`sessions, this`calls, store
      ensures InFinal(h) && finals[h].phase.Gone? && Snapshot(Waiting) == old(Rest(h, luck))
      ensures sessions == old(sessions)[h := Open(old(sessions[h].sess), sessions[h].dir)]
      ensures Finished(c, luck, h, old(sessions[h].sess.frames), old(sessions[h].dir), cover, posts,
                       old(store.disk), store.disk, old(calls), calls)
    {
      posts := 0;
      if sessions[h].sess.frames < c.minFrames {
        Tick(h, luck, Clearing(TooFew));
        Discard(h, luck);
        return;
      }
      Tick(h, luck, Encoding(cover));
      calls := calls + [Encode(h, cover)];
      if !luck.encoded {
        Tick(h, luck, Parking(EncodeFailed));
        Park(h, EncodeFailed, luck);
        return;
      }
      if c.local {
        Tick(h, luck, Opening(cover));
        DeliverLocally(h, cover, luck);
        return;
      }
      Tick(h, luck, Posting(1));
      posts := PostAndEnd(h, cover, luck);
    }

    // -------------------------------------------------------------- parked jobs

    /** Since then, these places and nothing else have gone from the disk. */
    ghost predicate Gone(disk: Disk, gone: set<Place>, past: seq<Label>)
      reads this, store, state
    {
      Valid() && past <= history && store.disk == disk - gone
    }

    method DropEntry(p: Place, why: Why, ghost disk: Disk, ghost gone: set<Place>, ghost past: seq<Label>)
      requires Gone(disk, gone, past) && p.Parked? && p in disk && p !in gone
      requires why.Reposted? ==> p.reason.UploadFailed?
      modifies this`history, store
      ensures Gone(disk, gone + {p}, past)
    {
      ghost var was := Snapshot(Waiting);
      OneStep(c, was, DropParked(p, why));
      RemoveMore(disk, store.disk, gone, p);
      store.Discard(p);
      Extend(was, [DropParked(p, why)]);
    }

    /** `SweepFailed`: of these entries of failed/, the expired ones go that can be removed. */
    method SweepFailed(entries: seq<Place>, expired: set<Place>, removable: set<Place>) returns (n: nat)
      requires Valid() && forall i | 0 <= i < |entries| :: entries[i].Parked? && entries[i] in store.disk
      requires forall i, j | 0 <= i < j < |entries| :: entries[i] != entries[j]
      modifies this`history, store
      ensures Gone(old(store.disk), Among(entries, expired * removable), old(history))
      ensures n == |Among(entries, expired * removable)|
      ensures forall p :: p in store.disk <==>
        p in old(store.disk) && !(p in entries && p in expired && p in removable)
      ensures forall p | p in store.disk :: store.disk[p] == old(store.disk)[p]
    {
      n := 0;
      ghost var disk, past := store.disk, history;
      ghost var due := expired * removable;
      AmongNone(entries, due);
      for i := 0 to |entries|
        invariant Gone(disk, Among(entries[..i], due), past) && n == |Among(entries[..i], due)|
      {
        AmongMore(entries, due, i);
        if entries[i] !in expired {
          continue;
        }
        if entries[i] in removable {
          DropEntry(entries[i], Swept, disk, Among(entries[..i], due), past);
          n := n + 1;
        }
      }
      assert entries[..|entries|] == entries;
    }

    /** `retryParked`: of these entries of failed/, those go that are failed uploads, hold a
        video, and are accepted this time. */
    method RetryParked(entries: seq<Place>, videos: set<Place>, accepted: set<Place>)
      requires Valid() && forall i | 0 <= i < |entries| :: entries[i].Parked? && entries[i] in store.disk
      requires forall i, j | 0 <= i < j < |entries| :: entries[i] != entries[j]
      modifies this`history, store
      ensures Gone(old(store.disk), Among(entries, Retried(videos, accepted)), old(history))
      ensures forall p :: p in store.disk <==>
        p in old(store.disk) && !(p in entries && p.reason.UploadFailed? && p in videos && p in accepted)
      ensures forall p | p in store.disk :: store.disk[p] == old(store.disk)[p]
    {
      ghost var disk, past := store.disk, history;
      AmongNone(entries, Retried(videos, accepted));
      for i := 0 to |entries|
        invariant Gone(disk, Among(entries[..i], Retried(videos, accepted)), past)
      {
        AmongMore(entries, Retried(videos, accepted), i);
        if !entries[i].reason.UploadFailed? {
          continue;
        }
        if entries[i] !in videos {
          continue;
        }
        if entries[i] in accepted {
          DropEntry(entries[i], Reposted, disk, Among(entries[..i], Retried(videos, accepted)), past);
        }
      }
      assert entries[..|entries|] == entries;
    }

    // -------------------------------------------------------------- what this comes to

    /** Between any two turns the service is told what the log of reports comes to, if every
        report that names an id names them all. */
    lemma ToldWhatTheLogSays()
      requires Valid() && AllIdsOrNone(reports)
      ensures var job := reports[Telemetry.LastChange(reports)..];
        && view.layer == Telemetry.Whole(Telemetry.Last(job, "layer_num"))
        && view.total == Telemetry.Whole(Telemetry.Last(job, "total_layer_num"))
        && view.jobName == Telemetry.Text(Telemetry.Last(job, "subtask_name"))
        && Called(view.gcode, Telemetry.Text(Telemetry.Last(reports, "gcode_state")))
    {
      ViewOfLog(reports);
    }

    /** Whatever turns have been taken, in whatever order, since the very first start: while
        the printer keeps to E1 to E3, the state file of every job on this service's disk
        tells the truth about the pictures beside it, until its delivery begins. */
    lemma DiskTellsTheTruth(p: Place)
      requires Valid() && Complied(c, Assume(true, true, false, false), INITIAL, history)
      requires p in store.disk && store.disk[p].state.Some? && !store.disk[p].handedOver
      ensures Truth(store.disk[p].state.value, store.disk[p].stills)
    {
      var a := Assume(true, true, false, false);
      Under(c, a, INITIAL, history);
      Lifecycle.FramesTellTheTruth(c, a, history, p);
    }

    /** And the open session is held by no finaliser, nor shares a directory with one. */
    lemma CurrentIsAlone(h: nat)
      requires Valid() && Complied(c, Assume(true, true, false, false), INITIAL, history)
      requires current.Some? && h in finals
      ensures h != current.value && h < |sessions| && current.value < |sessions|
      ensures sessions[h].dir.name != sessions[current.value].dir.name
    {
      var a := Assume(true, true, false, false);
      Under(c, a, INITIAL, history);
      Lifecycle.ExclusiveOwnership(c, a, history);
      ReachedBetween(c, history, Snapshot(Waiting));
      assert Lifecycle.Current(Snapshot(Waiting), current.value);
    }
  }

  /** Every report of the run kept to these hypotheses. */
  ghost predicate Complied(c: Config, a: Assume, s: State, run: seq<Label>)
    requires Runs(c, ANY, s, run)
    decreases |run|
  {
    run == [] || (Allowed(a, s, run[0]) && Complied(c, a, Apply(c, s, run[0]), run[1..]))
  }

  lemma {:induction false} Under(c: Config, a: Assume, s: State, run: seq<Label>)
    requires Runs(c, ANY, s, run) && Complied(c, a, s, run)
    ensures Runs(c, a, s, run) && After(c, a, s, run) == After(c, ANY, s, run)
    decreases |run|
  {
    if run != [] {
      Under(c, a, Apply(c, s, run[0]), run[1..]);
    }
  }

  /** The poster: the fresh grab if there is one; else the last frame if it is there, cropped if
      that worked; else none. */
  ghost predicate IsPoster(cover: Cover, grabbed: bool, there: bool, cropped: bool, last: nat) {
    && (cover.OwnCover? <==> grabbed || (there && cropped))
    && (cover == LastFrame(last) <==> !grabbed && there && !cropped)
    && (cover.NoCover? <==> !grabbed && !there)
  }

  /** The directory goes whole to its place under failed/ if the rename works and the place is
      free, and is removed otherwise. */
  ghost predicate SetAside(before: Disk, after: Disk, dir: Place, reason: Reason, renamed: bool) {
    var dest := Parked(reason, dir.name);
    if renamed && dir in before && dest !in before
    then after == (before - {dir})[dest := before[dir]]
    else after == before - {dir}
  }

  function Posts(h: nat, cover: Cover, n: nat): seq<Call> {
    if n == 0 then [] else Posts(h, cover, n - 1) + [Post(h, cover)]
  }

  /** Of at most three attempts the n-th was the last: those before it were worth another, it
      was not, or it was the third; and it was accepted or not. */
  ghost predicate Tried(luck: FinalLuck, n: nat, accepted: bool) {
    && 1 <= n <= 3
    && (forall j: nat | 1 <= j < n :: Answer(luck, j).TryAgain?)
    && (n < 3 ==> !Answer(luck, n).TryAgain?)
    && (accepted <==> Answer(luck, n).Accepted?)
  }

  /** The k-th answer accepts, and those before it were worth another attempt. */
  ghost predicate AcceptedAt(luck: FinalLuck, k: nat) {
    Answer(luck, k).Accepted? && forall j: nat | 1 <= j < k :: Answer(luck, j).TryAgain?
  }

  lemma TriedAccepted(luck: FinalLuck, n: nat, accepted: bool)
    requires Tried(luck, n, accepted)
    ensures accepted <==> exists k: nat :: 1 <= k <= 3 && AcceptedAt(luck, k)
  {
    if accepted {
      assert AcceptedAt(luck, n);
    }
    forall k: nat | 1 <= k <= 3 && AcceptedAt(luck, k)
      ensures k == n
    {
      assert k < n ==> Answer(luck, k).TryAgain?;
      assert n < k ==> Answer(luck, n).TryAgain?;
    }
  }

  /** The finaliser of h is at p. */
  ghost function At(s: State, h: nat, p: Phase): State
    requires h in s.finals
  {
    s.(finals := s.finals[h := s.finals[h].(phase := p)])
  }

  lemma PostsOnce(c: Config, s: State, h: nat, luck: FinalLuck, attempt: nat)
    requires Finalising(s, h) && s.finals[h].phase == Posting(attempt)
    ensures var next := AfterPost(attempt, Answer(luck, attempt));
      Finalising(At(s, h, next), h) && FinalTurn(c, s, h, luck) == FinalTurn(c, At(s, h, next), h, luck)
  {
    Progress(c, s, h, luck);
    var e := EventOf(s, h, luck);
    assert Finalise(c, s, h, e) == At(s, h, NextPhase(c, s, h, e));
  }

  /** So the protocol has the attempts end as well. */
  lemma {:induction false} PostsTurn(
    c: Config, s: State, h: nat, luck: FinalLuck, attempt: nat, n: nat, accepted: bool)
    requires Finalising(s, h) && s.finals[h].phase == Posting(attempt)
    requires 1 <= attempt <= n && Tried(luck, n, accepted)
    ensures var end := At(s, h, if accepted then Clearing(Posted) else Parking(UploadFailed));
      Finalising(end, h) && FinalTurn(c, s, h, luck) == FinalTurn(c, end, h, luck)
    decreases n - attempt
  {
    PostsOnce(c, s, h, luck, attempt);
    var t := At(s, h, AfterPost(attempt, Answer(luck, attempt)));
    if attempt < n {
      PostsTurn(c, t, h, luck, attempt + 1, n, accepted);
      AtAt(s, h, t.finals[h].phase, if accepted then Clearing(Posted) else Parking(UploadFailed));
    }
  }

  lemma AtAt(s: State, h: nat, p: Phase, q: Phase)
    requires h in s.finals
    ensures At(At(s, h, p), h, q) == At(s, h, q)
  {
  }

  /** What has been asked of the world outside, and where the directory is by the end. */
  ghost predicate Finished(
    c: Config, luck: FinalLuck, h: nat, frames: nat, dir: Place, cover: Cover, posts: nat,
    before: Disk, after: Disk, asked: seq<Call>, calls: seq<Call>)
  {
    && (frames < c.minFrames ==> after == before - {dir} && calls == asked)
    && (frames >= c.minFrames && !luck.encoded ==>
          SetAside(before, after, dir, EncodeFailed, luck.parked) && calls == asked + [Encode(h, cover)])
    && (frames >= c.minFrames && luck.encoded && c.local ==>
          && calls == asked + [Encode(h, cover)] + (if luck.output then [Keep(h, cover)] else [])
          && if luck.output && luck.moved then after == before - {dir}
             else SetAside(before, after, dir, OutputUnwritable, luck.parked))
    && (frames >= c.minFrames && luck.encoded && !c.local ==>
          && calls == asked + [Encode(h, cover)] + Posts(h, cover, posts)
          && Tried(luck, posts, Answer(luck, posts).Accepted?)
          && if Answer(luck, posts).Accepted? then after == before - {dir}
             else SetAside(before, after, dir, UploadFailed, luck.parked))
  }

  ghost function Among(entries: seq<Place>, due: set<Place>): set<Place> {
    set p | p in entries && p in due
  }

  ghost function Retried(videos: set<Place>, accepted: set<Place>): set<Place> {
    set p | p in videos && p in accepted && p.Parked? && p.reason.UploadFailed?
  }

  lemma AmongNone(entries: seq<Place>, due: set<Place>)
    ensures Among(entries[..0], due) == {}
  {
  }

  /** Taking one more entry off the disk. */
  lemma RemoveMore(disk: Disk, rest: Disk, gone: set<Place>, p: Place)
    requires rest == disk - gone
    ensures rest - {p} == disk - (gone + {p})
  {
  }

  lemma AmongMore(entries: seq<Place>, due: set<Place>, i: nat)
    requires i < |entries|
    requires forall i, j | 0 <= i < j < |entries| :: entries[i] != entries[j]
    ensures entries[i] !in Among(entries[..i], due)
    ensures Among(entries[..i + 1], due) ==
      if entries[i] in due then Among(entries[..i], due) + {entries[i]} else Among(entries[..i], due)
    ensures |Among(entries[..i + 1], due)| == |Among(entries[..i], due)| + if entries[i] in due then 1 else 0
  {
  }

  /** A finaliser touches neither the callback nor the capture. */
  lemma {:induction false} FinalKeeps(c: Config, s: State, h: nat, luck: FinalLuck)
    requires Finalising(s, h)
    ensures var t := FinalTurn(c, s, h, luck); t.cb == s.cb && t.shot == s.shot
    decreases Left(s.finals[h].phase)
  {
    if !s.finals[h].phase.Gone? {
      Progress(c, s, h, luck);
      FinalKeeps(c, Finalise(c, s, h, EventOf(s, h, luck)), h, luck);
    }
  }

  /** The handles reconcile still has to settle after its first i. */
  ghost function Queue(base: nat, n: nat, i: nat): (q: seq<nat>)
    requires i <= n
    ensures |q| == n - i && forall k | 0 <= k < n - i :: q[k] == base + i + k
  {
    seq(n - i, k => base + i + k)
  }

  lemma QueueStep(base: nat, n: nat, i: nat)
    requires i < n
    ensures Queue(base, n, i)[0] == base + i && Queue(base, n, i)[1..] == Queue(base, n, i + 1)
  {
  }
}
