# Verification of the timelapse service

A Dafny model of the service that records 3D prints: it listens to the printer's reports,
takes a picture per layer, encodes the pictures when the job ends and posts the video. The
model follows the Go sources member by member and proves what they promise, over every
interleaving of the actors and every crash point where that is what is promised.

`dafny verify dfyconfig.toml` checks everything.

## The parts

- `Sessions`, `Storage`: the record of a job and the staging area that holds it. The disk is a
  map from places (staged under a name, or parked under a reason and a name) to folders; a
  frame file remembers, for the proofs, which report triggered it.
- `Protocol`: the job lifecycle as a transition system. One MQTT callback, at most one capture
  and any number of finalisers take atomic steps in any order; a crash keeps only the disk; a
  save is two steps. Every outcome the program cannot decide (a grab, a write, a rename, a
  post, the clock, a crash) is part of the label of its step.
- `BasicInvariant`, `Identity`, `Ownership`, `FrameTruth`, `Layers`, `EncoderPrefix`: one
  inductive invariant each, every one built on the one before and preserved by every step.
- `Lifecycle`, `Conservation`, `Startup`: the theorems over all runs. `Exclusive` and `Drain` say
  exactly when two of them hold, and `Limits` gives the runs on which a hypothesis is missing.
- `CaptureFlag`: the flag that keeps the captures to one, with any number of goroutines.
- `Turns`, `Service`: the service in its own form, a class whose methods update its fields.
  Every method is one uninterrupted turn of one actor and is proved to leave exactly the state
  that the protocol's steps of that actor lead to.
- `Reports`, `Finalisers`: what one report, and one step of a finaliser, does, case by case in
  plain terms, and what follows over every run.
- `Telemetry`, `Views`: the delta-merged view, against replaying the log of reports, and what the
  lifecycle reads out of it.
- `Captions`, `FrameRates`, `Timeline`: the caption script, the frame rates it is exact for, and
  the filter graph, with what ffmpeg's `sendcmd`, `drawtext`, `crop`, `tpad` and `concat` filters
  do to a stream of frames as an evaluator.
- `EndToEnd`: the lifecycle and the encode put together.
- `Ordering`, `Multipart`, `Uploader`: the upload body, and a reader of it that follows section
  5.1.1 of RFC 2046 (parts as in section 4 of RFC 7578).
- `Mover`: the rename-or-copy of a finished video.

## The hypotheses

What the lifecycle theorems assume about the printer, and name one by one (`Protocol.E1` to
`E4`, `Protocol.SavesSucceed`):

- E1: a reported id is blank or made of characters the directory name keeps.
- E2: a job that is over is not reported as printing again. Over means that another job was
  reported, an end state was reported, or the first state a process heard was neither RUNNING
  nor PAUSE.
- E3: a process's first report with a state, if it says RUNNING or PAUSE, names its job.
- E4: while one job is live the layer its RUNNING reports carry does not fall.
- Saves succeed: only where a statement says so.

E1 to E3 are sufficient for exclusive ownership, not necessary: `Exclusive.ExclusiveExactly`
has the exact condition, and `Limits` runs against it without each of the three.

## Steps of the protocol

| step | function | source |
|---|---|---|
| a report is merged | `Protocol.Hear` | internal/service/service.go:287-299 |
| the startup listing | `Protocol.ListAll` | internal/service/service.go:313-322 |
| one session of the startup pass | `Protocol.SettleOne` | internal/service/service.go:323-342 |
| the switch on the state | `Protocol.HandleView` | internal/service/service.go:383-435 |
| a job begins, before and after the rename | `Protocol.BeginJob`, `Protocol.FinishCreate` | internal/session/session.go:135-157 |
| a report is recorded | `Protocol.RecordView` | internal/service/service.go:410-418 |
| the rename of a save | `Protocol.FinishSave`, `Protocol.FinishCommit` | internal/session/session.go:100-110 |
| a capture starts | `Protocol.StartShot` | internal/service/service.go:532-544 |
| its destination | `Protocol.TakeAim` | internal/service/service.go:560 |
| the grab | `Protocol.FinishGrab`, `Protocol.FailGrab` | internal/service/service.go:562-566 |
| the commit | `Protocol.CommitShot` | internal/service/service.go:567-570 |
| a finaliser moves on | `Protocol.NextPhase`, `Protocol.EffectOf` | internal/service/service.go:588-697 |

## Model

| member | source | states |
|---|---|---|
| `Lifecycle.ExclusiveOwnership` | internal/service/service.go:311-435 | In every state reachable by callbacks, captures, finalisers and crashes, under E1 to E3: no two open sessions share an id or a directory name, and every one of them has exactly one holder among `current`, the startup queue and the finalisers, those already done included. |
| `Exclusive.ExclusiveExactly` | internal/session/session.go:135-139 | Over every run from the first start, under whatever hypotheses or none: in every state no two sessions that are not done share a directory, exactly when no step of the run is a `Create` on the directory of such a session. |
| `Exclusive.StepExact` | internal/session/session.go:135-157 | The same of one step of any actor: exclusive ownership is lost exactly by a `Create` that reopens. |
| `Exclusive.ExclusiveUnder` | internal/service/service.go:382-497 | So under E1 to E3 it is never lost: the job being begun is live, and every session that is not done is of another job. |
| `Lifecycle.FinaliserStartsOnce` | internal/service/service.go:580-586 | Between crashes a session that has a finaliser keeps it, and only that finaliser changes it, never back to its beginning: a job is handed over at most once per process. No hypothesis. |
| `Lifecycle.FramesTellTheTruth` | internal/service/service.go:560-576 | At every crash point under E1 to E3, whatever grabs and saves failed: until local delivery begins, files 1..frames of a state file are there, complete, and layers[i] is the layer of the report that triggered file i+1. |
| `Lifecycle.SessionsTellTheTruth` | internal/service/service.go:567-572 | The same of every session in memory, which is what the finalisers encode. |
| `Lifecycle.CapturesClimb` | internal/service/service.go:410-421 | Under E1 to E4, for every interleaving of skips, failed grabs, restarts and failed saves: the layers of every session in memory and on disk climb strictly, none lies above the last layer seen, and the layer in flight lies above every committed one. |
| `Layers.NewLayerRises` | internal/service/service.go:456-464 | `changedLayer` accepts any change, but under E1 to E4 a layer it accepts is higher than any the session has seen, and is the highest the printer has reported for the job. |
| `Lifecycle.RightDirectory` | internal/service/service.go:390-421 | Under E1 alone every complete picture on disk is in the directory of the job that was open when its report was handled, and that report named this job or none, even if the job changed in mid-grab. |
| `Lifecycle.ShotLabelled` | internal/service/service.go:544-545 | The labels of a picture are what they say: a capture starts for the current session, and notes its id and the id in the merged view. |
| `CaptureFlag.OneCaptureExactly` | internal/service/service.go:533-546 | With the flag read and written apart and any number of goroutines: at most one capture is ever in flight, over every run, exactly when callbacks come one at a time. |
| `Lifecycle.EncoderReadsCommitted` | internal/session/session.go:88-110 | When saves succeed, at every crash point before delivery a scan of the frame files up to the first missing index reads every committed frame and at most one more. |
| `Lifecycle.DrainSound` | internal/service/service.go:739-744 | If a finaliser's wait ended because no capture was in flight, then no later step of the process, over any run, changes its session or puts a capture on it, although the one flag may since serve other jobs. No hypothesis. |
| `Lifecycle.OffCameraSound` | internal/service/service.go:739-744 | A wait that timed out on another job's capture is as good: any session with a finaliser and no capture on it stays as it is. No hypothesis. |
| `Drain.DrainExactly` | internal/service/service.go:544-578 | In every reachable state under E1 to E3 the session of a finaliser can still change before the next crash exactly when a capture on it has its picture landed, or is waiting or grabbing and the directory for the picture is there. |
| `Drain.DrainBounds` | internal/service/service.go:544-578 | With no hypothesis about the printer: such a capture can still change it, and only a capture that has not counted its frame can. |
| `Drain.EncodeSeesOneFolder` | internal/service/service.go:588-611 | Under E1 to E3 what a finaliser with no capture on its session finds after the wait, session and directory, is the same at every moment until its encode ends, whatever the other actors do. |
| `Lifecycle.CaptureSparesDrained` | internal/service/service.go:739-744 | Under E1 to E3 no capture step touches the directory of a drained session either, wherever it is by then. |
| `Finalisers.OnlyWorthwhileJobs` | internal/service/service.go:588-691 | Over every run, whatever is reported and however the actors interleave: a job being encoded, posted, kept or parked, or about to be removed as posted or kept, has at least the frames a video needs; one is posted only if an API is configured and kept only if none is; no job is posted more than three times. No hypothesis. |
| `Finalisers.EncodesExactly` | internal/service/service.go:601-616 | A finaliser that has chosen its poster encodes exactly when the frames suffice, with that poster, and removes the job exactly when they do not; a failed encode parks it. |
| `Finalisers.PostsExactly` | internal/service/service.go:621-656 | A job is posted exactly after a successful encode with an API configured, and again exactly after an answer another attempt could mend, up to three times; it is done exactly when accepted and set aside otherwise. |
| `Finalisers.KeepsExactly` | internal/service/service.go:621-691 | A job is kept locally exactly after a successful encode with no API configured, a writable directory and a moved video; otherwise it is set aside as unwritable. |
| `Finalisers.CoversExactly` | internal/service/service.go:702-735 | The poster in every case of delay, grab, last frame on disk and crop. |
| `Finalisers.EndsExactly` | internal/session/session.go:181-192 | No finaliser changes the disk before its delivery or end; then its directory and nothing else is removed, or moved whole to its place under failed/. |
| `Reports.EveryNewLayerInterleaved` | internal/service/service.go:410-421 | Over every run from the first start: a RUNNING report with a positive layer other than the last one noted, lower ones included, for the open session with the camera idle and room on the disk, starts a capture of that layer in that session, however finalisers and retries interleave with its callback. |
| `Reports.EveryNewLayer` | internal/service/service.go:456-464 | And the uninterrupted callback notes that layer and leaves that capture started, from every state between two turns of every run. |
| `Reports.Notes` | internal/service/service.go:410-418 | Recording a report notes the layer exactly if it is positive and not the last one noted, and the layer count exactly if there was none; no other field and no other session changes. |
| `Reports.Fires` | internal/service/service.go:532-544 | And a capture starts exactly if, besides, none is in flight and there is room. |
| `Reports.Saves` | internal/service/service.go:413-416 | And the record is saved exactly if the layer is new, as far as the two writes work. |
| `Reports.Ignored` | internal/service/service.go:383-435 | A pause, another state or none, an end with nothing open and an unnamed job with nothing open change the view alone. |
| `Reports.HandsOver` | internal/service/service.go:425-434 | FINISH, FAILED and IDLE give the open session to a finaliser that takes a fresh poster, and change nothing else. |
| `Reports.GoesOn` | internal/service/service.go:389-421 | RUNNING under the open job's id or none is recorded in the open session, and that is all. |
| `Reports.Supersedes` | internal/service/service.go:390-409 | RUNNING under another id gives the open session to a finaliser that does not wait, whatever comes of the new job; that is the open one exactly if its record is there or could be written. |
| `Reports.FirstLayer` | internal/service/service.go:404-421 | And its first layer is taken at once: of a new job any positive one, of a reopened job any but the last it noted. |
| `Conservation.NoFootageLost` | internal/service/service.go:588-697 | Over every run under E1 to E3: a job directory name is in at most one place, staged or parked, and recorded footage is still recorded at the end unless one of the listed removals happened on the way. |
| `Conservation.RemovalJustified` | internal/service/service.go:601-656 | The step at which recorded footage disappears is a sweep or a successful repost of a parked job, a park rename that failed, or a finaliser's discard, and before the discard that finaliser found too few frames, got a decoded 200, or moved the video to the output directory. |
| `Conservation.ParkDestinationFree` | internal/session/session.go:184-192 | In every reachable state under E1 to E3 the place a job is to be parked in is free and its directory is there, so a park rename fails only for an I/O error. |
| `Conservation.CommittedFramesNeverRewritten` | internal/service/service.go:560-576 | From any reachable state on, while a job is staged and not being delivered: the frames its state file has once counted stay exactly as they were and the count never falls, through failed saves, crashes and older records resumed. |
| `Conservation.UnstagedForever` | internal/session/session.go:135-157 | A job that is over and not staged is never staged again, on any run under E1 to E3. |
| `Conservation.RunKeepsHomes` | internal/session/session.go:184-192 | Every run keeps a directory name in use at most once, staged or parked. |
| `Startup.NothingBeforeThePass` | internal/service/service.go:287-299 | Until the one startup pass has been made no session is open or being finalised and no capture runs. |
| `Startup.ReconcileTotal` | internal/service/service.go:313-343 | Under E1, when the listing succeeds: by the end of the pass every session that was on disk is open exactly once with the record it was saved with, is `current` if it is the job the printer is on, and is with a finaliser otherwise. |
| `Limits.OverAndReportedAgain` | internal/session/session.go:135-139 | Without E2: for every id there is a run from the first start (RUNNING, FINISH, RUNNING) along which two sessions that are not done have one directory. |
| `Limits.FirstReportNamesNoJob` | internal/service/service.go:313-343 | Without E3: after a restart mid-print, a first report that says RUNNING and names no job, and then one that does, lead there too. |
| `Limits.IdsThatCollide` | internal/session/session.go:228-242 | Without E1: so do any two ids that agree after sanitising, one reported after the other. |
| `Limits.ReportReopens` | internal/service/service.go:390-409 | Which report reopens: exactly one that says RUNNING, begins a job (none is open, or another one is) and names an id whose directory a session that is not done has, be it the one the report supersedes. |
| `Limits.TimedOutDrain` | internal/service/service.go:739-744 | From the first start: a layer, the end of the job and a wait that gives up; the finaliser goes on, and a run follows on which its session still changes. |
| `Sessions.Sanitize` | internal/session/session.go:228-242 | The loop computes the sanitised id, which is never blank and holds kept characters only. |
| `Sessions.DirNameInjective` | internal/session/session.go:228-242 | Two ids share a directory exactly when they agree after sanitising; ids that satisfy E1 share one only if they are equal. |
| `Sessions.OwnDirectory` | internal/session/session.go:228-242 | An id of letters, digits, "-" and "_" has the directory "job-" and the id, and a blank one "job-unknown". |
| `Sessions.OthersReplaced` | internal/session/session.go:231-237 | A character that is no letter, digit or "-" becomes "_" in the directory name. |
| `Sessions.DecimalsApart` | internal/session/session.go:228-242 | So decimal ids never share a directory. |
| `Sessions.DirectoriesCollide` | internal/session/session.go:228-242 | Without E1 different jobs meet in one directory; a concrete pair. |
| `Storage.Store.Save` | internal/session/session.go:100-110 | The two-step save: the state file changes only by the rename, a failure of either half leaves the old one, and nothing is written into a directory that is not there. |
| `Storage.Store.Create` | internal/session/session.go:135-157 | An existing record is reopened unchanged. Otherwise a session is there exactly if the directory could be made and both writes worked: with the view's id, job name and layer count, this start time, no frames or layers, nothing noted, and partial exactly when the layer is above 1. The frames there and every other directory stay. |
| `Storage.Store.List` | internal/session/session.go:160-178 | Every staged directory with a state file exactly once, newest first, whatever order the directory is read in. |
| `Storage.Store.Park` | internal/session/session.go:184-192 | The directory moves whole to its parked place, or is removed when it cannot be moved. |
| `Service.Service.OnMessage` | internal/service/service.go:287-299 | A payload that is no report changes nothing. A report is merged, and the callback leaves exactly the state that the protocol's steps from that report to the end of the callback lead to (what those are is said plainly in `Reports`); it encodes and posts nothing. |
| `Service.Service.ToldWhatTheLogSays` | internal/telemetry/report.go:63-189 | Between any two turns, after reports that name all ids or none: the layer, layer count and job name the service acts on are the last values of "layer_num", "total_layer_num" and "subtask_name" since the view last moved from one named job to another, and its state is the last "gcode_state". |
| `Service.Service.Reconcile` | internal/service/service.go:313-343 | The startup pass leaves what the protocol's listing and settling steps lead to, for every listing. |
| `Service.Service.HandleReport` | internal/service/service.go:383-435 | `handle` leaves what the protocol's handling, beginning, recording, saving and shooting steps lead to. |
| `Service.Service.BeginSession` | internal/service/service.go:466-497 | `begin` opens the job's session and makes it current, or leaves everything but the staging area as it was. |
| `Service.Service.RecordReport` | internal/service/service.go:410-421 | A layer that is positive and not the last one noted becomes the last one noted, is saved as far as the writes work, and is captured in this session if no capture is in flight and there is room; any other layer is not. The layer count is filled in once, and nothing else changes. |
| `Service.Service.Capture` | internal/service/service.go:532-544 | A capture starts only when none is in flight and there is room. |
| `Service.Service.AimShot` | internal/service/service.go:545-560 | The destination is the session's directory as it is after the delay and the number after its frame count; a shutdown ends the goroutine. |
| `Service.Service.GrabFrame` | internal/service/service.go:562-566 | A grab into a directory that is there leaves one complete picture at its destination and nothing else changed; any other ends the goroutine, its file removed or not. |
| `Service.Service.CountFrame` | internal/service/service.go:567-572 | The frame count grows by one and the layers by this layer, nothing else of any session changes, the record is saved, and the flag is cleared. |
| `Service.Service.CoverFrame` | internal/service/service.go:702-735 | The poster is the fresh grab exactly if one was wanted and worked, or the last frame cropped; the last frame as it is exactly if it is there and no crop was wanted or worked; none exactly if neither is there. |
| `Service.Service.PostVideo` | internal/service/service.go:632-656 | Posted exactly when one of the first three answers accepts and those before it were worth retrying; and there are exactly as many posts as that takes. |
| `Service.Service.DeliverLocally` | internal/service/service.go:662-691 | The video is moved exactly if the output directory can be written; the job is removed exactly if that worked too and is set aside as unwritable otherwise. |
| `Service.Service.Finalize` | internal/service/service.go:588-657 | Too few frames: the directory is removed and nothing is encoded, posted or kept. Otherwise one encode; if it fails the directory is set aside; if not, posts (one to three) exactly when an API is configured and a local delivery exactly when none is. The directory is removed exactly if that worked and else moved whole under failed/, or removed if it cannot be. All of it as the protocol's own steps have it. |
| `Service.Service.SweepFailed` | internal/session/session.go:195-212 | Of the listed parked jobs exactly those go that are expired and can be removed, and they are counted; every other directory is still there, unchanged. |
| `Service.Service.RetryParked` | internal/service/service.go:348-380 | Of the listed parked jobs exactly those go that are failed uploads, hold a video and are accepted now; every other directory on the disk is still there, unchanged. |
| `Service.Service.DiskTellsTheTruth` | internal/service/service.go:560-576 | After any sequence of the service's methods and restarts whose reports kept to E1 to E3, every state file on its disk tells the truth about the pictures beside it until delivery. |
| `Service.Service.CurrentIsAlone` | internal/service/service.go:383-435 | And the open session is no finaliser's, and shares a directory name with none. |
| `Service.Attempt` | internal/service/service.go:632-647 | An attempt is accepted only on a decoded 200, and stops the retries exactly for a local failure, a status below 500 or an answer that does not decode. |
| `Views.NothingReported` | internal/telemetry/report.go:157-189 | Before any report the accessors give the view the protocol starts from. |
| `Turns.CallbackPath` | internal/service/service.go:287-299 | The callback's turn is a run of the protocol that begins with the report. |
| `Turns.SettlePath` | internal/service/service.go:323-342 | The loop over the sessions found is a run of settling steps. |
| `Turns.CommitPath` | internal/service/service.go:567-572 | Counting a frame and saving it is a run of the capture's steps. |
| `Turns.FinalPath` | internal/service/service.go:588-657 | A finaliser left alone ends, whatever its system calls answer, and its turn is a run of the protocol. |
| `Telemetry.State.Merge` | internal/telemetry/report.go:63-81 | The key-by-key loop leaves the merged view: the job-scoped fields are dropped first if the report announces another job, then the report wins. |
| `Telemetry.State.ForgetPreviousJob` | internal/telemetry/report.go:87-99 | Drops exactly the job-scoped fields, and exactly when both sides name a job and the names differ. |
| `Telemetry.MergeRefinesReplay` | internal/telemetry/report.go:63-99 | Over every log in which a report naming any id key names all four: a job-scoped field is its last value since the view last moved from one named job to another, and any other field its last value ever. |
| `Telemetry.JobFieldsSinceAnnouncement` | internal/telemetry/report.go:63-99 | For arbitrary partial reports: a job-scoped field is its last value since the last report that announced another job. |
| `Telemetry.DeviceFieldsReplay` | internal/telemetry/report.go:83-86 | A device field is its last value ever, whatever jobs came and went. |
| `Telemetry.ForgetsExactlyWhen` | internal/telemetry/report.go:87-99 | Nothing of the previous job survives a merge exactly when the report announces another job or overwrites every job-scoped field there was. |
| `Telemetry.IdentityChange` | internal/telemetry/report.go:87-99 | If a merge moves the view from one named job to another by a key the report itself wrote, every job-scoped field afterwards comes from that report alone. |
| `Telemetry.CompleteAnnounces` | internal/telemetry/report.go:87-99 | A report naming all id keys or none announces another job exactly when it changes the view's. |
| `Telemetry.UncoveredIdKeepsJob` | internal/telemetry/report.go:181-189 | The boundary: a report that only zeroes the winning id key uncovers an id of lower priority; the view changes job and every job-scoped field survives. |
| `Telemetry.BlankGapKeepsJob` | internal/telemetry/report.go:88-94 | The other boundary, over a log: what a view held of a job when its id was blanked is in the view of the next job named, unless one of the two reports overwrote it. |
| `Telemetry.StaleLayer` | internal/telemetry/report.go:88-94 | A log that shows it: job a at a layer, a report that zeroes the id, job b; b's view has a's layer. |
| `Views.ViewOfLog` | internal/telemetry/report.go:63-189 | After any log whose reports name all four ids or none: the view's layer, layer count and job name are read from the last "layer_num", "total_layer_num" and "subtask_name" since the view last moved from one named job to another; its state is RUNNING, PAUSE, FINISH, FAILED, IDLE or none exactly as the last "gcode_state" says; its id is the first of the last "task_id", "subtask_id", "lan_task_id" and "job_id" that is neither blank nor "0". |
| `Views.ViewReads` | internal/telemetry/report.go:112-189 | The same of any merged fields, whatever reports they came from. |
| `Telemetry.TaskIdPriority` | internal/telemetry/report.go:181-189 | The id is the first of the four by priority that is neither blank nor "0". |
| `Telemetry.WholeReads` | internal/telemetry/report.go:124-137 | A number counts as its integer part, a text as the signed decimal it is if that fits in 64 bits, and anything else as 0. |
| `Telemetry.TextReads` | internal/telemetry/report.go:112-121 | As text a number is what it prints as, and what is neither text nor number is blank. |
| `Telemetry.WholeOfItoa` | internal/telemetry/report.go:124-137 | So a number sent as text counts as the number. |
| `Telemetry.MergedField` | internal/telemetry/report.go:63-99 | A merge field by field: the report's value if it has one, nothing if the field is job-scoped and the report names another job, and otherwise what was there. |
| `Telemetry.JobScopedAre` | internal/telemetry/report.go:42-49 | The fields that belong to a job. |
| `Captions.OverlayTextPlain` | internal/camera/encode.go:271-280 | No output character is syntax to any of the nested parsers, and the ends are not white space. |
| `Captions.OverlayTextKeeps` | internal/camera/encode.go:271-280 | Text is left alone exactly when it holds no syntax and no outer white space. |
| `Captions.OverlayTextIdempotent` | internal/camera/encode.go:271-280 | Cleaning twice is cleaning once. |
| `Captions.LayerLineKept` | internal/service/service.go:793-799 | Cleaning leaves every "Layer n/m" and "Layer n" line as it is. |
| `Captions.LayerLineReads` | internal/service/service.go:793-799 | A reader of the line gets back the layer, and the layer count exactly when that is positive. |
| `Captions.SyntaxIs` | internal/camera/encode.go:271-280 | Which characters are syntax to the nested parsers. |
| `Captions.ScriptAddresses` | internal/camera/encode.go:248-261 | Every command of the script is for the counter and sets its text. |
| `Captions.StampsSeparate` | internal/camera/encode.go:248-259 | Up to 500 frames a second, with either rounding of ties: stamps climb strictly, and a frame time that is low by up to 250/fps - 0.5 ms still lies at or past its own stamp and before the next. |
| `Captions.LatestIsOwn` | internal/camera/encode.go:248-259 | Up to 500 frames a second, at any such time of frame i command j is due exactly when j <= i. |
| `FrameRates.OwnDueExactly` | internal/camera/encode.go:248-259 | At exact frame times every frame's own command is due exactly when fps < 500 + 2 gcd(1000, fps), or fps equals that and ties round down. |
| `FrameRates.NextWaitsExactly` | internal/camera/encode.go:248-259 | The next frame's command is never due early exactly when fps < 1500, or fps is 1500 and ties round up. |
| `FrameRates.LatestIsOwnExactly` | internal/camera/encode.go:248-259 | The latest command due is the frame's own, for all frames and all roundings of ties, exactly when fps is below both bounds. |
| `FrameRates.CaptionsRightExactly` | internal/camera/encode.go:248-261 | And exactly then does the replayed script show line i on frame i for every list of lines, every frame and every rounding of ties. |
| `FrameRates.SteadyRates` | internal/camera/encode.go:248-259 | Every rate up to 500 is below both bounds, and some above it are: 1000 is, 999 is not. |
| `Captions.TimelyInTime` | internal/camera/encode.go:248-259 | Up to 500 frames a second a frame time low by up to 250/fps - 0.5 ms is in time, so the script plays right against it. |
| `FrameRates.TooFastForMilliseconds` | internal/camera/encode.go:248-259 | The instance at 999 frames a second, which is past the bound: some frame is shown before its own command is due. |
| `Captions.AppendCommand` | internal/camera/encode.go:250-257 | One turn of the loop appends the command line of frame i: its stamp, then target, option and cleaned text. |
| `Captions.WriteCommands` | internal/camera/encode.go:248-261 | The loop writes the script of all lines. |
| `Captions.ScriptParses` | internal/camera/encode.go:248-280 | For every sequence of arbitrary caption strings, reading the script back on spaces, quotes and semicolons gives one (time, target, option, cleaned text) per frame. |
| `Captions.ScriptPlays` | internal/camera/encode.go:248-261 | Replayed against frame times that are in time, line i is in force on frame i and the last line on every frame after it. |
| `Timeline.Encode` | internal/camera/encode.go:92-129 | The inputs and the graph for every combination of options and for sizing that fails. |
| `Timeline.BuildGraph` | internal/camera/encode.go:161-207 | The filter chain, the still chains and the concat order for every combination of options. |
| `Timeline.OverlayChain` | internal/camera/encode.go:222-243 | The caption filters, with the script only when there are lines. |
| `Timeline.MainShows` | internal/camera/encode.go:161-186 | The main chain shows every frame file once, in order, cropped before it is captioned, frame i under line i, and then holds the last picture, caption and all, unless a still ends the video. |
| `Timeline.GraphReadsInputs` | internal/camera/encode.go:180-206 | The graph reads every `-i` input exactly once, in the order of the arguments. |
| `Timeline.GraphShows` | internal/camera/encode.go:161-207 | With the stills sized or none wanted the video is intro, footage, outro. |
| `Timeline.VideoShowsFootage` | internal/camera/encode.go:92-207 | In every case, sizing failed or not, footage frame i is at its place in the whole video with its own crop, title and counter. |
| `Timeline.VideoHoldsLast` | internal/camera/encode.go:172-177 | In the whole video, a cloned tail is the last footage frame, crop, title and counter included. |
| `Timeline.JobEnds` | internal/camera/encode.go:180-206 | When stills could be sized, the first frames of a job's video, as many as the intro takes, show the preview's file if there is one, and the last, as many as the tail takes, the poster's. |
| `Timeline.JobFootage` | internal/service/service.go:752-771 | And frame i of the job comes right after the preview, in order, cropped exactly if crops are configured and under the cleaned title. |
| `Timeline.RunsInFull` | internal/camera/encode.go:99-113 | The video is as long as the footage and everything held exactly when the stills could be sized or none were wanted. |
| `Timeline.OverlayFor` | internal/service/service.go:775-801 | No caption without a font, the job in the title only if it has a name, and one line per frame exactly when the layer list matches the frames, each of which reads back as the layer of its frame and the layer count. |
| `Timeline.EncodeJob` | internal/service/service.go:752-771 | A failure is retried exactly when there was a caption, without it. |
| `Timeline.RetryKeepsFootage` | internal/service/service.go:766-771 | The retry costs the caption and no footage: each frame is in both videos, after what is held in front of it, and differs in the caption alone, each attempt with its own probe of the frame size. |
| `Timeline.RetryLength` | internal/service/service.go:766-771 | Both attempts run for the same time exactly when both probes or neither gave a size, or no stills were wanted. |
| `Timeline.DurationIs` | internal/service/service.go:806-815 | The nanosecond arithmetic comes to whole seconds of footage plus what is held at both ends, and at least one. |
| `Timeline.DurationMatches` | internal/service/service.go:803-815 | The duration told is the video's in whole seconds, at least one, exactly when the stills could be sized, or none were wanted, or it is one second all told. |
| `EndToEnd.CaptionTellsTheTruth` | internal/camera/encode.go:161-261 | From report to video, in every reachable state under E1 to E3 and at every frame rate the script is exact for: encoding any open session shows every committed frame under a counter that reads as the layer of the report that triggered that very picture. |
| `EndToEnd.EncodeTellsTheTruth` | internal/service/service.go:588-611 | The same of the encode as it takes time: read at any moment from the wait to the end of the encode, whatever the other actors do, the directory gives that video. |
| `EndToEnd.WholeFootageTells` | internal/camera/encode.go:161-261 | The whole footage tells the truth exactly when every picture that was never counted was triggered by the layer of the last one that was. |
| `EndToEnd.TailTells` | internal/camera/encode.go:172-177 | A cloned tail is under a counter that reads as the layer of the picture it holds. |
| `EndToEnd.DurationTellsTheTruth` | internal/service/service.go:803-815 | When saves succeed the duration told for any open session is its video's in whole seconds, or one less if a picture landed that was never counted. |
| `Ordering.Sort` | internal/uploader/uploader.go:193-200 | The in-place sort leaves an ascending permutation, repeated strings included. |
| `Ordering.SortedSorts` | internal/uploader/uploader.go:193-200 | Insertion sort of any sequence is ascending and a permutation of it. |
| `Ordering.SortedKeys` | internal/uploader/uploader.go:191-200 | Whatever order the map yields its keys in, the result is its keys in ascending order. |
| `Ordering.OneOrder` | internal/uploader/uploader.go:191-192 | And there is only one such sequence, so the body is deterministic. |
| `Ordering.SortedAscends` | internal/uploader/uploader.go:193-200 | Sorting distinct keys gives exactly those keys, strictly ascending. |
| `Ordering.LessExactly` | internal/uploader/uploader.go:193-200 | The order of Go strings is the lexicographic one: by the first character that differs, or by length. |
| `Multipart.ReadsBackWhen` | internal/uploader/uploader.go:156-159 | A `%q` name reads back as itself exactly when it holds no control character. |
| `Multipart.NoOverlap` | internal/uploader/uploader.go:108-109 | CR occurs only at the head of the delimiter, so two of its occurrences never overlap. |
| `Multipart.ClearWithout` | internal/uploader/uploader.go:30-32 | A body in which the boundary line does not occur is clear of the delimiter. |
| `Multipart.PartReads` | internal/uploader/uploader.go:156-189 | One part is read back exactly if it survives (printable names, clear body) and never as itself otherwise. |
| `Multipart.TailRoundTrip` | internal/uploader/uploader.go:108-189 | Any sequence of parts is read back exactly when all of them survive. |
| `Uploader.Prologue` | internal/uploader/uploader.go:153-189 | Routing in key order, the service's six fields, the cover if there is one, and the head of the video part. |
| `Uploader.Layout` | internal/uploader/uploader.go:107-111 | Prologue, video and epilogue one after the other are one multipart body with the video last. |
| `Uploader.Post` | internal/uploader/uploader.go:91-149 | What is sent reads as the request: caption and file name as they are, duration, width and height as their numbers, "true" under "no_audio", the cover and the video; its declared length is the body's; sent means a decoded 200; and which failures are worth another attempt. |
| `Uploader.UploadRoundTrip` | internal/uploader/uploader.go:108-189 | For every routing map, request, cover and video, a reader gets back exactly the parts written, in order and the video last, exactly when names are printable and no value, cover or video can be taken for the delimiter. |
| `Uploader.RequestArrives` | internal/uploader/uploader.go:166-172 | By name: a last-wins reader of "caption" and "filename" gets the request's, of "duration", "width" and "height" decimals that read as the request's numbers, and of "no_audio" "true". |
| `Uploader.FilesArrive` | internal/uploader/uploader.go:174-188 | The last part is the video under the request's file name, and the one before it the cover, if there is one. |
| `Uploader.FieldBytes` | internal/uploader/uploader.go:156-160 | The very bytes of a plain field. |
| `Uploader.FileBytes` | internal/uploader/uploader.go:174-188 | And of a file part. |
| `Uploader.OwnedFieldsWin` | internal/uploader/uploader.go:161-172 | A last-wins reader gets the service's six values whatever the routing map holds. |
| `Uploader.VideoWins` | internal/uploader/uploader.go:186-188 | And the video that was sent. |
| `Uploader.RoutingReaches` | internal/uploader/uploader.go:161-165 | And a routing field under any name the service does not use arrives as configured. |
| `Uploader.BoundaryLegal` | internal/uploader/uploader.go:202-208 | The random boundary is 41 characters of those section 5.1.1 of RFC 2046 allows, without CR. |
| `Mover.FileSystem.Move` | internal/service/helpers.go:48-75 | Succeeds exactly when the rename works or every call of the copy does, and leaves the last state of the traced calls. |
| `Mover.MoveNeverLoses` | internal/service/helpers.go:48-75 | However the calls go and wherever they are cut off, the content is under one of the two names, exactly when source and destination differ. |
| `Mover.MoveIsMove` | internal/service/helpers.go:48-75 | Success means moved; failure changes nothing but the destination. |
| `Basics.ItoaReads` | internal/service/service.go:793-799 | What is printed of a whole number reads back as it, sign included. |

## Where code and comments disagree

- internal/service/service.go:651-652 says that a shutdown parks an upload rather than retry it;
  the code leaves the wait and goes on to the next attempt at once. The model follows the code.
- internal/telemetry/report.go:36-41 says that job-scoped fields are dropped the moment the
  job id changes; `Telemetry.ForgetsExactlyWhen` says when that is so, and the two boundary
  lemmas show that it is not always.
- internal/uploader/uploader.go:30-32 calls a collision of the boundary with the video's bytes
  impossible in practice; `Uploader.UploadRoundTrip` keeps it as the condition it is.

## Left out

- MQTT, TLS, RTSPS, FTPS and HTTP transport, and running ffmpeg and ffprobe: each is the outcome a step is given.
- Interleaving inside a method of `Service.Service`: a method is one uninterrupted turn; the protocol's runs interleave the steps.
- Goroutines: where each one stands is ghost state of `Service.Service`, moved on by the method that plays its turn, and `awaitCapture` is one step that ends clear or at its deadline instead of a polling loop.
- `*Session` values shared by address: an index into the sessions of the process stands for the address.
- The order in which directory entries and map keys are read: arbitrary, and the results do not depend on it but for sessions started at the same time.
- A state file that is there but does not parse: saves are renamed into place, so the model reads every state file back.
- An open file of a grab whose directory is renamed away: the model's grab writes by path.
- A graceful shutdown: its effects are among those of failed grabs, ended waits and crashes.
- A crash between moving the last frame out as cover and the discard after it: the frame theorems stop where a local delivery begins.
- `RunTimed`: a capture on a clock, without telemetry or layers.
- Temperatures, the filament list, pauses, the caption text, file names and metrics: presentation.
- The plate preview's fetch: whether there is one is taken as fixed between the encode and `duration`.
- `internal/config` and the preflight checks: the frame rate is positive and the holds are whole seconds, as the configuration has them.
- Floating point: time stamps are exact fractions rounded to milliseconds with either choice on ties, and numbers of a report carry their integer part and their text.
- The geometry and style of captions, and scaling stills to the footage: the evaluator tells pictures apart by source, crop and text.
- Service.Service.RecordReport: does not fold in temperatures and filaments, because the session of the model has only the fields the lifecycle and the video depend on.
- Drain.DrainExactly: assumes E1 to E3, because a report against them may bring back a directory that is gone; `Drain.DrainBounds` says what holds without.
- Characters above ASCII in `%q` names: taken as printable and written as they are.
- Lifecycle.EncoderReadsCommitted: assumes that saves succeed, because a failed save leaves frames on disk that a resumed, older record does not count.
