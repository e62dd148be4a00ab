/** The accessors of internal/telemetry/report.go that the lifecycle reads, by their keys. */
module Views {
  import opened Basics
  import opened Protocol
  import opened Telemetry

  /** The names of the printer's states, in the order of the first five tests below. */
  const STATES := ["RUNNING", "PAUSE", "FINISH", "FAILED", "IDLE"]

  function GcodeNamed(name: string, names: seq<string>): Gcode
    requires |names| == 5
  {
    if name == "" then Unreported
    else if name == names[0] then Running
    else if name == names[1] then Pause
    else if name == names[2] then Finish
    else if name == names[3] then Failed
    else if name == names[4] then Idle
    else Other
  }

  const GCODE_STATE := "gcode_state"
  const TOTAL_LAYER_NUM := "total_layer_num"
  const SUBTASK_NAME := "subtask_name"

  /** What the accessors read out of the merged fields. */
  function ViewOf(f: Fields): View {
    View(
      GcodeNamed(StringOf(f, GCODE_STATE), STATES),
      TaskID(f),
      IntOf(f, LAYER_NUM),
      IntOf(f, TOTAL_LAYER_NUM),
      StringOf(f, SUBTASK_NAME))
  }

  /** Before the first report the accessors say what the protocol starts from. */
  lemma NothingReported()
    ensures ViewOf(map[]) == NO_VIEW
  {
  }

  /** What a state is called. */
  predicate Called(g: Gcode, name: string) {
    && (g.Running? <==> name == "RUNNING")
    && (g.Pause? <==> name == "PAUSE")
    && (g.Finish? <==> name == "FINISH")
    && (g.Failed? <==> name == "FAILED")
    && (g.Idle? <==> name == "IDLE")
    && (g.Unreported? <==> name == "")
  }

  lemma GcodeCalled(name: string, names: seq<string>)
    requires |names| == 5 && "" !in names && forall i, j | 0 <= i < j < 5 :: names[i] != names[j]
    ensures var g := GcodeNamed(name, names);
      && (g.Running? <==> name == names[0]) && (g.Pause? <==> name == names[1])
      && (g.Finish? <==> name == names[2]) && (g.Failed? <==> name == names[3])
      && (g.Idle? <==> name == names[4]) && (g.Unreported? <==> name == "")
  {
  }

  lemma StatesApart()
    ensures "" !in STATES && forall i, j | 0 <= i < j < 5 :: STATES[i] != STATES[j]
  {
  }

  /** The view by the keys of the merged fields. */
  lemma ViewReads(f: Fields)
    ensures var v := ViewOf(f);
      && Called(v.gcode, Text(Lookup(f, "gcode_state")))
      && v.layer == Whole(Lookup(f, "layer_num"))
      && v.total == Whole(Lookup(f, "total_layer_num"))
      && v.jobName == Text(Lookup(f, "subtask_name"))
      && FirstOf(v.taskID, Text(Lookup(f, "task_id")), Text(Lookup(f, "subtask_id")),
                 Text(Lookup(f, "lan_task_id")), Text(Lookup(f, "job_id")))
  {
    StatesApart();
    GcodeCalled(StringOf(f, GCODE_STATE), STATES);
    TaskIdPriority(f);
  }

  /** Every report that names one of the four ids names all of them. */
  predicate AllIdsOrNone(log: seq<Fields>) {
    forall i | 0 <= i < |log| ::
      ("task_id" in log[i] && "subtask_id" in log[i] && "lan_task_id" in log[i] && "job_id" in log[i])
      || ("task_id" !in log[i] && "subtask_id" !in log[i] && "lan_task_id" !in log[i] && "job_id" !in log[i])
  }

  lemma KeysComplete(section: Fields, keys: seq<string>)
    requires |keys| == 4
    requires (keys[0] in section && keys[1] in section && keys[2] in section && keys[3] in section)
      || (keys[0] !in section && keys[1] !in section && keys[2] !in section && keys[3] !in section)
    ensures (forall i | 0 <= i < |keys| :: keys[i] in section)
      || (forall i | 0 <= i < |keys| :: keys[i] !in section)
  {
  }

  lemma LogComplete(log: seq<Fields>)
    requires AllIdsOrNone(log)
    ensures forall i | 0 <= i < |log| :: Complete(log[i])
  {
    forall i | 0 <= i < |log|
      ensures Complete(log[i])
    {
      KeysComplete(log[i], ID_KEYS);
    }
  }

  lemma KeysOfJobs()
    ensures "layer_num" in JOB_SCOPED && "total_layer_num" in JOB_SCOPED && "subtask_name" in JOB_SCOPED
  {
    JobScopedAre();
  }

  lemma KeysOfPrinters()
    ensures "gcode_state" !in JOB_SCOPED
    ensures "task_id" !in JOB_SCOPED && "subtask_id" !in JOB_SCOPED
    ensures "lan_task_id" !in JOB_SCOPED && "job_id" !in JOB_SCOPED
  {
    JobScopedAre();
  }

  lemma JobField(log: seq<Fields>, key: string)
    requires AllIdsOrNone(log) && key in JOB_SCOPED
    ensures Lookup(Telemetry.View(log), key) == Last(log[LastChange(log)..], key)
  {
    LogComplete(log);
    MergeRefinesReplay(log, key);
  }

  /** What the service is told after any log of such reports: of the layer, the layer count and
      the job name, the last value since the view last moved from one named job to another;
      of the state and the ids, the last value ever. */
  lemma ViewOfLog(log: seq<Fields>)
    requires AllIdsOrNone(log)
    ensures var v, job := ViewOf(Telemetry.View(log)), log[LastChange(log)..];
      && v.layer == Whole(Last(job, "layer_num"))
      && v.total == Whole(Last(job, "total_layer_num"))
      && v.jobName == Text(Last(job, "subtask_name"))
      && Called(v.gcode, Text(Last(log, "gcode_state")))
      && FirstOf(v.taskID, Text(Last(log, "task_id")), Text(Last(log, "subtask_id")),
                 Text(Last(log, "lan_task_id")), Text(Last(log, "job_id")))
  {
    ViewReads(Telemetry.View(log));
    KeysOfJobs();
    JobField(log, "layer_num");
    JobField(log, "total_layer_num");
    JobField(log, "subtask_name");
    KeysOfPrinters();
    DeviceFieldsReplay(log, "gcode_state");
    DeviceFieldsReplay(log, "task_id");
    DeviceFieldsReplay(log, "subtask_id");
    DeviceFieldsReplay(log, "lan_task_id");
    DeviceFieldsReplay(log, "job_id");
  }
}
