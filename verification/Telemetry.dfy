/** The merged view of the printer's reports: internal/telemetry/report.go. */
module Telemetry {
  import opened Basics

  /** A decoded JSON value. A number carries what `int(v)` truncates it to and what
      `FormatFloat(v, 'f', -1, 64)` prints for it. */
  datatype Json =
    | Null
    | Bool(b: bool)
    | Num(whole: int, text: string)
    | Str(s: string)
    | Arr(items: seq<Json>)
    | Obj(members: map<string, Json>)

  type Fields = map<string, Json>

  /** What arrives on the topic: only `Report` carries a section to merge. */
  datatype Payload = NotJson | NoSection | BadSection | Report(section: Fields)

  const ID_KEYS := ["task_id", "subtask_id", "lan_task_id", "job_id"]

  const JOB_KEYS := [
    "layer_num", "total_layer_num", "mc_percent", "mc_remaining_time", "subtask_name", "gcode_file"]

  function SetOf(keys: seq<string>): set<string> { set k | k in keys }

  const JOB_SCOPED: set<string> := SetOf(JOB_KEYS)

  function Lookup(f: Fields, key: string): Option<Json> {
    if key in f then Some(f[key]) else None
  }

  /** A value as text, tolerating a number. */
  function Text(v: Option<Json>): string {
    match v
    case Some(Str(s)) => s
    case Some(Num(_, text)) => text
    case _ => ""
  }

  function StringOf(f: Fields, key: string): string { Text(Lookup(f, key)) }

  const INT64_LIMIT := 0x8000_0000_0000_0000

  /** `strconv.Atoi`: an optional sign and decimal digits that fit in 64 bits. */
  function Atoi(s: string): Option<int> {
    var signed := s != "" && (s[0] == '-' || s[0] == '+');
    var digits := if signed then s[1..] else s;
    if !Digits(digits) then None
    else
      var n: int := if signed && s[0] == '-' then -(Value(digits) as int) else Value(digits);
      if -INT64_LIMIT <= n < INT64_LIMIT then Some(n) else None
  }

  /** A value as a whole number, tolerating a text. */
  function Whole(v: Option<Json>): int {
    match v
    case Some(Num(whole, _)) => whole
    case Some(Str(s)) => (match Atoi(s) case Some(n) => n case None => 0)
    case _ => 0
  }

  function IntOf(f: Fields, key: string): int { Whole(Lookup(f, key)) }

  /** The text is a decimal number, signed or not, that fits in 64 bits: n. */
  predicate Reads(s: string, n: int) {
    && -0x8000_0000_0000_0000 <= n < 0x8000_0000_0000_0000
    && (Signed(s) == Some(n) || (s != "" && s[0] == '+' && Digits(s[1..]) && Value(s[1..]) == n))
  }

  lemma AtoiReads(s: string)
    ensures forall n :: Atoi(s) == Some(n) <==> Reads(s, n)
  {
    if s != "" && (s[0] == '-' || s[0] == '+') {
      assert !IsDigit(s[0]) && !Digits(s);
    }
  }

  /** A number counts as its integer part, a text as the decimal number it is, and anything
      else as 0. */
  lemma WholeReads(v: Option<Json>, n: int)
    ensures v.Some? && v.value.Num? ==> Whole(v) == v.value.whole
    ensures v.Some? && v.value.Str? && Reads(v.value.s, n) ==> Whole(v) == n
    ensures v.Some? && v.value.Str? && (forall m :: !Reads(v.value.s, m)) ==> Whole(v) == 0
    ensures v.None? || !(v.value.Num? || v.value.Str?) ==> Whole(v) == 0
  {
    if v.Some? && v.value.Str? {
      AtoiReads(v.value.s);
    }
  }

  /** In particular a number sent as text counts as the number. */
  lemma WholeOfItoa(n: int)
    requires -0x8000_0000_0000_0000 <= n < 0x8000_0000_0000_0000
    ensures Whole(Some(Str(Itoa(n)))) == n
  {
    ItoaReads(n);
    WholeReads(Some(Str(Itoa(n))), n);
  }

  /** As text, a number is what it prints as, and what is neither is blank. */
  lemma TextReads(v: Option<Json>)
    ensures v.Some? && v.value.Num? ==> Text(v) == v.value.text
    ensures v.Some? && v.value.Str? ==> Text(v) == v.value.s
    ensures v.None? || !(v.value.Num? || v.value.Str?) ==> Text(v) == ""
  {
  }

  predicate Names(f: Fields, key: string) {
    StringOf(f, key) != "" && StringOf(f, key) != "0"
  }

  /** The first of these keys that names a job, by priority. */
  function FirstId(f: Fields, keys: seq<string>): string {
    if keys == [] then ""
    else if Names(f, keys[0]) then StringOf(f, keys[0])
    else FirstId(f, keys[1..])
  }

  function TaskID(f: Fields): string { FirstId(f, ID_KEYS) }

  predicate Named(id: string) { id != "" && id != "0" }

  /** The first of four ids that is not blank and not "0", and blank if there is none. */
  predicate FirstOf(id: string, a: string, b: string, c: string, d: string) {
    && (Named(a) ==> id == a)
    && (!Named(a) && Named(b) ==> id == b)
    && (!Named(a) && !Named(b) && Named(c) ==> id == c)
    && (!Named(a) && !Named(b) && !Named(c) ==> id == if Named(d) then d else "")
  }

  lemma FirstOfFour(f: Fields, keys: seq<string>)
    requires |keys| == 4
    ensures FirstOf(FirstId(f, keys),
                    StringOf(f, keys[0]), StringOf(f, keys[1]), StringOf(f, keys[2]), StringOf(f, keys[3]))
  {
    var w := Winner(f, keys);
    assert w < 4 ==> Names(f, keys[w]);
    assert forall j | 0 <= j < w :: !Names(f, keys[j]);
  }

  /** Which key identifies the job, by priority. */
  lemma TaskIdPriority(f: Fields)
    ensures FirstOf(TaskID(f), StringOf(f, "task_id"), StringOf(f, "subtask_id"),
                    StringOf(f, "lan_task_id"), StringOf(f, "job_id"))
  {
    FirstOfFour(f, ID_KEYS);
  }

  /** The report names a job, and not the one the view is on. */
  predicate Announces(f: Fields, section: Fields) {
    TaskID(f) != "" && TaskID(section) != "" && TaskID(section) != TaskID(f)
  }

  /** The view after a report. */
  function Merged(f: Fields, section: Fields): Fields {
    (if Announces(f, section) then f - JOB_SCOPED else f) + section
  }

  /** The fields that belong to a job. */
  lemma JobScopedAre()
    ensures JOB_SCOPED ==
      {"layer_num", "total_layer_num", "mc_percent", "mc_remaining_time", "subtask_name", "gcode_file"}
  {
    assert forall k :: k in JOB_SCOPED <==> exists i | 0 <= i < 6 :: k == JOB_KEYS[i];
    assert forall i | 0 <= i < 6 :: JOB_KEYS[i] in JOB_SCOPED;
  }

  /** A merge field by field: the report's value if it has one; nothing if the field belongs to
      a job and the report names another one; otherwise what was there. */
  lemma MergedField(f: Fields, section: Fields, key: string)
    ensures var was, now := TaskID(f), TaskID(section);
      Lookup(Merged(f, section), key) ==
        if key in section then Some(section[key])
        else if key in JOB_SCOPED && was != "" && now != "" && was != now then None
        else Lookup(f, key)
  {
  }

  class State {
    var fields: Fields

    constructor ()
      ensures fields == map[]
    {
      fields := map[];
    }

    function Id(): string
      reads this
    {
      TaskID(fields)
    }

    method Merge(payload: Payload) returns (report: bool)
      modifies this
      ensures report == payload.Report?
      ensures fields == if report then Merged(old(fields), payload.section) else old(fields)
    {
      if !payload.Report? {
        return false;
      }
      var section := payload.section;
      ForgetPreviousJob(section);
      ghost var kept := fields;
      var rest := section.Keys;
      while rest != {}
        invariant rest <= section.Keys
        invariant fields == kept + map k | k in section && k !in rest :: section[k]
        decreases rest
      {
        var k :| k in rest;
        fields := fields[k := section[k]];
        rest := rest - {k};
      }
      assert (map k | k in section && k !in rest :: section[k]) == section;
      return true;
    }

    method ForgetPreviousJob(section: Fields)
      modifies this
      ensures fields == if Announces(old(fields), section) then old(fields) - JOB_SCOPED else old(fields)
    {
      var current := Id();
      if current == "" {
        return;
      }
      var incoming := TaskID(section);
      if incoming == "" || incoming == current {
        return;
      }
      var keys := JOB_KEYS;
      for i := 0 to |keys|
        invariant fields == old(fields) - SetOf(keys[..i])
      {
        assert keys[..i + 1] == keys[..i] + [keys[i]];
        fields := fields - {keys[i]};
      }
      assert keys[..|keys|] == keys;
    }
  }

  // ---------------------------------------------------------------- replaying the log

  /** The view after a sequence of reports. */
  function View(log: seq<Fields>): Fields {
    if log == [] then map[] else Merged(View(log[..|log| - 1]), log[|log| - 1])
  }

  /** The last value any of these reports gave a field. */
  function Last(log: seq<Fields>, key: string): Option<Json> {
    if log == [] then None
    else if key in log[|log| - 1] then Some(log[|log| - 1][key])
    else Last(log[..|log| - 1], key)
  }

  /** Where the current job's reports begin: at the last report that named another job. */
  function LastAnnounced(log: seq<Fields>): (n: nat)
    ensures n <= |log|
  {
    if log == [] then 0
    else if Announces(View(log[..|log| - 1]), log[|log| - 1]) then |log| - 1
    else LastAnnounced(log[..|log| - 1])
  }

  /** The view moved from one named job to another. */
  predicate Changes(before: Fields, after: Fields) {
    TaskID(before) != "" && TaskID(after) != "" && TaskID(after) != TaskID(before)
  }

  /** Where the view last moved from one named job to another. */
  function LastChange(log: seq<Fields>): (n: nat)
    ensures n <= |log|
  {
    if log == [] then 0
    else if Changes(View(log[..|log| - 1]), View(log)) then |log| - 1
    else LastChange(log[..|log| - 1])
  }

  /** A device field is its last value ever, whatever jobs came and went. */
  lemma {:induction false} DeviceFieldsReplay(log: seq<Fields>, key: string)
    requires key !in JOB_SCOPED
    ensures Lookup(View(log), key) == Last(log, key)
  {
    if log != [] {
      DeviceFieldsReplay(log[..|log| - 1], key);
    }
  }

  /** Any field is its last value since the last announcement, if it is job-scoped. This
      holds of arbitrary partial reports. */
  lemma {:induction false} JobFieldsSinceAnnouncement(log: seq<Fields>, key: string)
    requires key in JOB_SCOPED
    ensures Lookup(View(log), key) == Last(log[LastAnnounced(log)..], key)
  {
    if log != [] {
      var before, report := log[..|log| - 1], log[|log| - 1];
      JobFieldsSinceAnnouncement(before, key);
      if Announces(View(before), report) {
        assert log[|log| - 1..] == [report];
        assert [report][..0] == [];
      } else {
        var n := LastAnnounced(before);
        assert log[n..][..|log| - n - 1] == before[n..];
      }
    }
  }

  /** A report that names any of the id keys names all four. */
  predicate Complete(section: Fields) {
    (forall i | 0 <= i < |ID_KEYS| :: ID_KEYS[i] in section)
    || (forall i | 0 <= i < |ID_KEYS| :: ID_KEYS[i] !in section)
  }

  lemma {:induction false} FirstIdFrom(f: Fields, g: Fields, keys: seq<string>)
    requires forall i | 0 <= i < |keys| :: Lookup(f, keys[i]) == Lookup(g, keys[i])
    ensures FirstId(f, keys) == FirstId(g, keys)
  {
    if keys != [] {
      assert Lookup(f, keys[0]) == Lookup(g, keys[0]);
      FirstIdFrom(f, g, keys[1..]);
    }
  }

  lemma {:induction false} FirstIdNone(f: Fields, keys: seq<string>)
    requires forall i | 0 <= i < |keys| :: keys[i] !in f
    ensures FirstId(f, keys) == ""
  {
    if keys != [] {
      assert keys[0] !in f;
      FirstIdNone(f, keys[1..]);
    }
  }

  /** Of complete reports, the ones that announce a job are the ones that change the view's. */
  lemma CompleteAnnounces(f: Fields, section: Fields)
    requires Complete(section)
    ensures Announces(f, section) <==> Changes(f, Merged(f, section))
  {
    var after := Merged(f, section);
    if forall i | 0 <= i < |ID_KEYS| :: ID_KEYS[i] in section {
      FirstIdFrom(after, section, ID_KEYS);
    } else {
      assert ID_KEYS[0] !in section && ID_KEYS[1] !in section && ID_KEYS[2] !in section && ID_KEYS[3] !in section;
      FirstIdNone(section, ID_KEYS);
      FirstIdFrom(after, f, ID_KEYS);
    }
  }

  lemma {:induction false} ChangesAreAnnounced(log: seq<Fields>)
    requires forall i | 0 <= i < |log| :: Complete(log[i])
    ensures LastChange(log) == LastAnnounced(log)
  {
    if log != [] {
      var before, report := log[..|log| - 1], log[|log| - 1];
      CompleteAnnounces(View(before), report);
      ChangesAreAnnounced(before);
    }
  }

  /** Merge refines replaying the log: when a report that names any id key names all four,
      a job-scoped field is its last value since the view last changed from one named job to
      another, and any other field is its last value ever. */
  lemma MergeRefinesReplay(log: seq<Fields>, key: string)
    requires forall i | 0 <= i < |log| :: Complete(log[i])
    ensures Lookup(View(log), key) ==
            Last(if key in JOB_SCOPED then log[LastChange(log)..] else log, key)
  {
    if key in JOB_SCOPED {
      ChangesAreAnnounced(log);
      JobFieldsSinceAnnouncement(log, key);
    } else {
      DeviceFieldsReplay(log, key);
    }
  }

  // ---------------------------------------------------------------- partial reports

  /** Which of the keys decides the id. */
  function Winner(f: Fields, keys: seq<string>): (i: nat)
    ensures i <= |keys|
    ensures i < |keys| ==> Names(f, keys[i]) && FirstId(f, keys) == StringOf(f, keys[i])
    ensures i == |keys| ==> FirstId(f, keys) == ""
    ensures forall j | 0 <= j < i :: !Names(f, keys[j])
  {
    if keys == [] || Names(f, keys[0]) then 0 else 1 + Winner(f, keys[1..])
  }

  /** After the merge, every job-scoped field is what this report alone says of it. */
  ghost predicate JobIsThisReports(f: Fields, section: Fields) {
    forall key | key in JOB_SCOPED :: Lookup(Merged(f, section), key) == Lookup(section, key)
  }

  /** Exactly when a merge leaves nothing of the previous job: the report names another job,
      or it overwrites everything there was. */
  lemma ForgetsExactlyWhen(f: Fields, section: Fields)
    ensures JobIsThisReports(f, section) <==>
              Announces(f, section) || (forall key | key in JOB_SCOPED && key in f :: key in section)
  {
  }

  /** If a merge moves the view from a named job to another one by a key that this very
      report wrote, nothing of the previous job survives. */
  lemma IdentityChange(f: Fields, section: Fields)
    requires Changes(f, Merged(f, section))
    requires var w := Winner(Merged(f, section), ID_KEYS); w < |ID_KEYS| && ID_KEYS[w] in section
    ensures JobIsThisReports(f, section)
  {
    var after := Merged(f, section);
    var w, v := Winner(after, ID_KEYS), Winner(section, ID_KEYS);
    assert StringOf(after, ID_KEYS[w]) == StringOf(section, ID_KEYS[w]);
    assert v < |ID_KEYS| ==> StringOf(after, ID_KEYS[v]) == StringOf(section, ID_KEYS[v]);
    assert v == w;
  }

  /** A view whose only id is under one key. */
  lemma OnlyId(f: Fields, keys: seq<string>, i: nat)
    requires i < |keys| && Names(f, keys[i])
    requires forall j | 0 <= j < i :: !Names(f, keys[j])
    ensures FirstId(f, keys) == StringOf(f, keys[i])
  {
    if i > 0 {
      assert !Names(f, keys[0]);
      OnlyId(f, keys[1..], i - 1);
    }
  }

  lemma IdKeysApart()
    ensures forall j, k | 0 <= j < k < |ID_KEYS| :: ID_KEYS[j] != ID_KEYS[k]
    ensures forall j | 0 <= j < |ID_KEYS| :: ID_KEYS[j] !in JOB_SCOPED
  {
  }

  lemma Uncovers(f: Fields, keys: seq<string>, w: nat, v: nat, section: Fields)
    requires forall j, k | 0 <= j < k < |keys| :: keys[j] != keys[k]
    requires w < v < |keys| && Names(f, keys[w]) && Names(f, keys[v])
    requires forall j | 0 <= j < v && j != w :: !Names(f, keys[j])
    requires section == map[keys[w] := Str("0")]
    ensures FirstId(f, keys) == StringOf(f, keys[w])
    ensures FirstId(section, keys) == ""
    ensures FirstId(f + section, keys) == StringOf(f, keys[v])
  {
    OnlyId(f, keys, w);
    NobodyNamed(section, keys);
    Zeroed(f, keys, w, section);
    OnlyId(f + section, keys, v);
  }

  lemma NobodyNamed(section: Fields, keys: seq<string>)
    requires forall j | 0 <= j < |keys| :: !Names(section, keys[j])
    ensures FirstId(section, keys) == ""
  {
    assert Winner(section, keys) == |keys|;
  }

  /** A zeroed key names nothing, and the others what they did. */
  lemma Zeroed(f: Fields, keys: seq<string>, w: nat, section: Fields)
    requires forall j, k | 0 <= j < k < |keys| :: keys[j] != keys[k]
    requires w < |keys| && section == map[keys[w] := Str("0")]
    ensures !Names(f + section, keys[w])
    ensures forall j | 0 <= j < |keys| && j != w ::
      StringOf(f + section, keys[j]) == StringOf(f, keys[j]) && (Names(f + section, keys[j]) <==> Names(f, keys[j]))
  {
  }

  /** The boundary: a report that only blanks the winning key uncovers an id of lower
      priority. The view changes job, and everything of the job that ended survives. */
  lemma UncoveredIdKeepsJob(f: Fields, keys: seq<string>, w: nat, v: nat)
    requires keys == ID_KEYS
    requires w < v < |keys| && Names(f, keys[w]) && Names(f, keys[v])
    requires forall j | 0 <= j < v && j != w :: !Names(f, keys[j])
    requires StringOf(f, keys[v]) != StringOf(f, keys[w])
    ensures var after := Merged(f, map[keys[w] := Str("0")]);
      Changes(f, after) && forall key | key in JOB_SCOPED :: Lookup(after, key) == Lookup(f, key)
  {
    IdKeysApart();
    var section: Fields := map[keys[w] := Str("0")];
    Uncovers(f, keys, w, v, section);
    assert Merged(f, section) == f + section;
    assert keys[w] !in JOB_SCOPED;
  }

  lemma ViewMore(log: seq<Fields>, section: Fields)
    ensures View(log + [section]) == Merged(View(log), section)
  {
    assert (log + [section])[..|log|] == log;
  }

  /** The other boundary, over a log: whatever a view held of a job when its id was blanked is
      in the view of the next job named, unless a report in between or that one overwrote it. */
  lemma BlankGapKeepsJob(log: seq<Fields>, blank: Fields, next: Fields, key: string)
    requires TaskID(View(log)) != "" && TaskID(View(log + [blank])) == ""
    requires Complete(next) && TaskID(next) != "" && TaskID(next) != TaskID(View(log))
    requires key in JOB_SCOPED && key !in blank && key !in next
    ensures var after := View(log + [blank] + [next]);
      && TaskID(after) == TaskID(next) && TaskID(after) != TaskID(View(log))
      && Lookup(after, key) == Lookup(View(log), key)
  {
    ViewMore(log, blank);
    ViewMore(log + [blank], next);
    AnnouncedView(View(log), blank);
    assert View(log + [blank] + [next]) == View(log + [blank]) + next;
    NextNames(View(log + [blank]), next);
  }

  /** A merge that blanks the id announces nothing. */
  lemma AnnouncedView(f: Fields, section: Fields)
    requires TaskID(Merged(f, section)) == ""
    ensures !Announces(f, section)
  {
    var after := Merged(f, section);
    assert forall key | Names(section, key) :: StringOf(after, key) == StringOf(section, key);
    assert Winner(after, ID_KEYS) == |ID_KEYS|;
    assert Winner(section, ID_KEYS) == |ID_KEYS|;
  }

  lemma NextNames(f: Fields, next: Fields)
    requires Complete(next) && TaskID(next) != ""
    ensures TaskID(f + next) == TaskID(next)
  {
    if forall i | 0 <= i < |ID_KEYS| :: ID_KEYS[i] !in next {
      FirstIdNone(next, ID_KEYS);
    } else {
      FirstIdFrom(f + next, next, ID_KEYS);
    }
  }

  const LAYER_NUM := "layer_num"

  /** A report of all four id keys. */
  function Naming(id: string): Fields {
    map[ID_KEYS[0] := Str(id), ID_KEYS[1] := Str("0"), ID_KEYS[2] := Str("0"), ID_KEYS[3] := Str("0")]
  }

  lemma NamingNames(id: string)
    ensures TaskID(Naming(id)) == (if id == "0" then "" else id) && Complete(Naming(id))
    ensures forall key | key in JOB_SCOPED :: key !in Naming(id)
  {
    IdKeysApart();
    NamingWith(id, ID_KEYS);
    assert forall i | 0 <= i < |ID_KEYS| :: ID_KEYS[i] in Naming(id);
  }

  lemma NamingWith(id: string, keys: seq<string>)
    requires |keys| == 4 && forall j, k | 0 <= j < k < 4 :: keys[j] != keys[k]
    ensures FirstId(map[keys[0] := Str(id), keys[1] := Str("0"), keys[2] := Str("0"), keys[3] := Str("0")], keys)
         == if id == "0" then "" else id
  {
    var f: Fields := map[keys[0] := Str(id), keys[1] := Str("0"), keys[2] := Str("0"), keys[3] := Str("0")];
    assert !Names(f, keys[1]) && !Names(f, keys[2]) && !Names(f, keys[3]);
    var w := Winner(f, keys);
    assert Names(f, keys[0]) ==> w == 0;
    assert !Names(f, keys[0]) ==> w == 4;
  }

  lemma LayerIsJobScoped()
    ensures LAYER_NUM in JOB_SCOPED && LAYER_NUM !in ID_KEYS
  {
    IdKeysApart();
    assert JOB_KEYS[0] == LAYER_NUM;
  }

  lemma FirstReport(id: string, layer: Json)
    requires id != "" && id != "0"
    ensures var f := View([Naming(id)[LAYER_NUM := layer]]); TaskID(f) == id && Lookup(f, LAYER_NUM) == Some(layer)
  {
    var first := Naming(id)[LAYER_NUM := layer];
    LayerIsJobScoped();
    NamingNames(id);
    ViewMore([], first);
    assert [] + [first] == [first];
    FirstIdFrom(View([first]), Naming(id), ID_KEYS);
  }

  /** So job a at some layer, a report that zeroes the id, and job b: b's view has a's layer. */
  lemma StaleLayer(a: string, b: string, layer: Json)
    requires a != "" && a != "0" && b != "" && b != "0" && a != b
    ensures var after := View([Naming(a)[LAYER_NUM := layer]] + [Naming("0")] + [Naming(b)]);
      TaskID(after) == b && Lookup(after, LAYER_NUM) == Some(layer)
  {
    var log := [Naming(a)[LAYER_NUM := layer]];
    LayerIsJobScoped();
    NamingNames("0");
    NamingNames(b);
    FirstReport(a, layer);
    ViewMore(log, Naming("0"));
    AllZeroed(View(log));
    BlankGapKeepsJob(log, Naming("0"), Naming(b), LAYER_NUM);
  }

  lemma AllZeroed(f: Fields)
    ensures TaskID(Merged(f, Naming("0"))) == ""
  {
    NamingNames("0");
    FirstIdFrom(Merged(f, Naming("0")), Naming("0"), ID_KEYS);
  }
}
