/** The on-disk record of a print being captured: internal/session/session.go.

    A session is one value, `Session`; what the disk holds of it is a `Folder`,
    kept at a `Place` that is either under the staging root or under failed/. */
module Sessions {
  import opened Basics

  /** The fields of the state file the lifecycle depends on. */
  datatype Session = Session(
    taskID: string, jobName: string, startedAt: int,
    frames: nat, lastLayer: int, totalLayers: int, layers: seq<int>, partial: bool)

  /** The contents of one frame file: a complete picture, labelled with the session it was
      triggered for, and with the merged job id and the layer of the report that triggered it,
      or a write that never finished. */
  datatype Still = Photo(owner: string, job: string, layer: int) | Blurred

  /** A job directory. `state` is state.json and `temp` is state.json.tmp; `stills[n]` is
      frame-n.jpg. `handedOver` marks a directory whose local delivery has begun to move
      files out of it. */
  datatype Folder = Folder(
    state: Option<Session>, temp: Option<Session>, stills: map<nat, Still>, handedOver: bool)

  const EMPTY_FOLDER := Folder(None, None, map[], false)

  datatype Reason = EncodeFailed | UploadFailed | OutputUnwritable

  /** `<root>/<name>`, or `<root>/failed/<reason>-<name>`. */
  datatype Place = Staged(name: string) | Parked(reason: Reason, name: string)

  type Disk = map<Place, Folder>

  predicate KeptChar(c: char) {
    || 'a' <= c <= 'z'
    || 'A' <= c <= 'Z'
    || '0' <= c <= '9'
    || c == '-'
    || c == '_'
  }

  /** Hypothesis E1 on one id: not blank, and made of characters `sanitize` keeps. */
  predicate Kept(id: string) {
    id != "" && forall i | 0 <= i < |id| :: KeptChar(id[i])
  }

  function Clean(s: string): (t: string)
    ensures |t| == |s|
    ensures forall i | 0 <= i < |s| :: t[i] == if KeptChar(s[i]) then s[i] else '_'
  {
    seq(|s|, i requires 0 <= i < |s| => if KeptChar(s[i]) then s[i] else '_')
  }

  function Sanitized(s: string): string {
    if s == "" then "unknown" else Clean(s)
  }

  method Sanitize(s: string) returns (out: string)
    ensures out == Sanitized(s)
    ensures Kept(out)
  {
    out := "";
    for i := 0 to |s|
      invariant |out| == i
      invariant forall j | 0 <= j < i :: out[j] == if KeptChar(s[j]) then s[j] else '_'
    {
      out := out + [if KeptChar(s[i]) then s[i] else '_'];
    }
    if |out| == 0 {
      return "unknown";
    }
    assert out == Clean(s);
  }

  function DirName(id: string): string { "job-" + Sanitized(id) }

  /** Two ids share a directory exactly when they agree after sanitising; on ids that
      satisfy E1 that means they are the same id. */
  lemma DirNameInjective(a: string, b: string)
    ensures DirName(a) == DirName(b) <==> Sanitized(a) == Sanitized(b)
    ensures Kept(a) && Kept(b) && DirName(a) == DirName(b) ==> a == b
  {
    assert DirName(a)[4..] == Sanitized(a);
    assert DirName(b)[4..] == Sanitized(b);
    if Kept(a) {
      assert Sanitized(a) == a;
    }
    if Kept(b) {
      assert Sanitized(b) == b;
    }
  }

  /** Letters, digits, '-' and '_' are kept, so an id of those names its own directory; decimal
      ids, which is what the printer sends, never collide. A blank id has a fixed one. */
  lemma OwnDirectory(id: string)
    requires forall i | 0 <= i < |id| ::
      'a' <= id[i] <= 'z' || 'A' <= id[i] <= 'Z' || '0' <= id[i] <= '9' || id[i] == '-' || id[i] == '_'
    ensures DirName(id) == if id == "" then "job-unknown" else "job-" + id
    ensures Kept(id) <==> id != ""
  {
    assert Clean(id) == id;
  }

  /** And any other character becomes '_'. */
  lemma OthersReplaced(id: string, i: nat)
    requires i < |id| && !('a' <= id[i] <= 'z' || 'A' <= id[i] <= 'Z' || '0' <= id[i] <= '9')
    requires id[i] != '-'
    ensures |DirName(id)| == 4 + |id| && DirName(id)[4 + i] == '_'
  {
    assert DirName(id)[4..] == Clean(id);
  }

  lemma DecimalsApart(m: int, n: int)
    requires DirName(Itoa(m)) == DirName(Itoa(n))
    ensures m == n
  {
    OwnDirectory(Itoa(m));
    OwnDirectory(Itoa(n));
    assert DirName(Itoa(m))[4..] == Itoa(m) && DirName(Itoa(n))[4..] == Itoa(n);
    ItoaInjective(m, n);
  }

  /** Without E1 the directory is not a key: two different jobs meet in one directory. */
  lemma DirectoriesCollide()
    ensures "a/1" != "a:1" && DirName("a/1") == DirName("a:1")
    ensures DirName("") == DirName("unknown")
  {
  }

  /** File i + 1 is there, complete, and shows the layer listed for it. */
  predicate Shows(x: Session, stills: map<nat, Still>, i: nat)
    requires i < |x.layers|
  {
    i + 1 in stills && stills[i + 1].Photo? && stills[i + 1].layer == x.layers[i]
  }

  /** What a state file claims about the pictures beside it, and the claim being true:
      files 1..frames are there, complete, and layers[i] is the layer that triggered
      file i + 1. */
  predicate Truth(x: Session, stills: map<nat, Still>) {
    |x.layers| == x.frames && forall i: nat | i < |x.layers| :: Shows(x, stills, i)
  }

  /** Whatever happens to the file after the last one leaves the claim true. */
  lemma TruthBelow(x: Session, before: map<nat, Still>, after: map<nat, Still>, index: nat)
    requires Truth(x, before) && x.frames < index
    requires forall n | n in before && n != index :: n in after && after[n] == before[n]
    ensures Truth(x, after)
  {
    forall i: nat | i < |x.layers|
      ensures Shows(x, after, i)
    {
      assert Shows(x, before, i);
    }
  }

  /** Only the frame count, the layers and the files matter. */
  lemma TruthSame(x: Session, y: Session, stills: map<nat, Still>)
    requires Truth(x, stills) && y.frames == x.frames && y.layers == x.layers
    ensures Truth(y, stills)
  {
    forall i: nat | i < |y.layers|
      ensures Shows(y, stills, i)
    {
      assert Shows(x, stills, i);
    }
  }

  /** A picture that has landed may be counted. */
  lemma TruthGrows(x: Session, y: Session, stills: map<nat, Still>, layer: int)
    requires Truth(x, stills) && y.frames == x.frames + 1 && y.layers == x.layers + [layer]
    requires y.frames in stills && stills[y.frames].Photo? && stills[y.frames].layer == layer
    ensures Truth(y, stills)
  {
    forall i: nat | i < |y.layers|
      ensures Shows(y, stills, i)
    {
      assert i < |x.layers| ==> Shows(x, stills, i);
    }
  }

  predicate Increasing(layers: seq<int>) {
    forall i, j | 0 <= i < j < |layers| :: layers[i] < layers[j]
  }

  /** Layers climb, and none lies above the last layer seen. */
  predicate Climbing(x: Session) {
    && Increasing(x.layers)
    && forall i | 0 <= i < |x.layers| :: 0 < x.layers[i] <= x.lastLayer
  }
}
