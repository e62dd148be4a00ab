/** The staging area: `Store` of internal/session/session.go, and the `Save` of a session.
    Whether a system call works is a parameter; a file cannot be written into a directory
    that is not there, and a rename needs its source. */
module Storage {
  import opened Basics
  import opened Sessions
  import opened Protocol

  /** A directory listing: every staged directory once, in any order. */
  predicate Entries(disk: Disk, names: seq<string>) {
    && (forall i | 0 <= i < |names| :: Staged(names[i]) in disk)
    && (forall p | p in disk && p.Staged? :: p.name in names)
    && (forall i, j | 0 <= i < j < |names| :: names[i] != names[j])
  }

  /** What a `Save` leaves behind, each half failing on its own. */
  function Saved(disk: Disk, p: Place, x: Session, wrote: bool, renamed: bool): Disk {
    if p !in disk || !wrote then disk
    else if !renamed then Written(disk, p, x)
    else Renamed(Written(disk, p, x), p)
  }

  predicate NewestFirst(disk: Disk, order: seq<string>)
    requires forall i | 0 <= i < |order| :: Listable(disk, order[i])
  {
    forall i, j | 0 <= i < j < |order| :: StartOf(disk, order[i]) >= StartOf(disk, order[j])
  }

  function StartOf(disk: Disk, name: string): int
    requires Listable(disk, name)
  {
    disk[Staged(name)].state.value.startedAt
  }

  /** The record of a print first seen in this view at this time: partial when it was under
      way by then. */
  predicate IsNew(x: Session, v: View, now: int) {
    && x.taskID == v.taskID && x.jobName == v.jobName && x.startedAt == now
    && x.totalLayers == v.total && x.frames == 0 && x.layers == [] && x.lastLayer == -1
    && (x.partial <==> v.layer > 1)
  }

  /** The staged records, each once, newest first. */
  ghost predicate AllRecords(disk: Disk, out: seq<Open>) {
    && (forall i | 0 <= i < |out| ::
          out[i].dir.Staged? && out[i].dir in disk && disk[out[i].dir].state == Some(out[i].sess))
    && (forall p | p in disk && p.Staged? && disk[p].state.Some? :: exists i | 0 <= i < |out| :: out[i].dir == p)
    && (forall i, j | 0 <= i < j < |out| ::
          out[i].dir != out[j].dir && out[i].sess.startedAt >= out[j].sess.startedAt)
  }

  lemma ListingReads(disk: Disk, order: seq<string>)
    requires Listing(disk, order)
    ensures AllRecords(disk, Loaded(disk, order))
  {
    var out := Loaded(disk, order);
    forall p | p in disk && p.Staged? && disk[p].state.Some?
      ensures exists i | 0 <= i < |out| :: out[i].dir == p
    {
      var i :| 0 <= i < |order| && order[i] == p.name;
      assert out[i].dir == p;
    }
  }

  class Store {
    var disk: Disk

    constructor (disk: Disk)
      ensures this.disk == disk
    {
      this.disk := disk;
    }

    method Save(dir: Place, x: Session, wrote: bool, renamed: bool) returns (ok: bool)
      modifies this
      ensures disk == Saved(old(disk), dir, x, wrote, renamed)
      ensures ok <==> dir in old(disk) && wrote && renamed
      ensures dir !in old(disk) || !wrote ==> disk == old(disk)
      ensures dir in old(disk) && wrote && !renamed ==>
        disk == old(disk)[dir := old(disk)[dir].(temp := Some(x))]
      ensures ok ==> disk == old(disk)[dir := old(disk)[dir].(state := Some(x), temp := None)]
    {
      if dir !in disk || !wrote {
        return false;
      }
      disk := disk[dir := disk[dir].(temp := Some(x))];
      if !renamed {
        return false;
      }
      disk := disk[dir := disk[dir].(state := disk[dir].temp, temp := None)];
      return true;
    }

    /** `Create`: an existing state file is reopened; otherwise a new session is saved, and
        given up if it cannot be. */
    method Create(v: View, mkdir: bool, wrote: bool, renamed: bool, now: int)
      returns (made: Option<Session>, dir: Place)
      modifies this
      ensures dir == Staged(DirName(v.taskID))
      ensures
        if dir in old(disk) && old(disk)[dir].state.Some? then disk == old(disk) && made == old(disk)[dir].state
        else if !mkdir then disk == old(disk) && made == None
        else if !wrote then disk == old(disk)[dir := FolderAt(old(disk), dir).(temp := None)] && made == None
        else
          && disk == Saved(old(disk)[dir := FolderAt(old(disk), dir)], dir, Fresh(v, now), true, renamed)
          && made == if renamed then Some(Fresh(v, now)) else None
      ensures var was := if dir in old(disk) then old(disk)[dir].state else None;
        && (was.Some? ==> made == was && disk == old(disk))
        && (was.None? ==> (made.Some? <==> mkdir && wrote && renamed))
        && (was.None? && made.Some? ==> IsNew(made.value, v, now))
      ensures made.Some? ==> dir in disk && disk[dir].state == made
      ensures forall p | p != dir :: (p in disk <==> p in old(disk)) && (p in disk ==> disk[p] == old(disk)[p])
      ensures dir in disk ==> disk[dir].stills == if dir in old(disk) then old(disk)[dir].stills else map[]
    {
      var name := Sanitize(v.taskID);
      dir := Staged("job-" + name);
      if dir in disk && disk[dir].state.Some? {
        return disk[dir].state, dir;
      }
      if !mkdir {
        return None, dir;
      }
      if dir !in disk {
        disk := disk[dir := EMPTY_FOLDER];
      }
      var s := Session(v.taskID, v.jobName, now, 0, -1, v.total, [], v.layer > 1);
      if !wrote {
        disk := disk[dir := disk[dir].(temp := None)];
        return None, dir;
      }
      var ok := Save(dir, s, true, renamed);
      if !ok {
        return None, dir;
      }
      return Some(s), dir;
    }

    /** Where a session started at this time goes in an order, newest first. */
    method Slot(order: seq<string>, start: int) returns (k: nat)
      requires forall i | 0 <= i < |order| :: Listable(disk, order[i])
      requires NewestFirst(disk, order)
      ensures k <= |order|
      ensures forall i | 0 <= i < k :: StartOf(disk, order[i]) >= start
      ensures forall i | k <= i < |order| :: StartOf(disk, order[i]) <= start
    {
      k := |order|;
      while k > 0 && StartOf(disk, order[k - 1]) < start
        invariant k <= |order|
        invariant forall i | k <= i < |order| :: StartOf(disk, order[i]) <= start
      {
        k := k - 1;
      }
    }

    /** `List`: every session that loads, newest first; the sort is done on the way. */
    method List(names: seq<string>) returns (out: seq<Open>, order: seq<string>)
      requires Entries(disk, names)
      ensures Listing(disk, order) && out == Loaded(disk, order)
      ensures AllRecords(disk, out)
    {
      out := [];
      order := [];
      for n := 0 to |names|
        invariant forall i | 0 <= i < |order| :: Listable(disk, order[i]) && order[i] in names[..n]
        invariant forall i | 0 <= i < n && Listable(disk, names[i]) :: names[i] in order
        invariant forall i, j | 0 <= i < j < |order| :: order[i] != order[j]
        invariant NewestFirst(disk, order)
        invariant out == Loaded(disk, order)
      {
        var name := names[n];
        if disk[Staged(name)].state.Some? {
          var x := Open(disk[Staged(name)].state.value, Staged(name));
          var k := Slot(order, x.sess.startedAt);
          assert name !in names[..n];
          InsertedListing(disk, order, name, k);
          out := out[..k] + [x] + out[k..];
          order := order[..k] + [name] + order[k..];
        }
      }
      forall p | p in disk && p.Staged? && disk[p].state.Some?
        ensures p.name in order
      {
        assert p == Staged(p.name) && Listable(disk, p.name);
      }
      ListingReads(disk, order);
    }

    /** A frame file: written whole, or not, and then perhaps removed. */
    method Grab(dest: Place, index: nat, still: Still, grabbed: bool, removed: bool) returns (ok: bool)
      modifies this
      ensures ok <==> grabbed && dest in old(disk)
      ensures disk ==
        if ok then old(disk)[dest := old(disk)[dest].(stills := old(disk)[dest].stills[index := still])]
        else if removed && dest in old(disk)
        then old(disk)[dest := old(disk)[dest].(stills := old(disk)[dest].stills - {index})]
        else old(disk)
    {
      if grabbed && dest in disk {
        disk := disk[dest := disk[dest].(stills := disk[dest].stills[index := still])];
        return true;
      }
      if removed && dest in disk {
        disk := disk[dest := disk[dest].(stills := disk[dest].stills - {index})];
      }
      return false;
    }

    method Discard(dir: Place)
      modifies this
      ensures disk == old(disk) - {dir}
    {
      disk := disk - {dir};
    }

    /** A cover moved out of the directory; a delivery has begun. */
    method TakeOut(dir: Place, cover: Cover)
      modifies this
      ensures disk == HandOver(old(disk), dir, cover)
      ensures dir !in old(disk) ==> disk == old(disk)
      ensures dir in old(disk) ==> disk == old(disk)[dir := old(disk)[dir].(
        handedOver := true,
        stills := if cover.LastFrame? then old(disk)[dir].stills - {cover.index} else old(disk)[dir].stills)]
    {
      if dir in disk {
        var stills := disk[dir].stills;
        if cover.LastFrame? {
          stills := stills - {cover.index};
        }
        disk := disk[dir := disk[dir].(handedOver := true, stills := stills)];
      }
    }

    /** `Park`: a job that cannot be moved aside is removed. */
    method Park(dir: Place, reason: Reason, renamed: bool) returns (dest: Place)
      modifies this
      requires renamed ==> dir in disk && Parked(reason, dir.name) !in disk
      ensures dest == if renamed then Parked(reason, dir.name) else dir
      ensures disk == if renamed then (old(disk) - {dir})[dest := old(disk)[dir]] else old(disk) - {dir}
    {
      dest := Parked(reason, dir.name);
      if !renamed {
        disk := disk - {dir};
        return dir;
      }
      disk := (disk - {dir})[dest := disk[dir]];
    }
  }

  lemma InsertedListing(disk: Disk, order: seq<string>, name: string, k: nat)
    requires forall i | 0 <= i < |order| :: Listable(disk, order[i])
    requires NewestFirst(disk, order) && k <= |order| && Listable(disk, name)
    requires forall i | 0 <= i < k :: StartOf(disk, order[i]) >= StartOf(disk, name)
    requires forall i | k <= i < |order| :: StartOf(disk, order[i]) <= StartOf(disk, name)
    requires name !in order && forall i, j | 0 <= i < j < |order| :: order[i] != order[j]
    ensures var t := order[..k] + [name] + order[k..];
      && (forall i, j | 0 <= i < j < |t| :: t[i] != t[j])
      && (forall n :: n in t <==> n in order || n == name)
    ensures var t := order[..k] + [name] + order[k..];
      && (forall i | 0 <= i < |t| :: Listable(disk, t[i])) && NewestFirst(disk, t)
      && Loaded(disk, t) ==
          Loaded(disk, order)[..k] + [Open(disk[Staged(name)].state.value, Staged(name))] + Loaded(disk, order)[k..]
  {
  }
}
