/** `move` of internal/service/helpers.go: a rename, or a copy when the destination is on
    another filesystem. */
module Mover {

  type Files = map<string, string>

  /** How each system call goes: whether the rename works, the source opens, the destination
      opens for writing, how much of the copy is written, whether it could all be written,
      whether closing reports no error, and whether the source can be removed. */
  datatype Luck = Luck(
    renamed: bool, readable: bool, created: bool, written: nat, copied: bool, closed: bool, removed: bool)

  function Renamed(files: Files, src: string, dst: string): Files
    requires src in files
  {
    (files - {src})[dst := files[src]]
  }

  function Prefix(s: string, n: nat): string { if n < |s| then s[..n] else s }

  /** What the copy has written: all that there was to read, or part of it. Opening the
      destination truncates it, so a file copied onto itself has nothing left to read. */
  function Copied(files: Files, src: string, dst: string, luck: Luck): Files
    requires src in files && dst in files
  {
    files[dst := if luck.copied then files[src] else Prefix(files[src], luck.written)]
  }

  /** The file system after each call that changes it, in order, the initial one first. */
  function Trace(files: Files, src: string, dst: string, luck: Luck): (trace: seq<Files>)
    ensures trace != [] && trace[0] == files
  {
    if src !in files then [files]
    else if luck.renamed then [files, Renamed(files, src, dst)]
    else if !luck.readable || !luck.created then [files]
    else
      var open := files[dst := ""];
      var full := Copied(open, src, dst, luck);
      if !luck.copied || !luck.closed || !luck.removed then [files, open, full]
      else [files, open, full, full - {src}]
  }

  predicate Moves(files: Files, src: string, luck: Luck) {
    src in files && (luck.renamed || (luck.readable && luck.created && luck.copied && luck.closed && luck.removed))
  }

  class FileSystem {
    var files: Files

    method Move(src: string, dst: string, luck: Luck) returns (ok: bool)
      modifies this
      ensures ok <==> Moves(old(files), src, luck)
      ensures files == Trace(old(files), src, dst, luck)[|Trace(old(files), src, dst, luck)| - 1]
    {
      if src in files && luck.renamed {
        files := Renamed(files, src, dst);
        return true;
      }
      if src !in files || !luck.readable {
        return false;
      }
      if !luck.created {
        return false;
      }
      files := files[dst := ""];
      files := Copied(files, src, dst, luck);
      if !luck.copied {
        return false;
      }
      if !luck.closed {
        return false;
      }
      if !luck.removed {
        return false;
      }
      files := files - {src};
      return true;
    }
  }

  /** The content is still under one of the two names. */
  predicate Kept(files: Files, src: string, dst: string, content: string) {
    (src in files && files[src] == content) || (dst in files && files[dst] == content)
  }

  /** After every call the content is still there. */
  predicate NeverLost(files: Files, src: string, dst: string, luck: Luck)
    requires src in files
  {
    forall i | 0 <= i < |Trace(files, src, dst, luck)| :: Kept(Trace(files, src, dst, luck)[i], src, dst, files[src])
  }

  /** However the calls go, and wherever they are cut off, the file is not lost, exactly when
      it is not moved onto itself. */
  lemma MoveNeverLoses(files: Files, src: string, dst: string)
    requires src in files
    ensures (forall luck :: NeverLost(files, src, dst, luck)) <==> src != dst
  {
    if src == dst {
      var luck := Luck(false, true, true, 0, true, true, true);
      var trace := Trace(files, src, dst, luck);
      assert !Kept(trace[3], src, dst, files[src]);
      assert !NeverLost(files, src, dst, luck);
    } else {
      forall luck
        ensures NeverLost(files, src, dst, luck)
      {
      }
    }
  }

  /** Success means moved; failure changes nothing but the destination. */
  lemma MoveIsMove(files: Files, src: string, dst: string, luck: Luck)
    requires src != dst
    ensures var after := Trace(files, src, dst, luck)[|Trace(files, src, dst, luck)| - 1];
      if Moves(files, src, luck) then after == Renamed(files, src, dst) else after - {dst} == files - {dst}
  {
  }
}
