/** The patch engine: a read-only preview, then a two-phase apply over a map of files. */
module Patch {
  import opened Options
  import opened Invocations
  import opened ByteSearch

  const PATCH_MAX_FILE_BYTES: nat := 1024 * 1024

  type Path = string

  datatype WriteGuard = Allow | NeedsApproval(reason: string)

  /** What path resolution, the write guards and the directory tree answer, and how temp files are named. */
  datatype Host = Host(
    resolveAdd: string -> Result<(Path, WriteGuard), PatchError>,
    resolveUpdate: string -> Result<(Path, WriteGuard), PatchError>,
    isDir: Path -> bool,
    tmpFor: (Path, nat) -> Path,
    display: Path -> string)

  datatype ReadFault = NoReadFault | StatFails(message: string) | ReadFails(message: string)

  /** How writing a temp file can fail; some bytes may have been written by then. */
  datatype WriteFault =
    | NoWriteFault
    | CreateFails(message: string)
    | WriteFails(message: string, written: Bytes)
    | SyncFails(message: string)

  datatype RenameFault = NoRenameFault | CrossDevice | RenameFails(message: string)

  /** What goes wrong at the i-th edit. */
  datatype Faults = Faults(read: nat -> ReadFault, write: nat -> WriteFault, rename: nat -> RenameFault)

  datatype St = St(files: map<Path, Bytes>, counter: nat, tracked: set<Path>)

  // ---- reading and checking ----

  predicate Exists(k: Host, files: map<Path, Bytes>, p: Path) { p in files || k.isDir(p) }

  /** `read_file_capped`. */
  function ReadCapped(k: Host, files: map<Path, Bytes>, p: Path, rel: string,
                      fault: ReadFault): Result<Bytes, PatchError> {
    if fault.StatFails? then Err(PatchIoError(rel, fault.message))
    else if k.isDir(p) then Err(PatchIoError(rel, "is a directory"))
    else if p !in files then Err(UpdateOnMissingFile(rel))
    else if |files[p]| > PATCH_MAX_FILE_BYTES then Err(FileTooLarge(rel))
    else if fault.ReadFails? then Err(PatchIoError(rel, fault.message))
    else Ok(files[p])
  }

  /** The match an update needs: exactly one by count. */
  function CheckMatch(rel: string, bytes: Bytes, before: Bytes): Option<PatchError> {
    var n := Count(bytes, before);
    if n == 0 then Some(NoMatch(rel)) else if n > 1 then Some(AmbiguousMatch(rel, n)) else None
  }

  function CountLf(s: Bytes): nat { if s == [] then 0 else (if s[0] == LF then 1 else 0) + CountLf(s[1..]) }

  /** `line_count`: a last line without its line feed counts. */
  function LineCount(s: Bytes): nat {
    if s == [] then 0 else if s[|s| - 1] == LF then CountLf(s) else CountLf(s) + 1
  }

  // ---- preview ----

  datatype Preview = Preview(snapshots: seq<PreviewContent>, summary: PatchPreview)

  const EMPTY_PREVIEW := Preview([], PatchPreview({}, 0, 0, 0, true, None))

  function WithReason(known: Option<string>, guard: WriteGuard): Option<string> {
    if known.None? && guard.NeedsApproval? then Some(guard.reason) else known
  }

  function PreviewOne(k: Host, files: map<Path, Bytes>, edit: PatchTool, fault: ReadFault,
                      acc: Preview): Result<Preview, PatchError> {
    var s := acc.summary;
    match edit
    case Add(path, content) =>
      (match k.resolveAdd(path)
       case Err(e) => Err(e)
       case Ok((target, guard)) =>
         if Exists(k, files, target) then Err(AddOnExistingFile(path))
         else
           Ok(Preview(acc.snapshots + [PreviewContent(path, None)],
                      s.(targets := s.targets + {path}, editCount := s.editCount + 1,
                         addedLines := s.addedLines + LineCount(content),
                         autoApprove := false, notRevertible := WithReason(s.notRevertible, guard)))))
    case Update(path, before, after) =>
      (match k.resolveUpdate(path)
       case Err(e) => Err(e)
       case Ok((target, guard)) =>
         match ReadCapped(k, files, target, path, fault)
         case Err(e) => Err(e)
         case Ok(bytes) =>
           var bad := CheckMatch(path, bytes, before);
           if bad.Some? then Err(bad.value)
           else
             Ok(Preview(acc.snapshots + [PreviewContent(path, Some(bytes))],
                        s.(targets := s.targets + {path}, editCount := s.editCount + 1,
                           addedLines := s.addedLines + LineCount(after),
                           removedLines := s.removedLines + LineCount(before),
                           autoApprove := s.autoApprove && guard.Allow?,
                           notRevertible := WithReason(s.notRevertible, guard)))))
  }

  function PreviewFrom(k: Host, files: map<Path, Bytes>, edits: seq<PatchTool>, faults: Faults, i: nat,
                       acc: Preview): Result<Preview, PatchError>
    requires i <= |edits|
    decreases |edits| - i
  {
    if i == |edits| then Ok(acc)
    else
      match PreviewOne(k, files, edits[i], faults.read(i), acc)
      case Err(e) => Err(e)
      case Ok(acc1) => PreviewFrom(k, files, edits, faults, i + 1, acc1)
  }

  // ---- apply, phase 1 ----

  /** The checks on one edit: its target and the bytes it should end up with. */
  function Verify(k: Host, files: map<Path, Bytes>, edit: PatchTool, snapshot: PreviewContent,
                  fault: ReadFault): Result<(Path, Bytes), PatchError> {
    match edit
    case Add(path, content) =>
      (match k.resolveAdd(path)
       case Err(e) => Err(e)
       case Ok((target, _)) => if Exists(k, files, target) then Err(AddOnExistingFile(path)) else Ok((target, content)))
    case Update(path, before, after) =>
      (match k.resolveUpdate(path)
       case Err(e) => Err(e)
       case Ok((target, _)) =>
         match ReadCapped(k, files, target, path, fault)
         case Err(e) => Err(e)
         case Ok(bytes) =>
           if snapshot.content != Some(bytes) then Err(Conflict(path))
           else if CheckMatch(path, bytes, before).Some? then Err(CheckMatch(path, bytes, before).value)
           else if |Replace(bytes, before, after)| > PATCH_MAX_FILE_BYTES then Err(FileTooLarge(path))
           else Ok((target, Replace(bytes, before, after))))
  }

  datatype Prepared = Prepared(target: Path, tmp: Path)

  /** `write_atomically`: a failure after the file was created leaves it behind. */
  function WriteTmp(files: map<Path, Bytes>, tmp: Path, bytes: Bytes, rel: string,
                    fault: WriteFault): (map<Path, Bytes>, Option<PatchError>) {
    match fault
    case NoWriteFault => (files[tmp := bytes], None)
    case CreateFails(m) => (files, Some(PatchIoError(rel, m)))
    case WriteFails(m, written) => (files[tmp := written], Some(PatchIoError(rel, m)))
    case SyncFails(m) => (files[tmp := bytes], Some(PatchIoError(rel, m)))
  }

  function PrepareOne(k: Host, st: St, edit: PatchTool, snapshot: PreviewContent, read: ReadFault,
                      write: WriteFault): (St, Result<Prepared, PatchError>) {
    match Verify(k, st.files, edit, snapshot, read)
    case Err(e) => (st, Err(e))
    case Ok((target, bytes)) =>
      var tmp := k.tmpFor(target, st.counter);
      var (files, failed) := WriteTmp(st.files, tmp, bytes, edit.path, write);
      (st.(files := files, counter := st.counter + 1),
       if failed.Some? then Err(failed.value) else Ok(Prepared(target, tmp)))
  }

  function Tmps(ps: seq<Prepared>): set<Path> { set i | 0 <= i < |ps| :: ps[i].tmp }

  /** The edits from `i` on, as far as there are snapshots; on an error every temp file so far is removed. */
  function Prepare(k: Host, st: St, edits: seq<PatchTool>, snapshots: seq<PreviewContent>, faults: Faults, i: nat,
                   ps: seq<Prepared>)
    : (St, Result<seq<Prepared>, PatchError>)
    decreases |edits| - i
  {
    if i >= |edits| || i >= |snapshots| then (st, Ok(ps))
    else
      var (st1, r) := PrepareOne(k, st, edits[i], snapshots[i], faults.read(i), faults.write(i));
      match r
      case Err(e) => (st1.(files := st1.files - Tmps(ps)), Err(e))
      case Ok(p) => Prepare(k, st1, edits, snapshots, faults, i + 1, ps + [p])
  }

  // ---- apply, phase 2 ----

  function RenameFile(files: map<Path, Bytes>, tmp: Path, target: Path): map<Path, Bytes> {
    if tmp in files then (files - {tmp})[target := files[tmp]] else files
  }

  function RenameError(k: Host, target: Path, fault: RenameFault): PatchError {
    match fault
    case RenameFails(m) => PatchIoError(k.display(target), m)
    case _ => CrossDeviceRename(k.display(target))
  }

  /** Rename in order; on an error the temp files not yet renamed are removed. */
  function RenameFrom(k: Host, st: St, ps: seq<Prepared>, faults: Faults, i: nat, applied: seq<Path>)
    : (St, Result<seq<Path>, PatchError>)
    requires i <= |ps|
    decreases |ps| - i
  {
    if i == |ps| then (st, Ok(applied))
    else if faults.rename(i) != NoRenameFault then
      (st.(files := st.files - Tmps(ps[i..])), Err(RenameError(k, ps[i].target, faults.rename(i))))
    else
      var st1 := st.(files := RenameFile(st.files, ps[i].tmp, ps[i].target), tracked := st.tracked + {ps[i].target});
      RenameFrom(k, st1, ps, faults, i + 1, applied + [ps[i].target])
  }

  /** `apply_patch`. */
  function Apply(k: Host, st: St, edits: seq<PatchTool>, snapshots: seq<PreviewContent>, faults: Faults)
    : (St, Result<seq<Path>, PatchError>)
  {
    var (st1, r) := Prepare(k, st, edits, snapshots, faults, 0, []);
    match r
    case Err(e) => (st1, Err(e))
    case Ok(ps) => RenameFrom(k, st1, ps, faults, 0, [])
  }

  // ---- the object ----

  class PatchExecutor {
    const host: Host
    var files: map<Path, Bytes>
    var counter: nat
    var tracked: set<Path>

    function Value(): St
      reads this
    {
      St(files, counter, tracked)
    }

    constructor (host: Host, files: map<Path, Bytes>, counter: nat, tracked: set<Path>)
      ensures this.host == host && Value() == St(files, counter, tracked)
    {
      this.host, this.files, this.counter, this.tracked := host, files, counter, tracked;
    }

    /** `preview_patch`. */
    method PreviewPatch(edits: seq<PatchTool>, faults: Faults) returns (r: Result<Preview, PatchError>)
      ensures r == PreviewFrom(host, files, edits, faults, 0, EMPTY_PREVIEW)
    {
      var acc := EMPTY_PREVIEW;
      for i := 0 to |edits|
        invariant PreviewFrom(host, files, edits, faults, 0, EMPTY_PREVIEW) ==
            PreviewFrom(host, files, edits, faults, i, acc)
      {
        var one := PreviewEdit(edits[i], faults.read(i), acc);
        if one.Err? { return Err(one.error); }
        acc := one.value;
      }
      return Ok(acc);
    }

    method PreviewEdit(edit: PatchTool, fault: ReadFault, acc: Preview) returns (r: Result<Preview, PatchError>)
      ensures r == PreviewOne(host, files, edit, fault, acc)
    {
      var s := acc.summary;
      s := s.(targets := s.targets + {edit.path}, editCount := s.editCount + 1);
      if edit.Add? {
        s := s.(autoApprove := false);
        var resolved := host.resolveAdd(edit.path);
        if resolved.Err? { return Err(resolved.error); }
        var (target, guard) := resolved.value;
        s := s.(notRevertible := WithReason(s.notRevertible, guard));
        if Exists(host, files, target) { return Err(AddOnExistingFile(edit.path)); }
        return Ok(Preview(acc.snapshots + [PreviewContent(edit.path, None)],
                          s.(addedLines := s.addedLines + LineCount(edit.content))));
      }
      var resolved := host.resolveUpdate(edit.path);
      if resolved.Err? { return Err(resolved.error); }
      var (target, guard) := resolved.value;
      if guard.NeedsApproval? { s := s.(autoApprove := false, notRevertible := WithReason(s.notRevertible, guard)); }
      var bytes := ReadCapped(host, files, target, edit.path, fault);
      if bytes.Err? { return Err(bytes.error); }
      var count := CountOccurrences(bytes.value, edit.before);
      if count == 0 { return Err(NoMatch(edit.path)); }
      if count > 1 { return Err(AmbiguousMatch(edit.path, count)); }
      return Ok(Preview(acc.snapshots + [PreviewContent(edit.path, Some(bytes.value))],
                        s.(addedLines := s.addedLines + LineCount(edit.after),
                           removedLines := s.removedLines + LineCount(edit.before))));
    }

    /** One edit of phase 1. */
    method PrepareEdit(edit: PatchTool, snapshot: PreviewContent, read: ReadFault, write: WriteFault)
        returns (r: Result<Prepared, PatchError>)
      modifies this
      ensures (Value(), r) == PrepareOne(host, old(Value()), edit, snapshot, read, write)
    {
      var target, bytes;
      if edit.Add? {
        var resolved := host.resolveAdd(edit.path);
        if resolved.Err? { return Err(resolved.error); }
        if Exists(host, files, resolved.value.0) { return Err(AddOnExistingFile(edit.path)); }
        target, bytes := resolved.value.0, edit.content;
      } else {
        var resolved := host.resolveUpdate(edit.path);
        if resolved.Err? { return Err(resolved.error); }
        var now := ReadCapped(host, files, resolved.value.0, edit.path, read);
        if now.Err? { return Err(now.error); }
        if snapshot.content.None? || snapshot.content.value != now.value { return Err(Conflict(edit.path)); }
        var count := CountOccurrences(now.value, edit.before);
        if count == 0 { return Err(NoMatch(edit.path)); }
        if count > 1 { return Err(AmbiguousMatch(edit.path, count)); }
        bytes := ReplaceOnce(now.value, edit.before, edit.after);
        if |bytes| > PATCH_MAX_FILE_BYTES { return Err(FileTooLarge(edit.path)); }
        target := resolved.value.0;
      }
      assert Verify(host, files, edit, snapshot, read) == Ok((target, bytes));
      var tmp := host.tmpFor(target, counter);
      counter := counter + 1;
      var failed := WriteFile(tmp, bytes, edit.path, write);
      if failed.Some? { return Err(failed.value); }
      return Ok(Prepared(target, tmp));
    }

    /** `write_atomically`. */
    method WriteFile(tmp: Path, bytes: Bytes, rel: string, fault: WriteFault) returns (failed: Option<PatchError>)
      modifies this
      ensures
        var (files', failed') := WriteTmp(old(files), tmp, bytes, rel, fault);
        Value() == old(Value()).(files := files') && failed == failed'
    {
      if fault.CreateFails? { return Some(PatchIoError(rel, fault.message)); }
      files := files[tmp := []];
      if fault.WriteFails? {
        files := files[tmp := fault.written];
        return Some(PatchIoError(rel, fault.message));
      }
      files := files[tmp := bytes];
      if fault.SyncFails? { return Some(PatchIoError(rel, fault.message)); }
      return None;
    }

    /** Remove the temp files from `i` on. */
    method RemoveTmps(ps: seq<Prepared>, i: nat)
      requires i <= |ps|
      modifies this
      ensures Value() == old(Value()).(files := old(files) - Tmps(ps[i..]))
    {
      for j := i to |ps|
        invariant Value() == old(Value()).(files := old(files) - Tmps(ps[i..j]))
      {
        assert Tmps(ps[i..j + 1]) == Tmps(ps[i..j]) + {ps[j].tmp} by {
          assert ps[i..j + 1] == ps[i..j] + [ps[j]];
          TmpsSnoc(ps[i..j], ps[j]);
        }
        files := files - {ps[j].tmp};
      }
      assert ps[i..|ps|] == ps[i..];
    }

    /** `apply_patch`. */
    method ApplyPatch(edits: seq<PatchTool>, snapshots: seq<PreviewContent>, faults: Faults)
        returns (r: Result<seq<Path>, PatchError>)
      modifies this
      ensures (Value(), r) == Apply(host, old(Value()), edits, snapshots, faults)
    {
      var ps: seq<Prepared> := [];
      var n := if |edits| <= |snapshots| then |edits| else |snapshots|;
      for i := 0 to n
        invariant Prepare(host, old(Value()), edits, snapshots, faults, 0, []) ==
            Prepare(host, Value(), edits, snapshots, faults, i, ps)
      {
        var one := PrepareEdit(edits[i], snapshots[i], faults.read(i), faults.write(i));
        if one.Err? {
          RemoveTmps(ps, 0);
          assert ps[0..] == ps;
          return Err(one.error);
        }
        ps := ps + [one.value];
      }
      r := RenameAll(ps, faults);
    }

    method RenameAll(ps: seq<Prepared>, faults: Faults) returns (r: Result<seq<Path>, PatchError>)
      modifies this
      ensures (Value(), r) == RenameFrom(host, old(Value()), ps, faults, 0, [])
    {
      var applied: seq<Path> := [];
      for i := 0 to |ps|
        invariant RenameFrom(host, old(Value()), ps, faults, 0, []) == RenameFrom(host, Value(), ps, faults, i, applied)
      {
        var fault := faults.rename(i);
        if fault != NoRenameFault {
          RemoveTmps(ps, i);
          return Err(if fault.RenameFails? then PatchIoError(host.display(ps[i].target), fault.message)
                     else CrossDeviceRename(host.display(ps[i].target)));
        }
        files := RenameFile(files, ps[i].tmp, ps[i].target);
        MarkAdded(ps[i].target);
        applied := applied + [ps[i].target];
      }
      return Ok(applied);
    }

    method MarkAdded(target: Path)
      modifies this
      ensures Value() == old(Value()).(tracked := old(tracked) + {target})
    {
      tracked := tracked + {target};
    }
  }

  lemma TmpsSnoc(ps: seq<Prepared>, p: Prepared)
    ensures Tmps(ps + [p]) == Tmps(ps) + {p.tmp}
  {
    var all := ps + [p];
    forall x ensures x in Tmps(all) <==> x in Tmps(ps) || x == p.tmp {
      if x in Tmps(ps) {
        var i :| 0 <= i < |ps| && ps[i].tmp == x;
        assert all[i].tmp == x;
      }
      if x == p.tmp { assert all[|ps|].tmp == x; }
    }
  }
}
