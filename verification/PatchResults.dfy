/** What a patch comes to, read off the files alone: which bytes stand where after it, when it goes through, and
    what the error means when it does not. Nothing here mentions how the engine checks, stages or renames. */
module PatchResults {
  import opened Options
  import opened Invocations
  import opened ByteSearch
  import opened Patch
  import opened PatchLaws

  /** The place of an edit among those applied. */
  predicate LastFor(k: Host, edits: seq<PatchTool>, n: nat, x: nat, t: Path)
    requires n <= |edits|
  {
    && x < n && Target(k, edits[x]) == Some(t)
    && forall y :: x < y < n ==> Target(k, edits[y]) != Some(t)
  }

  /** A successful apply: each path resolved to holds what the last edit that resolves to it asks for - the content of
      an Add, or the original file with its leftmost match replaced and every other byte kept - and every other path
      holds what it held. The targets are reported in order. */
  lemma AppliedFiles(j: Job)
    requires FreshNames(j.k, j.st, j.edits) && Apply(j.k, j.st, j.edits, j.snapshots, j.faults).1.Ok?
    ensures
      var (st1, r) := Apply(j.k, j.st, j.edits, j.snapshots, j.faults);
      var n := if |j.edits| <= |j.snapshots| then |j.edits| else |j.snapshots|;
      && (forall x, t :: 0 <= x < n && LastFor(j.k, j.edits, n, x, t) ==>
            t in st1.files && Asked(j.k, j.st.files, j.edits[x], t, st1.files[t]))
      && (forall t :: (forall x :: 0 <= x < n ==> Target(j.k, j.edits[x]) != Some(t)) ==>
            (t in st1.files <==> t in j.st.files) && (t in st1.files ==> st1.files[t] == j.st.files[t]))
      && |r.value| == n && (forall x :: 0 <= x < n ==> Target(j.k, j.edits[x]) == Some(r.value[x]))
  {
    hide Apply, FreshNames, Fails, Verify, Checked, Overlay, Asked, Target, LastFor;
    ApplyIs(j);
    var n := Size(j);
    TargetsAre(j, n);
    forall x | 0 <= x < n ensures Target(j.k, j.edits[x]) == Some(TargetOf(j, x)) { CheckedTarget(j, x); }
    forall x, t | 0 <= x < n && LastFor(j.k, j.edits, n, x, t)
      ensures t in Overlay(j, n) && Asked(j.k, j.st.files, j.edits[x], t, Overlay(j, n)[t])
    {
      LastLands(j, x, t);
    }
    forall t | forall x :: 0 <= x < n ==> Target(j.k, j.edits[x]) != Some(t)
      ensures (t in Overlay(j, n) <==> t in j.st.files) && (t in j.st.files ==> Overlay(j, n)[t] == j.st.files[t])
    {
      OverlayIsLastEdit(j, n, t);
    }
  }

  lemma LastLands(j: Job, x: nat, t: Path)
    requires AllChecked(j) && LastFor(j.k, j.edits, Size(j), x, t)
    ensures t in Overlay(j, Size(j)) && Asked(j.k, j.st.files, j.edits[x], t, Overlay(j, Size(j))[t])
  {
    hide Checked, Overlay, Asked, Target;
    forall y | 0 <= y < Size(j) ensures Target(j.k, j.edits[y]) == Some(TargetOf(j, y)) { CheckedTarget(j, y); }
    assert LastEdit(j, Size(j), t) == x;
    OverlayIsLastEdit(j, Size(j), t);
    CheckedAsks(j, x);
  }

  lemma {:induction false} TargetsAre(j: Job, i: nat)
    requires i <= Size(j) && AllChecked(j)
    ensures |Targets(j, i)| == i && forall x :: 0 <= x < i ==> Targets(j, i)[x] == TargetOf(j, x)
  {
    hide Checked;
    if i > 0 { TargetsAre(j, i - 1); }
  }

  // ---- when it goes through ----

  /** Exactly one place to edit: the leftmost match, with every other match overlapping it. */
  ghost predicate OnePlace(was: Bytes, before: Bytes, p: nat) {
    && Stands(was, before, p) && forall q: nat :: Stands(was, before, q) ==> p <= q < p + |before|
  }

  /** What the files and the snapshot must be for an edit to go through, I/O apart. */
  ghost predicate MayApply(k: Host, files: map<Path, Bytes>, edit: PatchTool, snapshot: PreviewContent) {
    match edit
    case Add(path, _) =>
      (match k.resolveAdd(path)
       case Err(_) => false
       case Ok((t, _)) => t !in files && !k.isDir(t))
    case Update(path, before, after) =>
      match k.resolveUpdate(path)
      case Err(_) => false
      case Ok((t, _)) =>
        && t in files && !k.isDir(t) && snapshot.content == Some(files[t])
        && (exists p :: 0 <= p <= |files[t]| && OnePlace(files[t], before, p))
        && |files[t]| <= PATCH_MAX_FILE_BYTES && |files[t]| - |before| + |after| <= PATCH_MAX_FILE_BYTES
  }

  lemma OnePlaceIff(was: Bytes, before: Bytes)
    ensures Count(was, before) == 1 <==> exists p :: 0 <= p <= |was| && OnePlace(was, before, p)
  {
    CountOneIff(was, before);
    assert forall q: nat :: Stands(was, before, q) <==> OccursAt(was, before, q);
    hide OccursAt, Count;
    if Count(was, before) == 1 {
      assert OnePlace(was, before, Find(was, before).value);
    }
    if p :| 0 <= p <= |was| && OnePlace(was, before, p) {
      assert Find(was, before) == Some(p);
    }
  }

  lemma ReplaceLength(was: Bytes, before: Bytes, after: Bytes)
    requires Count(was, before) == 1
    ensures |Replace(was, before, after)| == |was| - |before| + |after|
  {
    CountZeroIff(was, before);
    ReplaceKeepsTheRest(was, before, after);
  }

  lemma CheckedIff(j: Job, i: nat)
    requires i < Size(j)
    ensures Checked(j, i).Ok? <==>
      MayApply(j.k, j.st.files, j.edits[i], j.snapshots[i]) && (j.edits[i].Update? ==> j.faults.read(i) == NoReadFault)
  {
    var e := j.edits[i];
    if e.Update? && j.k.resolveUpdate(e.path).Ok? {
      var t := j.k.resolveUpdate(e.path).value.0;
      if t in j.st.files {
        OnePlaceIff(j.st.files[t], e.before);
        if Count(j.st.files[t], e.before) == 1 { ReplaceLength(j.st.files[t], e.before, e.after); }
      }
    }
    hide OnePlace, Count, Replace;
  }

  /** Apply succeeds if and only if every edit that has a snapshot may be applied to the files as they are and no
      I/O operation fails. */
  lemma ApplySucceedsIff(j: Job)
    requires FreshNames(j.k, j.st, j.edits)
    ensures
      Apply(j.k, j.st, j.edits, j.snapshots, j.faults).1.Ok? <==>
      NoFault(j) && forall i :: 0 <= i < Size(j) ==> MayApply(j.k, j.st.files, j.edits[i], j.snapshots[i])
  {
    hide Apply, FreshNames, Checked, Overlay, MayApply;
    ApplyIs(j);
    forall i | 0 <= i < Size(j)
      ensures Checked(j, i).Ok? <==>
                MayApply(j.k, j.st.files, j.edits[i], j.snapshots[i]) &&
                (j.edits[i].Update? ==> j.faults.read(i) == NoReadFault)
    {
      CheckedIff(j, i);
    }
    if Apply(j.k, j.st, j.edits, j.snapshots, j.faults).1.Ok? {
      forall i: nat | i < Size(j)
        ensures Checked(j, i).Ok? && j.faults.write(i) == NoWriteFault && j.faults.rename(i) == NoRenameFault
      {
        NotFailing(j, i);
      }
    }
    if NoFault(j) && forall i :: 0 <= i < Size(j) ==> MayApply(j.k, j.st.files, j.edits[i], j.snapshots[i]) {
      forall i: nat | i < Size(j) ensures !Fails(j, i) { }
    }
  }

  // ---- what an error means ----

  /** The file of an update as the engine gets to read it. */
  function Readable(k: Host, files: map<Path, Bytes>, t: Path, fault: ReadFault): Option<Bytes> {
    if t in files && !k.isDir(t) && |files[t]| <= PATCH_MAX_FILE_BYTES && fault == NoReadFault then Some(files[t])
    else None
  }

  /** What each error of an update with a resolved path says about file and snapshot. */
  ghost predicate ErrorFits(k: Host, files: map<Path, Bytes>, edit: PatchTool, snapshot: PreviewContent, t: Path,
                      fault: ReadFault, e: PatchError)
    requires edit.Update?
  {
    var was := Readable(k, files, t, fault);
    match e
    case Conflict(path) => path == edit.path && was.Some? && snapshot.content != was
    case NoMatch(path) =>
      && path == edit.path && was.Some? && snapshot.content == was
      && forall q: nat :: !Stands(was.value, edit.before, q)
    case AmbiguousMatch(path, n) =>
      && path == edit.path && was.Some? && snapshot.content == was && n > 1
      && (exists s :: Packing(was.value, edit.before, 0, s) && |s| == n)
      && forall s :: Packing(was.value, edit.before, 0, s) ==> |s| <= n
    case FileTooLarge(path) =>
      && path == edit.path && t in files
      && (if was.Some? then
            && snapshot.content == was && (exists p :: 0 <= p <= |was.value| && OnePlace(was.value, edit.before, p))
            && |was.value| - |edit.before| + |edit.after| > PATCH_MAX_FILE_BYTES
          else |files[t]| > PATCH_MAX_FILE_BYTES && !k.isDir(t) && !fault.StatFails?)
    case UpdateOnMissingFile(path) => path == edit.path && t !in files && !k.isDir(t) && !fault.StatFails?
    case PatchIoError(path, m) =>
      && path == edit.path && was.None?
      && (fault == StatFails(m) || fault == ReadFails(m) || (k.isDir(t) && m == "is a directory"))
    case _ => false
  }

  /** Why an edit is refused: its path does not resolve; an Add finds a file or directory; an update fails as its
      error says. */
  ghost predicate Refuses(k: Host, files: map<Path, Bytes>, edit: PatchTool, snapshot: PreviewContent, fault: ReadFault,
                    e: PatchError) {
    match edit
    case Add(path, _) =>
      (match k.resolveAdd(path)
       case Err(unresolved) => e == unresolved
       case Ok((t, _)) => (t in files || k.isDir(t)) && e == AddOnExistingFile(path))
    case Update(path, _, _) =>
      match k.resolveUpdate(path)
      case Err(unresolved) => e == unresolved
      case Ok((t, _)) => ErrorFits(k, files, edit, snapshot, t, fault, e)
  }

  /** What the match count says, for the errors. */
  lemma MatchFits(was: Bytes, before: Bytes, after: Bytes)
    ensures Count(was, before) == 0 ==> forall q: nat :: !Stands(was, before, q)
    ensures exists s :: Packing(was, before, 0, s) && |s| == Count(was, before)
    ensures forall s :: Packing(was, before, 0, s) ==> |s| <= Count(was, before)
    ensures Count(was, before) == 1 ==>
      && |Replace(was, before, after)| == |was| - |before| + |after|
      && exists p :: 0 <= p <= |was| && OnePlace(was, before, p)
  {
    hide Packing;
    CountZeroIff(was, before);
    assert forall q: nat :: Stands(was, before, q) ==> OccursAt(was, before, q);
    hide OccursAt, Stands, OnePlace, Count, Replace;
    CountIsMaximum(was, before);
    OnePlaceIff(was, before);
    if Count(was, before) == 1 { ReplaceLength(was, before, after); }
  }

  lemma CheckedRefuses(j: Job, i: nat)
    requires i < Size(j) && Checked(j, i).Err?
    ensures Refuses(j.k, j.st.files, j.edits[i], j.snapshots[i], j.faults.read(i), Checked(j, i).error)
  {
    hide Packing, OnePlace, Stands, Count, Replace;
    var e := j.edits[i];
    if e.Update? && j.k.resolveUpdate(e.path).Ok? {
      var t := j.k.resolveUpdate(e.path).value.0;
      if t in j.st.files { MatchFits(j.st.files[t], e.before, e.after); }
    }
  }

  /** A failed apply reports the first edit that is refused or cannot be written, with the error that fits; or, when
      all are staged, the first rename that fails. */
  lemma FailureMeans(j: Job)
    requires FreshNames(j.k, j.st, j.edits) && Apply(j.k, j.st, j.edits, j.snapshots, j.faults).1.Err?
    ensures
      var e := Apply(j.k, j.st, j.edits, j.snapshots, j.faults).1.error;
      || (exists i :: 0 <= i < Size(j) && FirstRefused(j, i, e))
      || (exists i :: 0 <= i < Size(j) && FirstUnrenamed(j, i, e))
  {
    hide Apply, FreshNames, Checked, Overlay, MayApply, Refuses;
    ApplyIs(j);
    var e := Apply(j.k, j.st, j.edits, j.snapshots, j.faults).1.error;
    forall i | 0 <= i < Size(j)
      ensures Checked(j, i).Ok? ==> MayApply(j.k, j.st.files, j.edits[i], j.snapshots[i])
    {
      CheckedIff(j, i);
    }
    var m := FirstFailure(j, 0);
    if m < Size(j) {
      if Checked(j, m).Err? { CheckedRefuses(j, m); }
      forall x | 0 <= x < m ensures Checked(j, x).Ok? && j.faults.write(x) == NoWriteFault { NotFailing(j, x); }
      assert FirstRefused(j, m, e);
    } else {
      var i := FirstBadRename(j, 0);
      CheckedTarget(j, i);
      assert FirstUnrenamed(j, i, e);
    }
  }

  /** Edits before `i` may be applied and were written; `i` was refused, or its temp file was not written. */
  ghost predicate FirstRefused(j: Job, i: nat, e: PatchError)
    requires i < Size(j)
  {
    && (forall x :: 0 <= x < i ==>
          MayApply(j.k, j.st.files, j.edits[x], j.snapshots[x]) && j.faults.write(x) == NoWriteFault)
    && (Refuses(j.k, j.st.files, j.edits[i], j.snapshots[i], j.faults.read(i), e) ||
        (j.faults.write(i) != NoWriteFault && e == PatchIoError(j.edits[i].path, j.faults.write(i).message)))
  }

  /** All edits were staged, those before `i` renamed, and renaming `i` failed. */
  ghost predicate FirstUnrenamed(j: Job, i: nat, e: PatchError)
    requires i < Size(j)
  {
    && (forall x :: 0 <= x < i ==> j.faults.rename(x) == NoRenameFault)
    && (forall x :: 0 <= x < Size(j) ==> MayApply(j.k, j.st.files, j.edits[x], j.snapshots[x]))
    && Target(j.k, j.edits[i]).Some?
    && var t := j.k.display(Target(j.k, j.edits[i]).value);
    match j.faults.rename(i)
    case NoRenameFault => false
    case CrossDevice => e == CrossDeviceRename(t)
    case RenameFails(m) => e == PatchIoError(t, m)
  }

  // ---- the preview ----

  /** What the files must be for an edit to be previewed. */
  ghost predicate MayPreview(k: Host, files: map<Path, Bytes>, edit: PatchTool, fault: ReadFault) {
    match edit
    case Add(path, _) =>
      (match k.resolveAdd(path)
       case Err(_) => false
       case Ok((t, _)) => t !in files && !k.isDir(t))
    case Update(path, before, _) =>
      match k.resolveUpdate(path)
      case Err(_) => false
      case Ok((t, _)) =>
        var was := Readable(k, files, t, fault);
        was.Some? && exists p :: 0 <= p <= |was.value| && OnePlace(was.value, before, p)
  }

  /** The snapshot that agrees with the files. */
  function TrueSnapshot(k: Host, files: map<Path, Bytes>, edit: PatchTool): PreviewContent {
    var t := Target(k, edit);
    PreviewContent(edit.path, if edit.Update? && t.Some? && t.value in files then Some(files[t.value]) else None)
  }

  lemma PreviewOneFits(k: Host, files: map<Path, Bytes>, edit: PatchTool, fault: ReadFault, acc: Preview)
    ensures
      var r := PreviewOne(k, files, edit, fault, acc);
      && (r.Ok? <==> MayPreview(k, files, edit, fault))
      && (r.Ok? ==> r.value.snapshots == acc.snapshots + [TrueSnapshot(k, files, edit)])
      && (r.Err? ==> Refuses(k, files, edit, TrueSnapshot(k, files, edit), fault, r.error))
  {
    hide Packing, OnePlace, Stands, Count, LineCount, WithReason;
    if edit.Update? && k.resolveUpdate(edit.path).Ok? {
      var t := k.resolveUpdate(edit.path).value.0;
      if t in files {
        MatchFits(files[t], edit.before, edit.after);
        OnePlaceIff(files[t], edit.before);
      }
    }
  }

  /** A preview succeeds if and only if every edit may be previewed, and then takes the snapshot the files show for
      each, in order; else it stops at the first that may not, with the error that fits. */
  lemma {:induction false} PreviewMeans(k: Host, files: map<Path, Bytes>, edits: seq<PatchTool>, faults: Faults,
                                        i: nat, acc: Preview)
    requires i <= |edits|
    ensures
      var r := PreviewFrom(k, files, edits, faults, i, acc);
      && (r.Ok? <==> forall x :: i <= x < |edits| ==> MayPreview(k, files, edits[x], faults.read(x)))
      && (r.Ok? ==>
            && |r.value.snapshots| == |acc.snapshots| + |edits| - i && acc.snapshots <= r.value.snapshots
            && forall x :: i <= x < |edits| ==>
                 r.value.snapshots[|acc.snapshots| + x - i] == TrueSnapshot(k, files, edits[x]))
      && (r.Err? ==> exists x :: i <= x < |edits| && FirstUnpreviewed(k, files, edits, faults, i, x, r.error))
    decreases |edits| - i
  {
    hide PreviewOne, MayPreview, TrueSnapshot, Refuses;
    if i < |edits| {
      PreviewOneFits(k, files, edits[i], faults.read(i), acc);
      var one := PreviewOne(k, files, edits[i], faults.read(i), acc);
      if one.Err? {
        assert FirstUnpreviewed(k, files, edits, faults, i, i, one.error);
      } else {
        PreviewMeans(k, files, edits, faults, i + 1, one.value);
        var r := PreviewFrom(k, files, edits, faults, i, acc);
        if r.Err? {
          var x :| i + 1 <= x < |edits| && FirstUnpreviewed(k, files, edits, faults, i + 1, x, r.error);
          assert FirstUnpreviewed(k, files, edits, faults, i, x, r.error);
        }
      }
    }
  }

  ghost predicate FirstUnpreviewed(k: Host, files: map<Path, Bytes>, edits: seq<PatchTool>, faults: Faults, i: nat,
                                   x: nat, e: PatchError)
    requires i <= x < |edits|
  {
    && (forall y :: i <= y < x ==> MayPreview(k, files, edits[y], faults.read(y)))
    && Refuses(k, files, edits[x], TrueSnapshot(k, files, edits[x]), faults.read(x), e)
  }
}
