/** What applying a patch comes to, edit by edit on the files as they were: the two phases against a
    specification without temp files. */
module PatchLaws {
  import opened Options
  import opened Invocations
  import opened ByteSearch
  import opened Patch

  // ---- the specification ----

  /** The file an edit resolves to. */
  function Target(k: Host, edit: PatchTool): Option<Path> {
    var r := if edit.Add? then k.resolveAdd(edit.path) else k.resolveUpdate(edit.path);
    if r.Ok? then Some(r.value.0) else None
  }

  /** Temp names never repeat, and are neither existing files nor targets. */
  ghost predicate FreshNames(k: Host, st: St, edits: seq<PatchTool>) {
    && (forall p, c: nat, q, d: nat :: k.tmpFor(p, c) == k.tmpFor(q, d) ==> c == d)
    && (forall p, c: nat :: c >= st.counter ==> k.tmpFor(p, c) !in st.files)
    && (forall p, c: nat, e :: c >= st.counter && e in edits ==> Target(k, e) != Some(k.tmpFor(p, c)))
  }

  /** One call of `apply_patch`. */
  datatype Job = Job(k: Host, st: St, edits: seq<PatchTool>, snapshots: seq<PreviewContent>, faults: Faults)

  function Size(j: Job): nat { if |j.edits| <= |j.snapshots| then |j.edits| else |j.snapshots| }

  /** The checks on edit `i`, made on the files as they were before the call. */
  function Checked(j: Job, i: nat): Result<(Path, Bytes), PatchError>
    requires i < Size(j)
  {
    Verify(j.k, j.st.files, j.edits[i], j.snapshots[i], j.faults.read(i))
  }

  predicate Fails(j: Job, i: nat)
    requires i < Size(j)
  {
    Checked(j, i).Err? || j.faults.write(i) != NoWriteFault
  }

  /** The first edit that fails in phase 1, or the number of edits. */
  function FirstFailure(j: Job, i: nat): (m: nat)
    requires i <= Size(j)
    ensures i <= m <= Size(j)
    ensures forall x :: i <= x < m ==> !Fails(j, x)
    ensures m < Size(j) ==> Fails(j, m)
    decreases Size(j) - i
  {
    if i == Size(j) || Fails(j, i) then i else FirstFailure(j, i + 1)
  }

  /** The first rename that fails, or the number of edits. */
  function FirstBadRename(j: Job, i: nat): (m: nat)
    requires i <= Size(j)
    ensures i <= m <= Size(j)
    ensures forall x :: i <= x < m ==> j.faults.rename(x) == NoRenameFault
    ensures m < Size(j) ==> j.faults.rename(m) != NoRenameFault
    decreases Size(j) - i
  {
    if i == Size(j) || j.faults.rename(i) != NoRenameFault then i else FirstBadRename(j, i + 1)
  }

  predicate AllChecked(j: Job) { forall i :: 0 <= i < Size(j) ==> Checked(j, i).Ok? }

  function TargetOf(j: Job, i: nat): Path
    requires i < Size(j) && Checked(j, i).Ok?
  {
    Checked(j, i).value.0
  }

  function NewContent(j: Job, i: nat): Bytes
    requires i < Size(j) && Checked(j, i).Ok?
  {
    Checked(j, i).value.1
  }

  /** The files with the first `i` edits in place. */
  function Overlay(j: Job, i: nat): map<Path, Bytes>
    requires i <= Size(j) && AllChecked(j)
  {
    if i == 0 then j.st.files else Overlay(j, i - 1)[TargetOf(j, i - 1) := NewContent(j, i - 1)]
  }

  /** The temp file of edit `i`. */
  function TmpOf(j: Job, i: nat): Path
    requires i < Size(j) && Checked(j, i).Ok?
  {
    j.k.tmpFor(TargetOf(j, i), j.st.counter + i)
  }

  /** The files after a failure in phase 1: as before, but for a temp file that was created and could not
      be completed. */
  function AfterFailure(j: Job, i: nat): map<Path, Bytes>
    requires i < Size(j)
  {
    if Checked(j, i).Err? then j.st.files
    else
      match j.faults.write(i)
      case WriteFails(_, written) => j.st.files[TmpOf(j, i) := written]
      case SyncFails(_) => j.st.files[TmpOf(j, i) := NewContent(j, i)]
      case _ => j.st.files
  }

  /** The error a failing edit is reported with. */
  function FailureOf(j: Job, i: nat): PatchError
    requires i < Size(j) && Fails(j, i)
  {
    if Checked(j, i).Err? then Checked(j, i).error else PatchIoError(j.edits[i].path, j.faults.write(i).message)
  }

  /** The tracked set after the first `i` renames. */
  function TrackedAfter(j: Job, i: nat): set<Path>
    requires i <= Size(j) && AllChecked(j)
  {
    if i == 0 then j.st.tracked else TrackedAfter(j, i - 1) + {TargetOf(j, i - 1)}
  }

  // ---- phase 1 ----

  /** Temp files for the first |ps| edits are written, nothing else has changed. */
  ghost predicate Staged(j: Job, st: St, ps: seq<Prepared>) {
    && |ps| <= Size(j)
    && st.counter == j.st.counter + |ps| && st.tracked == j.st.tracked
    && (forall i :: 0 <= i < |ps| ==> !Fails(j, i) && ps[i] == Prepared(TargetOf(j, i), TmpOf(j, i)))
    && (forall p :: p in st.files <==> p in j.st.files || p in Tmps(ps))
    && (forall p :: p in j.st.files ==> st.files[p] == j.st.files[p])
    && (forall i :: 0 <= i < |ps| ==> ps[i].tmp in st.files && st.files[ps[i].tmp] == NewContent(j, i))
  }

  lemma CheckedTarget(j: Job, i: nat)
    requires i < Size(j) && Checked(j, i).Ok?
    ensures Target(j.k, j.edits[i]) == Some(TargetOf(j, i))
  {
  }

  /** What the checks see: only the target matters. */
  lemma VerifyLocal(k: Host, a: map<Path, Bytes>, b: map<Path, Bytes>, edit: PatchTool, snapshot: PreviewContent,
                    fault: ReadFault)
    requires Target(k, edit).Some? ==>
      var p := Target(k, edit).value;
      (p in a <==> p in b) && (p in a ==> a[p] == b[p])
    ensures Verify(k, a, edit, snapshot, fault) == Verify(k, b, edit, snapshot, fault)
  {
  }

  lemma TargetNotTmp(j: Job, ps: seq<Prepared>, p: Path, e: PatchTool)
    requires FreshNames(j.k, j.st, j.edits) && e in j.edits && Target(j.k, e) == Some(p)
    requires |ps| <= Size(j) && forall i :: 0 <= i < |ps| ==>
        !Fails(j, i) && ps[i] == Prepared(TargetOf(j, i), TmpOf(j, i))
    ensures p !in Tmps(ps)
  {
    forall i | 0 <= i < |ps| ensures ps[i].tmp != p { assert !Fails(j, i); }
  }

  lemma StagedChecks(j: Job, st: St, ps: seq<Prepared>)
    requires FreshNames(j.k, j.st, j.edits) && Staged(j, st, ps) && |ps| < Size(j)
    ensures Verify(j.k, st.files, j.edits[|ps|], j.snapshots[|ps|], j.faults.read(|ps|)) == Checked(j, |ps|)
  {
    hide Verify, FreshNames;
    var e := j.edits[|ps|];
    if Target(j.k, e).Some? { TargetNotTmp(j, ps, Target(j.k, e).value, e); }
    VerifyLocal(j.k, st.files, j.st.files, e, j.snapshots[|ps|], j.faults.read(|ps|));
  }

  lemma NewTmp(j: Job, st: St, ps: seq<Prepared>)
    requires FreshNames(j.k, j.st, j.edits) && Staged(j, st, ps) && |ps| < Size(j) && Checked(j, |ps|).Ok?
    ensures TmpOf(j, |ps|) !in st.files
  {
    hide Verify;
    var t := TmpOf(j, |ps|);
    forall i | 0 <= i < |ps| ensures ps[i].tmp != t { assert !Fails(j, i); }
  }

  /** One more temp file. */
  lemma StageOne(j: Job, st: St, ps: seq<Prepared>)
    requires FreshNames(j.k, j.st, j.edits) && Staged(j, st, ps) && |ps| < Size(j) && !Fails(j, |ps|)
    ensures
      var i := |ps|;
      var p := Prepared(TargetOf(j, i), TmpOf(j, i));
      Staged(j, st.(files := st.files[p.tmp := NewContent(j, i)], counter := st.counter + 1), ps + [p])
  {
    hide Verify, FreshNames, Checked;
    var i := |ps|;
    var p := Prepared(TargetOf(j, i), TmpOf(j, i));
    NewTmp(j, st, ps);
    TmpsSnoc(ps, p);
  }

  /** Removing the temp files restores the files. */
  lemma Unstage(j: Job, st: St, ps: seq<Prepared>)
    requires FreshNames(j.k, j.st, j.edits) && Staged(j, st, ps)
    ensures st.files - Tmps(ps) == j.st.files
  {
    hide Verify, Checked;
    forall i | 0 <= i < |ps| ensures ps[i].tmp !in j.st.files { assert !Fails(j, i); }
    assert forall p :: p in st.files - Tmps(ps) <==> p in j.st.files;
  }

  lemma UnstageLeak(j: Job, st: St, ps: seq<Prepared>, bytes: Bytes)
    requires FreshNames(j.k, j.st, j.edits) && Staged(j, st, ps) && |ps| < Size(j) && Checked(j, |ps|).Ok?
    ensures st.files[TmpOf(j, |ps|) := bytes] - Tmps(ps) == j.st.files[TmpOf(j, |ps|) := bytes]
  {
    hide Verify, FreshNames, Checked, Staged;
    var t := TmpOf(j, |ps|);
    Unstage(j, st, ps);
    FreshTmp(j, st, ps);
    assert (st.files[t := bytes] - Tmps(ps)).Keys == (j.st.files[t := bytes]).Keys;
  }

  lemma FreshTmp(j: Job, st: St, ps: seq<Prepared>)
    requires FreshNames(j.k, j.st, j.edits) && Staged(j, st, ps) && |ps| < Size(j) && Checked(j, |ps|).Ok?
    ensures TmpOf(j, |ps|) !in Tmps(ps)
  {
    NewTmp(j, st, ps);
  }

  lemma PrepareOneIs(j: Job, st: St, ps: seq<Prepared>)
    requires FreshNames(j.k, j.st, j.edits) && Staged(j, st, ps) && |ps| < Size(j)
    ensures
      var i := |ps|;
      var (st1, r) := PrepareOne(j.k, st, j.edits[i], j.snapshots[i], j.faults.read(i), j.faults.write(i));
      if Fails(j, i) then
        r == Err(FailureOf(j, i)) && st1.files - Tmps(ps) == AfterFailure(j, i) && st1.tracked == j.st.tracked
      else
        r == Ok(Prepared(TargetOf(j, i), TmpOf(j, i)))
        && st1 == st.(files := st.files[TmpOf(j, i) := NewContent(j, i)], counter := st.counter + 1)
  {
    hide Verify, FreshNames, Staged;
    StagedChecks(j, st, ps);
    Unstage(j, st, ps);
    StagedCounter(j, st, ps);
    if Checked(j, |ps|).Ok? {
      match j.faults.write(|ps|)
      case WriteFails(_, written) => UnstageLeak(j, st, ps, written);
      case SyncFails(_) => UnstageLeak(j, st, ps, NewContent(j, |ps|));
      case _ =>
    }
  }

  lemma StagedCounter(j: Job, st: St, ps: seq<Prepared>)
    requires Staged(j, st, ps)
    ensures st.counter == j.st.counter + |ps| && st.tracked == j.st.tracked
  {
  }

  /** Phase 1 as a whole. */
  lemma {:induction false} PrepareIs(j: Job, st: St, ps: seq<Prepared>)
    requires FreshNames(j.k, j.st, j.edits) && Staged(j, st, ps)
    ensures
      var m := FirstFailure(j, |ps|);
      var (st1, r) := Prepare(j.k, st, j.edits, j.snapshots, j.faults, |ps|, ps);
      if m < Size(j) then
        r == Err(FailureOf(j, m)) && st1.files == AfterFailure(j, m) && st1.tracked == j.st.tracked
      else r.Ok? && |r.value| == Size(j) && Staged(j, st1, r.value)
    decreases Size(j) - |ps|
  {
    hide PrepareOne, FreshNames, Staged, AfterFailure, Fails, Checked;
    StagedSize(j, st, ps);
    if |ps| < Size(j) {
      PrepareOneIs(j, st, ps);
      if !Fails(j, |ps|) {
        NotFailing(j, |ps|);
        StageOne(j, st, ps);
        var i := |ps|;
        var p := Prepared(TargetOf(j, i), TmpOf(j, i));
        PrepareIs(j, st.(files := st.files[p.tmp := NewContent(j, i)], counter := st.counter + 1), ps + [p]);
      }
    }
  }

  lemma StagedSize(j: Job, st: St, ps: seq<Prepared>)
    requires Staged(j, st, ps)
    ensures |ps| <= Size(j)
  {
  }

  lemma NotFailing(j: Job, i: nat)
    requires i < Size(j) && !Fails(j, i)
    ensures Checked(j, i).Ok? && j.faults.write(i) == NoWriteFault
  {
  }

  // ---- phase 2 ----

  /** The first `i` targets are in place, the other temp files still lie there. */
  ghost predicate Renamed(j: Job, st: St, ps: seq<Prepared>, i: nat)
    requires AllChecked(j)
  {
    && i <= |ps| == Size(j)
    && (forall x :: 0 <= x < |ps| ==> ps[x] == Prepared(TargetOf(j, x), TmpOf(j, x)))
    && (forall p :: p in st.files <==> p in Overlay(j, i) || p in Tmps(ps[i..]))
    && (forall p :: p in Overlay(j, i) ==> st.files[p] == Overlay(j, i)[p])
    && (forall x :: i <= x < |ps| ==> ps[x].tmp in st.files && st.files[ps[x].tmp] == NewContent(j, x))
  }

  lemma {:induction false} OverlayKeys(j: Job, i: nat, p: Path)
    requires i <= Size(j) && AllChecked(j)
    ensures p in Overlay(j, i) <==> p in j.st.files || exists x :: 0 <= x < i && TargetOf(j, x) == p
  {
    hide Verify, Checked;
    if i > 0 { OverlayKeys(j, i - 1, p); }
  }

  lemma TmpNotInOverlay(j: Job, i: nat, x: nat)
    requires i <= Size(j) && x < Size(j) && AllChecked(j) && FreshNames(j.k, j.st, j.edits)
    ensures TmpOf(j, x) !in Overlay(j, i)
  {
    hide Verify, Overlay;
    OverlayKeys(j, i, TmpOf(j, x));
    forall y | 0 <= y < i ensures TargetOf(j, y) != TmpOf(j, x) {
      CheckedTarget(j, y);
      assert j.edits[y] in j.edits;
    }
  }

  lemma TmpsDistinct(j: Job, x: nat, y: nat)
    requires x < Size(j) && y < Size(j) && x != y && AllChecked(j) && FreshNames(j.k, j.st, j.edits)
    ensures TmpOf(j, x) != TmpOf(j, y)
  {
    hide Verify, Checked;
  }

  lemma TmpsFrom(j: Job, ps: seq<Prepared>, i: nat, p: Path)
    requires AllChecked(j) && i <= |ps| == Size(j)
    requires forall x :: 0 <= x < |ps| ==> ps[x] == Prepared(TargetOf(j, x), TmpOf(j, x))
    ensures p in Tmps(ps[i..]) <==> exists x :: i <= x < |ps| && TmpOf(j, x) == p
  {
    hide Verify, Checked;
    if p in Tmps(ps[i..]) {
      var x :| 0 <= x < |ps[i..]| && ps[i..][x].tmp == p;
      assert TmpOf(j, i + x) == p;
    }
    if x :| i <= x < |ps| && TmpOf(j, x) == p { assert ps[i..][x - i].tmp == p; }
  }

  lemma RenameStep(j: Job, st: St, ps: seq<Prepared>, i: nat)
    requires FreshNames(j.k, j.st, j.edits) && AllChecked(j) && i < |ps| && Renamed(j, st, ps, i)
    ensures Renamed(j, st.(files := RenameFile(st.files, ps[i].tmp, ps[i].target),
                           tracked := st.tracked + {ps[i].target}), ps, i + 1)
  {
    hide Verify, FreshNames, Checked, Tmps;
    var files := RenameFile(st.files, ps[i].tmp, ps[i].target);
    assert Overlay(j, i + 1) == Overlay(j, i)[TargetOf(j, i) := NewContent(j, i)];
    forall x | 0 <= x < Size(j) ensures TmpOf(j, x) !in Overlay(j, i) && TmpOf(j, x) !in Overlay(j, i + 1) {
      TmpNotInOverlay(j, i, x);
      TmpNotInOverlay(j, i + 1, x);
    }
    forall x | i < x < Size(j) ensures TmpOf(j, x) != TmpOf(j, i) { TmpsDistinct(j, x, i); }
    forall p ensures p in files <==> p in Overlay(j, i + 1) || p in Tmps(ps[i + 1..]) {
      TmpsFrom(j, ps, i, p);
      TmpsFrom(j, ps, i + 1, p);
    }
    forall x | i < x < |ps| ensures ps[x].tmp in files && files[ps[x].tmp] == NewContent(j, x) {
      assert TargetOf(j, i) in Overlay(j, i + 1);
    }
  }

  lemma RemoveRest(j: Job, st: St, ps: seq<Prepared>, i: nat)
    requires FreshNames(j.k, j.st, j.edits) && AllChecked(j) && Renamed(j, st, ps, i)
    ensures st.files - Tmps(ps[i..]) == Overlay(j, i)
  {
    hide Verify, FreshNames, Checked, Tmps;
    forall p ensures p in st.files - Tmps(ps[i..]) <==> p in Overlay(j, i) {
      TmpsFrom(j, ps, i, p);
      forall x | i <= x < |ps| ensures TmpOf(j, x) !in Overlay(j, i) { TmpNotInOverlay(j, i, x); }
    }
  }

  function Targets(j: Job, i: nat): seq<Path>
    requires i <= Size(j) && AllChecked(j)
  {
    if i == 0 then [] else Targets(j, i - 1) + [TargetOf(j, i - 1)]
  }

  lemma {:induction false} RenameIs(j: Job, st: St, ps: seq<Prepared>, i: nat, applied: seq<Path>)
    requires FreshNames(j.k, j.st, j.edits) && AllChecked(j) && i <= Size(j) && Renamed(j, st, ps, i)
        && applied == Targets(j, i)
    requires st.tracked == TrackedAfter(j, i)
    ensures
      var m := FirstBadRename(j, i);
      var (st1, r) := RenameFrom(j.k, st, ps, j.faults, i, applied);
      && st1.files == Overlay(j, m) && st1.tracked == TrackedAfter(j, m)
      && (if m < Size(j) then r == Err(RenameError(j.k, TargetOf(j, m), j.faults.rename(m)))
          else r == Ok(Targets(j, m)))
    decreases Size(j) - i
  {
    hide Renamed, FreshNames, Checked, Overlay, RenameFile, Tmps;
    RenamedSize(j, st, ps, i);
    RemoveRest(j, st, ps, i);
    if i == Size(j) {
      NoTmps(ps, i);
      assert st.files - Tmps(ps[i..]) == st.files;
    } else if j.faults.rename(i) == NoRenameFault {
      RenameStep(j, st, ps, i);
      RenamedAt(j, st, ps, i);
      assert TrackedAfter(j, i + 1) == TrackedAfter(j, i) + {TargetOf(j, i)};
      RenameIs(j, st.(files := RenameFile(st.files, ps[i].tmp, ps[i].target),
                      tracked := st.tracked + {ps[i].target}), ps, i + 1,
               applied + [ps[i].target]);
    } else {
      RenamedAt(j, st, ps, i);
    }
  }

  lemma RenamedSize(j: Job, st: St, ps: seq<Prepared>, i: nat)
    requires AllChecked(j) && Renamed(j, st, ps, i)
    ensures |ps| == Size(j) && i <= |ps|
  {
  }

  lemma RenamedAt(j: Job, st: St, ps: seq<Prepared>, i: nat)
    requires AllChecked(j) && Renamed(j, st, ps, i) && i < Size(j)
    ensures i < |ps| && ps[i].target == TargetOf(j, i)
  {
  }

  lemma NoTmps(ps: seq<Prepared>, i: nat)
    requires i == |ps|
    ensures Tmps(ps[i..]) == {}
  {
  }

  lemma StagedIsRenamed(j: Job, st: St, ps: seq<Prepared>)
    requires AllChecked(j) && Staged(j, st, ps) && |ps| == Size(j)
    ensures Renamed(j, st, ps, 0)
  {
    hide Verify, Checked;
    assert ps[0..] == ps;
  }

  // ---- what an edit asks for ----

  /** The bytes of a nonempty `n` stand in `h` at position `i`. */
  predicate Stands(h: Bytes, n: Bytes, i: nat) { 0 < |n| && i + |n| <= |h| && h[i..i + |n|] == n }

  /** `out` is `was` with its leftmost `before` at position `p` replaced by `after`. */
  predicate EditedAt(was: Bytes, before: Bytes, after: Bytes, out: Bytes, p: nat) {
    && Stands(was, before, p) && (forall q :: 0 <= q < p ==> !Stands(was, before, q))
    && out == was[..p] + after + was[p + |before|..]
  }

  /** The content an edit asks for, given the files. */
  predicate Asked(k: Host, files: map<Path, Bytes>, edit: PatchTool, t: Path, out: Bytes) {
    match edit
    case Add(path, content) => k.resolveAdd(path).Ok? && t == k.resolveAdd(path).value.0 && out == content
    case Update(path, before, after) =>
      && k.resolveUpdate(path).Ok? && t == k.resolveUpdate(path).value.0
      && t in files && exists p :: 0 <= p <= |files[t]| && EditedAt(files[t], before, after, out, p)
  }

  lemma ReplaceEdits(was: Bytes, before: Bytes, after: Bytes)
    requires Count(was, before) == 1
    ensures exists p :: 0 <= p <= |was| && EditedAt(was, before, after, Replace(was, before, after), p)
  {
    CountZeroIff(was, before);
    var p := Find(was, before).value;
    forall q | 0 <= q < p ensures !Stands(was, before, q) { assert !OccursAt(was, before, q); }
    assert EditedAt(was, before, after, Replace(was, before, after), p);
  }

  lemma CheckedAsks(j: Job, i: nat)
    requires i < Size(j) && Checked(j, i).Ok?
    ensures Asked(j.k, j.st.files, j.edits[i], TargetOf(j, i), NewContent(j, i))
  {
    if j.edits[i].Update? {
      ReplaceEdits(j.st.files[TargetOf(j, i)], j.edits[i].before, j.edits[i].after);
    }
    hide Replace, Count, EditedAt;
  }

  // ---- the theorem ----

  /** `apply_patch` with fresh temp names, completely: if an edit fails in phase 1, the files are as before but for the
      temp file of an interrupted write; else the edits before the first failing rename are in place, each with the
      content it asks for, and nothing else has changed; and it succeeds exactly when no rename fails. */
  lemma ApplyIs(j: Job)
    requires FreshNames(j.k, j.st, j.edits)
    ensures
      var m := FirstFailure(j, 0);
      var (st1, r) := Apply(j.k, j.st, j.edits, j.snapshots, j.faults);
      if m < Size(j) then
        r == Err(FailureOf(j, m)) && st1.files == AfterFailure(j, m) && st1.tracked == j.st.tracked
      else
        && AllChecked(j)
        && (forall x :: 0 <= x < Size(j) ==> Asked(j.k, j.st.files, j.edits[x], TargetOf(j, x), NewContent(j, x)))
        && var i := FirstBadRename(j, 0);
        && st1.files == Overlay(j, i) && st1.tracked == TrackedAfter(j, i)
        && (if i < Size(j) then r == Err(RenameError(j.k, TargetOf(j, i), j.faults.rename(i)))
            else r == Ok(Targets(j, i)))
  {
    hide FreshNames, Staged, Checked, Overlay, Prepare, RenameFrom, AfterFailure, Renamed, FailureOf, RenameError,
      Asked;
    NothingStaged(j);
    PrepareIs(j, j.st, []);
    var m := FirstFailure(j, 0);
    if m == Size(j) {
      forall i | 0 <= i < Size(j) ensures Checked(j, i).Ok? { NotFailing(j, i); }
      forall i | 0 <= i < Size(j) ensures Asked(j.k, j.st.files, j.edits[i], TargetOf(j, i), NewContent(j, i)) {
        CheckedAsks(j, i);
      }
      var (st1, r) := Prepare(j.k, j.st, j.edits, j.snapshots, j.faults, 0, []);
      StagedIsRenamed(j, st1, r.value);
      StagedCounter(j, st1, r.value);
      RenameIs(j, st1, r.value, 0, []);
    }
  }

  lemma NothingStaged(j: Job)
    ensures Staged(j, j.st, [])
  {
  }

  // ---- what it comes to ----

  predicate Interrupted(f: WriteFault) { f.WriteFails? || f.SyncFails? }

  /** A failure in phase 1 leaves the files as they were, except exactly when the temp file was created and
      its write or sync failed: that file stays behind. */
  lemma FailedCheckChangesNothingIff(j: Job)
    requires FreshNames(j.k, j.st, j.edits) && FirstFailure(j, 0) < Size(j)
    ensures
      var m := FirstFailure(j, 0);
      var (st1, r) := Apply(j.k, j.st, j.edits, j.snapshots, j.faults);
      && r.Err?
      && (st1.files == j.st.files <==> !(Checked(j, m).Ok? && Interrupted(j.faults.write(m))))
  {
    hide Apply, Verify;
    ApplyIs(j);
    var m := FirstFailure(j, 0);
    if Checked(j, m).Ok? { assert TmpOf(j, m) !in j.st.files; }
  }

  /** The last edit that resolves to `p` among the first `i`, or `i`. */
  function LastEdit(j: Job, i: nat, p: Path): (x: nat)
    requires i <= Size(j) && AllChecked(j)
    ensures x < i ==> TargetOf(j, x) == p && forall y :: x < y < i ==> TargetOf(j, y) != p
    ensures x >= i ==> forall y :: 0 <= y < i ==> TargetOf(j, y) != p
  {
    if i == 0 then 0
    else if TargetOf(j, i - 1) == p then i - 1
    else
      var x := LastEdit(j, i - 1, p);
      if x < i - 1 then x else i
  }

  /** Every file holds what the last edit resolving to it made of the original, or what it held before. */
  lemma {:induction false} OverlayIsLastEdit(j: Job, i: nat, p: Path)
    requires i <= Size(j) && AllChecked(j)
    ensures
      var x := LastEdit(j, i, p);
      if x < i then p in Overlay(j, i) && Overlay(j, i)[p] == NewContent(j, x)
      else (p in Overlay(j, i) <==> p in j.st.files) && (p in j.st.files ==> Overlay(j, i)[p] == j.st.files[p])
  {
    hide Verify, Checked;
    if i > 0 { OverlayIsLastEdit(j, i - 1, p); }
  }

  /** All edits land if and only if edits that resolve to the same file agree on its content; in
      particular when the resolved targets are distinct. */
  lemma {:induction false} AllEditsLandIff(j: Job, i: nat)
    requires i <= Size(j) && AllChecked(j)
    ensures
      (forall x :: 0 <= x < i ==> TargetOf(j, x) in Overlay(j, i) && Overlay(j, i)[TargetOf(j, x)] == NewContent(j, x))
      <==>
      (forall x, y :: 0 <= x < y < i && TargetOf(j, x) == TargetOf(j, y) ==> NewContent(j, x) == NewContent(j, y))
  {
    hide Verify, Checked, Overlay;
    forall x | 0 <= x < i
      ensures
        var z := LastEdit(j, i, TargetOf(j, x));
        x <= z < i && TargetOf(j, x) in Overlay(j, i) && Overlay(j, i)[TargetOf(j, x)] == NewContent(j, z)
    {
      OverlayIsLastEdit(j, i, TargetOf(j, x));
    }
  }

  /** With distinct targets: success puts every edit in place and changes no other file; a rename failing at
      `i` leaves exactly the first `i` targets updated and no temp file. */
  lemma DistinctTargetsApplied(j: Job)
    requires FreshNames(j.k, j.st, j.edits) && FirstFailure(j, 0) == Size(j) && AllChecked(j)
    requires forall x, y :: 0 <= x < y < Size(j) ==> TargetOf(j, x) != TargetOf(j, y)
    ensures
      var (st1, r) := Apply(j.k, j.st, j.edits, j.snapshots, j.faults);
      var i := FirstBadRename(j, 0);
      && (r.Ok? <==> i == Size(j))
      && (forall x :: 0 <= x < i ==>
            TargetOf(j, x) in st1.files && st1.files[TargetOf(j, x)] == NewContent(j, x)
            && Asked(j.k, j.st.files, j.edits[x], TargetOf(j, x), st1.files[TargetOf(j, x)]))
      && (forall p :: (forall x :: 0 <= x < i ==> TargetOf(j, x) != p) ==>
            (p in st1.files <==> p in j.st.files) && (p in st1.files ==> st1.files[p] == j.st.files[p]))
  {
    hide Verify, Checked, Overlay, Apply, FreshNames, Fails, Asked;
    ApplyIs(j);
    var i := FirstBadRename(j, 0);
    AllEditsLandIff(j, i);
    var files := Apply(j.k, j.st, j.edits, j.snapshots, j.faults).0.files;
    forall p | forall x :: 0 <= x < i ==> TargetOf(j, x) != p
      ensures (p in files <==> p in j.st.files) && (p in files ==> files[p] == j.st.files[p])
    {
      OverlayIsLastEdit(j, i, p);
    }
  }

  // ---- preview first ----

  /** The snapshots of the first `i` edits are what the files hold. */
  predicate Snapped(k: Host, files: map<Path, Bytes>, edits: seq<PatchTool>, snapshots: seq<PreviewContent>) {
    |snapshots| <= |edits| && forall i :: 0 <= i < |snapshots| ==> SnapshotOk(k, files, edits[i], snapshots[i])
  }

  /** What a successful preview of one edit establishes. */
  predicate SnapshotOk(k: Host, files: map<Path, Bytes>, edit: PatchTool, s: PreviewContent) {
    && Target(k, edit).Some?
    && var p := Target(k, edit).value;
    && s.path == edit.path
    && match edit
       case Add(_, _) => s.content.None? && !Exists(k, files, p)
       case Update(_, before, _) =>
         && p in files && !k.isDir(p) && |files[p]| <= PATCH_MAX_FILE_BYTES
         && s.content == Some(files[p]) && Count(files[p], before) == 1
  }

  lemma PreviewOneSnaps(k: Host, files: map<Path, Bytes>, edit: PatchTool, fault: ReadFault, acc: Preview)
    requires PreviewOne(k, files, edit, fault, acc).Ok?
    ensures
      var out := PreviewOne(k, files, edit, fault, acc).value.snapshots;
      |out| == |acc.snapshots| + 1 && out[..|acc.snapshots|] == acc.snapshots
      && SnapshotOk(k, files, edit, out[|acc.snapshots|])
  {
  }

  lemma {:induction false} PreviewSnaps(k: Host, files: map<Path, Bytes>, edits: seq<PatchTool>, faults: Faults,
                                        acc: Preview)
    requires Snapped(k, files, edits, acc.snapshots)
    requires PreviewFrom(k, files, edits, faults, |acc.snapshots|, acc).Ok?
    ensures
      var out := PreviewFrom(k, files, edits, faults, |acc.snapshots|, acc).value.snapshots;
      |out| == |edits| && Snapped(k, files, edits, out)
    decreases |edits| - |acc.snapshots|
  {
    hide PreviewOne, SnapshotOk;
    var i := |acc.snapshots|;
    if i < |edits| {
      PreviewOneSnaps(k, files, edits[i], faults.read(i), acc);
      var acc1 := PreviewOne(k, files, edits[i], faults.read(i), acc).value;
      forall x | 0 <= x < |acc1.snapshots| ensures SnapshotOk(k, files, edits[x], acc1.snapshots[x]) {
        if x < i { assert acc1.snapshots[x] == acc1.snapshots[..i][x]; }
      }
      PreviewSnaps(k, files, edits, faults, acc1);
    }
  }

  /** How the write guards judged an edit. */
  function GuardOf(k: Host, edit: PatchTool): WriteGuard {
    var r := if edit.Add? then k.resolveAdd(edit.path) else k.resolveUpdate(edit.path);
    if r.Ok? then r.value.1 else Allow
  }

  function AddedBy(edit: PatchTool): nat { LineCount(if edit.Add? then edit.content else edit.after) }

  function RemovedBy(edit: PatchTool): nat { if edit.Add? then 0 else LineCount(edit.before) }

  function AddedLines(edits: seq<PatchTool>, n: nat): nat
    requires n <= |edits|
  {
    if n == 0 then 0 else AddedLines(edits, n - 1) + AddedBy(edits[n - 1])
  }

  function RemovedLines(edits: seq<PatchTool>, n: nat): nat
    requires n <= |edits|
  {
    if n == 0 then 0 else RemovedLines(edits, n - 1) + RemovedBy(edits[n - 1])
  }

  lemma {:induction false} CountLfAppend(a: Bytes, b: Bytes)
    ensures CountLf(a + b) == CountLf(a) + CountLf(b)
  {
    if a == [] {
      assert a + b == b;
    } else {
      assert (a + b)[0] == a[0] && (a + b)[1..] == a[1..] + b;
      CountLfAppend(a[1..], b);
    }
  }

  /** Lines add up where a line ends, and ending the last line does not change how many there are. */
  lemma LinesAddUp(a: Bytes, b: Bytes)
    ensures a == [] || a[|a| - 1] == LF ==> LineCount(a + b) == LineCount(a) + LineCount(b)
    ensures a != [] && a[|a| - 1] != LF ==> LineCount(a + [LF]) == LineCount(a)
    ensures a == [] || a[|a| - 1] == LF ==> LineCount(a + [LF]) == LineCount(a) + 1
  {
    CountLfAppend(a, b);
    CountLfAppend(a, [LF]);
    assert [LF][1..] == [];
    if b == [] { assert a + b == a; } else { assert (a + b)[|a + b| - 1] == b[|b| - 1]; }
    if a == [] { assert a + b == b; }
  }

  /** What the human is told about the first `n` edits. */
  predicate Summarises(k: Host, edits: seq<PatchTool>, n: nat, s: PatchPreview)
    requires n <= |edits|
  {
    && s.editCount == n
    && s.targets == (set i | 0 <= i < n :: edits[i].path)
    && s.addedLines == AddedLines(edits, n) && s.removedLines == RemovedLines(edits, n)
    && (s.autoApprove <==> forall i :: 0 <= i < n ==> edits[i].Update? && GuardOf(k, edits[i]).Allow?)
    && (s.notRevertible.None? <==> forall i :: 0 <= i < n ==> GuardOf(k, edits[i]).Allow?)
    && (s.notRevertible.Some? ==> exists i :: 0 <= i < n && FirstReason(k, edits, i, s.notRevertible.value))
  }

  /** Edit `i` is the first that needs approval, for this reason. */
  predicate FirstReason(k: Host, edits: seq<PatchTool>, i: nat, reason: string)
    requires i < |edits|
  {
    GuardOf(k, edits[i]) == NeedsApproval(reason) && forall j :: 0 <= j < i ==> GuardOf(k, edits[j]).Allow?
  }

  lemma PreviewOneSummary(k: Host, files: map<Path, Bytes>, edit: PatchTool, fault: ReadFault, acc: Preview)
    requires PreviewOne(k, files, edit, fault, acc).Ok?
    ensures
      var s, t := acc.summary, PreviewOne(k, files, edit, fault, acc).value.summary;
      && t.editCount == s.editCount + 1 && t.targets == s.targets + {edit.path}
      && t.addedLines == s.addedLines + AddedBy(edit) && t.removedLines == s.removedLines + RemovedBy(edit)
      && t.autoApprove == (s.autoApprove && edit.Update? && GuardOf(k, edit).Allow?)
      && t.notRevertible == WithReason(s.notRevertible, GuardOf(k, edit))
  {
  }

  lemma SummaryStep(k: Host, edits: seq<PatchTool>, n: nat, s: PatchPreview, t: PatchPreview)
    requires n < |edits| && Summarises(k, edits, n, s)
    requires t.editCount == s.editCount + 1 && t.targets == s.targets + {edits[n].path}
    requires t.addedLines == s.addedLines + AddedBy(edits[n]) && t.removedLines == s.removedLines + RemovedBy(edits[n])
    requires t.autoApprove == (s.autoApprove && edits[n].Update? && GuardOf(k, edits[n]).Allow?)
    requires t.notRevertible == WithReason(s.notRevertible, GuardOf(k, edits[n]))
    ensures Summarises(k, edits, n + 1, t)
  {
    hide GuardOf;
    if s.notRevertible.None? && t.notRevertible.Some? { assert FirstReason(k, edits, n, t.notRevertible.value); }
  }

  /** A successful preview says: how many edits, on which paths, how many lines added and removed; safe to apply
      unasked exactly when every edit is an update the guards allow; and otherwise the first reason to ask. */
  lemma {:induction false} PreviewSummarises(k: Host, files: map<Path, Bytes>, edits: seq<PatchTool>, faults: Faults,
                                             i: nat, acc: Preview)
    requires i <= |edits| && Summarises(k, edits, i, acc.summary)
    requires PreviewFrom(k, files, edits, faults, i, acc).Ok?
    ensures Summarises(k, edits, |edits|, PreviewFrom(k, files, edits, faults, i, acc).value.summary)
    decreases |edits| - i
  {
    hide PreviewOne, Summarises, WithReason, GuardOf;
    if i < |edits| {
      PreviewOneSummary(k, files, edits[i], faults.read(i), acc);
      var acc1 := PreviewOne(k, files, edits[i], faults.read(i), acc).value;
      SummaryStep(k, edits, i, acc.summary, acc1.summary);
      PreviewSummarises(k, files, edits, faults, i + 1, acc1);
    }
  }

  /** The size of the file an edit would produce. */
  predicate Fits(k: Host, files: map<Path, Bytes>, edit: PatchTool) {
    edit.Update? && Target(k, edit).Some? && Target(k, edit).value in files ==>
      |Replace(files[Target(k, edit).value], edit.before, edit.after)| <= PATCH_MAX_FILE_BYTES
  }

  lemma SnappedChecks(j: Job, i: nat)
    requires i < Size(j) && SnapshotOk(j.k, j.st.files, j.edits[i], j.snapshots[i])
    ensures Checked(j, i).Ok? <==>
      Fits(j.k, j.st.files, j.edits[i]) && (j.edits[i].Update? ==> j.faults.read(i) == NoReadFault)
  {
    hide Replace, Count;
  }

  /** No I/O operation of the call fails. */
  ghost predicate NoFault(j: Job) {
    && (forall i: nat :: i < Size(j) && j.edits[i].Update? ==> j.faults.read(i) == NoReadFault)
    && (forall i: nat :: i < Size(j) ==> j.faults.write(i) == NoWriteFault)
    && (forall i: nat :: i < Size(j) ==> j.faults.rename(i) == NoRenameFault)
  }

  /** After a successful preview of unchanged files, applying succeeds if and only if every produced file fits
      the size limit and no I/O fails. */
  lemma PreviewedAppliesIff(j: Job, faults: Faults)
    requires FreshNames(j.k, j.st, j.edits)
    requires
      var preview := PreviewFrom(j.k, j.st.files, j.edits, faults, 0, EMPTY_PREVIEW);
      preview.Ok? && preview.value.snapshots == j.snapshots
    ensures Apply(j.k, j.st, j.edits, j.snapshots, j.faults).1.Ok? <==>
      (forall e :: e in j.edits ==> Fits(j.k, j.st.files, e)) && NoFault(j)
  {
    hide Apply, FreshNames, Overlay, Fits, SnapshotOk, Verify, Checked;
    PreviewSnaps(j.k, j.st.files, j.edits, faults, EMPTY_PREVIEW);
    assert |j.snapshots| == |j.edits|;
    ApplyIs(j);
    forall i | 0 <= i < Size(j)
      ensures Checked(j, i).Ok? <==>
                Fits(j.k, j.st.files, j.edits[i]) && (j.edits[i].Update? ==> j.faults.read(i) == NoReadFault)
    {
      SnappedChecks(j, i);
    }
    if (forall e :: e in j.edits ==> Fits(j.k, j.st.files, e)) && NoFault(j) {
      forall i | 0 <= i < Size(j) ensures !Fails(j, i) { assert j.edits[i] in j.edits; }
    }
    if Apply(j.k, j.st, j.edits, j.snapshots, j.faults).1.Ok? {
      forall e | e in j.edits ensures Fits(j.k, j.st.files, e) {
        var i :| 0 <= i < |j.edits| && j.edits[i] == e;
        NotFailing(j, i);
      }
      forall i: nat | i < Size(j) ensures j.faults.write(i) == NoWriteFault { NotFailing(j, i); }
    }
  }

  /** What was previewed is what is edited: an update goes through only on the very bytes of its snapshot. */
  lemma AppliedOnlyOnSnapshot(j: Job, i: nat)
    requires FreshNames(j.k, j.st, j.edits) && i < Size(j) && j.edits[i].Update?
    requires Apply(j.k, j.st, j.edits, j.snapshots, j.faults).1.Ok?
    ensures
      var p := Target(j.k, j.edits[i]);
      && p.Some? && p.value in j.st.files
      && j.snapshots[i].content == Some(j.st.files[p.value])
      && Count(j.st.files[p.value], j.edits[i].before) == 1
  {
    hide Apply, FreshNames, Overlay, Count, Replace;
    ApplyIs(j);
    NotFailing(j, i);
  }
}
