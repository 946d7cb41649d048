/** What holds over whole runs of the burn manager: any failures, retries and new jobs. */
module BurnRuns {
  import opened Bytes
  import opened DiskIds
  import opened PlanProps
  import opened Tools
  import opened BurnWorld
  import opened BurnInv
  import opened BurnKeep
  import opened BurnKeepData

  /** An empty catalog and no job yet. */
  ghost predicate Initial(w: World) {
    && w.job.None? && w.disks == map[] && w.files == [] && w.sealed == {}
    && w.mine == {} && w.commit == Off && w.lost == [] && w.withdrawn == [] && w.overwritten == {} && w.jobs == 0
  }

  lemma InitialInv(t: Tools, w: World)
    requires Initial(w)
    ensures Inv(t, w)
  {
  }

  lemma RunStep(t: Tools, run: seq<World>, i: nat) returns (a: Action)
    requires Run(t, run) && i + 1 < |run|
    ensures Act(t, run[i], a, run[i + 1])
  {
    assert Step(t, run[i], run[i + 1]);
    a :| Act(t, run[i], a, run[i + 1]);
  }

  /** The invariant holds in every world of every run that starts in it. */
  lemma {:induction false} RunKeepsInv(t: Tools, run: seq<World>, i: nat)
    requires Lawful(t) && Run(t, run) && Inv(t, run[0]) && i < |run|
    ensures Inv(t, run[i])
  {
    hide *;
    if i > 0 {
      RunKeepsInv(t, run, i - 1);
      var a := RunStep(t, run, i - 1);
      KeepsInv(t, run[i - 1], a, run[i]);
    }
  }

  // ---- No file is lost -----------------------------------------------------------------------------

  /** The current disc may still be written again: its commit is not under way and its files are all staged. */
  ghost predicate Rewritable(w: World, id: DiskId) {
    HasCur(w) && id == Cur(w).id && w.commit == Off && AllStaged(Cur(w).bucket.files, w.staging)
  }

  /**
   * Some row records `path` on a disc that holds these bytes, was not overwritten, and will
   * not be written again by this job.
   */
  ghost predicate Archived(t: Tools, w: World, path: string, data: Bytes) {
    exists i :: 0 <= i < |w.files| && ArchivedBy(t, w, w.files[i], path, data)
  }

  ghost predicate ArchivedBy(t: Tools, w: World, r: FileRow, path: string, data: Bytes) {
    && r.path == path && r.disk in w.media
    && ReadFile(t, w.media[r.disk], r.disk, path) == Found(data)
    && !Rewritable(w, r.disk) && r.disk !in w.overwritten
  }

  ghost predicate Staged(w: World, path: string, data: Bytes) {
    path in w.staging && w.staging[path] == data
  }

  ghost predicate Safe(t: Tools, w: World, path: string, data: Bytes) {
    Staged(w, path, data) || Archived(t, w, path, data)
  }

  /** A disc planned by the job but not begun carries no rows. */
  lemma NoRowsYet(t: Tools, w: World, r: FileRow)
    requires Inv(t, w) && r in w.files && HasCur(w) && Cur(w).id !in w.mine
    ensures r.disk != Cur(w).id
  {
    hide PlansOk;
    hide Placed;
    hide WrittenRows;
    var i :| 0 <= i < |w.files| && w.files[i] == r;
  }

  /** What one step does to a row's claim on its disc. */
  lemma RowStaysSafe(t: Tools, w: World, a: Action, now: World, r: FileRow, path: string, data: Bytes)
    requires Lawful(t) && Inv(t, w) && Inv(t, now) && Act(t, w, a, now)
    requires r in w.files && ArchivedBy(t, w, r, path, data)
    ensures ArchivedBy(t, now, r, path, data) || Staged(now, path, data) || r.disk in now.overwritten
    ensures a.WriteMedium? || r.disk !in now.overwritten
  {
    hide Inv;
    hide Act;
    hide ReadFile;
    hide Truncated;
    hide Written;
    OnlyWritesOverwrite(t, w, a, now);
    if a.WriteMedium? {
      WriteKeepsRow(t, w, a.data, now, r, path, data);
      WriteWrites(t, w, a.data, now);
    } else if a.Fail? {
      FailKeepsRow(t, w, now, r, path, data);
    } else if a.StartJob? || a.Advance? {
      NewCurrent(t, w, a, now);
      if HasCur(now) {
        NoRowsYet(t, now, r);
      }
    } else if a.Restart? {
      RestartRestarts(t, w, now);
    } else if a.InsertDisk? {
      InsertInserts(t, w, a.payload, now);
    } else {
      MostStayInPlace(t, w, a, now);
      if Rewritable(now, r.disk) {
        RewritableOnlyShrinks(t, w, a, now, r.disk);
      }
    }
  }

  lemma NewCurrent(t: Tools, w: World, a: Action, now: World)
    requires Inv(t, w) && Act(t, w, a, now) && (a.StartJob? || a.Advance?)
    ensures now.files == w.files && now.media == w.media
    ensures HasCur(now) ==> Cur(now).id !in now.mine
  {
    hide Inv;
    hide Act;
    hide Counted;
    MinePart(t, w);
    if a.Advance? {
      AdvanceAdvances(t, w, now);
    } else {
      StartStarts(t, w, a, now);
    }
  }

  /** In place, a current disc does not become rewritable: its files are planned, so nobody stages them again. */
  lemma RewritableOnlyShrinks(t: Tools, w: World, a: Action, now: World, id: DiskId)
    requires Inv(t, w) && Act(t, w, a, now) && Rewritable(now, id)
    requires !a.StartJob? && !a.InsertDisk? && !a.Advance? && !a.Fail? && !a.Restart?
    ensures Rewritable(w, id)
  {
    hide Act;
    hide Inv;
    if a.EditStaging? {
      EditEdits(t, w, a.staging, now);
      NotDoneYet(t, w);
      hide IsPlanned;
      forall i | 0 <= i < |Cur(w).bucket.files|
        ensures IsPlanned(w, Cur(w).bucket.files[i].path)
      {
        CurIsPlannedFile(w, i);
      }
    } else {
      MostStayInPlace(t, w, a, now);
      if a.RemoveStaged? {
        var k := RemoveStagedRemoves(t, w, now);
      }
    }
  }

  lemma NotDoneYet(t: Tools, w: World)
    requires Inv(t, w) && HasCur(w)
    ensures w.job.value.state != Done
  {
    hide Inv;
    hide PlansOk;
    JobPart(t, w);
  }

  /** When a commit fails before any file was removed, a recorded file is still staged. */
  lemma FailKeepsRow(t: Tools, w: World, now: World, r: FileRow, path: string, data: Bytes)
    requires Inv(t, w) && Act(t, w, Fail, now)
    requires r in w.files && ArchivedBy(t, w, r, path, data)
    ensures ArchivedBy(t, now, r, path, data) || Staged(now, path, data)
  {
    FailFails(t, w, now);
    hide Act;
    hide ReadFile;
    hide Inv;
    if Rewritable(now, r.disk) {
      RecordedAndStaged(t, w, r);
    }
  }

  lemma RecordedAndStaged(t: Tools, w: World, r: FileRow)
    requires Inv(t, w) && HasCur(w) && w.commit != Off && r in w.files && r.disk == Cur(w).id
    requires AllStaged(Cur(w).bucket.files, w.staging) && Cur(w).id in w.media
    ensures r.path in w.staging
    ensures ReadFile(t, w.media[r.disk], r.disk, r.path) == Found(w.staging[r.path])
  {
    var plans, index := w.job.value.plans, w.job.value.index;
    hide PlansOk;
    hide Placed;
    hide DisksOk;
    var i :| 0 <= i < |w.files| && w.files[i] == r;
    assert OnPlan(plans[index], w.files[i].path);
    var a :| 0 <= a < |plans[index].bucket.files| && plans[index].bucket.files[a].path == r.path;
    assert plans[index].bucket.files[a].path in w.staging;
    assert a >= Pending(w.commit);
  }

  /** Since there were `from` withdrawals the user took these bytes out of staging, or replaced them. */
  ghost predicate TakenOut(withdrawn: seq<map<string, Bytes>>, from: nat, path: string, data: Bytes) {
    exists x :: from <= x < |withdrawn| && path in withdrawn[x] && withdrawn[x][path] == data
  }

  /**
   * One step loses no file: what is staged or archived stays so, unless the user takes it out
   * of staging or its disc is overwritten.
   */
  lemma StepKeepsSafe(t: Tools, w: World, a: Action, now: World, path: string, data: Bytes)
    requires Lawful(t) && Inv(t, w) && Act(t, w, a, now) && Safe(t, w, path, data)
    ensures w.withdrawn <= now.withdrawn && w.overwritten <= now.overwritten
    ensures Safe(t, now, path, data) || TakenOut(now.withdrawn, |w.withdrawn|, path, data)
         || exists i :: 0 <= i < |w.files| && ArchivedBy(t, w, w.files[i], path, data)
             && w.files[i].disk in now.overwritten
    ensures Safe(t, now, path, data) || a.EditStaging? || a.WriteMedium?
  {
    hide Act;
    hide Inv;
    hide ArchivedBy;
    KeepsInv(t, w, a, now);
    OnlyUserWithdraws(t, w, a, now);
    OnlyWritesOverwrite(t, w, a, now);
    if !Staged(w, path, data) {
      var i :| 0 <= i < |w.files| && ArchivedBy(t, w, w.files[i], path, data);
      RowStaysSafe(t, w, a, now, w.files[i], path, data);
      RowsOnlyAdded(t, w, a, now);
      assert now.files[i] == w.files[i];
    } else if !Staged(now, path, data) {
      if a.EditStaging? {
        EditEdits(t, w, a.staging, now);
        hide SparesPlanned;
        assert path in now.withdrawn[|w.withdrawn|];
      } else {
        var row := LeavesStaging(t, w, a, now, path);
        var i :| 0 <= i < |now.files| && now.files[i] == row;
        assert ArchivedBy(t, now, now.files[i], path, data);
      }
    }
  }

  lemma OnlyWritesOverwrite(t: Tools, w: World, a: Action, now: World)
    requires Act(t, w, a, now)
    ensures w.overwritten <= now.overwritten && (!a.WriteMedium? ==> now.overwritten == w.overwritten)
  {
    hide Act;
    if a.InsertDisk? {
      InsertInserts(t, w, a.payload, now);
    } else if a.Advance? {
      AdvanceAdvances(t, w, now);
    } else if a.StartJob? {
      StartStarts(t, w, a, now);
    } else if a.Fail? {
      FailFails(t, w, now);
    } else if a.Restart? {
      RestartRestarts(t, w, now);
    } else if a.WriteMedium? {
      WriteWrites(t, w, a.data, now);
    } else {
      MostStayInPlace(t, w, a, now);
    }
    hide *;
  }

  lemma OnlyUserWithdraws(t: Tools, w: World, a: Action, now: World)
    requires Act(t, w, a, now)
    ensures w.withdrawn <= now.withdrawn && (!a.EditStaging? ==> now.withdrawn == w.withdrawn)
  {
    hide Act;
    if a.InsertDisk? {
      InsertInserts(t, w, a.payload, now);
    } else if a.Advance? {
      AdvanceAdvances(t, w, now);
    } else if a.StartJob? {
      StartStarts(t, w, a, now);
    } else if a.Fail? {
      FailFails(t, w, now);
    } else if a.Restart? {
      RestartRestarts(t, w, now);
    } else if a.EditStaging? {
      EditEdits(t, w, a.staging, now);
    } else {
      MostStayInPlace(t, w, a, now);
    }
    hide *;
  }

  /** No step changes or removes a row of the files table. */
  lemma RowsOnlyAdded(t: Tools, w: World, a: Action, now: World)
    requires Act(t, w, a, now)
    ensures w.files <= now.files
  {
    hide Act;
    if a.InsertDisk? {
      InsertInserts(t, w, a.payload, now);
    } else if a.Advance? {
      AdvanceAdvances(t, w, now);
    } else if a.StartJob? {
      StartStarts(t, w, a, now);
    } else if a.Fail? {
      FailFails(t, w, now);
    } else if a.Restart? {
      RestartRestarts(t, w, now);
    } else if a.InsertFile? {
      var k, row := InsertFileInserts(t, w, now);
    } else {
      MostStayInPlace(t, w, a, now);
    }
    hide *;
  }

  /**
   * Unless the user takes it out, a file leaves staging only after its disc was verified (or copied, in a dry run) and
   * recorded with the hash of what is on it, the file's own row was inserted, and the
   * disc gives the file back as it was.
   */
  lemma LeavesStaging(t: Tools, w: World, a: Action, now: World, path: string) returns (row: FileRow)
    requires Lawful(t) && Inv(t, w) && Act(t, w, a, now) && !a.EditStaging?
    requires path in w.staging && (path !in now.staging || now.staging[path] != w.staging[path])
    ensures row in w.files && row in now.files && row.path == path && row.hash == t.hash(w.staging[path])
    ensures row.disk in w.disks && row.disk in w.media && w.disks[row.disk].isoHash == t.hash(w.media[row.disk])
    ensures w.job.Some? && w.job.value.state == CommitState(w.job.value.options)
    ensures ArchivedBy(t, now, row, path, w.staging[path])
  {
    hide Act;
    hide Inv;
    hide Lawful;
    hide ReadFile;
    OnlyRemoveStaged(t, w, a, now, path);
    var k := RemoveStagedRemoves(t, w, now);
    assert Cur(w).bucket.files[k].path == path;
    row := RowOfRemoved(t, w, k);
  }

  lemma OnlyRemoveStaged(t: Tools, w: World, a: Action, now: World, path: string)
    requires Act(t, w, a, now) && !a.EditStaging?
    requires path in w.staging && (path !in now.staging || now.staging[path] != w.staging[path])
    ensures a.RemoveStaged?
  {
    if !a.RemoveStaged? {
      SameStaging(t, w, a, now);
      hide Act;
    }
  }

  lemma SameStaging(t: Tools, w: World, a: Action, now: World)
    requires Act(t, w, a, now) && !a.EditStaging? && !a.RemoveStaged?
    ensures now.staging == w.staging
  {
    hide Act;
    if a.InsertDisk? {
      InsertInserts(t, w, a.payload, now);
    } else if a.Advance? {
      AdvanceAdvances(t, w, now);
    } else if a.StartJob? {
      StartStarts(t, w, a, now);
    } else if a.Fail? {
      FailFails(t, w, now);
    } else if a.Restart? {
      RestartRestarts(t, w, now);
    } else {
      MostStayInPlace(t, w, a, now);
    }
    hide *;
  }

  lemma RowOfRemoved(t: Tools, w: World, k: nat) returns (row: FileRow)
    requires Inv(t, w) && HasCur(w) && w.commit == Inserted(k) && k < |Cur(w).bucket.files|
    ensures var path := Cur(w).bucket.files[k].path;
            && row in w.files && row.path == path && row.disk == Cur(w).id
            && path in w.staging && row.hash == t.hash(w.staging[path])
            && row.disk in w.disks && row.disk in w.media && w.disks[row.disk].isoHash == t.hash(w.media[row.disk])
            && ReadFile(t, w.media[row.disk], row.disk, path) == Found(w.staging[path])
            && row.disk !in w.overwritten
    ensures w.job.value.state == CommitState(w.job.value.options)
  {
    hide PlansOk;
    hide Placed;
    var plan := w.job.value.plans[w.job.value.index];
    assert Listed(w.files, plan.id, plan.bucket.files[k].path);
    var i :| 0 <= i < |w.files| && w.files[i].disk == plan.id && w.files[i].path == plan.bucket.files[k].path;
    row := w.files[i];
    assert Backed(t, w.media, row);
  }

  /** Between the moments `i` and `j` a disc that held these bytes was overwritten. */
  ghost predicate OverwrittenSince(t: Tools, run: seq<World>, i: nat, j: nat, path: string, data: Bytes)
    requires i <= j < |run|
  {
    exists k, x ::
      && i <= k < j && 0 <= x < |run[k].files| && ArchivedBy(t, run[k], run[k].files[x], path, data)
      && run[k].files[x].disk in run[j].overwritten
  }

  /**
   * Conservation over runs: whatever failures, retries, restarts and new jobs happen, bytes
   * that were staged under a path at any moment are at every later moment still staged there,
   * or recorded on a disc that holds them; or the user took them out of staging since; or a
   * disc that held them was overwritten since at its target path.
   */
  lemma {:induction false} FilesAreConserved(t: Tools, run: seq<World>, i: nat, j: nat, path: string, data: Bytes)
    requires Lawful(t) && Run(t, run) && Inv(t, run[0]) && i <= j < |run|
    requires Safe(t, run[i], path, data)
    ensures run[i].withdrawn <= run[j].withdrawn && run[i].overwritten <= run[j].overwritten
    ensures Safe(t, run[j], path, data) || TakenOut(run[j].withdrawn, |run[i].withdrawn|, path, data)
         || OverwrittenSince(t, run, i, j, path, data)
  {
    hide *;
    if i < j {
      FilesAreConserved(t, run, i, j - 1, path, data);
      RunKeepsInv(t, run, j - 1);
      var a := RunStep(t, run, j - 1);
      OnlyUserWithdraws(t, run[j - 1], a, run[j]);
      OnlyWritesOverwrite(t, run[j - 1], a, run[j]);
      if Safe(t, run[j - 1], path, data) {
        StepKeepsSafe(t, run[j - 1], a, run[j], path, data);
        TakenOutEarlier(run[j].withdrawn, |run[i].withdrawn|, |run[j - 1].withdrawn|, path, data);
        OverwrittenNow(t, run, i, j - 1, j, path, data);
      } else if TakenOut(run[j - 1].withdrawn, |run[i].withdrawn|, path, data) {
        TakenOutStays(run[j - 1].withdrawn, run[j].withdrawn, |run[i].withdrawn|, path, data);
      } else {
        OverwrittenStays(t, run, i, j, path, data);
      }
    }
  }

  lemma OverwrittenNow(t: Tools, run: seq<World>, i: nat, k: nat, j: nat, path: string, data: Bytes)
    requires i <= k < j < |run|
    ensures (exists x :: 0 <= x < |run[k].files| && ArchivedBy(t, run[k], run[k].files[x], path, data)
                         && run[k].files[x].disk in run[j].overwritten)
      ==> OverwrittenSince(t, run, i, j, path, data)
  {
    hide ArchivedBy;
  }

  lemma OverwrittenStays(t: Tools, run: seq<World>, i: nat, j: nat, path: string, data: Bytes)
    requires i < j < |run| && run[j - 1].overwritten <= run[j].overwritten
    requires OverwrittenSince(t, run, i, j - 1, path, data)
    ensures OverwrittenSince(t, run, i, j, path, data)
  {
    hide ArchivedBy;
  }

  lemma TakenOutEarlier(withdrawn: seq<map<string, Bytes>>, from: nat, later: nat, path: string, data: Bytes)
    requires from <= later
    ensures TakenOut(withdrawn, later, path, data) ==> TakenOut(withdrawn, from, path, data)
  {
  }

  lemma TakenOutStays(was: seq<map<string, Bytes>>, now: seq<map<string, Bytes>>, from: nat, path: string, data: Bytes)
    requires was <= now && TakenOut(was, from, path, data)
    ensures TakenOut(now, from, path, data)
  {
    var x :| from <= x < |was| && path in was[x] && was[x][path] == data;
    assert now[x] == was[x];
  }

  /**
   * Exactly which steps lose a file that was safe: the user takes it out of staging and no
   * disc holds it; or a write truncates the disc at its target path, the file is not staged,
   * and no other disc holds it.
   */
  lemma StepLosesIff(t: Tools, w: World, a: Action, now: World, path: string, data: Bytes)
    requires Lawful(t) && Inv(t, w) && Act(t, w, a, now) && Safe(t, w, path, data)
    ensures !Safe(t, now, path, data) <==>
              || (a.EditStaging? && !Staged(now, path, data) && !Archived(t, w, path, data))
              || (a.WriteMedium? && HasCur(w) && !Staged(w, path, data)
                  && forall i :: 0 <= i < |w.files| && ArchivedBy(t, w, w.files[i], path, data) ==>
                       w.files[i].disk in Truncated(w))
  {
    hide Act;
    hide Inv;
    hide ArchivedBy;
    hide Truncated;
    StepKeepsSafe(t, w, a, now, path, data);
    if a.EditStaging? {
      forall r
        ensures ArchivedBy(t, now, r, path, data) <==> ArchivedBy(t, w, r, path, data)
      {
        EditKeepsRow(t, w, a, now, r, path, data);
      }
      EditEdits(t, w, a.staging, now);
      hide SparesPlanned;
    } else if a.WriteMedium? {
      WriteWrites(t, w, a.data, now);
      forall r
        ensures ArchivedBy(t, now, r, path, data) <==> ArchivedBy(t, w, r, path, data) && r.disk !in Truncated(w)
      {
        WriteKeepsRow(t, w, a.data, now, r, path, data);
      }
      hide Written;
    }
  }

  lemma EditKeepsRow(t: Tools, w: World, a: Action, now: World, r: FileRow, path: string, data: Bytes)
    requires Inv(t, w) && Act(t, w, a, now) && a.EditStaging?
    ensures ArchivedBy(t, now, r, path, data) <==> ArchivedBy(t, w, r, path, data)
  {
    hide Act;
    hide Inv;
    hide ReadFile;
    EditEdits(t, w, a.staging, now);
    hide IsPlanned;
    if HasCur(w) {
      NotDoneYet(t, w);
      forall i | 0 <= i < |Cur(w).bucket.files|
        ensures IsPlanned(w, Cur(w).bucket.files[i].path)
      {
        CurIsPlannedFile(w, i);
      }
    }
  }

  lemma WriteKeepsRow(t: Tools, w: World, bytes: Bytes, now: World, r: FileRow, path: string, data: Bytes)
    requires Act(t, w, WriteMedium(bytes), now)
    ensures HasCur(w)
    ensures ArchivedBy(t, now, r, path, data) <==> ArchivedBy(t, w, r, path, data) && r.disk !in Truncated(w)
  {
    hide Act;
    hide ReadFile;
    hide Truncated;
    WriteWrites(t, w, bytes, now);
    hide Written;
  }
}
