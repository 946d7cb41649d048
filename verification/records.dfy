/** What the catalog and each disc's table of contents say of the disc, read from the world alone. */
module Records {
  import opened Bytes
  import opened XorDisk
  import opened BinPack
  import opened DiskIds
  import opened Plan
  import opened PlanProps
  import opened Tools
  import opened BurnWorld
  import opened BurnInv
  import opened BurnKeep
  import opened BurnRuns
  import opened BurnFacts
  import opened BurnCommit
  import opened Recovery

  // ---- Rows and tables of contents -------------------------------------------------------------

  /** A disc row that records this plan of a job with these options. */
  ghost predicate RowSays(row: DiskRow, opts: Options, plan: DiscPlan) {
    && row.mediaType == opts.mediaType && row.parityPercent == opts.parityPercent && row.isDryRun == opts.dryRun
    && row.role == plan.role
    && (plan.group == "" ==> row.group == None && row.slot == None)
    && (plan.group != "" ==> row.group == Some(plan.group) && row.slot == Some(plan.slot))
  }

  /** The files of a disc, in the order in which they were recorded. */
  function Recorded(files: seq<FileRow>, id: DiskId): seq<FileInfo> {
    if files == [] then [] else
      var last := files[|files| - 1];
      Recorded(files[..|files| - 1], id) + if last.disk == id then [FileInfo(last.path, last.size)] else []
  }

  /** What is on a disc says of it what the catalog does. */
  ghost predicate SelfDescribed(t: Tools, w: World, id: DiskId) {
    && id in w.disks && id in w.media
    && var row, image := w.disks[id], w.media[id];
       && row.isoHash == t.hash(image)
       && (exists payload ::
             && t.extract(image, TarName(id)) == Some(payload)
             && t.extract(image, Par2Name(id)) == Some(t.par2(payload, row.parityPercent)))
       && (exists toc :: TocSays(t, image, id, toc) && Agrees(toc, id, row, Recorded(w.files, id)))
  }

  ghost predicate Agrees(toc: Toc, id: DiskId, row: DiskRow, files: seq<FileInfo>) {
    && toc.disk == id && toc.mediaType == row.mediaType && toc.parityPercent == row.parityPercent
    && toc.role == row.role && toc.files == files && (row.role == Parity ==> files == [])
    && (row.group.Some? ==> row.group.value == toc.group && row.slot == Some(toc.slot))
    && (row.group.None? ==> toc.group == "" && row.slot == None)
  }

  // ---- Along a run -----------------------------------------------------------------------------

  /** The rows of the job's discs are as planned, and the files of the current one recorded in plan order. */
  ghost predicate RecordsOk(w: World) {
    w.job.Some? ==>
      && (forall j :: 0 <= j < |w.job.value.plans| && w.job.value.plans[j].id in w.mine ==>
            && w.job.value.plans[j].id in w.disks
            && RowSays(w.disks[w.job.value.plans[j].id], w.job.value.options, w.job.value.plans[j]))
      && InPlanOrder(w) && OrderedBefore(w.files, w.job.value.plans, w.job.value.index)
  }

  ghost predicate OrderedBefore(files: seq<FileRow>, plans: seq<DiscPlan>, index: nat) {
    forall j :: 0 <= j < index && j < |plans| ==> Recorded(files, plans[j].id) == plans[j].bucket.files
  }

  ghost predicate InPlanOrder(w: World) {
    HasCur(w) && w.commit != Off ==>
      && Unlisted(w.commit) <= |Cur(w).bucket.files|
      && Recorded(w.files, Cur(w).id) == Cur(w).bucket.files[..Unlisted(w.commit)]
  }

  lemma StepKeepsRecords(t: Tools, w: World, a: Action, now: World)
    requires Inv(t, w) && Act(t, w, a, now) && RecordsOk(w)
    ensures RecordsOk(now)
  {
    hide *;
    if a.InsertDisk? {
      InsertInserts(t, w, a.payload, now);
      InsertKeepsRecords(t, w, now);
    } else if a.Advance? {
      AdvanceAdvances(t, w, now);
      AdvanceKeepsRecords(w, now);
    } else if a.StartJob? {
      StartStarts(t, w, a, now);
      StartKeepsRecords(w, now, a.plans, a.options);
    } else if a.Fail? {
      FailFails(t, w, now);
      FailKeepsRecords(w, now);
    } else if a.Restart? {
      RestartRestarts(t, w, now);
      RestartKeepsRecords(w, now);
    } else if a.InsertFile? {
      InsertFileKeepsRecords(t, w, now);
    } else {
      MostStayInPlace(t, w, a, now);
      SameUnlistedAlways(t, w, a, now);
      SamePlaceRecords(w, now);
    }
  }

  lemma InsertKeepsRecords(t: Tools, w: World, now: World)
    requires Inv(t, w) && Inserts(t, w, now) && RecordsOk(w)
    ensures RecordsOk(now)
  {
    hide Inv;
    hide PlansOk;
    JobPart(t, w);
    RowsPart(t, w);
    PlanFacts(w.job.value.plans, w.job.value.options, w.base);
    NoneRecorded(w.files, w.disks, Cur(w).id);
  }

  lemma {:induction false} NoneRecorded(files: seq<FileRow>, disks: map<DiskId, DiskRow>, id: DiskId)
    requires forall i :: 0 <= i < |files| ==> files[i].disk in disks
    requires id !in disks
    ensures Recorded(files, id) == []
  {
    if files != [] {
      NoneRecorded(files[..|files| - 1], disks, id);
    }
  }

  lemma AdvanceKeepsRecords(w: World, now: World)
    requires Advances(w, now) && RecordsOk(w)
    ensures RecordsOk(now)
  {
    hide RowSays;
    hide Recorded;
    var files := Cur(w).bucket.files;
    assert files[..|files|] == files;
  }

  lemma StartKeepsRecords(w: World, now: World, plans: seq<DiscPlan>, opts: Options)
    requires Starts(w, now, plans, opts)
    ensures RecordsOk(now)
  {
  }

  lemma FailKeepsRecords(w: World, now: World)
    requires Fails(w, now) && RecordsOk(w)
    ensures RecordsOk(now)
  {
    hide RowSays;
  }

  lemma RestartKeepsRecords(w: World, now: World)
    requires Restarts(w, now)
    ensures RecordsOk(now)
  {
  }

  lemma InsertFileKeepsRecords(t: Tools, w: World, now: World)
    requires Inv(t, w) && Act(t, w, InsertFile, now) && RecordsOk(w)
    ensures RecordsOk(now)
  {
    hide Inv;
    hide PlansOk;
    hide RowSays;
    hide Act;
    JobPart(t, w);
    var k, row := InsertFileInserts(t, w, now);
    PlanFacts(w.job.value.plans, w.job.value.options, w.base);
    var files := Cur(w).bucket.files;
    forall id
      ensures Recorded(now.files, id) ==
              Recorded(w.files, id) + if row.disk == id then [FileInfo(row.path, row.size)] else []
    {
      assert now.files[..|now.files| - 1] == w.files;
    }
    assert files[..k + 1] == files[..k] + [files[k]];
    hide Recorded;
  }

  lemma SameUnlistedAlways(t: Tools, w: World, a: Action, now: World)
    requires Act(t, w, a, now)
    requires !a.StartJob? && !a.InsertDisk? && !a.Advance? && !a.Fail? && !a.Restart? && !a.InsertFile?
    ensures Unlisted(now.commit) == Unlisted(w.commit)
  {
    hide Act;
    if a.Consume? || a.RemoveStaged? || a.BeginCleanup? {
      SameUnlistedInCommit(t, w, a, now);
    } else {
      MostStayInPlace(t, w, a, now);
    }
  }

  lemma SamePlaceRecords(w: World, now: World)
    requires SamePlace(w, now) && now.files == w.files && Unlisted(now.commit) == Unlisted(w.commit) && RecordsOk(w)
    ensures RecordsOk(now)
  {
    hide RowSays;
    hide Recorded;
  }

  lemma NothingRecorded(w: World)
    requires Initial(w)
    ensures RecordsOk(w)
  {
  }

  /** In every run, from the first world to any other. */
  lemma {:induction false} RecordsStayOk(t: Tools, run: seq<World>, n: nat)
    requires Lawful(t) && Run(t, run) && Initial(run[0]) && n < |run|
    ensures Inv(t, run[n]) && RecordsOk(run[n])
  {
    hide *;
    InitialInv(t, run[0]);
    RunKeepsInv(t, run, n);
    if n == 0 {
      NothingRecorded(run[0]);
    } else {
      RecordsStayOk(t, run, n - 1);
      var a := RunStep(t, run, n - 1);
      StepKeepsRecords(t, run[n - 1], a, run[n]);
    }
  }

  /**
   * In any run, each disc the current job has recorded, grouped or not, has a row with the
   * job's media type, parity percentage and dry-run flag, the plan's role, and the plan's
   * group and slot if and only if it has a group; once it is written, with the hash of what
   * is on its medium, and, when it is finished, its files in plan order.
   */
  lemma RecordedAsPlanned(t: Tools, run: seq<World>, n: nat, j: nat)
    requires Lawful(t) && Run(t, run) && Initial(run[0]) && n < |run| && run[n].job.Some?
    requires j < |run[n].job.value.plans| && run[n].job.value.plans[j].id in run[n].mine
    ensures var w := run[n];
            var opts, plan := w.job.value.options, w.job.value.plans[j];
            && plan.id in w.disks
            && var row := w.disks[plan.id];
               && row.mediaType == opts.mediaType && row.parityPercent == opts.parityPercent
               && row.isDryRun == opts.dryRun && row.role == plan.role
               && (plan.group == "" ==> row.group == None && row.slot == None)
               && (plan.group != "" ==> row.group == Some(plan.group) && row.slot == Some(plan.slot))
               && (j < w.job.value.index || w.commit != Off ==>
                     plan.id in w.media && row.isoHash == t.hash(w.media[plan.id]))
               && (j < w.job.value.index ==> Recorded(w.files, plan.id) == plan.bucket.files)
  {
    hide Inv;
    hide Lawful;
    hide Run;
    hide Initial;
    RecordsStayOk(t, run, n);
    var w := run[n];
    CatalogIsPlanPrefix(t, w, w.job.value.plans[j].id);
    hide InPlanOrder;
    hide RowOf;
    hide ImageOk;
    if j < w.job.value.index || w.commit != Off {
      MineIsWritten(t, w, j);
      WrittenPlan(t, w, j);
      HashOfRow(w.disks[w.job.value.plans[j].id], w.job.value.options, w.job.value.plans[j],
                t.hash(w.media[w.job.value.plans[j].id]));
    }
  }

  lemma HashOfRow(row: DiskRow, opts: Options, plan: DiscPlan, hash: Hash)
    requires row == RowOf(opts, plan, hash)
    ensures row.isoHash == hash
  {
  }

  lemma MineIsWritten(t: Tools, w: World, j: nat)
    requires Inv(t, w) && w.job.Some? && j < |w.job.value.plans| && w.job.value.plans[j].id in w.mine
    requires j < w.job.value.index || w.commit != Off
    ensures j < WrittenTo(w)
  {
    hide Inv;
    hide Counted;
    MinePart(t, w);
  }


  // ---- The rows are final ------------------------------------------------------------------------

  /** No step changes or removes a row of the disks table. */
  lemma RowsAreFinal(t: Tools, w: World, a: Action, now: World, id: DiskId)
    requires Act(t, w, a, now) && id in w.disks
    ensures id in now.disks && now.disks[id] == w.disks[id]
  {
    hide Act;
    hide RowOf;
    if a.InsertDisk? {
      InsertInserts(t, w, a.payload, now);
    } else {
      SameDisks(t, w, a, now);
    }
  }

  // ---- Finished discs ----------------------------------------------------------------------------

  /** The step that finishes a disc leaves it self-described. */
  lemma FinishingDescribes(t: Tools, w: World, now: World)
    requires Lawful(t) && Inv(t, w) && RecordsOk(w) && Act(t, w, Advance, now)
    ensures HasCur(w) && SelfDescribed(t, now, Cur(w).id)
  {
    hide Inv;
    hide Lawful;
    hide Act;
    hide RowSays;
    hide Recorded;
    hide ImageOk;
    hide RowOf;
    hide TocSays;
    hide Agrees;
    AdvanceAdvances(t, w, now);
    var j, opts := w.job.value.index, w.job.value.options;
    WrittenPlan(t, w, j);
    FilesDiffer(t, w);
    CurIsRecorded(t, w);
    var files := Cur(w).bucket.files;
    assert files[..|files|] == files;
    var payload := ImageHasPayload(t, opts, w.job.value.plans, Cur(w), w.media);
    var toc := BuiltSays(t, w.media[Cur(w).id], Cur(w), opts, payload);
    RowAgrees(toc, opts, Cur(w), w.disks[Cur(w).id], t.hash(w.media[Cur(w).id]));
  }

  lemma CurIsRecorded(t: Tools, w: World)
    requires Inv(t, w) && HasCur(w) && w.commit != Off && RecordsOk(w)
    ensures Cur(w).id in w.disks && RowSays(w.disks[Cur(w).id], w.job.value.options, Cur(w))
  {
    hide Inv;
    hide Counted;
    hide RowSays;
    MinePart(t, w);
  }

  lemma RowAgrees(toc: Toc, opts: Options, plan: DiscPlan, row: DiskRow, hash: Hash)
    requires row == RowOf(opts, plan, hash) && RowSays(row, opts, plan)
    requires plan.role == Parity ==> plan.bucket.files == []
    requires toc.disk == plan.id && toc.mediaType == opts.mediaType && toc.parityPercent == opts.parityPercent
    requires toc.role == plan.role && toc.group == plan.group && toc.slot == plan.slot && toc.files == plan.bucket.files
    ensures Agrees(toc, plan.id, row, plan.bucket.files) && row.isoHash == hash
    ensures row.parityPercent == opts.parityPercent
  {
  }

  lemma ImageHasPayload(t: Tools, opts: Options, plans: seq<DiscPlan>, plan: DiscPlan, media: map<DiskId, Bytes>)
      returns (payload: Bytes)
    requires ImageOk(t, opts, plans, plan, media)
    ensures plan.id in media && Built(t, media[plan.id], plan, opts, payload)
  {
    hide Built;
    if plan.role == Data {
      payload :| Built(t, media[plan.id], plan, opts, payload);
    } else {
      payload := Xor(MediaImages(media, GroupData(plans, plan.group)), opts.capacity);
    }
  }

  /** A finished disc stays self-described, unless a dry run writes over its file. */
  lemma StepKeepsDescribed(t: Tools, w: World, a: Action, now: World, id: DiskId)
    requires Inv(t, w) && Act(t, w, a, now) && id in w.sealed && !DryHits(w, id) && SelfDescribed(t, w, id)
    ensures SelfDescribed(t, now, id)
  {
    hide Inv;
    hide Act;
    hide DryHits;
    SealedIsFinal(t, w, a, now, id);
    SealedRows(t, w, a, now, id);
    hide Recorded;
    hide TocSays;
    hide Agrees;
  }

  lemma SealedRows(t: Tools, w: World, a: Action, now: World, id: DiskId)
    requires Inv(t, w) && Act(t, w, a, now) && id in w.sealed
    ensures Recorded(now.files, id) == Recorded(w.files, id)
  {
    hide Inv;
    hide Act;
    if a.InsertFile? {
      var k, row := InsertFileInserts(t, w, now);
      SealedNotCurrent(t, w, id);
      assert now.files[..|now.files| - 1] == w.files;
    } else if a.InsertDisk? {
      InsertInserts(t, w, a.payload, now);
    } else if a.Advance? {
      AdvanceAdvances(t, w, now);
    } else if a.StartJob? {
      StartStarts(t, w, a, now);
    } else if a.Fail? {
      FailFails(t, w, now);
    } else if a.Restart? {
      RestartRestarts(t, w, now);
    } else {
      MostStayInPlace(t, w, a, now);
    }
  }

  lemma SealedNotCurrent(t: Tools, w: World, id: DiskId)
    requires Inv(t, w) && HasCur(w) && w.commit != Off && id in w.sealed
    ensures Cur(w).id != id
  {
    hide Inv;
    hide Counted;
    hide RowsBacked;
    hide OnDisc;
    MinePart(t, w);
    BackedPart(t, w);
  }

  /**
   * In any run, each finished disc, of whatever job, is described on itself as in the catalog:
   * its table of contents can be read and has the media type, parity percentage, role, group
   * and slot of its row, and lists exactly the files recorded for it, with their sizes, in
   * plan order, none if it is a parity disc; its par2 index is the one of its payload at that
   * percentage; and the row has the hash of what is on it. Only a dry run that writes over
   * the disc's own file can end that.
   */
  lemma {:induction false} FinishedIsDescribed(t: Tools, run: seq<World>, n: nat, id: DiskId)
    requires Lawful(t) && Run(t, run) && Initial(run[0]) && n < |run| && id in run[n].sealed
    requires forall l :: 0 <= l < n ==> !DryHits(run[l], id)
    ensures SelfDescribed(t, run[n], id)
  {
    hide *;
    if n == 0 {
      NothingFinished(run[0], id);
    } else {
      RecordsStayOk(t, run, n - 1);
      var a := RunStep(t, run, n - 1);
      if id in run[n - 1].sealed {
        FinishedIsDescribed(t, run, n - 1, id);
        StepKeepsDescribed(t, run[n - 1], a, run[n], id);
      } else {
        NewlyFinished(t, run[n - 1], a, run[n], id);
        FinishingDescribes(t, run[n - 1], run[n]);
      }
    }
  }

  lemma NothingFinished(w: World, id: DiskId)
    requires Initial(w)
    ensures id !in w.sealed
  {
  }

  lemma NewlyFinished(t: Tools, w: World, a: Action, now: World, id: DiskId)
    requires Act(t, w, a, now) && id in now.sealed && id !in w.sealed
    ensures a.Advance? && HasCur(w) && Cur(w).id == id
  {
    hide Act;
    if a.InsertDisk? {
      InsertInserts(t, w, a.payload, now);
    } else if a.Advance? {
      AdvanceAdvances(t, w, now);
    } else if a.StartJob? {
      StartStarts(t, w, a, now);
    } else if a.Fail? {
      FailFails(t, w, now);
    } else if a.Restart? {
      RestartRestarts(t, w, now);
    } else {
      MostStayInPlace(t, w, a, now);
    }
  }

  // ---- One write ---------------------------------------------------------------------------------

  /**
   * Which medium a write changes, whatever comes of the attempt: the current disc's own, if
   * its ID is free or its own; and if another disc has the ID, that disc's dry-run file if
   * both are dry runs, and otherwise no recorded one's.
   */
  lemma WriteChanges(t: Tools, w: World, data: Bytes, now: World)
    requires Inv(t, w) && Act(t, w, Action.WriteMedium(data), now)
    ensures HasCur(w) && now.disks == w.disks && now.files == w.files && now.staging == w.staging
    ensures var id, opts := Cur(w).id, w.job.value.options;
            && (id !in w.disks || id in w.mine ==> now.media == w.media[id := data])
            && (id in w.disks && id !in w.mine ==>
                  now.media == if opts.dryRun && w.disks[id].isDryRun then w.media[id := data] else w.media)
            && (forall other ::
                  other in now.overwritten <==>
                    || other in w.overwritten
                    || (!opts.dryRun && opts.filesystem && opts.target in w.mounted
                        && w.mounted[opts.target] == other && other in w.disks && !(other == id && other in w.mine)))
  {
    hide Inv;
    hide AllStaged;
    hide HasRoom;
    hide Without;
    WriteWrites(t, w, data, now);
    hide Act;
  }

  // ---- What one successful turn leaves ---------------------------------------------------------------

  /** The new row, and no other change to the disks table. */
  lemma BurnedRow(t: Tools, was: World, now: World)
    requires DiscBurned(t, was, now)
    ensures var plan, opts := Cur(was), was.job.value.options;
            && plan.id !in was.disks && plan.id in now.disks && plan.id in now.media
            && RowSays(now.disks[plan.id], opts, plan)
            && now.disks[plan.id].isoHash == t.hash(now.media[plan.id])
            && (forall id :: id != plan.id ==>
                  && (id in now.disks <==> id in was.disks) && (id in was.disks ==> now.disks[id] == was.disks[id])
                  && (id in now.media <==> id in was.media) && (id in was.media ==> now.media[id] == was.media[id]))
  {
    hide IsPayload;
    hide Built;
    hide RowsFor;
    hide SpoolAfter;
  }

  /** One row per file of the plan, in plan order, with hash and metadata; the files and their metadata are gone. */
  lemma BurnedFiles(t: Tools, was: World, now: World)
    requires DiscBurned(t, was, now)
    ensures var id, files, n := Cur(was).id, Cur(was).bucket.files, |was.files|;
            && |now.files| == n + |files| && now.files[..n] == was.files
            && (forall i :: 0 <= i < |files| ==>
                  && files[i].path in was.staging
                  && now.files[n + i] == FileRow(id, files[i].path, files[i].size, t.hash(was.staging[files[i].path]),
                                                 if files[i].path in was.metadata then was.metadata[files[i].path]
                                                 else Meta([], "")))
            && (forall path ::
                  path in now.staging <==> path in was.staging && forall f <- files :: f.path != path)
            && (forall path <- now.staging :: now.staging[path] == was.staging[path])
            && (forall path ::
                  path in now.metadata <==> path in was.metadata && forall f <- files :: f.path != path)
            && (forall path <- now.metadata :: now.metadata[path] == was.metadata[path])
  {
    hide IsPayload;
    hide Built;
    hide RowOf;
    hide SpoolAfter;
  }

  /**
   * What is on the medium: a table of contents that says what was planned, the payload and its
   * index. A data disc's payload is the archive of its files in plan order, compressed if the
   * job says so; a parity disc's is as long as a disc's capacity.
   */
  lemma BurnedMedium(t: Tools, was: World, now: World)
    requires Lawful(t) && DiscBurned(t, was, now)
    ensures var plan, opts := Cur(was), was.job.value.options;
            var image := now.media[plan.id];
            && (exists toc :: TocSays(t, image, plan.id, toc) && TocPlanned(toc, plan, opts))
            && (exists payload ::
                  && t.extract(image, TarName(plan.id)) == Some(payload)
                  && t.extract(image, Par2Name(plan.id)) == Some(t.par2(payload, opts.parityPercent))
                  && if plan.role == Parity then |payload| == opts.capacity
                     else IsArchive(t, plan.bucket.files, was.staging, opts.compress, payload))
  {
    hide Lawful;
    hide RowOf;
    hide RowsFor;
    hide SpoolAfter;
    hide Built;
    hide TocSays;
    hide Xor;
    var plan, opts := Cur(was), was.job.value.options;
    var payload :| IsPayload(t, was, plan, payload) && Built(t, now.media[plan.id], plan, opts, payload);
    var toc := BuiltSays(t, now.media[plan.id], plan, opts, payload);
    assert TocPlanned(toc, plan, opts);
    hide DiscBurned;
    hide TocPlanned;
    PayloadPlanned(t, was, payload);
    hide IsArchive;
  }

  /** The archive of these files, in this order, with their bytes in `staging`. */
  ghost predicate IsArchive(t: Tools, files: seq<FileInfo>, staging: map<string, Bytes>, compress: bool,
                            payload: Bytes) {
    exists ms: seq<Member> ::
      && |ms| == |files|
      && (forall i :: 0 <= i < |ms| ==>
            files[i].path in staging && ms[i] == Member(files[i].path, staging[files[i].path]))
      && payload == if compress then t.gzip(t.tar(ms)) else t.tar(ms)
  }

  lemma PayloadPlanned(t: Tools, was: World, payload: Bytes)
    requires HasCur(was) && IsPayload(t, was, Cur(was), payload)
    ensures var plan, opts := Cur(was), was.job.value.options;
            if plan.role == Parity then |payload| == opts.capacity
            else IsArchive(t, plan.bucket.files, was.staging, opts.compress, payload)
  {
    hide Xor;
    hide GroupData;
    var plan, opts := Cur(was), was.job.value.options;
    if plan.role == Data {
      var ms := MembersOf(plan.bucket.files, was.staging);
      assert payload == if opts.compress then t.gzip(t.tar(ms)) else t.tar(ms);
    }
  }

  ghost predicate TocPlanned(toc: Toc, plan: DiscPlan, opts: Options) {
    && toc.disk == plan.id && toc.mediaType == opts.mediaType && toc.parityPercent == opts.parityPercent
    && toc.compressed == opts.compress && toc.group == plan.group && toc.role == plan.role && toc.slot == plan.slot
    && toc.files == plan.bucket.files
  }

  /**
   * The target path: after a write to a file system, and only then, it holds the new disc; the
   * recorded disc that it held before is overwritten, and no other.
   */
  lemma BurnedTarget(t: Tools, was: World, now: World)
    requires DiscBurned(t, was, now)
    ensures var id, opts := Cur(was).id, was.job.value.options;
            && (forall target ::
                  target in now.mounted && now.mounted[target] == id
                  <==> !opts.dryRun && opts.filesystem && target == opts.target)
            && (forall target ::
                  target in now.mounted && now.mounted[target] != id
                  <==> target in was.mounted && was.mounted[target] != id
                       && (!opts.dryRun && opts.filesystem ==> target != opts.target))
            && (forall target <- now.mounted :: now.mounted[target] != id ==>
                now.mounted[target] == was.mounted[target])
            && (forall other ::
                  other in now.overwritten <==>
                    || other in was.overwritten
                    || (!opts.dryRun && opts.filesystem && opts.target in was.mounted
                        && was.mounted[opts.target] == other && other in was.disks))
  {
    hide IsPayload;
    hide Built;
    hide RowOf;
    hide RowsFor;
    hide SpoolAfter;
  }
}
