/** What the invariant says about the catalog, the spool and the parity payload, in every reachable world. */
module BurnFacts {
  import opened XorDisk
  import opened DiskIds
  import opened Plan
  import opened PlanProps
  import opened Tools
  import opened BurnWorld
  import opened BurnInv
  import opened BurnKeep
  import opened BurnKeepData

  // ---- The catalog prefix ------------------------------------------------------------

  /** Recording the current disc failed half-way: its row exists, and no commit is under way. */
  ghost predicate Stuck(w: World) {
    HasCur(w) && w.commit == Off && Cur(w).id in w.mine
  }

  /**
   * The discs this job has in the catalog are exactly those of the plans before the
   * current index, plus the current one while its commit is under way or failed midway.
   */
  lemma CatalogIsPlanPrefix(t: Tools, w: World, id: DiskId)
    requires Inv(t, w) && w.job.Some?
    ensures var plans := w.job.value.plans;
            id in w.mine <==>
              || (exists j :: 0 <= j < w.job.value.index && j < |plans| && plans[j].id == id)
              || (HasCur(w) && id == Cur(w).id && (w.commit != Off || Stuck(w)))
    ensures id in w.mine ==> id in w.disks
  {
    hide Inv;
    hide Counted;
    MinePart(t, w);
    var plans := w.job.value.plans;
    if id in w.mine {
      var j :| 0 <= j < |plans| && plans[j].id == id;
      assert j <= w.job.value.index;
    }
  }

  /** The disc shown by the status page: the current one, or the last one of a finished job. */
  function ViewIndex(job: Job): int {
    if job.index >= |job.plans| then |job.plans| - 1 else job.index
  }

  lemma StatusIndexInRange(t: Tools, w: World)
    requires Inv(t, w) && w.job.Some?
    ensures 0 <= ViewIndex(w.job.value) < |w.job.value.plans|
    ensures ViewIndex(w.job.value) ==
            if w.job.value.state == Done then |w.job.value.plans| - 1 else w.job.value.index
    ensures w.job.value.index == |w.job.value.plans| <==> w.job.value.state == Done
    ensures w.job.value.hasErr <==> w.job.value.state == Failed
    ensures w.job.value.state != Done ==> HasCur(w) && w.job.value.plans[ViewIndex(w.job.value)] == Cur(w)
  {
    hide Inv;
    hide PlansOk;
    JobPart(t, w);
  }

  // ---- A finished job ----------------------------------------------------------------------

  /** One row of this job's discs names `path`, and only one. */
  ghost predicate RecordedOnce(files: seq<FileRow>, mine: set<DiskId>, id: DiskId, path: string) {
    exists i ::
      && 0 <= i < |files| && files[i].disk == id && files[i].path == path
      && forall k :: 0 <= k < |files| && files[k].disk in mine && files[k].path == path ==> k == i
  }

  /** When a job is DONE, every planned file is catalogued exactly once by it, on its own disc. */
  lemma DoneRecordsEveryFileOnce(t: Tools, w: World, j: nat, a: nat)
    requires Inv(t, w) && w.job.Some? && w.job.value.state == Done
    requires j < |w.job.value.plans| && a < |w.job.value.plans[j].bucket.files|
    ensures RecordedOnce(w.files, w.mine, w.job.value.plans[j].id, w.job.value.plans[j].bucket.files[a].path)
  {
    hide Inv;
    JobPart(t, w);
    MinePart(t, w);
    RowsPart(t, w);
    var plans := w.job.value.plans;
    var id, path := plans[j].id, plans[j].bucket.files[a].path;
    assert DistinctFiles(plans);
    hide PlansOk;
    assert Listed(w.files, id, path);
    var i :| 0 <= i < |w.files| && w.files[i].disk == id && w.files[i].path == path;
    forall k | 0 <= k < |w.files| && w.files[k].disk in w.mine && w.files[k].path == path
      ensures k == i
    {
      var q :| 0 <= q < |plans| && plans[q].id == w.files[k].disk;
      assert OnPlan(plans[q], w.files[k].path);
      var b :| 0 <= b < |plans[q].bucket.files| && plans[q].bucket.files[b].path == path;
      assert q == j && w.files[k].disk == w.files[i].disk;
    }
  }

  /** In no reachable world has a file of a disc two rows, or a row a disc that is not a catalogued data disc. */
  lemma RowsAreKeyed(t: Tools, w: World, i: nat, k: nat)
    requires Inv(t, w) && i < k < |w.files|
    ensures w.files[i].disk != w.files[k].disk || w.files[i].path != w.files[k].path
    ensures w.files[i].disk in w.disks && w.disks[w.files[i].disk].role == Data
  {
    hide Inv;
    RowsPart(t, w);
  }

  /** The step that finishes a job leaves none of its files in staging. */
  lemma DoneClearsStaging(t: Tools, w: World, now: World, path: string)
    requires Inv(t, w) && Act(t, w, Advance, now) && now.job.value.state == Done
    requires OnSomePlan(now.job.value.plans, path)
    ensures path !in now.staging
  {
    AdvanceAdvances(t, w, now);
    hide Inv;
    hide Act;
    hide PlansOk;
    JobPart(t, w);
    StagedPart(t, w);
    var plans := w.job.value.plans;
    var j, a :| 0 <= j < |plans| && 0 <= a < |plans[j].bucket.files| && plans[j].bucket.files[a].path == path;
    assert j <= w.job.value.index;
  }

  // ---- Parity operands ----------------------------------------------------------------------

  /**
   * Whenever a parity disc is being worked on, at any attempt, spool holds for every data
   * disc of its group exactly the image that this job wrote and recorded, so the payload is
   * the XOR of exactly those images.
   */
  lemma ParityOperands(t: Tools, w: World)
    requires Inv(t, w) && HasCur(w) && Cur(w).role == Parity && w.commit == Off
    ensures var ids := GroupData(w.job.value.plans, Cur(w).group);
            && ids != [] && Readable(w.spool, ids) && OnMedia(w.media, ids)
            && SpoolImages(w.spool, ids) == MediaImages(w.media, ids)
            && forall i :: 0 <= i < |ids| ==>
                 ids[i] in w.mine && ids[i] in w.disks && w.disks[ids[i]].isoHash == t.hash(w.media[ids[i]])
    ensures forall payload ::
              IsPayload(t, w, Cur(w), payload)
              <==> payload == Xor(MediaImages(w.media, GroupData(w.job.value.plans, Cur(w).group)),
                                  w.job.value.options.capacity)
  {
    hide Inv;
    hide Xor;
    hide IsoName;
    hide PlansOk;
    hide GroupData;
    JobPart(t, w);
    var job := w.job.value;
    var ids := GroupData(job.plans, Cur(w).group);
    ParityGroupNotEmpty(job.plans, job.options, w.base, job.index);
    forall i | 0 <= i < |ids|
      ensures ids[i] in w.media && IsoName(ids[i]) in w.spool && w.spool[IsoName(ids[i])] == File(w.media[ids[i]])
      ensures ids[i] in w.mine && ids[i] in w.disks && w.disks[ids[i]].isoHash == t.hash(w.media[ids[i]])
    {
      OperandInSpool(t, w, ids[i]);
    }
    assert SpoolImages(w.spool, ids) == MediaImages(w.media, ids);
  }

  lemma OperandInSpool(t: Tools, w: World, id: DiskId)
    requires Inv(t, w) && HasCur(w) && w.commit == Off && Cur(w).role == Parity
    requires id in GroupData(w.job.value.plans, Cur(w).group)
    ensures id in w.media && IsoName(id) in w.spool && w.spool[IsoName(id)] == File(w.media[id])
    ensures id in w.mine && id in w.disks && w.disks[id].isoHash == t.hash(w.media[id])
  {
    hide Inv;
    hide IsoName;
    hide GroupData;
    hide Counted;
    JobPart(t, w);
    MinePart(t, w);
    DisksPart(t, w);
    SpoolPart(t, w);
    hide NumbersOk;
    hide GroupsKnown;
    hide Foreign;
    var job := w.job.value;
    GroupDataEarlier(job.plans, job.options, w.base, job.index, id);
    assert PlanOk(Cur(w), job.options, w.base, job.index, |job.plans|);
    hide PlansOk;
  }

  /** A parity disc follows a data disc of its group. */
  lemma ParityGroupNotEmpty(plans: seq<DiscPlan>, opts: Options, base: nat, j: nat)
    requires PlansOk(plans, opts, base) && j < |plans| && plans[j].role == Parity
    ensures GroupData(plans, plans[j].group) != []
  {
    assert plans[0].role == Data;
    assert Follows(plans, j);
    GroupDataIn(plans, plans[j].group, plans[j - 1].id);
  }

  // ---- The spool bound -----------------------------------------------------------------------

  /** The positions of this job's data discs begun so far whose image lies in spool. */
  function SpooledDiscs(w: World): set<nat>
    requires w.job.Some?
  {
    var plans := w.job.value.plans;
    set j: nat | j < |plans| && j <= w.job.value.index && plans[j].role == Data && IsoName(plans[j].id) in w.spool
  }

  lemma {:induction false} InjectionFits(s: set<nat>, f: nat --> nat, n: nat)
    requires forall x <- s :: f.requires(x) && f(x) < n
    requires forall x, y :: x in s && y in s && x != y ==> f(x) != f(y)
    ensures |s| <= n
  {
    if n > 0 {
      if x :| x in s && f(x) == n - 1 {
        InjectionFits(s - {x}, f, n - 1);
      } else {
        InjectionFits(s, f, n - 1);
      }
    } else {
      assert s == {};
    }
  }

  /**
   * In a cross-parity job, unless removing a data image failed, the images lying in spool
   * all belong to the group being burned, so there are never more than a group's worth of
   * them, however many groups the job has.
   */
  lemma SpoolHoldsOneGroup(t: Tools, w: World)
    requires Inv(t, w) && w.job.Some? && w.job.value.options.crossParity && !w.strays
    ensures forall j <- SpooledDiscs(w) :: HasCur(w) && w.job.value.plans[j].group == Cur(w).group
    ensures |SpooledDiscs(w)| <=
            if w.job.value.options.groupSize <= 1 then 10 else w.job.value.options.groupSize
  {
    hide Inv;
    hide IsoName;
    JobPart(t, w);
    BoundPart(t, w);
    var job := w.job.value;
    var plans := job.plans;
    forall j | j in SpooledDiscs(w)
      ensures HasCur(w) && plans[j].group == Cur(w).group && plans[j].slot < GroupSize(job.options)
      ensures plans[j].group != ""
    {
      assert PlanOk(plans[j], job.options, w.base, j, |plans|);
    }
    forall i, j | i in SpooledDiscs(w) && j in SpooledDiscs(w) && i < j
      ensures plans[i].slot != plans[j].slot
    {
      assert Apart(plans[i], plans[j]);
    }
    InjectionFits(SpooledDiscs(w), (j: nat) requires j < |plans| => plans[j].slot, GroupSize(job.options));
  }
}
