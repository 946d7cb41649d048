/** When each step may be taken, and how steps make a run. */
module BurnSteps {
  import opened Bytes
  import opened DiskIds
  import opened Plan
  import opened PlanProps
  import opened Tools
  import opened BurnWorld
  import opened BurnInv
  import opened BurnKeepData
  import opened BurnRuns

  /** `trace` is a run from an empty catalog to `w`, which keeps the invariant. */
  ghost predicate Reached(t: Tools, trace: seq<World>, w: World) {
    && Lawful(t) && Inv(t, w)
    && Run(t, trace) && Initial(trace[0]) && trace[|trace| - 1] == w
  }

  lemma FirstReached(t: Tools, w: World)
    requires Lawful(t) && Initial(w)
    ensures Reached(t, [w], w)
  {
    InitialInv(t, w);
  }

  lemma NextReached(t: Tools, trace: seq<World>, w: World, a: Action, now: World)
    requires Reached(t, trace, w) && Act(t, w, a, now)
    ensures Reached(t, trace + [now], now)
  {
    hide Act;
    hide Inv;
    hide Initial;
    hide Lawful;
    KeepsInv(t, w, a, now);
    assert Step(t, w, now);
    hide Step;
    var more := trace + [now];
    forall i, j | 0 <= i < j < |more| && j == i + 1
      ensures Step(t, more[i], more[j])
    {
      if j == |trace| {
        assert more[i] == trace[|trace| - 1];
      }
    }
  }

  lemma ReachedInv(t: Tools, trace: seq<World>, w: World)
    requires Reached(t, trace, w)
    ensures Lawful(t) && Inv(t, w)
  {
    hide Inv;
    hide Lawful;
  }

  lemma LastOfTrace(t: Tools, trace: seq<World>, w: World)
    requires Reached(t, trace, w)
    ensures |trace| > 0 && trace[|trace| - 1] == w
  {
    hide Inv;
    hide Lawful;
  }

  /**
   * Along such a run nothing that was ever staged is lost, unless the user takes it out of
   * staging or a disc that holds it is overwritten.
   */
  lemma NothingLost(t: Tools, trace: seq<World>, w: World, i: nat, path: string, data: Bytes)
    requires Reached(t, trace, w) && i < |trace| && Safe(t, trace[i], path, data)
    ensures trace[i].withdrawn <= w.withdrawn && trace[i].overwritten <= w.overwritten
    ensures Safe(t, w, path, data) || TakenOut(w.withdrawn, |trace[i].withdrawn|, path, data)
         || OverwrittenSince(t, trace, i, |trace| - 1, path, data)
  {
    hide Run;
    hide Inv;
    hide Safe;
    hide Lawful;
    hide TakenOut;
    hide OverwrittenSince;
    InitialInv(t, trace[0]);
    FilesAreConserved(t, trace, i, |trace| - 1, path, data);
  }

  // ---- The user -----------------------------------------------------------------------------

  lemma WithdrawnIs(was: map<string, Bytes>, now: map<string, Bytes>)
    ensures var taken := Withdrawn(was, now);
            && (forall path :: path in taken <==> path in was && !(path in now && now[path] == was[path]))
            && (forall path <- taken :: taken[path] == was[path])
  {
  }

  lemma MayEditStaging(t: Tools, w: World, staging: map<string, Bytes>, now: World)
    requires SparesPlanned(w, staging)
    requires now == w.(staging := staging, withdrawn := w.withdrawn + [Withdrawn(w.staging, staging)])
    ensures Act(t, w, EditStaging(staging), now)
  {
    hide SparesPlanned;
    hide Withdrawn;
  }

  lemma MayTagFile(t: Tools, w: World, path: string, meta: Meta, now: World)
    requires now == w.(metadata := w.metadata[path := meta])
    ensures Act(t, w, TagFile(path, meta), now)
  {
  }

  lemma MaySwapMedium(t: Tools, w: World, target: string, now: World)
    requires now == w.(mounted := w.mounted - {target})
    ensures Act(t, w, Action.SwapMedium(target), now)
  {
  }

  lemma MayMountMedium(t: Tools, w: World, target: string, id: DiskId, now: World)
    requires id in w.disks && id !in w.overwritten && now == w.(mounted := Without(w.mounted, id)[target := id])
    ensures Act(t, w, Action.MountMedium(target, id), now)
  {
    hide Without;
  }

  // ---- Start, Retry, ContinueNextDisc ----------------------------------------------------------

  lemma MayRegisterGroups(t: Tools, w: World, groups: set<string>, now: World)
    requires !Busy(w.job) && w.groups <= groups && now == w.(groups := groups)
    ensures Act(t, w, RegisterGroups(groups), now)
  {
  }

  /** What Start needs of a plan list before it makes it the job. */
  ghost predicate MayBegin(w: World, options: Options, plans: seq<DiscPlan>, groups: set<string>) {
    && !Busy(w.job) && plans != []
    && PlansOk(plans, options, Count(w, options.prefix)) && PlanCovers(plans, w.staging)
    && (forall j :: 0 <= j < |plans| && plans[j].group != "" ==>
          plans[j].group !in w.groups && plans[j].group in groups)
    && w.groups <= groups
  }

  /** A new job at its first disc, with fresh bookkeeping. */
  function Begun(w: World, options: Options, plans: seq<DiscPlan>, groups: set<string>): World {
    w.(job := Some(Job(options, plans, 0, AwaitingDisc, false)), groups := groups,
       base := Count(w, options.prefix), mine := {}, commit := Off, strays := false, jobs := w.jobs + 1)
  }

  lemma MayStart(t: Tools, w: World, options: Options, plans: seq<DiscPlan>, groups: set<string>, now: World)
    requires MayBegin(w, options, plans, groups) && now == Begun(w, options, plans, groups)
    ensures Act(t, w, StartJob(options, plans, groups), now)
  {
    hide PlansOk;
    hide PlanCovers;
    hide Counted;
  }

  lemma MayClaim(t: Tools, w: World, now: World)
    requires w.job.Some? && w.job.value.state == AwaitingDisc
    requires now == SetJob(w, w.job.value.(state := Packing))
    ensures Act(t, w, Claim, now)
  {
  }

  lemma MayRetry(t: Tools, w: World, now: World)
    requires w.job.Some? && w.job.value.state == Failed
    requires now == SetJob(w, w.job.value.(state := AwaitingDisc, hasErr := false))
    ensures Act(t, w, Action.Retry, now)
  {
  }

  lemma DropsOnlyInCommit(w: World)
    requires HasCur(w)
    ensures w.commit == Off ==> w.lost + Dropped(w) == w.lost
  {
  }

  lemma MayFail(t: Tools, w: World, now: World)
    requires AtWork(w) && w.commit != Cleaning
    requires now == w.(job := Some(w.job.value.(state := Failed, hasErr := true)), commit := Off,
                       lost := w.lost + Dropped(w))
    ensures Act(t, w, Fail, now)
  {
  }

  lemma MayRestart(t: Tools, w: World, now: World)
    requires now == w.(job := None, mine := {}, commit := Off, strays := false, lost := w.lost + Dropped(w))
    ensures Act(t, w, Action.Restart, now)
  {
    hide Dropped;
  }

  lemma MayAdvance(t: Tools, w: World, now: World)
    requires AtWork(w) && Completed(w)
    requires var job := w.job.value;
             now == w.(job := Some(job.(index := job.index + 1,
                                        state := if job.index + 1 >= |job.plans| then Done else AwaitingDisc)),
                       commit := Off, sealed := w.sealed + {Cur(w).id})
    ensures Act(t, w, Advance, now)
  {
    hide Completed;
  }

  // ---- runDisc ----------------------------------------------------------------------------------

  lemma MaySetState(t: Tools, w: World, s: State, now: World)
    requires AtWork(w) && w.commit == Off && LegalMove(w.job.value.state, s)
    requires now == SetJob(w, w.job.value.(state := s))
    ensures Act(t, w, Action.SetState(s), now)
  {
  }

  lemma MayTouch(t: Tools, w: World, spool: map<string, Node>, now: World)
    requires AtWork(w) && w.commit == Off && OnlyOwnEntries(w.spool, spool, Cur(w).id)
    requires now == w.(spool := spool)
    ensures Act(t, w, TouchSpool(spool), now)
  {
    hide OnlyOwnEntries;
  }

  lemma MayWrite(t: Tools, w: World, data: Bytes, now: World)
    requires AtWork(w) && w.commit == Off && AllStaged(Cur(w).bucket.files, w.staging)
    requires HasRoom(w.job.value.options, data) && now == Written(w, data)
    ensures Act(t, w, Action.WriteMedium(data), now)
  {
    hide AllStaged;
    hide HasRoom;
    hide Written;
  }

  // ---- commitDisc and cleanup ---------------------------------------------------------------------

  lemma MayInsertDisk(t: Tools, w: World, payload: Bytes, now: World)
    requires AtWork(w) && w.commit == Off && Committable(t, w, payload)
    requires now == w.(disks := w.disks[Cur(w).id := RowOf(w.job.value.options, Cur(w), t.hash(w.media[Cur(w).id]))],
                       mine := w.mine + {Cur(w).id}, commit := At(0))
    ensures Act(t, w, Action.InsertDisk(payload), now)
  {
    hide IsPayload;
    hide Built;
    hide RowOf;
  }

  lemma MayConsume(t: Tools, w: World, k: nat, now: World)
    requires AtWork(w) && k < |Cur(w).bucket.files| && w.commit == At(k)
    requires var path := Cur(w).bucket.files[k].path;
             now == w.(metadata := w.metadata - {path},
                       commit := Consumed(k, if path in w.metadata then Some(w.metadata[path]) else None))
    ensures Act(t, w, Consume, now)
  {
  }

  lemma MayInsertFile(t: Tools, w: World, k: nat, now: World)
    requires AtWork(w) && k < |Cur(w).bucket.files| && w.commit.Consumed? && w.commit.k == k
    requires Cur(w).bucket.files[k].path in w.staging
    requires var f := Cur(w).bucket.files[k];
             now == w.(files := w.files + [FileRow(Cur(w).id, f.path, f.size, t.hash(w.staging[f.path]),
                                                   if w.commit.held.Some? then w.commit.held.value else Meta([], ""))],
                       commit := Inserted(k))
    ensures Act(t, w, Action.InsertFile, now)
  {
  }

  lemma MayRemoveStaged(t: Tools, w: World, k: nat, now: World)
    requires AtWork(w) && k < |Cur(w).bucket.files| && w.commit == Inserted(k)
    requires now == w.(staging := w.staging - {Cur(w).bucket.files[k].path}, commit := At(k + 1))
    ensures Act(t, w, RemoveStaged, now)
  {
  }

  lemma MayBeginCleanup(t: Tools, w: World, now: World)
    requires AtWork(w) && Cur(w).role == Parity && w.commit == At(0) && now == w.(commit := Cleaning)
    ensures Act(t, w, BeginCleanup, now)
  {
  }

  lemma MayRemoveIso(t: Tools, w: World, id: DiskId, now: World)
    requires AtWork(w) && Cur(w).role == Parity && w.commit == Cleaning
    requires id in GroupData(w.job.value.plans, Cur(w).group) && now == w.(spool := w.spool - {IsoName(id)})
    ensures Act(t, w, Action.RemoveIso(id), now)
  {
    hide IsoName;
    hide GroupData;
  }

  lemma MayLeaveIso(t: Tools, w: World, now: World)
    requires AtWork(w) && Cur(w).role == Parity && w.commit == Cleaning && now == w.(strays := true)
    ensures Act(t, w, LeaveIso, now)
  {
  }
}
