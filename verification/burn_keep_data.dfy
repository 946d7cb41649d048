/** Every step keeps the invariant: the parts about staging, spool, images and recorded files. */
module BurnKeepData {
  import opened Bytes
  import opened XorDisk
  import opened DiskIds
  import opened Plan
  import opened PlanProps
  import opened Tools
  import opened BurnWorld
  import opened BurnInv
  import opened BurnKeep

  // ---- Staging -------------------------------------------------------------------------------

  lemma KeepsStaged(t: Tools, w: World, a: Action, now: World)
    requires JobOk(w) && MineOk(w) && StagedOk(w) && Act(t, w, a, now)
    ensures StagedOk(now)
  {
    hide *;
    if a.InsertDisk? {
      InsertInserts(t, w, a.payload, now);
      InsertKeepsStaged(t, w, now);
    } else if a.RemoveStaged? {
      RemoveKeepsStaged(t, w, now);
    } else if a.Advance? {
      AdvanceAdvances(t, w, now);
      AdvanceKeepsStaged(w, now);
    } else if a.EditStaging? {
      EditEdits(t, w, a.staging, now);
      EditKeepsStaged(w, now);
    } else if a.StartJob? {
      StartStarts(t, w, a, now);
      StartKeepsStaged(w, now, a.plans, a.options);
    } else if a.Fail? {
      FailFails(t, w, now);
      FailKeepsStaged(w, now);
    } else if a.Restart? {
      RestartRestarts(t, w, now);
      RestartKeepsStaged(w, now);
    } else {
      MostStayInPlace(t, w, a, now);
      SamePending(t, w, a, now);
      SamePlaceStaged(w, now);
    }
  }

  lemma InsertKeepsStaged(t: Tools, w: World, now: World)
    requires JobOk(w) && MineOk(w) && StagedOk(w) && Inserts(t, w, now)
    ensures StagedOk(now)
  {
    hide PlansOk;
    hide RowOf;
    assert Cur(w).id !in w.mine by {
      hide StagedFrom;
    }
    hide Placed;
  }

  lemma AdvanceKeepsStaged(w: World, now: World)
    requires JobOk(w) && MineOk(w) && StagedOk(w) && Advances(w, now)
    ensures StagedOk(now)
  {
    hide PlansOk;
    hide StagedFrom;
    AdvanceStaged(w.job.value.plans, w.job.value.index, |Cur(w).bucket.files|, w.staging);
  }

  lemma StartKeepsStaged(w: World, now: World, plans: seq<DiscPlan>, opts: Options)
    requires Starts(w, now, plans, opts) && PlanCovers(plans, w.staging)
    ensures StagedOk(now)
  {
    hide OnSomePlan;
    hide Counted;
  }

  lemma FailKeepsStaged(w: World, now: World)
    requires JobOk(w) && StagedOk(w) && Fails(w, now)
    ensures StagedOk(now)
  {
    hide PlansOk;
  }

  lemma RestartKeepsStaged(w: World, now: World)
    requires Restarts(w, now)
    ensures StagedOk(now)
  {
  }

  lemma SamePlaceStaged(w: World, now: World)
    requires StagedOk(w) && SamePlace(w, now) && now.staging == w.staging
    requires Pending(now.commit) == Pending(w.commit)
    requires w.job.Some? && now.job.Some? && now.job.value.state != Done ==> w.job.value.state != Done
    ensures StagedOk(now)
  {
    hide StagedFrom;
  }

  lemma SamePending(t: Tools, w: World, a: Action, now: World)
    requires Act(t, w, a, now) && !a.StartJob? && !a.InsertDisk? && !a.Advance? && !a.Fail? && !a.Restart?
    requires !a.RemoveStaged? && !a.EditStaging?
    ensures Pending(now.commit) == Pending(w.commit)
    ensures w.job.Some? && now.job.Some? && now.job.value.state != Done ==> w.job.value.state != Done
  {
    hide *;
    if a.Claim? || a.SetState? || a.Retry? {
      MovesState(t, w, a, now);
      SameCommit(w, now);
    } else {
      MostStayInPlace(t, w, a, now);
      if a.Consume? || a.InsertFile? || a.BeginCleanup? {
        PendingInCommit(t, w, a, now);
      }
    }
  }

  lemma SameCommit(w: World, now: World)
    requires w.job.Some? && now.job.Some?
    requires now == SetJob(w, w.job.value.(state := now.job.value.state, hasErr := now.job.value.hasErr))
    ensures now.commit == w.commit
  {
  }

  lemma PendingInCommit(t: Tools, w: World, a: Action, now: World)
    requires Act(t, w, a, now) && (a.Consume? || a.InsertFile? || a.BeginCleanup?)
    ensures Pending(now.commit) == Pending(w.commit)
  {
  }

  lemma AdvanceStaged(plans: seq<DiscPlan>, index: nat, n: nat, staging: map<string, Bytes>)
    requires index < |plans| && n == |plans[index].bucket.files|
    requires StagedFrom(plans, index, true, true, n, staging) || StagedFrom(plans, index, false, true, n, staging)
    ensures StagedFrom(plans, index + 1, false, false, 0, staging)
  {
  }

  lemma EditKeepsStaged(w: World, now: World)
    requires JobOk(w) && StagedOk(w) && Edits(w, now)
    ensures StagedOk(now)
  {
    hide PlansOk;
    if w.job.Some? && w.job.value.state != Done {
      var plans := w.job.value.plans;
      forall j, i | 0 <= j < |plans| && 0 <= i < |plans[j].bucket.files|
        ensures plans[j].bucket.files[i].path in now.staging <==> plans[j].bucket.files[i].path in w.staging
        ensures plans[j].bucket.files[i].path in w.staging ==>
                  now.staging[plans[j].bucket.files[i].path] == w.staging[plans[j].bucket.files[i].path]
      {
        assert IsPlanned(w, plans[j].bucket.files[i].path);
      }
      hide IsPlanned;
    }
  }

  /** The effect of removing file `k` of the current disc from staging. */
  ghost predicate Removes(w: World, now: World, k: nat) {
    && HasCur(w) && k < |Cur(w).bucket.files| && w.commit == Inserted(k) && now.commit == At(k + 1)
    && now.job == w.job && now.mine == w.mine && now.disks == w.disks && now.sealed == w.sealed
    && now.media == w.media && now.overwritten == w.overwritten && now.files == w.files
    && now.staging == w.staging - {Cur(w).bucket.files[k].path}
  }

  lemma RemoveStagedRemoves(t: Tools, w: World, now: World) returns (k: nat)
    requires Act(t, w, RemoveStaged, now)
    ensures Removes(w, now, k)
  {
    k := w.commit.k;
  }

  lemma RemoveKeepsStaged(t: Tools, w: World, now: World)
    requires JobOk(w) && MineOk(w) && StagedOk(w) && Act(t, w, RemoveStaged, now)
    ensures StagedOk(now)
  {
    var k := RemoveStagedRemoves(t, w, now);
    hide Act;
    assert DistinctFiles(w.job.value.plans);
    hide PlansOk;
    assert Cur(w).id in w.mine;
    hide Placed;
    RemoveStagedFrom(w.job.value.plans, w.job.value.index, Cur(w).id in w.mine, k, w.staging);
    hide StagedFrom;
  }

  lemma RemoveStagedFrom(plans: seq<DiscPlan>, index: nat, inserted: bool, k: nat, staging: map<string, Bytes>)
    requires index < |plans| && k < |plans[index].bucket.files| && DistinctFiles(plans)
    requires inserted && StagedFrom(plans, index, inserted, true, k, staging)
    ensures StagedFrom(plans, index, inserted, true, k + 1, staging - {plans[index].bucket.files[k].path})
  {
    var path := plans[index].bucket.files[k].path;
    forall j, a | 0 <= j < |plans| && 0 <= a < |plans[j].bucket.files|
      ensures plans[j].bucket.files[a].path == path <==> j == index && a == k
    {
    }
  }

  // ---- Spool ---------------------------------------------------------------------------------

  lemma KeepsSpool(t: Tools, w: World, a: Action, now: World)
    requires JobOk(w) && SpoolOk(w) && Act(t, w, a, now)
    ensures SpoolOk(now)
  {
    hide *;
    if a.TouchSpool? {
      TouchKeepsSpool(t, w, a.spool, now);
    } else if a.WriteMedium? {
      WriteKeepsSpool(t, w, a.data, now);
    } else if a.InsertDisk? {
      InsertKeepsSpool(t, w, a.payload, now);
    } else if a.Advance? {
      AdvanceAdvances(t, w, now);
      AdvanceKeepsSpool(w, now);
    } else if a.StartJob? {
      StartStarts(t, w, a, now);
      StartKeepsSpool(w, now, a.plans, a.options);
    } else if a.Fail? {
      FailFails(t, w, now);
      FailKeepsSpool(w, now);
    } else if a.Restart? {
      RestartRestarts(t, w, now);
      RestartKeepsSpool(w, now);
    } else {
      MostStayInPlace(t, w, a, now);
      OnlyCleanupRemoves(t, w, a, now);
      SamePlaceSpool(w, now);
    }
  }

  lemma StartKeepsSpool(w: World, now: World, plans: seq<DiscPlan>, opts: Options)
    requires Starts(w, now, plans, opts)
    ensures SpoolOk(now)
  {
    hide Counted;
  }

  lemma FailKeepsSpool(w: World, now: World)
    requires JobOk(w) && SpoolOk(w) && Fails(w, now)
    ensures SpoolOk(now)
  {
    hide PlansOk;
  }

  lemma RestartKeepsSpool(w: World, now: World)
    requires Restarts(w, now)
    ensures SpoolOk(now)
  {
  }

  lemma SamePlaceSpool(w: World, now: World)
    requires SpoolOk(w) && SamePlace(w, now) && now.media == w.media
    requires now.spool == w.spool || w.commit == Cleaning
    requires w.commit == Cleaning ==> now.commit == Cleaning
    ensures SpoolOk(now)
  {
    hide Kept;
  }

  lemma OnlyCleanupRemoves(t: Tools, w: World, a: Action, now: World)
    requires Act(t, w, a, now) && !a.StartJob? && !a.InsertDisk? && !a.Advance? && !a.Fail? && !a.Restart?
    ensures a.RemoveIso? ==> w.commit == Cleaning && forall p <- now.spool :: p in w.spool
    ensures a.LeaveIso? ==> now.strays
    ensures w.commit == Cleaning ==> now.commit == Cleaning
  {
    if a.RemoveIso? || a.LeaveIso? {
      hide OwnNames;
      hide GroupData;
      hide IsoName;
    } else if a.Consume? || a.InsertFile? || a.RemoveStaged? || a.BeginCleanup? {
      NotWhileCleaning(t, w, a, now);
      hide Act;
    } else {
      hide Act;
      MostStayInPlace(t, w, a, now);
    }
  }

  lemma NotWhileCleaning(t: Tools, w: World, a: Action, now: World)
    requires Act(t, w, a, now) && (a.Consume? || a.InsertFile? || a.RemoveStaged? || a.BeginCleanup?)
    ensures w.commit != Cleaning
  {
  }

  lemma TouchKeepsSpool(t: Tools, w: World, spool: map<string, Node>, now: World)
    requires JobOk(w) && SpoolOk(w) && Act(t, w, TouchSpool(spool), now)
    ensures SpoolOk(now)
  {
    hide PlansOk;
    Touches(t, w, spool, now);
    hide Act;
    var job := w.job.value;
    PlanFacts(job.plans, job.options, w.base);
    if Cur(w).group != "" {
      forall j | 0 <= j < job.index
        ensures IsoName(job.plans[j].id) in w.spool ==>
                  && IsoName(job.plans[j].id) in now.spool
                  && now.spool[IsoName(job.plans[j].id)] == w.spool[IsoName(job.plans[j].id)]
      {
        OtherDiscsIso(w.spool, spool, Cur(w).id, job.plans[j].id);
      }
      hide OnlyOwnEntries;
      hide IsoName;
      assert Kept(job.plans, job.index, Cur(w).group, now.spool, now.media);
    }
  }

  lemma WriteKeepsSpool(t: Tools, w: World, data: Bytes, now: World)
    requires JobOk(w) && SpoolOk(w) && Act(t, w, WriteMedium(data), now)
    ensures SpoolOk(now)
  {
    hide PlansOk;
    hide AllStaged;
    WriteWrites(t, w, data, now);
    hide Act;
    PlanFacts(w.job.value.plans, w.job.value.options, w.base);
  }

  lemma InsertKeepsSpool(t: Tools, w: World, payload: Bytes, now: World)
    requires JobOk(w) && SpoolOk(w) && Act(t, w, InsertDisk(payload), now)
    ensures SpoolOk(now)
  {
    hide Act;
    hide PlansOk;
    hide IsoName;
    ImageInSpool(t, w, payload, now);
    InsertInserts(t, w, payload, now);
  }

  lemma ImageInSpool(t: Tools, w: World, payload: Bytes, now: World)
    requires Act(t, w, InsertDisk(payload), now)
    ensures HasCur(w) && Cur(w).id in w.media
    ensures IsoName(Cur(w).id) in w.spool && w.spool[IsoName(Cur(w).id)] == File(w.media[Cur(w).id])
  {
    hide IsPayload;
    hide Built;
    hide RowOf;
    hide IsoName;
  }

  lemma AdvanceKeepsSpool(w: World, now: World)
    requires JobOk(w) && SpoolOk(w) && Advances(w, now)
    ensures SpoolOk(now)
  {
    hide PlansOk;
    hide Kept;
    hide IsoName;
    var job := w.job.value;
    if HasCur(now) && Cur(now).group != "" {
      if j :| 0 <= j <= job.index && job.plans[j].group == Cur(now).group {
        GroupGoesOn(job.plans, job.options, w.base, j, job.index + 1);
      } else {
        NoneKept(job.plans, job.index + 1, Cur(now).group, w.spool, w.media);
      }
    }
  }

  lemma NoneKept(plans: seq<DiscPlan>, upTo: nat, group: string, spool: map<string, Node>, media: map<DiskId, Bytes>)
    requires forall j :: 0 <= j < upTo && j < |plans| ==> plans[j].group != group
    ensures Kept(plans, upTo, group, spool, media)
  {
  }

  /** A finished disc of a group is followed by discs of the same group up to the parity disc. */
  lemma GroupGoesOn(plans: seq<DiscPlan>, opts: Options, base: nat, i: nat, j: nat)
    requires PlansOk(plans, opts, base) && i < j < |plans|
    requires plans[i].group == plans[j].group && plans[i].group != ""
    ensures plans[j - 1].group == plans[j].group && plans[j - 1].role == Data
  {
    assert Follows(plans, j);
    assert Apart(plans[i], plans[j]);
  }

  // ---- The spool bound --------------------------------------------------------------------------

  lemma {:induction false} GroupDataIn(plans: seq<DiscPlan>, group: string, id: DiskId)
    ensures id in GroupData(plans, group)
       <==> exists j :: 0 <= j < |plans| && plans[j].role == Data && plans[j].group == group && plans[j].id == id
  {
    if plans != [] {
      GroupDataIn(plans[1..], group, id);
      if id in GroupData(plans[1..], group) {
        var j :| 0 <= j < |plans[1..]| && plans[1..][j].role == Data && plans[1..][j].group == group
                 && plans[1..][j].id == id;
        assert plans[j + 1] == plans[1..][j];
      }
      if j :| 0 <= j < |plans| && plans[j].role == Data && plans[j].group == group && plans[j].id == id {
        assert j > 0 ==> plans[1..][j - 1] == plans[j];
      }
    }
  }

  lemma KeepsBound(t: Tools, w: World, a: Action, now: World)
    requires JobOk(w) && SpoolBound(w) && Act(t, w, a, now)
    ensures SpoolBound(now)
  {
    hide *;
    if a.TouchSpool? {
      TouchKeepsBound(t, w, a.spool, now);
    } else if a.Advance? {
      AdvanceAdvances(t, w, now);
      AdvanceKeepsBound(w, now);
    } else if a.InsertDisk? {
      InsertInserts(t, w, a.payload, now);
      InsertKeepsBound(t, w, now);
    } else if a.StartJob? {
      StartStarts(t, w, a, now);
      StartKeepsBound(w, now, a.plans, a.options);
    } else if a.Fail? {
      FailFails(t, w, now);
      FailKeepsBound(w, now);
    } else if a.Restart? {
      RestartRestarts(t, w, now);
      RestartKeepsBound(w, now);
    } else {
      MostStayInPlace(t, w, a, now);
      OnlyCleanupRemoves(t, w, a, now);
      SamePlaceBound(w, now);
    }
  }

  lemma InsertKeepsBound(t: Tools, w: World, now: World)
    requires SpoolBound(w) && Inserts(t, w, now)
    ensures SpoolBound(now)
  {
    hide OnlyGroup;
    hide RowOf;
  }

  lemma StartKeepsBound(w: World, now: World, plans: seq<DiscPlan>, opts: Options)
    requires Starts(w, now, plans, opts)
    ensures SpoolBound(now)
  {
    hide Counted;
  }

  lemma FailKeepsBound(w: World, now: World)
    requires SpoolBound(w) && Fails(w, now)
    ensures SpoolBound(now)
  {
    hide OnlyGroup;
  }

  lemma RestartKeepsBound(w: World, now: World)
    requires Restarts(w, now)
    ensures SpoolBound(now)
  {
  }

  lemma SamePlaceBound(w: World, now: World)
    requires SpoolBound(w) && SamePlace(w, now) && (now.strays == w.strays || now.strays)
    requires forall p <- now.spool :: p in w.spool
    ensures SpoolBound(now)
  {
    hide IsoName;
  }

  lemma TouchKeepsBound(t: Tools, w: World, spool: map<string, Node>, now: World)
    requires JobOk(w) && SpoolBound(w) && Act(t, w, TouchSpool(spool), now)
    ensures SpoolBound(now)
  {
    hide PlansOk;
    Touches(t, w, spool, now);
    hide Act;
    var job := w.job.value;
    PlanFacts(job.plans, job.options, w.base);
    forall j | 0 <= j < job.index
      ensures IsoName(job.plans[j].id) in now.spool <==> IsoName(job.plans[j].id) in w.spool
    {
      OtherDiscsIso(w.spool, spool, Cur(w).id, job.plans[j].id);
    }
    hide IsoName;
    hide OnlyOwnEntries;
  }

  lemma Touches(t: Tools, w: World, spool: map<string, Node>, now: World)
    requires Act(t, w, TouchSpool(spool), now)
    ensures AtWork(w) && w.commit == Off && OnlyOwnEntries(w.spool, spool, Cur(w).id)
    ensures now == w.(spool := spool)
  {
    hide OnlyOwnEntries;
  }

  /** Work on one disc leaves another disc's image in spool as it was. */
  lemma OtherDiscsIso(was: map<string, Node>, now: map<string, Node>, id: DiskId, other: DiskId)
    requires OnlyOwnEntries(was, now, id) && other != id
    ensures IsoName(other) in now <==> IsoName(other) in was
    ensures IsoName(other) in now ==> now[IsoName(other)] == was[IsoName(other)]
  {
    OwnNamesDisjoint(other, id);
    assert IsoName(other) in OwnNames(other);
    hide IsoName;
  }

  lemma AdvanceKeepsBound(w: World, now: World)
    requires JobOk(w) && SpoolBound(w) && Advances(w, now) && (Cur(w).role == Parity ==> CleanedUp(w))
    ensures SpoolBound(now)
  {
    hide PlansOk;
    hide IsoName;
    hide GroupData;
    var job := w.job.value;
    if job.options.crossParity && !w.strays {
      if Cur(w).role == Data {
        NextOfGroup(job.plans, job.options, w.base, job.index);
      }
      forall j | 0 <= j <= job.index && job.plans[j].role == Data && IsoName(job.plans[j].id) in w.spool
        ensures Cur(w).role == Data
      {
        GroupDataIn(job.plans, Cur(w).group, job.plans[j].id);
      }
    }
  }

  /** With cross-disc parity, a data disc is followed by a disc of its group. */
  lemma NextOfGroup(plans: seq<DiscPlan>, opts: Options, base: nat, j: nat)
    requires PlansOk(plans, opts, base) && opts.crossParity && j < |plans| && plans[j].role == Data
    ensures j + 1 < |plans| && plans[j + 1].group == plans[j].group
  {
    assert PlanOk(plans[j], opts, base, j, |plans|);
    if j + 1 < |plans| {
      assert Follows(plans, j + 1);
    }
  }

  // ---- Images ------------------------------------------------------------------------------------

  lemma KeepsImages(t: Tools, w: World, a: Action, now: World)
    requires JobOk(w) && SpoolOk(w) && ImagesOk(t, w) && Act(t, w, a, now)
    ensures ImagesOk(t, now)
  {
    hide *;
    if a.InsertDisk? {
      InsertKeepsImages(t, w, a.payload, now);
    } else if a.WriteMedium? {
      WriteKeepsImages(t, w, a.data, now);
    } else if a.StartJob? {
      StartStarts(t, w, a, now);
      StartKeepsImages(t, w, now, a.plans, a.options);
    } else if a.Fail? {
      FailFails(t, w, now);
      FailKeepsImages(t, w, now);
    } else if a.Restart? {
      RestartRestarts(t, w, now);
      RestartKeepsImages(t, w, now);
    } else if a.Advance? {
      AdvanceAdvances(t, w, now);
      AdvanceKeepsImages(t, w, now);
    } else {
      MostStayInPlace(t, w, a, now);
      SamePlaceImages(t, w, now);
    }
  }

  lemma StartKeepsImages(t: Tools, w: World, now: World, plans: seq<DiscPlan>, opts: Options)
    requires Starts(w, now, plans, opts)
    ensures ImagesOk(t, now)
  {
    hide Counted;
  }

  lemma FailKeepsImages(t: Tools, w: World, now: World)
    requires ImagesOk(t, w) && Fails(w, now)
    ensures ImagesOk(t, now)
  {
    hide ImageOk;
  }

  lemma AdvanceKeepsImages(t: Tools, w: World, now: World)
    requires ImagesOk(t, w) && Advances(w, now)
    ensures ImagesOk(t, now)
  {
    hide ImageOk;
  }

  lemma RestartKeepsImages(t: Tools, w: World, now: World)
    requires Restarts(w, now)
    ensures ImagesOk(t, now)
  {
  }

  lemma SamePlaceImages(t: Tools, w: World, now: World)
    requires ImagesOk(t, w) && SamePlace(w, now) && now.media == w.media
    ensures ImagesOk(t, now)
  {
    hide ImageOk;
  }

  /** A parity disc planned at `j` closes its group: the group's data discs come before it. */
  lemma GroupDataEarlier(plans: seq<DiscPlan>, opts: Options, base: nat, j: nat, id: DiskId)
    requires PlansOk(plans, opts, base) && j < |plans| && plans[j].role == Parity
    requires id in GroupData(plans, plans[j].group)
    ensures exists i :: 0 <= i < j && plans[i].role == Data && plans[i].group == plans[j].group && plans[i].id == id
  {
    GroupDataIn(plans, plans[j].group, id);
    var i :| 0 <= i < |plans| && plans[i].role == Data && plans[i].group == plans[j].group && plans[i].id == id;
    assert PlanOk(plans[j], opts, base, j, |plans|);
    assert i <= j || Apart(plans[j], plans[i]);
  }

  lemma WriteKeepsImages(t: Tools, w: World, data: Bytes, now: World)
    requires JobOk(w) && ImagesOk(t, w) && Act(t, w, WriteMedium(data), now)
    ensures ImagesOk(t, now)
  {
    WriteWrites(t, w, data, now);
    hide Act;
    var job, id := w.job.value, Cur(w).id;
    PlanFacts(job.plans, job.options, w.base);
    forall j | 0 <= j < job.index
      ensures ImageOk(t, job.options, job.plans, job.plans[j], now.media)
    {
      if job.plans[j].role == Parity && id in GroupData(job.plans, job.plans[j].group) {
        GroupDataEarlier(job.plans, job.options, w.base, j, id);
      }
      assert job.plans[j].id != job.plans[job.index].id;
      ImageUntouched(t, job.options, job.plans, job.plans[j], w.media, id, data);
    }
  }

  /** Writing another disc leaves an image as it was. */
  lemma ImageUntouched(t: Tools, opts: Options, plans: seq<DiscPlan>, plan: DiscPlan,
                       media: map<DiskId, Bytes>, id: DiskId, data: Bytes)
    requires ImageOk(t, opts, plans, plan, media) && plan.id != id
    requires plan.role == Parity ==> id !in GroupData(plans, plan.group)
    ensures ImageOk(t, opts, plans, plan, media[id := data])
  {
    var ids := GroupData(plans, plan.group);
    if plan.role == Parity {
      assert OnMedia(media[id := data], ids);
      assert MediaImages(media[id := data], ids) == MediaImages(media, ids);
    }
  }

  lemma InsertKeepsImages(t: Tools, w: World, payload: Bytes, now: World)
    requires JobOk(w) && SpoolOk(w) && ImagesOk(t, w) && Act(t, w, InsertDisk(payload), now)
    ensures ImagesOk(t, now)
  {
    hide Act;
    hide PlansOk;
    hide Kept;
    hide Committable;
    InsertWasCommittable(t, w, payload, now);
    InsertInserts(t, w, payload, now);
    FreshImage(t, w, payload);
    hide ImageOk;
    hide RowOf;
  }

  lemma FreshImage(t: Tools, w: World, payload: Bytes)
    requires JobOk(w) && SpoolOk(w) && HasCur(w) && w.commit == Off && Committable(t, w, payload)
    ensures ImageOk(t, w.job.value.options, w.job.value.plans, Cur(w), w.media)
  {
    hide PlansOk;
    hide Built;
    hide Kept;
    if Cur(w).role == Parity {
      ParityPayload(t, w, payload);
    }
  }

  /** When a parity disc is recorded, its payload is the XOR of its group's images as written. */
  lemma ParityPayload(t: Tools, w: World, payload: Bytes)
    requires JobOk(w) && SpoolOk(w) && HasCur(w) && Cur(w).role == Parity && w.commit == Off
    requires IsPayload(t, w, Cur(w), payload)
    ensures var ids := GroupData(w.job.value.plans, Cur(w).group);
            && ids != [] && OnMedia(w.media, ids)
            && payload == Xor(MediaImages(w.media, ids), w.job.value.options.capacity)
  {
    var job := w.job.value;
    var ids := GroupData(job.plans, Cur(w).group);
    assert PlanOk(Cur(w), job.options, w.base, job.index, |job.plans|);
    forall i | 0 <= i < |ids|
      ensures ids[i] in w.media && IsoName(ids[i]) in w.spool && w.spool[IsoName(ids[i])] == File(w.media[ids[i]])
    {
      GroupDataEarlier(job.plans, job.options, w.base, job.index, ids[i]);
    }
    assert SpoolImages(w.spool, ids) == MediaImages(w.media, ids);
  }

  // ---- Recorded files --------------------------------------------------------------------------------

  lemma KeepsBacked(t: Tools, w: World, a: Action, now: World)
    requires Lawful(t)
    requires JobOk(w) && MineOk(w) && DisksOk(t, w) && RowsOk(w) && StagedOk(w) && BackedOk(t, w)
    requires Act(t, w, a, now)
    ensures BackedOk(t, now)
  {
    hide *;
    if a.InsertDisk? {
      InsertKeepsBacked(t, w, a.payload, now);
    } else if a.WriteMedium? {
      WriteKeepsBacked(t, w, a.data, now);
    } else if a.InsertFile? {
      InsertFileKeepsBacked(t, w, now);
    } else if a.RemoveStaged? {
      RemoveKeepsBacked(t, w, now);
    } else if a.Advance? {
      AdvanceAdvances(t, w, now);
      AdvanceKeepsBacked(t, w, now);
    } else if a.StartJob? {
      StartStarts(t, w, a, now);
      StartKeepsBacked(t, w, now, a.plans, a.options);
    } else if a.Fail? {
      FailFails(t, w, now);
      FailKeepsBacked(t, w, now);
    } else if a.Restart? {
      RestartRestarts(t, w, now);
      RestartKeepsBacked(t, w, now);
    } else if a.EditStaging? {
      EditEdits(t, w, a.staging, now);
      EditKeepsBacked(t, w, now);
    } else {
      MostStayInPlace(t, w, a, now);
      SamePending(t, w, a, now);
      QuietKeepsBacked(t, w, now);
    }
  }

  lemma StartKeepsBacked(t: Tools, w: World, now: World, plans: seq<DiscPlan>, opts: Options)
    requires BackedOk(t, w) && Starts(w, now, plans, opts)
    ensures BackedOk(t, now)
  {
    hide RowsBacked;
    hide OnDisc;
    hide Counted;
  }

  lemma FailKeepsBacked(t: Tools, w: World, now: World)
    requires BackedOk(t, w) && Fails(w, now)
    ensures BackedOk(t, now)
  {
    hide RowsBacked;
    hide OnDisc;
  }

  lemma RestartKeepsBacked(t: Tools, w: World, now: World)
    requires BackedOk(t, w) && Restarts(w, now)
    ensures BackedOk(t, now)
  {
    hide RowsBacked;
    hide OnDisc;
  }

  /** The files of a disc being recorded are planned, so they stay as they are on it. */
  lemma EditKeepsBacked(t: Tools, w: World, now: World)
    requires JobOk(w) && BackedOk(t, w) && Edits(w, now)
    ensures BackedOk(t, now)
  {
    hide PlansOk;
    hide RowsBacked;
    hide ReadFile;
    if HasCur(w) && w.commit != Off {
      forall a | 0 <= a < |Cur(w).bucket.files|
        ensures IsPlanned(w, Cur(w).bucket.files[a].path)
      {
        CurIsPlannedFile(w, a);
      }
    }
    hide IsPlanned;
  }

  lemma CurIsPlannedFile(w: World, a: nat)
    requires HasCur(w) && a < |Cur(w).bucket.files|
    ensures IsPlanned(w, Cur(w).bucket.files[a].path)
  {
    assert w.job.value.plans[w.job.value.index].bucket.files[a].path == Cur(w).bucket.files[a].path;
  }

  lemma QuietKeepsBacked(t: Tools, w: World, now: World)
    requires SamePlace(w, now) && BackedOk(t, w)
    requires now.files == w.files && now.media == w.media && Pending(now.commit) == Pending(w.commit)
    requires now.staging == w.staging
    ensures BackedOk(t, now)
  {
    hide RowsBacked;
    hide ReadFile;
  }

  lemma AdvanceKeepsBacked(t: Tools, w: World, now: World)
    requires JobOk(w) && MineOk(w) && BackedOk(t, w) && Advances(w, now)
    ensures BackedOk(t, now)
  {
    hide PlansOk;
    hide Backed;
    hide OnDisc;
    assert Cur(w).id in w.mine;
    assert w.mine <= w.disks.Keys;
  }

  lemma WriteKeepsBacked(t: Tools, w: World, data: Bytes, now: World)
    requires JobOk(w) && MineOk(w) && DisksOk(t, w) && RowsOk(w) && BackedOk(t, w)
    requires Act(t, w, WriteMedium(data), now)
    ensures BackedOk(t, now)
  {
    hide RowsBacked;
    hide JobOk;
    hide MineOk;
    hide DisksOk;
    hide RowsOk;
    WriteWrites(t, w, data, now);
    hide Act;
    forall i | 0 <= i < |w.files| && w.files[i].disk in w.sealed
      ensures w.files[i].disk != Cur(w).id
    {
      SealedElsewhere(t, w, i);
    }
    OtherMedium(t, w.files, w.sealed, w.media, Cur(w).id, data);
  }

  lemma OtherMedium(t: Tools, files: seq<FileRow>, ids: set<DiskId>, media: map<DiskId, Bytes>, id: DiskId, data: Bytes)
    requires RowsBacked(t, files, ids, media)
    requires forall i :: 0 <= i < |files| && files[i].disk in ids ==> files[i].disk != id
    ensures RowsBacked(t, files, ids, media[id := data])
  {
    hide ReadFile;
  }

  /** No recorded file of a finished disc is on the disc being written. */
  lemma SealedElsewhere(t: Tools, w: World, i: nat)
    requires MineOk(w) && DisksOk(t, w) && RowsOk(w) && BackedOk(t, w)
    requires HasCur(w) && i < |w.files| && w.files[i].disk in w.sealed
    ensures w.files[i].disk != Cur(w).id
  {
    hide Placed;
    hide RowsBacked;
    hide OnDisc;
    hide WrittenRows;
    hide NumbersOk;
    hide GroupsKnown;
    hide ListedBefore;
    hide Planwise;
    assert w.disks[w.files[i].disk].role == Data;
  }

  lemma InsertKeepsBacked(t: Tools, w: World, payload: Bytes, now: World)
    requires Lawful(t) && JobOk(w) && RowsOk(w) && BackedOk(t, w) && Act(t, w, InsertDisk(payload), now)
    ensures BackedOk(t, now)
  {
    hide Act;
    hide Committable;
    hide PlansOk;
    hide OnDisc;
    hide Backed;
    hide Lawful;
    InsertWasCommittable(t, w, payload, now);
    InsertInserts(t, w, payload, now);
    FreshDiscHolds(t, w, payload);
    hide RowOf;
  }

  /** A disc about to be recorded holds every file of its plan as it is in staging. */
  lemma FreshDiscHolds(t: Tools, w: World, payload: Bytes)
    requires Lawful(t) && JobOk(w) && HasCur(w) && Committable(t, w, payload)
    ensures OnDisc(t, Cur(w), 0, w.media, w.staging)
  {
    var plan, opts := Cur(w), w.job.value.options;
    var image := w.media[plan.id];
    PlanFacts(w.job.value.plans, opts, w.base);
    hide PlansOk;
    forall a | 0 <= a < |plan.bucket.files|
      ensures plan.bucket.files[a].path in w.staging
      ensures ReadFile(t, image, plan.id, plan.bucket.files[a].path)
           == Found(w.staging[plan.bucket.files[a].path])
    {
      BuiltReads(t, image, plan, opts, payload, 0, plan.bucket.files[a].path);
      assert image + Zeros(0) == image;
      ArchivedFile(t, plan.bucket.files, w.staging, opts.compress, a);
    }
  }

  lemma InsertFileKeepsBacked(t: Tools, w: World, now: World)
    requires JobOk(w) && MineOk(w) && StagedOk(w) && BackedOk(t, w) && Act(t, w, InsertFile, now)
    ensures BackedOk(t, now)
  {
    hide Act;
    hide PlansOk;
    hide RowsBacked;
    var k, row := InsertFileInserts(t, w, now);
    NewRowBacked(t, w, now, k, row);
    hide Backed;
    hide OnDisc;
    MoreRowsBacked(t, w.files, row, w.sealed, w.media);
    MoreRowsBacked(t, w.files, row, {Cur(w).id}, w.media);
    hide Placed;
    hide StagedFrom;
  }

  lemma NewRowBacked(t: Tools, w: World, now: World, k: nat, row: FileRow)
    requires JobOk(w) && MineOk(w) && StagedOk(w) && BackedOk(t, w) && InsertsFile(t, w, now, k, row)
    ensures Backed(t, w.media, row)
  {
    hide PlansOk;
    hide RowsBacked;
    assert Cur(w).id in w.mine;
    hide Placed;
    assert row.size == |w.staging[row.path]|;
  }

  lemma MoreRowsBacked(t: Tools, files: seq<FileRow>, row: FileRow, ids: set<DiskId>, media: map<DiskId, Bytes>)
    requires RowsBacked(t, files, ids, media) && Backed(t, media, row)
    ensures RowsBacked(t, files + [row], ids, media)
  {
    hide Backed;
  }

  lemma RemoveKeepsBacked(t: Tools, w: World, now: World)
    requires JobOk(w) && BackedOk(t, w) && Act(t, w, RemoveStaged, now)
    ensures BackedOk(t, now)
  {
    var k := RemoveStagedRemoves(t, w, now);
    hide Act;
    CurFilesDiffer(w);
    hide PlansOk;
    hide Backed;
  }

  // ---- Overwritten discs -----------------------------------------------------------------------------

  lemma KeepsOver(t: Tools, w: World, a: Action, now: World)
    requires OverOk(w) && Act(t, w, a, now)
    ensures OverOk(now)
  {
    hide Act;
    if a.InsertDisk? {
      InsertInserts(t, w, a.payload, now);
      hide RowOf;
    } else if a.WriteMedium? {
      WriteWrites(t, w, a.data, now);
      hide Written;
      hide AllStaged;
    } else if a.Advance? {
      AdvanceAdvances(t, w, now);
    } else if a.StartJob? {
      StartStarts(t, w, a, now);
    } else if a.Fail? {
      FailFails(t, w, now);
    } else if a.Restart? {
      RestartRestarts(t, w, now);
    } else {
      MostStayInPlace(t, w, a, now);
    }
  }

  // ---- All of it -----------------------------------------------------------------------------------------

  /** One step keeps the whole invariant. */
  lemma KeepsInv(t: Tools, w: World, a: Action, now: World)
    requires Lawful(t) && Inv(t, w) && Act(t, w, a, now)
    ensures Inv(t, now)
  {
    KeepsJob(t, w, a, now);
    KeepsMine(t, w, a, now);
    KeepsDisks(t, w, a, now);
    KeepsRows(t, w, a, now);
    KeepsStaged(t, w, a, now);
    KeepsSpool(t, w, a, now);
    KeepsBound(t, w, a, now);
    KeepsImages(t, w, a, now);
    KeepsBacked(t, w, a, now);
    KeepsOver(t, w, a, now);
    hide *;
    Assemble(t, now);
  }

  lemma Assemble(t: Tools, w: World)
    requires JobOk(w) && MineOk(w) && DisksOk(t, w) && RowsOk(w) && StagedOk(w)
    requires SpoolOk(w) && SpoolBound(w) && ImagesOk(t, w) && BackedOk(t, w) && OverOk(w)
    ensures Inv(t, w)
  {
  }
}
