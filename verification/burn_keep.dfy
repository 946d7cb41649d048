/** Every step keeps the invariant, one part of it at a time. */
module BurnKeep {
  import opened Bytes
  import opened DiskIds
  import opened Plan
  import opened PlanProps
  import opened Tools
  import opened BurnWorld
  import opened BurnInv

  // ---- Plan facts, by index ------------------------------------------------------

  ghost predicate IdsDiffer(plans: seq<DiscPlan>) {
    forall i, j :: 0 <= i < j < |plans| ==> plans[i].id != plans[j].id
  }

  lemma PlanFacts(plans: seq<DiscPlan>, opts: Options, base: nat)
    requires PlansOk(plans, opts, base)
    ensures IdsDiffer(plans)
    ensures forall j :: 0 <= j < |plans| ==> plans[j].id.prefix == opts.prefix
    ensures forall j :: 0 <= j < |plans| && plans[j].role == Parity ==> plans[j].bucket.files == []
  {
    forall i, j | 0 <= i < j < |plans|
      ensures plans[i].id != plans[j].id
    {
      assert Apart(plans[i], plans[j]);
    }
    forall j | 0 <= j < |plans|
      ensures plans[j].id.prefix == opts.prefix
      ensures plans[j].role == Parity ==> plans[j].bucket.files == []
    {
      assert PlanOk(plans[j], opts, base, j, |plans|);
    }
  }

  // ---- What most steps leave alone ------------------------------------------------

  /** Same job at the same disc, same tables of discs, and a commit neither begun nor ended. */
  ghost predicate SamePlace(w: World, now: World) {
    && now.base == w.base && now.mine == w.mine && now.disks == w.disks && now.sealed == w.sealed
    && (now.commit == Off <==> w.commit == Off)
    && (w.job.Some? <==> now.job.Some?)
    && (w.job.Some? ==>
          && now.job.value.options == w.job.value.options
          && now.job.value.plans == w.job.value.plans
          && now.job.value.index == w.job.value.index)
  }

  /** Such a step, and which of them may change what. */
  ghost predicate Stays(w: World, a: Action, now: World) {
    && SamePlace(w, now)
    && (now.files == w.files || a.InsertFile?)
    && ((now.media == w.media && now.overwritten == w.overwritten) || a.WriteMedium?)
    && (now.spool == w.spool || a.TouchSpool? || a.RemoveIso?)
    && (now.staging == w.staging || a.EditStaging? || a.RemoveStaged?)
    && w.groups <= now.groups && (now.strays == w.strays || a.LeaveIso?)
    && (now.job == w.job || a.Claim? || a.SetState? || a.Retry?)
    && (now.commit == w.commit || a.Consume? || a.InsertFile? || a.RemoveStaged? || a.BeginCleanup?)
    && (now.metadata == w.metadata || a.TagFile? || a.Consume?)
    && now.lost == w.lost && now.jobs == w.jobs && (now.withdrawn == w.withdrawn || a.EditStaging?)
  }

  lemma MostStayInPlace(t: Tools, w: World, a: Action, now: World)
    requires Act(t, w, a, now)
    requires !a.StartJob? && !a.InsertDisk? && !a.Advance? && !a.Fail? && !a.Restart?
    ensures SamePlace(w, now)
    ensures now.files == w.files || a.InsertFile?
    ensures (now.media == w.media && now.overwritten == w.overwritten) || a.WriteMedium?
    ensures now.spool == w.spool || a.TouchSpool? || a.RemoveIso?
    ensures now.staging == w.staging || a.EditStaging? || a.RemoveStaged?
    ensures w.groups <= now.groups && (now.strays == w.strays || a.LeaveIso?)
    ensures now.job == w.job || a.Claim? || a.SetState? || a.Retry?
    ensures now.commit == w.commit || a.Consume? || a.InsertFile? || a.RemoveStaged? || a.BeginCleanup?
    ensures now.metadata == w.metadata || a.TagFile? || a.Consume?
    ensures now.lost == w.lost && now.jobs == w.jobs && (now.withdrawn == w.withdrawn || a.EditStaging?)
  {
    hide UserActs;
    hide JobActs;
    hide DiscActs;
    hide CommitActs;
    hide SamePlace;
    if UserAction(a) {
      UserActsStay(w, a, now);
    } else if JobAction(a) {
      JobActsStay(w, a, now);
    } else if a.WriteMedium? {
      WriteActStays(w, a.data, now);
    } else if DiscAction(a) {
      SpoolActsStay(w, a, now);
    } else {
      CommitActsStay(t, w, a, now);
    }
  }

  lemma UserActsStay(w: World, a: Action, now: World)
    requires UserActs(w, a, now)
    ensures Stays(w, a, now)
  {
    hide SparesPlanned;
    hide Withdrawn;
    hide Without;
  }

  lemma JobActsStay(w: World, a: Action, now: World)
    requires JobActs(w, a, now) && (a.RegisterGroups? || a.Claim? || a.SetState? || a.Retry?)
    ensures Stays(w, a, now)
  {
    match a {
      case RegisterGroups(_) =>
      case Claim =>
      case SetState(_) =>
      case Retry =>
    }
  }

  lemma WriteActStays(w: World, data: Bytes, now: World)
    requires DiscActs(w, WriteMedium(data), now)
    ensures Stays(w, WriteMedium(data), now)
  {
    hide AllStaged;
    hide HasRoom;
    hide Without;
    hide Truncated;
  }

  lemma SpoolActsStay(w: World, a: Action, now: World)
    requires DiscActs(w, a, now) && !a.WriteMedium?
    ensures Stays(w, a, now)
  {
    hide OnlyOwnEntries;
    hide GroupData;
    match a {
      case TouchSpool(_) =>
      case RemoveIso(_) =>
      case LeaveIso =>
    }
  }

  lemma CommitActsStay(t: Tools, w: World, a: Action, now: World)
    requires CommitActs(t, w, a, now) && !a.InsertDisk?
    ensures Stays(w, a, now)
  {
    match a {
      case Consume =>
      case InsertFile =>
      case RemoveStaged =>
      case BeginCleanup =>
    }
  }

  // ---- What the other steps do -------------------------------------------------------

  /** The effect of recording a disc, without the reasons that allowed it. */
  ghost predicate Inserts(t: Tools, w: World, now: World) {
    && AtWork(w) && w.commit == Off && now.commit == At(0)
    && w.job.value.state == CommitState(w.job.value.options)
    && Cur(w).id !in w.disks && Cur(w).id in w.media
    && now.job == w.job && now.base == w.base && now.media == w.media && now.files == w.files
    && now.staging == w.staging && now.spool == w.spool && now.sealed == w.sealed && now.groups == w.groups
    && now.strays == w.strays && now.metadata == w.metadata && now.lost == w.lost && now.jobs == w.jobs
    && now.withdrawn == w.withdrawn && now.overwritten == w.overwritten
    && now.mine == w.mine + {Cur(w).id}
    && now.disks == w.disks[Cur(w).id :=
         RowOf(w.job.value.options, Cur(w), t.hash(w.media[Cur(w).id]))]
  }

  lemma InsertInserts(t: Tools, w: World, payload: Bytes, now: World)
    requires Act(t, w, InsertDisk(payload), now)
    ensures Inserts(t, w, now)
  {
    hide IsPayload;
    hide Built;
    hide RowOf;
  }

  lemma InsertWasCommittable(t: Tools, w: World, payload: Bytes, now: World)
    requires Act(t, w, InsertDisk(payload), now)
    ensures HasCur(w) && Committable(t, w, payload)
  {
    hide Committable;
    hide RowOf;
  }

  /** The effect of writing for the current disc: no other disc's medium changes. */
  ghost predicate Writes(w: World, data: Bytes, now: World) {
    && AtWork(w) && w.commit == Off && AllStaged(Cur(w).bucket.files, w.staging)
    && now == w.(media := now.media, mounted := now.mounted, overwritten := w.overwritten + Truncated(w))
    && (now.media == w.media || now.media == w.media[Cur(w).id := data])
  }

  lemma WriteWrites(t: Tools, w: World, data: Bytes, now: World)
    requires Act(t, w, WriteMedium(data), now)
    ensures Writes(w, data, now)
    ensures HasRoom(w.job.value.options, data) && now == Written(w, data)
  {
    hide AllStaged;
    hide HasRoom;
    hide Without;
    hide Truncated;
  }

  /** The effect of what the user does in staging. */
  ghost predicate Edits(w: World, now: World) {
    now == w.(staging := now.staging, withdrawn := now.withdrawn) && SparesPlanned(w, now.staging)
  }

  lemma EditEdits(t: Tools, w: World, staging: map<string, Bytes>, now: World)
    requires Act(t, w, EditStaging(staging), now)
    ensures Edits(w, now)
    ensures now.withdrawn == w.withdrawn + [Withdrawn(w.staging, now.staging)]
  {
    hide SparesPlanned;
    hide Withdrawn;
  }

  /** The effect of finishing the current disc. */
  ghost predicate Advances(w: World, now: World) {
    && AtWork(w) && (w.commit.At? || w.commit == Cleaning)
    && Pending(w.commit) == Unlisted(w.commit) == |Cur(w).bucket.files|
    && var job := w.job.value;
       now == w.(job := Some(job.(index := job.index + 1,
                                  state := if job.index + 1 >= |job.plans| then Done else AwaitingDisc)),
                 commit := Off, sealed := w.sealed + {Cur(w).id})
  }

  lemma AdvanceAdvances(t: Tools, w: World, now: World)
    requires Act(t, w, Advance, now)
    ensures Advances(w, now) && (Cur(w).role == Parity ==> CleanedUp(w))
  {
    hide CleanedUp;
  }

  /** A new job, a failed attempt or a restart: the job's bookkeeping changes and nothing else does. */
  ghost predicate Leaves(w: World, now: World) {
    && now.files == w.files && now.media == w.media && now.disks == w.disks && now.sealed == w.sealed
    && now.spool == w.spool && now.staging == w.staging && now.metadata == w.metadata && w.groups <= now.groups
    && now.withdrawn == w.withdrawn && now.overwritten == w.overwritten && now.commit == Off
  }

  ghost predicate Starts(w: World, now: World, plans: seq<DiscPlan>, opts: Options) {
    && Leaves(w, now) && !Busy(w.job) && plans != []
    && now.job == Some(Job(opts, plans, 0, AwaitingDisc, false))
    && now.base == Count(w, opts.prefix) && now.mine == {} && !now.strays
    && now.lost == w.lost && now.jobs == w.jobs + 1
  }

  lemma StartStarts(t: Tools, w: World, a: Action, now: World)
    requires a.StartJob? && Act(t, w, a, now)
    ensures Starts(w, now, a.plans, a.options)
    ensures PlansOk(a.plans, a.options, now.base) && PlanCovers(a.plans, w.staging)
    ensures forall j :: 0 <= j < |a.plans| && a.plans[j].group != "" ==>
              a.plans[j].group !in w.groups && a.plans[j].group in now.groups
  {
    hide PlansOk;
    hide PlanCovers;
    hide Counted;
  }

  ghost predicate Fails(w: World, now: World) {
    && Leaves(w, now) && AtWork(w) && now.groups == w.groups && w.commit != Cleaning
    && now.job == Some(w.job.value.(state := Failed, hasErr := true))
    && now.base == w.base && now.mine == w.mine && now.strays == w.strays && now.jobs == w.jobs
  }

  lemma FailFails(t: Tools, w: World, now: World)
    requires Act(t, w, Fail, now)
    ensures Fails(w, now)
  {
    hide Dropped;
  }

  ghost predicate Restarts(w: World, now: World) {
    && Leaves(w, now) && now.groups == w.groups && now.job.None? && now.mine == {} && !now.strays && now.jobs == w.jobs
  }

  lemma RestartRestarts(t: Tools, w: World, now: World)
    requires Act(t, w, Action.Restart, now)
    ensures Restarts(w, now)
  {
    hide Dropped;
  }

  // ---- The job ---------------------------------------------------------------------

  lemma KeepsJob(t: Tools, w: World, a: Action, now: World)
    requires JobOk(w) && Act(t, w, a, now)
    ensures JobOk(now)
  {
    hide *;
    if a.InsertDisk? {
      InsertInserts(t, w, a.payload, now);
      InsertKeepsJob(t, w, now);
    } else if a.Advance? {
      AdvanceAdvances(t, w, now);
      AdvanceKeepsJob(w, now);
    } else if a.StartJob? {
      StartStarts(t, w, a, now);
      StartKeepsJob(w, now, a.plans, a.options);
    } else if a.Fail? {
      FailFails(t, w, now);
      FailKeepsJob(w, now);
    } else if a.Restart? {
      RestartRestarts(t, w, now);
      RestartKeepsJob(w, now);
    } else {
      MostStayInPlace(t, w, a, now);
      MostKeepJob(t, w, a, now);
    }
  }

  lemma InsertKeepsJob(t: Tools, w: World, now: World)
    requires JobOk(w) && Inserts(t, w, now)
    ensures JobOk(now)
  {
    hide PlansOk;
    hide RowOf;
  }

  lemma AdvanceKeepsJob(w: World, now: World)
    requires JobOk(w) && Advances(w, now)
    ensures JobOk(now)
  {
    hide PlansOk;
  }

  lemma StartKeepsJob(w: World, now: World, plans: seq<DiscPlan>, opts: Options)
    requires Starts(w, now, plans, opts) && PlansOk(plans, opts, now.base)
    ensures JobOk(now)
  {
    hide PlansOk;
  }

  lemma FailKeepsJob(w: World, now: World)
    requires JobOk(w) && Fails(w, now)
    ensures JobOk(now)
  {
    hide PlansOk;
  }

  lemma RestartKeepsJob(w: World, now: World)
    requires Restarts(w, now)
    ensures JobOk(now)
  {
  }

  lemma MostKeepJob(t: Tools, w: World, a: Action, now: World)
    requires JobOk(w) && Act(t, w, a, now) && SamePlace(w, now)
    requires !a.StartJob? && !a.InsertDisk? && !a.Advance? && !a.Fail? && !a.Restart?
    ensures JobOk(now)
  {
    hide *;
    if a.Consume? || a.InsertFile? || a.RemoveStaged? || a.BeginCleanup? {
      CommitStepKeepsJob(t, w, a, now);
    } else if a.Claim? || a.SetState? || a.Retry? {
      StateStepKeepsJob(t, w, a, now);
    } else {
      MostStayInPlace(t, w, a, now);
      SameJobOk(w, now);
    }
  }

  lemma CommitStepKeepsJob(t: Tools, w: World, a: Action, now: World)
    requires JobOk(w) && Act(t, w, a, now) && (a.Consume? || a.InsertFile? || a.RemoveStaged? || a.BeginCleanup?)
    ensures JobOk(now)
  {
    hide PlansOk;
    hide UserActs;
    hide JobActs;
    hide DiscActs;
    hide Committable;
    match a {
      case Consume =>
      case InsertFile =>
      case RemoveStaged =>
      case BeginCleanup =>
    }
  }

  lemma StateStepKeepsJob(t: Tools, w: World, a: Action, now: World)
    requires JobOk(w) && Act(t, w, a, now) && (a.Claim? || a.SetState? || a.Retry?)
    ensures JobOk(now)
  {
    MovesState(t, w, a, now);
    hide Act;
    hide PlansOk;
  }

  /** What claiming, working and retrying do to the job's state. */
  lemma MovesState(t: Tools, w: World, a: Action, now: World)
    requires Act(t, w, a, now) && (a.Claim? || a.SetState? || a.Retry?)
    ensures w.job.Some? && now.job.Some? && w.job.value.state != Done
    ensures now == SetJob(w, w.job.value.(state := now.job.value.state, hasErr := now.job.value.hasErr))
    ensures a.SetState? ==> w.commit == Off && now.job.value.hasErr == w.job.value.hasErr
    ensures a.Claim? ==> w.job.value.state == AwaitingDisc && now.job.value.hasErr == w.job.value.hasErr
    ensures a.Retry? ==> w.job.value.state == Failed && !now.job.value.hasErr
    ensures now.job.value.state != Done && now.job.value.state != Failed
  {
  }

  lemma SameJobOk(w: World, now: World)
    requires JobOk(w) && SamePlace(w, now) && now.job == w.job && now.commit == w.commit
    ensures JobOk(now)
  {
    hide PlansOk;
  }

  // ---- The catalog prefix ------------------------------------------------------------

  lemma KeepsMine(t: Tools, w: World, a: Action, now: World)
    requires JobOk(w) && MineOk(w) && Act(t, w, a, now)
    ensures MineOk(now)
  {
    hide *;
    if a.InsertDisk? {
      InsertInserts(t, w, a.payload, now);
      InsertKeepsMine(t, w, now);
    } else if a.Advance? {
      AdvanceAdvances(t, w, now);
      AdvanceKeepsMine(w, now);
    } else if a.Fail? {
      FailFails(t, w, now);
      FailKeepsMine(w, now);
    } else if a.Restart? {
      RestartRestarts(t, w, now);
      RestartKeepsMine(w, now);
    } else if a.StartJob? {
      StartStarts(t, w, a, now);
      StartKeepsMine(w, now, a.plans, a.options);
    } else {
      MostStayInPlace(t, w, a, now);
      SamePlaceMine(w, now);
    }
  }

  lemma AdvanceKeepsMine(w: World, now: World)
    requires MineOk(w) && Advances(w, now)
    ensures MineOk(now)
  {
    AdvancePlaced(w.job.value.plans, w.job.value.index, w.mine, w.disks.Keys, w.base, w.job.value.options.prefix);
    hide Placed;
  }

  lemma FailKeepsMine(w: World, now: World)
    requires MineOk(w) && Fails(w, now)
    ensures MineOk(now)
  {
    FailPlaced(w.job.value.plans, w.job.value.index, w.mine, w.commit != Off, w.disks.Keys, w.base,
               w.job.value.options.prefix);
    hide Placed;
  }

  lemma RestartKeepsMine(w: World, now: World)
    requires Restarts(w, now)
    ensures MineOk(now)
  {
  }

  lemma StartKeepsMine(w: World, now: World, plans: seq<DiscPlan>, opts: Options)
    requires Starts(w, now, plans, opts)
    ensures MineOk(now)
  {
    hide Counted;
  }

  lemma SamePlaceMine(w: World, now: World)
    requires SamePlace(w, now) && MineOk(w)
    ensures MineOk(now)
  {
    hide Placed;
  }

  lemma InsertKeepsMine(t: Tools, w: World, now: World)
    requires JobOk(w) && MineOk(w) && Inserts(t, w, now)
    ensures MineOk(now)
  {
    hide PlansOk;
    hide Placed;
    hide RowOf;
    hide Counted;
    var job := w.job.value;
    PlanFacts(job.plans, job.options, w.base);
    InsertPlaced(job.plans, job.index, w.mine, w.disks.Keys, w.base, job.options.prefix);
    assert now.disks.Keys == w.disks.Keys + {Cur(w).id};
  }

  lemma InsertPlaced(plans: seq<DiscPlan>, index: nat, mine: set<DiskId>, ids: set<DiskId>, base: nat, prefix: string)
    requires Placed(plans, index, mine, false, ids, base, prefix)
    requires index < |plans| && plans[index].id !in ids && plans[index].id.prefix == prefix && IdsDiffer(plans)
    ensures Placed(plans, index, mine + {plans[index].id}, true, ids + {plans[index].id}, base, prefix)
  {
    CountAfterInsert(ids, plans[index].id, prefix);
    hide Counted;
    assert plans[index].id !in mine;
  }

  lemma AdvancePlaced(plans: seq<DiscPlan>, index: nat, mine: set<DiskId>, ids: set<DiskId>, base: nat, prefix: string)
    requires Placed(plans, index, mine, true, ids, base, prefix) && index < |plans|
    ensures Placed(plans, index + 1, mine, false, ids, base, prefix)
  {
    hide Counted;
  }

  lemma FailPlaced(plans: seq<DiscPlan>, index: nat, mine: set<DiskId>, committing: bool,
                   ids: set<DiskId>, base: nat, prefix: string)
    requires Placed(plans, index, mine, committing, ids, base, prefix)
    requires index < |plans|
    ensures Placed(plans, index, mine, false, ids, base, prefix)
  {
    hide Counted;
  }

  // ---- The disks table -----------------------------------------------------------------

  lemma KeepsDisks(t: Tools, w: World, a: Action, now: World)
    requires JobOk(w) && MineOk(w) && DisksOk(t, w) && Act(t, w, a, now)
    ensures DisksOk(t, now)
  {
    hide *;
    if a.InsertDisk? {
      InsertInserts(t, w, a.payload, now);
      InsertKeepsDisks(t, w, now);
    } else if a.StartJob? {
      StartKeepsDisks(t, w, a, now);
    } else if a.WriteMedium? {
      WriteKeepsDisks(t, w, a.data, now);
    } else if a.Advance? {
      AdvanceAdvances(t, w, now);
      AdvanceKeepsDisks(t, w, now);
    } else if a.Fail? {
      FailFails(t, w, now);
      FailKeepsDisks(t, w, now);
    } else if a.Restart? {
      RestartRestarts(t, w, now);
      RestartKeepsDisks(t, w, now);
    } else {
      MostStayInPlace(t, w, a, now);
      SamePlaceDisks(t, w, now);
    }
  }

  lemma AdvanceKeepsDisks(t: Tools, w: World, now: World)
    requires DisksOk(t, w) && Advances(w, now)
    ensures DisksOk(t, now)
  {
    hide NumbersOk;
    hide GroupsKnown;
    hide Foreign;
    hide WrittenRows;
  }

  lemma FailKeepsDisks(t: Tools, w: World, now: World)
    requires DisksOk(t, w) && Fails(w, now)
    ensures DisksOk(t, now)
  {
    hide NumbersOk;
    hide GroupsKnown;
    hide Foreign;
    FewerWritten(t, w.job.value.options, w.job.value.plans, WrittenTo(now), WrittenTo(w), w.disks, w.media);
    hide WrittenRows;
  }

  lemma RestartKeepsDisks(t: Tools, w: World, now: World)
    requires DisksOk(t, w) && Restarts(w, now)
    ensures DisksOk(t, now)
  {
    hide NumbersOk;
    hide GroupsKnown;
  }

  lemma SamePlaceDisks(t: Tools, w: World, now: World)
    requires SamePlace(w, now) && w.groups <= now.groups && now.media == w.media && DisksOk(t, w)
    ensures DisksOk(t, now)
  {
    MoreGroups(w, now);
    hide NumbersOk;
    hide WrittenRows;
    hide Foreign;
    hide GroupsKnown;
  }

  lemma FewerWritten(t: Tools, opts: Options, plans: seq<DiscPlan>, n: nat, m: nat,
                     disks: map<DiskId, DiskRow>, media: map<DiskId, Bytes>)
    requires n <= m && WrittenRows(t, opts, plans, m, disks, media)
    ensures WrittenRows(t, opts, plans, n, disks, media)
  {
  }

  lemma MoreGroups(w: World, now: World)
    requires SamePlace(w, now) && w.groups <= now.groups && GroupsKnown(w.disks, w.groups)
    requires w.job.Some? ==> Foreign(w.job.value.plans, w.mine, w.disks, w.groups)
    ensures GroupsKnown(now.disks, now.groups)
    ensures now.job.Some? ==> Foreign(now.job.value.plans, now.mine, now.disks, now.groups)
  {
  }

  lemma WriteKeepsDisks(t: Tools, w: World, data: Bytes, now: World)
    requires JobOk(w) && DisksOk(t, w) && Act(t, w, WriteMedium(data), now)
    ensures DisksOk(t, now)
  {
    hide PlansOk;
    hide AllStaged;
    hide NumbersOk;
    hide GroupsKnown;
    hide Foreign;
    WriteWrites(t, w, data, now);
    hide Act;
    var job := w.job.value;
    PlanFacts(job.plans, job.options, w.base);
    assert now.job == w.job && now.commit == w.commit && WrittenTo(now) == job.index;
  }

  lemma StartKeepsDisks(t: Tools, w: World, a: Action, now: World)
    requires DisksOk(t, w) && a.StartJob? && Act(t, w, a, now)
    ensures DisksOk(t, now)
  {
    hide PlanCovers;
    var base := Count(w, a.options.prefix);
    forall j | 0 <= j < |a.plans| && a.plans[j].id in w.disks
      ensures w.disks[a.plans[j].id].role == Parity
    {
      assert PlanOk(a.plans[j], a.options, base, j, |a.plans|);
      assert a.plans[j].id.prefix == a.options.prefix;
    }
    hide PlansOk;
    hide Counted;
  }

  lemma InsertKeepsDisks(t: Tools, w: World, now: World)
    requires JobOk(w) && MineOk(w) && DisksOk(t, w) && Inserts(t, w, now)
    ensures DisksOk(t, now)
  {
    hide JobOk;
    hide MineOk;
    hide NumbersOk;
    hide Foreign;
    hide WrittenRows;
    hide GroupsKnown;
    hide Counted;
    var job, id := w.job.value, Cur(w).id;
    InsertFacts(t, w, now);
    InsertNumbers(w.disks, now.disks, id);
    InsertForeign(job.plans, job.index, w.mine, w.disks, now.disks, w.groups);
    InsertGroups(w.disks, now.disks, w.groups, job.options, job.plans, job.index, now.disks[id].isoHash);
    hide RowOf;
    InsertWritten(t, job.options, job.plans, job.index, w.disks, now.disks, w.media);
  }

  lemma InsertGroups(disks: map<DiskId, DiskRow>, now: map<DiskId, DiskRow>, groups: set<string>,
                     opts: Options, plans: seq<DiscPlan>, index: nat, hash: Hash)
    requires GroupsKnown(disks, groups) && index < |plans|
    requires now == disks[plans[index].id := RowOf(opts, plans[index], hash)]
    requires plans[index].group == "" || plans[index].group in groups
    ensures GroupsKnown(now, groups)
  {
  }

  /** The disc being recorded bears a number at most one above the count. */
  lemma InsertFacts(t: Tools, w: World, now: World)
    requires JobOk(w) && MineOk(w) && DisksOk(t, w) && Inserts(t, w, now)
    ensures Cur(w).id.prefix == w.job.value.options.prefix
    ensures Cur(w).group == "" || Cur(w).group in w.groups
    ensures Cur(w).role == Data ==> Cur(w).id.number <= |Counted(w.disks.Keys, Cur(w).id.prefix)| + 1
  {
    hide Counted;
    hide RowOf;
    hide NumbersOk;
    hide GroupsKnown;
    hide WrittenRows;
    var job := w.job.value;
    assert PlanOk(job.plans[job.index], job.options, w.base, job.index, |job.plans|);
    hide PlansOk;
    assert Cur(w).id !in w.mine && |w.mine| == job.index;
  }

  lemma InsertForeign(plans: seq<DiscPlan>, index: nat, mine: set<DiskId>,
                      disks: map<DiskId, DiskRow>, now: map<DiskId, DiskRow>, groups: set<string>)
    requires index < |plans| && Foreign(plans, mine, disks, groups) && plans[index].id !in disks
    requires plans[index].id in now && now == disks[plans[index].id := now[plans[index].id]]
    ensures Foreign(plans, mine + {plans[index].id}, now, groups)
  {
  }

  lemma InsertWritten(t: Tools, opts: Options, plans: seq<DiscPlan>, index: nat,
                      disks: map<DiskId, DiskRow>, now: map<DiskId, DiskRow>, media: map<DiskId, Bytes>)
    requires index < |plans| && WrittenRows(t, opts, plans, index, disks, media) && plans[index].id in media
    requires plans[index].id !in disks
    requires now == disks[plans[index].id := RowOf(opts, plans[index], t.hash(media[plans[index].id]))]
    ensures WrittenRows(t, opts, plans, index + 1, now, media)
  {
    hide RowOf;
  }

  lemma InsertNumbers(disks: map<DiskId, DiskRow>, now: map<DiskId, DiskRow>, id: DiskId)
    requires NumbersOk(disks) && id !in disks && id in now && now == disks[id := now[id]]
    requires now[id].role == Data ==> id.number <= |Counted(disks.Keys, id.prefix)| + 1
    ensures NumbersOk(now)
  {
    CountAfterInsert(disks.Keys, id, id.prefix);
    assert now.Keys == disks.Keys + {id};
    forall d <- disks
      ensures |Counted(disks.Keys, d.prefix)| <= |Counted(now.Keys, d.prefix)|
    {
      CountAfterInsert(disks.Keys, id, d.prefix);
    }
  }

  // ---- The files table -------------------------------------------------------------------

  lemma KeepsRows(t: Tools, w: World, a: Action, now: World)
    requires JobOk(w) && DisksOk(t, w) && RowsOk(w) && Act(t, w, a, now)
    ensures RowsOk(now)
  {
    hide *;
    if a.InsertDisk? {
      InsertInserts(t, w, a.payload, now);
      InsertKeepsRows(t, w, now);
    } else if a.InsertFile? {
      InsertFileKeepsRows(t, w, now);
    } else if a.Advance? {
      AdvanceAdvances(t, w, now);
      AdvanceKeepsRows(w, now);
    } else if a.StartJob? {
      StartStarts(t, w, a, now);
      StartKeepsRows(w, now, a.plans, a.options);
    } else if a.Fail? {
      FailFails(t, w, now);
      FailKeepsRows(w, now);
    } else if a.Restart? {
      RestartRestarts(t, w, now);
      RestartKeepsRows(w, now);
    } else {
      MostStayInPlace(t, w, a, now);
      SameUnlisted(t, w, a, now);
      SamePlaceRows(w, now);
    }
  }

  lemma AdvanceKeepsRows(w: World, now: World)
    requires RowsOk(w) && Advances(w, now)
    ensures RowsOk(now)
  {
    AdvanceListed(w.files, w.job.value.plans, w.job.value.index);
    hide Keyed;
    hide ListedBefore;
    hide ListedTo;
    hide Planwise;
  }

  lemma StartKeepsRows(w: World, now: World, plans: seq<DiscPlan>, opts: Options)
    requires RowsOk(w) && Starts(w, now, plans, opts)
    ensures RowsOk(now)
  {
    hide Keyed;
    hide OnPlan;
  }

  lemma FailKeepsRows(w: World, now: World)
    requires RowsOk(w) && Fails(w, now)
    ensures RowsOk(now)
  {
    hide Keyed;
    hide ListedTo;
    hide OnPlan;
  }

  lemma RestartKeepsRows(w: World, now: World)
    requires RowsOk(w) && Restarts(w, now)
    ensures RowsOk(now)
  {
    hide Keyed;
  }

  lemma SamePlaceRows(w: World, now: World)
    requires SamePlace(w, now) && now.files == w.files && Unlisted(now.commit) == Unlisted(w.commit) && RowsOk(w)
    ensures RowsOk(now)
  {
    hide Keyed;
    hide ListedBefore;
    hide ListedTo;
    hide Planwise;
  }

  lemma SameUnlisted(t: Tools, w: World, a: Action, now: World)
    requires Act(t, w, a, now) && !a.StartJob? && !a.InsertDisk? && !a.Advance? && !a.Fail? && !a.Restart?
             && !a.InsertFile?
    ensures Unlisted(now.commit) == Unlisted(w.commit)
  {
    hide *;
    if a.Consume? || a.RemoveStaged? || a.BeginCleanup? {
      SameUnlistedInCommit(t, w, a, now);
    } else {
      MostStayInPlace(t, w, a, now);
    }
  }

  lemma SameUnlistedInCommit(t: Tools, w: World, a: Action, now: World)
    requires Act(t, w, a, now) && (a.Consume? || a.RemoveStaged? || a.BeginCleanup?)
    ensures Unlisted(now.commit) == Unlisted(w.commit)
  {
  }

  lemma InsertKeepsRows(t: Tools, w: World, now: World)
    requires RowsOk(w) && Inserts(t, w, now)
    ensures RowsOk(now)
  {
    assert Keyed(now.files, now.disks);
    forall a | 0 <= a < |Cur(w).bucket.files|
      ensures !Listed(now.files, Cur(w).id, Cur(w).bucket.files[a].path)
    {
    }
    hide Listed;
    hide OnPlan;
  }

  lemma AdvanceListed(files: seq<FileRow>, plans: seq<DiscPlan>, index: nat)
    requires index < |plans| && ListedBefore(files, plans, index)
    requires ListedTo(files, plans[index], |plans[index].bucket.files|)
    ensures ListedBefore(files, plans, index + 1)
  {
    hide Listed;
  }

  lemma ListedMore(files: seq<FileRow>, row: FileRow, id: DiskId, path: string)
    ensures Listed(files + [row], id, path) <==> Listed(files, id, path) || (row.disk == id && row.path == path)
  {
    if Listed(files, id, path) {
      var i :| 0 <= i < |files| && files[i].disk == id && files[i].path == path;
      assert (files + [row])[i] == files[i];
    }
    if row.disk == id && row.path == path {
      assert (files + [row])[|files|] == row;
    }
  }

  /** The effect of inserting file `k` of the current disc. */
  ghost predicate InsertsFile(t: Tools, w: World, now: World, k: nat, row: FileRow) {
    && HasCur(w) && k < |Cur(w).bucket.files| && Cur(w).bucket.files[k].path in w.staging
    && w.commit != Off && Unlisted(w.commit) == Pending(w.commit) == k
    && now.commit == Inserted(k)
    && now.job == w.job && now.mine == w.mine && now.disks == w.disks && now.sealed == w.sealed
    && now.media == w.media && now.staging == w.staging
    && now.files == w.files + [row]
    && row.disk == Cur(w).id && row.path == Cur(w).bucket.files[k].path && row.size == Cur(w).bucket.files[k].size
    && row.hash == t.hash(w.staging[row.path])
  }

  lemma InsertFileInserts(t: Tools, w: World, now: World) returns (k: nat, row: FileRow)
    requires Act(t, w, InsertFile, now)
    ensures InsertsFile(t, w, now, k, row)
  {
    k := w.commit.k;
    row := now.files[|w.files|];
  }

  /** While files are being recorded, the current disc's row is there and is a data disc's. */
  lemma CurIsData(t: Tools, w: World)
    requires JobOk(w) && DisksOk(t, w) && HasCur(w) && w.commit != Off && Cur(w).bucket.files != []
    ensures Cur(w).id in w.disks && w.disks[Cur(w).id].role == Data && Cur(w).role == Data
  {
    PlanFacts(w.job.value.plans, w.job.value.options, w.base);
  }

  lemma InsertFileKeepsRows(t: Tools, w: World, now: World)
    requires JobOk(w) && DisksOk(t, w) && RowsOk(w) && Act(t, w, InsertFile, now)
    ensures RowsOk(now)
  {
    var k, row := InsertFileInserts(t, w, now);
    hide Act;
    CurFilesDiffer(w);
    PlanFacts(w.job.value.plans, w.job.value.options, w.base);
    hide PlansOk;
    assert !Listed(w.files, row.disk, row.path);
    CurIsData(t, w);
    InsertFileKeyed(w.files, w.disks, row);
    InsertFileListed(w.files, row, w.job.value.plans, w.job.value.index, k);
    InsertFilePlanwise(w.files, row, w.job.value.plans, w.job.value.index, k);
    hide Planwise;
    hide Keyed;
    hide ListedBefore;
    hide ListedTo;
  }

  lemma InsertFileKeyed(files: seq<FileRow>, disks: map<DiskId, DiskRow>, row: FileRow)
    requires Keyed(files, disks) && row.disk in disks && disks[row.disk].role == Data
    requires !Listed(files, row.disk, row.path)
    ensures Keyed(files + [row], disks)
  {
    var now := files + [row];
    forall i, j | 0 <= i < j < |now|
      ensures now[i].disk != now[j].disk || now[i].path != now[j].path
    {
      assert now[i] == files[i];
      assert j < |files| ==> now[j] == files[j];
    }
  }

  lemma InsertFilePlanwise(files: seq<FileRow>, row: FileRow, plans: seq<DiscPlan>, index: nat, k: nat)
    requires index < |plans| && IdsDiffer(plans) && Planwise(files, plans, index + 1)
    requires k < |plans[index].bucket.files|
    requires row.disk == plans[index].id && row.path == plans[index].bucket.files[k].path
    ensures Planwise(files + [row], plans, index + 1)
  {
    assert OnPlan(plans[index], row.path);
    hide OnPlan;
    forall i | 0 <= i < |files + [row]|
      ensures (files + [row])[i] == if i < |files| then files[i] else row
    {
    }
  }

  lemma InsertFileListed(files: seq<FileRow>, row: FileRow, plans: seq<DiscPlan>, index: nat, k: nat)
    requires index < |plans| && ListedBefore(files, plans, index) && ListedTo(files, plans[index], k)
    requires k < |plans[index].bucket.files|
    requires row.disk == plans[index].id && row.path == plans[index].bucket.files[k].path
    requires forall a, b :: 0 <= a < b < |plans[index].bucket.files| ==>
               plans[index].bucket.files[a].path != plans[index].bucket.files[b].path
    ensures ListedBefore(files + [row], plans, index) && ListedTo(files + [row], plans[index], k + 1)
  {
    hide Listed;
    forall d, p
      ensures Listed(files + [row], d, p) <==> Listed(files, d, p) || (d == row.disk && p == row.path)
    {
      ListedMore(files, row, d, p);
    }
  }

  lemma CurFilesDiffer(w: World)
    requires JobOk(w) && HasCur(w)
    ensures forall a, b :: 0 <= a < b < |Cur(w).bucket.files| ==>
              Cur(w).bucket.files[a].path != Cur(w).bucket.files[b].path
  {
    var plans, j := w.job.value.plans, w.job.value.index;
    assert DistinctFiles(plans);
    forall a, b | 0 <= a < b < |plans[j].bucket.files|
      ensures plans[j].bucket.files[a].path != plans[j].bucket.files[b].path
    {
    }
  }
}
