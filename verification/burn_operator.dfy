/** The operator at the burn manager: when a job gets done. */
module BurnOperator {
  import opened Bytes
  import opened XorDisk
  import opened DiskIds
  import opened Plan
  import opened PlanProps
  import opened Tools
  import opened BurnWorld
  import opened BurnInv
  import opened BurnKeep
  import opened BurnRuns
  import opened BurnFacts
  import opened BurnMeta
  import opened BurnSteps
  import opened BurnCommit
  import opened BurnManager

  // ---- What a job needs to get done -----------------------------------------------------------

  predicate Remaining(w: World, j: nat) {
    w.job.Some? && w.job.value.index <= j < |w.job.value.plans|
  }

  /** None of the discs still to come is stuck or bears an ID that the catalog already has. */
  ghost predicate Unblocked(w: World) {
    !Stuck(w) && forall j: nat :: Remaining(w, j) ==> !Collides(w, j)
  }

  /** An attempt at disc `j` may yield this image, with the files as they are staged. */
  ghost predicate MayBuild(t: Tools, w: World, j: nat, image: Bytes)
    requires w.job.Some? && j < |w.job.value.plans|
  {
    var opts, plan := w.job.value.options, w.job.value.plans[j];
    match plan.role
    case Data =>
      && AllStaged(plan.bucket.files, w.staging)
      && Built(t, image, plan, opts, Archive(t, MembersOf(plan.bucket.files, w.staging), opts.compress))
    case Parity =>
      exists payload :: |payload| == opts.capacity && Built(t, image, plan, opts, payload)
  }

  /** Whatever is built for the discs still to come fits on its medium. */
  ghost predicate EveryImageFits(t: Tools, w: World) {
    forall j: nat, image :: Remaining(w, j) && MayBuild(t, w, j, image) ==> HasRoom(w.job.value.options, image)
  }

  ghost predicate SomeImageFits(t: Tools, w: World, j: nat)
    requires w.job.Some? && j < |w.job.value.plans|
  {
    exists image :: MayBuild(t, w, j, image) && HasRoom(w.job.value.options, image)
  }

  /** No earlier attempt at a disc still to come has left par2 volumes in spool. */
  ghost predicate NoLeftovers(w: World) {
    forall j: nat :: Remaining(w, j) ==> VolumeName(w.job.value.plans[j].id) !in w.spool
  }

  /** A file, on a file system or of a dry run, may have any size. */
  lemma FilesAlwaysFit(t: Tools, w: World)
    requires w.job.Some? && !Optical(w.job.value.options)
    ensures EveryImageFits(t, w)
  {
    hide MayBuild;
  }

  /** No image of an optical parity disc fits: its payload alone has the medium's size. */
  lemma ParityNeverFits(t: Tools, w: World, j: nat)
    requires Lawful(t) && Remaining(w, j) && w.job.value.plans[j].role == Parity && Optical(w.job.value.options)
    ensures !SomeImageFits(t, w, j)
  {
    hide Lawful;
    hide Built;
    forall image | MayBuild(t, w, j, image)
      ensures !HasRoom(w.job.value.options, image)
    {
      var opts, plan := w.job.value.options, w.job.value.plans[j];
      var payload :| |payload| == opts.capacity && Built(t, image, plan, opts, payload);
      ImageExceedsPayload(t, image, plan, opts, payload);
    }
    hide MayBuild;
  }

  // ---- From disc to disc ------------------------------------------------------------------------

  /** None of the discs still to come is in the catalog. */
  ghost predicate RestIsFree(w: World) {
    forall j: nat :: Remaining(w, j) ==> w.job.value.plans[j].id !in w.disks
  }

  /** Of the discs still to come, those in the catalog are collisions or the stuck one. */
  lemma RestIsFreeIff(t: Tools, w: World)
    requires Inv(t, w) && w.commit == Off
    ensures RestIsFree(w) <==> Unblocked(w)
  {
    hide Inv;
    hide Counted;
    MinePart(t, w);
    if w.job.Some? {
      var plans, index := w.job.value.plans, w.job.value.index;
      forall j: nat | index <= j < |plans|
        ensures plans[j].id in w.disks <==> Collides(w, j) || (j == index && Stuck(w))
      {
      }
      hide MineOk;
      hide Collides;
      if Stuck(w) {
        assert Remaining(w, index);
      }
    }
  }

  /** Later in the same job: nothing was staged since. */
  ghost predicate Later(was: World, w: World) {
    && was.job.Some? && w.job.Some?
    && w.job.value.plans == was.job.value.plans && w.job.value.options == was.job.value.options
    && was.job.value.index <= w.job.value.index
    && (forall p <- w.staging :: p in was.staging && w.staging[p] == was.staging[p])
    && (forall j: nat :: Remaining(w, j) ==>
          (VolumeName(w.job.value.plans[j].id) in w.spool <==> VolumeName(w.job.value.plans[j].id) in was.spool))
  }

  /** What is built later could have been built before. */
  lemma LaterAttempt(t: Tools, was: World, w: World, image: Bytes)
    requires Later(was, w) && HasCur(w) && IsAttempt(t, w, image)
    ensures MayBuild(t, was, w.job.value.index, image)
  {
    hide Built;
    hide GroupData;
    hide Xor;
    hide Archive;
    var plan, opts := Cur(w), w.job.value.options;
    var payload :| IsPayload(t, w, plan, payload) && Built(t, image, plan, opts, payload);
    if plan.role == Data {
      assert MembersOf(plan.bucket.files, w.staging) == MembersOf(plan.bucket.files, was.staging);
    } else {
      assert |payload| == opts.capacity;
    }
  }

  lemma LaterFits(t: Tools, was: World, w: World)
    requires Later(was, w) && HasCur(w) && EveryImageFits(t, was)
    ensures !OverSize(t, w)
  {
    hide IsAttempt;
    hide MayBuild;
    hide HasRoom;
    forall image | IsAttempt(t, w, image)
      ensures HasRoom(w.job.value.options, image)
    {
      LaterAttempt(t, was, w, image);
      assert Remaining(was, w.job.value.index);
    }
  }

  /** The disc that was burned fitted. */
  lemma BurnedFits(t: Tools, was: World, w: World, now: World)
    requires Later(was, w) && DiscBurned(t, w, now)
    ensures SomeImageFits(t, was, w.job.value.index)
  {
    BurnedIsAttempt(t, w, now);
    LaterAttempt(t, was, w, now.media[Cur(w).id]);
    hide DiscBurned;
    hide MayBuild;
  }

  lemma BurnedIsAttempt(t: Tools, w: World, now: World)
    requires DiscBurned(t, w, now)
    ensures HasCur(w) && Cur(w).id in now.media
    ensures IsAttempt(t, w, now.media[Cur(w).id]) && HasRoom(w.job.value.options, now.media[Cur(w).id])
  {
    hide IsPayload;
    hide Built;
    hide SpoolAfter;
    hide RowsFor;
    hide PathsOf;
    hide RowOf;
  }

  lemma BurnedMovesOn(t: Tools, was: World, w: World, now: World)
    requires Later(was, w) && DiscBurned(t, w, now) && IdsDiffer(w.job.value.plans)
    requires now.job.Some? && now.job.value.plans == w.job.value.plans && now.job.value.options == w.job.value.options
    requires now.job.value.index == w.job.value.index + 1
    ensures Later(was, now) && VolumeName(Cur(w).id) !in was.spool
    ensures RestIsFree(w) ==> RestIsFree(now)
  {
    hide IsPayload;
    hide Built;
    hide SpoolAfter;
    hide RowsFor;
    hide PathsOf;
    hide RowOf;
    hide VolumeName;
    assert Remaining(w, w.job.value.index);
    forall j: nat | Remaining(now, j)
      ensures Remaining(w, j)
      ensures VolumeName(w.job.value.plans[j].id) in now.spool <==> VolumeName(w.job.value.plans[j].id) in w.spool
    {
      OtherVolumesStay(w.spool, now.spool, w.job.value.plans, Cur(w), w.job.value.plans[j].id);
    }
    assert now.disks.Keys == w.disks.Keys + {Cur(w).id};
    if RestIsFree(w) {
      forall j: nat | Remaining(now, j)
        ensures now.job.value.plans[j].id !in now.disks
      {
        assert Remaining(w, j);
      }
    }
  }

  /** Burning one disc neither makes nor removes another disc's volumes. */
  lemma OtherVolumesStay(was: map<string, Node>, now: map<string, Node>, plans: seq<DiscPlan>, plan: DiscPlan,
                         other: DiskId)
    requires SpoolAfter(was, now, plans, plan) && other != plan.id
    ensures VolumeName(other) in now <==> VolumeName(other) in was
  {
    var spool :| OnlyOwnEntries(was, spool, plan.id)
      && if plan.role == Parity then OnlyGroupIsos(spool, now, plans, plan.group) else now == spool;
    OwnNamesDisjoint(plan.id, other);
    assert VolumeName(other) in OwnNames(other);
    assert VolumeName(other) in spool <==> VolumeName(other) in was;
    if plan.role == Parity {
      VolumesStay(spool, now, plans, plan.group, other);
    }
    hide OnlyGroupIsos;
  }

  lemma IdsOfJobDiffer(t: Tools, w: World)
    requires Inv(t, w) && w.job.Some?
    ensures IdsDiffer(w.job.value.plans)
  {
    hide Inv;
    hide PlansOk;
    JobPart(t, w);
    PlanFacts(w.job.value.plans, w.job.value.options, w.base);
  }

  lemma NoCommitBetween(t: Tools, w: World)
    requires Inv(t, w) && w.job.Some? && (w.job.value.state == AwaitingDisc || w.job.value.state == Failed)
    ensures HasCur(w) && w.commit == Off
  {
    hide Inv;
    hide PlansOk;
    JobPart(t, w);
  }

  /** A job that became DONE was unblocked and, on optical media, had no parity disc to come. */
  lemma DoneWasUnblocked(t: Tools, trace: seq<World>, w: World, i: nat)
    requires Reached(t, trace, w) && i < |trace| && trace[i].jobs == w.jobs && trace[i].job.Some?
    requires w.job.Some? && w.job.value.state == Done
    ensures Unblocked(trace[i])
    ensures !(Optical(w.job.value.options) && w.job.value.options.crossParity)
  {
    hide Inv;
    hide Run;
    hide Lawful;
    hide Stuck;
    hide Collides;
    InitialInv(t, trace[0]);
    OpticalParityNeverRecorded(t, trace, |trace| - 1);
    if Stuck(trace[i]) {
      BlockedJobNeverDone(t, trace, i, |trace| - 1, trace[i].job.value.index);
    }
    forall j: nat | Remaining(trace[i], j)
      ensures !Collides(trace[i], j)
    {
      if Collides(trace[i], j) {
        BlockedJobNeverDone(t, trace, i, |trace| - 1, j);
      }
    }
  }

  // ---- The operator -------------------------------------------------------------------------------

  /**
   * Retries a failed job, then burns disc after disc, each onto a new medium, until the job
   * is DONE or a disc fails. If no call fails, a job without a medium's limit gets done if
   * and only if it was unblocked and no attempt had left par2 volumes; an optical job gets
   * done if, besides, whatever is built for it fits, and only if something built for each
   * disc does. An optical job with cross-disc parity never gets done.
   */
  method FinishJob(m: Manager)
    requires m.Valid() && m.job.Some? && (m.job.value.state == AwaitingDisc || m.job.value.state == Failed)
    modifies m
    ensures m.Valid() && old(m.trace) <= m.trace && m.Tally(old(m.faults))
    ensures m.job.Some? && m.jobs == old(m.jobs) && m.job.value.plans == old(m.job).value.plans
    ensures m.overwritten == old(m.overwritten)
    ensures m.job.value.state == Done ==> Unblocked(old(m.W())) && NoLeftovers(old(m.W()))
    ensures m.job.value.state == Done ==>
              forall j: nat :: Remaining(old(m.W()), j) ==> SomeImageFits(m.t, old(m.W()), j)
    ensures m.job.value.state == Done ==>
              var opts := m.job.value.options; opts.dryRun || opts.filesystem || !opts.crossParity
    ensures m.faults == old(m.faults) && EveryImageFits(m.t, old(m.W())) ==>
              (Unblocked(old(m.W())) && NoLeftovers(old(m.W())) ==> m.job.value.state == Done)
    ensures m.faults == old(m.faults) && (m.job.value.options.dryRun || m.job.value.options.filesystem) ==>
              (m.job.value.state == Done <==> Unblocked(old(m.W())) && NoLeftovers(old(m.W())))
  {
    hide Reached;
    hide Inv;
    hide Lawful;
    hide Unblocked;
    hide RestIsFree;
    hide EveryImageFits;
    hide SomeImageFits;
    hide DiscBurned;
    hide OverSize;
    hide AttemptWritten;
    hide VolumeName;
    ghost var was, start := m.W(), |m.trace| - 1;
    ReachedInv(m.t, m.trace, was);
    NoCommitBetween(m.t, was);
    RestIsFreeIff(m.t, was);
    LastOfTrace(m.t, m.trace, was);
    ghost var able := Unblocked(was) && NoLeftovers(was) && EveryImageFits(m.t, was);
    var ok := true;
    if m.job.value.state == Failed {
      ok := m.Retry();
      SameRest(was, m.W());
    }
    while ok && m.job.value.state == AwaitingDisc
      invariant m.Valid() && old(m.trace) <= m.trace && m.Tally(old(m.faults)) && m.jobs == was.jobs
      invariant m.overwritten == old(m.overwritten)
      invariant m.job.Some? && m.job.value.plans == was.job.value.plans && m.job.value.options == was.job.value.options
      invariant if ok then Later(was, m.W()) && (m.Awaiting() || m.job.value.state == Done)
                else m.job.value.state == Failed
      invariant m.job.value.state == Done ==> m.job.value.index >= |m.job.value.plans|
      invariant m.faults == old(m.faults) && able ==> ok && RestIsFree(m.W())
      invariant forall j: nat :: Remaining(was, j) && j < m.job.value.index ==>
                  SomeImageFits(m.t, was, j) && VolumeName(was.job.value.plans[j].id) !in was.spool
      decreases |m.job.value.plans| - m.job.value.index, ok
    {
      ok := NextDisc(m, was, able);
    }
    if m.job.value.state == Done {
      DoneWasUnblocked(m.t, m.trace, m.W(), start);
    }
    if !Optical(m.job.value.options) {
      FilesAlwaysFit(m.t, was);
    }
  }

  lemma SameRest(was: World, w: World)
    requires was.job.Some? && w == SetJob(was, was.job.value.(state := AwaitingDisc, hasErr := false))
    ensures RestIsFree(was) <==> RestIsFree(w)
    ensures Later(was, w)
  {
    if RestIsFree(was) {
      forall j: nat | Remaining(w, j)
        ensures w.job.value.plans[j].id !in w.disks
      {
        assert Remaining(was, j);
      }
    }
    if RestIsFree(w) {
      forall j: nat | Remaining(was, j)
        ensures was.job.value.plans[j].id !in was.disks
      {
        assert Remaining(w, j);
      }
    }
  }

  /** One disc: the medium at the target is taken away, and the next one burned. */
  method NextDisc(m: Manager, ghost was: World, ghost able: bool) returns (ok: bool)
    requires m.Valid() && m.Awaiting() && Later(was, m.W())
    requires able ==> EveryImageFits(m.t, was) && NoLeftovers(was)
    modifies m
    ensures m.Valid() && old(m.trace) <= m.trace && m.Tally(old(m.faults)) && m.jobs == old(m.jobs)
    ensures m.overwritten == old(m.overwritten)
    ensures m.job.Some? && m.job.value.plans == old(m.job).value.plans
            && m.job.value.options == old(m.job).value.options
    ensures ok ==>
              && Later(was, m.W())
              && m.job.value.index == old(m.job).value.index + 1 <= |m.job.value.plans|
              && m.job.value.state == (if m.job.value.index >= |m.job.value.plans| then Done else AwaitingDisc)
              && SomeImageFits(m.t, was, old(m.job).value.index)
              && VolumeName(was.job.value.plans[old(m.job).value.index].id) !in was.spool
    ensures !ok ==> m.job.value.index == old(m.job).value.index && m.job.value.state == Failed
    ensures able && RestIsFree(old(m.W())) && m.faults == old(m.faults) ==> ok && RestIsFree(m.W())
  {
    hide Reached;
    hide Inv;
    hide Lawful;
    hide EveryImageFits;
    hide SomeImageFits;
    hide DiscBurned;
    hide OverSize;
    hide AttemptWritten;
    hide VolumeName;
    ReachedInv(m.t, m.trace, m.W());
    AwaitingHasCur(m.t, m.W());
    IdsOfJobDiffer(m.t, m.W());
    m.SwapMedium(m.job.value.options.target);
    ghost var w := m.W();
    assert Remaining(was, w.job.value.index) && Remaining(w, w.job.value.index);
    if able {
      LaterFits(m.t, was, w);
    }
    ok := m.ContinueNextDisc();
    if ok {
      BurnedFits(m.t, was, w, m.W());
      BurnedMovesOn(m.t, was, w, m.W());
    }
  }
}
