/** Disc numbers over whole runs: which jobs leave a gap, and that a prefix is wedged for ever once one collides. */
module BurnIds {
  import opened Bytes
  import opened DiskIds
  import opened Plan
  import opened PlanProps
  import opened Tools
  import opened BurnWorld
  import opened BurnInv
  import opened BurnKeep
  import opened BurnKeepData
  import opened BurnRuns
  import opened BurnMeta

  // ---- The numbers of one job ----------------------------------------------------------------

  lemma CurIsPlanned(t: Tools, w: World)
    requires Inv(t, w) && HasCur(w)
    ensures Cur(w).id.prefix == w.job.value.options.prefix && Cur(w).id.number > 0
    ensures w.job.value.state != Done
  {
    hide Inv;
    JobPart(t, w);
    assert PlanOk(Cur(w), w.job.value.options, w.base, w.job.value.index, |w.job.value.plans|);
    hide PlansOk;
  }

  /** A finished job has taken exactly the block of numbers after those it was planned over. */
  lemma DoneTakesTheBlock(t: Tools, w: World)
    requires Inv(t, w) && w.job.Some? && w.job.value.state == Done
    ensures var prefix := w.job.value.options.prefix;
            UpTo(prefix, w.base) + w.mine == UpTo(prefix, w.base + |w.job.value.plans|)
  {
    hide Inv;
    hide PlansOk;
    hide Counted;
    hide UpTo;
    JobPart(t, w);
    MinePart(t, w);
    BlockOfPlans(w.job.value.plans, w.job.value.options, w.base, w.mine);
  }

  lemma BlockOfPlans(plans: seq<DiscPlan>, opts: Options, base: nat, mine: set<DiskId>)
    requires PlansOk(plans, opts, base)
    requires forall j :: 0 <= j < |plans| ==> plans[j].id in mine
    requires forall id <- mine :: exists j :: 0 <= j < |plans| && plans[j].id == id
    ensures UpTo(opts.prefix, base) + mine == UpTo(opts.prefix, base + |plans|)
  {
    var block := UpTo(opts.prefix, base + |plans|);
    forall id | id in mine
      ensures id in block
    {
      var j :| 0 <= j < |plans| && plans[j].id == id;
      assert PlanOk(plans[j], opts, base, j, |plans|);
    }
    hide PlansOk;
    forall id | id in block
      ensures id in UpTo(opts.prefix, base) + mine
    {
      if id.number > base {
        IdsAreABlock(plans, opts, base, id.number);
      }
    }
  }

  /** The numbers of the job's prefix are those it was begun over, 1 to `base`, and those of its own discs. */
  ghost predicate OnBlock(w: World) {
    w.job.Some? ==>
      Counted(w.disks.Keys, w.job.value.options.prefix) == UpTo(w.job.value.options.prefix, w.base) + w.mine
  }

  /** That stays so while it is the job, whatever happened before and happens to other prefixes. */
  lemma StepKeepsBlock(t: Tools, w: World, a: Action, now: World)
    requires Inv(t, w) && Act(t, w, a, now) && OnBlock(w) && !a.StartJob?
    ensures OnBlock(now)
    ensures w.job.Some? && now.job.Some? ==>
              && now.base == w.base && now.job.value.plans == w.job.value.plans
              && now.job.value.options == w.job.value.options
  {
    hide Act;
    hide Inv;
    hide Counted;
    hide UpTo;
    if a.InsertDisk? {
      InsertInserts(t, w, a.payload, now);
      InsertOnBlock(t, w, now);
      hide RowOf;
    } else if a.Advance? {
      AdvanceAdvances(t, w, now);
    } else if a.Fail? {
      FailFails(t, w, now);
    } else if a.Restart? {
      RestartRestarts(t, w, now);
    } else {
      MostStayInPlace(t, w, a, now);
    }
  }

  lemma InsertOnBlock(t: Tools, w: World, now: World)
    requires Inv(t, w) && OnBlock(w) && Inserts(t, w, now)
    ensures OnBlock(now)
  {
    hide Inv;
    hide UpTo;
    hide Counted;
    hide RowOf;
    CurIsPlanned(t, w);
    CountsOwn(w.disks.Keys, Cur(w).id);
    assert now.disks.Keys == w.disks.Keys + {Cur(w).id};
  }

  lemma CountsOwn(ids: set<DiskId>, id: DiskId)
    ensures Counted(ids + {id}, id.prefix) == Counted(ids, id.prefix) + {id}
  {
    OwnPrefixIsCounted(id);
  }

  lemma {:induction false} BlockAlongJob(t: Tools, run: seq<World>, i: nat, k: nat)
    requires Lawful(t) && Run(t, run) && Inv(t, run[0]) && i <= k < |run|
    requires run[i].job.Some? && run[k].job.Some? && run[k].jobs == run[i].jobs && OnBlock(run[i])
    ensures OnBlock(run[k]) && run[k].base == run[i].base
    ensures run[k].job.value.plans == run[i].job.value.plans && run[k].job.value.options == run[i].job.value.options
  {
    hide *;
    if i < k {
      var a := RunStep(t, run, k - 1);
      SameJobCount(t, run[k - 1], a, run[k]);
      JobStays(t, run[k - 1], a, run[k]);
      JobsOnlyGrow(t, run, i, k - 1);
      BlockAlongJob(t, run, i, k - 1);
      RunKeepsInv(t, run, k - 1);
      StepKeepsBlock(t, run[k - 1], a, run[k]);
    }
  }

  lemma BegunOnBlock(w: World)
    requires w.job.Some? && w.mine == {}
    requires Counted(w.disks.Keys, w.job.value.options.prefix) == UpTo(w.job.value.options.prefix, w.base)
    ensures OnBlock(w)
  {
    hide Counted;
    hide UpTo;
  }

  /**
   * A job begun when the numbers of its prefix are 1 to `base` leaves them 1 to `base` plus
   * its discs when it is DONE. Nothing is asked of other jobs and other prefixes.
   */
  lemma DoneNumbers(t: Tools, run: seq<World>, i: nat, k: nat)
    requires Lawful(t) && Run(t, run) && Inv(t, run[0]) && i <= k < |run|
    requires run[i].job.Some? && run[i].mine == {}
    requires var prefix := run[i].job.value.options.prefix;
             Counted(run[i].disks.Keys, prefix) == UpTo(prefix, run[i].base)
    requires run[k].jobs == run[i].jobs && run[k].job.Some? && run[k].job.value.state == Done
    ensures var job := run[i].job.value;
            Counted(run[k].disks.Keys, job.options.prefix) == UpTo(job.options.prefix, run[i].base + |job.plans|)
  {
    hide Lawful;
    hide Run;
    hide Inv;
    hide Counted;
    hide UpTo;
    BegunOnBlock(run[i]);
    BlockAlongJob(t, run, i, k);
    RunKeepsInv(t, run, k);
    DoneTakesTheBlock(t, run[k]);
  }

  // ---- Which jobs leave a gap -------------------------------------------------------------------

  /** Given up now, the job would leave no gap: it has recorded no parity disc, or all discs but at most one. */
  ghost predicate LeavesNoGap(w: World) {
    w.job.Some? ==>
      || (forall j: nat :: j < |w.mine| && j < |w.job.value.plans| ==> w.job.value.plans[j].role == Data)
      || |w.mine| + 1 >= |w.job.value.plans|
  }

  /** The job has recorded its first discs, and no others. */
  lemma MineIsFirst(t: Tools, w: World)
    requires Inv(t, w) && w.job.Some?
    ensures |w.mine| <= |w.job.value.plans|
    ensures forall j: nat :: j < |w.job.value.plans| ==> (w.job.value.plans[j].id in w.mine <==> j < |w.mine|)
    ensures forall id <- w.mine :: exists j: nat :: j < |w.mine| && w.job.value.plans[j].id == id
    ensures w.base + |w.mine| == |Counted(w.disks.Keys, w.job.value.options.prefix)|
  {
    hide Inv;
    hide PlansOk;
    hide Counted;
    JobPart(t, w);
    MinePart(t, w);
    forall id | id in w.mine
      ensures exists j: nat :: j < |w.mine| && w.job.value.plans[j].id == id
    {
      var j :| 0 <= j < |w.job.value.plans| && w.job.value.plans[j].id == id;
    }
  }

  /** Whether the next numbers are free depends only on whether a number exceeds the count. */
  lemma NextAreFreeIff(ids: set<DiskId>, prefix: string)
    requires forall id <- Counted(ids, prefix) :: id.prefix == prefix
    ensures (forall k: nat :: NextDiskID(ids, prefix, k) !in ids)
      <==> (forall id <- Counted(ids, prefix) :: id.number <= |Counted(ids, prefix)|)
  {
    var n := |Counted(ids, prefix)|;
    forall k: nat | NextDiskID(ids, prefix, k) in ids
      ensures NextDiskID(ids, prefix, k) in Counted(ids, prefix)
    {
      OwnPrefixIsCounted(NextDiskID(ids, prefix, k));
    }
    forall id | id in Counted(ids, prefix) && id.number > n
      ensures NextDiskID(ids, prefix, id.number - n - 1) == id && id in ids
    {
    }
    hide Counted;
  }

  /**
   * Of a job begun over the numbers 1 to `base`: the next numbers are all free if and only if
   * it has recorded no parity disc yet, or all its discs but at most one. Nothing is asked of
   * other jobs and other prefixes.
   */
  lemma NextAreFreeIffNoGap(t: Tools, w: World)
    requires Inv(t, w) && w.job.Some? && OnBlock(w)
    ensures (forall k: nat :: NextDiskID(w.disks.Keys, w.job.value.options.prefix, k) !in w.disks) <==> LeavesNoGap(w)
  {
    hide Inv;
    hide PlansOk;
    hide Counted;
    hide NextDiskID;
    JobPart(t, w);
    MineIsFirst(t, w);
    var plans, prefix, c := w.job.value.plans, w.job.value.options.prefix, |w.mine|;
    FirstNumbersIff(plans, w.job.value.options, w.base, c);
    PlanFacts(plans, w.job.value.options, w.base);
    NextAreFreeIff(w.disks.Keys, prefix);
    var own := Counted(w.disks.Keys, prefix);
    assert (forall id <- own :: id.number <= w.base + c) <==>
           (forall j :: 0 <= j < c ==> plans[j].id.number <= w.base + c) by {
      forall j | 0 <= j < c
        ensures plans[j].id in own
      {
        assert plans[j].id in w.mine;
      }
    }
  }

  /**
   * The same over runs: a job begun over the numbers 1 to `base` and given up at any later
   * moment leaves the next numbers free if and only if it had recorded no parity disc, or all
   * its discs but at most one.
   */
  lemma AbandonedJobLeavesNoGapIff(t: Tools, run: seq<World>, i: nat, k: nat)
    requires Lawful(t) && Run(t, run) && Inv(t, run[0]) && i <= k < |run|
    requires run[i].job.Some? && run[i].mine == {}
    requires var prefix := run[i].job.value.options.prefix;
             Counted(run[i].disks.Keys, prefix) == UpTo(prefix, run[i].base)
    requires run[k].jobs == run[i].jobs && run[k].job.Some?
    ensures var prefix := run[i].job.value.options.prefix;
            (forall n: nat :: NextDiskID(run[k].disks.Keys, prefix, n) !in run[k].disks) <==> LeavesNoGap(run[k])
  {
    hide Lawful;
    hide Run;
    hide Inv;
    hide Counted;
    hide UpTo;
    hide NextDiskID;
    hide LeavesNoGap;
    BegunOnBlock(run[i]);
    BlockAlongJob(t, run, i, k);
    RunKeepsInv(t, run, k);
    NextAreFreeIffNoGap(t, run[k]);
  }

  // ---- Runs without gaps ------------------------------------------------------------------------

  /** The catalogued numbers of the prefix are 1, 2, ... up to their count. */
  ghost predicate GapFree(ids: set<DiskId>, prefix: string) {
    Counted(ids, prefix) == UpTo(prefix, |Counted(ids, prefix)|)
  }

  /** The prefix whose numbers are in flux: that of an unfinished job. */
  function InFlux(w: World): Option<string> {
    if w.job.Some? && w.job.value.state != Done then Some(w.job.value.options.prefix) else None
  }

  ghost predicate Ordered(ids: set<DiskId>, inFlux: Option<string>) {
    && Catalogued(ids)
    && forall prefix :: ':' !in prefix && inFlux != Some(prefix) ==> GapFree(ids, prefix)
  }

  /** During a job its own discs come on top of the gap-free numbers it was planned over. */
  ghost predicate NumbersInOrder(w: World) {
    && Ordered(w.disks.Keys, InFlux(w))
    && OnBlock(w) && (w.job.Some? ==> ':' !in w.job.value.options.prefix)
  }

  /** A job is given up, for a new one or by a restart, only when it leaves no gap; a new one's prefix has no colon. */
  ghost predicate InOrder(w: World, now: World) {
    && (now.jobs != w.jobs || now.job.None? ==> LeavesNoGap(w))
    && (now.jobs != w.jobs && now.job.Some? ==> ':' !in now.job.value.options.prefix)
  }

  lemma SamePlaceInOrder(w: World, now: World)
    requires NumbersInOrder(w) && SamePlace(w, now)
    requires w.job.Some? ==> (now.job.value.state == Done <==> w.job.value.state == Done)
    ensures NumbersInOrder(now)
  {
    hide Ordered;
    hide Counted;
    hide UpTo;
  }

  lemma InsertInOrder(t: Tools, w: World, now: World)
    requires Inv(t, w) && NumbersInOrder(w) && Inserts(t, w, now)
    ensures NumbersInOrder(now)
  {
    hide Inv;
    hide Ordered;
    hide OnBlock;
    hide RowOf;
    InsertOnBlock(t, w, now);
    CurIsPlanned(t, w);
    OrderedInsert(w.disks.Keys, Cur(w).id);
    assert now.disks.Keys == w.disks.Keys + {Cur(w).id};
  }

  lemma OrderedInsert(ids: set<DiskId>, id: DiskId)
    requires Ordered(ids, Some(id.prefix)) && ':' !in id.prefix && id.number > 0
    ensures Ordered(ids + {id}, Some(id.prefix))
  {
    hide GapFree;
    forall prefix | ':' !in prefix && prefix != id.prefix && GapFree(ids, prefix)
      ensures GapFree(ids + {id}, prefix)
    {
      OtherPrefixStays(ids, id, prefix);
    }
  }

  lemma OtherPrefixStays(ids: set<DiskId>, id: DiskId, prefix: string)
    requires ':' !in prefix && ':' !in id.prefix && prefix != id.prefix && GapFree(ids, prefix)
    ensures GapFree(ids + {id}, prefix)
  {
    CountedIsOwnPrefix(id, prefix);
    assert Counted(ids + {id}, prefix) == Counted(ids, prefix);
  }

  lemma AdvanceInOrder(t: Tools, w: World, now: World)
    requires Inv(t, w) && Inv(t, now) && NumbersInOrder(w) && Advances(w, now)
    ensures NumbersInOrder(now)
  {
    hide Inv;
    hide Ordered;
    hide Counted;
    hide UpTo;
    CurIsPlanned(t, w);
    if now.job.value.state == Done {
      DoneTakesTheBlock(t, now);
      OrderedAgain(w.disks.Keys, w.job.value.options.prefix, now.base + |now.job.value.plans|);
    }
  }

  lemma OrderedAgain(ids: set<DiskId>, prefix: string, n: nat)
    requires Ordered(ids, Some(prefix)) && Counted(ids, prefix) == UpTo(prefix, n)
    ensures Ordered(ids, None)
  {
    GapFreeFrom(ids, prefix, n);
    hide GapFree;
  }

  lemma GapFreeFrom(ids: set<DiskId>, prefix: string, n: nat)
    requires Counted(ids, prefix) == UpTo(prefix, n)
    ensures GapFree(ids, prefix)
  {
    assert |UpTo(prefix, n)| == n;
  }

  /** A job that leaves no gap leaves the numbers of its prefix in order. */
  lemma OrderedWithout(t: Tools, w: World)
    requires Inv(t, w) && NumbersInOrder(w) && LeavesNoGap(w)
    ensures Ordered(w.disks.Keys, None)
  {
    hide Inv;
    if w.job.Some? {
      var prefix := w.job.value.options.prefix;
      NextAreFreeIffNoGap(t, w);
      hide LeavesNoGap;
      NextIdsFreshIff(w.disks.Keys, prefix);
      hide Counted;
      hide UpTo;
      hide NextDiskID;
    }
  }

  lemma StartInOrder(w: World, now: World, plans: seq<DiscPlan>, opts: Options)
    requires Ordered(w.disks.Keys, None) && Starts(w, now, plans, opts) && InOrder(w, now)
    ensures NumbersInOrder(now)
  {
    hide Counted;
    hide UpTo;
    hide GapFree;
    StartsOnBlock(w.disks.Keys, opts.prefix);
  }

  lemma StartsOnBlock(ids: set<DiskId>, prefix: string)
    requires GapFree(ids, prefix)
    ensures Counted(ids, prefix) == UpTo(prefix, |Counted(ids, prefix)|)
  {
  }

  lemma StepInOrder(t: Tools, w: World, a: Action, now: World)
    requires Lawful(t) && Inv(t, w) && Act(t, w, a, now) && NumbersInOrder(w) && InOrder(w, now)
    ensures NumbersInOrder(now)
  {
    hide *;
    if a.InsertDisk? {
      InsertInserts(t, w, a.payload, now);
      InsertInOrder(t, w, now);
    } else if a.Advance? {
      AdvanceAdvances(t, w, now);
      KeepsInv(t, w, a, now);
      AdvanceInOrder(t, w, now);
    } else if a.StartJob? {
      StartStarts(t, w, a, now);
      SameJobCount(t, w, a, now);
      GivesUp(w, now);
      OrderedWithout(t, w);
      StartInOrder(w, now, a.plans, a.options);
    } else if a.Fail? {
      FailFails(t, w, now);
      FailInOrder(t, w, now);
    } else if a.Restart? {
      RestartRestarts(t, w, now);
      RestartInOrder(t, w, now);
    } else {
      MostStayInPlace(t, w, a, now);
      SameDone(t, w, a, now);
      SamePlaceInOrder(w, now);
    }
  }

  lemma GivesUp(w: World, now: World)
    requires InOrder(w, now) && now.jobs != w.jobs
    ensures LeavesNoGap(w)
  {
    hide LeavesNoGap;
  }

  lemma RestartInOrder(t: Tools, w: World, now: World)
    requires Inv(t, w) && NumbersInOrder(w) && Restarts(w, now) && InOrder(w, now)
    ensures NumbersInOrder(now)
  {
    hide Inv;
    hide LeavesNoGap;
    OrderedWithout(t, w);
    hide Ordered;
  }

  lemma FailInOrder(t: Tools, w: World, now: World)
    requires Inv(t, w) && NumbersInOrder(w) && Fails(w, now)
    ensures NumbersInOrder(now)
  {
    hide Inv;
    hide Ordered;
    hide Counted;
    hide UpTo;
    CurIsPlanned(t, w);
  }

  lemma SameDone(t: Tools, w: World, a: Action, now: World)
    requires Act(t, w, a, now) && !a.StartJob? && !a.InsertDisk? && !a.Advance? && !a.Fail? && !a.Restart?
    ensures w.job.Some? ==> now.job.Some? && (now.job.value.state == Done <==> w.job.value.state == Done)
  {
    MostStayInPlace(t, w, a, now);
    if !a.Claim? && !a.SetState? && !a.Retry? {
      hide Act;
    }
  }

  /**
   * Over runs in which jobs are given up only where that leaves no gap, no disc of a job is
   * ever found catalogued by another, and whenever the job could be given up so, or there is
   * none, NextDiskID proposes only free IDs.
   */
  lemma OrderlyJobsNeverCollide(t: Tools, run: seq<World>, i: nat)
    requires Lawful(t) && Run(t, run) && Initial(run[0]) && i < |run|
    requires forall k, l :: 0 <= k < l < |run| && l == k + 1 ==> InOrder(run[k], run[l])
    ensures forall j :: !Collides(run[i], j)
    ensures LeavesNoGap(run[i]) ==>
              forall prefix, k: nat :: ':' !in prefix ==> NextDiskID(run[i].disks.Keys, prefix, k) !in run[i].disks
  {
    hide *;
    InitialInv(t, run[0]);
    RunKeepsInv(t, run, i);
    RunInOrder(t, run, i);
    forall j
      ensures !Collides(run[i], j)
    {
      NoCollision(t, run[i], j);
    }
    if LeavesNoGap(run[i]) {
      OrderedWithout(t, run[i]);
      forall prefix, k: nat | ':' !in prefix
        ensures NextDiskID(run[i].disks.Keys, prefix, k) !in run[i].disks
      {
        NextIsFree(run[i].disks.Keys, prefix, k);
      }
    }
  }

  lemma {:induction false} RunInOrder(t: Tools, run: seq<World>, i: nat)
    requires Lawful(t) && Run(t, run) && Initial(run[0]) && i < |run|
    requires forall k, l :: 0 <= k < l < |run| && l == k + 1 ==> InOrder(run[k], run[l])
    ensures NumbersInOrder(run[i])
  {
    hide *;
    InitialInv(t, run[0]);
    if i == 0 {
      NoNumbersInOrder(run[0]);
    } else {
      RunInOrder(t, run, i - 1);
      RunKeepsInv(t, run, i - 1);
      var a := RunStep(t, run, i - 1);
      StepInOrder(t, run[i - 1], a, run[i]);
    }
  }

  lemma NoNumbersInOrder(w: World)
    requires Initial(w)
    ensures NumbersInOrder(w)
  {
    forall prefix
      ensures GapFree(w.disks.Keys, prefix)
    {
      assert Counted(w.disks.Keys, prefix) == {};
    }
  }

  lemma NoCollision(t: Tools, w: World, j: nat)
    requires Inv(t, w) && NumbersInOrder(w)
    ensures !Collides(w, j)
  {
    hide Inv;
    hide Ordered;
    JobPart(t, w);
    if w.job.Some? && j < |w.job.value.plans| {
      var id := w.job.value.plans[j].id;
      assert PlanOk(w.job.value.plans[j], w.job.value.options, w.base, j, |w.job.value.plans|);
      hide PlansOk;
      OwnPrefixIsCounted(id);
      assert id in w.disks <==> id in Counted(w.disks.Keys, w.job.value.options.prefix);
    }
  }

  lemma NextIsFree(ids: set<DiskId>, prefix: string, k: nat)
    requires Ordered(ids, None) && ':' !in prefix
    ensures NextDiskID(ids, prefix, k) !in ids
  {
    NextIdsFreshIff(ids, prefix);
  }

  // ---- A collision is for ever -----------------------------------------------------------------

  /** The next ID of the prefix is taken. */
  ghost predicate Wedged(ids: set<DiskId>, prefix: string) {
    Catalogued(ids) && ':' !in prefix && NextDiskID(ids, prefix, 0) in ids
  }

  /** ... and no job of the prefix is under way, or one whose first disc collides. */
  ghost predicate WedgedWorld(w: World, prefix: string) {
    && Wedged(w.disks.Keys, prefix)
    && (InFlux(w) == Some(prefix) ==> w.job.value.index == 0 && w.mine == {} && Collides(w, 0))
  }

  ghost predicate ColonFree(w: World) {
    w.job.Some? ==> ':' !in w.job.value.options.prefix
  }

  lemma StepKeepsWedged(t: Tools, w: World, a: Action, now: World, prefix: string)
    requires Inv(t, w) && Act(t, w, a, now) && WedgedWorld(w, prefix) && ColonFree(w)
    ensures WedgedWorld(now, prefix)
    ensures Counted(now.disks.Keys, prefix) == Counted(w.disks.Keys, prefix)
  {
    hide *;
    if a.InsertDisk? {
      InsertInserts(t, w, a.payload, now);
      InsertKeepsWedged(t, w, now, prefix);
    } else if a.Advance? {
      AdvanceAdvances(t, w, now);
      AdvanceKeepsWedged(t, w, now, prefix);
    } else if a.StartJob? {
      StartStarts(t, w, a, now);
      StartKeepsWedged(w, now, a.plans, a.options, prefix);
    } else if a.Fail? {
      FailFails(t, w, now);
      FailKeepsWedged(t, w, now, prefix);
    } else if a.Restart? {
      RestartRestarts(t, w, now);
      RestartKeepsWedged(w, now, prefix);
    } else {
      MostStayInPlace(t, w, a, now);
      SameDone(t, w, a, now);
      SamePlaceWedged(w, now, prefix);
    }
  }

  lemma InsertKeepsWedged(t: Tools, w: World, now: World, prefix: string)
    requires Inv(t, w) && WedgedWorld(w, prefix) && Inserts(t, w, now) && ColonFree(w)
    ensures WedgedWorld(now, prefix)
    ensures Counted(now.disks.Keys, prefix) == Counted(w.disks.Keys, prefix)
  {
    hide Inv;
    hide RowOf;
    CurIsPlanned(t, w);
    var id := Cur(w).id;
    CountedIsOwnPrefix(id, prefix);
    assert Counted(now.disks.Keys, prefix) == Counted(w.disks.Keys, prefix) by {
      assert now.disks.Keys == w.disks.Keys + {id};
    }
    hide Counted;
  }

  lemma AdvanceKeepsWedged(t: Tools, w: World, now: World, prefix: string)
    requires Inv(t, w) && WedgedWorld(w, prefix) && Advances(w, now)
    ensures WedgedWorld(now, prefix) && now.disks == w.disks
  {
    hide Inv;
    hide Counted;
    CurIsMine(t, w);
    CurIsPlanned(t, w);
  }

  lemma StartKeepsWedged(w: World, now: World, plans: seq<DiscPlan>, opts: Options, prefix: string)
    requires WedgedWorld(w, prefix) && Starts(w, now, plans, opts) && PlansOk(plans, opts, now.base)
    ensures WedgedWorld(now, prefix) && now.disks == w.disks
  {
    hide Counted;
    assert plans[0].role == Data && PlanOk(plans[0], opts, now.base, 0, |plans|);
    hide PlansOk;
    assert opts.prefix == prefix ==> plans[0].id == NextDiskID(w.disks.Keys, prefix, 0);
  }

  lemma FailKeepsWedged(t: Tools, w: World, now: World, prefix: string)
    requires Inv(t, w) && WedgedWorld(w, prefix) && Fails(w, now)
    ensures WedgedWorld(now, prefix) && now.disks == w.disks
  {
    hide Inv;
    hide Counted;
    CurIsPlanned(t, w);
  }

  lemma RestartKeepsWedged(w: World, now: World, prefix: string)
    requires WedgedWorld(w, prefix) && Restarts(w, now)
    ensures WedgedWorld(now, prefix) && now.disks == w.disks
  {
    hide Wedged;
  }

  lemma SamePlaceWedged(w: World, now: World, prefix: string)
    requires WedgedWorld(w, prefix) && SamePlace(w, now)
    requires w.job.Some? ==> (now.job.value.state == Done <==> w.job.value.state == Done)
    ensures WedgedWorld(now, prefix) && now.disks == w.disks
  {
    hide Wedged;
  }

  /**
   * Once the next ID of a prefix is taken, no disc of that prefix is ever catalogued again,
   * however many jobs are started, failed, retried and abandoned.
   */
  lemma {:induction false} WedgedForEver(t: Tools, run: seq<World>, i: nat, j: nat, prefix: string)
    requires Lawful(t) && Run(t, run) && Inv(t, run[0]) && i <= j < |run|
    requires WedgedWorld(run[i], prefix) && forall w <- run :: ColonFree(w)
    ensures WedgedWorld(run[j], prefix)
    ensures Counted(run[j].disks.Keys, prefix) == Counted(run[i].disks.Keys, prefix)
  {
    hide *;
    if i < j {
      WedgedForEver(t, run, i, j - 1, prefix);
      RunKeepsInv(t, run, j - 1);
      var a := RunStep(t, run, j - 1);
      StepKeepsWedged(t, run[j - 1], a, run[j], prefix);
    }
  }

  lemma OwnAreCounted(ids: set<DiskId>, prefix: string)
    requires forall id <- ids :: id.prefix == prefix
    ensures Counted(ids, prefix) == ids
  {
    forall id | id in ids
      ensures prefix + ":" <= Text(id)
    {
      OwnPrefixIsCounted(id);
    }
  }
}
