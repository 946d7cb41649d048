/** Failed commits over whole runs: what they block, and whose metadata they lose. */
module BurnMeta {
  import opened Bytes
  import opened XorDisk
  import opened DiskIds
  import opened Plan
  import opened PlanProps
  import opened Tools
  import opened BurnWorld
  import opened BurnInv
  import opened BurnKeep
  import opened BurnRuns
  import opened BurnFacts

  // ---- Partial commits -----------------------------------------------------------------

  /** A job becomes stuck exactly when a commit that already recorded the disc fails. */
  lemma StuckOnlyByFailedCommit(t: Tools, w: World, a: Action, now: World)
    requires Inv(t, w) && Act(t, w, a, now) && !Stuck(w)
    ensures Stuck(now) <==> a.Fail? && w.commit != Off
  {
    hide Inv;
    hide Act;
    hide Counted;
    MinePart(t, w);
    if a.InsertDisk? {
      InsertInserts(t, w, a.payload, now);
    } else if a.Advance? || a.StartJob? {
      NewCurrent(t, w, a, now);
    } else if a.Fail? {
      FailFails(t, w, now);
    } else if a.Restart? {
      RestartRestarts(t, w, now);
    } else {
      MostStayInPlace(t, w, a, now);
    }
  }

  /** A disc of the job bears an ID that another disc in the catalog already has. */
  ghost predicate Collides(w: World, j: nat) {
    w.job.Some? && j < |w.job.value.plans| && w.job.value.plans[j].id in w.disks && w.job.value.plans[j].id !in w.mine
  }

  /** Data discs are never met again: only a parity disc's ID can collide. */
  lemma CollisionsHitParityOnly(t: Tools, w: World, j: nat)
    requires Inv(t, w) && Collides(w, j)
    ensures w.disks[w.job.value.plans[j].id].role == Parity
  {
    hide Inv;
    hide NumbersOk;
    hide GroupsKnown;
    hide WrittenRows;
    DisksPart(t, w);
  }

  /** Disc `j` of the job cannot be finished: its ID is taken, or its commit failed midway. */
  ghost predicate Blocked(w: World, j: nat) {
    w.job.Some? && w.job.value.index <= j && (Collides(w, j) || (Stuck(w) && w.job.value.index == j))
  }

  /** A blocked disc stays blocked, and so unfinished, through every step but a new job and a restart. */
  lemma StepKeepsBlocked(t: Tools, w: World, a: Action, now: World, j: nat)
    requires Inv(t, w) && Act(t, w, a, now) && !a.StartJob? && !a.Restart? && Blocked(w, j)
    ensures Blocked(now, j) && now.job.value.plans == w.job.value.plans && now.jobs == w.jobs
  {
    hide Act;
    hide Inv;
    hide Collides;
    hide Stuck;
    SameJobCount(t, w, a, now);
    if Stuck(w) && w.job.value.index == j {
      MineCatalogued(t, w);
      StuckStays(t, w, a, now);
    } else {
      CollisionStays(t, w, a, now, j);
    }
  }

  lemma CollisionStays(t: Tools, w: World, a: Action, now: World, j: nat)
    requires Inv(t, w) && Act(t, w, a, now) && !a.StartJob? && !a.Restart? && Collides(w, j) && w.job.value.index <= j
    ensures Collides(now, j) && now.job.Some? && now.job.value.index <= j
    ensures now.job.value.plans == w.job.value.plans
  {
    hide Act;
    hide Inv;
    if a.InsertDisk? {
      InsertInserts(t, w, a.payload, now);
      hide RowOf;
    } else if a.Advance? {
      AdvanceAdvances(t, w, now);
      CurIsMine(t, w);
    } else if a.Fail? {
      FailFails(t, w, now);
    } else if a.Restart? {
      RestartRestarts(t, w, now);
    } else {
      MostStayInPlace(t, w, a, now);
    }
  }

  lemma StuckStays(t: Tools, w: World, a: Action, now: World)
    requires Act(t, w, a, now) && !a.StartJob? && !a.Restart? && Stuck(w) && w.mine <= w.disks.Keys
    ensures Stuck(now) && w.commit == Off && now.job.Some? && now.job.value.index == w.job.value.index
    ensures now.job.value.plans == w.job.value.plans
  {
    hide Act;
    if a.InsertDisk? {
      InsertInserts(t, w, a.payload, now);
    } else if a.Advance? {
      AdvanceAdvances(t, w, now);
    } else if a.Fail? {
      FailFails(t, w, now);
    } else if a.Restart? {
      RestartRestarts(t, w, now);
    } else {
      MostStayInPlace(t, w, a, now);
    }
  }

  lemma MineCatalogued(t: Tools, w: World)
    requires Inv(t, w) && w.job.Some?
    ensures w.mine <= w.disks.Keys
  {
    hide Inv;
    hide Counted;
    MinePart(t, w);
  }

  lemma CurIsMine(t: Tools, w: World)
    requires Inv(t, w) && HasCur(w) && w.commit != Off
    ensures Cur(w).id in w.mine
  {
    hide Inv;
    hide Counted;
    MinePart(t, w);
  }

  lemma SameJobCount(t: Tools, w: World, a: Action, now: World)
    requires Act(t, w, a, now)
    ensures now.jobs == w.jobs + (if a.StartJob? then 1 else 0)
  {
    hide Act;
    if a.InsertDisk? {
      InsertInserts(t, w, a.payload, now);
    } else if a.Advance? {
      AdvanceAdvances(t, w, now);
    } else if a.StartJob? {
      StartStarts(t, w, a, now);
    } else if a.Fail? {
      FailFails(t, w, now);
    } else if a.Restart? {
      RestartRestarts(t, w, now);
    } else {
      MostStayInPlace(t, w, a, now);
    }
  }

  /**
   * Retrying does not help a job whose disc is blocked, by a collision or by a commit that
   * failed midway: as long as it is the job, it is never DONE.
   */
  lemma {:induction false} BlockedJobNeverDone(t: Tools, run: seq<World>, i: nat, k: nat, j: nat)
    requires Lawful(t) && Run(t, run) && Inv(t, run[0]) && i <= k < |run|
    requires Blocked(run[i], j) && run[k].jobs == run[i].jobs && run[k].job.Some?
    ensures Blocked(run[k], j) && run[k].job.value.plans == run[i].job.value.plans
    ensures run[k].job.value.state != Done
  {
    hide *;
    if i < k {
      var a := RunStep(t, run, k - 1);
      SameJobCount(t, run[k - 1], a, run[k]);
      JobStays(t, run[k - 1], a, run[k]);
      JobsOnlyGrow(t, run, i, k - 1);
      BlockedJobNeverDone(t, run, i, k - 1, j);
      RunKeepsInv(t, run, k - 1);
      StepKeepsBlocked(t, run[k - 1], a, run[k], j);
    }
    RunKeepsInv(t, run, k);
    BlockedNotDone(t, run[k], j);
  }

  lemma BlockedNotDone(t: Tools, w: World, j: nat)
    requires Inv(t, w) && Blocked(w, j)
    ensures w.job.value.state != Done
  {
    hide Inv;
    hide PlansOk;
    JobPart(t, w);
  }

  lemma {:induction false} JobsOnlyGrow(t: Tools, run: seq<World>, i: nat, k: nat)
    requires Run(t, run) && i <= k < |run|
    ensures run[i].jobs <= run[k].jobs
  {
    hide *;
    if i < k {
      JobsOnlyGrow(t, run, i, k - 1);
      var a := RunStep(t, run, k - 1);
      SameJobCount(t, run[k - 1], a, run[k]);
    }
  }

  // ---- Metadata --------------------------------------------------------------------------------

  /** commitDisc holds `m`, taken for `path`, between reading it and inserting the row. */
  ghost predicate InHand(w: World, path: string, m: Meta) {
    && HasCur(w) && w.commit.Consumed? && w.commit.held == Some(m)
    && w.commit.k < |Cur(w).bucket.files| && Cur(w).bucket.files[w.commit.k].path == path
  }

  /** Where metadata given to a path can be. */
  datatype Place = Waiting | Held | InRow(row: nat) | Gone(at: nat)

  /**
   * The one place of `m`, given to `path` when the files table had `rows` rows and `lost`
   * entries were lost: staged; in commitDisc's hands; in a row inserted since; or lost since.
   */
  ghost predicate Lies(w: World, path: string, m: Meta, rows: nat, lost: nat, place: Place) {
    match place
    case Waiting => path in w.metadata && w.metadata[path] == m
    case Held => path !in w.metadata && InHand(w, path, m)
    case InRow(r) =>
      && path !in w.metadata && !InHand(w, path, m)
      && rows <= r < |w.files| && w.files[r].path == path && w.files[r].meta == m
    case Gone(at) =>
      && path !in w.metadata && !InHand(w, path, m)
      && lost <= at < |w.lost| && w.lost[at] == (path, m)
  }

  /** How it may move on: taken, then put into the next row or lost, and then no more. */
  predicate MovesOn(w: World, place: Place, next: Place) {
    match place
    case Waiting => next == Waiting || next == Held
    case Held => next == Held || next == InRow(|w.files|) || next == Gone(|w.lost|)
    case InRow(_) => next == place
    case Gone(_) => next == place
  }

  /** The steps that concern metadata; all others leave it where it is. */
  lemma SameMeta(t: Tools, w: World, a: Action, now: World)
    requires Act(t, w, a, now) && !a.TagFile? && !a.Consume? && !a.Fail? && !a.Restart?
    ensures now.metadata == w.metadata && now.lost == w.lost
  {
    hide Act;
    if a.InsertDisk? {
      InsertInserts(t, w, a.payload, now);
    } else if a.Advance? {
      AdvanceAdvances(t, w, now);
    } else if a.StartJob? {
      StartStarts(t, w, a, now);
    } else {
      MostStayInPlace(t, w, a, now);
    }
  }

  /** Nothing but taking it puts metadata into commitDisc's hands. */
  lemma SameHand(t: Tools, w: World, a: Action, now: World)
    requires Act(t, w, a, now) && !a.Consume? && HasCur(now) && now.commit.Consumed?
    ensures w.commit == now.commit && HasCur(w) && Cur(w) == Cur(now)
  {
    hide Act;
    if a.InsertDisk? {
      InsertInserts(t, w, a.payload, now);
    } else if a.Advance? {
      AdvanceAdvances(t, w, now);
    } else if a.StartJob? {
      StartStarts(t, w, a, now);
    } else if a.Fail? {
      FailFails(t, w, now);
    } else if a.Restart? {
      RestartRestarts(t, w, now);
    } else {
      MostStayInPlace(t, w, a, now);
      if a.InsertFile? || a.RemoveStaged? || a.BeginCleanup? {
        HandEmpty(t, w, a, now);
      }
    }
  }

  lemma HandEmpty(t: Tools, w: World, a: Action, now: World)
    requires Act(t, w, a, now) && (a.InsertFile? || a.RemoveStaged? || a.BeginCleanup?)
    ensures !now.commit.Consumed?
  {
    hide Committable;
    hide PlansOk;
    hide PlanCovers;
    hide AllStaged;
    hide OnlyOwnEntries;
    hide Completed;
    hide IsPlanned;
    hide Written;
    match a {
      case InsertFile =>
      case RemoveStaged =>
      case BeginCleanup =>
    }
  }

  /** What commitDisc holds stays there, is inserted, or is lost. */
  lemma HandKeeps(t: Tools, w: World, a: Action, now: World)
    requires Act(t, w, a, now) && !a.StartJob? && !a.InsertFile? && !a.Fail? && !a.Restart?
    requires HasCur(w) && w.commit.Consumed?
    ensures now.commit == w.commit && HasCur(now) && Cur(now) == Cur(w)
  {
    hide Act;
    if a.InsertDisk? {
      InsertInserts(t, w, a.payload, now);
    } else if a.Advance? {
      AdvanceAdvances(t, w, now);
    } else {
      MostStayInPlace(t, w, a, now);
      if a.Consume? || a.RemoveStaged? || a.BeginCleanup? {
        HandFull(t, w, a, now);
      }
    }
  }

  lemma HandFull(t: Tools, w: World, a: Action, now: World)
    requires Act(t, w, a, now) && (a.Consume? || a.RemoveStaged? || a.BeginCleanup?)
    ensures !w.commit.Consumed?
  {
    hide Committable;
    hide PlansOk;
    hide PlanCovers;
    hide AllStaged;
    hide OnlyOwnEntries;
    hide Completed;
    hide IsPlanned;
    hide Written;
    match a {
      case Consume =>
      case RemoveStaged =>
      case BeginCleanup =>
    }
  }

  /** One step moves metadata on along its way, or leaves it where it is. */
  lemma StepMovesMeta(t: Tools, w: World, a: Action, now: World, path: string, m: Meta, rows: nat, lost: nat,
                      place: Place)
      returns (next: Place)
    requires Inv(t, w) && Act(t, w, a, now) && Lies(w, path, m, rows, lost, place)
    requires rows <= |w.files| && lost <= |w.lost| && !(a.TagFile? && a.path == path)
    ensures Lies(now, path, m, rows, lost, next) && MovesOn(w, place, next)
    ensures place.Held? && next.InRow? ==> HasCur(w) && now.files[next.row].disk == Cur(w).id
    ensures w.files <= now.files && w.lost <= now.lost
  {
    hide Inv;
    RowsOnlyAdded(t, w, a, now);
    LostOnlyAdded(t, w, a, now);
    match place {
      case Waiting =>
        next := WaitingMoves(t, w, a, now, path, m, rows, lost);
      case Held =>
        next := HeldMoves(t, w, a, now, path, m, rows, lost);
      case _ =>
        next := place;
        StaysAbsent(t, w, a, now, path, m);
        hide Act;
    }
  }

  lemma LostOnlyAdded(t: Tools, w: World, a: Action, now: World)
    requires Act(t, w, a, now)
    ensures w.lost <= now.lost
  {
    hide *;
    if a.Fail? || a.Restart? {
      AttemptLoses(t, w, a, now);
    } else if a.TagFile? || a.Consume? {
      MostStayInPlace(t, w, a, now);
    } else {
      SameMeta(t, w, a, now);
    }
  }

  /** A failure and a restart lose what a commit holds. */
  lemma AttemptLoses(t: Tools, w: World, a: Action, now: World)
    requires Act(t, w, a, now) && (a.Fail? || a.Restart?)
    ensures w.lost <= now.lost
    ensures |now.lost| <= |w.lost| + (if w.commit != Off then 1 else 0)
    ensures now.lost == w.lost + Dropped(w)
  {
  }

  lemma WaitingMoves(t: Tools, w: World, a: Action, now: World, path: string, m: Meta, rows: nat, lost: nat)
      returns (next: Place)
    requires Act(t, w, a, now) && Lies(w, path, m, rows, lost, Waiting) && !(a.TagFile? && a.path == path)
    ensures Lies(now, path, m, rows, lost, next) && MovesOn(w, Waiting, next)
  {
    if a.Consume? {
      next := if Cur(w).bucket.files[w.commit.k].path == path then Held else Waiting;
    } else {
      next := Waiting;
      if !a.TagFile? {
        hide Act;
        SameMetaAlways(t, w, a, now);
      }
    }
  }

  lemma SameMetaAlways(t: Tools, w: World, a: Action, now: World)
    requires Act(t, w, a, now) && !a.TagFile? && !a.Consume?
    ensures now.metadata == w.metadata
  {
    hide Act;
    if a.Fail? {
      FailFails(t, w, now);
    } else if a.Restart? {
      RestartRestarts(t, w, now);
    } else {
      SameMeta(t, w, a, now);
    }
  }

  lemma HeldMoves(t: Tools, w: World, a: Action, now: World, path: string, m: Meta, rows: nat, lost: nat)
      returns (next: Place)
    requires Inv(t, w) && Act(t, w, a, now) && Lies(w, path, m, rows, lost, Held) && !(a.TagFile? && a.path == path)
    requires rows <= |w.files| && lost <= |w.lost|
    ensures Lies(now, path, m, rows, lost, next) && MovesOn(w, Held, next)
    ensures next.InRow? ==> HasCur(w) && now.files[next.row].disk == Cur(w).id
  {
    hide Inv;
    if a.InsertFile? {
      next := InRow(|w.files|);
    } else if a.Fail? || a.Restart? {
      next := Gone(|w.lost|);
    } else if a.StartJob? {
      next := Held;
      NoCommitWhenIdle(t, w, a, now);
    } else {
      next := Held;
      HandKeeps(t, w, a, now);
      if !a.TagFile? && !a.Consume? {
        hide Act;
        SameMetaAlways(t, w, a, now);
      }
    }
  }

  /** Metadata that has been taken does not come back. */
  lemma StaysAbsent(t: Tools, w: World, a: Action, now: World, path: string, m: Meta)
    requires Act(t, w, a, now) && path !in w.metadata && !InHand(w, path, m) && !(a.TagFile? && a.path == path)
    ensures path !in now.metadata && !InHand(now, path, m)
  {
    if a.Consume? || a.TagFile? {
      OthersMeta(t, w, a, now, path, m);
    } else {
      hide Act;
      SameMetaAlways(t, w, a, now);
      if HasCur(now) && now.commit.Consumed? {
        SameHand(t, w, a, now);
      }
    }
  }

  lemma OthersMeta(t: Tools, w: World, a: Action, now: World, path: string, m: Meta)
    requires Act(t, w, a, now) && (a.Consume? || (a.TagFile? && a.path != path))
    requires path !in w.metadata && !InHand(w, path, m)
    ensures path !in now.metadata && !InHand(now, path, m)
  {
    hide *;
    if a.Consume? {
      ConsumesOther(t, w, now, path, m);
    } else {
      TagsOther(t, w, a.path, a.meta, now, path, m);
    }
  }

  lemma ConsumesOther(t: Tools, w: World, now: World, path: string, m: Meta)
    requires Act(t, w, Consume, now) && path !in w.metadata
    ensures path !in now.metadata && !InHand(now, path, m)
  {
  }

  lemma TagsOther(t: Tools, w: World, other: string, meta: Meta, now: World, path: string, m: Meta)
    requires Act(t, w, TagFile(other, meta), now) && other != path && path !in w.metadata && !InHand(w, path, m)
    ensures path !in now.metadata && !InHand(now, path, m)
  {
  }

  lemma NoCommitWhenIdle(t: Tools, w: World, a: Action, now: World)
    requires Inv(t, w) && Act(t, w, a, now) && a.StartJob?
    ensures w.commit == Off
  {
    StartStarts(t, w, a, now);
    hide Inv;
    hide Act;
    hide PlansOk;
    JobPart(t, w);
  }

  /**
   * Over runs in which the user does not tag `path` again, its metadata is always in exactly
   * one place: still staged, in commitDisc's hands, in a row of that path inserted since, on
   * the disc that was being committed when it was taken, or lost since with its commit.
   */
  lemma {:induction false} MetadataIsConserved(t: Tools, run: seq<World>, i: nat, j: nat, path: string, m: Meta)
      returns (place: Place, k: nat)
    requires Lawful(t) && Run(t, run) && Inv(t, run[0]) && i <= j < |run|
    requires path in run[i].metadata && run[i].metadata[path] == m
    requires forall k, l, other :: i <= k < l <= j && l == k + 1 ==> !Act(t, run[k], TagFile(path, other), run[l])
    ensures Lies(run[j], path, m, |run[i].files|, |run[i].lost|, place)
    ensures place.InRow? ==>
              && i <= k < j && InHand(run[k], path, m) && HasCur(run[k])
              && run[j].files[place.row].disk == Cur(run[k]).id
    ensures run[i].files <= run[j].files && run[i].lost <= run[j].lost
  {
    hide *;
    if i == j {
      place, k := Waiting, i;
      StillWaiting(run[i], path, m);
    } else {
      var before, taken := MetadataIsConserved(t, run, i, j - 1, path, m);
      RunKeepsInv(t, run, j - 1);
      var a := RunStep(t, run, j - 1);
      NotTagged(t, run[j - 1], a, run[j], path);
      place := StepMovesMeta(t, run[j - 1], a, run[j], path, m, |run[i].files|, |run[i].lost|, before);
      RowsSoFarStay(t, run[j - 1], run[j], path, m, |run[i].files|, |run[i].lost|, before, place);
      k := if before.InRow? then taken else j - 1;
    }
  }

  lemma NotTagged(t: Tools, w: World, a: Action, now: World, path: string)
    requires Act(t, w, a, now) && forall other :: !Act(t, w, TagFile(path, other), now)
    ensures !(a.TagFile? && a.path == path)
  {
    hide Act;
    match a {
      case TagFile(p, other) =>
      case _ =>
    }
  }

  lemma StillWaiting(w: World, path: string, m: Meta)
    requires path in w.metadata && w.metadata[path] == m
    ensures Lies(w, path, m, |w.files|, |w.lost|, Waiting)
  {
  }

  /** A row carrying the metadata stays as it is, and was put there out of commitDisc's hands. */
  lemma RowsSoFarStay(t: Tools, w: World, now: World, path: string, m: Meta, rows: nat, lost: nat,
                      place: Place, next: Place)
    requires Lies(w, path, m, rows, lost, place) && Lies(now, path, m, rows, lost, next) && MovesOn(w, place, next)
    requires w.files <= now.files
    ensures next.InRow? && !place.InRow? ==> place.Held? && InHand(w, path, m)
    ensures next.InRow? && place.InRow? ==>
              next == place && place.row < |w.files| && now.files[next.row] == w.files[place.row]
  {
    hide InHand;
  }

  // ---- Optical parity ----------------------------------------------------------------------------

  /** A parity disc's image is larger than the medium it is meant for. */
  lemma ParityImageTooBig(t: Tools, image: Bytes, plan: DiscPlan, opts: Options, images: seq<Bytes>)
    requires Lawful(t) && Built(t, image, plan, opts, Xor(images, opts.capacity))
    ensures |image| > opts.capacity
  {
    ImageExceedsPayload(t, image, plan, opts, Xor(images, opts.capacity));
  }

  lemma OpticalParityNotCommittable(t: Tools, w: World, payload: Bytes)
    requires Lawful(t) && HasCur(w) && Cur(w).role == Parity && Optical(w.job.value.options)
    ensures !Committable(t, w, payload)
  {
    hide Built;
    hide Lawful;
    if Committable(t, w, payload) {
      ImageExceedsPayload(t, w.media[Cur(w).id], Cur(w), w.job.value.options, payload);
    }
  }

  /** No parity disc of an optical job has been recorded. */
  ghost predicate OnlyDataBurned(w: World) {
    w.job.Some? && Optical(w.job.value.options) ==>
      forall j :: 0 <= j < WrittenTo(w) && j < |w.job.value.plans| ==> w.job.value.plans[j].role == Data
  }

  lemma StepKeepsOnlyData(t: Tools, w: World, a: Action, now: World)
    requires Lawful(t) && Act(t, w, a, now) && OnlyDataBurned(w)
    ensures OnlyDataBurned(now)
  {
    hide Lawful;
    hide Act;
    if a.InsertDisk? {
      InsertInserts(t, w, a.payload, now);
      InsertWasCommittable(t, w, a.payload, now);
      if Cur(w).role == Parity && Optical(w.job.value.options) {
        OpticalParityNotCommittable(t, w, a.payload);
      }
      hide RowOf;
      hide Committable;
    } else if a.Advance? {
      AdvanceAdvances(t, w, now);
    } else if a.StartJob? {
      StartStarts(t, w, a, now);
    } else if a.Fail? {
      FailFails(t, w, now);
    } else if a.Restart? {
      RestartRestarts(t, w, now);
    } else {
      MostStayInPlace(t, w, a, now);
    }
  }

  /**
   * In no run is a parity disc of an optical job ever recorded, so an optical job with
   * cross-disc parity is never DONE.
   */
  lemma {:induction false} OpticalParityNeverRecorded(t: Tools, run: seq<World>, n: nat)
    requires Lawful(t) && Run(t, run) && Initial(run[0]) && n < |run|
    ensures OnlyDataBurned(run[n])
    ensures run[n].job.Some? && run[n].job.value.options.crossParity && run[n].job.value.state == Done ==>
              run[n].job.value.options.dryRun || run[n].job.value.options.filesystem
  {
    hide *;
    InitialInv(t, run[0]);
    RunKeepsInv(t, run, n);
    if n == 0 {
      NothingBurned(run[0]);
    } else {
      OpticalParityNeverRecorded(t, run, n - 1);
      var a := RunStep(t, run, n - 1);
      StepKeepsOnlyData(t, run[n - 1], a, run[n]);
    }
    LastIsParity(t, run[n]);
  }

  lemma NothingBurned(w: World)
    requires Initial(w)
    ensures OnlyDataBurned(w)
  {
  }

  lemma LastIsParity(t: Tools, w: World)
    requires Inv(t, w) && OnlyDataBurned(w)
    ensures w.job.Some? && w.job.value.options.crossParity && w.job.value.state == Done ==>
              w.job.value.options.dryRun || w.job.value.options.filesystem
  {
    hide Inv;
    JobPart(t, w);
  }

  // ---- How much metadata can be lost ------------------------------------------------------------

  /** Each job has lost at most one path's metadata, and none while its current disc is not stuck. */
  ghost predicate LostBounded(w: World) {
    |w.lost| <= w.jobs && (w.job.Some? && !Stuck(w) ==> |w.lost| < w.jobs)
  }

  lemma StepKeepsLostBound(t: Tools, w: World, a: Action, now: World)
    requires Inv(t, w) && Act(t, w, a, now) && LostBounded(w)
    ensures LostBounded(now)
  {
    SameJobCount(t, w, a, now);
    LosesAtMostOne(t, w, a, now);
    if !Stuck(w) {
      StuckOnlyByFailedCommit(t, w, a, now);
    } else if !a.StartJob? && !a.Restart? {
      MineCatalogued(t, w);
      StuckStays(t, w, a, now);
    }
    JobStays(t, w, a, now);
    hide Act;
    hide Inv;
    hide Stuck;
  }

  /** Only a failing commit loses metadata: that of one file. */
  lemma LosesAtMostOne(t: Tools, w: World, a: Action, now: World)
    requires Act(t, w, a, now)
    ensures |now.lost| <= |w.lost| + (if (a.Fail? || a.Restart?) && w.commit != Off then 1 else 0)
  {
    hide *;
    if a.Fail? || a.Restart? {
      AttemptLoses(t, w, a, now);
    } else if a.TagFile? || a.Consume? {
      MostStayInPlace(t, w, a, now);
    } else {
      SameMeta(t, w, a, now);
    }
  }

  lemma JobStays(t: Tools, w: World, a: Action, now: World)
    requires Act(t, w, a, now)
    ensures now.job.Some? <==> !a.Restart? && (w.job.Some? || a.StartJob?)
  {
    hide Act;
    if a.InsertDisk? {
      InsertInserts(t, w, a.payload, now);
    } else if a.Advance? {
      AdvanceAdvances(t, w, now);
    } else if a.StartJob? {
      StartStarts(t, w, a, now);
    } else if a.Fail? {
      FailFails(t, w, now);
    } else if a.Restart? {
      RestartRestarts(t, w, now);
    } else {
      MostStayInPlace(t, w, a, now);
    }
  }

  lemma InitialLost(w: World)
    requires Initial(w)
    ensures LostBounded(w)
  {
  }

  /** Over every run, at most one path's metadata is lost per job, whatever fails and is retried. */
  lemma {:induction false} LostMetadataBound(t: Tools, run: seq<World>, i: nat)
    requires Lawful(t) && Run(t, run) && Initial(run[0]) && i < |run|
    ensures LostBounded(run[i])
  {
    hide *;
    InitialInv(t, run[0]);
    InitialLost(run[0]);
    if i > 0 {
      LostMetadataBound(t, run, i - 1);
      RunKeepsInv(t, run, i - 1);
      var a := RunStep(t, run, i - 1);
      StepKeepsLostBound(t, run[i - 1], a, run[i]);
    }
  }
}
