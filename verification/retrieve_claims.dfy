/**
 * The retrieval manager under concurrent callers. Each atomic step is one critical section
 * of Manager.mu in internal/retrieve/retrieve.go, or a thread's move between two of them.
 * Abort is not among the calls, because no route makes it; what it would do is at the end.
 */
module RetrieveClaims {
  import opened Bytes
  import opened DiskIds
  import opened Retrieve

  /** Jobs and reconstructors are shared objects, known by their position. */
  datatype SharedJob = SharedJob(disk: DiskId, state: RetrieveState)

  datatype SharedRec = SharedRec(missing: DiskId, capacity: nat, images: map<DiskId, Bytes>)

  /** Where a thread is: what it captured when it claimed the job. */
  datatype Pc =
    | Outside
    | InRead(job: nat)                              // ReadDisk, until its outcome is set
    | InStart(job: nat)                             // StartReconstruction, looking up the group
    | InStarted(job: nat, rec: nat, capacity: nat)  // ... with a reconstructor made
    | InFold(job: nat, rec: nat, capacity: nat)     // ReadReconstructionDisc, before the fold
    | InFolded(job: nat)                            // ... after it, perhaps reading the rebuilt image

  /** `rooms` is the catalog's: the capacity of each disc's media type. */
  datatype Shared = Shared(
    rooms: map<DiskId, nat>, jobs: seq<SharedJob>, recs: seq<SharedRec>,
    current: Option<nat>, reconstructor: Option<nat>, capacity: nat, threads: seq<Pc>)

  datatype Move =
    | Leave | Start(disk: DiskId)
    | ClaimRead | EndRead(outcome: RetrieveState)
    | ClaimStart | MakeReconstructor | StartFails | StartEnds
    | ClaimFold | FoldFails | FoldImage(id: DiskId, image: Bytes) | FoldEnds

  predicate HasJob(s: Shared) {
    s.current.Some? && s.current.value < |s.jobs|
  }

  function Job(s: Shared): SharedJob
    requires HasJob(s)
  {
    s.jobs[s.current.value]
  }

  function SetState(s: Shared, job: nat, state: RetrieveState): Shared
    requires job < |s.jobs|
  {
    s.(jobs := s.jobs[job := s.jobs[job].(state := state)])
  }

  function At(s: Shared, i: nat, pc: Pc): Shared
    requires i < |s.threads|
  {
    s.(threads := s.threads[i := pc])
  }

  function Fold(s: Shared, rec: nat, id: DiskId, image: Bytes): Shared
    requires rec < |s.recs|
  {
    s.(recs := s.recs[rec := s.recs[rec].(images := s.recs[rec].images[id := image])])
  }

  /** The outcomes of readFrom. */
  predicate Outcome(state: RetrieveState) {
    state == Retrieved || state == RetrieveFailed || state == NeedsReconstruction
  }

  /** Thread `i` makes one move. `Leave` is any call that is refused, Current and Remaining. */
  predicate Moves(s: Shared, i: nat, m: Move, now: Shared)
    requires i < |s.threads|
  {
    var pc := s.threads[i];
    match m
    case Leave => pc.Outside? && now == s
    case Start(disk) =>
      && pc.Outside?
      && (s.current.None? || (HasJob(s) && (Job(s).state == Retrieved || Job(s).state == RetrieveFailed)))
      && now == s.(jobs := s.jobs + [SharedJob(disk, AwaitingMedia)], current := Some(|s.jobs|))
    case ClaimRead =>
      && pc.Outside? && HasJob(s) && Job(s).state == AwaitingMedia
      && now == At(SetState(s, s.current.value, ReadingDisc), i, InRead(s.current.value))
    case EndRead(outcome) =>
      && (pc.InRead? || pc.InFolded?) && pc.job < |s.jobs| && Outcome(outcome)
      && now == At(SetState(s, pc.job, outcome), i, Outside)
    case ClaimStart =>
      && pc.Outside? && HasJob(s) && Job(s).state == NeedsReconstruction
      && now == At(SetState(s, s.current.value, StartingReconstruction), i, InStart(s.current.value))
    case MakeReconstructor =>
      && pc.InStart? && pc.job < |s.jobs| && s.jobs[pc.job].disk in s.rooms
      && var capacity := s.rooms[s.jobs[pc.job].disk];
         now == At(s.(recs := s.recs + [SharedRec(s.jobs[pc.job].disk, capacity, map[])]), i,
                      InStarted(pc.job, |s.recs|, capacity))
    case StartFails =>
      && pc.InStart? && pc.job < |s.jobs|
      && now == At(SetState(s, pc.job, NeedsReconstruction), i, Outside)
    case StartEnds =>
      && pc.InStarted? && pc.job < |s.jobs|
      && now == At(SetState(s, pc.job, Reconstructing).(reconstructor := Some(pc.rec), capacity := pc.capacity), i,
                   Outside)
    case ClaimFold =>
      && pc.Outside? && HasJob(s) && s.reconstructor.Some? && Job(s).state == Reconstructing
      && now == At(SetState(s, s.current.value, ReadingReconstructionDisc), i,
                   InFold(s.current.value, s.reconstructor.value, s.capacity))
    case FoldFails =>
      && pc.InFold? && pc.job < |s.jobs|
      && now == At(SetState(s, pc.job, Reconstructing), i, Outside)
    case FoldImage(id, image) =>
      && pc.InFold? && pc.job < |s.jobs| && pc.rec < |s.recs|
      && now == At(Fold(s, pc.rec, id, image), i, InFolded(pc.job))
    case FoldEnds =>  // more discs are needed, or the rebuilt image cannot be written
      && pc.InFolded? && pc.job < |s.jobs|
      && now == At(SetState(s, pc.job, Reconstructing), i, Outside)
  }

  ghost predicate Steps(s: Shared, now: Shared) {
    exists i, m :: 0 <= i < |s.threads| && Moves(s, i, m, now)
  }

  ghost predicate Interleaving(run: seq<Shared>) {
    && run != []
    && forall i, j :: 0 <= i < j < |run| && j == i + 1 ==> Steps(run[i], run[j])
  }

  ghost predicate Fresh(s: Shared) {
    && s.jobs == [] && s.recs == [] && s.current.None? && s.reconstructor.None?
    && forall i :: 0 <= i < |s.threads| ==> s.threads[i].Outside?
  }

  // ---- The claim discipline ----------------------------------------------------------------

  /** The states in which some thread holds the job. */
  predicate Held(state: RetrieveState) {
    state == ReadingDisc || state == StartingReconstruction || state == ReadingReconstructionDisc
  }

  /** The state that goes with where the worker is. */
  predicate Fits(pc: Pc, state: RetrieveState) {
    match pc
    case Outside => false
    case InRead(_) => state == ReadingDisc
    case InStart(_) => state == StartingReconstruction
    case InStarted(_, _, _) => state == StartingReconstruction
    case InFold(_, _, _) => state == ReadingReconstructionDisc
    case InFolded(_) => state == ReadingReconstructionDisc
  }

  /** Thread `i` is the one worker, on the manager's job, with the manager's reconstructor if it folds. */
  ghost predicate WorksAlone(s: Shared, i: nat) {
    && i < |s.threads| && HasJob(s) && !s.threads[i].Outside? && s.threads[i].job == s.current.value
    && Fits(s.threads[i], Job(s).state)
    && (s.threads[i].InStarted? ==> RecFor(s, s.threads[i].rec, s.threads[i].capacity))
    && (s.threads[i].InFold? ==> s.reconstructor == Some(s.threads[i].rec) && s.capacity == s.threads[i].capacity)
    && (forall k :: 0 <= k < |s.threads| && k != i ==> s.threads[k].Outside?)
  }

  /** The reconstructor rebuilds the current job's disc, at that capacity, which is its media type's. */
  ghost predicate RecFor(s: Shared, rec: nat, capacity: nat) {
    && HasJob(s) && rec < |s.recs| && s.recs[rec].missing == Job(s).disk && s.recs[rec].capacity == capacity
    && Job(s).disk in s.rooms && capacity == s.rooms[Job(s).disk]
  }

  /**
   * A thread works on a job exactly while its state is READING_DISC, STARTING_RECONSTRUCTION or
   * READING_RECONSTRUCTION_DISC; it is the only one, on the manager's job. While the job is
   * being reconstructed, the stored reconstructor and capacity are those of its disc.
   */
  ghost predicate Claimed(s: Shared) {
    && (s.current.Some? ==> HasJob(s) && s.current.value == |s.jobs| - 1)
    && (HasJob(s) && Held(Job(s).state) ==> exists i :: WorksAlone(s, i))
    && (!HasJob(s) || !Held(Job(s).state) ==> forall i :: 0 <= i < |s.threads| ==> s.threads[i].Outside?)
    && (HasJob(s) && (Job(s).state == Reconstructing || Job(s).state == ReadingReconstructionDisc) ==>
          s.reconstructor.Some? && RecFor(s, s.reconstructor.value, s.capacity))
  }

  lemma InsideIsWorker(s: Shared, i: nat)
    requires Claimed(s) && i < |s.threads| && !s.threads[i].Outside?
    ensures WorksAlone(s, i) && Held(Job(s).state)
  {
    var k :| WorksAlone(s, k);
    assert k == i;
  }

  lemma OutsideKeepsClaimed(s: Shared, i: nat, m: Move, now: Shared)
    requires Claimed(s) && i < |s.threads| && Moves(s, i, m, now) && s.threads[i].Outside?
    ensures Claimed(now)
  {
    if m.ClaimRead? || m.ClaimStart? || m.ClaimFold? {
      assert WorksAlone(now, i);
    }
  }

  lemma InsideKeepsClaimed(s: Shared, i: nat, m: Move, now: Shared)
    requires Claimed(s) && i < |s.threads| && Moves(s, i, m, now) && WorksAlone(s, i) && Held(Job(s).state)
    ensures Claimed(now)
  {
    if m.MakeReconstructor? || m.FoldImage? {
      assert WorksAlone(now, i);
    }
  }

  lemma MoveKeepsClaimed(s: Shared, i: nat, m: Move, now: Shared)
    requires Claimed(s) && i < |s.threads| && Moves(s, i, m, now)
    ensures Claimed(now)
  {
    if s.threads[i].Outside? {
      OutsideKeepsClaimed(s, i, m, now);
    } else {
      InsideIsWorker(s, i);
      InsideKeepsClaimed(s, i, m, now);
    }
  }

  /** The claim discipline holds in every interleaving of any number of threads. */
  lemma {:induction false} InterleavingIsClaimed(run: seq<Shared>, n: nat)
    requires Interleaving(run) && Fresh(run[0]) && n < |run|
    ensures Claimed(run[n])
  {
    if n > 0 {
      InterleavingIsClaimed(run, n - 1);
      assert Steps(run[n - 1], run[n]);
      var i, m :| 0 <= i < |run[n - 1].threads| && Moves(run[n - 1], i, m, run[n]);
      MoveKeepsClaimed(run[n - 1], i, m, run[n]);
    }
  }

  /**
   * In every interleaving: while the job is being reconstructed, the stored reconstructor is
   * for its disc, of the stored capacity, which is that of the disc's media type; and so is
   * the one a folding thread captured.
   */
  lemma ReconstructorIsCurrent(run: seq<Shared>, n: nat)
    requires Interleaving(run) && Fresh(run[0]) && n < |run|
    ensures var s := run[n];
            HasJob(s) && (Job(s).state == Reconstructing || Job(s).state == ReadingReconstructionDisc) ==>
              && s.reconstructor.Some? && s.reconstructor.value < |s.recs|
              && s.recs[s.reconstructor.value].missing == Job(s).disk
              && s.recs[s.reconstructor.value].capacity == s.capacity
              && Job(s).disk in s.rooms && s.capacity == s.rooms[Job(s).disk]
              && forall i :: 0 <= i < |s.threads| && s.threads[i].InFold? ==>
                   s.threads[i].job == s.current.value && Some(s.threads[i].rec) == s.reconstructor
                   && s.threads[i].capacity == s.capacity
  {
    var s := run[n];
    InterleavingIsClaimed(run, n);
    forall i | 0 <= i < |s.threads| && !s.threads[i].Outside?
      ensures WorksAlone(s, i)
    {
      InsideIsWorker(s, i);
    }
  }

  /** Exactly one thread works in the three held states, and none in any other. */
  lemma WorkerIffHeld(s: Shared)
    requires Claimed(s)
    ensures HasJob(s) && Held(Job(s).state) <==>
              exists i :: 0 <= i < |s.threads| && !s.threads[i].Outside?
    ensures forall i, k ::
              (0 <= i < |s.threads| && 0 <= k < |s.threads| && !s.threads[i].Outside? && !s.threads[k].Outside?) ==>
                  i == k
    ensures forall i :: 0 <= i < |s.threads| && !s.threads[i].Outside? ==> s.current == Some(s.threads[i].job)
  {
    if HasJob(s) && Held(Job(s).state) {
      var i :| WorksAlone(s, i);
    }
    forall i | 0 <= i < |s.threads| && !s.threads[i].Outside?
      ensures WorksAlone(s, i)
    {
      InsideIsWorker(s, i);
    }
  }

  /** A fold always goes into the stored reconstructor, which is that of the job's own disc. */
  lemma FoldsIntoOwnReconstructor(s: Shared, i: nat, m: Move, now: Shared)
    requires Claimed(s) && i < |s.threads| && Moves(s, i, m, now) && m.FoldImage?
    ensures HasJob(s) && s.reconstructor == Some(s.threads[i].rec) && s.recs[s.threads[i].rec].missing == Job(s).disk
    ensures forall r :: 0 <= r < |s.recs| && r != s.threads[i].rec ==> now.recs[r] == s.recs[r]
    ensures now.recs[s.threads[i].rec].images == s.recs[s.threads[i].rec].images[m.id := m.image]
  {
    InsideIsWorker(s, i);
  }

  /** A reconstructor's images change by folds only: in every other move they stay as they are. */
  lemma OnlyFoldsChangeImages(s: Shared, i: nat, m: Move, now: Shared, r: nat)
    requires i < |s.threads| && Moves(s, i, m, now) && r < |s.recs| && !m.FoldImage?
    ensures r < |now.recs| && now.recs[r] == s.recs[r]
  {
  }

  /** While a thread works, no other thread changes anything, so its call is as if it were alone. */
  lemma OthersDoNotInterfere(s: Shared, i: nat, k: nat, m: Move, now: Shared)
    requires Claimed(s) && i < |s.threads| && k < |s.threads| && i != k
    requires !s.threads[i].Outside? && Moves(s, k, m, now)
    ensures now == s
  {
    InsideIsWorker(s, i);
  }

  // ---- Abort -------------------------------------------------------------------------------------

  /** Manager.Abort: job, reconstructor and capacity are dropped, whatever a thread may be doing. */
  function Aborted(s: Shared): Shared {
    s.(current := None, reconstructor := None, capacity := 0)
  }

  /** A thread is between claiming a reconstruction and storing its reconstructor. */
  ghost predicate Starting(s: Shared, i: nat) {
    i < |s.threads| && (s.threads[i].InStart? || s.threads[i].InStarted?)
  }

  /** Interleavings in which the job may also be aborted, but not while a reconstruction is being started. */
  ghost predicate AbortingInterleaving(run: seq<Shared>) {
    && run != []
    && forall i, j :: 0 <= i < j < |run| && j == i + 1 ==> Steps(run[i], run[j]) || Aborts(run[i], run[j])
  }

  ghost predicate Aborts(s: Shared, now: Shared) {
    now == Aborted(s) && forall i: nat :: !Starting(s, i)
  }

  /** The thread works on the manager's job, and not on one that was aborted under it. */
  ghost predicate OnCurrent(s: Shared, i: nat) {
    i < |s.threads| && !s.threads[i].Outside? && s.current == Some(s.threads[i].job)
  }

  ghost predicate ReconstructorOk(s: Shared) {
    HasJob(s) && (Job(s).state == Reconstructing || Job(s).state == ReadingReconstructionDisc) ==>
      s.reconstructor.Some? && RecFor(s, s.reconstructor.value, s.capacity)
  }

  /** What a thread on the manager's job knows; one that starts a reconstruction is always on it. */
  ghost predicate ThreadOk(s: Shared, i: nat) {
    i < |s.threads| && !s.threads[i].Outside? ==>
      && s.threads[i].job < |s.jobs| && (Starting(s, i) ==> OnCurrent(s, i))
      && (OnCurrent(s, i) ==>
            && HasJob(s) && Fits(s.threads[i], Job(s).state)
            && (s.threads[i].InStarted? ==> RecFor(s, s.threads[i].rec, s.threads[i].capacity))
            && (s.threads[i].InFold? ==>
                  s.reconstructor == Some(s.threads[i].rec) && s.capacity == s.threads[i].capacity))
  }

  /** What is left of the claim discipline when threads may still be at work on aborted jobs. */
  ghost predicate Tended(s: Shared) {
    && (s.current.Some? ==> HasJob(s) && s.current.value == |s.jobs| - 1)
    && ReconstructorOk(s)
    && (forall i: nat :: ThreadOk(s, i))
    && (forall i: nat, k: nat :: OnCurrent(s, i) && OnCurrent(s, k) ==> i == k)
  }

  lemma MoveKeepsTended(s: Shared, i: nat, m: Move, now: Shared)
    requires Tended(s) && i < |s.threads| && Moves(s, i, m, now)
    ensures Tended(now)
  {
    assert ThreadOk(s, i);
    MoverIsOk(s, i, m, now);
    forall k: nat
      ensures ThreadOk(now, k) && (k != i && OnCurrent(now, k) ==> OnCurrent(s, k) && !OnCurrent(now, i))
    {
      if k != i {
        OtherIsOk(s, i, m, now, k);
      }
    }
    hide Moves;
    hide ThreadOk;
    hide OnCurrent;
    hide ReconstructorOk;
  }

  lemma MoverIsOk(s: Shared, i: nat, m: Move, now: Shared)
    requires Tended(s) && i < |s.threads| && Moves(s, i, m, now)
    ensures ThreadOk(now, i) && ReconstructorOk(now)
    ensures now.current.Some? ==> HasJob(now) && now.current.value == |now.jobs| - 1
  {
    assert ThreadOk(s, i);
  }

  /** A thread that does not move stays where it is; if it is on the current job, no other gets onto it. */
  lemma OtherIsOk(s: Shared, i: nat, m: Move, now: Shared, k: nat)
    requires Tended(s) && i < |s.threads| && Moves(s, i, m, now) && k != i
    ensures ThreadOk(now, k) && (OnCurrent(now, k) ==> OnCurrent(s, k) && !OnCurrent(now, i))
  {
    assert ThreadOk(s, i) && ThreadOk(s, k);
    assert OnCurrent(s, i) && OnCurrent(s, k) ==> i == k;
  }

  lemma AbortKeepsTended(s: Shared, now: Shared)
    requires Tended(s) && Aborts(s, now)
    ensures Tended(now)
  {
    forall k: nat
      ensures ThreadOk(now, k)
    {
      assert ThreadOk(s, k) && !Starting(s, k);
    }
  }

  lemma FreshIsTended(s: Shared)
    requires Fresh(s)
    ensures Tended(s)
  {
  }

  lemma StepKeepsTended(s: Shared, now: Shared)
    requires Tended(s) && (Steps(s, now) || Aborts(s, now))
    ensures Tended(now)
  {
    hide Tended;
    hide Moves;
    hide Aborts;
    if Aborts(s, now) {
      AbortKeepsTended(s, now);
    } else {
      var i, m :| 0 <= i < |s.threads| && Moves(s, i, m, now);
      MoveKeepsTended(s, i, m, now);
    }
  }

  lemma {:induction false} AbortingIsTended(run: seq<Shared>, n: nat)
    requires AbortingInterleaving(run) && Fresh(run[0]) && n < |run|
    ensures Tended(run[n])
  {
    hide Tended;
    hide Steps;
    hide Aborts;
    hide Fresh;
    if n == 0 {
      FreshIsTended(run[0]);
    } else {
      AbortingIsTended(run, n - 1);
      StepKeepsTended(run[n - 1], run[n]);
    }
  }

  /**
   * Aborting is harmless as long as no reconstruction is being started at that moment, even
   * with threads left at work on the aborted job: in every such interleaving the stored
   * reconstructor and capacity are those of the current job's disc while it is being
   * reconstructed, and so are those of a thread that folds for it; and at most one thread
   * works on the current job.
   */
  lemma ReconstructorSurvivesAborts(run: seq<Shared>, n: nat)
    requires AbortingInterleaving(run) && Fresh(run[0]) && n < |run|
    ensures var s := run[n];
            HasJob(s) && (Job(s).state == Reconstructing || Job(s).state == ReadingReconstructionDisc) ==>
              && s.reconstructor.Some? && s.reconstructor.value < |s.recs|
              && s.recs[s.reconstructor.value].missing == Job(s).disk
              && s.recs[s.reconstructor.value].capacity == s.capacity
              && Job(s).disk in s.rooms && s.capacity == s.rooms[Job(s).disk]
              && forall i: nat :: OnCurrent(s, i) && s.threads[i].InFold? ==>
                   Some(s.threads[i].rec) == s.reconstructor && s.threads[i].capacity == s.capacity
    ensures forall i: nat, k: nat :: OnCurrent(run[n], i) && OnCurrent(run[n], k) ==> i == k
  {
    AbortingIsTended(run, n);
    forall i: nat | OnCurrent(run[n], i)
      ensures ThreadOk(run[n], i)
    {
    }
  }

  /** One thread moves; a name for the concrete runs below. */
  ghost predicate Then(s: Shared, i: nat, m: Move, now: Shared) {
    i < |s.threads| && Moves(s, i, m, now)
  }

  /**
   * What goes wrong otherwise. Thread 0 starts a reconstruction of disc `a`; the job is
   * aborted meanwhile; thread 1 starts a job for disc `b` and its reconstruction. When
   * thread 0 ends, the job for `b` is being reconstructed with the reconstructor of `a`.
   */
  lemma AbortInFlightMixesDiscs(s0: Shared, a: DiskId, b: DiskId, rooms: map<DiskId, nat>)
      returns (s1: Shared, held: Shared, s3: Shared, s4: Shared, s5: Shared, s6: Shared, s7: Shared, s8: Shared,
               mixed: Shared)
    requires a != b && a in rooms && b in rooms
    requires s0 == Shared(rooms, [SharedJob(a, NeedsReconstruction)], [], Some(0), None, 0, [Outside, Outside])
    ensures Claimed(s0)
    ensures Then(s0, 0, ClaimStart, s1) && Then(s1, 0, MakeReconstructor, held)
    ensures Then(Aborted(held), 1, Start(b), s3) && Then(s3, 1, ClaimRead, s4)
    ensures Then(s4, 1, EndRead(NeedsReconstruction), s5) && Then(s5, 1, ClaimStart, s6)
    ensures Then(s6, 1, MakeReconstructor, s7) && Then(s7, 1, StartEnds, s8)
    ensures Then(s8, 0, StartEnds, mixed)
    ensures HasJob(mixed) && Job(mixed) == SharedJob(b, Reconstructing)
    ensures mixed.reconstructor == Some(0) && |mixed.recs| == 2 && mixed.recs[0].missing == a
    ensures mixed.capacity == rooms[a]
  {
    s1 := At(SetState(s0, 0, StartingReconstruction), 0, InStart(0));
    held := At(s1.(recs := [SharedRec(a, rooms[a], map[])]), 0, InStarted(0, 0, rooms[a]));
    var s2 := Aborted(held);
    s3 := s2.(jobs := s2.jobs + [SharedJob(b, AwaitingMedia)], current := Some(1));
    s4 := At(SetState(s3, 1, ReadingDisc), 1, InRead(1));
    s5 := At(SetState(s4, 1, NeedsReconstruction), 1, Outside);
    s6 := At(SetState(s5, 1, StartingReconstruction), 1, InStart(1));
    s7 := At(s6.(recs := s6.recs + [SharedRec(b, rooms[b], map[])]), 1, InStarted(1, 1, rooms[b]));
    s8 := At(SetState(s7, 1, Reconstructing).(reconstructor := Some(1), capacity := rooms[b]), 1, Outside);
    mixed := At(SetState(s8, 0, Reconstructing).(reconstructor := Some(0), capacity := rooms[a]), 0, Outside);
  }
}
