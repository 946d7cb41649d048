/**
 * The burn manager under concurrent callers. Each atomic step is one critical section of
 * Manager.mu in internal/burn/pipeline.go, or a thread's move between two of them.
 */
module BurnClaims {
  import opened Bytes
  import opened BurnWorld

  /** A job as a shared object: threads hold its identity, the manager points at the latest. */
  datatype SharedJob = SharedJob(state: State, index: nat, total: nat, dryRun: bool)

  /** Where a thread is: outside, inside runDisc having set `state` last, or past it with a result. */
  datatype Pc = Outside | InRun(job: nat, state: State) | Failing(job: nat) | Finishing(job: nat)

  datatype Shared = Shared(jobs: seq<SharedJob>, current: Option<nat>, threads: seq<Pc>)

  datatype Move = Start(total: nat, dryRun: bool) | Claim | SetState(state: State) | RunFails | RunSucceeds
                | MarkFailed | Advance | Retry | Leave

  predicate HasJob(s: Shared) {
    s.current.Some? && s.current.value < |s.jobs|
  }

  function Job(s: Shared): SharedJob
    requires HasJob(s)
  {
    s.jobs[s.current.value]
  }

  predicate Holds(pc: Pc, job: nat) {
    !pc.Outside? && pc.job == job
  }

  function With(s: Shared, job: nat, j: SharedJob): Shared
    requires job < |s.jobs|
  {
    s.(jobs := s.jobs[job := j])
  }

  function At(s: Shared, i: nat, pc: Pc): Shared
    requires i < |s.threads|
  {
    s.(threads := s.threads[i := pc])
  }

  /** Thread `i` makes one move. `Leave` is any call that is refused, and Current. */
  predicate Moves(s: Shared, i: nat, m: Move, now: Shared)
    requires i < |s.threads|
  {
    var pc := s.threads[i];
    match m
    case Leave => pc.Outside? && now == s
    case Start(total, dryRun) =>
      && pc.Outside? && total > 0
      && (s.current.None? || (HasJob(s) && (Job(s).state == Done || Job(s).state == Failed)))
      && now == s.(jobs := s.jobs + [SharedJob(AwaitingDisc, 0, total, dryRun)], current := Some(|s.jobs|))
    case Claim =>
      && pc.Outside? && HasJob(s) && Job(s).state == AwaitingDisc
      && now == At(With(s, s.current.value, Job(s).(state := Packing)), i, InRun(s.current.value, Packing))
    case SetState(state) =>
      && pc.InRun? && pc.job < |s.jobs| && LegalMove(pc.state, state)
      && now == At(With(s, pc.job, s.jobs[pc.job].(state := state)), i, InRun(pc.job, state))
    case RunFails => pc.InRun? && now == At(s, i, Failing(pc.job))
    case RunSucceeds =>
      && pc.InRun? && pc.job < |s.jobs|
      && pc.state == (if s.jobs[pc.job].dryRun then Burning else Verifying)
      && now == At(s, i, Finishing(pc.job))
    case MarkFailed =>
      && pc.Failing? && pc.job < |s.jobs|
      && now == At(With(s, pc.job, s.jobs[pc.job].(state := Failed)), i, Outside)
    case Advance =>
      && pc.Finishing? && pc.job < |s.jobs|
      && var j := s.jobs[pc.job];
         now == At(With(s, pc.job, j.(index := j.index + 1,
                                      state := if j.index + 1 >= j.total then Done else AwaitingDisc)), i, Outside)
    case Retry =>
      && pc.Outside? && HasJob(s) && Job(s).state == Failed
      && now == With(s, s.current.value, Job(s).(state := AwaitingDisc))
  }

  ghost predicate Steps(s: Shared, now: Shared) {
    exists i, m :: 0 <= i < |s.threads| && Moves(s, i, m, now)
  }

  ghost predicate Interleaving(run: seq<Shared>) {
    && run != []
    && forall i, j :: 0 <= i < j < |run| && j == i + 1 ==> Steps(run[i], run[j])
  }

  ghost predicate Fresh(s: Shared) {
    s.jobs == [] && s.current.None? && forall i :: 0 <= i < |s.threads| ==> s.threads[i].Outside?
  }

  // ---- The claim discipline ----------------------------------------------------------------

  /** Thread `i` is the one worker, and what it last set is what the job shows. */
  ghost predicate WorksAlone(s: Shared, i: nat) {
    && i < |s.threads| && HasJob(s) && Holds(s.threads[i], s.current.value)
    && (s.threads[i].InRun? ==> Job(s).state == s.threads[i].state)
    && (forall k :: 0 <= k < |s.threads| && k != i ==> s.threads[k].Outside?)
  }

  /**
   * A thread works on a job exactly while the job's state is one of PACKING to VERIFYING;
   * it is the only one, and the job it captured is still the manager's. Earlier jobs have
   * ended, and the index stays within the plans.
   */
  ghost predicate Claimed(s: Shared) {
    && (s.current.Some? ==> HasJob(s) && s.current.value == |s.jobs| - 1)
    && (s.current.None? ==> s.jobs == [])
    && (HasJob(s) && Running(Job(s).state) ==> exists i :: WorksAlone(s, i))
    && (!HasJob(s) || !Running(Job(s).state) ==> forall i :: 0 <= i < |s.threads| ==> s.threads[i].Outside?)
    && (forall j :: 0 <= j < |s.jobs| - 1 ==> s.jobs[j].state == Done || s.jobs[j].state == Failed)
    && (forall j :: 0 <= j < |s.jobs| ==>
          s.jobs[j].index <= s.jobs[j].total && (s.jobs[j].index == s.jobs[j].total <==> s.jobs[j].state == Done))
  }

  /** Only the worker can be inside, so whoever is inside is the worker. */
  lemma InsideIsWorker(s: Shared, i: nat)
    requires Claimed(s) && i < |s.threads| && !s.threads[i].Outside?
    ensures WorksAlone(s, i) && Running(Job(s).state)
  {
    var k :| WorksAlone(s, k);
    assert k == i;
  }

  lemma MoveKeepsClaimed(s: Shared, i: nat, m: Move, now: Shared)
    requires Claimed(s) && i < |s.threads| && Moves(s, i, m, now)
    ensures Claimed(now)
  {
    if !s.threads[i].Outside? {
      InsideIsWorker(s, i);
      InsideKeepsClaimed(s, i, m, now);
    } else {
      OutsideKeepsClaimed(s, i, m, now);
    }
  }

  lemma InsideKeepsClaimed(s: Shared, i: nat, m: Move, now: Shared)
    requires Claimed(s) && i < |s.threads| && Moves(s, i, m, now) && WorksAlone(s, i) && Running(Job(s).state)
    ensures Claimed(now)
  {
    if m.SetState? || m.RunFails? || m.RunSucceeds? {
      assert WorksAlone(now, i);
    }
  }

  lemma OutsideKeepsClaimed(s: Shared, i: nat, m: Move, now: Shared)
    requires Claimed(s) && i < |s.threads| && Moves(s, i, m, now) && s.threads[i].Outside?
    ensures Claimed(now)
  {
    if m.Claim? {
      assert WorksAlone(now, i);
    }
  }

  /** The claim discipline holds in every interleaving of any number of threads. */
  lemma {:induction false} InterleavingIsClaimed(run: seq<Shared>, n: nat)
    requires Interleaving(run) && Fresh(run[0]) && n < |run|
    ensures Claimed(run[n])
  {
    if n > 0 {
      InterleavingIsClaimed(run, n - 1);
      assert Steps(run[n - 1], run[n]);
      var i, m :| 0 <= i < |run[n - 1].threads| && Moves(run[n - 1], i, m, run[n]);
      MoveKeepsClaimed(run[n - 1], i, m, run[n]);
    }
  }

  /** Two threads never work at once; one does exactly in the busy states, on the manager's job. */
  lemma AtMostOneWorker(s: Shared, i: nat, k: nat)
    requires Claimed(s) && i < |s.threads| && k < |s.threads|
    requires !s.threads[i].Outside? && !s.threads[k].Outside?
    ensures i == k && s.current == Some(s.threads[i].job)
  {
    InsideIsWorker(s, i);
    InsideIsWorker(s, k);
  }

  lemma WorkerIffBusy(s: Shared)
    requires Claimed(s)
    ensures (exists i :: 0 <= i < |s.threads| && !s.threads[i].Outside?) <==> HasJob(s) && Running(Job(s).state)
  {
    if HasJob(s) && Running(Job(s).state) {
      var i :| WorksAlone(s, i);
    }
  }

  // ---- The order of states -------------------------------------------------------------------

  /** The states a job may go through next. */
  predicate LegalOrder(a: State, b: State, dryRun: bool) {
    || a == b
    || (a == AwaitingDisc && b == Packing)
    || (a == Packing && b == CreatingParity) || (a == CreatingParity && b == BuildingIso)
    || (a == BuildingIso && b == Burning) || (a == Burning && b == Verifying)
    || (b == Failed && a != AwaitingDisc && a != Done)
    || (a == (if dryRun then Burning else Verifying) && (b == AwaitingDisc || b == Done))
    || (a == Failed && b == AwaitingDisc)
  }

  /** The latest state of a job that a worker is about to finish. */
  ghost predicate ReadyToFinish(s: Shared) {
    forall i :: 0 <= i < |s.threads| && s.threads[i].Finishing? && s.threads[i].job < |s.jobs| ==>
      s.jobs[s.threads[i].job].state == if s.jobs[s.threads[i].job].dryRun then Burning else Verifying
  }

  /** Every change of a job's state, by any thread, follows the legal order. */
  lemma MovesAreLegal(s: Shared, i: nat, m: Move, now: Shared, j: nat)
    requires Claimed(s) && ReadyToFinish(s) && i < |s.threads| && Moves(s, i, m, now) && j < |s.jobs|
    ensures j < |now.jobs| && LegalOrder(s.jobs[j].state, now.jobs[j].state, s.jobs[j].dryRun)
    ensures ReadyToFinish(now)
  {
    if !s.threads[i].Outside? {
      InsideIsWorker(s, i);
    }
  }

  lemma {:induction false} InterleavingIsLegal(run: seq<Shared>, n: nat, j: nat)
    requires Interleaving(run) && Fresh(run[0]) && n + 1 < |run| && j < |run[n].jobs|
    ensures j < |run[n + 1].jobs| && LegalOrder(run[n].jobs[j].state, run[n + 1].jobs[j].state, run[n].jobs[j].dryRun)
  {
    InterleavingIsClaimed(run, n);
    ReadyAlways(run, n);
    assert Steps(run[n], run[n + 1]);
    var i, m :| 0 <= i < |run[n].threads| && Moves(run[n], i, m, run[n + 1]);
    MovesAreLegal(run[n], i, m, run[n + 1], j);
  }

  lemma {:induction false} ReadyAlways(run: seq<Shared>, n: nat)
    requires Interleaving(run) && Fresh(run[0]) && n < |run|
    ensures ReadyToFinish(run[n])
  {
    if n > 0 {
      ReadyAlways(run, n - 1);
      InterleavingIsClaimed(run, n - 1);
      assert Steps(run[n - 1], run[n]);
      var i, m :| 0 <= i < |run[n - 1].threads| && Moves(run[n - 1], i, m, run[n]);
      MoveKeepsReady(run[n - 1], i, m, run[n]);
    }
  }

  lemma MoveKeepsReady(s: Shared, i: nat, m: Move, now: Shared)
    requires Claimed(s) && ReadyToFinish(s) && i < |s.threads| && Moves(s, i, m, now)
    ensures ReadyToFinish(now)
  {
    if !s.threads[i].Outside? {
      InsideIsWorker(s, i);
    }
  }

  // ---- Why one thread's run can be read on its own ---------------------------------------------

  /**
   * While a thread is inside runDisc no other thread changes the job it works on, so reading
   * the plan at CurrentIndex without the lock is safe, and its run is as if it were alone.
   */
  lemma OthersDoNotInterfere(s: Shared, i: nat, k: nat, m: Move, now: Shared)
    requires Claimed(s) && i < |s.threads| && k < |s.threads| && i != k
    requires !s.threads[i].Outside? && Moves(s, k, m, now)
    ensures now == s
  {
    InsideIsWorker(s, i);
  }
}
