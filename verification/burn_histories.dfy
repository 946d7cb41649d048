/** Concrete histories of the burn manager in which something goes wrong. */
module BurnHistories {
  import opened Bytes
  import opened XorDisk
  import opened BinPack
  import opened DiskIds
  import opened Plan
  import opened PlanProps
  import opened Scan
  import opened Tools
  import opened BurnWorld
  import opened BurnInv
  import opened BurnRuns
  import opened BurnMeta
  import opened BurnIds
  import opened BurnSteps
  import opened BurnStart
  import opened BurnCommit
  import opened BurnManager
  import opened BurnOperator
  import Recovery

  // ---- Files that take a disc each ------------------------------------------------------------

  /** No two neighbours fit on one disc. */
  ghost predicate DiscEach(files: seq<FileInfo>, target: int) {
    forall i, j :: 0 <= i < j < |files| && j == i + 1 ==> files[i].size > 0 && files[i].size + files[j].size > target
  }

  function Singles(files: seq<FileInfo>): (buckets: seq<Bucket>)
    ensures |buckets| == |files|
  {
    seq(|files|, i requires 0 <= i < |files| => Bucket([files[i]], files[i].size))
  }

  lemma {:induction false} JoinSingles(files: seq<FileInfo>)
    ensures Join(Parts(Singles(files))) == files
  {
    if files != [] {
      var n := |files| - 1;
      JoinSingles(files[..n]);
      assert Parts(Singles(files))[..n] == Parts(Singles(files[..n]));
    }
  }

  lemma DiscEachIsPacked(files: seq<FileInfo>, target: int)
    requires DiscEach(files, target)
    ensures Packed(Singles(files), files, target)
  {
    JoinSingles(files);
    hide Join;
    var parts := Parts(Singles(files));
    forall i | 0 <= i < |files|
      ensures Sum(parts[i]) == files[i].size && parts[i] == [files[i]]
    {
      assert parts[i][..0] == [];
    }
    hide Sum;
  }

  function Info(path: string, data: Bytes): FileInfo {
    FileInfo(path, |data|)
  }

  /** What planning makes of files that take a disc each. */
  lemma SinglesPlanned(plans: seq<DiscPlan>, registered: seq<(string, nat)>, staging: map<string, Bytes>, opts: Options,
                       ids: set<DiskId>, uuids: seq<string>, files: seq<FileInfo>)
    requires PlannedFor(plans, registered, staging, opts, ids, uuids)
    requires Listing(files, staging) && DiscEach(files, TargetDataSize(opts.capacity, opts.parityPercent))
    ensures Planned(plans, registered, Singles(files), opts, ids, uuids)
  {
    hide Listing;
    hide Packed;
    hide Planned;
    hide DiscEach;
    hide TargetDataSize;
    var target := TargetDataSize(opts.capacity, opts.parityPercent);
    var listed: seq<FileInfo>, buckets: seq<Bucket> :| Listing(listed, staging) && Packed(buckets, listed, target)
                          && Planned(plans, registered, buckets, opts, ids, uuids);
    ListingIsUnique(files, listed, staging);
    DiscEachIsPacked(files, target);
    PackedIsUnique(buckets, Singles(files), files, target);
  }

  lemma TwoListed(a: Bytes, b: Bytes)
    ensures Listing([Info("a", a), Info("b", b)], map["a" := a, "b" := b])
  {
    var files := [Info("a", a), Info("b", b)];
    assert files[0].path == "a" && files[1].path == "b";
  }

  lemma ThreeListed(a: Bytes, b: Bytes, c: Bytes)
    ensures Listing([Info("a", a), Info("b", b), Info("c", c)], map["a" := a, "b" := b, "c" := c])
  {
    var files := [Info("a", a), Info("b", b), Info("c", c)];
    assert files[0].path == "a" && files[1].path == "b" && files[2].path == "c";
  }

  lemma OneListed(c: Bytes)
    ensures Listing([Info("c", c)], map["c" := c])
  {
    var files := [Info("c", c)];
    assert files[0].path == "c";
  }

  // ---- The plans ------------------------------------------------------------------------------

  lemma NothingCounted(prefix: string)
    ensures |Counted({}, prefix)| == 0
  {
    OwnAreCounted({}, prefix);
  }

  function DataDisc(prefix: string, number: nat, group: string, slot: nat, file: FileInfo): DiscPlan {
    DiscPlan(DiskId(prefix, number), Data, group, slot, Bucket([file], file.size))
  }

  function ParityDisc(prefix: string, number: nat, group: string, slot: nat): DiscPlan {
    DiscPlan(DiskId(prefix, number), Parity, group, slot, Bucket([], 0))
  }

  /** Two groups, of two and one data discs: the parity discs are numbered 4 and 5. */
  function FivePlans(prefix: string, g: string, h: string, files: seq<FileInfo>): seq<DiscPlan>
    requires |files| == 3
  {
    [DataDisc(prefix, 1, g, 0, files[0]), DataDisc(prefix, 2, g, 1, files[1]), ParityDisc(prefix, 4, g, 2),
     DataDisc(prefix, 3, h, 0, files[2]), ParityDisc(prefix, 5, h, 1)]
  }

  lemma GroupsOfThree(plans: seq<DiscPlan>, registered: seq<(string, nat)>, opts: Options, uuids: seq<string>,
                      files: seq<FileInfo>)
    requires |files| == 3 && opts.crossParity && opts.groupSize == 2
    requires Planned(plans, registered, Singles(files), opts, {}, uuids)
    ensures |uuids| >= 2 && plans == FivePlans(opts.prefix, uuids[0], uuids[1], files)
  {
    hide Grouped;
    hide GroupSizes;
    hide Counted;
    NothingCounted(opts.prefix);
    var data := DataPlans(Singles(files), {}, opts.prefix);
    var sizes := GroupSizes(3, 2);
    GroupedCons(data, 2, uuids, {}, opts.prefix, 3);
    GroupedCons(data[2..], 2, uuids[1..], {}, opts.prefix, 4);
    NothingLeft(2, uuids[1..][1..], {}, opts.prefix, 5);
    assert data[2..][1..] == [];
    assert data[..2] == [data[0], data[1]] && data[2..][..1] == [data[2]];
  }

  lemma OneOfThree(plans: seq<DiscPlan>, registered: seq<(string, nat)>, opts: Options, ids: set<DiskId>,
                   uuids: seq<string>, file: FileInfo)
    requires !opts.crossParity && |Counted(ids, opts.prefix)| == 3
    requires Planned(plans, registered, Singles([file]), opts, ids, uuids)
    ensures plans == [DataDisc(opts.prefix, 4, "", 0, file)]
  {
    hide Counted;
  }

  // ---- Steps of a history -----------------------------------------------------------------------

  /** A disc that is burned onto a file without a fault, and whose ID is free, is finished. */
  method BurnFree(m: Manager)
    requires m.Valid() && m.env.mood.Kind? && m.Awaiting() && HasCur(m.W())
    requires !Optical(m.job.value.options) && Cur(m.W()).id !in m.disks && VolumeName(Cur(m.W()).id) !in m.spool
    modifies m
    ensures m.Valid() && old(m.trace) <= m.trace && m.faults == old(m.faults) && Burned(m.t, old(m.W()), m.W())
  {
    hide m.Valid;
    hide DiscBurned;
    hide AttemptWritten;
    hide IsAttempt;
    hide VolumeName;
    hide OnlyOwnEntries;
    var ok := m.ContinueNextDisc();
    BurnedNow(m.t, old(m.W()), m.W());
  }

  /** A par2create that writes nothing but its index. */
  ghost predicate NoVolumes(t: Tools) {
    forall payload, percent :: t.volumes(payload, percent).None?
  }

  /** What a finished disc changes, in short. */
  ghost predicate Burned(t: Tools, was: World, now: World) {
    && was.job.Some? && HasCur(was) && now.jobs == was.jobs
    && var job, plan := was.job.value, Cur(was);
    && now.job == Some(job.(index := job.index + 1,
                            state := if job.index + 1 >= |job.plans| then Done else AwaitingDisc))
    && now.disks.Keys == was.disks.Keys + {plan.id} && now.disks[plan.id].isDryRun == job.options.dryRun
    && now.groups == was.groups
    && now.staging == was.staging - PathsOf(plan.bucket.files)
    && was.files <= now.files && |now.files| == |was.files| + |plan.bucket.files|
    && (forall i :: |was.files| <= i < |now.files| ==> now.files[i].disk == plan.id)
    && (forall id :: id != plan.id ==> (VolumeName(id) in now.spool <==> VolumeName(id) in was.spool))
    && (NoVolumes(t) ==> VolumeName(plan.id) !in now.spool)
    && (forall i :: |was.files| <= i < |now.files| ==> OnPlan(plan, now.files[i].path))
    && now.mounted == MountedFor(was.mounted, job.options, plan.id)
    && now.overwritten == was.overwritten + Truncated(was) && now.withdrawn == was.withdrawn
  }

  lemma NewRowsOnPlan(t: Tools, was: World, now: World)
    requires DiscBurned(t, was, now)
    ensures HasCur(was) && was.files <= now.files
    ensures forall i :: |was.files| <= i < |now.files| ==> OnPlan(Cur(was), now.files[i].path)
  {
    hide IsPayload;
    hide Built;
    hide SpoolAfter;
    hide RowOf;
    hide PathsOf;
    hide VolumeName;
    hide MountedFor;
    hide Truncated;
    forall i | |was.files| <= i < |now.files|
      ensures OnPlan(Cur(was), now.files[i].path)
    {
      assert Cur(was).bucket.files[i - |was.files|].path == now.files[i].path;
    }
  }

  lemma BurnedNow(t: Tools, was: World, now: World)
    requires DiscBurned(t, was, now) && now.jobs == was.jobs
    requires var job := was.job.value;
             now.job == Some(job.(index := job.index + 1,
                                  state := if job.index + 1 >= |job.plans| then Done else AwaitingDisc))
    ensures Burned(t, was, now)
  {
    hide IsPayload;
    hide Built;
    hide SpoolAfter;
    hide PathsOf;
    hide VolumeName;
    hide MountedFor;
    hide Truncated;
    NewRowsOnPlan(t, was, now);
    forall id | id != Cur(was).id
      ensures VolumeName(id) in now.spool <==> VolumeName(id) in was.spool
    {
      OtherVolumesStay(was.spool, now.spool, was.job.value.plans, Cur(was), id);
    }
  }

  // ---- An abandoned job wedges its prefix, and a dry run then destroys a finished group ---------

  /** A dry run of three files, two discs to a group, the last file larger than a disc. */
  ghost predicate ThreeFiles(opts: Options, a: Bytes, b: Bytes, c: Bytes) {
    && opts.dryRun && opts.crossParity && opts.groupSize == 2 && !opts.compress && ':' !in opts.prefix
    && DiscEach([Info("a", a), Info("b", b), Info("c", c)], TargetDataSize(opts.capacity, opts.parityPercent))
    && |c| > opts.capacity
  }

  function FirstIds(prefix: string): set<DiskId> {
    {DiskId(prefix, 1), DiskId(prefix, 2), DiskId(prefix, 4)}
  }

  function Recorded(prefix: string, n: nat): set<DiskId> {
    match n
    case 0 => {}
    case 1 => {DiskId(prefix, 1)}
    case 2 => {DiskId(prefix, 1), DiskId(prefix, 2)}
    case _ => FirstIds(prefix)
  }

  function NotBurned(a: Bytes, b: Bytes, c: Bytes, n: nat): map<string, Bytes> {
    match n
    case 0 => map["a" := a, "b" := b, "c" := c]
    case 1 => map["b" := b, "c" := c]
    case _ => map["c" := c]
  }

  /** The job over the three files has finished its first `n` discs. */
  ghost predicate Stage(w: World, opts: Options, uuids: seq<string>, a: Bytes, b: Bytes, c: Bytes, n: nat) {
    && |uuids| >= 2 && n <= 3
    && w.job == Some(Job(opts, FivePlans(opts.prefix, uuids[0], uuids[1], [Info("a", a), Info("b", b), Info("c", c)]),
                         n,
                         AwaitingDisc, false))
    && w.disks.Keys == Recorded(opts.prefix, n) && w.staging == NotBurned(a, b, c, n)
    && w.groups <= (set g <- uuids) && NoneLeft(w)
    && (n == 3 ==> w.disks[DiskId(opts.prefix, 4)].isDryRun == opts.dryRun)
  }

  /** There are no par2 volumes in spool. */
  ghost predicate NoneLeft(w: World) {
    forall id :: VolumeName(id) !in w.spool
  }

  lemma StageIsFree(w: World, opts: Options, uuids: seq<string>, a: Bytes, b: Bytes, c: Bytes, n: nat)
    requires Stage(w, opts, uuids, a, b, c, n) && n < 3 && opts.dryRun
    ensures HasCur(w) && Cur(w).id !in w.disks && VolumeName(Cur(w).id) !in w.spool
  {
    hide VolumeName;
  }

  lemma NextStage(t: Tools, w: World, now: World, opts: Options, uuids: seq<string>, a: Bytes, b: Bytes, c: Bytes,
                  n: nat)
    requires Stage(w, opts, uuids, a, b, c, n) && n < 3 && Burned(t, w, now) && NoVolumes(t)
    ensures Stage(now, opts, uuids, a, b, c, n + 1)
  {
    hide NoVolumes;
    hide VolumeName;
    hide Recorded;
    hide NotBurned;
    hide PathsOf;
    hide FivePlans;
    NextRecorded(opts.prefix, uuids[0], uuids[1], a, b, c, n);
  }

  lemma NextRecorded(prefix: string, g: string, h: string, a: Bytes, b: Bytes, c: Bytes, n: nat)
    requires n < 3
    ensures var plans := FivePlans(prefix, g, h, [Info("a", a), Info("b", b), Info("c", c)]);
            && |plans| == 5 && (n == 2 ==> plans[n].id == DiskId(prefix, 4))
            && Recorded(prefix, n + 1) == Recorded(prefix, n) + {plans[n].id}
            && NotBurned(a, b, c, n + 1) == NotBurned(a, b, c, n) - PathsOf(plans[n].bucket.files)
  {
  }

  method StartThree(t: Tools, opts: Options, a: Bytes, b: Bytes, c: Bytes, uuids: seq<string>) returns (m: Manager)
    requires Lawful(t) && NoVolumes(t) && ThreeFiles(opts, a, b, c) && FreshGroups(uuids) && |uuids| == 3
    ensures fresh(m) && fresh(m.env) && m.Valid() && m.t == t && m.env.mood.Kind?
    ensures Stage(m.W(), opts, uuids, a, b, c, 0)
  {
    hide m.Valid;
    hide Lawful;
    hide Planned;
    hide DiscEach;
    hide Counted;
    hide PlannedFor;
    hide FivePlans;
    var env := new Environment(Kind);
    m := new Manager(t, env, map["a" := a, "b" := b, "c" := c], map[], map[]);
    var ok := m.Start(opts, uuids);
    ghost var registered :| PlannedFor(m.job.value.plans, registered, m.staging, opts, m.disks.Keys, uuids);
    assert m.disks.Keys == {};
    ThreePlanned(m.job.value.plans, registered, opts, a, b, c, uuids);
  }

  lemma ThreePlanned(plans: seq<DiscPlan>, registered: seq<(string, nat)>, opts: Options, a: Bytes, b: Bytes, c: Bytes,
                     uuids: seq<string>)
    requires ThreeFiles(opts, a, b, c)
    requires PlannedFor(plans, registered, map["a" := a, "b" := b, "c" := c], opts, {}, uuids)
    ensures |uuids| >= 2
    ensures plans == FivePlans(opts.prefix, uuids[0], uuids[1], [Info("a", a), Info("b", b), Info("c", c)])
  {
    hide Planned;
    hide DiscEach;
    hide PlannedFor;
    hide Counted;
    var files := [Info("a", a), Info("b", b), Info("c", c)];
    ThreeListed(a, b, c);
    SinglesPlanned(plans, registered, map["a" := a, "b" := b, "c" := c], opts, {}, uuids, files);
    GroupsOfThree(plans, registered, opts, uuids, files);
  }

  /** The first group is finished: discs 1 and 2, and 4 as their parity disc. */
  method BurnFirstGroup(t: Tools, opts: Options, a: Bytes, b: Bytes, c: Bytes, uuids: seq<string>) returns (m: Manager)
    requires Lawful(t) && NoVolumes(t) && ThreeFiles(opts, a, b, c) && FreshGroups(uuids) && |uuids| == 3
    ensures fresh(m) && fresh(m.env) && m.Valid() && m.t == t && m.env.mood.Kind?
    ensures Stage(m.W(), opts, uuids, a, b, c, 3)
  {
    hide Lawful;
    hide Stage;
    hide Burned;
    hide m.Valid;
    m := StartThree(t, opts, a, b, c, uuids);
    for n := 0 to 3
      invariant fresh(m) && fresh(m.env) && m.Valid() && m.t == t && m.env.mood.Kind?
      invariant Stage(m.W(), opts, uuids, a, b, c, n)
    {
      StageIsFree(m.W(), opts, uuids, a, b, c, n);
      StageAwaits(m.W(), opts, uuids, a, b, c, n);
      ghost var w := m.W();
      BurnFree(m);
      NextStage(t, w, m.W(), opts, uuids, a, b, c, n);
    }
  }

  lemma StageAwaits(w: World, opts: Options, uuids: seq<string>, a: Bytes, b: Bytes, c: Bytes, n: nat)
    requires Stage(w, opts, uuids, a, b, c, n)
    ensures w.job.Some? && w.job.value.state == AwaitingDisc && w.job.value.options == opts
  {
  }

  /** The finished group: its data discs are 1 and 2, its parity disc is 4. */
  ghost predicate GroupIsSafe(t: Tools, w: World, opts: Options, group: string) {
    Recovery.Recoverable(t, w, group, opts, [DiskId(opts.prefix, 1), DiskId(opts.prefix, 2)], DiskId(opts.prefix, 4))
  }

  lemma StageIsSafe(t: Tools, w: World, opts: Options, uuids: seq<string>, a: Bytes, b: Bytes, c: Bytes)
    requires Inv(t, w) && Stage(w, opts, uuids, a, b, c, 3) && FreshGroups(uuids)
    ensures GroupIsSafe(t, w, opts, uuids[0])
  {
    hide Inv;
    MineCatalogued(t, w);
    var plans := w.job.value.plans;
    FirstGroupData(opts.prefix, uuids[0], uuids[1], [Info("a", a), Info("b", b), Info("c", c)]);
    Recovery.FinishedIsKept(t, w, 2);
    hide Recovery.Recoverable;
    hide GroupData;
  }

  lemma FirstGroupData(prefix: string, g: string, h: string, files: seq<FileInfo>)
    requires |files| == 3 && g != h
    ensures GroupData(FivePlans(prefix, g, h, files), g) == [DiskId(prefix, 1), DiskId(prefix, 2)]
  {
    var plans := FivePlans(prefix, g, h, files);
    assert GroupData(plans[5..], g) == [];
    assert plans[4..][1..] == plans[5..] && plans[3..][1..] == plans[4..];
    assert plans[2..][1..] == plans[3..] && plans[1..][1..] == plans[2..];
    assert GroupData(plans[3..], g) == [];
    assert GroupData(plans[1..], g) == [DiskId(prefix, 2)];
  }

  /** The catalog still has just the first group, and the next job's disc bears its parity disc's ID. */
  ghost predicate AtTakenId(w: World, opts: Options, c: Bytes) {
    && w.disks.Keys == FirstIds(opts.prefix) && w.staging == map["c" := c]
    && w.job == Some(Job(opts.(crossParity := false), [DataDisc(opts.prefix, 4, "", 0, Info("c", c))], 0,
                         AwaitingDisc, false))
    && w.mine == {} && VolumeName(DiskId(opts.prefix, 4)) !in w.spool && w.disks[DiskId(opts.prefix, 4)].isDryRun
  }

  /**
   * After its first group the job is abandoned, because its next disc fails, and a job
   * without cross-disc parity is started for the file that is left. Its prefix is wedged.
   */
  method AbandonJob(t: Tools, opts: Options, a: Bytes, b: Bytes, c: Bytes, uuids: seq<string>, other: string)
      returns (m: Manager)
    requires Lawful(t) && NoVolumes(t) && ThreeFiles(opts, a, b, c) && FreshGroups(uuids + [other]) && |uuids| == 3
    ensures fresh(m) && fresh(m.env) && m.Valid() && m.t == t && m.env.mood.Kind?
    ensures AtTakenId(m.W(), opts, c) && WedgedWorld(m.W(), opts.prefix) && GroupIsSafe(t, m.W(), opts, uuids[0])
  {
    hide Lawful;
    hide Inv;
    hide Reached;
    hide PlannedFor;
    hide GroupIsSafe;
    assert FreshGroups(uuids) && other !in uuids && other != "" by {
      UuidsApart(uuids, other);
    }
    m := BurnFirstGroup(t, opts, a, b, c, uuids);
    ReachedInv(t, m.trace, m.W());
    StageIsSafe(t, m.W(), opts, uuids, a, b, c);
    ghost var w := m.W();
    m.env.mood := Hostile;
    var ok := m.ContinueNextDisc();
    OnlyOwnVolumes(w.spool, m.spool, Cur(w).id, DiskId(opts.prefix, 4));
    m.env.mood := Kind;
    ok := m.Start(opts.(crossParity := false), [other]);
    ghost var registered :| PlannedFor(m.job.value.plans, registered, m.staging, opts.(crossParity := false),
                                       m.disks.Keys, [other]);
    LastFilePlanned(m.job.value.plans, registered, opts, m.disks.Keys, c, [other]);
    StaysSafe(t, w, m.W(), opts, uuids[0]);
    TakenIsWedged(m.W(), opts, c);
  }

  lemma OnlyOwnVolumes(was: map<string, Node>, now: map<string, Node>, id: DiskId, other: DiskId)
    requires OnlyOwnEntries(was, now, id) && id != other
    ensures VolumeName(other) in now <==> VolumeName(other) in was
  {
    OwnNamesDisjoint(id, other);
    assert VolumeName(other) in OwnNames(other);
    hide OwnNames;
    hide VolumeName;
  }

  lemma UuidsApart(uuids: seq<string>, other: string)
    requires FreshGroups(uuids + [other])
    ensures FreshGroups(uuids) && other !in uuids && other != ""
  {
    var all := uuids + [other];
    assert all[|uuids|] == other;
    forall i | 0 <= i < |uuids|
      ensures all[i] == uuids[i] && uuids[i] in all && uuids[i] != other
    {
    }
  }

  lemma LastFilePlanned(plans: seq<DiscPlan>, registered: seq<(string, nat)>, opts: Options, ids: set<DiskId>, c: Bytes,
                        uuids: seq<string>)
    requires PlannedFor(plans, registered, map["c" := c], opts.(crossParity := false), ids, uuids)
    requires ids == FirstIds(opts.prefix)
    ensures plans == [DataDisc(opts.prefix, 4, "", 0, Info("c", c))]
  {
    hide PlannedFor;
    hide Planned;
    hide Counted;
    OneListed(c);
    SinglesPlanned(plans, registered, map["c" := c], opts.(crossParity := false), ids, uuids, [Info("c", c)]);
    ThreeCounted(opts.prefix);
    OneOfThree(plans, registered, opts.(crossParity := false), ids, uuids, Info("c", c));
  }

  lemma ThreeCounted(prefix: string)
    ensures Counted(FirstIds(prefix), prefix) == FirstIds(prefix) && |FirstIds(prefix)| == 3
  {
    OwnAreCounted(FirstIds(prefix), prefix);
  }

  lemma StaysSafe(t: Tools, w: World, now: World, opts: Options, group: string)
    requires GroupIsSafe(t, w, opts, group)
    requires now.disks == w.disks && now.media == w.media && now.sealed == w.sealed && w.groups <= now.groups
    ensures GroupIsSafe(t, now, opts, group)
  {
    hide Recovery.GroupRows;
    hide Recovery.GroupMedia;
  }

  lemma TakenIsWedged(w: World, opts: Options, c: Bytes)
    requires AtTakenId(w, opts, c) && ':' !in opts.prefix
    ensures WedgedWorld(w, opts.prefix)
  {
    ThreeCounted(opts.prefix);
    hide Counted;
    assert NextDiskID(w.disks.Keys, opts.prefix, 0) == DiskId(opts.prefix, 4);
  }

  lemma LastFileIsLarge(t: Tools, w: World, opts: Options, c: Bytes, payload: Bytes)
    requires Lawful(t) && AtTakenId(w, opts, c) && !opts.compress && IsPayload(t, w, Cur(w), payload)
    ensures |payload| >= |c|
  {
    var ms := MembersOf(Cur(w).bucket.files, w.staging);
    assert ms[0].data == c;
    assert Holds(t.tar(ms), ms);
  }

  /** What the dry run writes is not the group's XOR. */
  lemma NoXorLeft(t: Tools, w: World, now: World, opts: Options, c: Bytes, group: string)
    requires Lawful(t) && AtTakenId(w, opts, c) && opts.dryRun && !opts.compress && |c| > opts.capacity
    requires AttemptWritten(t, w, now)
    ensures !GroupIsSafe(t, now, opts, group)
  {
    hide Lawful;
    hide Built;
    hide IsPayload;
    var parity, data := DiskId(opts.prefix, 4), [DiskId(opts.prefix, 1), DiskId(opts.prefix, 2)];
    var image :| IsAttempt(t, w, image) && now.media == MediaAfter(w, image);
    var payload :| IsPayload(t, w, Cur(w), payload) && Built(t, image, Cur(w), w.job.value.options, payload);
    LastFileIsLarge(t, w, opts, c, payload);
    assert now.media[parity] == image;
    hide Recovery.GroupRows;
    hide Xor;
    if GroupIsSafe(t, now, opts, group) {
      var xor := Xor(MediaImages(now.media, data), opts.capacity);
      var plan: DiscPlan, other: Options :| plan.id == parity && Built(t, image, plan, other, xor);
      PayloadIsUnique(t, image, Cur(w), w.job.value.options, payload, plan, other, xor);
    }
  }

  /**
   * How a finished group is lost. A job is abandoned after its first group; the next dry run
   * gets the number of that group's parity disc. No disc of the prefix can be recorded any
   * more from then on, but each attempt writes one: the parity disc's file is overwritten, and
   * the group, recoverable until then, is not any more.
   */
  method DestroyGroup(t: Tools, opts: Options, a: Bytes, b: Bytes, c: Bytes, uuids: seq<string>, other: string)
      returns (m: Manager, ghost before: nat)
    requires Lawful(t) && NoVolumes(t) && ThreeFiles(opts, a, b, c) && FreshGroups(uuids + [other]) && |uuids| == 3
    ensures m.t == t && m.trace != [] && Run(t, m.trace) && Initial(m.trace[0]) && m.trace[|m.trace| - 1] == m.W()
    ensures before < |m.trace| && WedgedWorld(m.trace[before], opts.prefix)
    ensures Recovery.DryHits(m.trace[before], DiskId(opts.prefix, 4))
    ensures GroupIsSafe(t, m.trace[before], opts, uuids[0]) && !GroupIsSafe(t, m.W(), opts, uuids[0])
  {
    hide Lawful;
    hide Inv;
    hide Run;
    hide GroupIsSafe;
    hide WedgedWorld;
    hide AttemptWritten;
    m := AbandonJob(t, opts, a, b, c, uuids, other);
    LastOfTrace(t, m.trace, m.W());
    before := |m.trace| - 1;
    ghost var w := m.W();
    var ok := m.ContinueNextDisc();
    NoXorLeft(t, w, m.W(), opts, c, uuids[0]);
  }

  // ---- A medium left at its target path is overwritten --------------------------------------------

  /** Two files that take a disc each, written to a file at the same path. */
  ghost predicate TwoFiles(opts: Options, a: Bytes, b: Bytes) {
    && ToTarget(opts) && !opts.crossParity
    && DiscEach([Info("a", a), Info("b", b)], TargetDataSize(opts.capacity, opts.parityPercent))
  }

  lemma TwoPlanned(plans: seq<DiscPlan>, registered: seq<(string, nat)>, opts: Options, a: Bytes, b: Bytes,
                   uuids: seq<string>)
    requires TwoFiles(opts, a, b)
    requires PlannedFor(plans, registered, map["a" := a, "b" := b], opts, {}, uuids)
    ensures plans == [DataDisc(opts.prefix, 1, "", 0, Info("a", a)), DataDisc(opts.prefix, 2, "", 0, Info("b", b))]
  {
    hide Planned;
    hide DiscEach;
    hide PlannedFor;
    hide Counted;
    NothingCounted(opts.prefix);
    TwoListed(a, b);
    SinglesPlanned(plans, registered, map["a" := a, "b" := b], opts, {}, uuids, [Info("a", a), Info("b", b)]);
    TwoDiscs(plans, registered, opts, uuids, [Info("a", a), Info("b", b)]);
  }

  lemma TwoDiscs(plans: seq<DiscPlan>, registered: seq<(string, nat)>, opts: Options, uuids: seq<string>,
                 files: seq<FileInfo>)
    requires Planned(plans, registered, Singles(files), opts, {}, uuids) && |files| == 2 && !opts.crossParity
    requires |Counted({}, opts.prefix)| == 0
    ensures plans == [DataDisc(opts.prefix, 1, "", 0, files[0]), DataDisc(opts.prefix, 2, "", 0, files[1])]
  {
    hide Counted;
  }

  /** The first disc is finished, and its medium is still at the target path. */
  ghost predicate FirstWritten(w: World, opts: Options, a: Bytes, b: Bytes) {
    && w.job == Some(Job(opts, [DataDisc(opts.prefix, 1, "", 0, Info("a", a)),
                                DataDisc(opts.prefix, 2, "", 0, Info("b", b))],
                         1, AwaitingDisc, false))
    && w.disks.Keys == {DiskId(opts.prefix, 1)} && w.staging == map["b" := b]
    && (forall i :: 0 <= i < |w.files| ==> w.files[i].disk == DiskId(opts.prefix, 1))
    && opts.target in w.mounted && w.mounted[opts.target] == DiskId(opts.prefix, 1)
    && VolumeName(DiskId(opts.prefix, 2)) !in w.spool && w.overwritten == {} && w.withdrawn == []
  }

  ghost predicate NothingWritten(w: World, opts: Options, a: Bytes, b: Bytes) {
    && w.job == Some(Job(opts, [DataDisc(opts.prefix, 1, "", 0, Info("a", a)),
                                DataDisc(opts.prefix, 2, "", 0, Info("b", b))],
                         0, AwaitingDisc, false))
    && w.disks.Keys == {} && w.staging == map["a" := a, "b" := b] && w.files == [] && w.mounted == map[] && NoneLeft(w)
    && w.overwritten == {} && w.withdrawn == []
  }

  method StartTwo(t: Tools, opts: Options, a: Bytes, b: Bytes, uuids: seq<string>) returns (m: Manager)
    requires Lawful(t) && TwoFiles(opts, a, b) && FreshGroups(uuids) && |uuids| == 2
    ensures fresh(m) && fresh(m.env) && m.Valid() && m.t == t && m.env.mood.Kind? && m.faults == 0
    ensures NothingWritten(m.W(), opts, a, b)
  {
    hide m.Valid;
    hide Lawful;
    hide PlannedFor;
    hide TwoFiles;
    var env := new Environment(Kind);
    m := new Manager(t, env, map["a" := a, "b" := b], map[], map[]);
    var ok := m.Start(opts, uuids);
    ghost var registered :| PlannedFor(m.job.value.plans, registered, m.staging, opts, m.disks.Keys, uuids);
    assert m.disks.Keys == {};
    TwoPlanned(m.job.value.plans, registered, opts, a, b, uuids);
  }

  lemma FirstIsFree(t: Tools, w: World, opts: Options, a: Bytes, b: Bytes)
    requires NothingWritten(w, opts, a, b) && ToTarget(opts)
    ensures HasCur(w) && Cur(w).id !in w.disks && !Optical(opts) && VolumeName(Cur(w).id) !in w.spool
    ensures w.job.value.state == AwaitingDisc && w.job.value.options == opts && Safe(t, w, "a", a)
  {
    hide Archived;
  }

  lemma FirstIsWritten(t: Tools, w: World, now: World, opts: Options, a: Bytes, b: Bytes)
    requires NothingWritten(w, opts, a, b) && Burned(t, w, now) && ToTarget(opts)
    ensures FirstWritten(now, opts, a, b)
  {
  }

  method BurnFirstFile(t: Tools, opts: Options, a: Bytes, b: Bytes, uuids: seq<string>) returns (m: Manager)
    requires Lawful(t) && TwoFiles(opts, a, b) && FreshGroups(uuids) && |uuids| == 2
    ensures fresh(m) && fresh(m.env) && m.Valid() && m.t == t && m.env.mood.Kind? && m.faults == 0
    ensures FirstWritten(m.W(), opts, a, b) && Safe(t, m.W(), "a", a)
  {
    hide Reached;
    hide Lawful;
    hide NothingWritten;
    hide FirstWritten;
    hide Safe;
    hide Burned;
    m := StartTwo(t, opts, a, b, uuids);
    ghost var w, k := m.W(), |m.trace| - 1;
    LastOfTrace(t, m.trace, w);
    FirstIsFree(t, w, opts, a, b);
    BurnFree(m);
    FirstIsWritten(t, w, m.W(), opts, a, b);
    NothingLost(t, m.trace, m.W(), k, "a", a);
    LastOfTrace(t, m.trace, m.W());
    NothingLostYet(t, m.trace, k, m.W(), opts, a, b);
  }

  lemma NothingLostYet(t: Tools, trace: seq<World>, k: nat, w: World, opts: Options, a: Bytes, b: Bytes)
    requires k < |trace| && trace[|trace| - 1] == w && FirstWritten(w, opts, a, b)
    requires Safe(t, w, "a", a) || TakenOut(w.withdrawn, |trace[k].withdrawn|, "a", a)
          || OverwrittenSince(t, trace, k, |trace| - 1, "a", a)
    ensures Safe(t, w, "a", a)
  {
    hide Safe;
    hide ArchivedBy;
  }

  /**
   * How a file is lost for good. Two discs are written to a file at the same path, and the
   * medium is not changed in between, as if the second blank had been confirmed without being
   * inserted. No call fails and the job is DONE, but the second image was written over the
   * first one, whose file has left staging.
   */
  method OverwriteFirst(t: Tools, opts: Options, a: Bytes, b: Bytes, uuids: seq<string>)
      returns (m: Manager, ghost before: nat)
    requires Lawful(t) && TwoFiles(opts, a, b) && FreshGroups(uuids) && |uuids| == 2
    ensures m.t == t && m.trace != [] && Run(t, m.trace) && Initial(m.trace[0]) && m.trace[|m.trace| - 1] == m.W()
    ensures m.job.Some? && m.job.value.state == Done && m.faults == 0
    ensures before < |m.trace| && Safe(t, m.trace[before], "a", a) && !Safe(t, m.W(), "a", a)
  {
    hide Lawful;
    hide Inv;
    hide Run;
    hide Safe;
    hide FirstWritten;
    hide Burned;
    m := BurnFirstFile(t, opts, a, b, uuids);
    ghost var w := m.W();
    LastOfTrace(t, m.trace, w);
    before := |m.trace| - 1;
    SecondIsFree(w, opts, a, b);
    BurnFree(m);
    FirstIsOverwritten(t, w, m.W(), opts, a, b);
  }

  lemma SecondIsFree(w: World, opts: Options, a: Bytes, b: Bytes)
    requires FirstWritten(w, opts, a, b) && ToTarget(opts)
    ensures HasCur(w) && Cur(w).id !in w.disks && !Optical(opts) && VolumeName(Cur(w).id) !in w.spool
    ensures w.job.value.state == AwaitingDisc && w.job.value.options == opts
  {
  }

  lemma FirstIsOverwritten(t: Tools, w: World, now: World, opts: Options, a: Bytes, b: Bytes)
    requires FirstWritten(w, opts, a, b) && ToTarget(opts) && Burned(t, w, now)
    ensures now.job.Some? && now.job.value.state == Done && !Safe(t, now, "a", a)
  {
    hide ReadFile;
    hide VolumeName;
    hide MountedFor;
    hide NoVolumes;
    forall i | |w.files| <= i < |now.files|
      ensures now.files[i].path == "b"
    {
      assert OnPlan(Cur(w), now.files[i].path);
    }
    assert DiskId(opts.prefix, 1) in now.overwritten;
  }

  // ---- par2 volumes outlive their attempt ------------------------------------------------------------

  /**
   * Why a retry may never succeed. par2create has written volumes for the awaited disc when
   * the attempt fails, here at the next step. Clearing up leaves them, par2create refuses to
   * run next to them, and the job never gets done, even if no call fails any more.
   */
  method RetryMeetsVolumes(m: Manager)
    requires m.Valid() && m.env.mood.Kind? && m.Awaiting() && HasCur(m.W())
    requires Cur(m.W()).id !in m.disks && VolumeName(Cur(m.W()).id) !in m.spool
    requires forall payload, percent :: m.t.volumes(payload, percent).Some?
    modifies m
    ensures m.Valid() && old(m.trace) <= m.trace && m.faults == old(m.faults)
    ensures m.job.Some? && m.job.value.plans == old(m.job).value.plans && m.job.value.state != Done
  {
    hide Reached;
    hide Inv;
    hide Lawful;
    hide OnlyOwnEntries;
    hide IsPayload;
    hide VolumeName;
    hide Prepared;
    hide Unblocked;
    hide SomeImageFits;
    hide EveryImageFits;
    ReachedInv(m.t, m.trace, m.W());
    AwaitingHasCur(m.t, m.W());
    MineCatalogued(m.t, m.W());
    var plan := m.job.value.plans[m.job.value.index];
    m.ClaimJob();
    var ok;
    ghost var payload, createdAt;
    ok, payload, createdAt := m.PrepareSource(plan);
    PreparedLeavesVolumes(m.t, m.spool, plan, m.job.value.options, payload, createdAt);
    m.MarkFailed();
    assert Remaining(m.W(), m.job.value.index);
    FinishJob(m);
  }

  lemma PreparedLeavesVolumes(t: Tools, spool: map<string, Node>, plan: DiscPlan, opts: Options, payload: Bytes,
                              createdAt: nat)
    requires Prepared(t, spool, plan, opts, payload, createdAt) && t.volumes(payload, opts.parityPercent).Some?
    ensures VolumeName(plan.id) in spool
  {
    hide VolumeName;
  }
}
