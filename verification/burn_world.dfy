/**
 * The burn manager's world: staging, spool, written media, the catalog tables and the
 * job, together with the single steps that internal/burn/pipeline.go takes on them.
 */
module BurnWorld {
  import opened Bytes
  import opened XorDisk
  import opened DiskIds
  import opened Plan
  import opened PlanProps
  import opened Tools

  datatype State = AwaitingDisc | Packing | CreatingParity | BuildingIso | Burning | Verifying | Done | Failed

  datatype Job = Job(options: Options, plans: seq<DiscPlan>, index: nat, state: State, hasErr: bool)

  datatype Node = File(data: Bytes) | Dir(entries: Directory)

  datatype Meta = Meta(tags: seq<string>, description: string)

  datatype DiskRow = DiskRow(mediaType: string, parityPercent: nat, group: Option<string>, role: Role,
                             slot: Option<nat>, isoHash: Hash, isDryRun: bool)

  datatype FileRow = FileRow(disk: DiskId, path: string, size: nat, hash: Hash, meta: Meta)

  /**
   * How far commitDisc has come: after InsertDisk, at file `k`, with `k`'s metadata in hand,
   * `k` inserted; and, for a parity disc, past it and cleaning up.
   */
  datatype Commit = Off | At(k: nat) | Consumed(k: nat, held: Option<Meta>) | Inserted(k: nat) | Cleaning

  /**
   * `staging` to `job` are what the program works on. `media` holds what was last written for
   * each disc, `mounted` says which disc's image is the file at a target path, and
   * `overwritten` which recorded discs were truncated by a later write to that path. The rest
   * is bookkeeping about the current job: how many discs of its prefix were catalogued
   * when it was planned, which discs it inserted, the progress of commitDisc, whether a
   * cleanup removal failed; and over all jobs: which discs were finished, which metadata was
   * lost, what the user took out of staging or replaced there, how many jobs began.
   */
  datatype World = World(
    staging: map<string, Bytes>,
    spool: map<string, Node>,
    media: map<DiskId, Bytes>,
    mounted: map<string, DiskId>,
    overwritten: set<DiskId>,
    disks: map<DiskId, DiskRow>,
    files: seq<FileRow>,
    metadata: map<string, Meta>,
    groups: set<string>,
    job: Option<Job>,
    base: nat,
    mine: set<DiskId>,
    commit: Commit,
    strays: bool,
    sealed: set<DiskId>,
    lost: seq<(string, Meta)>,
    withdrawn: seq<map<string, Bytes>>,
    jobs: nat)

  // ---- Reading the world -------------------------------------------------------------

  predicate Running(s: State) {
    s == Packing || s == CreatingParity || s == BuildingIso || s == Burning || s == Verifying
  }

  /** Start is refused while a job is neither DONE nor FAILED. */
  predicate Busy(job: Option<Job>) {
    job.Some? && job.value.state != Done && job.value.state != Failed
  }

  predicate HasCur(w: World) {
    w.job.Some? && w.job.value.index < |w.job.value.plans|
  }

  function Cur(w: World): DiscPlan
    requires HasCur(w)
  {
    w.job.value.plans[w.job.value.index]
  }

  predicate AtWork(w: World) {
    HasCur(w) && Running(w.job.value.state)
  }

  function Count(w: World, prefix: string): nat {
    |Counted(w.disks.Keys, prefix)|
  }

  function SetJob(w: World, job: Job): World {
    w.(job := Some(job))
  }

  /** The data discs of a group, in plan order. */
  function GroupData(plans: seq<DiscPlan>, group: string): seq<DiskId> {
    if plans == [] then []
    else (if plans[0].role == Data && plans[0].group == group then [plans[0].id] else [])
         + GroupData(plans[1..], group)
  }

  predicate Readable(spool: map<string, Node>, ids: seq<DiskId>) {
    forall i :: 0 <= i < |ids| ==> IsoName(ids[i]) in spool && spool[IsoName(ids[i])].File?
  }

  function SpoolImages(spool: map<string, Node>, ids: seq<DiskId>): (images: seq<Bytes>)
    requires Readable(spool, ids)
    ensures |images| == |ids|
  {
    seq(|ids|, i requires 0 <= i < |ids| => spool[IsoName(ids[i])].data)
  }

  predicate OnMedia(media: map<DiskId, Bytes>, ids: seq<DiskId>) {
    forall i :: 0 <= i < |ids| ==> ids[i] in media
  }

  function MediaImages(media: map<DiskId, Bytes>, ids: seq<DiskId>): (images: seq<Bytes>)
    requires OnMedia(media, ids)
    ensures |images| == |ids|
  {
    seq(|ids|, i requires 0 <= i < |ids| => media[ids[i]])
  }

  /** What a fresh attempt at `plan` packs: the staged files, or the XOR of the group's images in spool. */
  ghost predicate IsPayload(t: Tools, w: World, plan: DiscPlan, payload: Bytes)
    requires w.job.Some?
  {
    var job := w.job.value;
    match plan.role
    case Data =>
      && AllStaged(plan.bucket.files, w.staging)
      && payload == Archive(t, MembersOf(plan.bucket.files, w.staging), job.options.compress)
    case Parity =>
      var ids := GroupData(job.plans, plan.group);
      && ids != [] && Readable(w.spool, ids)
      && payload == Xor(SpoolImages(w.spool, ids), job.options.capacity)
  }

  function RowOf(opts: Options, plan: DiscPlan, isoHash: Hash): DiskRow {
    DiskRow(opts.mediaType, opts.parityPercent,
            if plan.group == "" then None else Some(plan.group), plan.role,
            if plan.group == "" then None else Some(plan.slot), isoHash, opts.dryRun)
  }

  // ---- Single steps --------------------------------------------------------------------

  datatype Action =
    // the user
    | EditStaging(staging: map<string, Bytes>)  // stages, replaces or removes files
    | TagFile(path: string, meta: Meta)
    | SwapMedium(target: string)                // takes the medium away from a target path
    | MountMedium(target: string, id: DiskId)   // puts a recorded disc's medium there again
    // the job
    | RegisterGroups(groups: set<string>)       // a planning pass that then failed
    | StartJob(options: Options, plans: seq<DiscPlan>, groups: set<string>)
    | Claim
    | SetState(state: State)
    | Advance
    | Fail
    | Retry
    | Restart                                   // the process ends, and with it the job
    // spool and media
    | TouchSpool(spool: map<string, Node>)      // any change to the current disc's own entries
    | WriteMedium(data: Bytes)                  // the burner writes, well or badly
    | RemoveIso(id: DiskId)                     // cleanup after a group's parity disc
    | LeaveIso                                  // a cleanup removal failed
    // the commit
    | InsertDisk(payload: Bytes)
    | Consume
    | InsertFile
    | RemoveStaged
    | BeginCleanup                              // a parity disc's commit is through

  /** The order in which runDisc moves the job's state. */
  predicate LegalMove(a: State, b: State) {
    || (a == Packing && (b == Packing || b == CreatingParity))
    || (a == CreatingParity && b == BuildingIso)
    || (a == BuildingIso && b == Burning)
    || (a == Burning && b == Verifying)
  }

  ghost predicate OnlyOwnEntries(was: map<string, Node>, now: map<string, Node>, id: DiskId) {
    forall p :: p !in OwnNames(id) ==> (p in now <==> p in was) && (p in now ==> now[p] == was[p])
  }

  /** The current disc bears an ID that another disc in the catalog already has. */
  predicate Taken(w: World)
    requires HasCur(w)
  {
    Cur(w).id in w.disks && Cur(w).id !in w.mine
  }

  /**
   * The recorded disc that is truncated when the current one is written to its target path:
   * the one whose image is there, unless it is the current one, left by its own attempt.
   */
  function Truncated(w: World): set<DiskId>
    requires HasCur(w)
  {
    var target := w.job.value.options.target;
    if ToTarget(w.job.value.options) && target in w.mounted && w.mounted[target] in w.disks
       && (w.mounted[target] == Cur(w).id ==> Taken(w))
    then {w.mounted[target]} else {}
  }

  /** An optical medium takes no more than its capacity. */
  predicate HasRoom(opts: Options, data: Bytes) {
    Optical(opts) ==> |data| <= opts.capacity
  }

  /** What is left at the target paths when disc `id` is written or mounted elsewhere. */
  function Without(mounted: map<string, DiskId>, id: DiskId): map<string, DiskId> {
    map target | target in mounted && mounted[target] != id :: mounted[target]
  }

  /** A dry run writes the file that bears its ID: if a recorded dry run has the ID, that one's. */
  predicate WritesOwn(w: World)
    requires HasCur(w)
  {
    Taken(w) ==> w.job.value.options.dryRun && w.disks[Cur(w).id].isDryRun
  }

  /**
   * The world with `data` written for the current disc. A disc whose ID is taken is a second
   * one beside the recorded disc, unless both are dry runs.
   */
  function Written(w: World, data: Bytes): World
    requires HasCur(w)
  {
    var opts, id := w.job.value.options, Cur(w).id;
    var others := if WritesOwn(w) then Without(w.mounted, id) else w.mounted;
    w.(media := if WritesOwn(w) then w.media[id := data] else w.media,
       mounted := if !ToTarget(opts) then others
                  else if Taken(w) then others - {opts.target}
                  else others[opts.target := id],
       overwritten := w.overwritten + Truncated(w))
  }

  /** The disc may be recorded: it was built from the right payload, written, and reads back the same. */
  ghost predicate Committable(t: Tools, w: World, payload: Bytes)
    requires HasCur(w)
  {
    var plan := Cur(w);
    var opts := w.job.value.options;
    && plan.id !in w.disks
    && plan.id in w.media
    && IsPayload(t, w, plan, payload)
    && Built(t, w.media[plan.id], plan, opts, payload) && HasRoom(opts, w.media[plan.id])
    && IsoName(plan.id) in w.spool && w.spool[IsoName(plan.id)] == File(w.media[plan.id])
    && w.job.value.state == CommitState(opts)
  }

  /** A disc is recorded after its verification, or after the dry-run copy. */
  function CommitState(opts: Options): State {
    if opts.dryRun then Burning else Verifying
  }

  /** Cleanup has dealt with every data image of the group, or failed at one. */
  predicate CleanedUp(w: World)
    requires HasCur(w)
  {
    Cur(w).role == Parity ==>
      w.strays || forall i :: 0 <= i < |GroupData(w.job.value.plans, Cur(w).group)| ==>
        IsoName(GroupData(w.job.value.plans, Cur(w).group)[i]) !in w.spool
  }

  /** commitDisc is through, and after it the cleanup of a parity disc's group. */
  predicate Completed(w: World)
    requires HasCur(w)
  {
    if Cur(w).role == Parity then w.commit == Cleaning && Cur(w).bucket.files == [] && CleanedUp(w)
    else w.commit == At(|Cur(w).bucket.files|)
  }

  ghost predicate CurFile(w: World, k: nat) {
    AtWork(w) && k < |Cur(w).bucket.files|
  }

  ghost predicate PlanCovers(plans: seq<DiscPlan>, staging: map<string, Bytes>) {
    && (forall j, a :: 0 <= j < |plans| && 0 <= a < |plans[j].bucket.files| ==>
          var f := plans[j].bucket.files[a];
          f.path in staging && f.size == |staging[f.path]|)
    && (forall p <- staging :: OnSomePlan(plans, p))
  }

  ghost predicate OnSomePlan(plans: seq<DiscPlan>, path: string) {
    exists j, a ::
      0 <= j < |plans| && 0 <= a < |plans[j].bucket.files| && plans[j].bucket.files[a].path == path
  }

  ghost predicate IsPlanned(w: World, path: string) {
    w.job.Some? && OnSomePlan(w.job.value.plans, path)
  }

  /** What the user took out of staging or replaced there. */
  function Withdrawn(was: map<string, Bytes>, now: map<string, Bytes>): map<string, Bytes> {
    map path | path in was && !(path in now && now[path] == was[path]) :: was[path]
  }

  /** Between a planning pass and the end of its job nobody touches the planned files. */
  ghost predicate SparesPlanned(w: World, staging: map<string, Bytes>) {
    w.job.Some? && w.job.value.state != Done ==>
      forall path :: IsPlanned(w, path) ==>
        (path in staging <==> path in w.staging) && (path in staging ==> staging[path] == w.staging[path])
  }

  predicate UserAction(a: Action) {
    a.EditStaging? || a.TagFile? || a.SwapMedium? || a.MountMedium?
  }

  ghost predicate UserActs(w: World, a: Action, now: World) {
    match a
    case EditStaging(staging) =>
      && SparesPlanned(w, staging)
      && now == w.(staging := staging, withdrawn := w.withdrawn + [Withdrawn(w.staging, staging)])
    case TagFile(path, meta) =>
      now == w.(metadata := w.metadata[path := meta])
    case SwapMedium(target) =>
      now == w.(mounted := w.mounted - {target})
    case MountMedium(target, id) =>
      id in w.disks && id !in w.overwritten && now == w.(mounted := Without(w.mounted, id)[target := id])
    case _ => false
  }

  /** The metadata that a commit holds, if it is between reading it and inserting its row. */
  function Dropped(w: World): seq<(string, Meta)> {
    if HasCur(w) && w.commit.Consumed? && w.commit.held.Some? && w.commit.k < |Cur(w).bucket.files|
    then [(Cur(w).bucket.files[w.commit.k].path, w.commit.held.value)]
    else []
  }

  predicate JobAction(a: Action) {
    a.RegisterGroups? || a.StartJob? || a.Claim? || a.SetState? || a.Advance? || a.Fail? || a.Retry? || a.Restart?
  }

  ghost predicate JobActs(w: World, a: Action, now: World) {
    match a
    case RegisterGroups(groups) =>
      !Busy(w.job) && w.groups <= groups && now == w.(groups := groups)
    case StartJob(options, plans, groups) =>
      && !Busy(w.job) && plans != []
      && PlansOk(plans, options, Count(w, options.prefix))
      && PlanCovers(plans, w.staging)
      && (forall j :: 0 <= j < |plans| && plans[j].group != "" ==>
            plans[j].group !in w.groups && plans[j].group in groups)
      && w.groups <= groups
      && now == w.(job := Some(Job(options, plans, 0, AwaitingDisc, false)), groups := groups,
                   base := Count(w, options.prefix), mine := {}, commit := Off, strays := false,
                   jobs := w.jobs + 1)
    case Claim =>
      && w.job.Some? && w.job.value.state == AwaitingDisc
      && now == SetJob(w, w.job.value.(state := Packing))
    case SetState(s) =>
      && AtWork(w) && w.commit == Off && LegalMove(w.job.value.state, s)
      && now == SetJob(w, w.job.value.(state := s))
    case Advance =>
      && AtWork(w) && Completed(w)
      && var job := w.job.value;
         now == w.(job := Some(job.(index := job.index + 1,
                                    state := if job.index + 1 >= |job.plans| then Done else AwaitingDisc)),
                   commit := Off, sealed := w.sealed + {Cur(w).id})
    case Fail =>
      && AtWork(w) && w.commit != Cleaning
      && now == w.(job := Some(w.job.value.(state := Failed, hasErr := true)),
                   commit := Off, lost := w.lost + Dropped(w))
    case Retry =>
      && w.job.Some? && w.job.value.state == Failed
      && now == SetJob(w, w.job.value.(state := AwaitingDisc, hasErr := false))
    case Restart =>
      now == w.(job := None, mine := {}, commit := Off, strays := false, lost := w.lost + Dropped(w))
    case _ => false
  }

  predicate DiscAction(a: Action) {
    a.TouchSpool? || a.WriteMedium? || a.RemoveIso? || a.LeaveIso?
  }

  ghost predicate DiscActs(w: World, a: Action, now: World) {
    match a
    case TouchSpool(spool) =>
      && AtWork(w) && w.commit == Off && OnlyOwnEntries(w.spool, spool, Cur(w).id)
      && now == w.(spool := spool)
    case WriteMedium(data) =>
      && AtWork(w) && w.commit == Off && AllStaged(Cur(w).bucket.files, w.staging)
      && HasRoom(w.job.value.options, data)
      && now == Written(w, data)
    case RemoveIso(id) =>
      && AtWork(w) && Cur(w).role == Parity && w.commit == Cleaning
      && id in GroupData(w.job.value.plans, Cur(w).group)
      && now == w.(spool := w.spool - {IsoName(id)})
    case LeaveIso =>
      && AtWork(w) && Cur(w).role == Parity && w.commit == Cleaning
      && now == w.(strays := true)
    case _ => false
  }

  ghost predicate CommitActs(t: Tools, w: World, a: Action, now: World) {
    match a
    case InsertDisk(payload) =>
      && AtWork(w) && w.commit == Off && Committable(t, w, payload)
      && var id := Cur(w).id;
         now == w.(disks := w.disks[id := RowOf(w.job.value.options, Cur(w), t.hash(w.media[id]))],
                   mine := w.mine + {id}, commit := At(0))
    case Consume =>
      && w.commit.At? && CurFile(w, w.commit.k)
      && var path := Cur(w).bucket.files[w.commit.k].path;
         now == w.(metadata := w.metadata - {path},
                   commit := Consumed(w.commit.k, if path in w.metadata then Some(w.metadata[path]) else None))
    case InsertFile =>
      && w.commit.Consumed? && CurFile(w, w.commit.k)
      && var f := Cur(w).bucket.files[w.commit.k];
         && f.path in w.staging
         && now == w.(files := w.files + [FileRow(Cur(w).id, f.path, f.size, t.hash(w.staging[f.path]),
                                                  if w.commit.held.Some? then w.commit.held.value else Meta([], ""))],
                      commit := Inserted(w.commit.k))
    case RemoveStaged =>
      && w.commit.Inserted? && CurFile(w, w.commit.k)
      && now == w.(staging := w.staging - {Cur(w).bucket.files[w.commit.k].path}, commit := At(w.commit.k + 1))
    case BeginCleanup =>
      && AtWork(w) && Cur(w).role == Parity && w.commit == At(0)
      && now == w.(commit := Cleaning)
    case _ => false
  }

  /** What one action may do. */
  ghost predicate Act(t: Tools, w: World, a: Action, now: World) {
    if UserAction(a) then UserActs(w, a, now)
    else if JobAction(a) then JobActs(w, a, now)
    else if DiscAction(a) then DiscActs(w, a, now)
    else CommitActs(t, w, a, now)
  }

  /** A run: every world follows from the one before by one step. */
  ghost predicate Run(t: Tools, run: seq<World>) {
    && run != []
    && forall i, j :: 0 <= i < j < |run| && j == i + 1 ==> Step(t, run[i], run[j])
  }

  ghost predicate Step(t: Tools, w: World, now: World) {
    exists a :: Act(t, w, a, now)
  }
}
