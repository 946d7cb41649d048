/** What holds in every world a run can reach. */
module BurnInv {
  import opened Bytes
  import opened XorDisk
  import opened DiskIds
  import opened Plan
  import opened PlanProps
  import opened Tools
  import opened BurnWorld

  /** The files of the current disc that commitDisc has not removed from staging yet start here. */
  function Pending(c: Commit): nat {
    match c
    case Off => 0
    case At(k) => k
    case Consumed(k, _) => k
    case Inserted(k) => k
    case Cleaning => 0
  }

  /** The files of the current disc that commitDisc has not inserted yet start here. */
  function Unlisted(c: Commit): nat {
    if c.Inserted? then c.k + 1 else Pending(c)
  }

  /** How many discs of the job are fully written: the finished ones, and one whose commit is under way. */
  function WrittenTo(w: World): nat
    requires w.job.Some?
  {
    w.job.value.index + (if w.commit != Off then 1 else 0)
  }

  // ---- The job -----------------------------------------------------------------------

  ghost predicate CommitInRange(c: Commit, job: Job) {
    c != Off ==>
      && job.state == CommitState(job.options) && job.index < |job.plans|
      && Unlisted(c) <= |job.plans[job.index].bucket.files|
      && (c.Consumed? || c.Inserted? ==> c.k < |job.plans[job.index].bucket.files|)
      && (c == Cleaning ==> job.plans[job.index].role == Parity)
  }

  ghost predicate JobOk(w: World) {
    match w.job
    case None => w.mine == {} && w.commit == Off
    case Some(job) =>
      && job.plans != [] && PlansOk(job.plans, job.options, w.base)
      && job.index <= |job.plans| && (job.index == |job.plans| <==> job.state == Done)
      && (job.hasErr <==> job.state == Failed)
      && CommitInRange(w.commit, job)
  }

  // ---- The catalog prefix --------------------------------------------------------------

  /** The job's discs in the catalog are those before the index, and perhaps the current one. */
  ghost predicate Placed(plans: seq<DiscPlan>, index: nat, mine: set<DiskId>, committing: bool,
                         ids: set<DiskId>, base: nat, prefix: string)
  {
    && (forall j :: 0 <= j < index && j < |plans| ==> plans[j].id in mine)
    && (forall j :: index < j < |plans| ==> plans[j].id !in mine)
    && (forall id <- mine :: exists j :: 0 <= j < |plans| && plans[j].id == id)
    && (index < |plans| && committing ==> plans[index].id in mine)
    && |mine| == index + (if index < |plans| && plans[index].id in mine then 1 else 0)
    && mine <= ids
    && base + |mine| == |Counted(ids, prefix)|
  }

  ghost predicate MineOk(w: World) {
    w.job.Some? ==>
      Placed(w.job.value.plans, w.job.value.index, w.mine, w.commit != Off,
             w.disks.Keys, w.base, w.job.value.options.prefix)
  }

  // ---- The disks table -------------------------------------------------------------------

  /** A data disc's number never exceeds the count, so the next numbers are never a data disc's. */
  ghost predicate NumbersOk(disks: map<DiskId, DiskRow>) {
    forall d <- disks :: disks[d].role == Data ==> d.number <= |Counted(disks.Keys, d.prefix)|
  }

  ghost predicate GroupsKnown(disks: map<DiskId, DiskRow>, groups: set<string>) {
    forall d <- disks :: disks[d].group.Some? ==> disks[d].group.value in groups
  }

  /** Catalogued discs this job did not insert share no group with it, and an ID only with a parity disc. */
  ghost predicate Foreign(plans: seq<DiscPlan>, mine: set<DiskId>, disks: map<DiskId, DiskRow>, groups: set<string>) {
    && (forall j :: 0 <= j < |plans| && plans[j].id in disks && plans[j].id !in mine ==>
          disks[plans[j].id].role == Parity)
    && (forall j :: 0 <= j < |plans| && plans[j].group != "" ==> plans[j].group in groups)
    && (forall j, d ::
          0 <= j < |plans| && plans[j].group != "" && d in disks && disks[d].group == Some(plans[j].group) ==>
            d in mine)
  }

  /** A written disc's row describes it, with the hash of the bytes on the medium. */
  ghost predicate WrittenRows(t: Tools, opts: Options, plans: seq<DiscPlan>, upTo: nat,
                              disks: map<DiskId, DiskRow>, media: map<DiskId, Bytes>)
  {
    forall j :: 0 <= j < upTo && j < |plans| ==>
      && plans[j].id in disks && plans[j].id in media
      && disks[plans[j].id] == RowOf(opts, plans[j], t.hash(media[plans[j].id]))
  }

  ghost predicate DisksOk(t: Tools, w: World) {
    && NumbersOk(w.disks) && GroupsKnown(w.disks, w.groups)
    && (w.job.Some? ==>
          && Foreign(w.job.value.plans, w.mine, w.disks, w.groups)
          && WrittenRows(t, w.job.value.options, w.job.value.plans, WrittenTo(w), w.disks, w.media))
  }

  // ---- The files table ---------------------------------------------------------------------

  ghost predicate Listed(files: seq<FileRow>, id: DiskId, path: string) {
    exists i :: 0 <= i < |files| && files[i].disk == id && files[i].path == path
  }

  /** Rows refer to catalogued data discs, and no file of a disc has two rows. */
  ghost predicate Keyed(files: seq<FileRow>, disks: map<DiskId, DiskRow>) {
    && (forall i :: 0 <= i < |files| ==> files[i].disk in disks && disks[files[i].disk].role == Data)
    && (forall i, k :: 0 <= i < k < |files| ==>
          files[i].disk != files[k].disk || files[i].path != files[k].path)
  }

  ghost predicate ListedBefore(files: seq<FileRow>, plans: seq<DiscPlan>, index: nat) {
    forall j, a :: 0 <= j < index && j < |plans| && 0 <= a < |plans[j].bucket.files| ==>
      Listed(files, plans[j].id, plans[j].bucket.files[a].path)
  }

  ghost predicate ListedTo(files: seq<FileRow>, plan: DiscPlan, unlisted: nat) {
    forall a :: 0 <= a < |plan.bucket.files| ==>
      (Listed(files, plan.id, plan.bucket.files[a].path) <==> a < unlisted)
  }

  /** The rows of this job's discs name only files of their plans. */
  ghost predicate Planwise(files: seq<FileRow>, plans: seq<DiscPlan>, upTo: nat) {
    forall i, j :: 0 <= i < |files| && 0 <= j < upTo && j < |plans| && files[i].disk == plans[j].id ==>
      OnPlan(plans[j], files[i].path)
  }

  ghost predicate OnPlan(plan: DiscPlan, path: string) {
    exists a :: 0 <= a < |plan.bucket.files| && plan.bucket.files[a].path == path
  }

  ghost predicate RowsOk(w: World) {
    && Keyed(w.files, w.disks)
    && (w.job.Some? ==> Planwise(w.files, w.job.value.plans, WrittenTo(w)))
    && (w.job.Some? ==> ListedBefore(w.files, w.job.value.plans, w.job.value.index))
    && (HasCur(w) && w.commit != Off ==> ListedTo(w.files, Cur(w), Unlisted(w.commit)))
  }

  // ---- Staging ---------------------------------------------------------------------------------

  /** The current disc's files: all staged before its row exists, then removed one by one. */
  ghost predicate StagedFrom(plans: seq<DiscPlan>, index: nat, inserted: bool, committing: bool, pending: nat,
                             staging: map<string, Bytes>)
  {
    forall j, a :: 0 <= j < |plans| && 0 <= a < |plans[j].bucket.files| ==>
      var f := plans[j].bucket.files[a];
      && (f.path in staging ==> f.size == |staging[f.path]|)
      && (j > index ==> f.path in staging)
      && (j < index ==> f.path !in staging)
      && (j == index && !inserted ==> f.path in staging)
      && (j == index && committing ==> (f.path in staging <==> a >= pending))
  }

  ghost predicate StagedOk(w: World) {
    w.job.Some? && w.job.value.state != Done ==>
      StagedFrom(w.job.value.plans, w.job.value.index, HasCur(w) && Cur(w).id in w.mine,
                 w.commit != Off, Pending(w.commit), w.staging)
  }

  // ---- Spool ---------------------------------------------------------------------------------

  /** The written data images of a group lie in spool exactly as they are on their discs. */
  ghost predicate Kept(plans: seq<DiscPlan>, upTo: nat, group: string,
                       spool: map<string, Node>, media: map<DiskId, Bytes>)
  {
    forall j :: 0 <= j < upTo && j < |plans| && plans[j].role == Data && plans[j].group == group ==>
      && plans[j].id in media
      && IsoName(plans[j].id) in spool && spool[IsoName(plans[j].id)] == File(media[plans[j].id])
  }

  /** Until the cleanup after its parity disc, a group's images stay in spool. */
  ghost predicate SpoolOk(w: World) {
    HasCur(w) && Cur(w).group != "" && w.commit != Cleaning ==>
      Kept(w.job.value.plans, WrittenTo(w), Cur(w).group, w.spool, w.media)
  }

  /** The data images of this job found in spool all belong to `group`. */
  ghost predicate OnlyGroup(plans: seq<DiscPlan>, index: nat, group: Option<string>, spool: map<string, Node>) {
    forall j :: 0 <= j <= index && j < |plans| && plans[j].role == Data && IsoName(plans[j].id) in spool ==>
      group == Some(plans[j].group)
  }

  ghost predicate SpoolBound(w: World) {
    w.job.Some? && w.job.value.options.crossParity && !w.strays ==>
      OnlyGroup(w.job.value.plans, w.job.value.index, if HasCur(w) then Some(Cur(w).group) else None, w.spool)
  }

  // ---- Images ----------------------------------------------------------------------------------

  ghost predicate ImageOk(t: Tools, opts: Options, plans: seq<DiscPlan>, plan: DiscPlan, media: map<DiskId, Bytes>) {
    && plan.id in media
    && match plan.role
       case Data => exists payload :: Built(t, media[plan.id], plan, opts, payload)
       case Parity =>
         var ids := GroupData(plans, plan.group);
         && ids != [] && OnMedia(media, ids)
         && Built(t, media[plan.id], plan, opts, Xor(MediaImages(media, ids), opts.capacity))
  }

  /** Every written disc is a true image; a parity disc's payload is the XOR of its group's images. */
  ghost predicate ImagesOk(t: Tools, w: World) {
    w.job.Some? ==>
      var job := w.job.value;
      forall j :: 0 <= j < WrittenTo(w) && j < |job.plans| ==> ImageOk(t, job.options, job.plans, job.plans[j], w.media)
  }

  // ---- Recorded files ------------------------------------------------------------------------------

  /** The file a row records is on its disc, with the recorded size and hash. */
  ghost predicate Backed(t: Tools, media: map<DiskId, Bytes>, r: FileRow) {
    && r.disk in media
    && ReadFile(t, media[r.disk], r.disk, r.path).Found?
    && t.hash(ReadFile(t, media[r.disk], r.disk, r.path).data) == r.hash
    && |ReadFile(t, media[r.disk], r.disk, r.path).data| == r.size
  }

  ghost predicate RowsBacked(t: Tools, files: seq<FileRow>, ids: set<DiskId>, media: map<DiskId, Bytes>) {
    forall i :: 0 <= i < |files| && files[i].disk in ids ==> Backed(t, media, files[i])
  }

  /** While a disc is being committed, the files still staged are on it as they are in staging. */
  ghost predicate OnDisc(t: Tools, plan: DiscPlan, pending: nat, media: map<DiskId, Bytes>, staging: map<string,
                         Bytes>) {
    && plan.id in media
    && forall a :: pending <= a < |plan.bucket.files| ==>
         var path := plan.bucket.files[a].path;
         path in staging && ReadFile(t, media[plan.id], plan.id, path) == Found(staging[path])
  }

  ghost predicate BackedOk(t: Tools, w: World) {
    && w.sealed <= w.disks.Keys
    && RowsBacked(t, w.files, w.sealed, w.media)
    && (w.job.Some? ==>
          && (forall j :: 0 <= j < w.job.value.index && j < |w.job.value.plans| ==> w.job.value.plans[j].id in w.sealed)
          && (HasCur(w) && Cur(w).id in w.mine ==> Cur(w).id !in w.sealed)
          && (HasCur(w) && w.commit != Off ==>
                && RowsBacked(t, w.files, {Cur(w).id}, w.media)
                && OnDisc(t, Cur(w), Pending(w.commit), w.media, w.staging)))
  }

  /** Only recorded discs count as overwritten, and not one that is being recorded. */
  ghost predicate OverOk(w: World) {
    w.overwritten <= w.disks.Keys && (HasCur(w) && w.commit != Off ==> Cur(w).id !in w.overwritten)
  }

  ghost predicate Inv(t: Tools, w: World) {
    && JobOk(w) && MineOk(w) && DisksOk(t, w) && RowsOk(w) && StagedOk(w)
    && SpoolOk(w) && SpoolBound(w) && ImagesOk(t, w) && BackedOk(t, w) && OverOk(w)
  }

  // ---- One part of it at a time ------------------------------------------------------------------

  lemma JobPart(t: Tools, w: World)
    requires Inv(t, w)
    ensures JobOk(w)
  {
    hide JobOk;
    hide MineOk;
    hide DisksOk;
    hide RowsOk;
    hide StagedOk;
    hide SpoolOk;
    hide SpoolBound;
    hide ImagesOk;
    hide BackedOk;
    hide OverOk;
  }

  lemma MinePart(t: Tools, w: World)
    requires Inv(t, w)
    ensures MineOk(w)
  {
    hide JobOk;
    hide MineOk;
    hide DisksOk;
    hide RowsOk;
    hide StagedOk;
    hide SpoolOk;
    hide SpoolBound;
    hide ImagesOk;
    hide BackedOk;
    hide OverOk;
  }

  lemma DisksPart(t: Tools, w: World)
    requires Inv(t, w)
    ensures DisksOk(t, w)
  {
    hide JobOk;
    hide MineOk;
    hide DisksOk;
    hide RowsOk;
    hide StagedOk;
    hide SpoolOk;
    hide SpoolBound;
    hide ImagesOk;
    hide BackedOk;
    hide OverOk;
  }

  lemma RowsPart(t: Tools, w: World)
    requires Inv(t, w)
    ensures RowsOk(w)
  {
    hide JobOk;
    hide MineOk;
    hide DisksOk;
    hide RowsOk;
    hide StagedOk;
    hide SpoolOk;
    hide SpoolBound;
    hide ImagesOk;
    hide BackedOk;
    hide OverOk;
  }

  lemma StagedPart(t: Tools, w: World)
    requires Inv(t, w)
    ensures StagedOk(w)
  {
    hide JobOk;
    hide MineOk;
    hide DisksOk;
    hide RowsOk;
    hide StagedOk;
    hide SpoolOk;
    hide SpoolBound;
    hide ImagesOk;
    hide BackedOk;
    hide OverOk;
  }

  lemma SpoolPart(t: Tools, w: World)
    requires Inv(t, w)
    ensures SpoolOk(w)
  {
    hide JobOk;
    hide MineOk;
    hide DisksOk;
    hide RowsOk;
    hide StagedOk;
    hide SpoolOk;
    hide SpoolBound;
    hide ImagesOk;
    hide BackedOk;
    hide OverOk;
  }

  lemma BoundPart(t: Tools, w: World)
    requires Inv(t, w)
    ensures SpoolBound(w)
  {
    hide JobOk;
    hide MineOk;
    hide DisksOk;
    hide RowsOk;
    hide StagedOk;
    hide SpoolOk;
    hide SpoolBound;
    hide ImagesOk;
    hide BackedOk;
    hide OverOk;
  }

  lemma ImagesPart(t: Tools, w: World)
    requires Inv(t, w)
    ensures ImagesOk(t, w)
  {
    hide JobOk;
    hide MineOk;
    hide DisksOk;
    hide RowsOk;
    hide StagedOk;
    hide SpoolOk;
    hide SpoolBound;
    hide ImagesOk;
    hide BackedOk;
    hide OverOk;
  }

  lemma BackedPart(t: Tools, w: World)
    requires Inv(t, w)
    ensures BackedOk(t, w)
  {
    hide JobOk;
    hide MineOk;
    hide DisksOk;
    hide RowsOk;
    hide StagedOk;
    hide SpoolOk;
    hide SpoolBound;
    hide ImagesOk;
    hide BackedOk;
    hide OverOk;
  }

  lemma OverPart(t: Tools, w: World)
    requires Inv(t, w)
    ensures OverOk(w)
  {
    hide JobOk;
    hide MineOk;
    hide DisksOk;
    hide RowsOk;
    hide StagedOk;
    hide SpoolOk;
    hide SpoolBound;
    hide ImagesOk;
    hide BackedOk;
    hide OverOk;
  }
}
