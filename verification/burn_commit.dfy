/** What runDisc and commitDisc compute, as functions of the world they start from. */
module BurnCommit {
  import opened Bytes
  import opened XorDisk
  import opened BinPack
  import opened DiskIds
  import opened Plan
  import opened PlanProps
  import opened Tools
  import opened BurnWorld
  import opened BurnInv
  import opened BurnKeep
  import opened BurnKeepData
  import opened BurnFacts

  /** What goes into the source directory. */
  function Contents(id: DiskId): seq<string> {
    [TarName(id), TocName(id), Par2Name(id)]
  }

  lemma NamesDiffer(id: DiskId)
    ensures var names := Contents(id);
            && (forall i, j :: 0 <= i < j < |names| ==> names[i] != names[j])
            && (forall i :: 0 <= i < |names| ==> names[i] in OwnNames(id))
            && SourceName(id) !in names && IsoName(id) !in names && IsoName(id) != SourceName(id)
            && SourceName(id) in OwnNames(id) && IsoName(id) in OwnNames(id)
  {
    LastChars(id);
    hide TarName;
    hide Par2Name;
    hide TocName;
    hide IsoName;
    hide SourceName;
  }

  lemma NamesApart(id: DiskId)
    ensures TarName(id) in OwnNames(id) && Par2Name(id) in OwnNames(id) && TocName(id) in OwnNames(id)
    ensures SourceName(id) in OwnNames(id) && IsoName(id) in OwnNames(id) && VolumeName(id) in OwnNames(id)
    ensures VolumeName(id) != TarName(id) && VolumeName(id) != Par2Name(id) && VolumeName(id) != TocName(id)
    ensures VolumeName(id) !in StaleNames(id) && SourceName(id) in StaleNames(id)
    ensures VolumeName(id) != SourceName(id) && VolumeName(id) != IsoName(id)
    ensures Par2Name(id) != TarName(id) && TocName(id) != TarName(id) && TocName(id) != Par2Name(id)
    ensures SourceName(id) != TarName(id) && SourceName(id) != Par2Name(id) && SourceName(id) != TocName(id)
    ensures SourceName(id) != IsoName(id)
  {
    LastChars(id);
    hide TarName;
    hide Par2Name;
    hide TocName;
    hide IsoName;
    hide SourceName;
  }

  lemma OwnEntriesCompose(a: map<string, Node>, b: map<string, Node>, c: map<string, Node>, id: DiskId)
    requires OnlyOwnEntries(a, b, id) && OnlyOwnEntries(b, c, id)
    ensures OnlyOwnEntries(a, c, id)
  {
    hide OwnNames;
  }

  lemma OwnNamesAre(id: DiskId, p: string)
    ensures p in StaleNames(id) <==>
              p == TarName(id) || p == Par2Name(id) || p == TocName(id) || p == IsoName(id) || p == SourceName(id)
    ensures p in OwnNames(id) <==> p in StaleNames(id) || p == VolumeName(id)
  {
    hide TarName;
    hide VolumeName;
    hide Par2Name;
    hide TocName;
    hide IsoName;
    hide SourceName;
  }

  // ---- Payloads --------------------------------------------------------------------------

  lemma {:induction false} GroupDataConcat(a: seq<DiscPlan>, b: seq<DiscPlan>, group: string)
    ensures GroupData(a + b, group) == GroupData(a, group) + GroupData(b, group)
  {
    if a == [] {
      assert a + b == b;
    } else {
      assert (a + b)[0] == a[0] && (a + b)[1..] == a[1..] + b;
      GroupDataConcat(a[1..], b, group);
    }
  }

  /** One more plan looked at: it joins the group's data discs or is passed over. */
  lemma GroupDataNext(plans: seq<DiscPlan>, i: nat, group: string)
    requires i < |plans|
    ensures GroupData(plans[..i + 1], group) == GroupData(plans[..i], group)
              + if plans[i].role == Data && plans[i].group == group then [plans[i].id] else []
  {
    assert plans[..i + 1] == plans[..i] + [plans[i]];
    GroupDataConcat(plans[..i], [plans[i]], group);
    assert [plans[i]][1..] == [];
    assert GroupData([plans[i]], group) == if plans[i].role == Data && plans[i].group == group then [plans[i].id]
           else [];
  }

  lemma NothingRead(spool: map<string, Node>, plans: seq<DiscPlan>, group: string)
    ensures GroupData(plans[..0], group) == []
    ensures Readable(spool, GroupData(plans[..0], group)) && SpoolImages(spool, GroupData(plans[..0], group)) == []
  {
  }

  /** Reading the next image of the group, if the plan is one of it. */
  lemma ReadNext(spool: map<string, Node>, plans: seq<DiscPlan>, i: nat, group: string)
    requires i < |plans| && Readable(spool, GroupData(plans[..i], group))
    ensures var here, next := GroupData(plans[..i], group), GroupData(plans[..i + 1], group);
            if plans[i].role == Data && plans[i].group == group then
              IsoName(plans[i].id) in spool && spool[IsoName(plans[i].id)].File? ==>
                && Readable(spool, next)
                && SpoolImages(spool, next) == SpoolImages(spool, here) + [spool[IsoName(plans[i].id)].data]
            else next == here
  {
    GroupDataNext(plans, i, group);
    hide GroupData;
    hide IsoName;
  }

  /** If the group's images can all be read, so can that of each of its data discs. */
  lemma ReadableIso(spool: map<string, Node>, plans: seq<DiscPlan>, i: nat, group: string)
    requires Readable(spool, GroupData(plans, group))
    requires i < |plans| && plans[i].role == Data && plans[i].group == group
    ensures IsoName(plans[i].id) in spool && spool[IsoName(plans[i].id)].File?
  {
    GroupDataIn(plans, group, plans[i].id);
    hide IsoName;
    var k :| 0 <= k < |GroupData(plans, group)| && GroupData(plans, group)[k] == plans[i].id;
  }

  /** Two moments of one attempt: the same job at the same disc, with only the disc's own entries changed. */
  ghost predicate SameAttempt(w: World, now: World) {
    && HasCur(w) && HasCur(now) && now.staging == w.staging && now.commit == w.commit == Off
    && now.job.value.plans == w.job.value.plans && now.job.value.options == w.job.value.options
    && now.job.value.index == w.job.value.index
    && OnlyOwnEntries(w.spool, now.spool, Cur(w).id)
  }

  /** What is to be packed does not depend on what an attempt leaves in the disc's own entries. */
  lemma PayloadStays(t: Tools, w: World, now: World, payload: Bytes)
    requires Inv(t, w) && Inv(t, now) && SameAttempt(w, now)
    ensures IsPayload(t, w, Cur(w), payload) <==> IsPayload(t, now, Cur(now), payload)
  {
    hide Inv;
    hide Xor;
    hide OwnNames;
    hide Archive;
    var plans, plan := w.job.value.plans, Cur(w);
    if plan.role == Parity {
      GroupMatesDiffer(t, w);
      var ids := GroupData(plans, plan.group);
      forall i | 0 <= i < |ids|
        ensures IsoName(ids[i]) in now.spool <==> IsoName(ids[i]) in w.spool
        ensures IsoName(ids[i]) in now.spool ==> now.spool[IsoName(ids[i])] == w.spool[IsoName(ids[i])]
      {
        OtherDiscsIso(w.spool, now.spool, plan.id, ids[i]);
      }
      hide IsoName;
      hide OnlyOwnEntries;
      assert Readable(w.spool, ids) <==> Readable(now.spool, ids);
      if Readable(w.spool, ids) {
        assert SpoolImages(w.spool, ids) == SpoolImages(now.spool, ids);
      }
    }
  }

  lemma GroupMatesDiffer(t: Tools, w: World)
    requires Inv(t, w) && HasCur(w) && Cur(w).role == Parity
    ensures forall i :: 0 <= i < |GroupData(w.job.value.plans, Cur(w).group)| ==>
              GroupData(w.job.value.plans, Cur(w).group)[i] != Cur(w).id
  {
    hide Inv;
    hide PlansOk;
    JobPart(t, w);
    var job, ids := w.job.value, GroupData(w.job.value.plans, Cur(w).group);
    PlanFacts(job.plans, job.options, w.base);
    forall i | 0 <= i < |ids|
      ensures ids[i] != Cur(w).id
    {
      GroupDataEarlier(job.plans, job.options, w.base, job.index, ids[i]);
    }
  }

  /** A data disc that is not in the catalog yet has all its files staged. */
  lemma FilesStillStaged(t: Tools, w: World)
    requires Inv(t, w) && HasCur(w) && w.commit == Off && Cur(w).role == Data
    ensures Cur(w).id in w.mine || AllStaged(Cur(w).bucket.files, w.staging)
  {
    hide Inv;
    hide PlansOk;
    JobPart(t, w);
    StagedPart(t, w);
    if Cur(w).id !in w.mine {
      forall a | 0 <= a < |Cur(w).bucket.files|
        ensures Cur(w).bucket.files[a].path in w.staging
      {
        assert w.job.value.plans[w.job.value.index].bucket.files[a].path in w.staging;
      }
    }
  }

  /** The images a parity disc is made from are always there. */
  lemma ImagesStillThere(t: Tools, w: World)
    requires Inv(t, w) && HasCur(w) && w.commit == Off && Cur(w).role == Parity
    ensures GroupData(w.job.value.plans, Cur(w).group) != []
    ensures Readable(w.spool, GroupData(w.job.value.plans, Cur(w).group))
  {
    hide *;
    ParityOperands(t, w);
  }

  // ---- Moving files into a directory -----------------------------------------------------------

  /** The plain files among `names`, by name. */
  function Collected(spool: map<string, Node>, names: seq<string>): Directory {
    if names == [] then map[] else
      var before := Collected(spool, names[..|names| - 1]);
      var name := names[|names| - 1];
      if name in spool && spool[name].File? then before[name := spool[name].data] else before
  }

  function FileNames(spool: map<string, Node>, names: seq<string>): set<string> {
    set p <- names | p in spool && spool[p].File?
  }

  lemma CollectedNext(spool: map<string, Node>, names: seq<string>, i: nat)
    requires i < |names|
    ensures Collected(spool, names[..i + 1]) ==
            if names[i] in spool && spool[names[i]].File?
            then Collected(spool, names[..i])[names[i] := spool[names[i]].data]
            else Collected(spool, names[..i])
    ensures FileNames(spool, names[..i + 1]) ==
            FileNames(spool, names[..i]) + if names[i] in spool && spool[names[i]].File? then {names[i]} else {}
  {
    assert names[..i + 1][..i] == names[..i];
    assert names[..i + 1] == names[..i] + [names[i]];
  }

  /** The spool once those of `names` that are files have been moved into `dir`. */
  function Moved(spool: map<string, Node>, names: seq<string>, dir: string): map<string, Node> {
    (spool - FileNames(spool, names))[dir := Dir(Collected(spool, names))]
  }

  lemma MovedNext(spool: map<string, Node>, names: seq<string>, dir: string, i: nat)
    requires i < |names| && dir !in names
    requires forall k, l :: 0 <= k < l < |names| ==> names[k] != names[l]
    ensures var s := Moved(spool, names[..i], dir);
            && (names[i] in s <==> names[i] in spool)
            && (names[i] in s ==> s[names[i]] == spool[names[i]])
            && dir in s && s[dir].Dir?
            && Moved(spool, names[..i + 1], dir) ==
                 if names[i] in s && s[names[i]].File?
                 then (s - {names[i]})[dir := Dir(s[dir].entries[names[i] := s[names[i]].data])]
                 else s
  {
    CollectedNext(spool, names, i);
    hide Collected;
    assert names[i] !in names[..i];
  }

  lemma MovedAll(spool: map<string, Node>, id: DiskId, tar: Bytes, toc: Bytes, par2: Bytes)
    requires TarName(id) in spool && spool[TarName(id)] == File(tar)
    requires TocName(id) in spool && spool[TocName(id)] == File(toc)
    requires Par2Name(id) in spool && spool[Par2Name(id)] == File(par2)
    ensures Moved(spool, Contents(id), SourceName(id)) ==
            (spool - {TarName(id), TocName(id), Par2Name(id)})
            [SourceName(id) := Dir(map[TarName(id) := tar, TocName(id) := toc, Par2Name(id) := par2])]
  {
    NamesDiffer(id);
    var names, dir := Contents(id), SourceName(id);
    hide TarName;
    hide TocName;
    hide Par2Name;
    hide SourceName;
    hide IsoName;
    assert FileNames(spool, names) == {TarName(id), TocName(id), Par2Name(id)};
    hide FileNames;
    CollectedNext(spool, names, 0);
    CollectedNext(spool, names, 1);
    CollectedNext(spool, names, 2);
    assert names[..3] == names && names[..0] == [];
    assert Collected(spool, []) == map[];
    hide Collected;
    assert Collected(spool, names) == map[TarName(id) := tar, TocName(id) := toc, Par2Name(id) := par2];
  }

  /**
   * After a preparation the disc's only entry, besides volumes if par2create made some, is its
   * source directory, with this payload in it.
   */
  ghost predicate Prepared(t: Tools, spool: map<string, Node>, plan: DiscPlan, opts: Options, payload: Bytes,
                           createdAt: nat) {
    && (forall p <- StaleNames(plan.id) :: p in spool <==> p == SourceName(plan.id))
    && SourceName(plan.id) in spool
    && spool[SourceName(plan.id)] == Dir(SourceDir(t, plan, opts, payload, createdAt))
    && (VolumeName(plan.id) in spool <==> t.volumes(payload, opts.parityPercent).Some?)
  }

  /** The spool after par2create: the index and, if there are any, the volumes. */
  function AfterPar2(t: Tools, spool: map<string, Node>, id: DiskId, payload: Bytes, percent: nat): map<string, Node> {
    WithVolumes(t, spool, id, payload, percent)[Par2Name(id) := File(t.par2(payload, percent))]
  }

  function WithVolumes(t: Tools, spool: map<string, Node>, id: DiskId, payload: Bytes, percent: nat): map<string,
      Node> {
    match t.volumes(payload, percent)
    case None => spool
    case Some(v) => spool[VolumeName(id) := File(v)]
  }

  /** The volumes do not touch what else is made in a clean spool. */
  lemma VolumesAside(t: Tools, clean: map<string, Node>, spool: map<string, Node>, plan: DiscPlan, opts: Options,
                     payload: Bytes, createdAt: nat)
    requires forall p <- StaleNames(plan.id) :: p !in clean
    requires spool == AfterPar2(t, clean[TarName(plan.id) := File(payload)], plan.id, payload, opts.parityPercent)
                      [TocName(plan.id) := File(t.toc(TocOf(plan, opts, createdAt)))]
    ensures var aside := WithVolumes(t, clean, plan.id, payload, opts.parityPercent);
            && (forall p <- StaleNames(plan.id) :: p !in aside)
            && WithContents(t, aside, spool, plan, opts, payload, createdAt)
            && (VolumeName(plan.id) !in clean ==>
                  (VolumeName(plan.id) in spool <==> t.volumes(payload, opts.parityPercent).Some?))
  {
    NamesApart(plan.id);
    OwnNamesAre(plan.id, VolumeName(plan.id));
    hide StaleNames;
    hide OwnNames;
    hide TarName;
    hide VolumeName;
    hide Par2Name;
    hide TocName;
    hide SourceName;
    hide IsoName;
    hide TocOf;
  }

  /** The three files of the source directory, made in a clean spool. */
  ghost predicate WithContents(t: Tools, clean: map<string, Node>, spool: map<string, Node>, plan: DiscPlan,
                               opts: Options, payload: Bytes, createdAt: nat)
  {
    spool == clean[TarName(plan.id) := File(payload)]
                  [Par2Name(plan.id) := File(t.par2(payload, opts.parityPercent))]
                  [TocName(plan.id) := File(t.toc(TocOf(plan, opts, createdAt)))]
  }

  lemma NoSourceDirYet(t: Tools, clean: map<string, Node>, spool: map<string, Node>, plan: DiscPlan,
                       opts: Options, payload: Bytes, createdAt: nat)
    requires forall p <- StaleNames(plan.id) :: p !in clean
    requires WithContents(t, clean, spool, plan, opts, payload, createdAt)
    ensures SourceName(plan.id) !in spool
  {
    NamesApart(plan.id);
    hide OwnNames;
    hide StaleNames;
    hide TarName;
    hide TocName;
    hide Par2Name;
    hide SourceName;
  }

  /**
   * A retry equals a fresh attempt: two attempts at the same disc, from whatever their
   * predecessors left in its spool entries, prepare the same entries, apart from the moment
   * noted in the table of contents.
   */
  lemma RetryEqualsFresh(t: Tools, w: World, other: World, a: Bytes, b: Bytes, createdAt: nat,
                         spool: map<string, Node>, otherSpool: map<string, Node>, p: string)
    requires Inv(t, w) && Inv(t, other) && SameAttempt(w, other)
    requires IsPayload(t, w, Cur(w), a) && IsPayload(t, other, Cur(other), b)
    requires Prepared(t, spool, Cur(w), w.job.value.options, a, createdAt)
    requires Prepared(t, otherSpool, Cur(other), other.job.value.options, b, createdAt)
    requires p in StaleNames(Cur(w).id)
    ensures a == b
    ensures p in spool <==> p in otherSpool
    ensures p in spool ==> spool[p] == otherSpool[p]
  {
    PayloadStays(t, w, other, b);
    hide Inv;
    hide OwnNames;
    hide OnlyOwnEntries;
    hide Archive;
    hide Xor;
  }

  lemma PreparedBy(t: Tools, clean: map<string, Node>, spool: map<string, Node>, plan: DiscPlan, opts: Options,
                   payload: Bytes, createdAt: nat)
    requires forall p <- StaleNames(plan.id) :: p !in clean
    requires WithContents(t, clean, spool, plan, opts, payload, createdAt)
    requires VolumeName(plan.id) in spool <==> t.volumes(payload, opts.parityPercent).Some?
    ensures Prepared(t, Moved(spool[SourceName(plan.id) := Dir(map[])], Contents(plan.id), SourceName(plan.id)),
                     plan, opts, payload, createdAt)
  {
    var id := plan.id;
    NamesDiffer(id);
    NamesApart(id);
    assert TarName(id) == Contents(id)[0] && TocName(id) == Contents(id)[1] && Par2Name(id) == Contents(id)[2];
    assert StaleNames(id) == {TarName(id), Par2Name(id), TocName(id), IsoName(id), SourceName(id)} by {
      hide TarName;
      hide TocName;
      hide Par2Name;
      hide SourceName;
      hide IsoName;
    }
    hide OwnNames;
    hide StaleNames;
    hide TarName;
    hide TocName;
    hide Par2Name;
    hide VolumeName;
    hide SourceName;
    hide IsoName;
    MovedAll(spool[SourceName(id) := Dir(map[])], id, payload, t.toc(TocOf(plan, opts, createdAt)),
             t.par2(payload, opts.parityPercent));
    hide Moved;
  }

  lemma BuiltNow(t: Tools, plan: DiscPlan, opts: Options, payload: Bytes, createdAt: nat, moment: nat)
    ensures Built(t, t.image(SourceDir(t, plan, opts, payload, createdAt), moment), plan, opts, payload)
  {
    hide SourceDir;
  }

  // ---- Catalog rows ------------------------------------------------------------------------------

  function RowOfFile(t: Tools, id: DiskId, f: FileInfo, staging: map<string, Bytes>, metadata: map<string,
                     Meta>): FileRow
    requires f.path in staging
  {
    FileRow(id, f.path, f.size, t.hash(staging[f.path]), if f.path in metadata then metadata[f.path] else Meta([], ""))
  }

  /** The rows commitDisc inserts: every file of the plan with its hash and its staged metadata. */
  function RowsFor(t: Tools, plan: DiscPlan, staging: map<string, Bytes>, metadata: map<string,
                   Meta>): (rows: seq<FileRow>)
    requires forall i :: 0 <= i < |plan.bucket.files| ==> plan.bucket.files[i].path in staging
    ensures |rows| == |plan.bucket.files|
  {
    seq(|plan.bucket.files|, i requires 0 <= i < |plan.bucket.files| =>
      RowOfFile(t, plan.id, plan.bucket.files[i], staging, metadata))
  }

  function PathsOf(files: seq<FileInfo>): set<string> {
    set f <- files :: f.path
  }

  lemma PathsNext(files: seq<FileInfo>, k: nat)
    requires k < |files|
    requires forall a, b :: 0 <= a < b < |files| ==> files[a].path != files[b].path
    ensures PathsOf(files[..k + 1]) == PathsOf(files[..k]) + {files[k].path}
    ensures files[k].path !in PathsOf(files[..k])
  {
    assert files[..k + 1] == files[..k] + [files[k]];
  }

  /** The world with the disc's row inserted. */
  function WithRow(t: Tools, w: World): World
    requires HasCur(w) && Cur(w).id in w.media
  {
    w.(disks := w.disks[Cur(w).id := RowOf(w.job.value.options, Cur(w), t.hash(w.media[Cur(w).id]))],
       mine := w.mine + {Cur(w).id}, commit := At(0))
  }

  /** The world after the first `k` files of the plan were committed, from one with its row inserted. */
  function CommittedTo(t: Tools, w: World, plan: DiscPlan, k: nat): World
    requires forall i :: 0 <= i < |plan.bucket.files| ==> plan.bucket.files[i].path in w.staging
    requires k <= |plan.bucket.files|
  {
    w.(staging := w.staging - PathsOf(plan.bucket.files[..k]),
       metadata := w.metadata - PathsOf(plan.bucket.files[..k]),
       files := w.files + RowsFor(t, plan, w.staging, w.metadata)[..k],
       commit := At(k))
  }

  lemma CommittedNext(t: Tools, w: World, plan: DiscPlan, k: nat)
    requires forall i :: 0 <= i < |plan.bucket.files| ==> plan.bucket.files[i].path in w.staging
    requires forall a, b :: 0 <= a < b < |plan.bucket.files| ==>
               plan.bucket.files[a].path != plan.bucket.files[b].path
    requires k < |plan.bucket.files|
    ensures var now, f := CommittedTo(t, w, plan, k), plan.bucket.files[k];
            && f.path in now.staging
            && RowOfFile(t, plan.id, f, now.staging, now.metadata) == RowsFor(t, plan, w.staging, w.metadata)[k]
            && CommittedTo(t, w, plan, k + 1) ==
               now.(files := now.files + [RowOfFile(t, plan.id, f, now.staging, now.metadata)],
                    metadata := now.metadata - {f.path}, staging := now.staging - {f.path}, commit := At(k + 1))
  {
    PathsNext(plan.bucket.files, k);
    var paths, next, path := PathsOf(plan.bucket.files[..k]), PathsOf(plan.bucket.files[..k + 1]),
        plan.bucket.files[k].path;
    hide PathsOf;
    assert w.staging - next == w.staging - paths - {path};
    assert w.metadata - next == w.metadata - paths - {path};
    var rows := RowsFor(t, plan, w.staging, w.metadata);
    assert rows[..k + 1] == rows[..k] + [rows[k]];
  }

  lemma NothingCommitted(t: Tools, w: World, plan: DiscPlan)
    requires forall i :: 0 <= i < |plan.bucket.files| ==> plan.bucket.files[i].path in w.staging
    requires w.commit == At(0)
    ensures CommittedTo(t, w, plan, 0) == w
  {
    assert PathsOf(plan.bucket.files[..0]) == {};
  }

  lemma AllCommitted(t: Tools, w: World, plan: DiscPlan)
    requires forall i :: 0 <= i < |plan.bucket.files| ==> plan.bucket.files[i].path in w.staging
    ensures CommittedTo(t, w, plan, |plan.bucket.files|) ==
            w.(staging := w.staging - PathsOf(plan.bucket.files), metadata := w.metadata - PathsOf(plan.bucket.files),
               files := w.files + RowsFor(t, plan, w.staging, w.metadata), commit := At(|plan.bucket.files|))
  {
    assert plan.bucket.files[..|plan.bucket.files|] == plan.bucket.files;
    var rows := RowsFor(t, plan, w.staging, w.metadata);
    assert rows[..|rows|] == rows;
    hide RowsFor;
    hide PathsOf;
  }

  lemma FilesDiffer(t: Tools, w: World)
    requires Inv(t, w) && HasCur(w)
    ensures forall a, b :: 0 <= a < b < |Cur(w).bucket.files| ==>
              Cur(w).bucket.files[a].path != Cur(w).bucket.files[b].path
    ensures Cur(w).role == Parity ==> Cur(w).bucket.files == []
  {
    hide Inv;
    hide PlansOk;
    JobPart(t, w);
    CurFilesDiffer(w);
    PlanFacts(w.job.value.plans, w.job.value.options, w.base);
  }

  // ---- One whole disc ---------------------------------------------------------------------------

  /** Only images of the group's data discs have left. */
  ghost predicate OnlyGroupIsos(was: map<string, Node>, now: map<string, Node>, plans: seq<DiscPlan>, group: string) {
    && (forall p <- now :: p in was && now[p] == was[p])
    && (forall p <- was :: p !in now ==>
          exists j :: 0 <= j < |plans| && plans[j].role == Data && plans[j].group == group && p == IsoName(plans[j].id))
  }

  /** Such a cleanup leaves all volumes. */
  lemma VolumesStay(was: map<string, Node>, now: map<string, Node>, plans: seq<DiscPlan>, group: string, id: DiskId)
    requires OnlyGroupIsos(was, now, plans, group)
    ensures VolumeName(id) in now <==> VolumeName(id) in was
  {
    forall other
      ensures VolumeName(id) != IsoName(other)
    {
      LastChars(id);
      LastChars(other);
    }
    hide VolumeName;
    hide IsoName;
  }

  /** Apart from the disc's own entries, spool lost at most, after a parity disc, its group's images. */
  ghost predicate SpoolAfter(was: map<string, Node>, now: map<string, Node>, plans: seq<DiscPlan>, plan: DiscPlan) {
    exists spool :: OnlyOwnEntries(was, spool, plan.id)
      && if plan.role == Parity then OnlyGroupIsos(spool, now, plans, plan.group) else now == spool
  }

  /** What the next attempt at the current disc may try to write. */
  ghost predicate IsAttempt(t: Tools, w: World, image: Bytes)
    requires HasCur(w)
  {
    exists payload :: IsPayload(t, w, Cur(w), payload) && Built(t, image, Cur(w), w.job.value.options, payload)
  }

  /** Some image of the current disc does not fit on its medium. */
  ghost predicate OverSize(t: Tools, w: World)
    requires HasCur(w)
  {
    exists image :: IsAttempt(t, w, image) && !HasRoom(w.job.value.options, image)
  }

  /** `now` has an attempt at `was`'s current disc written. */
  ghost predicate AttemptWritten(t: Tools, was: World, now: World) {
    HasCur(was) && exists image :: IsAttempt(t, was, image) && now.media == MediaAfter(was, image)
  }

  function MediaAfter(w: World, image: Bytes): map<DiskId, Bytes>
    requires HasCur(w)
  {
    Written(w, image).media
  }

  /** What is at the target paths once a disc has been written under an ID of its own. */
  function MountedFor(mounted: map<string, DiskId>, opts: Options, id: DiskId): map<string, DiskId> {
    var others := Without(mounted, id);
    if ToTarget(opts) then others[opts.target := id] else others
  }

  /**
   * What a successful ContinueNextDisc has done: the medium holds an image built from the
   * payload of a fresh attempt, and has room for it; the catalog has the disc with that
   * image's hash and every file with its own hash and metadata; the files have left staging.
   * No par2 volumes of the disc were in spool before; they are now, if there are any.
   */
  ghost predicate DiscBurned(t: Tools, was: World, now: World) {
    && HasCur(was)
    && var plan, opts := Cur(was), was.job.value.options;
    && plan.id !in was.disks && plan.id in now.media && AllStaged(plan.bucket.files, was.staging)
    && VolumeName(plan.id) !in was.spool
    && (exists payload ::
          && IsPayload(t, was, plan, payload) && Built(t, now.media[plan.id], plan, opts, payload)
          && (VolumeName(plan.id) in now.spool <==> t.volumes(payload, opts.parityPercent).Some?))
    && HasRoom(opts, now.media[plan.id])
    && now.media == was.media[plan.id := now.media[plan.id]]
    && now.disks == was.disks[plan.id := RowOf(opts, plan, t.hash(now.media[plan.id]))]
    && now.files == was.files + RowsFor(t, plan, was.staging, was.metadata)
    && now.staging == was.staging - PathsOf(plan.bucket.files)
    && now.metadata == was.metadata - PathsOf(plan.bucket.files)
    && now.groups == was.groups && now.withdrawn == was.withdrawn
    && now.mounted == MountedFor(was.mounted, opts, plan.id)
    && now.overwritten == was.overwritten + Truncated(was)
    && SpoolAfter(was.spool, now.spool, was.job.value.plans, plan)
  }

  lemma PayloadMeansStaged(t: Tools, w: World, payload: Bytes)
    requires Inv(t, w) && HasCur(w) && IsPayload(t, w, Cur(w), payload)
    ensures AllStaged(Cur(w).bucket.files, w.staging)
  {
    hide Inv;
    FilesDiffer(t, w);
  }

  lemma InsertKeepsJobAndFiles(t: Tools, w: World)
    requires HasCur(w) && Cur(w).id in w.media
    ensures WithRow(t, w).job == w.job && WithRow(t, w).files == w.files && WithRow(t, w).jobs == w.jobs
    ensures WithRow(t, w).media == w.media && WithRow(t, w).spool == w.spool
    ensures WithRow(t, w).overwritten == w.overwritten
  {
    hide RowOf;
  }

  lemma CommittedKeeps(t: Tools, w: World, plan: DiscPlan)
    requires HasCur(w) && plan == Cur(w) && plan.id in w.media && AllStaged(plan.bucket.files, w.staging)
    ensures var now := CommittedTo(t, WithRow(t, w), plan, |plan.bucket.files|);
            && now.job == w.job && now.commit == At(|plan.bucket.files|)
            && now.strays == w.strays && now.spool == w.spool && now.jobs == w.jobs
            && now.overwritten == w.overwritten
  {
    hide RowOf;
    hide RowsFor;
    hide PathsOf;
  }

  /**
   * A whole commit, field by field: the disc's row, and for each file its row, with what was
   * known of it before; the file and its metadata are gone.
   */
  ghost predicate CommitDone(t: Tools, was: World, now: World, plan: DiscPlan)
    requires was.job.Some?
  {
    var opts, files, n := was.job.value.options, plan.bucket.files, |was.files|;
    && plan.id in was.media && plan.id in now.disks && now.disks == was.disks[plan.id := now.disks[plan.id]]
    && now.disks[plan.id] == DiskRow(opts.mediaType, opts.parityPercent,
                                     if plan.group == "" then None else Some(plan.group), plan.role,
                                     if plan.group == "" then None else Some(plan.slot),
                                     t.hash(was.media[plan.id]), opts.dryRun)
    && |now.files| == n + |files| && was.files <= now.files
    && forall i :: 0 <= i < |files| ==>
         var path := files[i].path;
         && path in was.staging && path !in now.staging && path !in now.metadata
         && now.files[n + i] == FileRow(plan.id, path, files[i].size, t.hash(was.staging[path]),
                                        if path in was.metadata then was.metadata[path] else Meta([], ""))
  }

  lemma CommittedSays(t: Tools, w: World, plan: DiscPlan)
    requires HasCur(w) && plan == Cur(w) && plan.id in w.media && AllStaged(plan.bucket.files, w.staging)
    ensures CommitDone(t, w, CommittedTo(t, WithRow(t, w), plan, |plan.bucket.files|), plan)
  {
    AllCommitted(t, WithRow(t, w), plan);
    hide CommittedTo;
    forall i | 0 <= i < |plan.bucket.files|
      ensures plan.bucket.files[i].path in PathsOf(plan.bucket.files)
      ensures RowsFor(t, plan, w.staging, w.metadata)[i]
           == RowOfFile(t, plan.id, plan.bucket.files[i], w.staging, w.metadata)
    {
    }
    hide PathsOf;
    hide RowsFor;
  }

  lemma ParityIsPayload(t: Tools, w: World, images: seq<Bytes>, payload: Bytes)
    requires HasCur(w) && Cur(w).role == Parity
    requires var ids := GroupData(w.job.value.plans, Cur(w).group);
             ids != [] && Readable(w.spool, ids) && images == SpoolImages(w.spool, ids)
    requires payload == Xor(images, w.job.value.options.capacity)
    ensures IsPayload(t, w, Cur(w), payload)
  {
    hide GroupData;
    hide Xor;
  }

  lemma FitsOrNot(t: Tools, was: World, payload: Bytes, image: Bytes)
    requires HasCur(was) && IsPayload(t, was, Cur(was), payload)
    requires Built(t, image, Cur(was), was.job.value.options, payload)
    ensures HasRoom(was.job.value.options, image) || OverSize(t, was)
  {
    hide IsPayload;
    hide Built;
    hide HasRoom;
    assert IsAttempt(t, was, image);
  }

  lemma Attempted(t: Tools, was: World, now: World, payload: Bytes, image: Bytes)
    requires HasCur(was) && IsPayload(t, was, Cur(was), payload)
    requires Built(t, image, Cur(was), was.job.value.options, payload) && now.media == Written(was, image).media
    ensures AttemptWritten(t, was, now)
  {
    hide IsPayload;
    hide Built;
    assert IsAttempt(t, was, image);
  }

  lemma InMedia(t: Tools, w: World, payload: Bytes)
    requires HasCur(w) && Committable(t, w, payload)
    ensures Cur(w).id in w.media
  {
    hide IsPayload;
    hide Built;
  }

  /** What is in spool, and the state, make no difference to a write. */
  lemma SameWritten(was: World, w: World, image: Bytes)
    requires HasCur(was) && w.job.Some? && w.job == Some(was.job.value.(state := w.job.value.state))
    requires w == was.(spool := w.spool, job := w.job)
    ensures HasCur(w) && Truncated(w) == Truncated(was)
    ensures Written(w, image) == Written(was, image).(spool := w.spool, job := w.job)
  {
    hide Without;
  }

  /** A disc whose ID is free is written onto its own medium. */
  lemma FreeIsWritten(was: World, made: World, image: Bytes)
    requires HasCur(was) && Cur(was).id !in was.disks
    requires made.media == Written(was, image).media && made.mounted == Written(was, image).mounted
    requires made.overwritten == Written(was, image).overwritten
    ensures var opts, id := was.job.value.options, Cur(was).id;
            && made.media == was.media[id := image]
            && made.mounted == MountedFor(was.mounted, opts, id)
            && made.overwritten == was.overwritten + Truncated(was)
  {
  }

  /** From the disc that was made, through its commit and the cleanup, to the disc that is done. */
  lemma BurnedBy(t: Tools, was: World, made: World, committed: World, now: World, payload: Bytes)
    requires HasCur(was) && was.job.Some? && made.job.Some?
    requires made == was.(spool := made.spool, job := made.job, media := made.media, mounted := made.mounted,
                              overwritten := made.overwritten)
    requires made.job == Some(was.job.value.(state := made.job.value.state))
    requires var plan := Cur(was);
             && OnlyOwnEntries(was.spool, made.spool, plan.id)
             && plan.id in made.media && made.media == was.media[plan.id := made.media[plan.id]]
             && made.mounted == MountedFor(was.mounted, was.job.value.options, plan.id)
             && made.overwritten == was.overwritten + Truncated(was)
             && HasRoom(was.job.value.options, made.media[plan.id]) && VolumeName(plan.id) !in was.spool
             && (VolumeName(plan.id) in made.spool <==> t.volumes(payload, was.job.value.options.parityPercent).Some?)
             && AllStaged(plan.bucket.files, was.staging) && plan.id !in was.disks
             && IsPayload(t, was, plan, payload) && Built(t, made.media[plan.id], plan, was.job.value.options, payload)
             && committed == CommittedTo(t, WithRow(t, made), plan, |plan.bucket.files|)
             && now == committed.(spool := now.spool, strays := now.strays, commit := now.commit)
             && if plan.role == Parity then OnlyGroupIsos(made.spool, now.spool, was.job.value.plans, plan.group)
                else now.spool == made.spool
    ensures DiscBurned(t, was, now)
  {
    hide OnlyOwnEntries;
    hide IsPayload;
    hide Built;
    hide RowOf;
    if Cur(was).role == Parity {
      VolumesStay(made.spool, now.spool, was.job.value.plans, Cur(was).group, Cur(was).id);
    }
    hide OnlyGroupIsos;
    hide VolumeName;
    AllCommitted(t, WithRow(t, made), Cur(was));
    hide RowsFor;
    hide PathsOf;
    hide CommittedTo;
  }

  /** Claiming before and advancing after do not touch what a burn is about. */
  lemma SameDiscBurned(t: Tools, was: World, claimed: World, done: World, now: World)
    requires was.job.Some? && HasCur(was) && DiscBurned(t, claimed, done)
    requires claimed == SetJob(was, was.job.value.(state := Packing))
    requires now == done.(job := now.job, commit := now.commit, sealed := now.sealed)
    ensures DiscBurned(t, was, now) && Cur(was).id !in was.disks
  {
    hide Built;
    hide RowOf;
    hide RowsFor;
    hide PathsOf;
    hide SpoolAfter;
    var plan, opts := Cur(was), was.job.value.options;
    var payload :| IsPayload(t, claimed, plan, payload) && Built(t, now.media[plan.id], plan, opts, payload);
    assert IsPayload(t, was, plan, payload);
  }

  /** An attempt at the claimed job is one at the job that was awaited. */
  lemma SameAttempts(t: Tools, was: World, claimed: World, done: World)
    requires HasCur(was) && claimed == SetJob(was, was.job.value.(state := Packing))
    ensures forall image :: IsAttempt(t, was, image) <==> IsAttempt(t, claimed, image)
    ensures OverSize(t, was) <==> OverSize(t, claimed)
    ensures AttemptWritten(t, was, done) <==> AttemptWritten(t, claimed, done)
  {
    hide IsAttempt;
    hide OverSize;
    hide AttemptWritten;
    forall image
      ensures IsAttempt(t, was, image) <==> IsAttempt(t, claimed, image)
    {
      SameAttemptAt(t, was, claimed, image);
    }
    SameWrites(t, was, claimed, done);
  }

  lemma SamePayload(t: Tools, was: World, claimed: World, payload: Bytes)
    requires HasCur(was) && claimed == SetJob(was, was.job.value.(state := Packing))
    ensures HasCur(claimed) && Cur(claimed) == Cur(was)
    ensures IsPayload(t, was, Cur(was), payload) <==> IsPayload(t, claimed, Cur(claimed), payload)
  {
    hide GroupData;
    hide Xor;
    hide Archive;
    hide AllStaged;
  }

  lemma SameAttemptAt(t: Tools, was: World, claimed: World, image: Bytes)
    requires HasCur(was) && claimed == SetJob(was, was.job.value.(state := Packing))
    ensures HasCur(claimed) && (IsAttempt(t, was, image) <==> IsAttempt(t, claimed, image))
  {
    hide Built;
    forall payload
      ensures HasCur(claimed) && Cur(claimed) == Cur(was)
      ensures IsPayload(t, was, Cur(was), payload) <==> IsPayload(t, claimed, Cur(claimed), payload)
    {
      SamePayload(t, was, claimed, payload);
    }
    hide IsPayload;
  }

  lemma SameWrites(t: Tools, was: World, claimed: World, done: World)
    requires HasCur(was) && claimed == SetJob(was, was.job.value.(state := Packing)) && HasCur(claimed)
    requires forall image :: IsAttempt(t, was, image) <==> IsAttempt(t, claimed, image)
    ensures OverSize(t, was) <==> OverSize(t, claimed)
    ensures AttemptWritten(t, was, done) <==> AttemptWritten(t, claimed, done)
  {
    hide IsAttempt;
    hide HasRoom;
    hide MediaAfter;
    forall image
      ensures MediaAfter(was, image) == MediaAfter(claimed, image)
    {
      SameMediaAfter(was, claimed, image);
    }
  }

  lemma SameMediaAfter(was: World, claimed: World, image: Bytes)
    requires HasCur(was) && claimed == SetJob(was, was.job.value.(state := Packing))
    ensures HasCur(claimed) && MediaAfter(was, image) == MediaAfter(claimed, image)
  {
  }

  /** A commit that stops at once has recorded no file. */
  lemma NoRowsYetWanted(t: Tools, w: World, plan: DiscPlan)
    requires AllStaged(plan.bucket.files, w.staging)
    ensures w.files <= w.files + RowsFor(t, plan, w.staging, w.metadata)
  {
    hide RowsFor;
  }

  lemma AwaitingHasCur(t: Tools, w: World)
    requires Inv(t, w) && w.job.Some? && w.job.value.state == AwaitingDisc
    ensures HasCur(w) && w.commit == Off
  {
    hide Inv;
    hide PlansOk;
    JobPart(t, w);
  }
}
