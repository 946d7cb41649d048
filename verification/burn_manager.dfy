/** internal/burn/pipeline.go: the burn manager itself. */
module BurnManager {
  import opened Bytes
  import opened XorDisk
  import opened BinPack
  import opened DiskIds
  import opened Plan
  import opened PlanProps
  import opened Tools
  import opened BurnWorld
  import opened BurnInv
  import opened BurnKeepData
  import opened BurnFacts
  import opened BurnMeta
  import opened BurnSteps
  import opened BurnStart
  import opened BurnCommit

  /** How calls to the outside end: all work, all fail, or each as it may. */
  datatype Mood = Kind | Hostile | Any

  class Environment {
    var mood: Mood

    constructor (mood: Mood)
      ensures this.mood == mood
    {
      this.mood := mood;
    }
  }

  /**
   * The manager with the directories and tables it works on. Calls to programs, to the
   * database and to the file system may fail at any time; `faults` counts those that did.
   * `device` is what the drive or the target path reads as after the last real write.
   * `trace` is the run so far: every change is one step of it.
   */
  class Manager {
    const t: Tools
    const env: Environment
    var staging: map<string, Bytes>
    var spool: map<string, Node>
    var device: Bytes
    ghost var media: map<DiskId, Bytes>
    ghost var mounted: map<string, DiskId>
    ghost var overwritten: set<DiskId>
    var disks: map<DiskId, DiskRow>
    var files: seq<FileRow>
    var metadata: map<string, Meta>
    var groups: set<string>
    var job: Option<Job>
    ghost var base: nat
    ghost var mine: set<DiskId>
    ghost var commit: Commit
    ghost var strays: bool
    ghost var sealed: set<DiskId>
    ghost var lost: seq<(string, Meta)>
    ghost var withdrawn: seq<map<string, Bytes>>
    ghost var jobs: nat
    ghost var trace: seq<World>
    ghost var faults: nat

    ghost function W(): World
      reads this
    {
      World(staging, spool, media, mounted, overwritten, disks, files, metadata, groups, job,
            base, mine, commit, strays, sealed, lost, withdrawn, jobs)
    }

    ghost predicate Valid()
      reads this
    {
      Reached(t, trace, W())
    }

    /** The faults since there were `was`: none while every call works. */
    ghost predicate Tally(was: nat)
      reads this, env
    {
      was <= faults && (env.mood.Kind? ==> faults == was)
    }

    constructor (t: Tools, env: Environment, staging: map<string, Bytes>, spool: map<string, Node>,
                 metadata: map<string, Meta>)
      requires Lawful(t)
      ensures Valid() && this.t == t && this.env == env && trace == [W()] && faults == 0
      ensures this.staging == staging && this.spool == spool && this.metadata == metadata && job == None
      ensures disks == map[] && files == [] && groups == {} && mounted == map[] && overwritten == {} && withdrawn == []
    {
      this.t, this.env := t, env;
      this.staging, this.spool, this.device, this.media, this.mounted := staging, spool, [], map[], map[];
      this.overwritten, this.disks, this.files, this.metadata, this.groups := {}, map[], [], metadata, {};
      this.job := None;
      this.base, this.mine, this.commit, this.strays, this.sealed := 0, {}, Off, false, {};
      this.lost, this.withdrawn, this.jobs, this.faults := [], [], 0, 0;
      new;
      trace := [W()];
      FirstReached(t, W());
    }

    // ---- Steps ---------------------------------------------------------------------------

    /** Adds the step from `w` to the present to the run. */
    ghost method Record(w: World, a: Action)
      requires Reached(t, trace, w) && Act(t, w, a, W())
      modifies this`trace
      ensures Valid() && trace == old(trace) + [W()]
    {
      hide Act;
      hide Reached;
      NextReached(t, trace, w, a, W());
      trace := trace + [W()];
    }

    /** A call to the outside: it works, or it counts as a fault. */
    method External() returns (ok: bool)
      requires Valid()
      modifies this`faults
      ensures Valid() && faults == old(faults) + (if ok then 0 else 1) && Tally(old(faults))
      ensures env.mood.Hostile? ==> !ok
    {
      hide Reached;
      ok := *;
      match env.mood {
        case Kind => ok := true;
        case Hostile => ok := false;
        case Any =>
      }
      if !ok {
        faults := faults + 1;
      }
    }

    ghost predicate Working(s: State)
      reads this
    {
      AtWork(W()) && commit == Off && job.value.state == s
    }

    method SetState(s: State)
      requires Valid() && AtWork(W()) && commit == Off && LegalMove(job.value.state, s)
      modifies this
      ensures Valid() && W() == SetJob(old(W()), old(job).value.(state := s)) && trace == old(trace) + [W()]
      ensures faults == old(faults) && device == old(device)
    {
      hide Act;
      hide Reached;
      job := Some(job.value.(state := s));
      MaySetState(t, old(W()), s, W());
      Record(old(W()), Action.SetState(s));
    }

    /** Any change to the spool entries of the current disc. */
    method Touch(now: map<string, Node>)
      requires Valid() && AtWork(W()) && commit == Off && OnlyOwnEntries(spool, now, Cur(W()).id)
      modifies this
      ensures Valid() && W() == old(W()).(spool := now) && trace == old(trace) + [W()]
      ensures faults == old(faults)
    {
      hide Act;
      hide Reached;
      hide OnlyOwnEntries;
      spool := now;
      MayTouch(t, old(W()), now, W());
      Record(old(W()), TouchSpool(now));
    }

    // ---- Preparing a disc's source directory ---------------------------------------------------

    /** One os.RemoveAll: a failure may leave anything behind. */
    method RemoveAll(name: string) returns (ok: bool)
      requires Valid() && AtWork(W()) && commit == Off && name in OwnNames(Cur(W()).id)
      modifies this
      ensures Valid() && W() == old(W()).(spool := spool) && old(trace) <= trace
      ensures spool.Keys <= old(spool).Keys
      ensures forall p :: p != name ==> (p in spool <==> p in old(spool)) && (p in spool ==> spool[p] == old(spool)[p])
      ensures Tally(old(faults))
      ensures ok ==> name !in spool && !env.mood.Hostile?
      ensures !ok ==> faults > old(faults)
    {
      hide Reached;
      hide OwnNames;
      ok := External();
      if ok {
        Touch(spool - {name});
      } else if name in spool {
        var left: Node := *;
        Touch(spool[name := left]);
      }
    }

    /** Nothing of an earlier attempt at the disc survives, and no other disc's entry changes. */
    method RemoveStaleArtifacts(id: DiskId) returns (ok: bool)
      requires Valid() && AtWork(W()) && commit == Off && id == Cur(W()).id
      modifies this
      ensures Valid() && W() == old(W()).(spool := spool) && old(trace) <= trace
      ensures OnlyOwnEntries(old(spool), spool, id)
      ensures VolumeName(id) in spool <==> VolumeName(id) in old(spool)
      ensures Tally(old(faults))
      ensures ok ==> !env.mood.Hostile? && forall p <- StaleNames(id) :: p !in spool
      ensures ok ==> TarName(id) !in spool && Par2Name(id) !in spool && TocName(id) !in spool
                     && IsoName(id) !in spool && SourceName(id) !in spool
      ensures !ok ==> faults > old(faults)
    {
      hide Reached;
      hide StaleNames;
      hide OwnNames;
      hide TarName;
      hide Par2Name;
      hide TocName;
      hide IsoName;
      hide SourceName;
      hide VolumeName;
      var names := [TarName(id), Par2Name(id), TocName(id), IsoName(id), SourceName(id)];
      forall p
        ensures p in StaleNames(id) <==> p in names
        ensures p in StaleNames(id) ==> p in OwnNames(id)
      {
        OwnNamesAre(id, p);
      }
      NamesApart(id);
      assert names[0] == TarName(id) && names[1] == Par2Name(id) && names[2] == TocName(id)
             && names[3] == IsoName(id) && names[4] == SourceName(id);
      for i := 0 to |names|
        invariant Valid() && W() == old(W()).(spool := spool) && old(trace) <= trace && Tally(old(faults))
        invariant OnlyOwnEntries(old(spool), spool, id)
        invariant VolumeName(id) in spool <==> VolumeName(id) in old(spool)
        invariant forall k :: 0 <= k < i ==> names[k] !in spool
        invariant i > 0 ==> !env.mood.Hostile?
      {
        ok := RemoveAll(names[i]);
        if !ok {
          return false;
        }
      }
      return true;
    }

    /** One write into the current disc's entries: a failure leaves what was there, part of it, or rubbish. */
    method WriteFile(name: string, data: Bytes) returns (ok: bool)
      requires Valid() && AtWork(W()) && commit == Off && name in OwnNames(Cur(W()).id)
      modifies this
      ensures Valid() && W() == old(W()).(spool := spool) && old(trace) <= trace
      ensures spool == old(spool) || (name in spool && spool == old(spool)[name := spool[name]])
      ensures Tally(old(faults))
      ensures ok ==> spool == old(spool)[name := File(data)]
      ensures !ok ==> faults > old(faults)
    {
      hide Reached;
      hide OwnNames;
      ok := External();
      var written := data;
      if !ok {
        if * {
          return;
        }
        written := *;
      }
      Touch(spool[name := File(written)]);
    }

    /** A data disc's payload: the archive of its files as they are staged. */
    method PackTar(plan: DiscPlan) returns (ok: bool, ghost payload: Bytes)
      requires Valid() && AtWork(W()) && commit == Off && plan == Cur(W()) && plan.role == Data
      modifies this
      ensures Valid() && W() == old(W()).(spool := spool) && old(trace) <= trace
      ensures OnlyOwnEntries(old(spool), spool, plan.id) && Tally(old(faults))
      ensures ok ==> spool == old(spool)[TarName(plan.id) := File(payload)] && IsPayload(t, old(W()), plan, payload)
      ensures !ok && faults == old(faults) ==> plan.id in mine
    {
      hide Inv;
      hide Lawful;
      hide Reached;
      ReachedInv(t, trace, W());
      hide TarName;
      FilesStillStaged(t, W());
      var tar := WriteTar(t, staging, plan.bucket, job.value.options.compress);
      if tar.None? {
        return false, [];
      }
      payload := tar.value;
      ok := WriteFile(TarName(plan.id), tar.value);
    }

    /** Reads the images of the group's data discs, in plan order. */
    method ReadGroupImages(plan: DiscPlan) returns (images: Option<seq<Bytes>>)
      requires Valid() && job.Some?
      modifies this`faults
      ensures Valid() && Tally(old(faults))
      ensures var ids := GroupData(job.value.plans, plan.group);
              && (images.Some? ==> Readable(spool, ids) && images.value == SpoolImages(spool, ids))
              && (images.None? && faults == old(faults) ==> !Readable(spool, ids))
    {
      hide Reached;
      hide IsoName;
      hide GroupData;
      hide Readable;
      hide SpoolImages;
      var plans := job.value.plans;
      var read: seq<Bytes> := [];
      NothingRead(spool, plans, plan.group);
      for i := 0 to |plans|
        invariant Valid() && Tally(old(faults))
        invariant Readable(spool, GroupData(plans[..i], plan.group))
        invariant read == SpoolImages(spool, GroupData(plans[..i], plan.group))
      {
        var p := plans[i];
        ReadNext(spool, plans, i, plan.group);
        if p.group != plan.group || p.role != Data {
          continue;
        }
        var ok := External();
        if !ok || IsoName(p.id) !in spool || !spool[IsoName(p.id)].File? {
          if Readable(spool, GroupData(plans, plan.group)) {
            ReadableIso(spool, plans, i, plan.group);
          }
          return None;
        }
        read := read + [spool[IsoName(p.id)].data];
      }
      assert plans[..|plans|] == plans;
      return Some(read);
    }

    /** The images of a parity disc's group are there to be read. */
    method ReadOperands(plan: DiscPlan) returns (images: Option<seq<Bytes>>)
      requires Valid() && AtWork(W()) && commit == Off && plan == Cur(W()) && plan.role == Parity
      modifies this`faults
      ensures Valid() && Tally(old(faults))
      ensures images.Some? ==>
                var ids := GroupData(job.value.plans, plan.group);
                ids != [] && Readable(spool, ids) && images.value == SpoolImages(spool, ids)
      ensures images.None? ==> faults > old(faults)
    {
      hide Reached;
      hide Inv;
      hide Lawful;
      hide GroupData;
      hide Readable;
      hide SpoolImages;
      ReachedInv(t, trace, W());
      ImagesStillThere(t, W());
      images := ReadGroupImages(plan);
    }

    /** A parity disc's payload: the XOR of the images of its group's data discs in spool. */
    method BuildParityPayload(plan: DiscPlan) returns (ok: bool, ghost payload: Bytes)
      requires Valid() && AtWork(W()) && commit == Off && plan == Cur(W()) && plan.role == Parity
      modifies this
      ensures Valid() && W() == old(W()).(spool := spool) && old(trace) <= trace
      ensures OnlyOwnEntries(old(spool), spool, plan.id) && Tally(old(faults))
      ensures ok ==> spool == old(spool)[TarName(plan.id) := File(payload)] && IsPayload(t, old(W()), plan, payload)
      ensures !ok ==> faults > old(faults)
    {
      hide Reached;
      hide TarName;
      hide OwnNames;
      hide GroupData;
      hide Xor;
      hide Readable;
      hide SpoolImages;
      hide IsPayload;
      var images := ReadOperands(plan);
      if images.None? || |images.value| == 0 {
        return false, [];
      }
      var parity := XOR(images.value, job.value.options.capacity);
      payload := parity[..];
      ParityIsPayload(t, W(), images.value, payload);
      OwnNamesAre(plan.id, TarName(plan.id));
      ok := WriteFile(TarName(plan.id), parity[..]);
    }

    /** The switch on the disc's role. */
    method BuildPayload(plan: DiscPlan) returns (ok: bool, ghost payload: Bytes)
      requires Valid() && AtWork(W()) && commit == Off && plan == Cur(W())
      modifies this
      ensures Valid() && W() == old(W()).(spool := spool) && old(trace) <= trace
      ensures OnlyOwnEntries(old(spool), spool, plan.id) && Tally(old(faults))
      ensures ok ==> spool == old(spool)[TarName(plan.id) := File(payload)] && IsPayload(t, old(W()), plan, payload)
      ensures !ok && faults == old(faults) ==> plan.id in mine
    {
      hide *;
      match plan.role {
        case Data =>
          ok, payload := PackTar(plan);
        case Parity =>
          ok, payload := BuildParityPayload(plan);
      }
    }

    /**
     * par2create refuses to run next to an index or volumes of an earlier run. It writes the
     * index and perhaps volumes; a failure leaves anything of that.
     */
    method CreateParity(plan: DiscPlan) returns (ok: bool)
      requires Valid() && AtWork(W()) && commit == Off && plan == Cur(W())
      requires TarName(plan.id) in spool && spool[TarName(plan.id)].File?
      modifies this
      ensures Valid() && W() == old(W()).(spool := spool) && old(trace) <= trace
      ensures OnlyOwnEntries(old(spool), spool, plan.id) && Tally(old(faults))
      ensures ok ==>
                && VolumeName(plan.id) !in old(spool) && Par2Name(plan.id) !in old(spool)
                && spool == AfterPar2(t, old(spool), plan.id, old(spool)[TarName(plan.id)].data,
                                      job.value.options.parityPercent)
      ensures ok ==>
                var tar, percent := old(spool)[TarName(plan.id)].data, job.value.options.parityPercent;
                && Par2Name(plan.id) in spool && spool[Par2Name(plan.id)] == File(t.par2(tar, percent))
                && (match t.volumes(tar, percent)
                    case None => VolumeName(plan.id) !in spool
                    case Some(volumes) =>
                      VolumeName(plan.id) in spool && spool[VolumeName(plan.id)] == File(volumes))
                && (forall p :: p != Par2Name(plan.id) && p != VolumeName(plan.id) ==>
                      (p in spool <==> p in old(spool)) && (p in spool ==> spool[p] == old(spool)[p]))
      ensures !ok && faults == old(faults) ==> Par2Name(plan.id) in old(spool) || VolumeName(plan.id) in old(spool)
    {
      hide Reached;
      hide TarName;
      NamesApart(plan.id);
      hide OwnNames;
      hide Par2Name;
      hide VolumeName;
      if Par2Name(plan.id) in spool || VolumeName(plan.id) in spool {
        return false;
      }
      var payload, percent := spool[TarName(plan.id)].data, job.value.options.parityPercent;
      var volumes := t.volumes(payload, percent);
      if volumes.Some? {
        ok := WriteFile(VolumeName(plan.id), volumes.value);
        if !ok {
          return;
        }
      }
      ok := WriteFile(Par2Name(plan.id), t.par2(payload, percent));
    }

    /** The table of contents, one entry per file of the plan. */
    method BuildToc(plan: DiscPlan, createdAt: nat) returns (toc: Toc)
      requires job.Some?
      ensures toc == TocOf(plan, job.value.options, createdAt)
      ensures toc.disk == plan.id && toc.group == plan.group && toc.role == plan.role && toc.slot == plan.slot
      ensures var opts := job.value.options;
              toc.mediaType == opts.mediaType && toc.parityPercent == opts.parityPercent
                  && toc.compressed == opts.compress
      ensures toc.createdAt == createdAt && |toc.files| == |plan.bucket.files|
      ensures forall i :: 0 <= i < |toc.files| ==>
                toc.files[i].path == plan.bucket.files[i].path && toc.files[i].size == plan.bucket.files[i].size
    {
      var opts := job.value.options;
      var entries: seq<FileInfo> := [];
      for i := 0 to |plan.bucket.files|
        invariant entries == plan.bucket.files[..i]
      {
        entries := entries + [plan.bucket.files[i]];
      }
      assert plan.bucket.files[..|plan.bucket.files|] == plan.bucket.files;
      return Toc(plan.id, opts.mediaType, opts.parityPercent, opts.compress,
                 plan.group, plan.role, plan.slot, createdAt, entries);
    }

    method WriteToc(plan: DiscPlan) returns (ok: bool, createdAt: nat)
      requires Valid() && AtWork(W()) && commit == Off && plan == Cur(W())
      modifies this
      ensures Valid() && W() == old(W()).(spool := spool) && old(trace) <= trace
      ensures OnlyOwnEntries(old(spool), spool, plan.id) && Tally(old(faults))
      ensures ok ==> spool == old(spool)[TocName(plan.id) := File(t.toc(TocOf(plan, job.value.options, createdAt)))]
      ensures !ok ==> faults > old(faults)
    {
      hide Reached;
      hide TocName;
      createdAt := *;
      var toc := BuildToc(plan, createdAt);
      ok := WriteFile(TocName(plan.id), t.toc(toc));
    }

    /** os.MkdirAll: an existing directory is fine, a file in its place is not. */
    method MakeSourceDir(plan: DiscPlan) returns (ok: bool)
      requires Valid() && AtWork(W()) && commit == Off && plan == Cur(W())
      modifies this
      ensures Valid() && W() == old(W()).(spool := spool) && old(trace) <= trace
      ensures OnlyOwnEntries(old(spool), spool, plan.id) && Tally(old(faults))
      ensures ok && SourceName(plan.id) !in old(spool) ==> spool == old(spool)[SourceName(plan.id) := Dir(map[])]
      ensures !ok && faults == old(faults) ==> SourceName(plan.id) in old(spool)
    {
      hide Reached;
      hide SourceName;
      ok := External();
      if ok && SourceName(plan.id) in spool {
        ok := spool[SourceName(plan.id)].Dir?;
      } else if ok {
        Touch(spool[SourceName(plan.id) := Dir(map[])]);
      }
    }

    /** Moves those of the three files that exist into the source directory. */
    method MovePathsInto(plan: DiscPlan) returns (ok: bool)
      requires Valid() && AtWork(W()) && commit == Off && plan == Cur(W())
      requires SourceName(plan.id) in spool && spool[SourceName(plan.id)] == Dir(map[])
      modifies this
      ensures Valid() && W() == old(W()).(spool := spool) && old(trace) <= trace
      ensures OnlyOwnEntries(old(spool), spool, plan.id) && Tally(old(faults))
      ensures ok ==> spool == Moved(old(spool), Contents(plan.id), SourceName(plan.id))
      ensures !ok ==> faults > old(faults)
    {
      hide Reached;
      hide Moved;
      var dir := SourceName(plan.id);
      var names := Contents(plan.id);
      NamesDiffer(plan.id);
      hide Contents;
      hide SourceName;
      hide OwnNames;
      ghost var was := spool;
      NothingMoved(was, names, dir);
      for i := 0 to |names|
        invariant Valid() && W() == old(W()).(spool := spool) && old(trace) <= trace && Tally(old(faults))
        invariant OnlyOwnEntries(was, spool, plan.id)
        invariant spool == Moved(was, names[..i], dir)
      {
        MovedNext(was, names, dir, i);
        if names[i] !in spool || !spool[names[i]].File? {
          continue;
        }
        ok := External();
        if !ok {
          return false;
        }
        Touch((spool - {names[i]})[dir := Dir(spool[dir].entries[names[i] := spool[names[i]].data])]);
      }
      assert names[..|names|] == names;
      return true;
    }

    /** The PARITY stage: the par2 index, then the table of contents. */
    method ProtectPayload(plan: DiscPlan, ghost payload: Bytes) returns (ok: bool, ghost createdAt: nat)
      requires Valid() && Working(Packing) && plan == Cur(W())
      requires TarName(plan.id) in spool && spool[TarName(plan.id)] == File(payload) && Par2Name(plan.id) !in spool
      modifies this
      ensures Valid() && old(trace) <= trace && Tally(old(faults))
      ensures W() == SetJob(old(W()), old(job).value.(state := CreatingParity)).(spool := spool)
      ensures OnlyOwnEntries(old(spool), spool, plan.id)
      ensures ok ==>
                && VolumeName(plan.id) !in old(spool)
                && spool == AfterPar2(t, old(spool), plan.id, payload, job.value.options.parityPercent)
                            [TocName(plan.id) := File(t.toc(TocOf(plan, job.value.options, createdAt)))]
      ensures !ok && faults == old(faults) ==> VolumeName(plan.id) in old(spool)
    {
      hide Reached;
      hide OnlyOwnEntries;
      hide OwnNames;
      hide TarName;
      hide TocName;
      hide Par2Name;
      hide VolumeName;
      hide AfterPar2;
      hide TocOf;
      createdAt := 0;
      SetState(CreatingParity);
      ok := CreateParity(plan);
      if ok {
        ghost var indexed := spool;
        var now;
        ok, now := WriteToc(plan);
        createdAt := now;
        OwnEntriesCompose(old(spool), indexed, spool, plan.id);
      }
    }

    /** The ISO stage up to BuildISO: the files move into the source directory. */
    method FillSourceDir(plan: DiscPlan) returns (ok: bool)
      requires Valid() && Working(CreatingParity) && plan == Cur(W()) && SourceName(plan.id) !in spool
      modifies this
      ensures Valid() && old(trace) <= trace && Tally(old(faults))
      ensures W() == SetJob(old(W()), old(job).value.(state := BuildingIso)).(spool := spool)
      ensures OnlyOwnEntries(old(spool), spool, plan.id)
      ensures ok ==> spool == Moved(old(spool)[SourceName(plan.id) := Dir(map[])], Contents(plan.id),
                                    SourceName(plan.id))
      ensures !ok ==> faults > old(faults)
    {
      hide Reached;
      hide OnlyOwnEntries;
      hide OwnNames;
      hide SourceName;
      hide Contents;
      hide Moved;
      SetState(BuildingIso);
      ok := MakeSourceDir(plan);
      if ok {
        ghost var made := spool;
        ok := MovePathsInto(plan);
        OwnEntriesCompose(old(spool), made, spool, plan.id);
      }
    }

    /** The start of runDisc: leftovers are removed, then free space is checked. */
    method CleanStart(plan: DiscPlan) returns (ok: bool)
      requires Valid() && Working(Packing) && plan == Cur(W())
      modifies this
      ensures Valid() && old(trace) <= trace && Tally(old(faults))
      ensures W() == old(W()).(spool := spool) && OnlyOwnEntries(old(spool), spool, plan.id)
      ensures VolumeName(plan.id) in spool <==> VolumeName(plan.id) in old(spool)
      ensures ok ==> !env.mood.Hostile? && forall p <- StaleNames(plan.id) :: p !in spool
      ensures !ok ==> faults > old(faults)
    {
      hide Reached;
      hide OnlyOwnEntries;
      hide OwnNames;
      ok := RemoveStaleArtifacts(plan.id);
      if ok {
        ok := External();
      }
      if ok {
        SetState(Packing);
      }
    }

    /** The payload, packed in a clean spool. */
    method PackFresh(plan: DiscPlan) returns (ok: bool, ghost payload: Bytes, ghost clean: map<string, Node>)
      requires Valid() && Working(Packing) && plan == Cur(W())
      modifies this
      ensures Valid() && old(trace) <= trace && Tally(old(faults))
      ensures W() == old(W()).(spool := spool) && OnlyOwnEntries(old(spool), spool, plan.id)
      ensures ok ==>
                && (forall p <- StaleNames(plan.id) :: p !in clean)
                && (VolumeName(plan.id) in clean <==> VolumeName(plan.id) in old(spool))
                && spool == clean[TarName(plan.id) := File(payload)] && IsPayload(t, old(W()), plan, payload)
      ensures !ok && faults == old(faults) ==> plan.id in mine
      ensures env.mood.Hostile? ==> !ok
    {
      hide Reached;
      hide Inv;
      hide Lawful;
      hide OnlyOwnEntries;
      hide OwnNames;
      hide IsPayload;
      hide TarName;
      ReachedInv(t, trace, W());
      payload := [];
      ok := CleanStart(plan);
      clean := spool;
      if !ok {
        return;
      }
      ghost var w := W();
      ReachedInv(t, trace, w);
      ok, payload := BuildPayload(plan);
      OwnEntriesCompose(old(spool), clean, spool, plan.id);
      if ok {
        PayloadStays(t, old(W()), w, payload);
      }
    }

    /** From a clean start to the three files of the source directory, still in spool itself. */
    method MakeContents(plan: DiscPlan)
        returns (ok: bool, ghost payload: Bytes, ghost createdAt: nat, ghost clean: map<string, Node>)
      requires Valid() && Working(Packing) && plan == Cur(W())
      modifies this
      ensures Valid() && old(trace) <= trace && Tally(old(faults))
      ensures W() == old(W()).(spool := spool, job := job)
      ensures job.Some? && job == Some(old(job).value.(state := job.value.state)) && Running(job.value.state)
      ensures OnlyOwnEntries(old(spool), spool, plan.id)
      ensures ok ==> job.value.state == CreatingParity && IsPayload(t, old(W()), plan, payload)
      ensures ok ==> forall p <- StaleNames(plan.id) :: p !in clean
      ensures ok ==> WithContents(t, clean, spool, plan, job.value.options, payload, createdAt)
      ensures ok ==> (VolumeName(plan.id) in spool <==> t.volumes(payload, job.value.options.parityPercent).Some?)
      ensures ok ==> VolumeName(plan.id) !in old(spool)
      ensures !ok && faults == old(faults) ==> plan.id in mine || VolumeName(plan.id) in old(spool)
      ensures env.mood.Hostile? ==> !ok
    {
      hide Reached;
      hide OnlyOwnEntries;
      hide OwnNames;
      hide IsPayload;
      hide TarName;
      hide TocName;
      hide Par2Name;
      hide VolumeName;
      hide AfterPar2;
      hide WithContents;
      hide TocOf;
      NamesApart(plan.id);
      createdAt := 0;
      ok, payload, clean := PackFresh(plan);
      if ok {
        ghost var packed := spool;
        ok, createdAt := ProtectPayload(plan, payload);
        OwnEntriesCompose(old(spool), packed, spool, plan.id);
        if ok {
          VolumesAside(t, clean, spool, plan, job.value.options, payload, createdAt);
          clean := WithVolumes(t, clean, plan.id, payload, job.value.options.parityPercent);
        }
      }
    }

    /**
     * The first half of runDisc, up to BuildISO. Whatever earlier attempts left in spool, the
     * source directory ends up holding exactly what a first attempt would put there: the
     * archive or parity payload, its par2 index and the table of contents.
     */
    method PrepareSource(plan: DiscPlan) returns (ok: bool, ghost payload: Bytes, ghost createdAt: nat)
      requires Valid() && Working(Packing) && plan == Cur(W())
      modifies this
      ensures Valid() && old(trace) <= trace && Tally(old(faults))
      ensures W() == old(W()).(spool := spool, job := job)
      ensures job.Some? && job == Some(old(job).value.(state := job.value.state)) && Running(job.value.state)
      ensures OnlyOwnEntries(old(spool), spool, plan.id)
      ensures ok ==> job.value.state == BuildingIso && IsPayload(t, old(W()), plan, payload)
      ensures ok ==> Prepared(t, spool, plan, job.value.options, payload, createdAt)
      ensures ok ==> VolumeName(plan.id) !in old(spool)
      ensures !ok && faults == old(faults) ==> plan.id in mine || VolumeName(plan.id) in old(spool)
      ensures env.mood.Hostile? ==> !ok
    {
      hide Reached;
      hide OnlyOwnEntries;
      hide OwnNames;
      hide IsPayload;
      hide Moved;
      hide Contents;
      hide SourceName;
      hide WithContents;
      hide Prepared;
      ghost var clean;
      ok, payload, createdAt, clean := MakeContents(plan);
      if !ok {
        return;
      }
      ghost var made := spool;
      NoSourceDirYet(t, clean, spool, plan, job.value.options, payload, createdAt);
      ok := FillSourceDir(plan);
      OwnEntriesCompose(old(spool), made, spool, plan.id);
      if ok {
        PreparedBy(t, clean, made, plan, job.value.options, payload, createdAt);
      }
    }

    // ---- The image and the medium ----------------------------------------------------------------

    /** xorriso, then the hash of what it made. */
    method BuildIso(plan: DiscPlan, ghost payload: Bytes, ghost createdAt: nat) returns (ok: bool, isoHash: Hash)
      requires Valid() && Working(BuildingIso) && plan == Cur(W())
      requires Prepared(t, spool, plan, job.value.options, payload, createdAt)
      modifies this
      ensures Valid() && old(trace) <= trace && Tally(old(faults))
      ensures W() == old(W()).(spool := spool) && OnlyOwnEntries(old(spool), spool, plan.id)
      ensures ok ==>
                && IsoName(plan.id) in spool && spool[IsoName(plan.id)].File?
                && Built(t, spool[IsoName(plan.id)].data, plan, job.value.options, payload)
                && isoHash == t.hash(spool[IsoName(plan.id)].data)
                && (VolumeName(plan.id) in spool <==> t.volumes(payload, job.value.options.parityPercent).Some?)
      ensures !ok ==> faults > old(faults)
    {
      hide Reached;
      hide IsoName;
      hide SourceName;
      hide SourceDir;
      hide OwnNames;
      NamesApart(plan.id);
      isoHash := "";
      var moment: nat := *;
      var iso := t.image(spool[SourceName(plan.id)].entries, moment);
      BuiltNow(t, plan, job.value.options, payload, createdAt, moment);
      hide Built;
      ok := WriteFile(IsoName(plan.id), iso);
      if ok {
        ok := External();
        isoHash := t.hash(iso);
      }
    }

    /** Whatever is written for the current disc. */
    method WriteMedium(data: Bytes)
      requires Valid() && AtWork(W()) && commit == Off && AllStaged(Cur(W()).bucket.files, staging)
      requires HasRoom(job.value.options, data)
      modifies this
      ensures Valid() && W() == Written(old(W()), data) && device == data && job == old(job)
      ensures trace == old(trace) + [W()] && faults == old(faults)
    {
      hide Act;
      hide Reached;
      hide AllStaged;
      hide HasRoom;
      ghost var now := Written(W(), data);
      device, media, mounted, overwritten := data, now.media, now.mounted, now.overwritten;
      MayWrite(t, old(W()), data, W());
      Record(old(W()), Action.WriteMedium(data));
    }

    /** copyFile: exact when it reports success; a failure may come before the file is opened, or after. */
    method CopyImage(plan: DiscPlan, iso: Bytes) returns (ok: bool)
      requires Valid() && AtWork(W()) && commit == Off && plan == Cur(W()) && AllStaged(plan.bucket.files, staging)
      requires !Optical(job.value.options)
      modifies this
      ensures Valid() && old(trace) <= trace && Tally(old(faults)) && job == old(job)
      ensures W() == old(W()) || W() == Written(old(W()), device)
      ensures ok ==> W() == Written(old(W()), device) && device == iso
      ensures !ok ==> faults > old(faults)
    {
      hide Reached;
      hide AllStaged;
      hide Written;
      ok := External();
      var written := iso;
      if !ok {
        if * {
          return;
        }
        written := *;
      }
      WriteMedium(written);
    }

    /**
     * wodim may report success and still have written something else. With room for the
     * image on the medium that counts as a fault; without, it cannot be otherwise.
     */
    method BurnIso(plan: DiscPlan, iso: Bytes) returns (ok: bool)
      requires Valid() && AtWork(W()) && commit == Off && plan == Cur(W()) && AllStaged(plan.bucket.files, staging)
      requires Optical(job.value.options)
      modifies this
      ensures Valid() && old(trace) <= trace && Tally(old(faults))
      ensures W() == Written(old(W()), device) && job == old(job) && HasRoom(job.value.options, device)
      ensures (!ok || device != iso) && HasRoom(job.value.options, iso) ==> faults > old(faults)
    {
      hide Reached;
      hide AllStaged;
      hide Written;
      ok := External();
      var written: Bytes := *;
      if |iso| <= job.value.options.capacity && env.mood.Kind? {
        written := iso;
      }
      if |written| > job.value.options.capacity {
        written := written[..job.value.options.capacity];
      }
      WriteMedium(written);
      if |iso| <= job.value.options.capacity && written != iso {
        faults := faults + 1;
      }
    }

    /** internal/burn/verify.go: what was written is read back and must hash like the image. */
    method VerifyBurn(isoHash: Hash) returns (ok: bool)
      requires Valid()
      modifies this`faults
      ensures Valid() && Tally(old(faults))
      ensures ok ==> t.hash(device) == isoHash
      ensures !ok && faults == old(faults) ==> t.hash(device) != isoHash
    {
      hide Reached;
      ok := External();
      if !ok {
        return false;
      }
      var readBack := t.hash(device);
      if readBack != isoHash {
        return false;
      }
      ok := External();
    }

    /** A real write, to a file system or an optical medium. */
    method WriteReal(plan: DiscPlan, iso: Bytes) returns (ok: bool)
      requires Valid() && AtWork(W()) && commit == Off && plan == Cur(W()) && AllStaged(plan.bucket.files, staging)
      requires !job.value.options.dryRun
      modifies this
      ensures Valid() && old(trace) <= trace && Tally(old(faults)) && job == old(job)
      ensures old(overwritten) <= overwritten <= old(overwritten) + Truncated(old(W()))
      ensures W() == old(W()).(media := media, mounted := mounted, overwritten := overwritten)
      ensures ok ==> W() == Written(old(W()), device) && HasRoom(job.value.options, device)
      ensures (!ok || device != iso) && HasRoom(job.value.options, iso) ==> faults > old(faults)
    {
      hide Reached;
      hide AllStaged;
      if job.value.options.filesystem {
        ok := CopyImage(plan, iso);
      } else {
        ok := BurnIso(plan, iso);
      }
    }

    /** A real write, read back afterwards. */
    method WriteAndVerify(plan: DiscPlan, iso: Bytes, isoHash: Hash) returns (ok: bool)
      requires Valid() && Working(Burning) && plan == Cur(W()) && AllStaged(plan.bucket.files, staging)
      requires isoHash == t.hash(iso) && !job.value.options.dryRun
      modifies this
      ensures Valid() && old(trace) <= trace && Tally(old(faults))
      ensures old(overwritten) <= overwritten <= old(overwritten) + Truncated(old(W()))
      ensures job.Some? && job == Some(old(job).value.(state := job.value.state)) && Running(job.value.state)
      ensures W() == old(W()).(job := job, media := media, mounted := mounted, overwritten := overwritten)
      ensures ok ==>
                && W() == Written(old(W()), iso).(job := job) && HasRoom(job.value.options, iso)
                && job.value.state == Verifying
      ensures !ok && HasRoom(job.value.options, iso) ==> faults > old(faults)
    {
      hide Reached;
      hide AllStaged;
      hide Written;
      ok := WriteReal(plan, iso);
      if !ok {
        return;
      }
      SetState(Verifying);
      ok := VerifyBurn(isoHash);
      if ok {
        SameHash(t, trace, W(), device, iso);
      }
      if ok && job.value.options.filesystem {
        ok := External();
      }
    }

    /** The BURNING and VERIFYING stages: a success means that the image was written, and fits. */
    method BurnAndVerify(plan: DiscPlan, iso: Bytes, isoHash: Hash) returns (ok: bool)
      requires Valid() && Working(BuildingIso) && plan == Cur(W()) && AllStaged(plan.bucket.files, staging)
      requires isoHash == t.hash(iso)
      modifies this
      ensures Valid() && old(trace) <= trace && Tally(old(faults))
      ensures old(overwritten) <= overwritten <= old(overwritten) + Truncated(old(W()))
      ensures job.Some? && job == Some(old(job).value.(state := job.value.state)) && Running(job.value.state)
      ensures W() == old(W()).(job := job, media := media, mounted := mounted, overwritten := overwritten)
      ensures ok ==>
                && W() == Written(old(W()), iso).(job := job) && HasRoom(job.value.options, iso)
                && job.value.state == CommitState(job.value.options)
      ensures !ok && HasRoom(job.value.options, iso) ==> faults > old(faults)
    {
      hide Reached;
      hide AllStaged;
      SetState(Burning);
      if job.value.options.dryRun {
        ok := External();
        if ok {
          ok := CopyImage(plan, iso);
        }
      } else {
        ok := WriteAndVerify(plan, iso, isoHash);
      }
    }

    // ---- The catalog --------------------------------------------------------------------------------

    /**
     * InsertDisk: the primary key refuses an ID that is already there. A call that reports an
     * error may still have taken effect.
     */
    method InsertDisk(plan: DiscPlan, row: DiskRow, ghost payload: Bytes) returns (ok: bool)
      requires Valid() && AtWork(W()) && commit == Off && plan == Cur(W())
      requires plan.id !in disks ==>
                 Committable(t, W(), payload) && row == RowOf(job.value.options, plan, t.hash(media[plan.id]))
      modifies this
      ensures Valid() && old(trace) <= trace && Tally(old(faults))
      ensures ok ==> plan.id !in old(disks) && plan.id in old(media) && W() == WithRow(t, old(W()))
      ensures !ok && W() != old(W()) ==>
                plan.id !in old(disks) && plan.id in old(media) && W() == WithRow(t, old(W()))
      ensures !ok && faults == old(faults) ==> plan.id in disks && W() == old(W())
    {
      hide Act;
      hide Reached;
      hide IsPayload;
      hide Built;
      hide RowOf;
      ok := External();
      if plan.id in disks {
        return false;
      }
      var applied := ok;
      if !ok {
        applied := *;
      }
      if applied {
        AddDisk(plan, row, payload);
      }
    }

    method AddDisk(plan: DiscPlan, row: DiskRow, ghost payload: Bytes)
      requires Valid() && AtWork(W()) && commit == Off && plan == Cur(W()) && plan.id !in disks
      requires Committable(t, W(), payload) && row == RowOf(job.value.options, plan, t.hash(media[plan.id]))
      modifies this
      ensures Valid() && old(trace) <= trace && faults == old(faults)
      ensures plan.id in old(media) && W() == WithRow(t, old(W()))
    {
      hide Act;
      hide Reached;
      hide RowOf;
      hide Committable;
      InMedia(t, W(), payload);
      ghost var next := WithRow(t, W());
      MayInsertDisk(t, W(), payload, next);
      disks, mine, commit := disks[plan.id := row], next.mine, next.commit;
      Record(old(W()), Action.InsertDisk(payload));
    }

    /**
     * ConsumeStagedMetadata: read and delete in one statement; no metadata is not an error.
     * A call that reports an error may still have deleted it.
     */
    method ConsumeStagedMetadata(path: string, ghost k: nat) returns (ok: bool, held: Option<Meta>)
      requires Valid() && AtWork(W()) && commit == At(k)
      requires k < |Cur(W()).bucket.files| && path == Cur(W()).bucket.files[k].path
      modifies this
      ensures Valid() && old(trace) <= trace && Tally(old(faults))
      ensures ok ==> held == (if path in old(metadata) then Some(old(metadata)[path]) else None)
      ensures var taken := old(W()).(metadata := old(metadata) - {path},
                             commit := Consumed(k, if path in old(metadata) then Some(old(metadata)[path]) else None));
              if ok then W() == taken else faults > old(faults) && (W() == old(W()) || W() == taken)
    {
      hide Act;
      hide Reached;
      held := None;
      ok := External();
      var applied := ok;
      if !ok {
        applied := *;
      }
      if applied {
        held := TakeMetadata(path, k);
      }
    }

    method TakeMetadata(path: string, ghost k: nat) returns (held: Option<Meta>)
      requires Valid() && AtWork(W()) && commit == At(k)
      requires k < |Cur(W()).bucket.files| && path == Cur(W()).bucket.files[k].path
      modifies this
      ensures Valid() && old(trace) <= trace && faults == old(faults)
      ensures held == (if path in old(metadata) then Some(old(metadata)[path]) else None)
      ensures W() == old(W()).(metadata := old(metadata) - {path}, commit := Consumed(k, held))
    {
      hide Act;
      hide Reached;
      held := if path in metadata then Some(metadata[path]) else None;
      ghost var next := W().(metadata := metadata - {path}, commit := Consumed(k, held));
      MayConsume(t, W(), k, next);
      metadata, commit := metadata - {path}, next.commit;
      Record(old(W()), Consume);
    }

    /** InsertFile; a call that reports an error may still have taken effect. */
    method InsertFile(row: FileRow, ghost k: nat) returns (ok: bool)
      requires Valid() && AtWork(W()) && commit.Consumed? && commit.k == k
      requires k < |Cur(W()).bucket.files| && Cur(W()).bucket.files[k].path in staging
      requires var f := Cur(W()).bucket.files[k];
               row == FileRow(Cur(W()).id, f.path, f.size, t.hash(staging[f.path]),
                              if commit.held.Some? then commit.held.value else Meta([], ""))
      modifies this
      ensures Valid() && old(trace) <= trace && Tally(old(faults))
      ensures var inserted := old(W()).(files := old(files) + [row], commit := Inserted(k));
              if ok then W() == inserted else faults > old(faults) && (W() == old(W()) || W() == inserted)
    {
      hide Act;
      hide Reached;
      ok := External();
      var applied := ok;
      if !ok {
        applied := *;
      }
      if applied {
        AddFile(row, k);
      }
    }

    method AddFile(row: FileRow, ghost k: nat)
      requires Valid() && AtWork(W()) && commit.Consumed? && commit.k == k
      requires k < |Cur(W()).bucket.files| && Cur(W()).bucket.files[k].path in staging
      requires var f := Cur(W()).bucket.files[k];
               row == FileRow(Cur(W()).id, f.path, f.size, t.hash(staging[f.path]),
                              if commit.held.Some? then commit.held.value else Meta([], ""))
      modifies this
      ensures Valid() && old(trace) <= trace && faults == old(faults)
      ensures W() == old(W()).(files := old(files) + [row], commit := Inserted(k))
    {
      hide Act;
      hide Reached;
      ghost var next := W().(files := files + [row], commit := Inserted(k));
      MayInsertFile(t, W(), k, next);
      files, commit := files + [row], next.commit;
      Record(old(W()), Action.InsertFile);
    }

    /** os.Remove of an archived file. */
    method RemoveArchived(path: string, ghost k: nat) returns (ok: bool)
      requires Valid() && AtWork(W()) && commit == Inserted(k)
      requires k < |Cur(W()).bucket.files| && path == Cur(W()).bucket.files[k].path
      modifies this
      ensures Valid() && old(trace) <= trace && Tally(old(faults))
      ensures ok ==> W() == old(W()).(staging := old(staging) - {path}, commit := At(k + 1))
      ensures !ok ==> W() == old(W()) && faults > old(faults)
    {
      hide Act;
      hide Reached;
      ok := External();
      if ok {
        ghost var w := W();
        staging := staging - {path};
        commit := At(k + 1);
        MayRemoveStaged(t, w, k, W());
        Record(w, RemoveStaged);
      }
    }

    /** The loop body of commitDisc: hash, take the metadata, insert the row, remove the file. */
    method CommitFile(plan: DiscPlan, k: nat) returns (ok: bool)
      requires Valid() && AtWork(W()) && commit == At(k) && plan == Cur(W())
      requires k < |plan.bucket.files| && plan.bucket.files[k].path in staging
      modifies this
      ensures Valid() && old(trace) <= trace && Tally(old(faults))
      ensures var f := plan.bucket.files[k];
              var row := RowOfFile(t, plan.id, f, old(staging), old(metadata));
              && (ok ==> W() == old(W()).(files := old(files) + [row], metadata := old(metadata) - {f.path},
                                          staging := old(staging) - {f.path}, commit := At(k + 1)))
              && (!ok ==>
                    && faults > old(faults) && commit != Off && commit != Cleaning
                    && W() == old(W()).(files := files, metadata := metadata, commit := commit)
                    && (files == old(files) || files == old(files) + [row])
                    && (metadata == old(metadata) || metadata == old(metadata) - {f.path}))
    {
      hide Reached;
      var f := plan.bucket.files[k];
      ok := External();
      if !ok {
        return;
      }
      var hash := t.hash(staging[f.path]);
      var held;
      ok, held := ConsumeStagedMetadata(f.path, k);
      if !ok {
        return;
      }
      ok := InsertFile(FileRow(plan.id, f.path, f.size, hash, if held.Some? then held.value else Meta([], "")), k);
      if !ok {
        return;
      }
      ok := RemoveArchived(f.path, k);
    }

    /**
     * On success the disc and all its files are in the catalog, each file with its hash and
     * its metadata, and they are gone from staging. A failure stops where it happens; it
     * needs a fault, or an ID that is already taken.
     */
    method CommitDisc(plan: DiscPlan, isoHash: Hash, ghost payload: Bytes) returns (ok: bool)
      requires Valid() && AtWork(W()) && commit == Off && plan == Cur(W()) && AllStaged(plan.bucket.files, staging)
      requires plan.id !in disks ==> Committable(t, W(), payload) && isoHash == t.hash(media[plan.id])
      modifies this
      ensures Valid() && old(trace) <= trace && Tally(old(faults))
      ensures ok ==>
                && plan.id !in old(disks) && plan.id in old(media)
                && W() == CommittedTo(t, WithRow(t, old(W())), plan, |plan.bucket.files|)
      ensures ok ==> CommitDone(t, old(W()), W(), plan)
      ensures !ok && faults == old(faults) ==> plan.id in old(disks)
      ensures !ok && W() != old(W()) ==>
                && plan.id !in old(disks) && plan.id in old(media) && commit != Off && commit != Cleaning
                && W() == WithRow(t, old(W())).(files := files, metadata := metadata, staging := staging,
                                                commit := commit)
                && old(files) <= files <= old(files) + RowsFor(t, plan, old(staging), old(metadata))
    {
      hide Reached;
      hide Committable;
      hide RowsFor;
      hide CommittedTo;
      hide CommitDone;
      var opts := job.value.options;
      var groupID, slotIndex := None, None;
      if plan.group != "" {
        groupID, slotIndex := Some(plan.group), Some(plan.slot);
      }
      var row := DiskRow(opts.mediaType, opts.parityPercent, groupID, plan.role, slotIndex, isoHash, opts.dryRun);
      assert row == RowOf(opts, plan, isoHash);
      hide RowOf;
      ok := InsertDisk(plan, row, payload);
      if !ok {
        NoRowsYetWanted(t, old(W()), plan);
        return;
      }
      ok := CommitFiles(plan);
      if ok {
        CommittedSays(t, old(W()), plan);
      }
    }

    /** The loop of commitDisc, over the files of the plan. */
    method CommitFiles(plan: DiscPlan) returns (ok: bool)
      requires Valid() && AtWork(W()) && commit == At(0) && plan == Cur(W()) && AllStaged(plan.bucket.files, staging)
      modifies this
      ensures Valid() && old(trace) <= trace && Tally(old(faults))
      ensures ok ==> W() == CommittedTo(t, old(W()), plan, |plan.bucket.files|)
      ensures !ok ==>
                && faults > old(faults) && commit != Off && commit != Cleaning
                && W() == old(W()).(files := files, metadata := metadata, staging := staging, commit := commit)
                && old(files) <= files <= old(files) + RowsFor(t, plan, old(staging), old(metadata))
    {
      hide Reached;
      hide RowsFor;
      hide PathsOf;
      hide Inv;
      hide Lawful;
      ReachedInv(t, trace, W());
      FilesDiffer(t, W());
      ghost var w := W();
      NothingCommitted(t, w, plan);
      for k := 0 to |plan.bucket.files|
        invariant Valid() && old(trace) <= trace && Tally(old(faults))
        invariant W() == CommittedTo(t, w, plan, k)
      {
        CommittedNext(t, w, plan, k);
        ok := CommitFile(plan, k);
        if !ok {
          RowsSoFar(t, w, plan, k, files);
          return;
        }
      }
      return true;
    }

    // ---- Cleanup --------------------------------------------------------------------------------------

    /** One os.Remove of a group's data image; a failure is only logged. */
    method CleanUpIso(id: DiskId)
      requires Valid() && AtWork(W()) && Cur(W()).role == Parity && commit == Cleaning
      requires id in GroupData(job.value.plans, Cur(W()).group)
      modifies this
      ensures Valid() && old(trace) <= trace && Tally(old(faults))
      ensures W() == old(W()).(spool := spool, strays := strays)
      ensures spool == old(spool) || spool == old(spool) - {IsoName(id)}
      ensures old(strays) ==> strays
      ensures strays || IsoName(id) !in spool
      ensures strays && !old(strays) ==> faults > old(faults)
    {
      hide Act;
      hide Reached;
      hide IsoName;
      hide GroupData;
      var ok := External();
      ghost var w := W();
      if ok {
        spool := spool - {IsoName(id)};
        MayRemoveIso(t, w, id, W());
        Record(w, Action.RemoveIso(id));
      } else {
        strays := true;
        MayLeaveIso(t, w, W());
        Record(w, LeaveIso);
      }
    }

    /** A parity disc's commit is through. */
    ghost method EnterCleanup()
      requires Valid() && AtWork(W()) && Cur(W()).role == Parity && commit == At(0)
      modifies this`commit, this`trace
      ensures Valid() && W() == old(W()).(commit := Cleaning) && trace == old(trace) + [W()]
    {
      hide Act;
      hide Reached;
      commit := Cleaning;
      MayBeginCleanup(t, old(W()), W());
      Record(old(W()), BeginCleanup);
    }

    /** Once a group's parity disc is recorded, the images of its data discs leave spool. */
    method CleanupGroupDataISOs(plan: DiscPlan)
      requires Valid() && AtWork(W()) && plan == Cur(W()) && plan.role == Parity && commit == At(0)
      modifies this
      ensures Valid() && old(trace) <= trace && Tally(old(faults))
      ensures W() == old(W()).(spool := spool, strays := strays, commit := Cleaning) && CleanedUp(W())
      ensures OnlyGroupIsos(old(spool), spool, old(job).value.plans, plan.group)
      ensures strays && !old(strays) ==> faults > old(faults)
    {
      hide Reached;
      hide IsoName;
      EnterCleanup();
      var plans := job.value.plans;
      for i := 0 to |plans|
        invariant Valid() && old(trace) <= trace && Tally(old(faults))
        invariant W() == old(W()).(spool := spool, strays := strays, commit := Cleaning)
        invariant OnlyGroupIsos(old(spool), spool, plans, plan.group)
        invariant strays && !old(strays) ==> faults > old(faults)
        invariant strays || forall j :: 0 <= j < i && plans[j].role == Data && plans[j].group == plan.group ==>
                                          IsoName(plans[j].id) !in spool
      {
        var p := plans[i];
        if p.group != plan.group || p.role != Data {
          continue;
        }
        GroupDataIn(plans, plan.group, p.id);
        CleanUpIso(p.id);
      }
      forall k | 0 <= k < |GroupData(plans, plan.group)|
        ensures strays || IsoName(GroupData(plans, plan.group)[k]) !in spool
      {
        GroupDataIn(plans, plan.group, GroupData(plans, plan.group)[k]);
      }
    }

    // ---- runDisc ----------------------------------------------------------------------------------------

    /** Packing to verification: a success leaves a disc that may be recorded, if its ID is free. */
    method MakeDisc(plan: DiscPlan) returns (ok: bool, isoHash: Hash, ghost payload: Bytes, ghost image: Bytes)
      requires Valid() && Working(Packing) && plan == Cur(W())
      modifies this
      ensures Valid() && old(trace) <= trace && Tally(old(faults))
      ensures old(overwritten) <= overwritten <= old(overwritten) + Truncated(old(W()))
      ensures W() == old(W()).(spool := spool, job := job, media := media, mounted := mounted,
                               overwritten := overwritten)
      ensures job.Some? && job == Some(old(job).value.(state := job.value.state)) && Running(job.value.state)
      ensures OnlyOwnEntries(old(spool), spool, plan.id)
      ensures ok ==>
                && W() == Written(old(W()), image).(spool := spool, job := job)
                && isoHash == t.hash(image) && AllStaged(plan.bucket.files, staging)
                && IsPayload(t, old(W()), plan, payload) && Built(t, image, plan, job.value.options, payload)
                && HasRoom(job.value.options, image)
                && (VolumeName(plan.id) in spool <==> t.volumes(payload, job.value.options.parityPercent).Some?)
                && (plan.id !in disks ==> Committable(t, W(), payload))
      ensures ok ==> VolumeName(plan.id) !in old(spool)
      ensures !ok && faults == old(faults) ==>
                plan.id in mine || OverSize(t, old(W())) || VolumeName(plan.id) in old(spool)
      ensures env.mood.Hostile? ==> !ok && W() == old(W()).(spool := spool, job := job)
    {
      hide Reached;
      hide Inv;
      hide Lawful;
      hide OnlyOwnEntries;
      hide OwnNames;
      hide IsoName;
      hide IsPayload;
      hide Built;
      hide Prepared;
      hide AllStaged;
      hide Truncated;
      hide Written;
      hide VolumeName;
      hide HasRoom;
      hide OverSize;
      isoHash, image := "", [];
      ghost var createdAt;
      ok, payload, createdAt := PrepareSource(plan);
      if !ok {
        return;
      }
      ReachedInv(t, old(trace), old(W()));
      PayloadMeansStaged(t, old(W()), payload);
      ghost var prepared := spool;
      ok, isoHash := BuildIso(plan, payload, createdAt);
      OwnEntriesCompose(old(spool), prepared, spool, plan.id);
      if !ok {
        return;
      }
      var iso := spool[IsoName(plan.id)].data;
      image := iso;
      FitsOrNot(t, old(W()), payload, image);
      SameWritten(old(W()), W(), image);
      ok := BurnAndVerify(plan, iso, isoHash);
      if ok {
        ReachedInv(t, trace, W());
        PayloadStays(t, old(W()), W(), payload);
        if plan.id !in disks {
          FreeIsWritten(old(W()), W(), image);
        }
      }
    }

    /** The second half of runDisc: the commit and, after a parity disc, the cleanup. */
    method RecordDisc(plan: DiscPlan, isoHash: Hash, ghost payload: Bytes) returns (ok: bool, ghost committed: World)
      requires Valid() && AtWork(W()) && commit == Off && plan == Cur(W()) && AllStaged(plan.bucket.files, staging)
      requires plan.id !in disks ==> Committable(t, W(), payload) && isoHash == t.hash(media[plan.id])
      modifies this
      ensures Valid() && old(trace) <= trace && Tally(old(faults)) && jobs == old(jobs) && job == old(job)
      ensures overwritten == old(overwritten)
      ensures ok ==>
                && plan.id !in old(disks) && plan.id in old(media)
                && committed == CommittedTo(t, WithRow(t, old(W())), plan, |plan.bucket.files|)
                && W() == committed.(spool := spool, strays := strays, commit := commit)
                && (if plan.role == Parity then OnlyGroupIsos(old(spool), spool, old(job).value.plans, plan.group)
                    else spool == old(spool))
                && Completed(W())
      ensures !ok ==> commit != Cleaning && old(files) <= files && media == old(media) && spool == old(spool)
      ensures !ok && faults == old(faults) ==> plan.id in old(disks)
    {
      hide Reached;
      hide Committable;
      hide GroupData;
      hide RowsFor;
      hide CommittedTo;
      hide WithRow;
      hide OnlyGroupIsos;
      hide Inv;
      hide Lawful;
      ReachedInv(t, trace, W());
      FilesDiffer(t, W());
      ok := CommitDisc(plan, isoHash, payload);
      committed := W();
      if !ok {
        if W() != old(W()) {
          InsertKeepsJobAndFiles(t, old(W()));
        }
        return;
      }
      CommittedKeeps(t, old(W()), plan);
      if plan.role == Parity {
        CleanupGroupDataISOs(plan);
      }
    }

    /** Records the disc that was made from `was`, and says what the attempt came to. */
    method RecordAttempt(plan: DiscPlan, isoHash: Hash, ghost payload: Bytes, ghost image: Bytes, ghost was: World)
        returns (ok: bool)
      requires Valid() && AtWork(W()) && commit == Off && plan == Cur(W()) && AllStaged(plan.bucket.files, staging)
      requires HasCur(was) && plan == Cur(was) && job == Some(was.job.value.(state := job.value.state))
      requires W() == was.(spool := spool, job := job, media := media, mounted := mounted, overwritten := overwritten)
      requires W() == Written(was, image).(spool := spool, job := job) && OnlyOwnEntries(was.spool, spool, plan.id)
      requires IsPayload(t, was, plan, payload) && Built(t, image, plan, job.value.options, payload)
      requires HasRoom(job.value.options, image) && VolumeName(plan.id) !in was.spool
      requires VolumeName(plan.id) in spool <==> t.volumes(payload, job.value.options.parityPercent).Some?
      requires isoHash == t.hash(image) && (plan.id !in disks ==> Committable(t, W(), payload))
      modifies this
      ensures Valid() && old(trace) <= trace && Tally(old(faults)) && jobs == old(jobs) && job == old(job)
      ensures overwritten == old(overwritten)
      ensures ok ==> DiscBurned(t, was, W()) && Completed(W())
      ensures !ok ==> commit != Cleaning && old(files) <= files && spool == old(spool) && AttemptWritten(t, was, W())
      ensures !ok && faults == old(faults) ==> plan.id in old(disks)
    {
      hide Reached;
      hide OnlyOwnEntries;
      hide IsPayload;
      hide Built;
      hide Committable;
      hide CommittedTo;
      hide WithRow;
      hide OnlyGroupIsos;
      hide DiscBurned;
      hide AllStaged;
      hide Written;
      hide Completed;
      hide HasRoom;
      hide AttemptWritten;
      hide VolumeName;
      ghost var made := W();
      if plan.id !in disks {
        FreeIsWritten(was, made, image);
      }
      ghost var committed;
      ok, committed := RecordDisc(plan, isoHash, payload);
      if ok {
        BurnedBy(t, was, made, committed, W(), payload);
      } else {
        Attempted(t, was, W(), payload, image);
      }
    }

    method RunDisc(plan: DiscPlan) returns (ok: bool)
      requires Valid() && Working(Packing) && plan == Cur(W())
      modifies this
      ensures Valid() && old(trace) <= trace && Tally(old(faults)) && jobs == old(jobs)
      ensures old(overwritten) <= overwritten <= old(overwritten) + Truncated(old(W()))
      ensures job.Some? && job == Some(old(job).value.(state := job.value.state)) && Running(job.value.state)
      ensures ok ==> DiscBurned(t, old(W()), W()) && Completed(W())
      ensures !ok ==> commit != Cleaning && old(files) <= files && OnlyOwnEntries(old(spool), spool, plan.id)
      ensures !ok && faults == old(faults) && !OverSize(t, old(W())) && VolumeName(plan.id) !in old(spool) ==>
                plan.id in old(disks) && (plan.id !in old(mine) ==> AttemptWritten(t, old(W()), W()))
      ensures env.mood.Hostile? ==> !ok && W() == old(W()).(spool := spool, job := job)
    {
      hide Reached;
      hide Inv;
      hide Lawful;
      hide OnlyOwnEntries;
      hide IsPayload;
      hide Built;
      hide Committable;
      hide DiscBurned;
      hide OverSize;
      hide AllStaged;
      hide Completed;
      hide HasRoom;
      hide AttemptWritten;
      hide Truncated;
      hide VolumeName;
      ReachedInv(t, trace, W());
      MineCatalogued(t, W());
      var isoHash;
      ghost var payload, image;
      ok, isoHash, payload, image := MakeDisc(plan);
      if ok {
        ok := RecordAttempt(plan, isoHash, payload, image, old(W()));
      }
    }

    // ---- The manager's methods ------------------------------------------------------------------------

    /**
     * A snapshot of the job, as the status view shows it: its disc index is in range, clamped
     * when the job is past its last disc, which is so exactly when it is DONE; it carries an
     * error exactly when it is FAILED.
     */
    method Current() returns (snapshot: Option<Job>)
      requires Valid()
      ensures snapshot == job
      ensures snapshot.Some? ==>
                var s := snapshot.value;
                && 0 <= ViewIndex(s) < |s.plans|
                && (s.state == Done <==> s.index == |s.plans|)
                && (s.state == Failed <==> s.hasErr)
                && (s.state != Done ==> HasCur(W()) && s.plans[ViewIndex(s)] == Cur(W()))
                && ViewIndex(s) == (if s.state == Done then |s.plans| - 1 else s.index)
    {
      hide Reached;
      hide Inv;
      hide Lawful;
      ReachedInv(t, trace, W());
      if job.Some? {
        StatusIndexInRange(t, W());
      }
      return job;
    }

    /** The claim: the state moves in the same critical section as the check. */
    method ClaimJob()
      requires Valid() && job.Some? && job.value.state == AwaitingDisc
      modifies this
      ensures Valid() && W() == SetJob(old(W()), old(job).value.(state := Packing)) && trace == old(trace) + [W()]
      ensures faults == old(faults)
    {
      hide Reached;
      hide Act;
      job := Some(job.value.(state := Packing));
      MayClaim(t, old(W()), W());
      Record(old(W()), Claim);
    }

    method MarkFailed()
      requires Valid() && AtWork(W()) && commit != Cleaning
      modifies this
      ensures Valid() && trace == old(trace) + [W()] && faults == old(faults)
      ensures W() == old(W()).(job := Some(old(job).value.(state := Failed, hasErr := true)), commit := Off,
                               lost := old(lost) + Dropped(old(W())))
    {
      hide Reached;
      hide Act;
      lost := lost + Dropped(W());
      job := Some(job.value.(state := Failed, hasErr := true));
      commit := Off;
      MayFail(t, old(W()), W());
      Record(old(W()), Fail);
    }

    method FinishDisc()
      requires Valid() && AtWork(W()) && Completed(W())
      modifies this
      ensures Valid() && trace == old(trace) + [W()] && faults == old(faults)
      ensures job == Some(old(job).value.(index := old(job).value.index + 1,
                                          state := if old(job).value.index + 1 >= |old(job).value.plans| then Done
                                                   else AwaitingDisc))
      ensures sealed == old(sealed) + {Cur(old(W())).id}
      ensures W() == old(W()).(job := job, commit := Off, sealed := sealed)
    {
      hide Reached;
      hide Act;
      hide Completed;
      sealed := sealed + {Cur(W()).id};
      var next := job.value.index + 1;
      job := Some(job.value.(index := next, state := if next >= |job.value.plans| then Done else AwaitingDisc));
      commit := Off;
      MayAdvance(t, old(W()), W());
      Record(old(W()), Advance);
    }

    ghost predicate Awaiting()
      reads this
    {
      job.Some? && job.value.state == AwaitingDisc
    }

    /**
     * Burns the current disc, if one is awaited. The caller is to have inserted a blank: the
     * disc whose image is still at the target path, if there is one, is overwritten. The call
     * either finishes the disc and moves on, or marks the job FAILED. Without a fault it
     * finishes the disc, unless its ID is taken, its image is too large, or an earlier attempt
     * left par2 volumes; a disc whose ID is taken by another is written all the same.
     */
    method ContinueNextDisc() returns (ok: bool)
      requires Valid()
      modifies this
      ensures Valid() && old(trace) <= trace && Tally(old(faults)) && jobs == old(jobs)
      ensures old(Awaiting()) ==>
                HasCur(old(W())) && old(overwritten) <= overwritten <= old(overwritten) + Truncated(old(W()))
      ensures old(!Awaiting()) ==> !ok && W() == old(W()) && trace == old(trace)
      ensures old(Awaiting()) ==> job.Some? && HasCur(old(W()))
      ensures ok ==>
                var was := old(job).value;
                && DiscBurned(t, old(W()), W()) && Cur(old(W())).id !in old(disks)
                && job == Some(was.(index := was.index + 1,
                                    state := if was.index + 1 >= |was.plans| then Done else AwaitingDisc))
      ensures old(Awaiting()) && !ok ==>
                && job == Some(old(job).value.(state := Failed, hasErr := true)) && old(files) <= files
                && OnlyOwnEntries(old(spool), spool, Cur(old(W())).id)
                && (faults == old(faults) && !OverSize(t, old(W())) && VolumeName(Cur(old(W())).id) !in old(spool) ==>
                      && Cur(old(W())).id in old(disks)
                      && (Cur(old(W())).id !in old(mine) ==> AttemptWritten(t, old(W()), W())))
      ensures env.mood.Hostile? ==> !ok && W() == old(W()).(spool := spool, job := job)
    {
      hide Reached;
      hide Inv;
      hide Lawful;
      hide DiscBurned;
      hide Completed;
      hide Dropped;
      hide OverSize;
      hide IsAttempt;
      hide Written;
      hide OnlyOwnEntries;
      if job.None? || job.value.state != AwaitingDisc {
        return false;
      }
      ReachedInv(t, trace, W());
      AwaitingHasCur(t, W());
      var plan := job.value.plans[job.value.index];
      ClaimJob();
      ghost var claimed := W();
      ok := RunDisc(plan);
      ghost var done := W();
      SameAttempts(t, old(W()), claimed, done);
      if ok {
        FinishDisc();
        SameDiscBurned(t, old(W()), claimed, done, W());
      } else {
        DropsOnlyInCommit(W());
        MarkFailed();
      }
    }

    /** The process ends and starts again: the job, which is only in memory, is forgotten. */
    method Restart()
      requires Valid()
      modifies this
      ensures Valid() && trace == old(trace) + [W()] && faults == old(faults)
      ensures W() == old(W()).(job := None, mine := {}, commit := Off, strays := false,
                               lost := old(lost) + Dropped(old(W())))
    {
      hide Reached;
      hide Act;
      hide Dropped;
      ghost var next := W().(job := None, mine := {}, commit := Off, strays := false, lost := lost + Dropped(W()));
      MayRestart(t, W(), next);
      job, mine, commit, strays, lost := None, next.mine, next.commit, next.strays, next.lost;
      Record(old(W()), Action.Restart);
    }

    method Retry() returns (ok: bool)
      requires Valid()
      modifies this
      ensures Valid() && old(trace) <= trace && faults == old(faults)
      ensures ok <==> old(job.Some? && job.value.state == Failed)
      ensures W() == if ok then SetJob(old(W()), old(job).value.(state := AwaitingDisc, hasErr := false)) else old(W())
    {
      hide Reached;
      hide Act;
      if job.None? || job.value.state != Failed {
        return false;
      }
      job := Some(job.value.(state := AwaitingDisc, hasErr := false));
      MayRetry(t, old(W()), W());
      Record(old(W()), Action.Retry);
      return true;
    }

    /** Group IDs that no group has yet, all different, and enough for any plan. */
    ghost predicate NewGroups(uuids: seq<string>)
      reads this
    {
      FreshGroups(uuids) && |staging| <= |uuids| && forall g <- uuids :: g !in groups
    }

    /** A planning pass that did not end in a job: the groups it registered stay. */
    method KeepGroups(known: set<string>)
      requires Valid() && !Busy(job) && groups <= known
      modifies this
      ensures Valid() && W() == old(W()).(groups := known) && trace == old(trace) + [W()] && faults == old(faults)
    {
      hide Reached;
      hide Act;
      groups := known;
      MayRegisterGroups(t, old(W()), known, W());
      Record(old(W()), RegisterGroups(known));
    }

    /** The new job replaces the finished or failed one; `next` is the world it begins in. */
    method SetNewJob(opts: Options, plans: seq<DiscPlan>, known: set<string>, ghost next: World)
      requires next == Begun(W(), opts, plans, known) && Reached(t, trace + [next], next)
      modifies this
      ensures Valid() && trace == old(trace) + [next] && W() == next && faults == old(faults)
    {
      hide Reached;
      hide Count;
      ResetBookkeeping(opts);
      job, groups := Some(Job(opts, plans, 0, AwaitingDisc, false)), known;
      trace := trace + [next];
    }

    /** What is only recorded about a job starts afresh. */
    ghost method ResetBookkeeping(opts: Options)
      modifies `base, `mine, `commit, `strays, `jobs
      ensures W() == old(W()).(base := Count(old(W()), opts.prefix), mine := {}, commit := Off, strays := false,
                               jobs := old(jobs) + 1)
    {
      hide Count;
      ghost var next := Count(W(), opts.prefix);
      base, mine, commit, strays, jobs := next, {}, Off, false, jobs + 1;
    }

    /**
     * Plans a new job over everything staged. `uuids` are the group IDs the database will
     * hand out. Refused while a job is neither DONE nor FAILED; a planning pass that fails
     * part-way leaves the groups it registered, and nothing else.
     */
    method Start(opts: Options, uuids: seq<string>) returns (ok: bool)
      requires Valid() && NewGroups(uuids)
      modifies this
      ensures Valid() && old(trace) <= trace && Tally(old(faults))
      ensures old(job.Some? && job.value.state != Done && job.value.state != Failed) ==> !ok && W() == old(W())
      ensures !ok ==> W() == old(W()).(groups := groups)
      ensures !ok && faults == old(faults) ==>
                old(job.Some? && job.value.state != Done && job.value.state != Failed) || staging == map[]
      ensures ok ==>
                && job.Some? && job.value == Job(opts, job.value.plans, 0, AwaitingDisc, false) && job.value.plans != []
                && (exists registered :: PlannedFor(job.value.plans, registered, staging, opts, disks.Keys, uuids))
                && W() == Begun(old(W()), opts, job.value.plans, groups)
                && old(groups) <= groups <= old(groups) + set g <- uuids
      ensures ok ==> AsRequested(job.value.plans, opts)
    {
      hide Reached;
      hide PlannedFor;
      hide AsRequested;
      hide Begun;
      if Busy(job) {
        return false;
      }
      hide Busy;
      ok := Begin(opts, uuids);
    }

    /** Start, with no job in the way. */
    method Begin(opts: Options, uuids: seq<string>) returns (ok: bool)
      requires Valid() && NewGroups(uuids) && !Busy(job)
      modifies this
      ensures Valid() && old(trace) <= trace && Tally(old(faults))
      ensures !ok ==> W() == old(W()).(groups := groups)
      ensures !ok && faults == old(faults) ==> staging == map[]
      ensures ok ==>
                && job.Some? && job.value == Job(opts, job.value.plans, 0, AwaitingDisc, false) && job.value.plans != []
                && (exists registered :: PlannedFor(job.value.plans, registered, staging, opts, disks.Keys, uuids))
                && W() == Begun(old(W()), opts, job.value.plans, groups)
                && old(groups) <= groups <= old(groups) + set g <- uuids
      ensures ok ==> AsRequested(job.value.plans, opts)
    {
      hide Reached;
      hide PlansOk;
      hide PlanCovers;
      hide Counted;
      hide PlannedFor;
      hide AsRequested;
      hide Act;
      ok := External();
      if !ok {
        return;
      }
      var plans, registered;
      ghost var failed;
      plans, registered, failed := PlanStaged(staging, opts, disks.Keys, uuids, env.mood.Kind?);
      if failed {
        faults := faults + 1;
      }
      var known := groups + set r <- registered :: r.0;
      if plans.None? || plans.value == [] {
        if plans.Some? {
          NothingPlanned(registered, staging, opts, disks.Keys, uuids);
        }
        KeepGroups(known);
        return false;
      }
      PlanningCovers(plans.value, registered, staging, opts, disks.Keys, uuids);
      GroupsRegistered(plans.value, registered, staging, opts, disks.Keys, uuids);
      GroupsAsRequested(plans.value, opts, Count(W(), opts.prefix));
      ghost var next := Begun(W(), opts, plans.value, known);
      MayStart(t, W(), opts, plans.value, known, next);
      NextReached(t, trace, W(), StartJob(opts, plans.value, known), next);
      SetNewJob(opts, plans.value, known, next);
      return true;
    }

    // ---- The user ---------------------------------------------------------------------------------------

    /** The user stages, replaces or removes files, none of them planned by an unfinished job. */
    method StageFiles(now: map<string, Bytes>)
      requires Valid() && SparesPlanned(W(), now)
      modifies this
      ensures Valid() && trace == old(trace) + [W()] && faults == old(faults)
      ensures W() == old(W()).(staging := now, withdrawn := old(withdrawn) + [Withdrawn(old(staging), now)])
      ensures var taken := Withdrawn(old(staging), now);
              && (forall path ::
                    path in taken
                    <==> path in old(staging) && !(path in now && now[path] == old(staging)[path]))
              && (forall path <- taken :: taken[path] == old(staging)[path])
    {
      hide Reached;
      hide Act;
      hide SparesPlanned;
      WithdrawnIs(staging, now);
      hide Withdrawn;
      withdrawn := withdrawn + [Withdrawn(staging, now)];
      staging := now;
      MayEditStaging(t, old(W()), now, W());
      Record(old(W()), EditStaging(now));
    }

    /** The medium at a target path is taken away. */
    method SwapMedium(target: string)
      requires Valid()
      modifies this
      ensures Valid() && trace == old(trace) + [W()] && faults == old(faults)
      ensures W() == old(W()).(mounted := old(mounted) - {target})
    {
      hide Reached;
      hide Act;
      mounted := mounted - {target};
      MaySwapMedium(t, old(W()), target, W());
      Record(old(W()), Action.SwapMedium(target));
    }

    /** The medium of a recorded disc is put at a target path again. */
    method MountMedium(target: string, id: DiskId)
      requires Valid() && id in disks && id !in overwritten
      modifies this
      ensures Valid() && trace == old(trace) + [W()] && faults == old(faults)
      ensures W() == old(W()).(mounted := Without(old(mounted), id)[target := id])
    {
      hide Reached;
      hide Act;
      hide Without;
      mounted := Without(mounted, id)[target := id];
      MayMountMedium(t, old(W()), target, id, W());
      Record(old(W()), Action.MountMedium(target, id));
    }

    /** UpsertStagedMetadata: replaces, never merges. */
    method UpsertStagedMetadata(path: string, meta: Meta)
      requires Valid()
      modifies this
      ensures Valid() && old(trace) <= trace && W() == old(W()).(metadata := old(metadata)[path := meta])
    {
      hide Reached;
      hide Act;
      metadata := metadata[path := meta];
      MayTagFile(t, old(W()), path, meta, W());
      Record(old(W()), TagFile(path, meta));
    }
  }

  lemma NothingMoved(spool: map<string, Node>, names: seq<string>, dir: string)
    requires dir in spool && spool[dir] == Dir(map[])
    ensures Moved(spool, names[..0], dir) == spool
  {
    assert FileNames(spool, names[..0]) == {};
  }

  /** However the commit of file `k` ended, the rows so far are the first of those wanted. */
  lemma RowsSoFar(t: Tools, w: World, plan: DiscPlan, k: nat, files: seq<FileRow>)
    requires forall i :: 0 <= i < |plan.bucket.files| ==> plan.bucket.files[i].path in w.staging
    requires k < |plan.bucket.files|
    requires var rows := RowsFor(t, plan, w.staging, w.metadata);
             files == w.files + rows[..k] || files == w.files + rows[..k] + [rows[k]]
    ensures w.files <= files <= w.files + RowsFor(t, plan, w.staging, w.metadata)
  {
    var rows := RowsFor(t, plan, w.staging, w.metadata);
    hide RowsFor;
    assert rows == rows[..k] + rows[k..];
    assert rows == rows[..k + 1] + rows[k + 1..] && rows[..k + 1] == rows[..k] + [rows[k]];
    assert w.files + rows == w.files + rows[..k] + rows[k..];
    assert w.files + rows == w.files + rows[..k] + [rows[k]] + rows[k + 1..];
  }

  lemma SameHash(t: Tools, trace: seq<World>, w: World, a: Bytes, b: Bytes)
    requires Reached(t, trace, w) && t.hash(a) == t.hash(b)
    ensures a == b
  {
    hide Inv;
    hide Run;
  }
}
