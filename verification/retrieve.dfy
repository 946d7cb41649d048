/** internal/retrieve/retrieve.go: the retrieval manager. */
module Retrieve {
  import opened Bytes
  import opened DiskIds
  import opened Plan
  import opened Tools
  import opened BurnWorld
  import opened Reconstruct

  datatype RetrieveState =
    | AwaitingMedia | ReadingDisc | Retrieved | RetrieveFailed | NeedsReconstruction
    | StartingReconstruction | Reconstructing | ReadingReconstructionDisc

  datatype RetrieveJob = RetrieveJob(file: nat, disk: DiskId, path: string, state: RetrieveState, hasErr: bool)

  /** Start is refused while a job is in any state but DONE and FAILED. */
  predicate InProgress(job: Option<RetrieveJob>) {
    job.Some? && job.value.state != Retrieved && job.value.state != RetrieveFailed
  }

  // ---- The catalog's view of a group -----------------------------------------------------------

  /** ORDER BY slot_index: NULL comes last. */
  predicate NotAfter(a: Option<nat>, b: Option<nat>) {
    b.None? || (a.Some? && a.value <= b.value)
  }

  /** What GroupMembers selects: the group's discs, in slot order. */
  ghost predicate GroupListing(disks: map<DiskId, DiskRow>, group: string, ids: seq<DiskId>) {
    && Distinct(ids)
    && (forall id :: id in ids <==> id in disks && disks[id].group == Some(group))
    && (forall i, j :: 0 <= i < j < |ids| ==> ids[i] in disks && ids[j] in disks
                                              && NotAfter(disks[ids[i]].slot, disks[ids[j]].slot))
  }

  method SelectMembers(disks: map<DiskId, DiskRow>, group: string) returns (ids: seq<DiskId>)
    ensures GroupListing(disks, group, ids)
    ensures forall i, j :: 0 <= i < j < |ids| ==>
              && ids[i] in disks && ids[j] in disks
              && (disks[ids[i]].slot.None? ==> disks[ids[j]].slot.None?)
              && (disks[ids[i]].slot.Some? && disks[ids[j]].slot.Some? ==>
                    disks[ids[i]].slot.value <= disks[ids[j]].slot.value)
  {
    ids := [];
    var rest := set id | id in disks && disks[id].group == Some(group);
    while rest != {}
      invariant rest <= disks.Keys
      invariant Distinct(ids)
      invariant forall id :: id in ids || id in rest <==> id in disks && disks[id].group == Some(group)
      invariant forall id <- rest :: id !in ids
      invariant forall i, j :: 0 <= i < j < |ids| ==> ids[i] in disks && ids[j] in disks
                                                      && NotAfter(disks[ids[i]].slot, disks[ids[j]].slot)
      invariant forall i, id :: 0 <= i < |ids| && id in rest ==>
                  ids[i] in disks && NotAfter(disks[ids[i]].slot, disks[id].slot)
      decreases |rest|
    {
      var next := FirstSlot(disks, rest);
      ids := ids + [next];
      rest := rest - {next};
    }
  }

  /** Some disc with the smallest slot. */
  method FirstSlot(disks: map<DiskId, DiskRow>, ids: set<DiskId>) returns (first: DiskId)
    requires ids != {} && ids <= disks.Keys
    ensures first in ids && forall id <- ids :: NotAfter(disks[first].slot, disks[id].slot)
  {
    first :| first in ids;
    var rest := ids - {first};
    while rest != {}
      invariant rest <= ids && first in ids
      invariant forall id :: id in ids && id !in rest ==> NotAfter(disks[first].slot, disks[id].slot)
      decreases |rest|
    {
      var id :| id in rest;
      if !NotAfter(disks[first].slot, disks[id].slot) {
        first := id;
      }
      rest := rest - {id};
    }
  }

  // ---- Reading --------------------------------------------------------------------------------------

  /** `source` is what the drive or a file gives when read, or None if it cannot be read at all. */
  function Outcome(t: Tools, source: Option<Bytes>, id: DiskId, path: string): Reading {
    if source.None? then Unreadable else ReadFile(t, source.value, id, path)
  }

  /**
   * What a member contributes to a reconstruction: a data disc its raw bytes up to the
   * capacity, a parity disc the payload inside its image.
   */
  function Operand(t: Tools, role: Role, id: DiskId, source: Option<Bytes>, capacity: nat): Option<Bytes> {
    if source.None? then None
    else if role == Parity then t.extract(source.value, TarName(id))
    else Some(Cut(source.value, capacity))
  }

  lemma UnsoundBreaksOff(t: Tools, image: Bytes, id: DiskId, tar: Bytes, compressed: bool)
    requires t.extract(image, TarName(id)) == Some(tar) && !Sound(t, tar, compressed)
    requires exists toc :: TocSays(t, image, id, toc) && toc.compressed == compressed
    ensures !exists ms :: Unpacks(t, image, id, ms)
  {
  }

  function After(reading: Reading): RetrieveState {
    match reading
    case Unreadable => NeedsReconstruction
    case WrongDisc => RetrieveFailed
    case NoSuchFile => RetrieveFailed
    case Found(_) => Retrieved
  }

  /** The last element of a path. */
  function Base(path: string): string {
    if path == "" || path[|path| - 1] == '/' then "" else Base(path[..|path| - 1]) + [path[|path| - 1]]
  }

  /** filepath.Base of a path that does not end in a slash. */
  lemma {:induction false} BaseIsLastElement(path: string)
    ensures '/' !in Base(path) && |Base(path)| <= |path|
    ensures var n := |path| - |Base(path)|;
            path[n..] == Base(path) && (n > 0 ==> path[n - 1] == '/')
  {
    if path != "" && path[|path| - 1] != '/' {
      BaseIsLastElement(path[..|path| - 1]);
    }
  }

  // ---- The manager ------------------------------------------------------------------------------------

  class Manager {
    const t: Tools
    const disks: map<DiskId, DiskRow>
    const files: seq<FileRow>
    const capacities: map<string, nat>
    const dryRuns: map<DiskId, Bytes>
    var retrieved: map<string, Bytes>
    var job: Option<RetrieveJob>
    var reconstructor: Reconstructor?
    var reconstructionCapacity: nat
    ghost var supplies: seq<Supply>  // what was folded into the reconstructor so far
    ghost var faults: nat

    /** Between two calls no job is held, and a reconstruction under way is that of the job's disc. */
    ghost predicate Valid()
      reads this, reconstructor
    {
      job.Some? ==>
        && job.value.state != ReadingDisc && job.value.state != StartingReconstruction
        && job.value.state != ReadingReconstructionDisc
        && (job.value.state == Reconstructing ==> ForJob())
    }

    /** The stored reconstructor and capacity are those of the current job's disc, holding what was read. */
    ghost predicate ForJob()
      reads this, reconstructor
      requires job.Some?
    {
      && reconstructor != null && reconstructor.missingID == job.value.disk
      && reconstructor.capacity == reconstructionCapacity
      && job.value.disk in disks && disks[job.value.disk].group.Some?
      && disks[job.value.disk].mediaType in capacities
      && reconstructionCapacity == capacities[disks[job.value.disk].mediaType]
      && (exists ids :: GroupListing(disks, disks[job.value.disk].group.value, ids)
            && reconstructor.otherIDs == Others(ids, job.value.disk))
      && reconstructor.images == Session(reconstructor.otherIDs, supplies)
    }

    constructor (t: Tools, disks: map<DiskId, DiskRow>, files: seq<FileRow>, capacities: map<string, nat>,
                 dryRuns: map<DiskId, Bytes>)
      ensures Valid() && job == None && reconstructor == null && retrieved == map[]
      ensures this.t == t && this.disks == disks && this.files == files && this.capacities == capacities
      ensures this.dryRuns == dryRuns
    {
      this.t, this.disks, this.files, this.capacities, this.dryRuns := t, disks, files, capacities, dryRuns;
      this.retrieved, this.job, this.reconstructor, this.reconstructionCapacity := map[], None, null, 0;
      this.supplies, this.faults := [], 0;
    }

    method External() returns (ok: bool)
      modifies this`faults
      ensures faults == old(faults) + (if ok then 0 else 1)
    {
      ok := *;
      if !ok {
        faults := faults + 1;
      }
    }

    method SetState(s: RetrieveState, hasErr: bool)
      requires job.Some?
      modifies this`job
      ensures job == Some(old(job).value.(state := s, hasErr := hasErr))
    {
      job := Some(job.value.(state := s, hasErr := hasErr));
    }

    method Start(file: nat) returns (ok: bool)
      requires Valid()
      modifies this`job, this`faults
      ensures Valid() && faults >= old(faults)
      ensures !ok ==> job == old(job)
      ensures ok ==>
                && !InProgress(old(job)) && file < |files|
                && job == Some(RetrieveJob(file, files[file].disk, files[file].path, AwaitingMedia, false))
      ensures !ok && faults == old(faults) ==> InProgress(old(job)) || file >= |files|
      ensures ok ==> old(job.None? || job.value.state == Retrieved || job.value.state == RetrieveFailed)
      ensures old(job.None? || job.value.state == Retrieved || job.value.state == RetrieveFailed) ==>
                (ok <==> file < |files| && faults == old(faults))
    {
      if InProgress(job) {
        return false;
      }
      ok := External();
      if !ok || file >= |files| {
        return false;
      }
      job := Some(RetrieveJob(file, files[file].disk, files[file].path, AwaitingMedia, false));
    }

    /** The bytes to read for a disc: its dry-run file, or whatever was inserted. */
    method Source(id: DiskId, target: Option<Bytes>) returns (source: Option<Bytes>)
      requires id in disks
      ensures !disks[id].isDryRun ==> source == target
      ensures disks[id].isDryRun && id in dryRuns ==> source == Some(dryRuns[id])
      ensures disks[id].isDryRun && id !in dryRuns ==> source == None
    {
      source := target;
      if disks[id].isDryRun {
        source := if id in dryRuns then Some(dryRuns[id]) else None;
      }
    }

    /** ExtractFromDisc: the entry, unless it is not there or the read goes wrong. */
    method ExtractFromDisc(source: Option<Bytes>, name: string) returns (entry: Option<Bytes>)
      modifies this`faults
      ensures faults >= old(faults)
      ensures entry.Some? ==> source.Some? && t.extract(source.value, name) == entry
      ensures entry.None? && faults == old(faults) ==> source.None? || t.extract(source.value, name).None?
    {
      var ok := External();
      if !ok || source.None? {
        return None;
      }
      return t.extract(source.value, name);
    }

    /** The checks of readFrom before the file itself is extracted. */
    method CheckDisc(source: Option<Bytes>) returns (next: RetrieveState, tar: Bytes, compressed: bool)
      requires job.Some?
      modifies this`faults
      ensures faults >= old(faults) && (next == Retrieved || next == NeedsReconstruction || next == RetrieveFailed)
      ensures next == Retrieved ==>
                && source.Some? && t.extract(source.value, TarName(job.value.disk)) == Some(tar)
                && Intact(t, source.value, job.value.disk)
                && exists toc :: TocSays(t, source.value, job.value.disk, toc) && toc.disk == job.value.disk
                                 && toc.compressed == compressed
      ensures next == Retrieved ==>
                && source.Some?
                && var file := FileIn(t, tar, compressed, job.value.path);
                   ReadFile(t, source.value, job.value.disk, job.value.path)
                   == if file.None? then NoSuchFile else Found(file.value)
      ensures next == RetrieveFailed && faults == old(faults) ==>
                Outcome(t, source, job.value.disk, job.value.path) == WrongDisc
      ensures next == NeedsReconstruction && faults == old(faults) ==>
                Outcome(t, source, job.value.disk, job.value.path) == Unreadable
    {
      var id := job.value.disk;
      tar, compressed := [], false;
      var ok := External();
      if !ok {
        return RetrieveFailed, tar, compressed;
      }
      var toc := ExtractFromDisc(source, TocName(id));
      ok := External();
      if toc.None? || !ok {
        return NeedsReconstruction, tar, compressed;
      }
      var parsed := t.parseToc(toc.value);
      if parsed.None? {
        return NeedsReconstruction, tar, compressed;
      }
      if parsed.value.disk != id {
        return RetrieveFailed, tar, compressed;
      }
      compressed := parsed.value.compressed;
      var payload := ExtractFromDisc(source, TarName(id));
      if payload.None? {
        return NeedsReconstruction, tar, compressed;
      }
      tar := payload.value;
      var index := ExtractFromDisc(source, Par2Name(id));
      if index.None? {
        return NeedsReconstruction, tar, compressed;
      }
      ok := External();
      if !ok || !t.par2ok(tar, index.value) {
        return NeedsReconstruction, tar, compressed;
      }
      assert TocSays(t, source.value, id, parsed.value);
      return Retrieved, tar, compressed;
    }

    /**
     * How the read of `source` ended for the job that was `was`, with the retrieved folder as
     * it was before: decided by the table of contents on the disc and its par2 check, if no
     * call failed. Only a file that was found, or the part of one, is written.
     */
    ghost predicate Ended(source: Option<Bytes>, was: RetrieveJob, folder: map<string, Bytes>, calm: bool)
      reads this
    {
      && job.Some? && var id, path, state := was.disk, was.path, job.value.state;
      && job.value == RetrieveJob(was.file, id, path, state, if state == Retrieved then was.hasErr else true)
      && (state == Retrieved || state == RetrieveFailed || state == NeedsReconstruction)
      && (state == Retrieved ==>
            && source.Some? && Intact(t, source.value, id)
            && (exists toc :: TocSays(t, source.value, id, toc) && toc.disk == id)
            && Base(path) in retrieved && retrieved == folder[Base(path) := retrieved[Base(path)]]
            && exists ms :: Unpacks(t, source.value, id, ms) && FirstOf(ms, path, retrieved[Base(path)]))
      && (state == NeedsReconstruction ==> retrieved == folder)
      && OthersAsBefore(folder, path)
      && (calm ==>
            && (state == NeedsReconstruction <==>
                  source.None? || forall toc :: TocSays(t, source.value, id, toc) ==>
                                                toc.disk == id && !Intact(t, source.value, id))
            && (state == RetrieveFailed ==>
                  && source.Some?
                  && ((exists toc :: TocSays(t, source.value, id, toc) && toc.disk != id)
                      || forall ms: seq<Member>, i :: Unpacks(t, source.value, id, ms) && 0 <= i < |ms| ==>
                                                        ms[i].name != path))
            && (state == RetrieveFailed && retrieved != folder ==> BrokenOff(source, id)))
    }

    /** The reading decides how it ends. */
    lemma EndsAsRead(source: Option<Bytes>, was: RetrieveJob, folder: map<string, Bytes>, calm: bool, reading: Reading)
      requires reading == Outcome(t, source, was.disk, was.path) && job.Some?
      requires job.value == was.(state := job.value.state,
                                 hasErr := if job.value.state == Retrieved then was.hasErr else true)
      requires match job.value.state
               case NeedsReconstruction => retrieved == folder && (calm ==> reading == Unreadable)
               case Retrieved => reading.Found? && retrieved == folder[Base(was.path) := reading.data]
               case RetrieveFailed =>
                 && OthersAsBefore(folder, was.path)
                 && (calm ==> (reading == WrongDisc && retrieved == folder)
                              || (reading == NoSuchFile && (retrieved == folder || BrokenOff(source, was.disk))))
               case _ => false
      ensures Ended(source, was, folder, calm)
    {
      if source.Some? {
        ReadingTable(t, source.value, was.disk, was.path);
      }
      hide ReadFile;
      hide Intact;
      hide TocSays;
      hide Unpacks;
      hide FirstOf;
    }

    ghost predicate OthersAsBefore(folder: map<string, Bytes>, path: string)
      reads this
    {
      forall p :: p != Base(path) ==> (p in retrieved <==> p in folder) && (p in folder ==> retrieved[p] == folder[p])
    }

    /** The right disc's archive is undamaged and yet cannot be read to its end. */
    ghost predicate BrokenOff(source: Option<Bytes>, id: DiskId) {
      && source.Some? && Intact(t, source.value, id)
      && (exists toc :: TocSays(t, source.value, id, toc) && toc.disk == id)
      && !exists ms :: Unpacks(t, source.value, id, ms)
    }

    /** What the job was doing when it came to the read does not matter. */
    lemma EndsAlike(source: Option<Bytes>, was: RetrieveJob, job: RetrieveJob, folder: map<string, Bytes>, calm: bool,
                    calmer: bool)
      requires Ended(source, job, folder, calm) && job == was.(state := job.state) && (calmer ==> calm)
      ensures Ended(source, was, folder, calmer)
    {
      hide Intact;
      hide TocSays;
      hide Unpacks;
      hide FirstOf;
    }

    /**
     * The end of every read, of a disc or of a rebuilt image. The job is DONE only with the
     * right bytes of the right file in the retrieved folder; without a fault the image decides.
     */
    method ReadFrom(source: Option<Bytes>)
      requires job.Some?
      modifies this`job, this`retrieved, this`faults
      ensures faults >= old(faults)
      ensures job.Some? && job == Some(old(job).value.(state := job.value.state, hasErr := job.value.hasErr))
      ensures var reading := Outcome(t, source, old(job).value.disk, old(job).value.path);
              && (job.value.state == Retrieved ==>
                    && reading.Found?
                    && retrieved == old(retrieved)[Base(old(job).value.path) := reading.data])
              && (faults == old(faults) ==> job.value.state == After(reading))
      ensures job.value.state == Retrieved || job.value.state == RetrieveFailed
              || job.value.state == NeedsReconstruction
      ensures Ended(source, old(job).value, old(retrieved), faults == old(faults))
      ensures job.value.state == Retrieved ==>
                && source.Some?
                && var tar, index := t.extract(source.value, TarName(old(job).value.disk)),
                                     t.extract(source.value, Par2Name(old(job).value.disk));
                   tar.Some? && index.Some? && t.par2ok(tar.value, index.value)
    {
      hide ReadFile;
      hide FileIn;
      hide Intact;
      hide TocSays;
      hide Sound;
      hide Ended;
      ghost var was, folder, before := job.value, retrieved, faults;
      ghost var reading := Outcome(t, source, was.disk, was.path);
      var next, tar, compressed := CheckDisc(source);
      if next != Retrieved {
        SetState(next, true);
        EndsAsRead(source, was, folder, faults == before, reading);
        return;
      }
      var file := ExtractFile(t, tar, compressed, job.value.path);
      var ok := External();
      if file.None? || !ok {
        var partly: Option<Bytes> := *;
        if partly.Some? && (!ok || !Sound(t, tar, compressed)) {
          retrieved := retrieved[Base(job.value.path) := partly.value];
        }
        SetState(RetrieveFailed, true);
        if ok && !Sound(t, tar, compressed) {
          UnsoundBreaksOff(t, source.value, was.disk, tar, compressed);
        }
        EndsAsRead(source, was, folder, faults == before, reading);
        return;
      }
      retrieved := retrieved[Base(job.value.path) := file.value];
      SetState(Retrieved, job.value.hasErr);
      EndsAsRead(source, was, folder, faults == before, reading);
    }

    /**
     * Reads the disc the job asks for: a dry-run disc from its dry-run file, whatever was
     * inserted, and any other from what was inserted.
     */
    method ReadDisk(target: Option<Bytes>) returns (attempted: bool)
      requires Valid()
      modifies this`job, this`retrieved, this`faults
      ensures Valid() && faults >= old(faults)
      ensures attempted <==> old(job.Some? && job.value.state == AwaitingMedia)
      ensures !attempted ==> job == old(job) && retrieved == old(retrieved)
      ensures attempted ==>
                job.Some? && job == Some(old(job).value.(state := job.value.state, hasErr := job.value.hasErr))
      ensures attempted && old(job).value.disk in disks && !disks[old(job).value.disk].isDryRun ==>
                Ended(target, old(job).value, old(retrieved), faults == old(faults))
      ensures attempted && old(job).value.disk in disks && disks[old(job).value.disk].isDryRun ==>
                Ended(if old(job).value.disk in dryRuns then Some(dryRuns[old(job).value.disk]) else None,
                      old(job).value, old(retrieved), faults == old(faults))
      ensures attempted && old(job).value.disk !in disks ==>
                job == Some(old(job).value.(state := RetrieveFailed, hasErr := true)) && retrieved == old(retrieved)
    {
      hide Outcome;
      hide After;
      hide Intact;
      hide TocSays;
      hide Unpacks;
      hide FirstOf;
      if job.None? || job.value.state != AwaitingMedia {
        return false;
      }
      SetState(ReadingDisc, job.value.hasErr);
      var ok := External();
      if !ok || job.value.disk !in disks {
        SetState(RetrieveFailed, true);
        return true;
      }
      var source := Source(job.value.disk, target);
      ReadFrom(source);
      return true;
    }

    method GroupMembers(group: string) returns (ids: Option<seq<DiskId>>)
      modifies this`faults
      ensures faults >= old(faults)
      ensures ids.Some? ==> GroupListing(disks, group, ids.value)
      ensures ids.None? ==> faults > old(faults)
    {
      var ok := External();
      if !ok {
        return None;
      }
      var members := SelectMembers(disks, group);
      return Some(members);
    }

    /**
     * Begins rebuilding the job's disc from its group. A failure puts the job back where it
     * was, with the reconstructor of any earlier attempt untouched.
     */
    method StartReconstruction() returns (ok: bool)
      requires Valid()
      modifies this`job, this`reconstructor, this`reconstructionCapacity, this`supplies, this`faults
      ensures Valid() && faults >= old(faults)
      ensures ok ==>
                && supplies == []
                && old(job.Some? && job.value.state == NeedsReconstruction)
                && job == Some(old(job).value.(state := Reconstructing, hasErr := false))
                && fresh(reconstructor) && reconstructor.images == map[] && ForJob()
      ensures !ok ==>
                && reconstructor == old(reconstructor) && reconstructionCapacity == old(reconstructionCapacity)
                && job == if old(job.Some? && job.value.state == NeedsReconstruction)
                          then Some(old(job).value.(hasErr := true)) else old(job)
      ensures !ok && faults == old(faults) && old(job.Some? && job.value.state == NeedsReconstruction) ==>
                var id := old(job).value.disk;
                id !in disks || disks[id].group.None? || disks[id].mediaType !in capacities
    {
      if job.None? || job.value.state != NeedsReconstruction {
        return false;
      }
      SetState(StartingReconstruction, job.value.hasErr);
      var id := job.value.disk;
      ok := External();
      if !ok || id !in disks || disks[id].group.None? {
        SetState(NeedsReconstruction, true);
        return false;
      }
      var members := GroupMembers(disks[id].group.value);
      if members.None? {
        SetState(NeedsReconstruction, true);
        return false;
      }
      ok := External();
      if !ok || disks[id].mediaType !in capacities {
        SetState(NeedsReconstruction, true);
        return false;
      }
      var r := NewReconstructor(members.value, id, capacities[disks[id].mediaType]);
      if r == null {
        assert false;
        return false;
      }
      reconstructor, supplies := r, [];
      reconstructionCapacity := capacities[disks[id].mediaType];
      SetState(Reconstructing, false);
      return true;
    }

    /** The discs still needed, in group order. */
    method Remaining() returns (out: seq<DiskId>)
      ensures out == if reconstructor == null then []
                     else RemainingIn(reconstructor.otherIDs, reconstructor.images.Keys)
    {
      if reconstructor == null {
        return [];
      }
      out := reconstructor.Remaining();
    }

    /** What one inserted disc adds to the reconstruction, if it can be read. */
    method ReadOperand(id: DiskId, target: Option<Bytes>) returns (operand: Option<Bytes>)
      modifies this`faults
      ensures faults >= old(faults)
      ensures operand.Some? ==> id in disks && OperandFrom(id, target, operand.value)
      ensures operand.None? && faults == old(faults) ==> forall data :: !OperandFrom(id, target, data)
    {
      var ok := External();
      if !ok || id !in disks {
        return None;
      }
      var source := Source(id, target);
      if disks[id].role == Parity {
        operand := ExtractFromDisc(source, TarName(id));
      } else {
        operand := ReadRawImage(source, reconstructionCapacity);
      }
      ok := External();
      if !ok {
        return None;
      }
    }

    /** internal/burn/reconstruct.go: at most `size` bytes from the device; its end is not an error. */
    method ReadRawImage(source: Option<Bytes>, size: nat) returns (image: Option<Bytes>)
      modifies this`faults
      ensures faults >= old(faults)
      ensures image.Some? ==> source.Some? && image.value == Cut(source.value, size)
      ensures image.None? && faults == old(faults) ==> source.None?
    {
      var ok := External();
      if !ok || source.None? {
        return None;
      }
      return Some(Cut(source.value, size));
    }

    /**
     * Reads one member. A member that can be read is added, replacing what it was read as
     * before; anything else changes nothing. The last one missing makes the reconstruction
     * complete, and the file is read from the rebuilt image.
     */
    method ReadReconstructionDisc(id: DiskId, target: Option<Bytes>) returns (attempted: bool)
      requires Valid()
      modifies this`job, this`retrieved, this`supplies, this`faults, reconstructor
      ensures Valid() && faults >= old(faults) && reconstructor == old(reconstructor)
      ensures attempted <==> old(job.Some? && job.value.state == Reconstructing)
      ensures !attempted ==>
                job == old(job) && retrieved == old(retrieved)
                && (reconstructor != null ==> reconstructor.images == old(reconstructor.images))
      ensures attempted ==>
                && reconstructor != null && job.Some?
                && job == Some(old(job).value.(state := job.value.state, hasErr := job.value.hasErr))
                && var r, capacity := reconstructor, reconstructionCapacity;
                   var rebuilt := Rebuilt(r.otherIDs, Session(r.otherIDs, supplies), capacity);
                   && r.images == Session(r.otherIDs, supplies)
                   && (supplies == old(supplies) || Supplied(old(supplies), id, target))
                   && (job.value.state == Retrieved ==>
                         && rebuilt.Some? && Outcome(t, rebuilt, job.value.disk, job.value.path).Found?
                         && retrieved == old(retrieved)[Base(job.value.path) :=
                                           Outcome(t, rebuilt, job.value.disk, job.value.path).data])
                   && (faults == old(faults) ==>
                         if id in r.otherIDs && CanSupply(id, target)
                         then Supplied(old(supplies), id, target)
                              && job.value.state == if rebuilt.None? then Reconstructing
                                                    else After(Outcome(t, rebuilt, job.value.disk, job.value.path))
                         else supplies == old(supplies) && job.value.state == Reconstructing)
                   && (job.value.state == Reconstructing ==>
                         && retrieved == old(retrieved)
                         && (job.value.hasErr <==> supplies == old(supplies) || rebuilt.Some?))
                   && (job.value.state != Reconstructing ==>
                         && rebuilt.Some? && Supplied(old(supplies), id, target)
                         && Ended(rebuilt, old(job).value, old(retrieved), faults == old(faults)))
    {
      hide Ended;
      hide OperandFrom;
      hide Outcome;
      hide Operand;
      hide Session;
      hide Rebuilt;
      hide GroupListing;
      hide Others;
      hide After;
      if job.None? || reconstructor == null || job.value.state != Reconstructing {
        return false;
      }
      SetState(ReadingReconstructionDisc, job.value.hasErr);
      var operand := ReadOperand(id, target);
      if operand.None? {
        SetState(Reconstructing, true);
        return true;
      }
      var ok, needsMore, image := FoldReconstructionImage(reconstructor, id, operand.value);
      if !ok {
        SetState(Reconstructing, true);
        return true;
      }
      SessionNext(reconstructor.otherIDs, supplies, Supply(id, operand.value));
      supplies := supplies + [Supply(id, operand.value)];
      if needsMore {
        SetState(Reconstructing, false);
        return true;
      }
      ghost var folded, before := job.value, faults;
      ReadRebuilt(image);
      if job.value.state != Reconstructing {
        EndsAlike(image, old(job).value, folded, old(retrieved), faults == before, faults == old(faults));
      }
      return true;
    }

    /** The rebuilt image is written to a file, and read from there. */
    method ReadRebuilt(image: Option<Bytes>)
      requires job.Some?
      modifies this`job, this`retrieved, this`faults
      ensures faults >= old(faults)
      ensures job.Some? && job == Some(old(job).value.(state := job.value.state, hasErr := job.value.hasErr))
      ensures job.value.state == Reconstructing ==>
                faults > old(faults) && job.value.hasErr && retrieved == old(retrieved)
      ensures job.value.state != Reconstructing ==>
                var reading := Outcome(t, image, old(job).value.disk, old(job).value.path);
                && (job.value.state == Retrieved || job.value.state == RetrieveFailed
                    || job.value.state == NeedsReconstruction)
                && (job.value.state == Retrieved ==>
                      && reading.Found?
                      && retrieved == old(retrieved)[Base(old(job).value.path) := reading.data])
                && (faults == old(faults) ==> job.value.state == After(reading))
                && Ended(image, old(job).value, old(retrieved), faults == old(faults))
    {
      hide Ended;
      hide Outcome;
      hide After;
      var ok := External();
      if !ok {
        SetState(Reconstructing, true);
        return;
      }
      ReadFrom(image);
    }

    /** Supplies the image and, once every other member was supplied, rebuilds the lost one. */
    method FoldReconstructionImage(r: Reconstructor, id: DiskId, data: Bytes)
        returns (ok: bool, needsMore: bool, image: Option<Bytes>)
      modifies r`images
      ensures ok <==> id in r.otherIDs
      ensures r.images == if ok then old(r.images)[id := data] else old(r.images)
      ensures ok ==> image == Rebuilt(r.otherIDs, r.images, r.capacity) && needsMore == image.None?
    {
      needsMore, image := false, None;
      ok := r.SupplyDiscImage(id, data);
      if !ok {
        return;
      }
      needsMore := r.NeedsMore();
      if !needsMore {
        image := r.Reconstruct();
      }
    }

    /**
     * `data` is what the disc adds to a reconstruction: of a parity disc the payload on it, of
     * a data disc its bytes up to the capacity. A dry-run disc is its dry-run file.
     */
    ghost predicate OperandFrom(id: DiskId, target: Option<Bytes>, data: Bytes)
      reads this`reconstructionCapacity
    {
      && id in disks
      && var source := if !disks[id].isDryRun then target
                       else if id in dryRuns then Some(dryRuns[id]) else None;
         && source.Some?
         && if disks[id].role == Parity then t.extract(source.value, TarName(id)) == Some(data)
            else data <= source.value
                 && |data| == if |source.value| <= reconstructionCapacity then |source.value|
                              else reconstructionCapacity
    }

    ghost predicate CanSupply(id: DiskId, target: Option<Bytes>)
      reads this`reconstructionCapacity
    {
      exists data :: OperandFrom(id, target, data)
    }

    /** One more member was read: its operand joins the session. */
    ghost predicate Supplied(was: seq<Supply>, id: DiskId, target: Option<Bytes>)
      reads this, reconstructor
    {
      && reconstructor != null && id in reconstructor.otherIDs
      && |supplies| == |was| + 1 && supplies[..|was|] == was
      && supplies[|was|].id == id && OperandFrom(id, target, supplies[|was|].image)
    }
  }
}
