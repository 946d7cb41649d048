/** The operator getting a file back from a lost disc: both managers together. */
module RecoveryOperator {
  import opened Bytes
  import opened XorDisk
  import opened DiskIds
  import opened Plan
  import opened Tools
  import opened BurnWorld
  import opened BurnInv
  import opened BurnRuns
  import BurnManager
  import opened Reconstruct
  import opened Retrieve
  import opened Recovery

  // ---- What the operator has ------------------------------------------------------------------

  /** The retrieval manager works on the burn manager's catalog, with the capacity the job was burned for. */
  ghost predicate SameCatalog(m: Manager, w: World, opts: Options)
  {
    && m.disks == w.disks && m.files == w.files
    && opts.mediaType in m.capacities && m.capacities[opts.mediaType] == opts.capacity
  }

  /** Inserting the disc, or opening its dry-run file, gives what was written. */
  ghost predicate Gives(m: Manager, w: World, discs: map<DiskId, Bytes>, id: DiskId)
  {
    && id in w.media && id in m.disks
    && if m.disks[id].isDryRun then id in m.dryRuns && m.dryRuns[id] == w.media[id]
       else id in discs && discs[id] == w.media[id]
  }

  function Inserted(discs: map<DiskId, Bytes>, id: DiskId): Option<Bytes> {
    if id in discs then Some(discs[id]) else None
  }

  /** All discs of the group but the lost one are at hand. */
  ghost predicate AtHand(m: Manager, w: World, data: seq<DiskId>, parity: DiskId, k: nat, discs: map<DiskId, Bytes>)
    requires k < |data|
  {
    forall id :: id in data + [parity] && id != data[k] ==> Gives(m, w, discs, id)
  }

  /**
   * The lost disc cannot be read any more: there is none, or no table of contents can be read
   * from it, or it is that of this disc and the archive is damaged.
   */
  ghost predicate Lost(m: Manager, id: DiskId, discs: map<DiskId, Bytes>)
  {
    && id in m.disks
    && if m.disks[id].isDryRun then id !in m.dryRuns || Damaged(m.t, m.dryRuns[id], id)
       else id !in discs || Damaged(m.t, discs[id], id)
  }

  ghost predicate Damaged(t: Tools, image: Bytes, id: DiskId) {
    forall toc :: TocSays(t, image, id, toc) ==> toc.disk == id && !Intact(t, image, id)
  }

  /** The retrieved folder holds a file with the recorded hash and size, under its own name. */
  ghost predicate Back(m: Manager, row: FileRow)
    reads m
  {
    var name := Base(row.path);
    && name in m.retrieved
    && m.t.hash(m.retrieved[name]) == row.hash && |m.retrieved[name]| == row.size
  }

  // ---- What was read ----------------------------------------------------------------------------

  /** Each disc that was read was read as it was written. */
  ghost predicate ReadWell(t: Tools, w: World, supplies: seq<Supply>, capacity: nat) {
    forall i :: 0 <= i < |supplies| ==> IsOperand(t, w, supplies[i], capacity)
  }

  ghost predicate IsOperand(t: Tools, w: World, s: Supply, capacity: nat) {
    && s.id in w.disks && s.id in w.media
    && Operand(t, w.disks[s.id].role, s.id, Some(w.media[s.id]), capacity) == Some(s.image)
  }

  lemma {:induction false} LastIsOperand(t: Tools, w: World, supplies: seq<Supply>, capacity: nat, id: DiskId)
    requires ReadWell(t, w, supplies, capacity) && LastImage(supplies, id).Some?
    ensures IsOperand(t, w, Supply(id, LastImage(supplies, id).value), capacity)
  {
    hide IsOperand;
    var n := |supplies| - 1;
    if supplies[n].id == id {
      assert IsOperand(t, w, supplies[n], capacity) && supplies[n] == Supply(id, supplies[n].image);
    } else {
      LastIsOperand(t, w, supplies[..n], capacity, id);
    }
  }

  /** Once every member was read, all of them were last read well. */
  lemma AllReadWell(t: Tools, w: World, ids: seq<DiskId>, lost: DiskId, supplies: seq<Supply>, capacity: nat)
    requires ReadWell(t, w, supplies, capacity)
    requires Rebuilt(Others(ids, lost), Session(Others(ids, lost), supplies), capacity).Some?
    ensures LastReadWell(t, w, ids, lost, supplies, capacity)
  {
    hide Operand;
    var others := Others(ids, lost);
    forall id | id in ids && id != lost && id in w.disks && id in w.media
      ensures LastImage(supplies, id) == Operand(t, w.disks[id].role, id, Some(w.media[id]), capacity)
    {
      OthersMembers(ids, lost, id);
      var i :| 0 <= i < |others| && others[i] == id;
      SessionHoldsLast(others, supplies, id);
      LastIsOperand(t, w, supplies, capacity, id);
    }
  }

  /** The rebuilt image gives back what is recorded of the lost disc. */
  lemma RebuiltIsRight(t: Tools, w: World, group: string, opts: Options, data: seq<DiskId>, parity: DiskId, k: nat,
                       ids: seq<DiskId>, supplies: seq<Supply>, file: nat)
    requires Inv(t, w) && Lawful(t) && Recoverable(t, w, group, opts, data, parity) && k < |data|
    requires GroupListing(w.disks, group, ids) && ReadWell(t, w, supplies, opts.capacity)
    requires data[k] in w.media ==> |w.media[data[k]]| <= opts.capacity
    requires file < |w.files| && w.files[file].disk == data[k]
    requires Rebuilt(Others(ids, data[k]), Session(Others(ids, data[k]), supplies), opts.capacity).Some?
    ensures var rebuilt := Rebuilt(Others(ids, data[k]), Session(Others(ids, data[k]), supplies), opts.capacity);
            var reading := Outcome(t, rebuilt, data[k], w.files[file].path);
            reading.Found? && t.hash(reading.data) == w.files[file].hash && |reading.data| == w.files[file].size
  {
    hide *;
    AllReadWell(t, w, ids, data[k], supplies, opts.capacity);
    KeptIsRecovered(t, w, group, opts, data, parity, k, ids, supplies);
    RecoveredReads(t, w, data[k], Rebuilt(Others(ids, data[k]), Session(Others(ids, data[k]), supplies), opts.capacity),
                   opts.capacity, file);
  }

  lemma RecoveredReads(t: Tools, w: World, lost: DiskId, rebuilt: Option<Bytes>, capacity: nat, file: nat)
    requires Recovered(t, w, lost, rebuilt, capacity) && file < |w.files| && w.files[file].disk == lost
    ensures var reading := Outcome(t, rebuilt, lost, w.files[file].path);
            reading.Found? && t.hash(reading.data) == w.files[file].hash && |reading.data| == w.files[file].size
  {
    hide Outcome;
  }

  // ---- Facts about the group ----------------------------------------------------------------------

  lemma KeptGroup(t: Tools, w: World, group: string, opts: Options, data: seq<DiskId>, parity: DiskId, k: nat)
    requires Recoverable(t, w, group, opts, data, parity) && k < |data|
    ensures data[k] in w.disks && w.disks[data[k]].group == Some(group) && w.disks[data[k]].mediaType == opts.mediaType
    ensures parity != data[k] && parity in w.disks
    ensures forall id :: id in w.disks && w.disks[id].group == Some(group) ==> id in data + [parity]
  {
    RowsDistinct(w.disks, group, data, parity);
    assert (data + [parity])[k] == data[k] && (data + [parity])[|data|] == parity;
    hide GroupMedia;
  }

  /** Every other member gives something to fold in. */
  lemma MemberIsReadable(t: Tools, w: World, group: string, opts: Options, data: seq<DiskId>, parity: DiskId,
                         id: DiskId)
    requires Lawful(t) && Recoverable(t, w, group, opts, data, parity) && id in data + [parity]
    ensures id in w.disks && id in w.media
    ensures Operand(t, w.disks[id].role, id, Some(w.media[id]), opts.capacity).Some?
  {
    hide Lawful;
    hide HoldsImage;
    hide HoldsPayload;
    var i :| 0 <= i <= |data| && (data + [parity])[i] == id;
    if i == |data| {
      ParityOperand(t, w.disks, w.media, parity, Xor(MediaImages(w.media, data), opts.capacity), opts.capacity);
    }
  }

  lemma OthersAreMembers(m: Manager, w: World, group: string, opts: Options, data: seq<DiskId>, parity: DiskId, k: nat,
                         ids: seq<DiskId>)
    requires m.disks == w.disks && Recoverable(m.t, w, group, opts, data, parity) && k < |data|
    requires GroupListing(m.disks, group, ids)
    ensures forall id :: id in Others(ids, data[k]) ==> id in data + [parity] && id != data[k]
    ensures parity in Others(ids, data[k]) && Distinct(Others(ids, data[k]))
  {
    KeptGroup(m.t, w, group, opts, data, parity, k);
    OthersDistinct(ids, data[k]);
    assert parity in ids by {
      ParityIsListed(m.t, w, group, opts, data, parity, ids);
    }
    forall id
      ensures id in Others(ids, data[k]) <==> id in ids && id != data[k]
    {
      OthersMembers(ids, data[k], id);
    }
    hide Recoverable;
    hide Others;
  }

  lemma ParityIsListed(t: Tools, w: World, group: string, opts: Options, data: seq<DiskId>, parity: DiskId,
                       ids: seq<DiskId>)
    requires Recoverable(t, w, group, opts, data, parity) && GroupListing(w.disks, group, ids)
    ensures parity in ids
  {
    assert (data + [parity])[|data|] == parity;
    hide GroupMedia;
  }

  // ---- The session --------------------------------------------------------------------------------

  /** The reconstruction under way is that of a disc of the group, with its discs read as they were written. */
  ghost predicate Rebuilding(m: Manager, w: World, ids: seq<DiskId>, lost: DiskId, group: string, capacity: nat)
    reads m, m.reconstructor
  {
    && m.reconstructor != null && GroupListing(m.disks, group, ids)
    && m.reconstructor.otherIDs == Others(ids, lost)
    && m.reconstructionCapacity == capacity && m.reconstructor.images == Session(Others(ids, lost), m.supplies)
    && ReadWell(m.t, w, m.supplies, capacity)
  }

  /** The discs that are still to be read. */
  ghost function Missing(m: Manager): seq<DiskId>
    reads m, m.reconstructor
  {
    if m.reconstructor == null then [] else RemainingIn(m.reconstructor.otherIDs, m.reconstructor.images.Keys)
  }

  /** The group of the lost disc, the discs at hand, and the file that is wanted back. */
  ghost predicate Wanted(m: Manager, w: World, group: string, opts: Options, data: seq<DiskId>, parity: DiskId, k: nat,
                         file: nat, discs: map<DiskId, Bytes>)
  {
    && Inv(m.t, w) && Lawful(m.t) && Recoverable(m.t, w, group, opts, data, parity) && k < |data|
    && SameCatalog(m, w, opts) && AtHand(m, w, data, parity, k, discs)
    && data[k] in w.media && |w.media[data[k]]| <= opts.capacity
    && file < |w.files| && w.files[file].disk == data[k]
  }

  /** One member is inserted and read. */
  method ReadMember(m: Manager, id: DiskId, discs: map<DiskId, Bytes>, ghost w: World, ghost group: string,
                    ghost opts: Options, ghost data: seq<DiskId>, ghost parity: DiskId, ghost k: nat,
                        ghost ids: seq<DiskId>,
                    ghost file: nat)
    requires m.Valid() && m.job.Some? && m.job.value.state == Reconstructing
    requires Wanted(m, w, group, opts, data, parity, k, file, discs)
    requires m.job.value.disk == data[k] && m.job.value.path == w.files[file].path
    requires Rebuilding(m, w, ids, data[k], group, opts.capacity) && id in Missing(m)
    modifies m, m.reconstructor
    ensures m.Valid() && m.faults >= old(m.faults) && m.reconstructor == old(m.reconstructor)
    ensures m.job.Some? && m.job.value.disk == data[k] && m.job.value.path == w.files[file].path
    ensures Rebuilding(m, w, ids, data[k], group, opts.capacity)
    ensures m.job.value.state == Retrieved ==> Back(m, w.files[file])
    ensures m.faults == old(m.faults) ==>
              && |Missing(m)| == |old(Missing(m))| - 1
              && m.job.value.state == (if Missing(m) == [] then Retrieved else Reconstructing)
  {
    hide Outcome;
    hide Operand;
    hide Session;
    hide Rebuilt;
    hide GroupListing;
    hide Others;
    hide RemainingIn;
    hide Inv;
    hide Lawful;
    hide Recoverable;
    hide IsOperand;
    ghost var others, was := Others(ids, data[k]), m.supplies;
    OthersAreMembers(m, w, group, opts, data, parity, k, ids);
    RemainingMembers(others, m.reconstructor.images.Keys, id);
    MemberIsReadable(m.t, w, group, opts, data, parity, id);
    var target := Inserted(discs, id);
    ghost var operand := Operand(m.t, w.disks[id].role, id, Some(w.media[id]), opts.capacity).value;
    OperandIsRead(m, w, discs, id, operand);
    assert m.CanSupply(id, target);
    var attempted := m.ReadReconstructionDisc(id, target);
    ghost var s := Supply(id, operand);
    if m.supplies != was {
      OperandIsRead(m, w, discs, id, m.supplies[|was|].image);
      assert m.supplies == m.supplies[..|was|] + [m.supplies[|was|]];
    }
    assert m.supplies == was || m.supplies == was + [s];
    MoreReadWell(m.t, w, was, s, opts.capacity);
    SessionProgress(others, was, s);
    NothingRemains(others, m.reconstructor.images);
    ghost var rebuilt := Rebuilt(others, Session(others, m.supplies), opts.capacity);
    if rebuilt.Some? {
      RebuiltIsRight(m.t, w, group, opts, data, parity, k, ids, m.supplies, file);
    }
    CompleteIsRebuilt(others, m.reconstructor.images, opts.capacity);
  }

  /** What is read of a disc at hand is its part in the reconstruction, as written. */
  lemma OperandIsRead(m: Manager, w: World, discs: map<DiskId, Bytes>, id: DiskId, data: Bytes)
    requires m.disks == w.disks && Gives(m, w, discs, id)
    ensures m.OperandFrom(id, Inserted(discs, id), data)
       <==> Operand(m.t, w.disks[id].role, id, Some(w.media[id]), m.reconstructionCapacity) == Some(data)
  {
    var image, capacity := w.media[id], m.reconstructionCapacity;
    var n := if |image| <= capacity then |image| else capacity;
    assert image[..n] == Cut(image, capacity);
    assert data <= image && |data| == n <==> data == image[..n];
  }

  lemma MoreReadWell(t: Tools, w: World, supplies: seq<Supply>, s: Supply, capacity: nat)
    requires ReadWell(t, w, supplies, capacity) && s.id in w.disks && s.id in w.media
    requires Operand(t, w.disks[s.id].role, s.id, Some(w.media[s.id]), capacity) == Some(s.image)
    ensures ReadWell(t, w, supplies + [s], capacity)
  {
    hide Operand;
  }

  lemma CompleteIsRebuilt(others: seq<DiskId>, images: map<DiskId, Bytes>, capacity: nat)
    ensures Complete(others, images) <==> Rebuilt(others, images, capacity).Some?
  {
    hide Xor;
  }

  // ---- From the lost disc to the file --------------------------------------------------------------

  /** The retrieval is started, the disc tried, and the reconstruction begun. */
  method BeginRebuild(m: Manager, discs: map<DiskId, Bytes>, file: nat, ghost w: World, ghost group: string,
                      ghost opts: Options, ghost data: seq<DiskId>, ghost parity: DiskId, ghost k: nat)
      returns (ok: bool, ghost ids: seq<DiskId>)
    requires m.Valid() && !InProgress(m.job)
    requires Wanted(m, w, group, opts, data, parity, k, file, discs)
    requires Lost(m, data[k], discs)
    modifies m
    ensures m.Valid() && m.faults >= old(m.faults)
    ensures ok ==>
              && m.job.Some? && m.job.value.state == Reconstructing
              && m.job.value.disk == data[k] && m.job.value.path == w.files[file].path
              && fresh(m.reconstructor) && Rebuilding(m, w, ids, data[k], group, opts.capacity)
              && m.reconstructor.images == map[]
    ensures m.faults == old(m.faults) ==> ok
  {
    hide Outcome;
    hide GroupListing;
    hide Others;
    hide RemainingIn;
    hide Inv;
    hide Lawful;
    hide Recoverable;
    hide AtHand;
    KeptGroup(m.t, w, group, opts, data, parity, k);
    ids := [];
    ok := m.Start(file);
    if !ok {
      return;
    }
    var attempted := m.ReadDisk(Inserted(discs, m.files[file].disk));
    if m.job.value.state != NeedsReconstruction {
      return false, ids;
    }
    ok := m.StartReconstruction();
    if ok {
      ids :| GroupListing(m.disks, group, ids) && m.reconstructor.otherIDs == Others(ids, data[k]);
    }
  }

  /**
   * The operator's way to a file whose disc is lost: start the retrieval, try the disc, start
   * the reconstruction, and insert the discs that are asked for. If no call fails, the file is
   * in the retrieved folder at the end, with the recorded hash and size; if some do, DONE
   * still means that.
   */
  method RebuildFile(m: Manager, discs: map<DiskId, Bytes>, file: nat, ghost w: World, ghost group: string,
                     ghost opts: Options, ghost data: seq<DiskId>, ghost parity: DiskId, ghost k: nat)
      returns (done: bool)
    requires m.Valid() && !InProgress(m.job)
    requires Wanted(m, w, group, opts, data, parity, k, file, discs)
    requires Lost(m, data[k], discs)
    modifies m
    ensures m.Valid() && m.faults >= old(m.faults)
    ensures done ==> m.job.Some? && m.job.value.state == Retrieved && Back(m, w.files[file])
    ensures m.faults == old(m.faults) ==> done
  {
    hide *;
    ghost var ids;
    done, ids := BeginRebuild(m, discs, file, w, group, opts, data, parity, k);
    if done {
      done := ReadMembers(m, discs, file, w, group, opts, data, parity, k, ids);
    }
  }

  /** The loop over the discs that are asked for. */
  method ReadMembers(m: Manager, discs: map<DiskId, Bytes>, file: nat, ghost w: World, ghost group: string,
                     ghost opts: Options, ghost data: seq<DiskId>, ghost parity: DiskId, ghost k: nat,
                         ghost ids: seq<DiskId>)
      returns (done: bool)
    requires m.Valid() && m.job.Some? && m.job.value.state == Reconstructing
    requires Wanted(m, w, group, opts, data, parity, k, file, discs)
    requires m.job.value.disk == data[k] && m.job.value.path == w.files[file].path
    requires Rebuilding(m, w, ids, data[k], group, opts.capacity) && m.reconstructor.images == map[]
    modifies m, m.reconstructor
    ensures m.Valid() && m.faults >= old(m.faults)
    ensures done ==> m.job.Some? && m.job.value.state == Retrieved && Back(m, w.files[file])
    ensures m.faults == old(m.faults) ==> done
  {
    hide RemainingIn;
    hide Inv;
    hide Lawful;
    hide Recoverable;
    hide AtHand;
    hide Back;
    hide Others;
    hide GroupListing;
    hide ReadWell;
    hide Session;
    SomethingMissing(m, w, group, opts, data, parity, k, ids);
    var left := m.Remaining();
    while left != []
      invariant m.reconstructor == old(m.reconstructor)
      invariant m.Valid() && m.faults >= old(m.faults) && left == Missing(m)
      invariant m.job.Some? && m.job.value.disk == data[k] && m.job.value.path == w.files[file].path
      invariant Rebuilding(m, w, ids, data[k], group, opts.capacity)
      invariant m.job.value.state == Retrieved ==> Back(m, w.files[file])
      invariant left != [] ==> m.job.value.state == Reconstructing
      invariant m.faults == old(m.faults) && left == [] ==> m.job.value.state == Retrieved
      decreases |left|
    {
      ReadMember(m, left[0], discs, w, group, opts, data, parity, k, ids, file);
      var next := m.Remaining();
      if |next| >= |left| || (next != [] && m.job.value.state != Reconstructing) {
        break;
      }
      left := next;
    }
    return m.job.value.state == Retrieved;
  }

  lemma SomethingMissing(m: Manager, w: World, group: string, opts: Options, data: seq<DiskId>, parity: DiskId, k: nat,
                         ids: seq<DiskId>)
    requires m.disks == w.disks && Recoverable(m.t, w, group, opts, data, parity) && k < |data|
    requires m.reconstructor != null && GroupListing(m.disks, group, ids)
    requires m.reconstructor.otherIDs == Others(ids, data[k]) && m.reconstructor.images == map[]
    ensures Missing(m) != []
  {
    hide GroupListing;
    hide Others;
    hide RemainingIn;
    hide Recoverable;
    OthersAreMembers(m, w, group, opts, data, parity, k, ids);
    RemainingMembers(m.reconstructor.otherIDs, {}, parity);
    assert m.reconstructor.images.Keys == {};
  }

  /** File `file` is recorded on disc `k` of the group, which cannot be read any more; the others are at hand. */
  ghost predicate FileLost(m: Manager, w: World, was: World, p: nat, k: nat, file: nat, discs: map<DiskId, Bytes>)
    requires GroupFinished(was, p) && k < |GroupData(was.job.value.plans, was.job.value.plans[p].group)|
  {
    var job := was.job.value;
    var data, parity := GroupData(job.plans, job.plans[p].group), job.plans[p].id;
    && SameCatalog(m, w, job.options) && AtHand(m, w, data, parity, k, discs)
    && data[k] in w.media && |w.media[data[k]]| <= job.options.capacity
    && file < |w.files| && w.files[file].disk == data[k]
    && Lost(m, data[k], discs)
  }

  /**
   * Both managers together. A burn manager finished the group of parity disc `p` at some
   * moment of its history, and since then no dry run collided with that parity disc. Then
   * any file on any one lost data disc of the group comes back, if the discs left of the
   * group are at hand and no call fails.
   */
  method RecoverFile(burner: BurnManager.Manager, m: Manager, discs: map<DiskId, Bytes>, file: nat,
                     ghost moment: nat, ghost was: World, ghost p: nat, ghost k: nat) returns (done: bool)
    requires burner.Valid() && m.Valid() && !InProgress(m.job) && m.t == burner.t
    requires moment < |burner.trace| && burner.trace[moment] == was && GroupFinished(was, p)
    requires forall w <- burner.trace[moment..] :: !DryHits(w, was.job.value.plans[p].id)
    requires k < |GroupData(was.job.value.plans, was.job.value.plans[p].group)|
    requires FileLost(m, burner.W(), was, p, k, file, discs)
    modifies m
    ensures m.Valid() && burner.Valid() && m.faults >= old(m.faults)
    ensures done ==> m.job.Some? && m.job.value.state == Retrieved && Back(m, burner.files[file])
    ensures m.faults == old(m.faults) ==> done
  {
    hide Inv;
    hide Lawful;
    hide Run;
    hide Recoverable;
    hide DryHits;
    hide GroupData;
    hide Lost;
    hide AtHand;
    hide SameCatalog;
    hide Initial;
    InitialInv(m.t, burner.trace[0]);
    forall l | moment <= l < |burner.trace| - 1
      ensures !DryHits(burner.trace[l], was.job.value.plans[p].id)
    {
      assert burner.trace[moment..][l - moment] == burner.trace[l];
    }
    FinishedStaysKept(m.t, burner.trace, moment, |burner.trace| - 1, p);
    ghost var job := was.job.value;
    done := RebuildFile(m, discs, file, burner.W(), job.plans[p].group, job.options,
                        GroupData(job.plans, job.plans[p].group), job.plans[p].id, k);
  }
}
