/** A planning pass over what is staged gives a job that may be started. */
module BurnStart {
  import opened Bytes
  import opened BinPack
  import opened DiskIds
  import opened Plan
  import opened PlanProps
  import opened Scan
  import opened BurnWorld
  import opened BurnCommit

  /** `plans` is what planJob makes of everything staged. */
  ghost predicate PlannedFor(plans: seq<DiscPlan>, registered: seq<(string, nat)>, staging: map<string, Bytes>,
                             opts: Options, ids: set<DiskId>, uuids: seq<string>)
  {
    exists files: seq<FileInfo>, buckets: seq<Bucket> ::
      && Listing(files, staging)
      && Packed(buckets, files, TargetDataSize(opts.capacity, opts.parityPercent))
      && Planned(plans, registered, buckets, opts, ids, uuids)
  }

  /** Every file on a plan is listed. */
  lemma PlannedFileIsListed(plans: seq<DiscPlan>, buckets: seq<Bucket>, files: seq<FileInfo>, target: int,
                            ids: set<DiskId>, prefix: string, j: nat, a: nat)
    requires Packed(buckets, files, target) && DataOf(plans) == DataPlans(buckets, ids, prefix)
    requires j < |plans| && plans[j].role == Data && a < |plans[j].bucket.files|
    ensures plans[j].bucket.files[a] in files
  {
    DataAt(plans, j);
    var k := |DataOf(plans[..j])|;
    var parts := Parts(buckets);
    assert plans[j].bucket == buckets[k];
    PartAt(parts, k);
    assert files[Start(parts, k)..Start(parts, k) + |parts[k]|][a] == files[Start(parts, k) + a];
  }

  /**
   * Whatever planJob returns for the staged files is a well-shaped plan list over them: each
   * staged file is on it, each planned file is staged with its true size.
   */
  lemma PlanningCovers(plans: seq<DiscPlan>, registered: seq<(string, nat)>, staging: map<string, Bytes>,
                       opts: Options, ids: set<DiskId>, uuids: seq<string>)
    requires PlannedFor(plans, registered, staging, opts, ids, uuids) && FreshGroups(uuids)
    ensures PlansOk(plans, opts, |Counted(ids, opts.prefix)|) && PlanCovers(plans, staging)
    ensures forall j :: 0 <= j < |plans| ==> plans[j].group == "" || plans[j].group in uuids
  {
    var target := TargetDataSize(opts.capacity, opts.parityPercent);
    hide TargetDataSize;
    hide Packed;
    hide Planned;
    hide PlansOk;
    hide PlanOk;
    var files: seq<FileInfo>, buckets: seq<Bucket> :| Listing(files, staging) && Packed(buckets, files, target)
                          && Planned(plans, registered, buckets, opts, ids, uuids);
    hide Listing;
    NoRepeats(files, staging);
    PlannedIsOk(plans, registered, buckets, files, target, opts, ids, uuids);
    ParityHoldsNoFiles(plans, opts, |Counted(ids, opts.prefix)|);
    hide *;
    CoversListing(plans, buckets, files, target, ids, opts.prefix, staging);
  }

  /** The files and their parity fit the capacity, or they are one too large file, after files of size 0 only. */
  ghost predicate FitsDisc(b: Bucket, capacity: nat, parityPercent: nat) {
    && b.files != [] && b.totalSize == Sum(b.files)
    && (b.totalSize * (100 + parityPercent) <= 100 * capacity
        || (AllZero(b.files[..|b.files| - 1]) && b.totalSize == b.files[|b.files| - 1].size))
  }

  /** The plan keeps within the medium, unless a single file is too large for any disc. */
  lemma PlannedDiscsFit(plans: seq<DiscPlan>, registered: seq<(string, nat)>, staging: map<string, Bytes>,
                        opts: Options, ids: set<DiskId>, uuids: seq<string>, j: nat)
    requires PlannedFor(plans, registered, staging, opts, ids, uuids) && FreshGroups(uuids)
    requires opts.capacity <= MAX_INT64 / 100 && opts.parityPercent <= 100
    requires j < |plans| && plans[j].role == Data
    ensures FitsDisc(plans[j].bucket, opts.capacity, opts.parityPercent)
  {
    var target := TargetDataSize(opts.capacity, opts.parityPercent);
    hide TargetDataSize;
    hide Planned;
    hide Packed;
    hide FitsDisc;
    hide DataOf;
    hide PlansOk;
    var files: seq<FileInfo>, buckets: seq<Bucket> :| Listing(files, staging) && Packed(buckets, files, target)
                          && Planned(plans, registered, buckets, opts, ids, uuids);
    hide Listing;
    NoRepeats(files, staging);
    PlannedIsOk(plans, registered, buckets, files, target, opts, ids, uuids);
    var k := BucketOfPlan(plans, buckets, ids, opts.prefix, j);
    PackedFits(buckets, files, opts.capacity, opts.parityPercent, k);
  }

  lemma PackedFits(buckets: seq<Bucket>, files: seq<FileInfo>, capacity: nat, parityPercent: nat, k: nat)
    requires Packed(buckets, files, TargetDataSize(capacity, parityPercent)) && k < |buckets|
    requires capacity <= MAX_INT64 / 100 && parityPercent <= 100
    ensures FitsDisc(buckets[k], capacity, parityPercent)
  {
    hide NextFit;
    hide TargetDataSize;
    BucketFitsDisc(buckets, files, capacity, parityPercent, k);
    assert buckets[k] in buckets;
  }

  lemma BucketOfPlan(plans: seq<DiscPlan>, buckets: seq<Bucket>, ids: set<DiskId>, prefix: string, j: nat)
      returns (k: nat)
    requires DataOf(plans) == DataPlans(buckets, ids, prefix) && j < |plans| && plans[j].role == Data
    ensures k < |buckets| && plans[j].bucket == buckets[k]
  {
    DataAt(plans, j);
    k := |DataOf(plans[..j])|;
  }

  lemma CoversListing(plans: seq<DiscPlan>, buckets: seq<Bucket>, files: seq<FileInfo>, target: int,
                      ids: set<DiskId>, prefix: string, staging: map<string, Bytes>)
    requires Packed(buckets, files, target) && DataOf(plans) == DataPlans(buckets, ids, prefix)
    requires Listing(files, staging)
    requires forall j :: 0 <= j < |plans| && plans[j].role == Parity ==> plans[j].bucket.files == []
    ensures PlanCovers(plans, staging)
  {
    hide Packed;
    hide DataOf;
    hide DataPlans;
    hide Sorted;
    forall j, a | 0 <= j < |plans| && 0 <= a < |plans[j].bucket.files|
      ensures plans[j].bucket.files[a] in files
    {
      PlannedFileIsListed(plans, buckets, files, target, ids, prefix, j, a);
    }
    forall path | path in staging
      ensures OnSomePlan(plans, path)
    {
      assert Lists(files, path);
      var pos :| 0 <= pos < |files| && files[pos].path == path;
      var j, a := FilesAreCovered(plans, buckets, files, target, ids, prefix, pos);
    }
  }

  lemma NoRepeats(files: seq<FileInfo>, staging: map<string, Bytes>)
    requires Listing(files, staging)
    ensures DistinctPaths(files)
  {
    forall i, j | 0 <= i < j < |files|
      ensures files[i].path != files[j].path
    {
      ListingHasNoRepeats(files, staging, i, j);
    }
  }

  /** No more files are listed than staged. */
  lemma ListingSize(files: seq<FileInfo>, staging: map<string, Bytes>)
    requires Listing(files, staging)
    ensures |files| <= |staging|
  {
    NoRepeats(files, staging);
    ListedSize(files, staging.Keys);
  }

  lemma {:induction false} ListedSize(files: seq<FileInfo>, paths: set<string>)
    requires DistinctPaths(files) && forall i :: 0 <= i < |files| ==> files[i].path in paths
    ensures |files| <= |paths|
  {
    if files != [] {
      var n := |files| - 1;
      ListedSize(files[..n], paths - {files[n].path});
    }
  }

  lemma ParityHoldsNoFiles(plans: seq<DiscPlan>, opts: Options, base: nat)
    requires PlansOk(plans, opts, base)
    ensures forall j :: 0 <= j < |plans| && plans[j].role == Parity ==> plans[j].bucket.files == []
  {
    forall j | 0 <= j < |plans| && plans[j].role == Parity
      ensures plans[j].bucket.files == []
    {
      assert PlanOk(plans[j], opts, base, j, |plans|);
    }
  }

  /** Grouping uses one group ID per group, in order. */
  lemma {:induction false} GroupedUsesFirst(data: seq<DiscPlan>, size: nat, groups: seq<string>, ids: set<DiskId>,
                                            prefix: string, parity: nat, n: nat)
    requires size > 0 && n == |GroupSizes(|data|, size)| <= |groups|
    ensures Grouped(data, size, groups[..n], ids, prefix, parity) == Grouped(data, size, groups, ids, prefix, parity)
    decreases |data|
  {
    hide Grouped;
    hide GroupSizes;
    if data == [] {
      NothingLeft(size, groups, ids, prefix, parity);
      NothingLeft(size, groups[..n], ids, prefix, parity);
    } else {
      GroupedCons(data, size, groups, ids, prefix, parity);
      GroupedCons(data, size, groups[..n], ids, prefix, parity);
      GroupedUsesFirst(data[Min(size, |data|)..], size, groups[1..], ids, prefix, parity + 1, n - 1);
      assert groups[..n][1..] == groups[1..][..n - 1];
    }
  }

  /** Every group on the plans was registered. */
  lemma GroupsRegistered(plans: seq<DiscPlan>, registered: seq<(string, nat)>, staging: map<string, Bytes>,
                         opts: Options, ids: set<DiskId>, uuids: seq<string>)
    requires PlannedFor(plans, registered, staging, opts, ids, uuids) && FreshGroups(uuids)
    ensures forall j :: 0 <= j < |plans| && plans[j].group != "" ==> plans[j].group in (set r <- registered :: r.0)
  {
    hide Grouped;
    hide GroupSizes;
    hide PlansOk;
    hide PlanCovers;
    hide Packed;
    hide Listing;
    hide TargetDataSize;
    var first := uuids[..|registered|];
    var files: seq<FileInfo>, buckets: seq<Bucket> :|
      && Listing(files, staging) && Packed(buckets, files, TargetDataSize(opts.capacity, opts.parityPercent))
      && Planned(plans, registered, buckets, opts, ids, uuids);
    if opts.crossParity {
      GroupedUsesFirst(DataPlans(buckets, ids, opts.prefix), GroupSize(opts), uuids, ids, opts.prefix, |buckets|,
                       |registered|);
      assert Planned(plans, registered, buckets, opts, ids, first);
      PlanningCovers(plans, registered, staging, opts, ids, first);
      forall k | 0 <= k < |first|
        ensures first[k] in (set r <- registered :: r.0)
      {
        assert registered[k].0 == first[k];
      }
    }
  }

  /** An empty plan list means that nothing is staged. */
  lemma NothingPlanned(registered: seq<(string, nat)>, staging: map<string, Bytes>,
                       opts: Options, ids: set<DiskId>, uuids: seq<string>)
    requires PlannedFor([], registered, staging, opts, ids, uuids) && FreshGroups(uuids)
    ensures staging == map[]
  {
    PlanningCovers([], registered, staging, opts, ids, uuids);
    hide PlannedFor;
    assert forall path :: !OnSomePlan([], path);
    assert forall path :: path !in staging;
  }

  // ---- Registered group sizes ---------------------------------------------------------------

  lemma {:induction false} GroupDataOfTagged(data: seq<DiscPlan>, tagged: seq<DiscPlan>, group: string, other: string)
    requires Plain(data) && |tagged| == |data|
    requires forall i :: 0 <= i < |data| ==> tagged[i].group == group && tagged[i].role == data[i].role
    ensures |GroupData(tagged, other)| == if other == group then |data| else 0
  {
    if data != [] {
      assert data[0].role == Data;
      GroupDataOfTagged(data[1..], tagged[1..], group, other);
    }
  }

  lemma GroupDataOfBlock(data: seq<DiscPlan>, group: string, parity: DiskId, other: string)
    requires Plain(data)
    ensures |GroupData(BlockOf(data, group, parity), other)| == if other == group then |data| else 0
  {
    var tagged, last := Tagged(data, group), DiscPlan(parity, Parity, group, |data|, Bucket([], 0));
    GroupDataOfTagged(data, tagged, group, other);
    GroupDataConcat(tagged, [last], other);
    assert [last][1..] == [];
  }

  /** A group on the plans has as many data discs as were registered for it. */
  lemma {:induction false} GroupHasRegisteredSize(data: seq<DiscPlan>, size: nat, groups: seq<string>,
                                                  ids: set<DiskId>, prefix: string, parity: nat, k: nat)
    requires size > 0 && Plain(data) && FreshGroups(groups) && |GroupSizes(|data|, size)| <= |groups|
    requires k < |groups|
    ensures |GroupData(Grouped(data, size, groups, ids, prefix, parity), groups[k])|
         == if k < |GroupSizes(|data|, size)| then GroupSizes(|data|, size)[k] else 0
    decreases |data|
  {
    hide Grouped;
    hide GroupData;
    hide NextDiskID;
    if data == [] {
      NothingLeft(size, groups, ids, prefix, parity);
      NoGroupData(groups[k]);
    } else {
      var m := Min(size, |data|);
      GroupedCons(data, size, groups, ids, prefix, parity);
      var block := BlockOf(data[..m], groups[0], NextDiskID(ids, prefix, parity));
      var rest := Grouped(data[m..], size, groups[1..], ids, prefix, parity + 1);
      GroupDataConcat(block, rest, groups[k]);
      GroupDataOfBlock(data[..m], groups[0], NextDiskID(ids, prefix, parity), groups[k]);
      FreshGroupsTail(groups);
      if k > 0 {
        GroupHasRegisteredSize(data[m..], size, groups[1..], ids, prefix, parity + 1, k - 1);
      } else {
        GroupAbsent(data[m..], size, groups[1..], ids, prefix, parity + 1, groups[0]);
      }
    }
  }

  lemma {:induction false} GroupAbsent(data: seq<DiscPlan>, size: nat, groups: seq<string>,
                                       ids: set<DiskId>, prefix: string, parity: nat, other: string)
    requires size > 0 && Plain(data) && |GroupSizes(|data|, size)| <= |groups| && other !in groups
    ensures GroupData(Grouped(data, size, groups, ids, prefix, parity), other) == []
    decreases |data|
  {
    hide Grouped;
    hide GroupData;
    hide NextDiskID;
    if data == [] {
      NothingLeft(size, groups, ids, prefix, parity);
      NoGroupData(other);
    } else {
      var m := Min(size, |data|);
      GroupedCons(data, size, groups, ids, prefix, parity);
      var block := BlockOf(data[..m], groups[0], NextDiskID(ids, prefix, parity));
      GroupDataConcat(block, Grouped(data[m..], size, groups[1..], ids, prefix, parity + 1), other);
      GroupDataOfBlock(data[..m], groups[0], NextDiskID(ids, prefix, parity), other);
      GroupAbsent(data[m..], size, groups[1..], ids, prefix, parity + 1, other);
    }
  }

  lemma NoGroupData(group: string)
    ensures GroupData([], group) == []
  {
  }

  /** What NextGroupID was told is the number of data discs of the group. */
  lemma RegisteredSizesAreTrue(plans: seq<DiscPlan>, registered: seq<(string, nat)>, buckets: seq<Bucket>,
                               opts: Options, ids: set<DiskId>, uuids: seq<string>, k: nat)
    requires Planned(plans, registered, buckets, opts, ids, uuids) && FreshGroups(uuids)
    requires opts.crossParity && k < |registered|
    ensures registered[k].0 == uuids[k] && |GroupData(plans, uuids[k])| == registered[k].1
    ensures var size := if opts.groupSize <= 1 then 10 else opts.groupSize;
            1 <= registered[k].1 <= size && (k < |registered| - 1 ==> registered[k].1 == size)
  {
    PlainData(buckets, ids, opts.prefix);
    hide GroupData;
    hide Grouped;
    GroupHasRegisteredSize(DataPlans(buckets, ids, opts.prefix), GroupSize(opts), uuids, ids, opts.prefix, |buckets|,
                           k);
    GroupSizesFull(|buckets|, GroupSize(opts), k);
  }

  /** planJob's two calls: scan, then plan. */
  method PlanStaged(staging: map<string, Bytes>, opts: Options, ids: set<DiskId>, uuids: seq<string>, calm: bool)
      returns (plans: Option<seq<DiscPlan>>, registered: seq<(string, nat)>, ghost failed: bool)
    ensures |registered| <= |uuids|
    ensures forall k :: 0 <= k < |registered| ==> registered[k].0 == uuids[k]
    ensures plans.None? <==> failed
    ensures calm && failed ==> |uuids| < |staging|
    ensures plans.Some? ==> PlannedFor(plans.value, registered, staging, opts, ids, uuids)
  {
    hide Packed;
    hide Planned;
    hide Listing;
    var files := ScanStaging(staging);
    ListingSize(files, staging);
    plans, registered, failed := PlanJob(files, opts, ids, uuids, calm);
  }
}
