/** planJob in internal/burn/pipeline.go: from a staging listing to the discs of one job. */
module Plan {
  import opened Bytes
  import opened BinPack
  import opened DiskIds

  datatype Role = Data | Parity

  datatype Options = Options(
    mediaType: string, capacity: nat, parityPercent: nat, compress: bool, crossParity: bool,
    groupSize: int, dryRun: bool, prefix: string, filesystem: bool, target: string)

  /** The discs are optical media, which take no more than their capacity. */
  predicate Optical(opts: Options) {
    !opts.dryRun && !opts.filesystem
  }

  /** The discs are written to a file at `target`, on whatever medium is mounted there. */
  predicate ToTarget(opts: Options) {
    !opts.dryRun && opts.filesystem
  }

  /** `group` is "" for a disc outside any cross-disc parity group. */
  datatype DiscPlan = DiscPlan(id: DiskId, role: Role, group: string, slot: nat, bucket: Bucket)

  // ---- What planJob computes -------------------------------------------------

  function DataPlans(buckets: seq<Bucket>, ids: set<DiskId>, prefix: string): (plans: seq<DiscPlan>)
    ensures |plans| == |buckets|
  {
    seq(|buckets|, i requires 0 <= i < |buckets| =>
      DiscPlan(NextDiskID(ids, prefix, i), Data, "", 0, buckets[i]))
  }

  function Min(a: nat, b: nat): nat {
    if a <= b then a else b
  }

  function GroupSize(opts: Options): nat {
    if opts.groupSize <= 1 then 10 else opts.groupSize
  }

  /** One group: its data discs in slots 0, 1, ... */
  function Tagged(data: seq<DiscPlan>, group: string): (tagged: seq<DiscPlan>)
    ensures |tagged| == |data|
  {
    seq(|data|, i requires 0 <= i < |data| => data[i].(group := group, slot := i))
  }

  /**
   * Groups of `size` data discs, the last one possibly shorter, each closed by its parity
   * disc. `parity` numbers the parity discs: their IDs follow those of all data discs.
   */
  function Grouped(data: seq<DiscPlan>, size: nat, groups: seq<string>,
                   ids: set<DiskId>, prefix: string, parity: nat): seq<DiscPlan>
    requires size > 0
    decreases |data|
  {
    if data == [] || groups == [] then [] else
      var m := Min(size, |data|);
      Tagged(data[..m], groups[0])
      + [DiscPlan(NextDiskID(ids, prefix, parity), Parity, groups[0], m, Bucket([], 0))]
      + Grouped(data[m..], size, groups[1..], ids, prefix, parity + 1)
  }

  /** The group sizes for `n` data discs, as registered with NextGroupID. */
  function GroupSizes(n: nat, size: nat): seq<nat>
    requires size > 0
  {
    if n == 0 then [] else [Min(size, n)] + GroupSizes(n - Min(size, n), size)
  }

  /** Every group but the last is full, and no group is empty. */
  lemma {:induction false} GroupSizesFull(n: nat, size: nat, k: nat)
    requires size > 0 && k < |GroupSizes(n, size)|
    ensures 1 <= GroupSizes(n, size)[k] <= size
    ensures k < |GroupSizes(n, size)| - 1 ==> GroupSizes(n, size)[k] == size
  {
    if k > 0 {
      GroupSizesFull(n - Min(size, n), size, k - 1);
    }
  }

  /** What a successful planning pass returns and registers. */
  ghost predicate Planned(plans: seq<DiscPlan>, registered: seq<(string, nat)>, buckets: seq<Bucket>,
                          opts: Options, ids: set<DiskId>, uuids: seq<string>)
  {
    var data := DataPlans(buckets, ids, opts.prefix);
    if opts.crossParity then
      var sizes := GroupSizes(|buckets|, GroupSize(opts));
      && |sizes| <= |uuids|
      && registered == seq(|sizes|, k requires 0 <= k < |sizes| => (uuids[k], sizes[k]))
      && plans == Grouped(data, GroupSize(opts), uuids, ids, opts.prefix, |data|)
    else
      registered == [] && plans == data
  }

  /** A catalog query either answers or, unless the database is `calm`, may fail. */
  method Query(calm: bool) returns (ok: bool)
    ensures calm ==> ok
  {
    ok := true;
    if !calm {
      ok := *;
    }
  }

  /**
   * `uuids` are the group IDs the database will hand out; a call past the end of them
   * is a NextGroupID that failed. `registered` is what disk_groups received, even on failure;
   * `failed` tells whether a query did fail, which in a `calm` database none does.
   */
  method PlanJob(files: seq<FileInfo>, opts: Options, ids: set<DiskId>, uuids: seq<string>, calm: bool)
      returns (plans: Option<seq<DiscPlan>>, registered: seq<(string, nat)>, ghost failed: bool)
    ensures |registered| <= |uuids|
    ensures forall k :: 0 <= k < |registered| ==> registered[k].0 == uuids[k]
    ensures plans.None? <==> failed
    ensures calm && failed ==> |uuids| < |files|
    ensures plans.Some? ==>
      exists buckets ::
        && Packed(buckets, files, TargetDataSize(opts.capacity, opts.parityPercent))
        && Planned(plans.value, registered, buckets, opts, ids, uuids)
    ensures plans.Some? ==>
              var size := if opts.groupSize <= 1 then 10 else opts.groupSize;
              forall k :: 0 <= k < |registered| ==>
                1 <= registered[k].1 <= size && (k < |registered| - 1 ==> registered[k].1 == size)
  {
    registered := [];
    var buckets := Pack(files, TargetDataSize(opts.capacity, opts.parityPercent));
    BucketsAreFewer(buckets, files, TargetDataSize(opts.capacity, opts.parityPercent));
    hide Packed;
    var data;
    data, failed := AssignIds(buckets, opts.prefix, ids, calm);
    if data.None? {
      return None, [], failed;
    }
    if !opts.crossParity || data.value == [] {
      assert Planned(data.value, [], buckets, opts, ids, uuids);
      return data, [], failed;
    }
    var ok := Query(calm);
    if !ok {
      return None, [], true;
    }
    plans, registered, failed := GroupPlans(data.value, GroupSize(opts), opts.prefix, ids, uuids, calm);
    if plans.Some? {
      RegisteredSizes(registered, GroupSizes(|buckets|, GroupSize(opts)), uuids);
      assert Planned(plans.value, registered, buckets, opts, ids, uuids);
      forall k | 0 <= k < |registered|
        ensures 1 <= registered[k].1 <= GroupSize(opts) && (k < |registered| - 1 ==> registered[k].1 == GroupSize(opts))
      {
        GroupSizesFull(|buckets|, GroupSize(opts), k);
      }
    }
  }

  lemma RegisteredSizes(registered: seq<(string, nat)>, sizes: seq<nat>, uuids: seq<string>)
    requires Sizes(registered) == sizes && |registered| <= |uuids|
    requires forall k :: 0 <= k < |registered| ==> registered[k].0 == uuids[k]
    ensures registered == seq(|sizes|, k requires 0 <= k < |sizes| => (uuids[k], sizes[k]))
  {
    forall k | 0 <= k < |registered|
      ensures registered[k] == (uuids[k], sizes[k])
    {
      assert Sizes(registered)[k] == registered[k].1;
    }
  }

  /** The first loop of planJob: one ID per bucket. */
  method AssignIds(buckets: seq<Bucket>, prefix: string, ids: set<DiskId>, calm: bool)
      returns (plans: Option<seq<DiscPlan>>, ghost failed: bool)
    ensures plans.None? <==> failed
    ensures calm ==> !failed
    ensures plans.Some? ==> plans.value == DataPlans(buckets, ids, prefix)
  {
    var data: seq<DiscPlan> := [];
    var used := 0;
    for i := 0 to |buckets|
      invariant used == i && data == DataPlans(buckets, ids, prefix)[..i]
    {
      var ok := Query(calm);
      if !ok {
        return None, true;
      }
      data := data + [DiscPlan(NextDiskID(ids, prefix, used), Data, "", 0, buckets[i])];
      used := used + 1;
    }
    return Some(data), false;
  }

  /** The inner loop of planJob: the data discs of one group, tagged with group and slot. */
  method TagGroup(data: seq<DiscPlan>, start: nat, end: nat, group: string) returns (tagged: seq<DiscPlan>)
    requires start <= end <= |data|
    ensures tagged == Tagged(data[start..end], group)
  {
    tagged := [];
    for i := start to end
      invariant tagged == Tagged(data[start..end], group)[..i - start]
    {
      tagged := tagged + [data[i].(group := group, slot := i - start)];
    }
  }

  /** The second loop of planJob: groups of `size`, each closed by a parity disc. */
  method GroupPlans(data: seq<DiscPlan>, size: nat, prefix: string, ids: set<DiskId>, uuids: seq<string>, calm: bool)
      returns (plans: Option<seq<DiscPlan>>, registered: seq<(string, nat)>, ghost failed: bool)
    requires size > 0
    ensures plans.None? <==> failed
    ensures calm && failed ==> |uuids| < |data|
    ensures |registered| <= |uuids|
    ensures forall k :: 0 <= k < |registered| ==> registered[k].0 == uuids[k]
    ensures plans.Some? ==> Sizes(registered) == GroupSizes(|data|, size)
    ensures plans.Some? ==> plans.value == Grouped(data, size, uuids, ids, prefix, |data|)
  {
    hide Grouping;
    registered := [];
    var withGroups: seq<DiscPlan> := [];
    var used := |data|;
    var start := 0;
    GroupingStarts(data, size, ids, prefix, uuids);
    while start < |data|
      invariant used == |data| + |registered| && |registered| <= |uuids| && |registered| <= start
      invariant forall k :: 0 <= k < |registered| ==> registered[k].0 == uuids[k]
      invariant Grouping(withGroups, registered, start, data, size, ids, prefix, uuids)
      decreases |data| - start
    {
      var end := start + size;
      if end > |data| {
        end := |data|;
      }
      var ok := Query(calm);
      if !ok || |registered| == |uuids| {
        return None, registered, true;
      }
      var group := uuids[|registered|];
      registered := registered + [(group, end - start)];
      var tagged := TagGroup(data, start, end, group);
      ok := Query(calm);
      if !ok {
        return None, registered, true;
      }
      var parity := DiscPlan(NextDiskID(ids, prefix, used), Parity, group, end - start, Bucket([], 0));
      GroupingAdvances(withGroups, registered[..|registered| - 1], start, end, data, size, ids, prefix, uuids);
      assert registered[..|registered| - 1] + [(group, end - start)] == registered;
      withGroups := withGroups + (tagged + [parity]);
      used := used + 1;
      start := start + size;
    }
    GroupingEnds(withGroups, registered, start, data, size, ids, prefix, uuids);
    return Some(withGroups), registered, false;
  }

  /** What has been grouped so far, and what grouping the rest will add, make up the whole. */
  ghost predicate Grouping(withGroups: seq<DiscPlan>, registered: seq<(string, nat)>, start: nat,
                           data: seq<DiscPlan>, size: nat, ids: set<DiskId>, prefix: string, uuids: seq<string>)
    requires size > 0 && |registered| <= |uuids|
  {
    && Sizes(registered) + GroupSizes(|Rest(data, start)|, size) == GroupSizes(|data|, size)
    && withGroups + Grouped(Rest(data, start), size, uuids[|registered|..], ids, prefix, |data| + |registered|)
       == Grouped(data, size, uuids, ids, prefix, |data|)
  }

  lemma GroupingStarts(data: seq<DiscPlan>, size: nat, ids: set<DiskId>, prefix: string, uuids: seq<string>)
    requires size > 0
    ensures Grouping([], [], 0, data, size, ids, prefix, uuids)
  {
    assert Rest(data, 0) == data && uuids[0..] == uuids;
    hide Grouped;
    hide GroupSizes;
  }

  lemma GroupingEnds(withGroups: seq<DiscPlan>, registered: seq<(string, nat)>, start: nat,
                     data: seq<DiscPlan>, size: nat, ids: set<DiskId>, prefix: string, uuids: seq<string>)
    requires size > 0 && |registered| <= |uuids| && start >= |data|
    requires Grouping(withGroups, registered, start, data, size, ids, prefix, uuids)
    ensures Sizes(registered) == GroupSizes(|data|, size)
    ensures withGroups == Grouped(data, size, uuids, ids, prefix, |data|)
  {
    assert Rest(data, start) == [];
    NothingLeft(size, uuids[|registered|..], ids, prefix, |data| + |registered|);
    hide Grouped;
    hide GroupSizes;
  }

  lemma NothingLeft(size: nat, groups: seq<string>, ids: set<DiskId>, prefix: string, parity: nat)
    requires size > 0
    ensures GroupSizes(0, size) == []
    ensures Grouped([], size, groups, ids, prefix, parity) == []
  {
  }

  lemma GroupingAdvances(withGroups: seq<DiscPlan>, registered: seq<(string, nat)>, start: nat, end: nat,
                         data: seq<DiscPlan>, size: nat, ids: set<DiskId>, prefix: string, uuids: seq<string>)
    requires size > 0 && |registered| < |uuids| && start < |data| && end == Min(start + size, |data|)
    requires Grouping(withGroups, registered, start, data, size, ids, prefix, uuids)
    ensures var group := uuids[|registered|];
            Grouping(withGroups + (Tagged(data[start..end], group)
                       + [DiscPlan(NextDiskID(ids, prefix, |data| + |registered|), Parity, group, end - start,
                                   Bucket([], 0))]),
                     registered + [(group, end - start)], start + size, data, size, ids, prefix, uuids)
  {
    hide Grouped;
    hide GroupSizes;
    hide Tagged;
    hide NextDiskID;
    var n, used := |registered|, |data| + |registered|;
    var more := registered + [(uuids[n], end - start)];
    GroupedStep(data, start, end, size, uuids[n..], ids, prefix, used);
    assert Rest(data, start)[..end - start] == data[start..end];
    assert uuids[n..][0] == uuids[n] && uuids[n..][1..] == uuids[n + 1..];
    assert Sizes(more) == Sizes(registered) + [end - start];
    ConcatAssoc(withGroups, Tagged(data[start..end], uuids[n])
                + [DiscPlan(NextDiskID(ids, prefix, used), Parity, uuids[n], end - start, Bucket([], 0))],
                Grouped(Rest(data, start + size), size, uuids[n + 1..], ids, prefix, used + 1));
    ConcatAssoc(Sizes(registered), [end - start], GroupSizes(|Rest(data, start + size)|, size));
  }

  lemma ConcatAssoc<T>(a: seq<T>, b: seq<T>, c: seq<T>)
    ensures a + b + c == a + (b + c)
  {
  }

  function Sizes(registered: seq<(string, nat)>): (sizes: seq<nat>)
    ensures |sizes| == |registered|
  {
    seq(|registered|, k requires 0 <= k < |registered| => registered[k].1)
  }

  function Rest(data: seq<DiscPlan>, start: nat): seq<DiscPlan> {
    if start <= |data| then data[start..] else []
  }

  /** One turn of the grouping loop takes one group off the front. */
  lemma GroupedStep(data: seq<DiscPlan>, start: nat, end: nat, size: nat, groups: seq<string>,
                    ids: set<DiskId>, prefix: string, parity: nat)
    requires start < |data| && size > 0 && end == Min(start + size, |data|) && groups != []
    ensures Grouped(Rest(data, start), size, groups, ids, prefix, parity)
         == Tagged(Rest(data, start)[..end - start], groups[0])
            + [DiscPlan(NextDiskID(ids, prefix, parity), Parity, groups[0], end - start, Bucket([], 0))]
            + Grouped(Rest(data, start + size), size, groups[1..], ids, prefix, parity + 1)
    ensures GroupSizes(|Rest(data, start)|, size) == [end - start] + GroupSizes(|Rest(data, start + size)|, size)
  {
    var rest := Rest(data, start);
    var m := end - start;
    assert m == Min(size, |rest|);
    assert rest[m..] == Rest(data, start + size);
    hide Tagged;
    hide NextDiskID;
  }
}
