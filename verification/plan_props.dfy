/** What the plan list of one job looks like: IDs, groups, slots and files. */
module PlanProps {
  import opened BinPack
  import opened DiskIds
  import opened Plan

  // ---- Group sizes -----------------------------------------------------------

  /** One parity disc per group: the number of groups is `n / size` rounded up. */
  lemma {:induction false} GroupCountIsCeiling(n: nat, size: nat)
    requires size > 0
    ensures |GroupSizes(n, size)| == (n + size - 1) / size
  {
    if n > size {
      GroupCountIsCeiling(n - size, size);
      assert (n + size - 1) / size == (n - size + size - 1) / size + 1 by {
        DivStep(n - 1, size);
      }
    } else if n > 0 {
      assert GroupSizes(n, size) == [n] + GroupSizes(0, size);
      DivStep(n - 1, size);
    }
  }

  lemma DivStep(a: nat, d: nat)
    requires d > 0
    ensures (a + d) / d == a / d + 1
    ensures a < d ==> a / d == 0
  {
    DivBounds(a + d, d);
    DivBounds(a, d);
    assert (a / d + 1) * d == a / d * d + d;
    BetweenMultiples((a + d) / d, a / d + 1, a + d, d);
  }

  /** A number lies between only one pair of neighbouring multiples. */
  lemma BetweenMultiples(p: nat, q: nat, x: nat, d: nat)
    requires d > 0 && p * d <= x < p * d + d && q * d <= x < q * d + d
    ensures p == q
  {
    assert (p + 1) * d == p * d + d && (q + 1) * d == q * d + d;
    CancelFactor(p, q + 1, d);
    CancelFactor(q, p + 1, d);
  }

  lemma DivBounds(a: nat, d: nat)
    requires d > 0
    ensures a / d * d <= a < a / d * d + d
  {
  }

  // ---- Erasing parity --------------------------------------------------------

  /** The data discs of a plan list, with their group and slot forgotten. */
  function DataOf(plans: seq<DiscPlan>): seq<DiscPlan> {
    if plans == [] then []
    else (if plans[0].role == Data then [plans[0].(group := "", slot := 0)] else []) + DataOf(plans[1..])
  }

  lemma {:induction false} DataOfConcat(a: seq<DiscPlan>, b: seq<DiscPlan>)
    ensures DataOf(a + b) == DataOf(a) + DataOf(b)
  {
    if a == [] {
      assert a + b == b;
    } else {
      assert (a + b)[0] == a[0] && (a + b)[1..] == a[1..] + b;
      DataOfConcat(a[1..], b);
      ConcatAssoc(DataOf([a[0]]), DataOf(a[1..]), DataOf(b));
      assert DataOf([a[0]]) == if a[0].role == Data then [a[0].(group := "", slot := 0)] else [] by {
        assert [a[0]][1..] == [];
      }
    }
  }

  ghost predicate Plain(data: seq<DiscPlan>) {
    forall i :: 0 <= i < |data| ==> data[i].role == Data && data[i].group == "" && data[i].slot == 0
  }

  /** Group IDs as the database hands them out: non-empty and all different. */
  ghost predicate FreshGroups(groups: seq<string>) {
    "" !in groups && forall i, j :: 0 <= i < j < |groups| ==> groups[i] != groups[j]
  }

  lemma FreshGroupsTail(groups: seq<string>)
    requires FreshGroups(groups) && groups != []
    ensures FreshGroups(groups[1..]) && groups[0] !in groups[1..]
  {
  }

  lemma {:induction false} DataOfTagged(data: seq<DiscPlan>, tagged: seq<DiscPlan>, group: string)
    requires Plain(data) && |tagged| == |data|
    requires forall i :: 0 <= i < |data| ==> tagged[i].(slot := 0, group := "") == data[i]
    ensures DataOf(tagged) == data
  {
    if data != [] {
      assert tagged[0].(slot := 0, group := "") == data[0];
      forall i | 0 <= i < |data[1..]|
        ensures tagged[1..][i].(slot := 0, group := "") == data[1..][i]
      {
        assert tagged[i + 1].(slot := 0, group := "") == data[i + 1];
      }
      DataOfTagged(data[1..], tagged[1..], group);
    }
  }

  /** Erasing the parity discs gives back the packed buckets, in order. */
  lemma {:induction false} ErasingParity(data: seq<DiscPlan>, size: nat, groups: seq<string>,
                                         ids: set<DiskId>, prefix: string, parity: nat)
    requires size > 0 && Plain(data) && |GroupSizes(|data|, size)| <= |groups|
    ensures DataOf(Grouped(data, size, groups, ids, prefix, parity)) == data
    ensures |Grouped(data, size, groups, ids, prefix, parity)| == |data| + |GroupSizes(|data|, size)|
    decreases |data|
  {
    hide Grouped;
    hide GroupSizes;
    hide Tagged;
    hide DataOf;
    if data == [] {
      NothingLeft(size, groups, ids, prefix, parity);
      DataOfNothing();
    } else {
      var m := Min(size, |data|);
      GroupedCons(data, size, groups, ids, prefix, parity);
      ErasingParity(data[m..], size, groups[1..], ids, prefix, parity + 1);
      DataOfBlock(data[..m], groups[0], NextDiskID(ids, prefix, parity));
      DataOfConcat(BlockOf(data[..m], groups[0], NextDiskID(ids, prefix, parity)),
                   Grouped(data[m..], size, groups[1..], ids, prefix, parity + 1));
      assert data == data[..m] + data[m..];
    }
  }

  lemma DataOfNothing()
    ensures DataOf([]) == []
  {
  }

  /** One group: its data discs and the parity disc that closes it. */
  function BlockOf(data: seq<DiscPlan>, group: string, parity: DiskId): (block: seq<DiscPlan>)
    ensures |block| == |data| + 1
  {
    Tagged(data, group) + [DiscPlan(parity, Parity, group, |data|, Bucket([], 0))]
  }

  lemma DataOfBlock(data: seq<DiscPlan>, group: string, parity: DiskId)
    requires Plain(data)
    ensures DataOf(BlockOf(data, group, parity)) == data
  {
    var last := DiscPlan(parity, Parity, group, |data|, Bucket([], 0));
    forall i | 0 <= i < |data|
      ensures Tagged(data, group)[i].(slot := 0, group := "") == data[i]
    {
      assert data[i].role == Data;
    }
    DataOfTagged(data, Tagged(data, group), group);
    DataOfConcat(Tagged(data, group), [last]);
    assert DataOf([last]) == [] by {
      assert [last][1..] == [];
    }
  }

  lemma GroupedCons(data: seq<DiscPlan>, size: nat, groups: seq<string>,
                    ids: set<DiskId>, prefix: string, parity: nat)
    requires size > 0 && data != [] && |GroupSizes(|data|, size)| <= |groups|
    ensures groups != []
    ensures var m := Min(size, |data|);
            && Grouped(data, size, groups, ids, prefix, parity)
               == BlockOf(data[..m], groups[0], NextDiskID(ids, prefix, parity))
                  + Grouped(data[m..], size, groups[1..], ids, prefix, parity + 1)
            && |GroupSizes(|data|, size)| == |GroupSizes(|data[m..]|, size)| + 1
            && (m < size ==> Grouped(data[m..], size, groups[1..], ids, prefix, parity + 1) == [])
  {
    hide Tagged;
    hide NextDiskID;
    var m := Min(size, |data|);
    assert |data[m..]| == |data| - m;
  }

  // ---- The shape of a plan list ------------------------------------------------

  /** One disc of a job of `total` discs planned over `base` catalogued ones, at position `j`. */
  ghost predicate PlanOk(p: DiscPlan, opts: Options, base: nat, j: nat, total: nat) {
    && p.id.prefix == opts.prefix
    && base < p.id.number <= base + total
    && (opts.crossParity <==> p.group != "")
    && (p.role == Data ==> p.id.number <= base + j + 1 && p.bucket.files != [])
    && (p.role == Parity ==> opts.crossParity && p.bucket.files == [] && 1 <= p.slot)
  }

  /** Two discs of a job, the first planned earlier. */
  ghost predicate Apart(p: DiscPlan, q: DiscPlan) {
    && p.id != q.id
    && (p.group != "" && p.group == q.group ==> p.role == Data && p.slot < q.slot)
  }

  /** Neighbours: a group goes on until its parity disc and does not come back. */
  ghost predicate Follows(plans: seq<DiscPlan>, j: nat)
    requires 0 < j < |plans|
  {
    if plans[j - 1].group != "" && plans[j - 1].role == Data then
      plans[j].group == plans[j - 1].group && plans[j].slot == plans[j - 1].slot + 1
    else
      && plans[j].role == Data && plans[j].slot == 0
      && forall i :: 0 <= i < j ==> plans[i].group == "" || plans[i].group != plans[j].group
  }

  ghost predicate Shaped(plans: seq<DiscPlan>, opts: Options) {
    && (forall i, j :: 0 <= i < j < |plans| ==> Apart(plans[i], plans[j]))
    && (forall j :: 0 < j < |plans| ==> Follows(plans, j))
    && (plans != [] ==> plans[0].role == Data && plans[0].slot == 0)
    && (plans != [] && opts.crossParity ==> plans[|plans| - 1].role == Parity)
  }

  /** A full group's parity disc sits at slot `size`; only the last group may be shorter. */
  ghost predicate Sized(plans: seq<DiscPlan>, size: nat) {
    forall j :: 0 <= j < |plans| ==>
      && plans[j].slot <= size
      && (plans[j].role == Data ==> plans[j].slot < size)
      && (plans[j].role == Parity ==> plans[j].slot == size || j == |plans| - 1)
  }

  /** No path is planned twice. */
  ghost predicate DistinctFiles(plans: seq<DiscPlan>) {
    forall i, a, j, b ::
      0 <= i < |plans| && 0 <= a < |plans[i].bucket.files|
      && 0 <= j < |plans| && 0 <= b < |plans[j].bucket.files|
      && plans[i].bucket.files[a].path == plans[j].bucket.files[b].path
      ==> i == j && a == b
  }

  ghost predicate PlansOk(plans: seq<DiscPlan>, opts: Options, base: nat) {
    && (forall j :: 0 <= j < |plans| ==> PlanOk(plans[j], opts, base, j, |plans|))
    && Shaped(plans, opts)
    && Sized(plans, GroupSize(opts))
    && DistinctFiles(plans)
    && Numbered(plans, base)
  }

  // ---- Groups ------------------------------------------------------------------

  ghost predicate Consecutive(data: seq<DiscPlan>, prefix: string, lo: nat) {
    forall i :: 0 <= i < |data| ==> data[i].id == DiskId(prefix, lo + i)
  }

  /** Where each disc of a grouped list comes from. */
  ghost predicate Origin(p: DiscPlan, j: nat, lo: nat, n: nat, hi: nat, k: nat, groups: seq<string>) {
    && p.group in groups
    && (p.role == Data ==> lo <= p.id.number < lo + n && p.id.number <= lo + j)
    && (p.role == Parity ==> hi <= p.id.number < hi + k && p.bucket.files == [] && 1 <= p.slot)
  }

  /** One group on its own: `m` data discs numbered from `lo`, then the parity disc numbered `hi`. */
  ghost predicate Block(block: seq<DiscPlan>, m: nat, group: string, prefix: string, lo: nat, hi: nat) {
    && 1 <= m && |block| == m + 1
    && (forall j :: 0 <= j <= m ==> block[j].group == group && block[j].slot == j && block[j].id.prefix == prefix)
    && (forall j :: 0 <= j < m ==> block[j].role == Data && block[j].id.number == lo + j)
    && block[m].role == Parity && block[m].id.number == hi && block[m].bucket.files == []
  }

  ghost predicate Origins(plans: seq<DiscPlan>, prefix: string, lo: nat, n: nat, hi: nat, k: nat, groups: seq<string>) {
    forall j :: 0 <= j < |plans| ==> plans[j].id.prefix == prefix && Origin(plans[j], j, lo, n, hi, k, groups)
  }

  /** A grouped list of `n` data discs numbered from `lo` and `k` parity discs numbered from `hi`. */
  ghost predicate GroupedOk(plans: seq<DiscPlan>, opts: Options, size: nat, lo: nat, n: nat, hi: nat, k: nat,
                            groups: seq<string>)
  {
    Shaped(plans, opts) && Sized(plans, size) && Origins(plans, opts.prefix, lo, n, hi, k, groups)
  }

  lemma {:induction false} GroupedShape(plans: seq<DiscPlan>, data: seq<DiscPlan>, size: nat, groups: seq<string>,
                                        ids: set<DiskId>, opts: Options, parity: nat, lo: nat, hi: nat, k: nat)
    requires size > 0 && opts.crossParity && Plain(data) && Consecutive(data, opts.prefix, lo)
    requires k == |GroupSizes(|data|, size)| <= |groups| && FreshGroups(groups)
    requires hi == NextDiskID(ids, opts.prefix, parity).number && lo + |data| <= hi
    requires plans == Grouped(data, size, groups, ids, opts.prefix, parity)
    ensures GroupedOk(plans, opts, size, lo, |data|, hi, k, groups)
    decreases |data|
  {
    var m := Min(size, |data|);
    assert data != [] ==> 1 <= m <= |data| && m <= size;
    hide *;
    if data == [] {
      NothingLeft(size, groups, ids, opts.prefix, parity);
      NothingShaped(opts, size, lo, hi, groups);
    } else {
      GroupedCons(data, size, groups, ids, opts.prefix, parity);
      var id := NextDiskID(ids, opts.prefix, parity);
      var head, tail, later := data[..m], data[m..], groups[1..];
      var block, rest := BlockOf(head, groups[0], id), Grouped(tail, size, later, ids, opts.prefix, parity + 1);
      NextIdStep(ids, opts.prefix, parity);
      PlainSplit(data, m, opts.prefix, lo);
      FreshGroupsTail(groups);
      GroupedShape(rest, tail, size, later, ids, opts, parity + 1, lo + m, hi + 1, k - 1);
      BlockShape(head, groups[0], id, opts.prefix, lo);
      BlockThenRest(plans, block, rest, |head|, size, groups, later, opts, lo, |data|, hi, k,
                    lo + m, |tail|, hi + 1, k - 1);
    }
  }

  lemma NextIdStep(ids: set<DiskId>, prefix: string, n: nat)
    ensures NextDiskID(ids, prefix, n).prefix == prefix
    ensures NextDiskID(ids, prefix, n + 1).number == NextDiskID(ids, prefix, n).number + 1
  {
  }

  lemma PlainSplit(data: seq<DiscPlan>, m: nat, prefix: string, lo: nat)
    requires Plain(data) && Consecutive(data, prefix, lo) && m <= |data|
    ensures Plain(data[..m]) && Consecutive(data[..m], prefix, lo)
    ensures Plain(data[m..]) && Consecutive(data[m..], prefix, lo + m)
  {
  }

  lemma NothingShaped(opts: Options, size: nat, lo: nat, hi: nat, groups: seq<string>)
    ensures GroupedOk([], opts, size, lo, 0, hi, 0, groups)
  {
  }

  lemma BlockShape(data: seq<DiscPlan>, group: string, parity: DiskId, prefix: string, lo: nat)
    requires data != [] && Plain(data) && Consecutive(data, prefix, lo) && parity.prefix == prefix
    ensures Block(BlockOf(data, group, parity), |data|, group, prefix, lo, parity.number)
  {
    var tagged := Tagged(data, group);
    forall j | 0 <= j < |data|
      ensures tagged[j].role == Data && tagged[j].id == DiskId(parity.prefix, lo + j)
    {
      assert tagged[j] == data[j].(group := group, slot := j);
    }
  }

  lemma BlockThenRest(plans: seq<DiscPlan>, block: seq<DiscPlan>, rest: seq<DiscPlan>, m: nat, size: nat,
                      groups: seq<string>, later: seq<string>, opts: Options, lo: nat, n: nat, hi: nat, k: nat,
                      lo1: nat, n1: nat, hi1: nat, k1: nat)
    requires plans == block + rest
    requires lo1 == lo + m && n1 == n - m && hi1 == hi + 1 && k == k1 + 1
    requires groups != [] && FreshGroups(groups) && m <= size && m <= n && lo + n <= hi
    requires opts.crossParity && (rest != [] ==> m == size)
    requires Block(block, m, groups[0], opts.prefix, lo, hi)
    requires later == groups[1..] && GroupedOk(rest, opts, size, lo1, n1, hi1, k1, later)
    ensures GroupedOk(plans, opts, size, lo, n, hi, k, groups)
  {
    FreshGroupsTail(groups);
    hide FreshGroups;
    BlockThenRestOrigins(block, rest, m, groups, opts.prefix, lo, n, hi, k1);
    BlockThenRestApart(block, rest, m, groups, opts.prefix, lo, n, hi, k1);
    BlockThenRestFollows(block, rest, m, groups, opts.prefix, lo, n, hi, k1);
    forall j | 0 <= j < |plans|
      ensures plans[j].slot <= size
      ensures plans[j].role == Data ==> plans[j].slot < size
      ensures plans[j].role == Parity ==> plans[j].slot == size || j == |plans| - 1
    {
      if j > m {
        assert rest[j - m - 1].slot <= size;
      }
    }
  }

  lemma BlockThenRestFollows(block: seq<DiscPlan>, rest: seq<DiscPlan>, m: nat, groups: seq<string>,
                             prefix: string, lo: nat, n: nat, hi: nat, k: nat)
    requires groups != [] && groups[0] != "" && groups[0] !in groups[1..] && m <= n
    requires Block(block, m, groups[0], prefix, lo, hi)
    requires Origins(rest, prefix, lo + m, n - m, hi + 1, k, groups[1..])
    requires rest != [] ==> rest[0].role == Data && rest[0].slot == 0
    requires forall j :: 0 < j < |rest| ==> Follows(rest, j)
    ensures forall j :: 0 < j < |block + rest| ==> Follows(block + rest, j)
  {
    var plans := block + rest;
    forall j | 0 < j < |plans|
      ensures Follows(plans, j)
    {
      if j > m + 1 {
        assert Follows(rest, j - m - 1);
        FollowsLater(block, rest, m, groups, j);
      } else if j == m + 1 {
        assert rest[0].group in groups[1..];
      }
    }
  }

  lemma BlockThenRestOrigins(block: seq<DiscPlan>, rest: seq<DiscPlan>, m: nat, groups: seq<string>,
                             prefix: string, lo: nat, n: nat, hi: nat, k: nat)
    requires groups != [] && m <= n
    requires Block(block, m, groups[0], prefix, lo, hi)
    requires Origins(rest, prefix, lo + m, n - m, hi + 1, k, groups[1..])
    ensures Origins(block + rest, prefix, lo, n, hi, k + 1, groups)
  {
    var plans := block + rest;
    assert groups[0] in groups;
    forall j | 0 <= j < |plans|
      ensures plans[j].id.prefix == prefix && Origin(plans[j], j, lo, n, hi, k + 1, groups)
    {
      if j > m {
        assert Origin(rest[j - m - 1], j - m - 1, lo + m, n - m, hi + 1, k, groups[1..]);
      }
    }
  }

  lemma BlockThenRestApart(block: seq<DiscPlan>, rest: seq<DiscPlan>, m: nat, groups: seq<string>,
                           prefix: string, lo: nat, n: nat, hi: nat, k: nat)
    requires groups != [] && groups[0] !in groups[1..] && m <= n && lo + n <= hi
    requires Block(block, m, groups[0], prefix, lo, hi)
    requires Origins(rest, prefix, lo + m, n - m, hi + 1, k, groups[1..])
    requires forall i, j :: 0 <= i < j < |rest| ==> Apart(rest[i], rest[j])
    ensures forall i, j :: 0 <= i < j < |block + rest| ==> Apart((block + rest)[i], (block + rest)[j])
  {
    var plans := block + rest;
    forall i, j | 0 <= i < j < |plans|
      ensures Apart(plans[i], plans[j])
    {
      if i > m {
        assert Apart(rest[i - m - 1], rest[j - m - 1]);
      } else if j > m {
        assert Origin(rest[j - m - 1], j - m - 1, lo + m, n - m, hi + 1, k, groups[1..]);
      }
    }
  }

  lemma FollowsLater(block: seq<DiscPlan>, rest: seq<DiscPlan>, m: nat, groups: seq<string>, j: nat)
    requires |block| == m + 1 && m + 1 < j < |block + rest|
    requires groups != [] && groups[0] !in groups[1..]
    requires forall i :: 0 <= i <= m ==> block[i].group == groups[0]
    requires rest[j - m - 1].group in groups[1..]
    requires Follows(rest, j - m - 1)
    ensures Follows(block + rest, j)
  {
    var plans := block + rest;
    forall i | 0 <= i < j
      ensures plans[i].group == if i <= m then groups[0] else rest[i - m - 1].group
    {
    }
  }

  // ---- Files ---------------------------------------------------------------------

  /** The listing of the staging directory names every file once. */
  ghost predicate DistinctPaths(files: seq<FileInfo>) {
    forall i, j :: 0 <= i < j < |files| ==> files[i].path != files[j].path
  }

  /** Data disc `j` is the data disc with as many data discs before it. */
  lemma DataAt(plans: seq<DiscPlan>, j: nat)
    requires j < |plans| && plans[j].role == Data
    ensures |DataOf(plans[..j])| < |DataOf(plans)|
    ensures DataOf(plans)[|DataOf(plans[..j])|] == plans[j].(group := "", slot := 0)
    ensures |DataOf(plans[..j + 1])| == |DataOf(plans[..j])| + 1
  {
    var before, here, after := plans[..j], [plans[j]], plans[j + 1..];
    assert plans == before + here + after && plans[..j + 1] == before + here;
    DataOfConcat(before + here, after);
    DataOfConcat(before, here);
    assert DataOf(here) == [plans[j].(group := "", slot := 0)] by {
      assert here[1..] == [];
    }
  }

  lemma DataBefore(plans: seq<DiscPlan>, i: nat, j: nat)
    requires i <= j <= |plans|
    ensures |DataOf(plans[..i])| <= |DataOf(plans[..j])|
  {
    assert plans[..j] == plans[..i] + plans[i..j];
    DataOfConcat(plans[..i], plans[i..j]);
  }

  lemma StartOrder(parts: seq<seq<FileInfo>>, i: nat, j: nat)
    requires i <= j <= |parts|
    ensures Start(parts, i) <= Start(parts, j)
  {
    assert parts[..j] == parts[..i] + parts[i..j];
    JoinConcat(parts[..i], parts[i..j]);
  }

  /** File `a` of data disc `j` is a file of the listing. */
  lemma FileInListing(plans: seq<DiscPlan>, buckets: seq<Bucket>, files: seq<FileInfo>, target: int,
                      ids: set<DiskId>, prefix: string, j: nat, a: nat) returns (pos: nat)
    requires Packed(buckets, files, target) && DataOf(plans) == DataPlans(buckets, ids, prefix)
    requires j < |plans| && plans[j].role == Data && a < |plans[j].bucket.files|
    ensures pos < |files| && files[pos] == plans[j].bucket.files[a]
    ensures |DataOf(plans[..j])| < |buckets| && pos == Start(Parts(buckets), |DataOf(plans[..j])|) + a
    ensures pos < Start(Parts(buckets), |DataOf(plans[..j])| + 1)
  {
    var parts, k := Parts(buckets), |DataOf(plans[..j])|;
    DataAt(plans, j);
    assert plans[j].bucket == buckets[k];
    hide DataOf;
    hide Join;
    hide NextFit;
    PartAt(parts, k);
    pos := Start(parts, k) + a;
    assert files[Start(parts, k)..Start(parts, k) + |parts[k]|][a] == parts[k][a];
  }

  lemma FilesAreDistinct(plans: seq<DiscPlan>, buckets: seq<Bucket>, files: seq<FileInfo>, target: int,
                         ids: set<DiskId>, prefix: string)
    requires Packed(buckets, files, target) && DataOf(plans) == DataPlans(buckets, ids, prefix)
    requires DistinctPaths(files)
    requires forall j :: 0 <= j < |plans| && plans[j].role == Parity ==> plans[j].bucket.files == []
    ensures DistinctFiles(plans)
  {
    hide *;
    forall i, a, j, b |
      0 <= i < |plans| && 0 <= a < |plans[i].bucket.files|
      && 0 <= j < |plans| && 0 <= b < |plans[j].bucket.files|
      && plans[i].bucket.files[a].path == plans[j].bucket.files[b].path
      ensures i == j && a == b
    {
      var p := FileInListing(plans, buckets, files, target, ids, prefix, i, a);
      var q := FileInListing(plans, buckets, files, target, ids, prefix, j, b);
      SamePosition(files, p, q);
      if i < j {
        LaterDiscLaterFiles(plans, buckets, i, j);
      } else if j < i {
        LaterDiscLaterFiles(plans, buckets, j, i);
      }
    }
    AllDistinct(plans);
  }

  lemma AllDistinct(plans: seq<DiscPlan>)
    requires forall i, a, j, b ::
      0 <= i < |plans| && 0 <= a < |plans[i].bucket.files|
      && 0 <= j < |plans| && 0 <= b < |plans[j].bucket.files|
      && plans[i].bucket.files[a].path == plans[j].bucket.files[b].path
      ==> i == j && a == b
    ensures DistinctFiles(plans)
  {
  }

  lemma SamePosition(files: seq<FileInfo>, p: nat, q: nat)
    requires DistinctPaths(files) && p < |files| && q < |files| && files[p].path == files[q].path
    ensures p == q
  {
  }

  lemma LaterDiscLaterFiles(plans: seq<DiscPlan>, buckets: seq<Bucket>, i: nat, j: nat)
    requires i < j < |plans| && plans[i].role == Data
    requires |DataOf(plans[..i])| < |buckets| && |DataOf(plans[..j])| < |buckets|
    ensures Start(Parts(buckets), |DataOf(plans[..i])| + 1) <= Start(Parts(buckets), |DataOf(plans[..j])|)
  {
    hide *;
    DataAt(plans, i);
    DataBefore(plans, i + 1, j);
    StartOrder(Parts(buckets), |DataOf(plans[..i])| + 1, |DataOf(plans[..j])|);
  }

  /** Every listed file is planned on some data disc. */
  lemma FilesAreCovered(plans: seq<DiscPlan>, buckets: seq<Bucket>, files: seq<FileInfo>, target: int,
                        ids: set<DiskId>, prefix: string, pos: nat) returns (j: nat, a: nat)
    requires Packed(buckets, files, target) && DataOf(plans) == DataPlans(buckets, ids, prefix)
    requires pos < |files|
    ensures j < |plans| && a < |plans[j].bucket.files| && plans[j].bucket.files[a] == files[pos]
  {
    var parts := Parts(buckets);
    var k := PartContaining(parts, pos);
    PartAt(parts, k);
    a := pos - Start(parts, k);
    assert files[Start(parts, k)..Start(parts, k) + |parts[k]|][a] == parts[k][a];
    j := DataIndex(plans, k);
    assert DataOf(plans)[k].bucket == buckets[k];
  }

  lemma {:induction false} PartContaining(parts: seq<seq<FileInfo>>, pos: nat) returns (k: nat)
    requires pos < |Join(parts)|
    ensures k < |parts| && Start(parts, k) <= pos < Start(parts, k) + |parts[k]|
  {
    k := |parts|;
    StartEnd(parts);
    while pos < Start(parts, k)
      invariant k <= |parts| && pos < |Join(parts)|
      invariant k == |parts| || pos < Start(parts, k + 1)
      invariant k == |parts| ==> pos < Start(parts, k)
      decreases k
    {
      StartZero(parts);
      k := k - 1;
    }
    PartAt(parts, k);
  }

  lemma {:induction false} DataIndex(plans: seq<DiscPlan>, k: nat) returns (j: nat)
    requires k < |DataOf(plans)|
    ensures j < |plans| && plans[j].role == Data
    ensures DataOf(plans)[k] == plans[j].(group := "", slot := 0)
  {
    if plans[0].role == Data && k == 0 {
      j := 0;
    } else {
      j := DataIndex(plans[1..], if plans[0].role == Data then k - 1 else k);
      j := j + 1;
    }
  }

  // ---- One planning pass -----------------------------------------------------------

  lemma DataBucketsHoldFiles(plans: seq<DiscPlan>, buckets: seq<Bucket>, files: seq<FileInfo>, target: int,
                             ids: set<DiskId>, prefix: string)
    requires Packed(buckets, files, target) && DataOf(plans) == DataPlans(buckets, ids, prefix)
    ensures forall j :: 0 <= j < |plans| && plans[j].role == Data ==> plans[j].bucket.files != []
  {
    forall j | 0 <= j < |plans| && plans[j].role == Data
      ensures plans[j].bucket.files != []
    {
      DataAt(plans, j);
      assert plans[j].bucket == buckets[|DataOf(plans[..j])|];
      assert Parts(buckets)[|DataOf(plans[..j])|] != [];
    }
  }

  lemma GroupedPlansOk(plans: seq<DiscPlan>, opts: Options, base: nat, n: nat, k: nat, groups: seq<string>)
    requires opts.crossParity && "" !in groups && |plans| == n + k
    requires GroupedOk(plans, opts, GroupSize(opts), base + 1, n, base + n + 1, k, groups)
    requires forall j :: 0 <= j < |plans| && plans[j].role == Data ==> plans[j].bucket.files != []
    ensures forall j :: 0 <= j < |plans| ==> PlanOk(plans[j], opts, base, j, |plans|) && plans[j].group in groups
    ensures forall j :: 0 <= j < |plans| && plans[j].role == Parity ==> plans[j].bucket.files == []
    ensures Shaped(plans, opts) && Sized(plans, GroupSize(opts))
  {
    hide Shaped;
    hide Sized;
    forall j | 0 <= j < |plans|
      ensures PlanOk(plans[j], opts, base, j, |plans|) && plans[j].group in groups
      ensures plans[j].role == Parity ==> plans[j].bucket.files == []
    {
      assert Origin(plans[j], j, base + 1, n, base + n + 1, k, groups);
    }
  }

  lemma PlainPlansOk(plans: seq<DiscPlan>, buckets: seq<Bucket>, opts: Options, ids: set<DiskId>)
    requires !opts.crossParity && plans == DataPlans(buckets, ids, opts.prefix)
    requires forall j :: 0 <= j < |plans| ==> plans[j].bucket.files != []
    ensures var base := |Counted(ids, opts.prefix)|;
            forall j :: 0 <= j < |plans| ==> PlanOk(plans[j], opts, base, j, |plans|)
    ensures Shaped(plans, opts) && Sized(plans, GroupSize(opts))
  {
  }

  /** Whatever planJob returns for a listing without repeats is a well-shaped plan list. */
  lemma PlannedIsOk(plans: seq<DiscPlan>, registered: seq<(string, nat)>, buckets: seq<Bucket>, files: seq<FileInfo>,
                    target: int, opts: Options, ids: set<DiskId>, uuids: seq<string>)
    requires Packed(buckets, files, target) && Planned(plans, registered, buckets, opts, ids, uuids)
    requires FreshGroups(uuids) && DistinctPaths(files)
    ensures PlansOk(plans, opts, |Counted(ids, opts.prefix)|)
    ensures DataOf(plans) == DataPlans(buckets, ids, opts.prefix)
    ensures forall j :: 0 <= j < |plans| ==> plans[j].group == "" || plans[j].group in uuids
  {
    var base, n := |Counted(ids, opts.prefix)|, |buckets|;
    var data := DataPlans(buckets, ids, opts.prefix);
    PlainData(buckets, ids, opts.prefix);
    hide Packed;
    hide DataOf;
    hide Shaped;
    hide Sized;
    hide PlanOk;
    hide DistinctFiles;
    if opts.crossParity {
      var size := GroupSize(opts);
      var k := |GroupSizes(n, size)|;
      ErasingParity(data, size, uuids, ids, opts.prefix, n);
      GroupedShape(plans, data, size, uuids, ids, opts, n, base + 1, base + n + 1, k);
      hide GroupedOk;
      DataBucketsHoldFiles(plans, buckets, files, target, ids, opts.prefix);
      GroupedPlansOk(plans, opts, base, n, k, uuids);
    } else {
      DataOfTagged(data, data, "");
      DataBucketsHoldFiles(plans, buckets, files, target, ids, opts.prefix);
      PlainPlansOk(plans, buckets, opts, ids);
    }
    FilesAreDistinct(plans, buckets, files, target, ids, opts.prefix);
    hide Numbered;
    PlannedNumbers(plans, registered, buckets, opts, ids, uuids);
  }

  lemma PlainData(buckets: seq<Bucket>, ids: set<DiskId>, prefix: string)
    ensures Plain(DataPlans(buckets, ids, prefix))
    ensures Consecutive(DataPlans(buckets, ids, prefix), prefix, |Counted(ids, prefix)| + 1)
  {
  }

  // ---- Numbers ---------------------------------------------------------------------

  /** One pass hands out each number after `base` exactly once. */
  lemma IdsAreABlock(plans: seq<DiscPlan>, opts: Options, base: nat, n: nat)
    requires PlansOk(plans, opts, base) && base < n <= base + |plans|
    ensures exists j :: 0 <= j < |plans| && plans[j].id == DiskId(opts.prefix, n)
  {
    var ids := set p <- plans :: p.id;
    assert forall i, j :: 0 <= i < j < |plans| ==> Apart(plans[i], plans[j]);
    IdsDistinctSize(plans);
    var block := UpTo(opts.prefix, base + |plans|) - UpTo(opts.prefix, base);
    assert ids <= block by {
      forall id | id in ids
        ensures id in block
      {
        var j :| 0 <= j < |plans| && plans[j].id == id;
        assert PlanOk(plans[j], opts, base, j, |plans|);
      }
    }
    assert UpTo(opts.prefix, base) <= UpTo(opts.prefix, base + |plans|);
    assert |block| == |plans|;
    SubsetSize(ids, block);
    assert DiskId(opts.prefix, n) in ids;
  }

  lemma {:induction false} IdsDistinctSize(plans: seq<DiscPlan>)
    requires forall i, j :: 0 <= i < j < |plans| ==> plans[i].id != plans[j].id
    ensures |set p <- plans :: p.id| == |plans|
  {
    if plans == [] {
      assert (set p <- plans :: p.id) == {};
    } else {
      var n := |plans| - 1;
      var before := plans[..n];
      IdsDistinctSize(before);
      assert (set p <- plans :: p.id) == (set p <- before :: p.id) + {plans[n].id} by {
        assert plans == before + [plans[n]];
      }
    }
  }

  /** Data discs are numbered in order, and after all of them the parity discs in order. */
  ghost predicate Numbered(plans: seq<DiscPlan>, base: nat) {
    forall j :: 0 <= j < |plans| ==> plans[j].id.number == base + 1 + Rank(plans, j)
  }

  function Rank(plans: seq<DiscPlan>, j: nat): int
    requires j < |plans|
  {
    var before := |DataOf(plans[..j])|;
    if plans[j].role == Data then before else |DataOf(plans)| + (j - before)
  }

  lemma {:induction false} ParityNumber(plans: seq<DiscPlan>, data: seq<DiscPlan>, size: nat, groups: seq<string>,
                                        ids: set<DiskId>, prefix: string, parity: nat, hi: nat, j: nat)
    requires size > 0 && Plain(data) && |GroupSizes(|data|, size)| <= |groups|
    requires plans == Grouped(data, size, groups, ids, prefix, parity)
    requires hi == NextDiskID(ids, prefix, parity).number
    requires j < |plans| && plans[j].role == Parity
    ensures plans[j].id.number == hi + j - |DataOf(plans[..j])|
    decreases |data|
  {
    hide Grouped;
    if data == [] {
      NothingLeft(size, groups, ids, prefix, parity);
    } else {
      var m := Min(size, |data|);
      GroupedCons(data, size, groups, ids, prefix, parity);
      var id := NextDiskID(ids, prefix, parity);
      var block := BlockOf(data[..m], groups[0], id);
      var rest := Grouped(data[m..], size, groups[1..], ids, prefix, parity + 1);
      NextIdStep(ids, prefix, parity);
      hide NextDiskID;
      assert |data[..m]| == m && |block| == m + 1;
      if j > m {
        DataOfBlock(data[..m], groups[0], id);
        DataOfPrefix(block, rest, j);
        ParityNumber(rest, data[m..], size, groups[1..], ids, prefix, parity + 1, hi + 1, j - m - 1);
      } else {
        BlockParity(data[..m], groups[0], id, j);
        assert plans[..j] == block[..j];
      }
    }
  }

  lemma BlockParity(data: seq<DiscPlan>, group: string, id: DiskId, j: nat)
    requires Plain(data) && j <= |data| && BlockOf(data, group, id)[j].role == Parity
    ensures j == |data| && BlockOf(data, group, id)[j].id == id
    ensures |DataOf(BlockOf(data, group, id)[..j])| == |data|
  {
    var tagged := Tagged(data, group);
    forall i | 0 <= i < |data|
      ensures tagged[i].role == Data && tagged[i].(slot := 0, group := "") == data[i]
    {
      assert data[i].role == Data;
    }
    DataOfTagged(data, tagged, group);
    assert BlockOf(data, group, id)[..|data|] == tagged;
  }

  lemma DataOfPrefix(block: seq<DiscPlan>, rest: seq<DiscPlan>, j: nat)
    requires |block| <= j <= |block + rest|
    ensures (block + rest)[..j] == block + rest[..j - |block|]
    ensures DataOf((block + rest)[..j]) == DataOf(block) + DataOf(rest[..j - |block|])
  {
    DataOfConcat(block, rest[..j - |block|]);
  }

  lemma PlannedNumbers(plans: seq<DiscPlan>, registered: seq<(string, nat)>, buckets: seq<Bucket>,
                       opts: Options, ids: set<DiskId>, uuids: seq<string>)
    requires Planned(plans, registered, buckets, opts, ids, uuids)
    requires DataOf(plans) == DataPlans(buckets, ids, opts.prefix)
    ensures Numbered(plans, |Counted(ids, opts.prefix)|)
  {
    var base, n := |Counted(ids, opts.prefix)|, |buckets|;
    var data := DataPlans(buckets, ids, opts.prefix);
    forall j | 0 <= j < |plans|
      ensures plans[j].id.number == base + 1 + Rank(plans, j)
    {
      if plans[j].role == Data {
        DataAt(plans, j);
        assert plans[j].id == data[|DataOf(plans[..j])|].id;
      } else {
        PlainData(buckets, ids, opts.prefix);
        ParityNumber(plans, data, GroupSize(opts), uuids, ids, opts.prefix, n, base + n + 1, j);
      }
    }
  }

  // ---- Abandoned jobs ----------------------------------------------------------------

  /** The last parity disc among the first `c` discs. */
  lemma {:induction false} LastParity(plans: seq<DiscPlan>, c: nat) returns (j: nat)
    requires c <= |plans| && exists i :: 0 <= i < c && plans[i].role == Parity
    ensures j < c && plans[j].role == Parity
    ensures j - |DataOf(plans[..j])| + 1 == c - |DataOf(plans[..c])|
  {
    assert plans[..c] == plans[..c - 1] + [plans[c - 1]];
    DataOfConcat(plans[..c - 1], [plans[c - 1]]);
    DataOfOne(plans[c - 1]);
    if plans[c - 1].role == Parity {
      j := c - 1;
    } else {
      j := LastParity(plans, c - 1);
    }
  }

  lemma DataOfOne(p: DiscPlan)
    ensures |DataOf([p])| == if p.role == Data then 1 else 0
  {
    assert [p][1..] == [];
  }

  lemma {:induction false} DataOfLength(plans: seq<DiscPlan>)
    ensures |DataOf(plans)| <= |plans|
    ensures (forall p <- plans :: p.role == Data) ==> |DataOf(plans)| == |plans|
  {
    if plans != [] {
      DataOfLength(plans[1..]);
    }
  }

  /**
   * The first `c` discs of a plan list take none but the first `c` numbers after `base`
   * exactly when no parity disc is among them or at most the last disc is missing.
   */
  lemma FirstNumbersIff(plans: seq<DiscPlan>, opts: Options, base: nat, c: nat)
    requires PlansOk(plans, opts, base) && c <= |plans|
    ensures (forall j :: 0 <= j < c ==> plans[j].id.number <= base + c)
      <==> (forall j :: 0 <= j < c ==> plans[j].role == Data) || c + 1 >= |plans|
  {
    assert Numbered(plans, base);
    if forall j :: 0 <= j < c ==> plans[j].role == Data {
      hide PlansOk;
      DataFirst(plans, base, c);
    } else {
      EndsWithParity(plans, opts, base, c);
      hide PlansOk;
      if c + 1 >= |plans| {
        AllButOne(plans, base, c);
      } else {
        ParityTooEarly(plans, base, c);
      }
    }
  }

  lemma DataFirst(plans: seq<DiscPlan>, base: nat, c: nat)
    requires Numbered(plans, base) && c <= |plans| && forall j :: 0 <= j < c ==> plans[j].role == Data
    ensures forall j :: 0 <= j < c ==> plans[j].id.number <= base + c
  {
    forall j | 0 <= j < c
      ensures plans[j].id.number <= base + c
    {
      DataOfLength(plans[..j]);
    }
  }

  /** A plan list with a parity disc ends with one, after a data disc. */
  lemma EndsWithParity(plans: seq<DiscPlan>, opts: Options, base: nat, c: nat)
    requires PlansOk(plans, opts, base) && c <= |plans| && exists j :: 0 <= j < c && plans[j].role == Parity
    ensures |plans| >= 2 && plans[|plans| - 1].role == Parity && plans[|plans| - 2].role == Data
  {
    assert |plans| >= 2 ==> Follows(plans, |plans| - 1);
    hide Numbered;
    hide Sized;
    hide DistinctFiles;
  }

  lemma AllButOne(plans: seq<DiscPlan>, base: nat, c: nat)
    requires Numbered(plans, base) && c <= |plans| <= c + 1 && plans != [] && plans[|plans| - 1].role == Parity
    ensures forall j :: 0 <= j < c ==> plans[j].id.number <= base + c
  {
    forall j | 0 <= j < c
      ensures plans[j].id.number <= base + c
    {
      RankBound(plans, j, c);
    }
  }

  lemma ParityTooEarly(plans: seq<DiscPlan>, base: nat, c: nat)
    requires Numbered(plans, base) && c + 1 < |plans| && plans[|plans| - 2].role == Data
    requires exists j :: 0 <= j < c && plans[j].role == Parity
    ensures exists j :: 0 <= j < c && plans[j].id.number > base + c
  {
    var j := LastParity(plans, c);
    DataAt(plans, |plans| - 2);
    DataBefore(plans, c, |plans| - 2);
    assert plans[j].id.number > base + c;
  }

  lemma RankBound(plans: seq<DiscPlan>, j: nat, c: nat)
    requires j < c <= |plans| <= c + 1
    requires plans[|plans| - 1].role == Parity
    ensures Rank(plans, j) < c
  {
    assert plans[..j + 1] == plans[..j] + [plans[j]];
    DataOfConcat(plans[..j], [plans[j]]);
    DataOfOne(plans[j]);
    var last := |plans| - 1;
    assert plans == plans[..last] + [plans[last]];
    DataOfConcat(plans[..last], [plans[last]]);
    DataOfOne(plans[last]);
    DataOfLength(plans[..j]);
    if j < last {
      GapsGrow(plans, j + 1, last);
    }
  }

  lemma {:induction false} GapsGrow(plans: seq<DiscPlan>, i: nat, j: nat)
    requires i <= j <= |plans|
    ensures i - |DataOf(plans[..i])| <= j - |DataOf(plans[..j])|
  {
    assert plans[..j] == plans[..i] + plans[i..j];
    DataOfConcat(plans[..i], plans[i..j]);
    DataOfLength(plans[i..j]);
  }

  // ---- Groups of the size asked for ---------------------------------------------------

  /**
   * Each parity disc closes a group of `n` data discs, the last one perhaps of fewer: they
   * come right before it, in slots 0, 1, ..., and its own slot is their number. In front of
   * them another group has just been closed.
   */
  ghost predicate GroupsOf(plans: seq<DiscPlan>, n: nat) {
    forall p :: 0 <= p < |plans| && plans[p].role == Parity ==>
      && 1 <= plans[p].slot <= n && plans[p].slot <= p && (plans[p].slot == n || p == |plans| - 1)
      && (plans[p].slot == p || plans[p - plans[p].slot - 1].role == Parity)
      && (forall i :: p - plans[p].slot <= i < p ==>
            plans[i].role == Data && plans[i].group == plans[p].group && plans[i].slot == i - (p - plans[p].slot))
      && (forall i :: 0 <= i < p - plans[p].slot ==> plans[i].group != plans[p].group)
  }

  /** The groups have the size that was asked for, 10 if that is not above 1. */
  ghost predicate AsRequested(plans: seq<DiscPlan>, opts: Options) {
    && GroupsOf(plans, if opts.groupSize <= 1 then 10 else opts.groupSize)
    && (opts.crossParity && plans != [] ==> plans[|plans| - 1].role == Parity)
    && forall p :: 0 <= p < |plans| ==>
         if opts.crossParity then plans[p].group != "" else plans[p].group == "" && plans[p].role == Data
  }

  lemma GroupsAsRequested(plans: seq<DiscPlan>, opts: Options, base: nat)
    requires PlansOk(plans, opts, base)
    ensures AsRequested(plans, opts)
  {
    forall p | 0 <= p < |plans|
      ensures plans[p].role == Parity ==> opts.crossParity && 1 <= plans[p].slot
      ensures opts.crossParity <==> plans[p].group != ""
    {
      assert PlanOk(plans[p], opts, base, p, |plans|);
    }
    hide Numbered;
    hide DistinctFiles;
    hide PlanOk;
    hide Sized;
    hide GroupsOf;
    GroupsAre(plans, opts, GroupSize(opts));
  }

  lemma GroupsAre(plans: seq<DiscPlan>, opts: Options, n: nat)
    requires Shaped(plans, opts) && Sized(plans, n)
    requires forall p :: 0 <= p < |plans| && plans[p].role == Parity ==> opts.crossParity && 1 <= plans[p].slot
    requires forall p :: 0 <= p < |plans| ==> (opts.crossParity <==> plans[p].group != "")
    ensures GroupsOf(plans, n)
  {
    forall p | 0 <= p < |plans| && plans[p].role == Parity
      ensures plans[p].slot <= p
      ensures plans[p].slot == p || plans[p - plans[p].slot - 1].role == Parity
      ensures forall i :: p - plans[p].slot <= i < p ==>
                plans[i].role == Data && plans[i].group == plans[p].group && plans[i].slot == i - (p - plans[p].slot)
      ensures forall i :: 0 <= i < p - plans[p].slot ==> plans[i].group != plans[p].group
    {
      GroupBefore(plans, opts, p);
    }
    hide Shaped;
  }

  lemma GroupBefore(plans: seq<DiscPlan>, opts: Options, p: nat)
    requires Shaped(plans, opts) && p < |plans| && plans[p].role == Parity && 1 <= plans[p].slot
    requires forall j :: 0 <= j < |plans| ==> plans[j].group != ""
    ensures plans[p].slot <= p
    ensures plans[p].slot == p || plans[p - plans[p].slot - 1].role == Parity
    ensures forall i :: p - plans[p].slot <= i < p ==>
              plans[i].role == Data && plans[i].group == plans[p].group && plans[i].slot == i - (p - plans[p].slot)
    ensures forall i :: 0 <= i < p - plans[p].slot ==> plans[i].group != plans[p].group
  {
    var first := p;
    while plans[first].slot > 0
      invariant 0 <= first <= p && plans[first].group == plans[p].group
      invariant plans[p].slot == plans[first].slot + (p - first)
      invariant forall i :: first <= i < p ==>
                  plans[i].role == Data && plans[i].group == plans[p].group
                      && plans[i].slot == plans[first].slot + (i - first)
      decreases first
    {
      assert first > 0 ==> Follows(plans, first);
      first := first - 1;
    }
    assert first > 0 ==> Follows(plans, first);
  }
}
