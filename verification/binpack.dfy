/** internal/binpack/binpack.go: how much data fits a disc, and which files share one. */
module BinPack {
  datatype FileInfo = FileInfo(path: string, size: nat)

  datatype Bucket = Bucket(files: seq<FileInfo>, totalSize: nat)

  // ---- Target size ---------------------------------------------------------

  const MAX_INT64: int := 0x7FFF_FFFF_FFFF_FFFF

  /** Go's int64 arithmetic: the value modulo 2^64, read as a signed number. */
  function Wrap64(x: int): (r: int)
    ensures -MAX_INT64 - 1 <= r <= MAX_INT64
    ensures -MAX_INT64 - 1 <= x <= MAX_INT64 ==> r == x
  {
    (x + MAX_INT64 + 1) % 0x1_0000_0000_0000_0000 - MAX_INT64 - 1
  }

  /** Go's integer division, which truncates toward zero. */
  function Quot(a: int, b: int): int
    requires b > 0
  {
    if a >= 0 then a / b else -(-a / b)
  }

  function TargetDataSize(capacity: int, parityPercent: int): int
    requires 100 + parityPercent > 0
  {
    Quot(Wrap64(capacity * 100), 100 + parityPercent)
  }

  /** `t` is the largest data size that, with its parity on top, fits the capacity. */
  ghost predicate IsDataBudget(t: int, capacity: int, parityPercent: int) {
    && t * (100 + parityPercent) <= 100 * capacity
    && forall u: int {:trigger u * (100 + parityPercent)} ::
         u * (100 + parityPercent) <= 100 * capacity ==> u <= t
  }

  /** The data budget is met exactly for the capacities whose hundredfold is still an int64. */
  lemma TargetIsDataBudget(capacity: int, parityPercent: int)
    requires 0 <= capacity <= MAX_INT64 && 0 <= parityPercent <= 100
    ensures IsDataBudget(TargetDataSize(capacity, parityPercent), capacity, parityPercent)
      <==> capacity <= MAX_INT64 / 100
  {
    var d := 100 + parityPercent;
    var t := TargetDataSize(capacity, parityPercent);
    var q := capacity * 100 / d;
    assert q * d <= 100 * capacity < (q + 1) * d;
    if capacity <= MAX_INT64 / 100 {
      assert t == q;
      forall u: int | u * d <= 100 * capacity
        ensures u <= t
      {
        CancelFactor(u, q + 1, d);
      }
    } else {
      WrapLosesRange(capacity * 100);
      QuotBound(Wrap64(capacity * 100), d);
      assert t * d < (q + 1) * d - 2 * d;
      assert (q + 1) * d - 2 * d == (q - 1) * d;
      CancelFactor(t, q - 1, d);
    }
  }

  lemma CancelFactor(a: int, b: int, d: int)
    requires d > 0 && a * d < b * d
    ensures a < b
  {
  }

  lemma QuotBound(a: int, d: int)
    requires d > 0
    ensures Quot(a, d) * d < a + d
  {
    if a < 0 {
      assert -a / d * d > -a - d;
    }
  }

  lemma WrapLosesRange(x: int)
    requires x > MAX_INT64
    ensures Wrap64(x) + 0x1_0000_0000_0000_0000 <= x
  {
  }

  // ---- Packing -------------------------------------------------------------

  function Sum(files: seq<FileInfo>): nat {
    if files == [] then 0 else Sum(files[..|files| - 1]) + files[|files| - 1].size
  }

  ghost predicate AllZero(files: seq<FileInfo>) {
    forall f <- files :: f.size == 0
  }

  /** A disc's worth of files: within the target, or one file after only zero-size files. */
  ghost predicate Fits(files: seq<FileInfo>, target: int) {
    Sum(files) <= target || files == [] || AllZero(files[..|files| - 1])
  }

  function Join(parts: seq<seq<FileInfo>>): seq<FileInfo> {
    if parts == [] then [] else Join(parts[..|parts| - 1]) + parts[|parts| - 1]
  }

  function Parts(buckets: seq<Bucket>): (parts: seq<seq<FileInfo>>)
    ensures |parts| == |buckets|
    ensures forall i :: 0 <= i < |parts| ==> parts[i] == buckets[i].files
  {
    seq(|buckets|, i requires 0 <= i < |buckets| => buckets[i].files)
  }

  /** The first file of `next` would overfill `part`, which already holds data. */
  ghost predicate Overfills(part: seq<FileInfo>, next: seq<FileInfo>, target: int) {
    Sum(part) > 0 && next != [] && Sum(part) + next[0].size > target
  }

  /** A part is closed only when the file that opens the next one would overfill it. */
  ghost predicate NextFit(parts: seq<seq<FileInfo>>, target: int) {
    && (forall i :: 0 <= i < |parts| ==> parts[i] != [] && Fits(parts[i], target))
    && (forall i, j :: 0 <= i < j < |parts| && j == i + 1 ==> Overfills(parts[i], parts[j], target))
  }

  /** What Pack promises: an order-preserving split of `files`, with true totals, made by next fit. */
  ghost predicate Packed(buckets: seq<Bucket>, files: seq<FileInfo>, target: int) {
    && Join(Parts(buckets)) == files
    && (forall b <- buckets :: b.totalSize == Sum(b.files))
    && NextFit(Parts(buckets), target)
  }

  method Pack(files: seq<FileInfo>, targetSize: int) returns (buckets: seq<Bucket>)
    ensures Packed(buckets, files, targetSize)
  {
    hide Packed;
    buckets := [];
    var current := Bucket([], 0);
    for k := 0 to |files|
      invariant k == 0 ==> buckets == [] && current == Bucket([], 0)
      invariant k > 0 ==> current.files != []
      invariant k > 0 ==> Packed(buckets + [current], files[..k], targetSize)
    {
      var f := files[k];
      ghost var was := (buckets, current);
      if current.totalSize > 0 && current.totalSize + f.size > targetSize {
        buckets := buckets + [current];
        current := Bucket([], 0);
      }
      current := Bucket(current.files + [f], current.totalSize + f.size);
      assert files[..k + 1] == files[..k] + [f];
      assert [] + [f] == [f];
      if k == 0 {
        FirstFile(f, targetSize);
        assert files[..1] == [f] && buckets + [current] == [Bucket([f], f.size)];
      } else if |buckets| == |was.0| {
        FileJoins(was.0, was.1, f, files[..k], targetSize);
      } else {
        FileOpens(was.0, was.1, f, files[..k], targetSize);
      }
    }
    if |current.files| > 0 {
      buckets := buckets + [current];
    }
    assert files[..|files|] == files;
    if files == [] {
      NoFiles(targetSize);
    }
  }

  lemma NoFiles(target: int)
    ensures Packed([], [], target)
  {
  }

  lemma SumSnoc(files: seq<FileInfo>, f: FileInfo)
    ensures Sum(files + [f]) == Sum(files) + f.size
  {
    assert (files + [f])[..|files|] == files;
  }

  /** A total is what its files add up to, and joining parts strings them together. */
  lemma {:induction false} TotalsAdd(a: seq<FileInfo>, b: seq<FileInfo>, f: FileInfo)
    ensures Sum([]) == 0 && Sum([f]) == f.size && Sum(a + b) == Sum(a) + Sum(b)
    ensures Join([]) == [] && Join([a]) == a && Join([a, b]) == a + b
  {
    SumSnoc([], f);
    assert [] + [f] == [f];
    JoinSnoc([], a);
    JoinSnoc([a], b);
    assert [] + [a] == [a] && [a] + [b] == [a, b];
    if b == [] {
      assert a + b == a;
    } else {
      var n := |b| - 1;
      TotalsAdd(a, b[..n], f);
      SumSnoc(a + b[..n], b[n]);
      assert a + b == a + b[..n] + [b[n]];
    }
  }

  lemma JoinSnoc(parts: seq<seq<FileInfo>>, part: seq<FileInfo>)
    ensures Join(parts + [part]) == Join(parts) + part
  {
    assert (parts + [part])[..|parts|] == parts;
  }

  lemma FirstFile(f: FileInfo, target: int)
    ensures Packed([Bucket([f], f.size)], [f], target)
  {
    SumSnoc([], f);
    JoinSnoc([], [f]);
    assert [] + [f] == [f];
    assert Parts([Bucket([f], f.size)]) == [] + [[f]];
    assert AllZero([f][..0]);
  }

  /** The last part may grow, as long as it still fits and opens with the same file. */
  lemma LastPartGrows(parts: seq<seq<FileInfo>>, part: seq<FileInfo>, grown: seq<FileInfo>, target: int)
    requires NextFit(parts + [part], target)
    requires part <= grown && Fits(grown, target)
    ensures NextFit(parts + [grown], target)
  {
    hide Sum;
    var was, now := parts + [part], parts + [grown];
    assert was[|parts|] == part;
    forall i, j | 0 <= i < j < |now| && j == i + 1
      ensures Overfills(now[i], now[j], target)
    {
      assert Overfills(was[i], was[j], target);
    }
    forall i | 0 <= i < |now|
      ensures now[i] != [] && Fits(now[i], target)
    {
      assert was[i] != [] && Fits(was[i], target);
    }
  }

  /** A part that the last one has no room for may open after it. */
  lemma NextPartOpens(parts: seq<seq<FileInfo>>, part: seq<FileInfo>, next: seq<FileInfo>, target: int)
    requires NextFit(parts + [part], target)
    requires Overfills(part, next, target) && Fits(next, target)
    ensures NextFit(parts + [part] + [next], target)
  {
    hide Sum;
    var was, now := parts + [part], parts + [part] + [next];
    forall i, j | 0 <= i < j < |now| && j == i + 1
      ensures Overfills(now[i], now[j], target)
    {
      assert j < |was| ==> Overfills(was[i], was[j], target);
    }
    forall i | 0 <= i < |now|
      ensures now[i] != [] && Fits(now[i], target)
    {
      assert i < |was| ==> was[i] != [] && Fits(was[i], target);
    }
  }

  lemma FileJoins(buckets: seq<Bucket>, current: Bucket, f: FileInfo, files: seq<FileInfo>, target: int)
    requires Packed(buckets + [current], files, target)
    requires current.totalSize == 0 || current.totalSize + f.size <= target
    ensures Packed(buckets + [Bucket(current.files + [f], current.totalSize + f.size)], files + [f], target)
  {
    hide Sum;
    hide Join;
    hide NextFit;
    var grown := Bucket(current.files + [f], current.totalSize + f.size);
    var parts := Parts(buckets);
    assert Parts(buckets + [current]) == parts + [current.files];
    assert Parts(buckets + [grown]) == parts + [grown.files];
    JoinSnoc(parts, current.files);
    JoinSnoc(parts, grown.files);
    assert Join(parts + [grown.files]) == files + [f];
    assert current in buckets + [current];
    SumSnoc(current.files, f);
    FitsOneMore(current.files, f, target);
    LastPartGrows(parts, current.files, grown.files, target);
    forall b <- buckets + [grown]
      ensures b.totalSize == Sum(b.files)
    {
      assert b in buckets ==> b in buckets + [current];
    }
  }

  lemma FitsOneMore(files: seq<FileInfo>, f: FileInfo, target: int)
    requires Sum(files) == 0 || Sum(files) + f.size <= target
    ensures Fits(files + [f], target)
  {
    SumSnoc(files, f);
    ZeroSum(files);
    assert (files + [f])[..|files|] == files;
  }

  lemma FileOpens(buckets: seq<Bucket>, current: Bucket, f: FileInfo, files: seq<FileInfo>, target: int)
    requires Packed(buckets + [current], files, target)
    requires current.totalSize > 0 && current.totalSize + f.size > target
    ensures Packed(buckets + [current] + [Bucket([f], f.size)], files + [f], target)
  {
    var closed := buckets + [current];
    var parts := Parts(buckets);
    assert Parts(closed) == parts + [current.files];
    assert Parts(closed + [Bucket([f], f.size)]) == parts + [current.files] + [[f]];
    JoinSnoc(parts + [current.files], [f]);
    SumSnoc([], f);
    hide Sum;
    hide Join;
    assert [] + [f] == [f];
    assert current in closed;
    assert AllZero([f][..0]);
    NextPartOpens(parts, current.files, [f], target);
  }

  lemma {:induction false} ZeroSum(files: seq<FileInfo>)
    ensures Sum(files) == 0 <==> AllZero(files)
  {
    if files != [] {
      ZeroSum(files[..|files| - 1]);
      assert files == files[..|files| - 1] + [files[|files| - 1]];
    }
  }

  // ---- Optimality ----------------------------------------------------------

  lemma {:induction false} JoinConcat(a: seq<seq<FileInfo>>, b: seq<seq<FileInfo>>)
    ensures Join(a + b) == Join(a) + Join(b)
  {
    if b == [] {
      assert a + b == a;
    } else {
      JoinConcat(a, b[..|b| - 1]);
      assert (a + b)[..|a + b| - 1] == a + b[..|b| - 1];
    }
  }

  /** Where part `i` begins in the joined list. */
  function Start(parts: seq<seq<FileInfo>>, i: nat): nat
    requires i <= |parts|
  {
    |Join(parts[..i])|
  }

  lemma JoinAround(a: seq<seq<FileInfo>>, part: seq<FileInfo>, b: seq<seq<FileInfo>>)
    ensures Join(a + [part] + b) == Join(a) + part + Join(b)
  {
    JoinConcat(a + [part], b);
    JoinSnoc(a, part);
  }

  lemma Split(parts: seq<seq<FileInfo>>, i: nat)
    requires i < |parts|
    ensures Join(parts) == Join(parts[..i]) + parts[i] + Join(parts[i + 1..])
    ensures Join(parts[..i + 1]) == Join(parts[..i]) + parts[i]
  {
    hide Join;
    JoinAround(parts[..i], parts[i], parts[i + 1..]);
    assert parts == parts[..i] + [parts[i]] + parts[i + 1..];
    JoinSnoc(parts[..i], parts[i]);
    assert parts[..i + 1] == parts[..i] + [parts[i]];
  }

  /** Part `i` is the stretch of the joined list between its start and the next part's. */
  lemma PartAt(parts: seq<seq<FileInfo>>, i: nat)
    requires i < |parts|
    ensures Start(parts, i + 1) == Start(parts, i) + |parts[i]| <= |Join(parts)|
    ensures Join(parts)[Start(parts, i)..Start(parts, i) + |parts[i]|] == parts[i]
  {
    hide Join;
    Split(parts, i);
  }

  lemma StartEnd(parts: seq<seq<FileInfo>>)
    ensures Start(parts, |parts|) == |Join(parts)|
  {
    assert parts[..|parts|] == parts;
  }

  lemma {:induction false} SumConcat(a: seq<FileInfo>, b: seq<FileInfo>)
    ensures Sum(a + b) == Sum(a) + Sum(b)
  {
    if b == [] {
      assert a + b == a;
    } else {
      SumConcat(a, b[..|b| - 1]);
      assert (a + b)[..|a + b| - 1] == a + b[..|b| - 1];
    }
  }

  /** After as many parts, no other split has got further through the list than next fit. */
  lemma {:induction false} StaysAhead(parts: seq<seq<FileInfo>>, other: seq<seq<FileInfo>>, target: int, i: nat)
    requires NextFit(parts, target) && Join(parts) == Join(other)
    requires forall s <- other :: Fits(s, target)
    requires i <= |parts| && i <= |other|
    ensures Start(other, i) <= Start(parts, i)
  {
    if i > 0 {
      StaysAhead(parts, other, target, i - 1);
      StepAhead(parts, other, target, i - 1);
    } else {
      assert other[..0] == [] == parts[..0];
    }
  }

  lemma StepAhead(parts: seq<seq<FileInfo>>, other: seq<seq<FileInfo>>, target: int, i: nat)
    requires NextFit(parts, target) && Join(parts) == Join(other)
    requires i < |parts| && i < |other| && Fits(other[i], target)
    requires Start(other, i) <= Start(parts, i)
    ensures Start(other, i + 1) <= Start(parts, i + 1)
  {
    hide Sum;
    hide Join;
    PartAt(other, i);
    PartAt(parts, i);
    if i + 1 == |parts| {
      StartEnd(parts);
    } else {
      PartAt(parts, i + 1);
      assert Overfills(parts[i], parts[i + 1], target);
      CannotReachPast(Join(parts), other[i], Start(other, i), parts[i], parts[i + 1], Start(parts, i), target);
    }
  }

  /** A disc's worth starting no later than a closed part ends no later either. */
  lemma CannotReachPast(files: seq<FileInfo>, s: seq<FileInfo>, o: nat,
                        part: seq<FileInfo>, next: seq<FileInfo>, g: nat, target: int)
    requires o <= g && o + |s| <= |files| && g + |part| + |next| <= |files|
    requires files[o..o + |s|] == s && files[g..g + |part|] == part
    requires files[g + |part|..g + |part| + |next|] == next
    requires Fits(s, target) && Overfills(part, next, target)
    ensures o + |s| <= g + |part|
  {
    if o + |s| > g + |part| {
      SliceOfSlice(files, o, o + |s|, g, g + |part|);
      assert s[g - o + |part|] == files[g + |part|] == next[0];
      NoRoom(s, part, next[0], g - o, target);
    }
  }

  lemma SliceOfSlice<T>(files: seq<T>, o: nat, p: nat, g: nat, h: nat)
    requires o <= g <= h <= p <= |files|
    ensures files[o..p][g - o..h - o] == files[g..h]
  {
    forall k | 0 <= k < h - g
      ensures files[o..p][g - o..h - o][k] == files[g..h][k]
    {
      assert files[o..p][g - o + k] == files[g + k];
    }
  }

  lemma NoRoom(s: seq<FileInfo>, part: seq<FileInfo>, f: FileInfo, m: nat, target: int)
    requires m + |part| < |s| && s[m..m + |part|] == part && s[m + |part|] == f
    requires Sum(part) > 0 && Sum(part) + f.size > target
    ensures !Fits(s, target)
  {
    Contains(s, part, f, m);
    ZeroSum(part);
    var j :| 0 <= j < |part| && part[j].size > 0;
    assert s[..|s| - 1][m + j] == part[j];
  }

  lemma Contains(s: seq<FileInfo>, part: seq<FileInfo>, f: FileInfo, m: nat)
    requires m + |part| < |s| && s[m..m + |part|] == part && s[m + |part|] == f
    ensures Sum(part) + f.size <= Sum(s)
  {
    var after := s[m + |part| + 1..];
    assert s == s[..m] + (part + [f]) + after;
    SumConcat(s[..m] + (part + [f]), after);
    SumConcat(s[..m], part + [f]);
    SumSnoc(part, f);
  }

  /** No order-preserving split into discs' worths uses fewer discs than Pack. */
  lemma PackIsOptimal(buckets: seq<Bucket>, files: seq<FileInfo>, target: int, other: seq<seq<FileInfo>>)
    requires Packed(buckets, files, target)
    requires Join(other) == files && forall s <- other :: Fits(s, target)
    ensures |buckets| <= |other|
  {
    var parts := Parts(buckets);
    if |other| < |parts| {
      StaysAhead(parts, other, target, |other|);
      StartEnd(other);
      PartAt(parts, |other|);
      assert false;
    }
  }

  lemma PartsFit(buckets: seq<Bucket>, files: seq<FileInfo>, target: int)
    requires Packed(buckets, files, target)
    ensures forall s <- Parts(buckets) :: Fits(s, target)
  {
  }

  /** The promise fixes the result: two packings of the same files are the same list of buckets. */
  lemma PackedIsUnique(a: seq<Bucket>, b: seq<Bucket>, files: seq<FileInfo>, target: int)
    requires Packed(a, files, target) && Packed(b, files, target)
    ensures a == b
  {
    PartsFit(a, files, target);
    PartsFit(b, files, target);
    PackIsOptimal(a, files, target, Parts(b));
    PackIsOptimal(b, files, target, Parts(a));
    forall i | 0 <= i < |a|
      ensures a[i] == b[i]
    {
      SameStart(Parts(a), Parts(b), target, i);
      SameStart(Parts(a), Parts(b), target, i + 1);
      PartAt(Parts(a), i);
      PartAt(Parts(b), i);
      assert Parts(a)[i] == Parts(b)[i];
      assert a[i] in a && b[i] in b;
    }
  }

  lemma SameStart(a: seq<seq<FileInfo>>, b: seq<seq<FileInfo>>, target: int, i: nat)
    requires NextFit(a, target) && NextFit(b, target) && Join(a) == Join(b)
    requires i <= |a| && i <= |b|
    ensures Start(a, i) == Start(b, i)
  {
    assert forall s <- a :: Fits(s, target);
    assert forall s <- b :: Fits(s, target);
    StaysAhead(a, b, target, i);
    StaysAhead(b, a, target, i);
  }

  lemma {:induction false} StartIsLater(parts: seq<seq<FileInfo>>, target: int, i: nat)
    requires NextFit(parts, target) && i <= |parts|
    ensures i <= Start(parts, i)
  {
    hide Join;
    if i > 0 {
      StartIsLater(parts, target, i - 1);
      PartAt(parts, i - 1);
      assert parts[i - 1] != [];
    }
  }

  /** There are at most as many buckets as files. */
  lemma BucketsAreFewer(buckets: seq<Bucket>, files: seq<FileInfo>, target: int)
    requires Packed(buckets, files, target)
    ensures |buckets| <= |files|
  {
    StartIsLater(Parts(buckets), target, |buckets|);
    StartEnd(Parts(buckets));
  }

  // ---- Bounds --------------------------------------------------------------

  /** Two neighbouring buckets never fit on one disc together. */
  lemma NeighboursOverfill(buckets: seq<Bucket>, files: seq<FileInfo>, target: int, i: nat)
    requires Packed(buckets, files, target) && i + 1 < |buckets|
    ensures buckets[i].totalSize + buckets[i + 1].totalSize > target
  {
    var parts := Parts(buckets);
    assert Overfills(parts[i], parts[i + 1], target);
    assert buckets[i] in buckets && buckets[i + 1] in buckets;
    assert parts[i + 1] == [parts[i + 1][0]] + parts[i + 1][1..];
    SumConcat([parts[i + 1][0]], parts[i + 1][1..]);
    assert Sum([parts[i + 1][0]]) == parts[i + 1][0].size;
  }

  lemma SumOfStart(parts: seq<seq<FileInfo>>, n: nat)
    requires n < |parts|
    ensures Sum(Join(parts[..n + 1])) == Sum(Join(parts[..n])) + Sum(parts[n])
  {
    hide Join;
    Split(parts, n);
    SumConcat(Join(parts[..n]), parts[n]);
  }

  lemma {:induction false} PairsOverfill(buckets: seq<Bucket>, files: seq<FileInfo>, target: nat, pairs: nat)
    requires Packed(buckets, files, target) && 2 * pairs <= |buckets|
    ensures pairs * (target + 1) <= Sum(Join(Parts(buckets)[..2 * pairs]))
  {
    hide Join;
    if pairs > 0 {
      var n := 2 * pairs;
      PairsOverfill(buckets, files, target, pairs - 1);
      NeighboursOverfill(buckets, files, target, n - 2);
      SumOfStart(Parts(buckets), n - 2);
      SumOfStart(Parts(buckets), n - 1);
      assert buckets[n - 2] in buckets && buckets[n - 1] in buckets;
      assert pairs * (target + 1) == (pairs - 1) * (target + 1) + (target + 1);
    }
  }

  /** At most one disc in two is less than half used: `k` discs hold at least k/2 targets. */
  lemma DiscCountBound(buckets: seq<Bucket>, files: seq<FileInfo>, target: nat)
    requires Packed(buckets, files, target)
    ensures |buckets| / 2 * (target + 1) <= Sum(files)
  {
    var parts, n := Parts(buckets), 2 * (|buckets| / 2);
    PairsOverfill(buckets, files, target, |buckets| / 2);
    assert parts == parts[..n] + parts[n..];
    JoinConcat(parts[..n], parts[n..]);
    SumConcat(Join(parts[..n]), Join(parts[n..]));
  }

  /** Data plus parity fits the disc, unless the bucket is one oversized file after zero-size files. */
  lemma BucketFitsDisc(buckets: seq<Bucket>, files: seq<FileInfo>, capacity: int, parityPercent: int, i: nat)
    requires 0 <= capacity <= MAX_INT64 / 100 && 0 <= parityPercent <= 100
    requires Packed(buckets, files, TargetDataSize(capacity, parityPercent)) && i < |buckets|
    ensures var b := buckets[i];
            && b.files != []
            && (b.totalSize * (100 + parityPercent) <= 100 * capacity
                || (AllZero(b.files[..|b.files| - 1]) && b.totalSize == b.files[|b.files| - 1].size))
  {
    var target := TargetDataSize(capacity, parityPercent);
    var b, d := buckets[i], 100 + parityPercent;
    TargetIsDataBudget(capacity, parityPercent);
    assert Fits(Parts(buckets)[i], target) && b in buckets;
    if b.totalSize <= target {
      Scale(b.totalSize, target, d);
    } else {
      ZeroSum(b.files[..|b.files| - 1]);
    }
  }

  lemma Scale(a: int, b: int, d: int)
    requires a <= b && d > 0
    ensures a * d <= b * d
  {
  }

  // ---- Oversized files -----------------------------------------------------

  /** The bucket still open after the first `k` files. */
  function Open(files: seq<FileInfo>, k: nat, target: int): seq<FileInfo>
    requires k <= |files|
  {
    if k == 0 then [] else
      var before := Open(files, k - 1, target);
      var f := files[k - 1];
      if Sum(before) > 0 && Sum(before) + f.size > target then [f] else before + [f]
  }

  /** Just before file `k` the open bucket holds no data, or too much to take more. */
  predicate Fresh(files: seq<FileInfo>, k: nat, target: int)
    requires k <= |files|
  {
    k == 0 || files[k - 1].size > target || (files[k - 1].size == 0 && Fresh(files, k - 1, target))
  }

  lemma {:induction false} FreshMeansNoRoom(files: seq<FileInfo>, k: nat, target: nat)
    requires k <= |files|
    ensures Fresh(files, k, target) <==> Sum(Open(files, k, target)) == 0 || Sum(Open(files, k, target)) > target
  {
    if k > 0 {
      FreshMeansNoRoom(files, k - 1, target);
      OpenSum(files, k - 1, target);
    }
  }

  lemma OpenSum(files: seq<FileInfo>, k: nat, target: int)
    requires k < |files|
    ensures var before := Open(files, k, target); var f := files[k];
            Sum(Open(files, k + 1, target)) ==
              if Sum(before) > 0 && Sum(before) + f.size > target then f.size else Sum(before) + f.size
  {
    var before := Open(files, k, target);
    var f := files[k];
    assert (before + [f])[..|before|] == before;
    assert Sum([f]) == f.size;
  }

  /** While a bucket is being filled, the open bucket is its filled part. */
  lemma {:induction false} OpenIsPart(parts: seq<seq<FileInfo>>, target: int, i: nat, n: nat)
    requires NextFit(parts, target) && i < |parts| && 0 < n <= |parts[i]|
    ensures Start(parts, i) + n <= |Join(parts)|
    ensures Open(Join(parts), Start(parts, i) + n, target) == parts[i][..n]
    decreases i, n
  {
    hide Join;
    hide Sum;
    hide Open;
    PartAt(parts, i);
    var files, k := Join(parts), Start(parts, i) + n - 1;
    assert files[k] == parts[i][n - 1];
    assert parts[i][..n] == parts[i][..n - 1] + [parts[i][n - 1]];
    assert Fits(parts[i], target);
    if n > 1 {
      OpenIsPart(parts, target, i, n - 1);
      StaysOpen(parts[i], target, n - 1);
      OpenNext(files, k, target, parts[i][..n - 1]);
    } else if i > 0 {
      PartAt(parts, i - 1);
      OpenIsPart(parts, target, i - 1, |parts[i - 1]|);
      assert parts[i - 1][..|parts[i - 1]|] == parts[i - 1];
      assert Overfills(parts[i - 1], parts[i], target);
      OpenNext(files, k, target, parts[i - 1]);
    } else {
      StartZero(parts);
      OpenFirst(files, target);
    }
  }

  lemma OpenFirst(files: seq<FileInfo>, target: int)
    requires files != []
    ensures Open(files, 1, target) == [files[0]]
  {
    assert [] + [files[0]] == [files[0]];
  }

  lemma OpenNext(files: seq<FileInfo>, k: nat, target: int, before: seq<FileInfo>)
    requires k < |files| && Open(files, k, target) == before
    ensures Open(files, k + 1, target) ==
      if Sum(before) > 0 && Sum(before) + files[k].size > target then [files[k]] else before + [files[k]]
  {
  }

  /** Inside a disc's worth of files no proper prefix is closed early. */
  lemma StaysOpen(part: seq<FileInfo>, target: int, n: nat)
    requires Fits(part, target) && n < |part|
    ensures Sum(part[..n]) > 0 ==> Sum(part[..n]) + part[n].size <= target
  {
    assert part == part[..n] + ([part[n]] + part[n + 1..]);
    SumConcat(part[..n], [part[n]] + part[n + 1..]);
    SumConcat([part[n]], part[n + 1..]);
    assert Sum([part[n]]) == part[n].size;
    if AllZero(part[..|part| - 1]) {
      assert forall f <- part[..n] :: f in part[..|part| - 1];
      ZeroSum(part[..n]);
    }
  }

  /**
   * The comment on Pack says an oversized file never shares a disc. It does exactly
   * when the file before it is zero-size and, going back over the zero-size files,
   * one meets the start of the list or another oversized file.
   */
  lemma OversizedFileShares(buckets: seq<Bucket>, files: seq<FileInfo>, target: nat, i: nat)
    requires Packed(buckets, files, target) && i < |buckets| && buckets[i].totalSize > target
    ensures var b := buckets[i].files; var k := Start(Parts(buckets), i + 1) - 1;
            && 0 <= k < |files| && files[k] == b[|b| - 1] && files[k].size > target
            && (|b| > 1 <==> k > 0 && files[k - 1].size == 0 && Fresh(files, k - 1, target))
  {
    hide Join;
    hide Sum;
    hide Open;
    hide Fresh;
    var parts := Parts(buckets);
    var b := buckets[i].files;
    PartAt(parts, i);
    assert Fits(parts[i], target) && buckets[i] in buckets;
    hide Fits;
    var k := Start(parts, i) + |b| - 1;
    OversizedLast(b, target);
    assert files[k] == b[|b| - 1];
    if |b| > 1 {
      OpenIsPart(parts, target, i, |b| - 1);
      assert files[k - 1] == b[|b| - 2] == b[..|b| - 1][|b| - 2];
      FreshAfterNothing(files, k, target);
    } else if i > 0 {
      OpenIsPart(parts, target, i - 1, |parts[i - 1]|);
      PartAt(parts, i - 1);
      assert parts[i - 1][..|parts[i - 1]|] == parts[i - 1];
      assert Overfills(parts[i - 1], parts[i], target);
      FreshBeforeZero(files, k, target);
    } else {
      StartZero(parts);
    }
  }

  lemma StartZero(parts: seq<seq<FileInfo>>)
    ensures Start(parts, 0) == 0
  {
  }

  /** A disc's worth over the target is zero-size files and then one oversized file. */
  lemma OversizedLast(b: seq<FileInfo>, target: nat)
    requires b != [] && Fits(b, target) && Sum(b) > target
    ensures AllZero(b[..|b| - 1]) && Sum(b[..|b| - 1]) == 0 && b[|b| - 1].size == Sum(b)
  {
    ZeroSum(b[..|b| - 1]);
  }

  lemma FreshAfterNothing(files: seq<FileInfo>, k: nat, target: nat)
    requires 0 < k <= |files| && Sum(Open(files, k, target)) == 0
    ensures Fresh(files, k - 1, target)
  {
    hide *;
    OpenSum(files, k - 1, target);
    FreshMeansNoRoom(files, k - 1, target);
  }

  /** A zero-size file put in a fresh position opens an empty bucket, so the next file joins it. */
  lemma FreshBeforeZero(files: seq<FileInfo>, k: nat, target: nat)
    requires 0 < k <= |files| && Sum(Open(files, k, target)) > 0
    ensures !(files[k - 1].size == 0 && Fresh(files, k - 1, target))
  {
    FreshMeansNoRoom(files, k - 1, target);
    OpenSum(files, k - 1, target);
  }

  /** A zero-size file followed by one over the target: the two share a bucket. */
  lemma OversizedFileSharesExample(buckets: seq<Bucket>)
    requires Packed(buckets, [FileInfo("empty", 0), FileInfo("huge", 100)], 70)
    ensures buckets == [Bucket([FileInfo("empty", 0), FileInfo("huge", 100)], 100)]
  {
    var files := [FileInfo("empty", 0), FileInfo("huge", 100)];
    var one := [Bucket(files, 100)];
    assert Parts(one)[..0] == [] && Join([]) == [];
    assert Join(Parts(one)) == files;
    assert files[..1] == [FileInfo("empty", 0)] && Sum(files[..1]) == 0;
    PackedIsUnique(buckets, one, files, 70);
  }
}
