/** End to end: what the burn manager leaves behind is what the retrieval manager needs. */
module Recovery {
  import opened Bytes
  import opened XorDisk
  import opened DiskIds
  import opened Plan
  import opened PlanProps
  import opened Tools
  import opened BurnWorld
  import opened BurnInv
  import opened BurnKeep
  import opened BurnKeepData
  import opened BurnRuns
  import opened BurnFacts
  import opened BurnMeta
  import opened BurnIds
  import opened BurnCommit
  import opened Reconstruct
  import opened Retrieve

  // ---- A finished group ----------------------------------------------------------------------

  /** A disc whose medium is an image built for it, from some payload. */
  ghost predicate HoldsImage(t: Tools, id: DiskId, image: Bytes) {
    exists plan: DiscPlan, opts: Options, payload: Bytes :: plan.id == id && Built(t, image, plan, opts, payload)
  }

  ghost predicate HoldsPayload(t: Tools, id: DiskId, image: Bytes, payload: Bytes) {
    exists plan: DiscPlan, opts: Options :: plan.id == id && Built(t, image, plan, opts, payload)
  }

  /** The catalog's rows of a group: exactly its data discs and its parity disc, by ascending slot. */
  ghost predicate GroupRows(disks: map<DiskId, DiskRow>, group: string, data: seq<DiskId>, parity: DiskId) {
    var ids := data + [parity];
    && (forall id :: id in ids <==> id in disks && disks[id].group == Some(group))
    && (forall i :: 0 <= i < |ids| ==> ids[i] in disks && disks[ids[i]].slot.Some?
                                       && disks[ids[i]].role == if i < |data| then Data else Parity)
    && (forall i, j :: 0 <= i < j < |ids| ==> ids[i] in disks && ids[j] in disks
                                              && disks[ids[i]].slot.Some? && disks[ids[j]].slot.Some?
                                              && disks[ids[i]].slot.value < disks[ids[j]].slot.value)
  }

  /** The media of a group: true images, and a parity payload that is the XOR of the data images. */
  ghost predicate GroupMedia(t: Tools, media: map<DiskId, Bytes>, capacity: nat, data: seq<DiskId>, parity: DiskId) {
    && OnMedia(media, data) && parity in media
    && (forall i :: 0 <= i < |data| ==> HoldsImage(t, data[i], media[data[i]]))
    && HoldsPayload(t, parity, media[parity], Xor(MediaImages(media, data), capacity))
  }

  lemma RowsDistinct(disks: map<DiskId, DiskRow>, group: string, data: seq<DiskId>, parity: DiskId)
    requires GroupRows(disks, group, data, parity)
    ensures Distinct(data + [parity])
  {
  }

  /** Two lists of the same discs, both by ascending slot, are the same list. */
  lemma {:induction false} SameListing(disks: map<DiskId, DiskRow>, a: seq<DiskId>, b: seq<DiskId>)
    requires Distinct(b) && forall id :: id in a <==> id in b
    requires forall i :: 0 <= i < |a| ==> a[i] in disks && disks[a[i]].slot.Some?
    requires forall i, j :: 0 <= i < j < |a| ==> disks[a[i]].slot.value < disks[a[j]].slot.value
    requires forall i, j :: 0 <= i < j < |b| ==> b[i] in disks && b[j] in disks
                                                 && NotAfter(disks[b[i]].slot, disks[b[j]].slot)
    ensures a == b
    decreases |a|
  {
    if a == [] {
      HasMember(b);
    } else {
      assert a[0] in b;
      assert b[0] in a;
      var i :| 0 <= i < |a| && a[i] == b[0];
      var j :| 0 <= j < |b| && b[j] == a[0];
      assert i == 0;
      forall id
        ensures id in a[1..] <==> id in b[1..]
      {
        InTail(a, id);
        InTail(b, id);
      }
      SameListing(disks, a[1..], b[1..]);
    }
  }

  lemma HasMember(ids: seq<DiskId>)
    ensures ids == [] || exists id :: id in ids
  {
    if ids != [] {
      assert ids[0] in ids;
    }
  }

  lemma InTail(ids: seq<DiskId>, id: DiskId)
    requires ids != [] && Distinct(ids)
    ensures id in ids[1..] <==> id in ids && id != ids[0]
  {
    assert ids == [ids[0]] + ids[1..];
  }

  /**
   * The erasure theorem for a finished group. One data disc is lost, its image no longer than
   * the capacity. The others were read in any order and any number of times, each last read
   * well: data discs raw, the parity disc's payload from inside its image. Then the rebuilt
   * image is the lost one, zero-padded to the capacity, and every file reads from it as it
   * did from the lost disc.
   */
  lemma LostDiscIsRebuilt(t: Tools, disks: map<DiskId, DiskRow>, media: map<DiskId, Bytes>, group: string,
                          capacity: nat, data: seq<DiskId>, parity: DiskId, k: nat, ids: seq<DiskId>,
                              supplies: seq<Supply>)
    requires Lawful(t) && GroupRows(disks, group, data, parity) && GroupMedia(t, media, capacity, data, parity)
    requires k < |data| && |media[data[k]]| <= capacity
    requires GroupListing(disks, group, ids)
    requires forall id :: id in ids && id != data[k] ==>
               && id in disks && id in media
               && LastImage(supplies, id) == Operand(t, disks[id].role, id, Some(media[id]), capacity)
    ensures var others := Others(ids, data[k]);
            var rebuilt := Rebuilt(others, Session(others, supplies), capacity);
            && rebuilt == Some(Pad(media[data[k]], capacity))
            && forall path :: Outcome(t, rebuilt, data[k], path) == ReadFile(t, media[data[k]], data[k], path)
  {
    hide Lawful;
    hide HoldsImage;
    hide HoldsPayload;
    hide Session;
    hide Rebuilt;
    hide Operand;
    hide LastImage;
    hide ReadFile;
    var lost := media[data[k]];
    RowsDistinct(disks, group, data, parity);
    SameListing(disks, data + [parity], ids);
    ImageIsRebuilt(t, disks, media, group, capacity, data, parity, k, supplies);
    PadExtends(lost, capacity);
    assert HoldsImage(t, data[k], lost);
    hide *;
    forall path
      ensures ReadFile(t, lost + Zeros(capacity - |lost|), data[k], path) == ReadFile(t, lost, data[k], path)
    {
      PaddedReads(t, data[k], lost, capacity - |lost|, path);
    }
    RebuiltReads(t, Some(lost + Zeros(capacity - |lost|)), lost, data[k]);
  }

  /**
   * Whatever the size of the lost image: what is rebuilt begins with all of it if and only if
   * it is no longer than the capacity. Of a longer one the capacity's worth comes back.
   */
  lemma RebuiltIsWholeIff(t: Tools, disks: map<DiskId, DiskRow>, media: map<DiskId, Bytes>, group: string,
                          capacity: nat, data: seq<DiskId>, parity: DiskId, k: nat, ids: seq<DiskId>,
                              supplies: seq<Supply>)
    requires Lawful(t) && GroupRows(disks, group, data, parity) && GroupMedia(t, media, capacity, data, parity)
    requires k < |data| && GroupListing(disks, group, ids)
    requires forall id :: id in ids && id != data[k] ==>
               && id in disks && id in media
               && LastImage(supplies, id) == Operand(t, disks[id].role, id, Some(media[id]), capacity)
    ensures var others, lost := Others(ids, data[k]), media[data[k]];
            var rebuilt := Rebuilt(others, Session(others, supplies), capacity);
            && rebuilt.Some? && (lost <= rebuilt.value <==> |lost| <= capacity)
            && (|lost| > capacity ==> rebuilt.value == lost[..capacity])
  {
    hide Lawful;
    hide HoldsImage;
    hide HoldsPayload;
    hide Session;
    hide Rebuilt;
    hide Operand;
    hide LastImage;
    RowsDistinct(disks, group, data, parity);
    SameListing(disks, data + [parity], ids);
    ImageIsRebuilt(t, disks, media, group, capacity, data, parity, k, supplies);
    PadOrCut(media[data[k]], capacity);
    hide Pad;
  }

  lemma PadOrCut(image: Bytes, n: nat)
    ensures image <= Pad(image, n) <==> |image| <= n
    ensures |image| > n ==> Pad(image, n) == image[..n]
  {
    if |image| <= n {
      PadExtends(image, n);
    }
  }

  lemma RebuiltReads(t: Tools, rebuilt: Option<Bytes>, lost: Bytes, id: DiskId)
    requires rebuilt.Some?
    requires forall path :: ReadFile(t, rebuilt.value, id, path) == ReadFile(t, lost, id, path)
    ensures forall path :: Outcome(t, rebuilt, id, path) == ReadFile(t, lost, id, path)
  {
    hide ReadFile;
  }

  lemma ImageIsRebuilt(t: Tools, disks: map<DiskId, DiskRow>, media: map<DiskId, Bytes>, group: string,
                       capacity: nat, data: seq<DiskId>, parity: DiskId, k: nat, supplies: seq<Supply>)
    requires Lawful(t) && GroupRows(disks, group, data, parity) && GroupMedia(t, media, capacity, data, parity)
    requires k < |data|
    requires forall id :: id in data + [parity] && id != data[k] ==>
               && id in disks && id in media
               && LastImage(supplies, id) == Operand(t, disks[id].role, id, Some(media[id]), capacity)
    ensures var others := Others(data + [parity], data[k]);
            Rebuilt(others, Session(others, supplies), capacity) == Some(Pad(media[data[k]], capacity))
  {
    var ids, images := data + [parity], MediaImages(media, data);
    assert ids[|data|] == parity && ids[k] == data[k];
    ParityOperand(t, disks, media, parity, Xor(images, capacity), capacity);
    RowsDistinct(disks, group, data, parity);
    hide HoldsImage;
    hide HoldsPayload;
    hide Lawful;
    forall i | 0 <= i < |ids| && i != k
      ensures var read := LastImage(supplies, ids[i]);
              read == Some(Operands(images, capacity)[i]) || read == Some(Cut(Operands(images, capacity)[i], capacity))
    {
      OtherIsOperand(t, disks, media, group, capacity, data, parity, k, supplies, i);
    }
    hide GroupRows;
    SessionRebuilds(ids, images, k, supplies, capacity);
  }

  lemma OtherIsOperand(t: Tools, disks: map<DiskId, DiskRow>, media: map<DiskId, Bytes>, group: string,
                       capacity: nat, data: seq<DiskId>, parity: DiskId, k: nat, supplies: seq<Supply>, i: nat)
    requires GroupRows(disks, group, data, parity) && OnMedia(media, data) && parity in media
    requires Operand(t, Parity, parity, Some(media[parity]), capacity) == Some(Xor(MediaImages(media, data), capacity))
    requires k < |data| && i <= |data| && i != k
    requires forall id :: id in data + [parity] && id != data[k] ==>
               && id in disks && id in media
               && LastImage(supplies, id) == Operand(t, disks[id].role, id, Some(media[id]), capacity)
    ensures var read, operand := LastImage(supplies, (data + [parity])[i]),
            Operands(MediaImages(media, data), capacity)[i];
            read == Some(operand) || read == Some(Cut(operand, capacity))
  {
    var ids := data + [parity];
    RowsDistinct(disks, group, data, parity);
    assert ids[k] == data[k] && ids[i] in ids && ids[i] != ids[k];
    hide Xor;
    hide LastImage;
  }

  lemma ParityOperand(t: Tools, disks: map<DiskId, DiskRow>, media: map<DiskId, Bytes>, parity: DiskId,
                      payload: Bytes, capacity: nat)
    requires Lawful(t) && parity in disks && disks[parity].role == Parity && parity in media
    requires HoldsPayload(t, parity, media[parity], payload)
    ensures Operand(t, disks[parity].role, parity, Some(media[parity]), capacity) == Some(payload)
  {
    var plan: DiscPlan, opts: Options :| plan.id == parity && Built(t, media[parity], plan, opts, payload);
    hide Built;
    BuiltReads(t, media[parity], plan, opts, payload, 0, "");
    assert media[parity] + Zeros(0) == media[parity];
  }

  /** Zeros after an image do not change what is read from it. */
  lemma PaddedReads(t: Tools, id: DiskId, image: Bytes, n: nat, path: string)
    requires Lawful(t) && HoldsImage(t, id, image)
    ensures ReadFile(t, image + Zeros(n), id, path) == ReadFile(t, image, id, path)
  {
    var plan: DiscPlan, opts: Options, payload: Bytes :| plan.id == id && Built(t, image, plan, opts, payload);
    BuiltReads(t, image, plan, opts, payload, n, path);
    BuiltReads(t, image, plan, opts, payload, 0, path);
    assert image + Zeros(0) == image;
  }

  // ---- Finished groups in the burn manager's world ------------------------------------------------

  /** The group whose parity disc is plan `p` of the current job is complete: the job has gone past it. */
  ghost predicate GroupFinished(w: World, p: nat) {
    && w.job.Some? && p < w.job.value.index && p < |w.job.value.plans| && w.job.value.plans[p].role == Parity
    && !Stuck(w)
  }

  /**
   * Everything a group finished under `opts` needs to stay recoverable: rows, media, and that
   * its discs are final.
   */
  ghost predicate Recoverable(t: Tools, w: World, group: string, opts: Options, data: seq<DiskId>, parity: DiskId) {
    && data != [] && group in w.groups
    && GroupRows(w.disks, group, data, parity) && GroupMedia(t, w.media, opts.capacity, data, parity)
    && (forall id :: id in data + [parity] ==>
          id in w.sealed && id in w.disks && w.disks[id].mediaType == opts.mediaType)
  }

  /** A disc this job wrote has a row that says so, and its medium is a true image. */
  lemma WrittenPlan(t: Tools, w: World, j: nat)
    requires Inv(t, w) && w.job.Some? && j < WrittenTo(w) && j < |w.job.value.plans|
    ensures var plan := w.job.value.plans[j];
            && plan.id in w.disks && plan.id in w.media
            && w.disks[plan.id] == RowOf(w.job.value.options, plan, t.hash(w.media[plan.id]))
            && ImageOk(t, w.job.value.options, w.job.value.plans, plan, w.media)
            && (j < w.job.value.index ==> plan.id in w.sealed)
  {
    hide Inv;
    hide NumbersOk;
    hide GroupsKnown;
    hide Foreign;
    hide RowsBacked;
    hide OnDisc;
    hide RowOf;
    hide ImageOk;
    DisksPart(t, w);
    ImagesPart(t, w);
    BackedPart(t, w);
  }

  /** A catalogued disc of a finished group of this job is one that the job wrote. */
  lemma GroupDiscIsOurs(t: Tools, w: World, p: nat, id: DiskId) returns (j: nat)
    requires Inv(t, w) && GroupFinished(w, p) && w.job.value.plans[p].group != ""
    requires id in w.disks && w.disks[id].group == Some(w.job.value.plans[p].group)
    ensures j < WrittenTo(w) && j < |w.job.value.plans| && w.job.value.plans[j].id == id
  {
    hide Inv;
    hide NumbersOk;
    hide GroupsKnown;
    hide WrittenRows;
    hide Counted;
    MinePart(t, w);
    DisksPart(t, w);
    var plans := w.job.value.plans;
    assert id in w.mine;
    j :| 0 <= j < |plans| && plans[j].id == id;
  }

  /** Where the data discs of a group are planned, in order. */
  lemma GroupPlaces(plans: seq<DiscPlan>, group: string) returns (places: seq<nat>)
    ensures |places| == |GroupData(plans, group)|
    ensures forall x :: 0 <= x < |places| ==>
              && places[x] < |plans| && plans[places[x]].role == Data && plans[places[x]].group == group
              && plans[places[x]].id == GroupData(plans, group)[x]
    ensures forall x, y :: 0 <= x < y < |places| ==> places[x] < places[y]
  {
    hide GroupData;
    places := [];
    NothingRead(map[], plans, group);
    for i := 0 to |plans|
      invariant |places| == |GroupData(plans[..i], group)|
      invariant forall x :: 0 <= x < |places| ==>
                  && places[x] < i && plans[places[x]].role == Data && plans[places[x]].group == group
                  && plans[places[x]].id == GroupData(plans[..i], group)[x]
      invariant forall x, y :: 0 <= x < y < |places| ==> places[x] < places[y]
    {
      GroupDataNext(plans, i, group);
      if plans[i].role == Data && plans[i].group == group {
        places := places + [i];
      }
    }
    assert plans[..|plans|] == plans;
  }

  /** In a plan list, a group ends with its parity disc, the only one of its kind in the group. */
  lemma GroupShape(plans: seq<DiscPlan>, opts: Options, base: nat, p: nat, j: nat)
    requires PlansOk(plans, opts, base) && p < |plans| && plans[p].role == Parity
    requires j < |plans| && plans[j].group == plans[p].group
    ensures plans[p].group != "" && j <= p && (j < p ==> plans[j].role == Data && plans[j].slot < plans[p].slot)
  {
    assert PlanOk(plans[p], opts, base, p, |plans|);
    AreApart(plans, opts, base, j, p);
    AreApart(plans, opts, base, p, j);
  }

  lemma AreApart(plans: seq<DiscPlan>, opts: Options, base: nat, i: nat, j: nat)
    requires PlansOk(plans, opts, base) && i < |plans| && j < |plans|
    ensures i < j ==> Apart(plans[i], plans[j])
  {
  }

  lemma SlotsAscend(plans: seq<DiscPlan>, opts: Options, base: nat, i: nat, j: nat)
    requires PlansOk(plans, opts, base) && i < j < |plans| && plans[i].group == plans[j].group && plans[i].group != ""
    ensures plans[i].slot < plans[j].slot
  {
    assert Apart(plans[i], plans[j]);
  }

  lemma JobPlans(t: Tools, w: World)
    requires Inv(t, w) && w.job.Some?
    ensures PlansOk(w.job.value.plans, w.job.value.options, w.base)
    ensures forall j :: 0 <= j < |w.job.value.plans| && w.job.value.plans[j].group != "" ==>
              w.job.value.plans[j].group in w.groups
  {
    hide Inv;
    hide NumbersOk;
    hide GroupsKnown;
    hide WrittenRows;
    hide PlansOk;
    JobPart(t, w);
    DisksPart(t, w);
  }

  /** Membership of the catalog's group: the planned data discs and the parity disc. */
  lemma FinishedMembers(t: Tools, w: World, p: nat, id: DiskId)
    requires Inv(t, w) && GroupFinished(w, p)
    ensures var group := w.job.value.plans[p].group;
            id in GroupData(w.job.value.plans, group) + [w.job.value.plans[p].id]
            <==> id in w.disks && w.disks[id].group == Some(group)
  {
    hide Inv;
    hide GroupData;
    hide ImageOk;
    var plans, opts := w.job.value.plans, w.job.value.options;
    var group := plans[p].group;
    JobPlans(t, w);
    GroupShape(plans, opts, w.base, p, p);
    WrittenPlan(t, w, p);
    GroupDataIn(plans, group, id);
    if id in GroupData(plans, group) {
      GroupDataEarlier(plans, opts, w.base, p, id);
      var i :| 0 <= i < p && plans[i].role == Data && plans[i].group == group && plans[i].id == id;
      WrittenPlan(t, w, i);
    }
    if id in w.disks && w.disks[id].group == Some(group) {
      var j := GroupDiscIsOurs(t, w, p, id);
      WrittenPlan(t, w, j);
      hide PlansOk;
      GroupShape(plans, opts, w.base, p, j);
    }
  }

  /** Once a cross-parity job is DONE, each of its data discs is in a finished group. */
  lemma DoneFinishesGroups(t: Tools, w: World, j: nat) returns (p: nat, k: nat)
    requires Inv(t, w) && w.job.Some? && w.job.value.state == Done && w.job.value.options.crossParity
    requires j < |w.job.value.plans| && w.job.value.plans[j].role == Data
    ensures GroupFinished(w, p) && w.job.value.plans[p].group == w.job.value.plans[j].group
    ensures var data := GroupData(w.job.value.plans, w.job.value.plans[p].group);
            k < |data| && data[k] == w.job.value.plans[j].id
  {
    hide Inv;
    hide PlansOk;
    hide GroupData;
    var plans, opts := w.job.value.plans, w.job.value.options;
    JobPlans(t, w);
    DoneIsPast(t, w);
    p := j;
    while plans[p].role == Data
      invariant p < |plans| && plans[p].group == plans[j].group
      decreases |plans| - p
    {
      NextOfGroup(plans, opts, w.base, p);
      p := p + 1;
    }
    GroupDataIn(plans, plans[p].group, plans[j].id);
    k :| 0 <= k < |GroupData(plans, plans[p].group)| && GroupData(plans, plans[p].group)[k] == plans[j].id;
  }

  lemma DoneIsPast(t: Tools, w: World)
    requires Inv(t, w) && w.job.Some? && w.job.value.state == Done
    ensures w.job.value.index == |w.job.value.plans|
  {
    hide Inv;
    hide PlansOk;
    JobPart(t, w);
  }

  /** What the burn manager leaves behind for each finished group. */
  lemma FinishedIsKept(t: Tools, w: World, p: nat)
    requires Inv(t, w) && GroupFinished(w, p)
    ensures var plans := w.job.value.plans;
            Recoverable(t, w, plans[p].group, w.job.value.options, GroupData(plans, plans[p].group), plans[p].id)
  {
    hide Inv;
    hide PlansOk;
    var plans, opts := w.job.value.plans, w.job.value.options;
    var group := plans[p].group;
    var data, parity := GroupData(plans, group), plans[p].id;
    JobPlans(t, w);
    GroupShape(plans, opts, w.base, p, p);
    FinishedRows(t, w, p);
    FinishedMedia(t, w, p);
    forall id | id in data + [parity]
      ensures id in w.sealed && id in w.disks && w.disks[id].mediaType == opts.mediaType
    {
      if id != parity {
        GroupDataEarlier(plans, opts, w.base, p, id);
        var i :| 0 <= i < p && plans[i].role == Data && plans[i].group == group && plans[i].id == id;
        WrittenPlan(t, w, i);
      } else {
        WrittenPlan(t, w, p);
      }
    }
    ParityGroupNotEmpty(plans, opts, w.base, p);
    hide *;
  }

  lemma FinishedRows(t: Tools, w: World, p: nat)
    requires Inv(t, w) && GroupFinished(w, p)
    ensures var plans := w.job.value.plans;
            GroupRows(w.disks, plans[p].group, GroupData(plans, plans[p].group), plans[p].id)
  {
    hide Inv;
    hide PlansOk;
    hide ImageOk;
    var plans, opts := w.job.value.plans, w.job.value.options;
    var group := plans[p].group;
    JobPlans(t, w);
    forall id
      ensures id in GroupData(plans, group) + [plans[p].id] <==> id in w.disks && w.disks[id].group == Some(group)
    {
      FinishedMembers(t, w, p, id);
    }
    var places := GroupPlaces(plans, group);
    hide GroupData;
    var all, ids := places + [p], GroupData(plans, group) + [plans[p].id];
    forall x | 0 <= x < |ids|
      ensures ids[x] == plans[all[x]].id && plans[all[x]].group == group && group != ""
      ensures ids[x] in w.disks && w.disks[ids[x]].slot == Some(plans[all[x]].slot)
      ensures w.disks[ids[x]].role == if x < |ids| - 1 then Data else Parity
      ensures x < |ids| - 1 ==> all[x] < p
    {
      GroupShape(plans, opts, w.base, p, all[x]);
      WrittenPlan(t, w, all[x]);
    }
    forall x, y | 0 <= x < y < |ids|
      ensures plans[all[x]].slot < plans[all[y]].slot
    {
      assert x < |ids| - 1;
      SlotsAscend(plans, opts, w.base, all[x], all[y]);
    }
  }

  lemma FinishedMedia(t: Tools, w: World, p: nat)
    requires Inv(t, w) && GroupFinished(w, p)
    ensures var plans := w.job.value.plans;
            GroupMedia(t, w.media, w.job.value.options.capacity, GroupData(plans, plans[p].group), plans[p].id)
  {
    hide Inv;
    hide PlansOk;
    hide RowOf;
    hide Built;
    var plans, opts := w.job.value.plans, w.job.value.options;
    var group := plans[p].group;
    JobPlans(t, w);
    WrittenPlan(t, w, p);
    var places := GroupPlaces(plans, group);
    hide GroupData;
    forall x | 0 <= x < |places|
      ensures plans[places[x]].id in w.media && HoldsImage(t, plans[places[x]].id, w.media[plans[places[x]].id])
    {
      GroupShape(plans, opts, w.base, p, places[x]);
      WrittenPlan(t, w, places[x]);
    }
  }

  // ---- ... and it stays that way --------------------------------------------------------------------

  /** A dry run is at a disc that bears the ID of a catalogued dry run: writing it truncates that one's file. */
  ghost predicate DryHits(w: World, id: DiskId) {
    HasCur(w) && Cur(w).id == id && w.job.value.options.dryRun && Collides(w, w.job.value.index)
    && w.disks[id].isDryRun
  }

  /** A finished disc is never written again, unless a dry run collides with it. */
  lemma SealedIsFinal(t: Tools, w: World, a: Action, now: World, id: DiskId)
    requires Inv(t, w) && Act(t, w, a, now) && id in w.sealed && !(a.WriteMedium? && DryHits(w, id))
    ensures id in now.sealed && id in w.disks && id in now.disks && now.disks[id] == w.disks[id]
    ensures (id in now.media <==> id in w.media) && (id in w.media ==> now.media[id] == w.media[id])
  {
    hide Inv;
    hide Act;
    hide DryHits;
    SealedFacts(t, w, id);
    if a.InsertDisk? {
      InsertInserts(t, w, a.payload, now);
      hide RowOf;
    } else if a.Advance? {
      AdvanceAdvances(t, w, now);
    } else if a.StartJob? {
      StartStarts(t, w, a, now);
    } else if a.Fail? {
      FailFails(t, w, now);
    } else if a.Restart? {
      RestartRestarts(t, w, now);
    } else if a.WriteMedium? {
      WriteSpares(t, w, a.data, now, id);
    } else {
      MostStayInPlace(t, w, a, now);
    }
  }

  lemma WriteSpares(t: Tools, w: World, data: Bytes, now: World, id: DiskId)
    requires Act(t, w, WriteMedium(data), now) && id in w.disks && !DryHits(w, id)
    requires HasCur(w) && Cur(w).id == id ==> id !in w.mine
    ensures now.disks == w.disks && now.sealed == w.sealed
    ensures (id in now.media <==> id in w.media) && (id in w.media ==> now.media[id] == w.media[id])
  {
    hide AllStaged;
    hide Truncated;
    hide HasRoom;
    WriteWrites(t, w, data, now);
    hide Act;
  }

  lemma SealedFacts(t: Tools, w: World, id: DiskId)
    requires Inv(t, w) && id in w.sealed
    ensures id in w.disks && (HasCur(w) && Cur(w).id == id ==> id !in w.mine)
  {
    hide Inv;
    hide RowsBacked;
    hide OnDisc;
    BackedPart(t, w);
  }

  /** A disc being recorded never joins a finished group. */
  lemma NewDiscOtherGroup(t: Tools, w: World, group: string, opts: Options, data: seq<DiskId>, parity: DiskId)
    requires Inv(t, w) && HasCur(w) && w.commit == Off && Cur(w).id !in w.disks
             && Recoverable(t, w, group, opts, data, parity)
    ensures Cur(w).group == "" || Cur(w).group != group
  {
    var job := w.job.value;
    if Cur(w).group == group && group != "" {
      assert (data + [parity])[|data|] == parity;
      assert parity in w.disks && w.disks[parity].group == Some(group) && w.disks[parity].role == Parity;
      assert parity in w.sealed;
      hide Recoverable;
      hide Inv;
      var j := ForeignIsMine(t, w, parity);
      JobPlans(t, w);
      WrittenPlan(t, w, j);
      hide ImageOk;
      AreApart(job.plans, job.options, w.base, j, job.index);
      assert false;
    }
  }

  lemma ForeignIsMine(t: Tools, w: World, id: DiskId) returns (j: nat)
    requires Inv(t, w) && HasCur(w) && w.commit == Off && Cur(w).group != "" && Cur(w).id !in w.disks
    requires id in w.disks && w.disks[id].group == Some(Cur(w).group)
    ensures j < w.job.value.index && w.job.value.plans[j].id == id
  {
    hide Inv;
    hide NumbersOk;
    hide GroupsKnown;
    hide WrittenRows;
    hide Counted;
    MinePart(t, w);
    DisksPart(t, w);
    var plans := w.job.value.plans;
    assert id in w.mine;
    j :| 0 <= j < |plans| && plans[j].id == id;
  }

  /** At most one disc of the group was overwritten at its target path. */
  ghost predicate OneOverwritten(overwritten: set<DiskId>, ids: seq<DiskId>) {
    forall a, b :: a in ids && b in ids && a in overwritten && b in overwritten ==> a == b
  }

  /** The group can still give back each of its files, also if it has already lost a disc. */
  ghost predicate StillRecoverable(t: Tools, w: World, group: string, opts: Options, data: seq<DiskId>,
                                   parity: DiskId) {
    Recoverable(t, w, group, opts, data, parity) && OneOverwritten(w.overwritten, data + [parity])
  }

  /**
   * One step takes a finished group's recoverability away exactly if it is a write that
   * truncates a second disc of the group at its target path, or a dry run's that puts
   * something without the group's XOR under the ID of its parity disc.
   */
  lemma StepKeepsGroupIff(t: Tools, w: World, a: Action, now: World, group: string, opts: Options,
                          data: seq<DiskId>, parity: DiskId)
    requires Inv(t, w) && Act(t, w, a, now) && StillRecoverable(t, w, group, opts, data, parity)
    ensures !StillRecoverable(t, now, group, opts, data, parity) <==>
              && a.WriteMedium? && HasCur(w)
              && (|| !OneOverwritten(w.overwritten + Truncated(w), data + [parity])
                  || (DryHits(w, parity) && OnMedia(w.media, data)
                      && !HoldsPayload(t, parity, a.data, Xor(MediaImages(w.media, data), opts.capacity))))
  {
    hide Act;
    hide Inv;
    hide Recoverable;
    hide OneOverwritten;
    hide DryHits;
    hide OnMedia;
    hide HoldsPayload;
    hide Xor;
    hide Truncated;
    OnlyWritesOverwrite(t, w, a, now);
    if a.WriteMedium? {
      WriteWrites(t, w, a.data, now);
      hide Written;
    }
    if a.WriteMedium? && DryHits(w, parity) {
      OverwrittenParity(t, w, a, now, group, opts, data, parity);
    } else {
      StepKeepsGroup(t, w, a, now, group, opts, data, parity);
    }
  }

  lemma StepKeepsGroup(t: Tools, w: World, a: Action, now: World, group: string, opts: Options,
                       data: seq<DiskId>, parity: DiskId)
    requires Inv(t, w) && Act(t, w, a, now) && Recoverable(t, w, group, opts, data, parity)
    requires !(a.WriteMedium? && DryHits(w, parity))
    ensures Recoverable(t, now, group, opts, data, parity)
  {
    hide Act;
    hide Inv;
    hide Collides;
    forall id | id in data + [parity]
      ensures id in now.sealed && id in w.disks && id in now.disks && now.disks[id] == w.disks[id]
      ensures (id in now.media <==> id in w.media) && (id in w.media ==> now.media[id] == w.media[id])
    {
      if id != parity {
        DataIsNotHit(t, w, group, opts, data, parity, id);
      }
      SealedIsFinal(t, w, a, now, id);
    }
    SameRows(t, w, a, now, group, opts, data, parity);
    SameMedia(t, w.media, now.media, opts.capacity, data, parity);
    GroupsOnlyGrow(t, w, a, now);
    hide GroupRows;
    hide GroupMedia;
  }

  /** No collision is with a data disc. */
  lemma DataIsNotHit(t: Tools, w: World, group: string, opts: Options, data: seq<DiskId>, parity: DiskId, id: DiskId)
    requires Inv(t, w) && Recoverable(t, w, group, opts, data, parity) && id in data + [parity] && id != parity
    ensures !DryHits(w, id)
  {
    hide Inv;
    var i :| 0 <= i < |data| && data[i] == id;
    assert (data + [parity])[i] == id && w.disks[id].role == Data;
    hide Recoverable;
    if DryHits(w, id) {
      CollisionsHitParityOnly(t, w, w.job.value.index);
    }
  }

  /** The dry run replaces the parity disc's file and changes nothing else of the group. */
  lemma OverwrittenParity(t: Tools, w: World, a: Action, now: World, group: string, opts: Options,
                          data: seq<DiskId>, parity: DiskId)
    requires Inv(t, w) && Act(t, w, a, now) && Recoverable(t, w, group, opts, data, parity)
    requires a.WriteMedium? && DryHits(w, parity)
    ensures OnMedia(w.media, data)
    ensures Recoverable(t, now, group, opts, data, parity)
       <==> HoldsPayload(t, parity, a.data, Xor(MediaImages(w.media, data), opts.capacity))
  {
    hide Act;
    hide Inv;
    hide HoldsImage;
    hide HoldsPayload;
    hide Xor;
    DryWriteHits(t, w, a.data, now, parity);
    RowsDistinct(w.disks, group, data, parity);
    hide GroupRows;
    assert (data + [parity])[|data|] == parity;
    forall i | 0 <= i < |data|
      ensures data[i] != parity
    {
      assert (data + [parity])[i] == data[i];
    }
    assert MediaImages(now.media, data) == MediaImages(w.media, data);
  }

  lemma DryWriteHits(t: Tools, w: World, data: Bytes, now: World, id: DiskId)
    requires Act(t, w, WriteMedium(data), now) && DryHits(w, id)
    ensures now.media == w.media[id := data]
    ensures now.disks == w.disks && now.sealed == w.sealed && now.groups == w.groups
  {
    hide AllStaged;
    hide Truncated;
    hide HasRoom;
    WriteWrites(t, w, data, now);
    hide Act;
  }

  lemma GroupsOnlyGrow(t: Tools, w: World, a: Action, now: World)
    requires Act(t, w, a, now)
    ensures w.groups <= now.groups
  {
    hide Act;
    if a.InsertDisk? {
      InsertInserts(t, w, a.payload, now);
    } else if a.Advance? {
      AdvanceAdvances(t, w, now);
    } else if a.StartJob? {
      StartStarts(t, w, a, now);
    } else if a.Fail? {
      FailFails(t, w, now);
    } else if a.Restart? {
      RestartRestarts(t, w, now);
    } else {
      MostStayInPlace(t, w, a, now);
    }
  }

  lemma SameRows(t: Tools, w: World, a: Action, now: World, group: string, opts: Options,
                 data: seq<DiskId>, parity: DiskId)
    requires Inv(t, w) && Act(t, w, a, now) && Recoverable(t, w, group, opts, data, parity)
    requires forall id :: id in data + [parity] ==> id in w.disks && id in now.disks && now.disks[id] == w.disks[id]
    ensures GroupRows(now.disks, group, data, parity)
  {
    hide Act;
    hide Inv;
    if a.InsertDisk? {
      InsertInserts(t, w, a.payload, now);
      NewDiscOtherGroup(t, w, group, opts, data, parity);
      hide GroupMedia;
      var id := Cur(w).id;
      assert now.disks == w.disks[id := now.disks[id]] && now.disks[id].group != Some(group);
      hide RowOf;
      hide Inserts;
    } else {
      SameDisks(t, w, a, now);
    }
  }

  lemma SameDisks(t: Tools, w: World, a: Action, now: World)
    requires Act(t, w, a, now) && !a.InsertDisk?
    ensures now.disks == w.disks
  {
    hide Act;
    if a.Advance? {
      AdvanceAdvances(t, w, now);
    } else if a.StartJob? {
      StartStarts(t, w, a, now);
    } else if a.Fail? {
      FailFails(t, w, now);
    } else if a.Restart? {
      RestartRestarts(t, w, now);
    } else {
      MostStayInPlace(t, w, a, now);
    }
  }

  lemma SameMedia(t: Tools, media: map<DiskId, Bytes>, now: map<DiskId, Bytes>, capacity: nat,
                  data: seq<DiskId>, parity: DiskId)
    requires GroupMedia(t, media, capacity, data, parity)
    requires forall id :: id in data + [parity] ==>
               (id in now <==> id in media) && (id in media ==> now[id] == media[id])
    ensures GroupMedia(t, now, capacity, data, parity)
  {
    hide HoldsImage;
    hide HoldsPayload;
    hide Xor;
    assert (data + [parity])[|data|] == parity;
    forall i | 0 <= i < |data|
      ensures data[i] in now && data[i] in media && now[data[i]] == media[data[i]]
    {
      assert (data + [parity])[i] == data[i];
    }
    assert MediaImages(now, data) == MediaImages(media, data);
  }

  /** Along a run a finished group stays recoverable as long as no dry run collides with its parity disc. */
  lemma {:induction false} GroupStaysKept(t: Tools, run: seq<World>, i: nat, k: nat, group: string, opts: Options,
                                          data: seq<DiskId>, parity: DiskId)
    requires Lawful(t) && Run(t, run) && Inv(t, run[0]) && i <= k < |run|
    requires Recoverable(t, run[i], group, opts, data, parity)
    requires forall l :: i <= l < k ==> !DryHits(run[l], parity)
    ensures Recoverable(t, run[k], group, opts, data, parity)
  {
    hide *;
    if i < k {
      GroupStaysKept(t, run, i, k - 1, group, opts, data, parity);
      RunKeepsInv(t, run, k - 1);
      var a := RunStep(t, run, k - 1);
      StepKeepsGroup(t, run[k - 1], a, run[k], group, opts, data, parity);
    }
  }

  // ---- The end-to-end theorem -------------------------------------------------------------------------

  /** What is recorded of a disc of a finished group can be read from it. */
  lemma RecordedFileReads(t: Tools, w: World, id: DiskId, i: nat)
    requires Inv(t, w) && id in w.sealed && i < |w.files| && w.files[i].disk == id
    ensures id in w.media
    ensures var reading := ReadFile(t, w.media[id], id, w.files[i].path);
            reading.Found? && t.hash(reading.data) == w.files[i].hash && |reading.data| == w.files[i].size
  {
    hide Inv;
    hide OnDisc;
    hide ReadFile;
    BackedPart(t, w);
    assert Backed(t, w.media, w.files[i]);
  }

  /** The other discs of the group were last read well. */
  ghost predicate LastReadWell(t: Tools, w: World, ids: seq<DiskId>, lost: DiskId, supplies: seq<Supply>,
                               capacity: nat) {
    forall id :: id in ids && id != lost && id in w.disks && id in w.media ==>
      LastImage(supplies, id) == Operand(t, w.disks[id].role, id, Some(w.media[id]), capacity)
  }

  /** The lost disc's image is rebuilt, and every file recorded on it reads with its recorded size and hash. */
  ghost predicate Recovered(t: Tools, w: World, lost: DiskId, rebuilt: Option<Bytes>, capacity: nat) {
    && lost in w.media && rebuilt == Some(Pad(w.media[lost], capacity))
    && forall f :: 0 <= f < |w.files| && w.files[f].disk == lost ==>
         var reading := Outcome(t, rebuilt, lost, w.files[f].path);
         reading.Found? && t.hash(reading.data) == w.files[f].hash && |reading.data| == w.files[f].size
  }

  lemma KeptIsRecovered(t: Tools, w: World, group: string, opts: Options, data: seq<DiskId>, parity: DiskId, k: nat,
                        ids: seq<DiskId>, supplies: seq<Supply>)
    requires Inv(t, w) && Lawful(t) && Recoverable(t, w, group, opts, data, parity) && k < |data|
    requires GroupListing(w.disks, group, ids) && LastReadWell(t, w, ids, data[k], supplies, opts.capacity)
    requires data[k] in w.media ==> |w.media[data[k]]| <= opts.capacity
    ensures var others := Others(ids, data[k]);
            Recovered(t, w, data[k], Rebuilt(others, Session(others, supplies), opts.capacity), opts.capacity)
  {
    hide Lawful;
    hide Inv;
    hide GroupListing;
    hide Rebuilt;
    hide Session;
    hide Others;
    hide ReadFile;
    hide GroupRows;
    hide GroupMedia;
    hide Recoverable;
    hide LastImage;
    hide Operand;
    KeptMembers(t, w, group, opts, data, parity, ids, k);
    LostDiscIsRebuilt(t, w.disks, w.media, group, opts.capacity, data, parity, k, ids, supplies);
    hide LastReadWell;
    hide Outcome;
    forall f | 0 <= f < |w.files| && w.files[f].disk == data[k]
      ensures var reading := ReadFile(t, w.media[data[k]], data[k], w.files[f].path);
              reading.Found? && t.hash(reading.data) == w.files[f].hash && |reading.data| == w.files[f].size
    {
      RecordedFileReads(t, w, data[k], f);
    }
  }

  /**
   * A group finished at moment `i` is still recoverable at any later one, if no dry run
   * collided with its parity disc.
   */
  lemma FinishedStaysKept(t: Tools, run: seq<World>, i: nat, now: nat, p: nat)
    requires Lawful(t) && Run(t, run) && Inv(t, run[0]) && i <= now < |run| && GroupFinished(run[i], p)
    requires forall l :: i <= l < now ==> !DryHits(run[l], run[i].job.value.plans[p].id)
    ensures var job := run[i].job.value;
            Recoverable(t, run[now], job.plans[p].group, job.options, GroupData(job.plans, job.plans[p].group),
                        job.plans[p].id)
  {
    hide Lawful;
    hide Run;
    hide Inv;
    hide DryHits;
    hide GroupData;
    hide Recoverable;
    var job := run[i].job.value;
    RunKeepsInv(t, run, i);
    FinishedIsKept(t, run[i], p);
    GroupStaysKept(t, run, i, now, job.plans[p].group, job.options, GroupData(job.plans, job.plans[p].group),
                   job.plans[p].id);
  }

  /**
   * Recovery. At some moment of a run a cross-parity job has gone past the parity disc `p`
   * of a group. At any later moment, whatever happened since, save a dry run colliding with
   * that parity disc, any one data disc of the group may be lost: reading the others in any
   * order, with any repeats, last of all well, rebuilds exactly its image padded to the
   * capacity, and gives back every file recorded on it with the recorded size and hash.
   */
  lemma LostDiscIsRecovered(t: Tools, run: seq<World>, i: nat, now: nat, p: nat, k: nat,
                            ids: seq<DiskId>, supplies: seq<Supply>)
    requires Lawful(t) && Run(t, run) && Inv(t, run[0]) && i <= now < |run|
    requires GroupFinished(run[i], p)
    requires forall l :: i <= l < now ==> !DryHits(run[l], run[i].job.value.plans[p].id)
    requires var job, w := run[i].job.value, run[now];
             var data := GroupData(job.plans, job.plans[p].group);
             && k < |data| && GroupListing(w.disks, job.plans[p].group, ids)
             && LastReadWell(t, w, ids, data[k], supplies, job.options.capacity)
             && (data[k] in w.media ==> |w.media[data[k]]| <= job.options.capacity)
    ensures var job := run[i].job.value;
            var lost := GroupData(job.plans, job.plans[p].group)[k];
            var others := Others(ids, lost);
            Recovered(t, run[now], lost, Rebuilt(others, Session(others, supplies), job.options.capacity),
                      job.options.capacity)
  {
    hide Lawful;
    hide Run;
    hide Inv;
    hide DryHits;
    hide GroupListing;
    hide GroupData;
    hide Recoverable;
    hide LastReadWell;
    hide Recovered;
    hide Rebuilt;
    hide Session;
    hide Others;
    var job := run[i].job.value;
    var group := job.plans[p].group;
    RunKeepsInv(t, run, now);
    FinishedStaysKept(t, run, i, now, p);
    KeptIsRecovered(t, run[now], group, job.options, GroupData(job.plans, group), job.plans[p].id, k, ids, supplies);
  }

  lemma KeptMembers(t: Tools, w: World, group: string, opts: Options, data: seq<DiskId>, parity: DiskId,
                    ids: seq<DiskId>, k: nat)
    requires Recoverable(t, w, group, opts, data, parity) && GroupListing(w.disks, group, ids) && k < |data|
    ensures GroupRows(w.disks, group, data, parity) && GroupMedia(t, w.media, opts.capacity, data, parity)
    ensures data[k] in w.media && data[k] in w.sealed
    ensures forall id :: id in ids ==> id in w.disks && id in w.media
  {
    hide HoldsImage;
    hide HoldsPayload;
    assert (data + [parity])[k] == data[k];
    forall id | id in ids
      ensures id in w.media
    {
      assert id in data + [parity];
      assert id == parity || id in data;
    }
  }

  /** In runs in which every job is finished before the next, no collision can get in the way. */
  lemma OrderlyJobsAreRecoverable(t: Tools, run: seq<World>, i: nat, now: nat, p: nat, k: nat,
                                   ids: seq<DiskId>, supplies: seq<Supply>)
    requires Lawful(t) && Run(t, run) && Initial(run[0]) && i <= now < |run|
    requires forall x, y :: 0 <= x < y < |run| && y == x + 1 ==> InOrder(run[x], run[y])
    requires GroupFinished(run[i], p)
    requires var job, w := run[i].job.value, run[now];
             var data := GroupData(job.plans, job.plans[p].group);
             && k < |data| && GroupListing(w.disks, job.plans[p].group, ids)
             && LastReadWell(t, w, ids, data[k], supplies, job.options.capacity)
             && (data[k] in w.media ==> |w.media[data[k]]| <= job.options.capacity)
    ensures var job := run[i].job.value;
            var lost := GroupData(job.plans, job.plans[p].group)[k];
            var others := Others(ids, lost);
            Recovered(t, run[now], lost, Rebuilt(others, Session(others, supplies), job.options.capacity),
                      job.options.capacity)
  {
    hide Lawful;
    hide Run;
    hide Initial;
    hide Collides;
    hide GroupListing;
    hide GroupData;
    hide LastReadWell;
    hide Recovered;
    hide Rebuilt;
    hide Session;
    hide Others;
    hide InOrder;
    forall l | i <= l < now
      ensures !DryHits(run[l], run[i].job.value.plans[p].id)
    {
      OrderlyJobsNeverCollide(t, run, l);
    }
    InitialInv(t, run[0]);
    hide Inv;
    LostDiscIsRecovered(t, run, i, now, p, k, ids, supplies);
  }
}
