/** internal/burn/reconstruct.go: rebuilding one lost disc from all others of its group. */
module Reconstruct {
  import opened Bytes
  import opened XorDisk
  import opened DiskIds

  // ---- What a reconstruction computes -------------------------------------------------------

  ghost predicate Distinct(ids: seq<DiskId>) {
    forall i, j :: 0 <= i < j < |ids| ==> ids[i] != ids[j]
  }

  /** The other members, in group order. */
  function Others(group: seq<DiskId>, missing: DiskId): seq<DiskId> {
    if group == [] then []
    else Others(group[..|group| - 1], missing)
         + (if group[|group| - 1] != missing then [group[|group| - 1]] else [])
  }

  /** The members of `others` without an image, in group order. */
  function RemainingIn(others: seq<DiskId>, supplied: set<DiskId>): seq<DiskId> {
    if others == [] then []
    else RemainingIn(others[..|others| - 1], supplied)
         + (if others[|others| - 1] !in supplied then [others[|others| - 1]] else [])
  }

  predicate Complete(others: seq<DiskId>, images: map<DiskId, Bytes>) {
    forall i :: 0 <= i < |others| ==> others[i] in images
  }

  function ImagesOf(others: seq<DiskId>, images: map<DiskId, Bytes>): (ops: seq<Bytes>)
    requires Complete(others, images)
    ensures |ops| == |others|
  {
    seq(|others|, i requires 0 <= i < |others| => images[others[i]])
  }

  /** The rebuilt image, once every other member was supplied. */
  function Rebuilt(others: seq<DiskId>, images: map<DiskId, Bytes>, capacity: nat): Option<Bytes> {
    if Complete(others, images) then Some(Xor(ImagesOf(others, images), capacity)) else None
  }

  lemma {:induction false} OthersMembers(group: seq<DiskId>, missing: DiskId, id: DiskId)
    ensures id in Others(group, missing) <==> id in group && id != missing
  {
    if group != [] {
      OthersMembers(group[..|group| - 1], missing, id);
      assert group == group[..|group| - 1] + [group[|group| - 1]];
    }
  }

  lemma {:induction false} OthersDistinct(group: seq<DiskId>, missing: DiskId)
    requires Distinct(group)
    ensures Distinct(Others(group, missing))
  {
    if group != [] {
      var n := |group| - 1;
      OthersDistinct(group[..n], missing);
      OthersMembers(group[..n], missing, group[n]);
    }
  }

  /** Taking the missing member out of a group of distinct discs. */
  lemma {:induction false} OthersAround(group: seq<DiskId>, k: nat)
    requires Distinct(group) && k < |group|
    ensures Others(group, group[k]) == group[..k] + group[k + 1..]
  {
    var n := |group| - 1;
    var front := group[..n];
    if k == n {
      NoneToLeaveOut(front, group[k]);
      assert front == group[..k] + group[k + 1..];
    } else {
      OthersAround(front, k);
      assert group[..k] + group[k + 1..] == front[..k] + front[k + 1..] + [group[n]];
    }
  }

  lemma {:induction false} NoneToLeaveOut(group: seq<DiskId>, missing: DiskId)
    requires missing !in group
    ensures Others(group, missing) == group
  {
    if group != [] {
      NoneToLeaveOut(group[..|group| - 1], missing);
      assert group == group[..|group| - 1] + [group[|group| - 1]];
    }
  }

  lemma {:induction false} RemainingMembers(others: seq<DiskId>, supplied: set<DiskId>, id: DiskId)
    ensures id in RemainingIn(others, supplied) <==> id in others && id !in supplied
  {
    if others != [] {
      RemainingMembers(others[..|others| - 1], supplied, id);
      assert others == others[..|others| - 1] + [others[|others| - 1]];
    }
  }

  /** Nothing remains exactly when every member has an image. */
  lemma NothingRemains(others: seq<DiskId>, images: map<DiskId, Bytes>)
    ensures RemainingIn(others, images.Keys) == [] <==> Complete(others, images)
  {
    forall id
      ensures id in RemainingIn(others, images.Keys) <==> id in others && id !in images
    {
      RemainingMembers(others, images.Keys, id);
    }
    hide RemainingIn;
    var left := RemainingIn(others, images.Keys);
    if left != [] {
      assert left[0] in left;
      var i :| 0 <= i < |others| && others[i] == left[0];
    }
    if i :| 0 <= i < |others| && others[i] !in images {
      assert others[i] in left;
    }
  }

  /** At first every member remains, in group order. */
  lemma {:induction false} AllRemainAtFirst(others: seq<DiskId>)
    ensures RemainingIn(others, {}) == others
  {
    if others != [] {
      AllRemainAtFirst(others[..|others| - 1]);
      assert others == others[..|others| - 1] + [others[|others| - 1]];
    }
  }

  lemma RemainingSnoc(front: seq<DiskId>, last: DiskId, supplied: set<DiskId>)
    ensures RemainingIn(front + [last], supplied)
         == if last in supplied then RemainingIn(front, supplied) else RemainingIn(front, supplied) + [last]
  {
    assert (front + [last])[..|front|] == front;
  }

  lemma OthersSnoc(front: seq<DiskId>, last: DiskId, missing: DiskId)
    ensures Others(front + [last], missing)
         == if last == missing then Others(front, missing) else Others(front, missing) + [last]
  {
    assert (front + [last])[..|front|] == front;
  }

  /** Supplying a member takes exactly it off the list; any other disc takes nothing off. */
  lemma {:induction false} RemainingAfter(others: seq<DiskId>, supplied: set<DiskId>, id: DiskId)
    requires Distinct(others)
    ensures RemainingIn(others, supplied + {id}) == Others(RemainingIn(others, supplied), id)
    ensures |RemainingIn(others, supplied + {id})|
         == |RemainingIn(others, supplied)| - (if id in others && id !in supplied then 1 else 0)
  {
    if others != [] {
      var n := |others| - 1;
      hide RemainingIn;
      hide Others;
      RemainingAfter(others[..n], supplied, id);
      assert others == others[..n] + [others[n]];
      RemainingStep(others[..n], others[n], others, supplied, supplied + {id}, id, id in others[..n]);
    }
  }

  /** One member more: `taken` says whether `id` is among those before it. */
  lemma RemainingStep(front: seq<DiskId>, last: DiskId, others: seq<DiskId>, supplied: set<DiskId>, now: set<DiskId>,
                      id: DiskId, taken: bool)
    requires others == front + [last] && now == supplied + {id} && (id == last ==> !taken)
    requires RemainingIn(front, now) == Others(RemainingIn(front, supplied), id)
    requires |RemainingIn(front, now)| == |RemainingIn(front, supplied)| - (if taken && id !in supplied then 1 else 0)
    ensures RemainingIn(others, now) == Others(RemainingIn(others, supplied), id)
    ensures |RemainingIn(others, now)|
         == |RemainingIn(others, supplied)| - (if (taken || id == last) && id !in supplied then 1 else 0)
  {
    hide RemainingIn;
    hide Others;
    RemainingSnoc(front, last, supplied);
    RemainingSnoc(front, last, now);
    OthersSnoc(RemainingIn(front, supplied), last, id);
  }

  // ---- A whole session -----------------------------------------------------------------------

  datatype Supply = Supply(id: DiskId, image: Bytes)

  /** The images held after a session: a disc of another group is turned away. */
  function Session(others: seq<DiskId>, supplies: seq<Supply>): map<DiskId, Bytes> {
    if supplies == [] then map[] else
      var before := Session(others, supplies[..|supplies| - 1]);
      var s := supplies[|supplies| - 1];
      if s.id in others then before[s.id := s.image] else before
  }

  lemma SessionNext(others: seq<DiskId>, supplies: seq<Supply>, s: Supply)
    ensures Session(others, supplies + [s])
         == if s.id in others then Session(others, supplies)[s.id := s.image] else Session(others, supplies)
  {
    assert (supplies + [s])[..|supplies|] == supplies;
  }

  /** The image a disc was last supplied with. */
  function LastImage(supplies: seq<Supply>, id: DiskId): Option<Bytes> {
    if supplies == [] then None
    else if supplies[|supplies| - 1].id == id then Some(supplies[|supplies| - 1].image)
    else LastImage(supplies[..|supplies| - 1], id)
  }

  /** However often and in whatever order discs are read, each member counts with its last image. */
  lemma {:induction false} SessionHoldsLast(others: seq<DiskId>, supplies: seq<Supply>, id: DiskId)
    ensures id in Session(others, supplies) <==> id in others && LastImage(supplies, id).Some?
    ensures id in Session(others, supplies) ==> Some(Session(others, supplies)[id]) == LastImage(supplies, id)
  {
    if supplies != [] {
      SessionHoldsLast(others, supplies[..|supplies| - 1], id);
    }
  }

  /** Two sessions that end with the same image for each member rebuild the same disc. */
  lemma OnlyLastImagesMatter(others: seq<DiskId>, a: seq<Supply>, b: seq<Supply>, capacity: nat)
    requires forall id <- others :: LastImage(a, id) == LastImage(b, id)
    ensures Session(others, a) == Session(others, b)
    ensures Rebuilt(others, Session(others, a), capacity) == Rebuilt(others, Session(others, b), capacity)
  {
    forall id
      ensures id in Session(others, a) <==> id in Session(others, b)
      ensures id in Session(others, a) ==> Session(others, a)[id] == Session(others, b)[id]
    {
      SessionHoldsLast(others, a, id);
      SessionHoldsLast(others, b, id);
    }
  }

  /** Over a session the list of remaining discs names exactly the members never supplied. */
  lemma SessionRemaining(others: seq<DiskId>, supplies: seq<Supply>, id: DiskId)
    ensures id in RemainingIn(others, Session(others, supplies).Keys)
       <==> id in others && forall i :: 0 <= i < |supplies| ==> supplies[i].id != id
  {
    RemainingMembers(others, Session(others, supplies).Keys, id);
    SessionHoldsLast(others, supplies, id);
    NeverSupplied(supplies, id);
  }

  lemma {:induction false} NeverSupplied(supplies: seq<Supply>, id: DiskId)
    ensures LastImage(supplies, id).None? <==> forall i :: 0 <= i < |supplies| ==> supplies[i].id != id
  {
    if supplies != [] {
      var n := |supplies| - 1;
      NeverSupplied(supplies[..n], id);
      assert forall i :: 0 <= i < n ==> supplies[..n][i] == supplies[i];
    }
  }

  /**
   * Reading one more disc: a new member shortens the list by exactly one, anything else
   * leaves it as it is; it never grows.
   */
  lemma SessionProgress(others: seq<DiskId>, supplies: seq<Supply>, s: Supply)
    requires Distinct(others)
    ensures var before, after := Session(others, supplies), Session(others, supplies + [s]);
            && RemainingIn(others, after.Keys)
               == (if s.id in others then Others(RemainingIn(others, before.Keys), s.id)
                   else RemainingIn(others, before.Keys))
            && |RemainingIn(others, after.Keys)|
               == |RemainingIn(others, before.Keys)| - (if s.id in others && s.id !in before then 1 else 0)
  {
    var before := Session(others, supplies);
    assert (supplies + [s])[..|supplies|] == supplies;
    if s.id in others {
      RemainingAfter(others, before.Keys, s.id);
      assert before[s.id := s.image].Keys == before.Keys + {s.id};
    }
  }

  // ---- The erasure law for discs -----------------------------------------------------------------

  /** What each member of the group contributes: the images of the data discs, then the parity payload. */
  function Operands(images: seq<Bytes>, capacity: nat): seq<Bytes> {
    images + [Xor(images, capacity)]
  }

  /**
   * The group is `data` discs followed by its parity disc. A session in which every other
   * member was last read as what it holds, a data disc perhaps cut to the capacity, rebuilds
   * the lost data disc `k` zero-padded to the capacity.
   */
  lemma SessionRebuilds(group: seq<DiskId>, images: seq<Bytes>, k: nat, supplies: seq<Supply>, capacity: nat)
    requires Distinct(group) && |group| == |images| + 1 && k < |images|
    requires forall i :: 0 <= i < |group| && i != k ==>
               var read := LastImage(supplies, group[i]);
               read == Some(Operands(images, capacity)[i]) || read == Some(Cut(Operands(images, capacity)[i], capacity))
    ensures Rebuilt(Others(group, group[k]), Session(Others(group, group[k]), supplies), capacity)
         == Some(Pad(images[k], capacity))
  {
    var others, ops := Others(group, group[k]), Operands(images, capacity);
    var held := Session(others, supplies);
    OthersAround(group, k);
    var rest := ops[..k] + ops[k + 1..];
    forall i | 0 <= i < |others|
      ensures others[i] in held && (held[others[i]] == rest[i] || held[others[i]] == Cut(rest[i], capacity))
    {
      SessionHoldsLast(others, supplies, others[i]);
      var j := if i < k then i else i + 1;
      assert others[i] == group[j] && rest[i] == ops[j];
    }
    hide Session;
    XorCut(rest, ImagesOf(others, held), capacity);
    assert rest == images[..k] + images[k + 1..] + [Xor(images, capacity)];
    Erasure(images, k, rest, capacity);
  }

  // ---- The program --------------------------------------------------------------------------------

  class Reconstructor {
    const missingID: DiskId
    const otherIDs: seq<DiskId>
    var images: map<DiskId, Bytes>
    const capacity: nat

    constructor (missingID: DiskId, otherIDs: seq<DiskId>, capacity: nat)
      ensures this.missingID == missingID && this.otherIDs == otherIDs && this.capacity == capacity && images == map[]
    {
      this.missingID, this.otherIDs, this.capacity, this.images := missingID, otherIDs, capacity, map[];
    }

    method Remaining() returns (out: seq<DiskId>)
      ensures out == RemainingIn(otherIDs, images.Keys)
    {
      out := [];
      for i := 0 to |otherIDs|
        invariant out == RemainingIn(otherIDs[..i], images.Keys)
      {
        assert otherIDs[..i + 1][..i] == otherIDs[..i];
        if otherIDs[i] !in images {
          out := out + [otherIDs[i]];
        }
      }
      assert otherIDs[..|otherIDs|] == otherIDs;
    }

    method NeedsMore() returns (more: bool)
      ensures more <==> Rebuilt(otherIDs, images, capacity).None?
      ensures more <==> exists i :: 0 <= i < |otherIDs| && otherIDs[i] !in images
    {
      var left := Remaining();
      NothingRemains(otherIDs, images);
      return |left| > 0;
    }

    /** Only members are accepted; a second image of a member replaces the first. */
    method SupplyDiscImage(id: DiskId, image: Bytes) returns (ok: bool)
      modifies this`images
      ensures ok <==> id in otherIDs
      ensures images == if ok then old(images)[id := image] else old(images)
    {
      ok := false;
      for i := 0 to |otherIDs|
        invariant !ok && id !in otherIDs[..i]
      {
        if otherIDs[i] == id {
          ok := true;
          break;
        }
      }
      if ok {
        images := images[id := image];
      }
    }

    /** Fails exactly while a member is missing. */
    method Reconstruct() returns (image: Option<Bytes>)
      ensures image == Rebuilt(otherIDs, images, capacity)
    {
      var more := NeedsMore();
      if more {
        return None;
      }
      var ops: seq<Bytes> := [];
      for i := 0 to |otherIDs|
        invariant ops == ImagesOf(otherIDs, images)[..i]
      {
        ops := ops + [images[otherIDs[i]]];
      }
      assert ops == ImagesOf(otherIDs, images);
      var out := XOR(ops, capacity);
      return Some(out[..]);
    }
  }

  /** An error, here null, when the missing disc is not in the group. */
  method NewReconstructor(group: seq<DiskId>, missingID: DiskId, capacity: nat) returns (r: Reconstructor?)
    ensures r == null <==> missingID !in group
    ensures r != null ==>
              && fresh(r) && r.missingID == missingID && r.capacity == capacity && r.images == map[]
              && r.otherIDs == Others(group, missingID)
  {
    var found := false;
    for i := 0 to |group|
      invariant !found && missingID !in group[..i]
    {
      if group[i] == missingID {
        found := true;
        break;
      }
    }
    if !found {
      return null;
    }
    var others: seq<DiskId> := [];
    for i := 0 to |group|
      invariant others == Others(group[..i], missingID)
    {
      assert group[..i + 1][..i] == group[..i];
      if group[i] != missingID {
        others := others + [group[i]];
      }
    }
    assert group[..|group|] == group;
    r := new Reconstructor(missingID, others, capacity);
  }
}
