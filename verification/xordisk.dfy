/** internal/xordisk/xor.go: byte-wise XOR of disc images at a fixed length. */
module XorDisk {
  import opened Bytes

  /** The XOR of the `i`-th bytes of all images, each zero beyond its end. */
  function Fold(images: seq<Bytes>, i: nat): Byte {
    if images == [] then 0 else At(images[0], i) ^ Fold(images[1..], i)
  }

  /** What XOR computes: at every position below `length`, the fold over all images. */
  function Xor(images: seq<Bytes>, length: nat): (out: Bytes)
    ensures |out| == length
  {
    seq(length, i requires 0 <= i < length => Fold(images, i))
  }

  method XOR(images: seq<Bytes>, length: nat) returns (out: array<Byte>)
    ensures fresh(out)
    ensures out[..] == Xor(images, length)
  {
    out := new Byte[length](_ => 0);
    for k := 0 to |images|
      invariant fresh(out) && out.Length == length
      invariant forall i :: 0 <= i < length ==> out[i] == Fold(images[..k], i)
    {
      var img := images[k];
      var n := |img|;
      if n > length {
        n := length;
      }
      for i := 0 to n
        invariant forall j :: 0 <= j < i ==> out[j] == Fold(images[..k], j) ^ img[j]
        invariant forall j :: i <= j < length ==> out[j] == Fold(images[..k], j)
      {
        out[i] := out[i] ^ img[i];
      }
      forall j: nat | j < length
        ensures out[j] == Fold(images[..k + 1], j)
      {
        FoldConcat(images[..k], [img], j);
        assert images[..k] + [img] == images[..k + 1];
      }
    }
    assert images[..|images|] == images;
  }

  lemma {:induction false} FoldConcat(a: seq<Bytes>, b: seq<Bytes>, i: nat)
    ensures Fold(a + b, i) == Fold(a, i) ^ Fold(b, i)
  {
    if a == [] {
      assert a + b == b;
    } else {
      FoldConcat(a[1..], b, i);
      assert (a + b)[1..] == a[1..] + b;
    }
  }

  /** Lifting one image out of the list to the front leaves the fold unchanged. */
  lemma FoldPick(images: seq<Bytes>, k: nat, i: nat)
    requires k < |images|
    ensures Fold(images, i) == At(images[k], i) ^ Fold(images[..k] + images[k + 1..], i)
  {
    FoldConcat(images[..k], images[k..], i);
    FoldConcat(images[..k], images[k + 1..], i);
    assert images == images[..k] + images[k..];
    assert images[k..][1..] == images[k + 1..];
  }

  /**
   * What XOR is, byte by byte: nothing gives zeros; one more image changes each byte by its
   * own byte there, or, past its end, by none; and so appending the XOR itself gives zeros.
   */
  lemma XorIsBytewise(images: seq<Bytes>, img: Bytes, length: nat, i: nat)
    requires i < length
    ensures Xor([], length)[i] == 0
    ensures Xor(images + [img], length)[i]
         == if i < |img| then Xor(images, length)[i] ^ img[i] else Xor(images, length)[i]
    ensures Xor(images + [Xor(images, length)], length)[i] == 0
  {
    FoldConcat(images, [img], i);
    FoldConcat(images, [Xor(images, length)], i);
  }

  /** The XOR of two lists together is the XOR of their XORs. */
  lemma XorConcat(a: seq<Bytes>, b: seq<Bytes>, length: nat, i: nat)
    requires i < length
    ensures Xor(a + b, length)[i] == Xor(a, length)[i] ^ Xor(b, length)[i]
  {
    FoldConcat(a, b, i);
  }

  /** Two orders of the same items: the first of one is found in the other, and the rest agree. */
  lemma FindFirst<T>(a: seq<T>, b: seq<T>) returns (k: nat)
    requires a != [] && multiset(a) == multiset(b)
    ensures k < |b| && b[k] == a[0]
    ensures multiset(b[..k] + b[k + 1..]) == multiset(a[1..])
  {
    assert a == [a[0]] + a[1..];
    assert a[0] in multiset(b);
    k :| 0 <= k < |b| && b[k] == a[0];
    assert b == b[..k] + [b[k]] + b[k + 1..];
    calc {
      multiset(b[..k] + b[k + 1..]);
      multiset(b) - multiset{a[0]};
      multiset(a[1..]);
    }
  }

  lemma {:induction false} FoldOrder(a: seq<Bytes>, b: seq<Bytes>, i: nat)
    requires multiset(a) == multiset(b)
    ensures Fold(a, i) == Fold(b, i)
    decreases |a|
  {
    if a == [] {
      assert b == [] by {
        assert |multiset(b)| == 0;
      }
    } else {
      var k := FindFirst(a, b);
      FoldOrder(a[1..], b[..k] + b[k + 1..], i);
      FoldPick(b, k, i);
    }
  }

  /** XOR does not depend on the order in which the images are supplied. */
  lemma XorOrder(a: seq<Bytes>, b: seq<Bytes>, length: nat)
    requires multiset(a) == multiset(b)
    ensures Xor(a, length) == Xor(b, length)
  {
    forall i: nat | i < length
      ensures Fold(a, i) == Fold(b, i)
    {
      FoldOrder(a, b, i);
    }
  }

  /** Cutting an operand to at least the XOR length first changes nothing. */
  lemma {:induction false} FoldCut(a: seq<Bytes>, b: seq<Bytes>, length: nat, i: nat)
    requires |a| == |b| && i < length
    requires forall k :: 0 <= k < |a| ==> b[k] == a[k] || b[k] == Cut(a[k], length)
    ensures Fold(a, i) == Fold(b, i)
  {
    if a != [] {
      assert forall k :: 0 <= k < |a[1..]| ==> a[1..][k] == a[k + 1] && b[1..][k] == b[k + 1];
      assert At(b[0], i) == At(a[0], i);
      FoldCut(a[1..], b[1..], length, i);
    }
  }

  lemma XorCut(a: seq<Bytes>, b: seq<Bytes>, length: nat)
    requires |a| == |b|
    requires forall k :: 0 <= k < |a| ==> b[k] == a[k] || b[k] == Cut(a[k], length)
    ensures Xor(a, length) == Xor(b, length)
  {
    forall i: nat | i < length
      ensures Fold(a, i) == Fold(b, i)
    {
      FoldCut(a, b, length, i);
    }
  }

  lemma XorCancels(a: Byte, b: Byte)
    ensures b ^ (a ^ b) == a
  {
  }

  /** At one position, the other images and the parity byte together give back the lost byte. */
  lemma FoldErasure(images: seq<Bytes>, k: nat, parity: Bytes, i: nat)
    requires k < |images|
    requires At(parity, i) == Fold(images, i)
    ensures Fold(images[..k] + images[k + 1..] + [parity], i) == At(images[k], i)
  {
    var rest := images[..k] + images[k + 1..];
    FoldConcat(rest, [parity], i);
    assert Fold([parity], i) == At(parity, i) by {
      assert [parity][1..] == [];
    }
    FoldPick(images, k, i);
    XorCancels(At(images[k], i), Fold(rest, i));
  }

  /**
   * The erasure law. Take the images of a group and their XOR at length `length`.
   * Whichever image `k` is lost, and in whatever order the others and the parity
   * are gathered, their XOR is the lost image padded or cut to `length`.
   */
  lemma Erasure(images: seq<Bytes>, k: nat, gathered: seq<Bytes>, length: nat)
    requires k < |images|
    requires multiset(gathered) == multiset(images[..k] + images[k + 1..] + [Xor(images, length)])
    ensures Xor(gathered, length) == Pad(images[k], length)
  {
    var parity := Xor(images, length);
    forall i: nat | i < length
      ensures Fold(gathered, i) == At(images[k], i)
    {
      FoldOrder(gathered, images[..k] + images[k + 1..] + [parity], i);
      FoldErasure(images, k, parity, i);
    }
  }
}
