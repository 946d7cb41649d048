/** Raw bytes, zero padding, and the option type shared by every module. */
module Bytes {
  type Byte = bv8
  type Bytes = seq<Byte>

  datatype Option<+T> = None | Some(value: T)

  function Zeros(n: nat): (z: Bytes)
    ensures |z| == n
  {
    seq(n, _ => 0)
  }

  /** The byte at position `i` of an image that is zero beyond its end. */
  function At(image: Bytes, i: nat): Byte {
    if i < |image| then image[i] else 0
  }

  /** `image` cut to at most `n` bytes. */
  function Cut(image: Bytes, n: nat): (c: Bytes)
    ensures |c| <= n
  {
    if |image| <= n then image else image[..n]
  }

  /** `image` zero-padded, or cut, to exactly `n` bytes. */
  function Pad(image: Bytes, n: nat): (p: Bytes)
    ensures |p| == n
  {
    seq(n, i requires 0 <= i < n => At(image, i))
  }

  lemma PadExtends(image: Bytes, n: nat)
    requires |image| <= n
    ensures Pad(image, n) == image + Zeros(n - |image|)
  {
  }

  /** Padding keeps the bytes and adds zeros; a longer image is cut. */
  lemma PadIs(image: Bytes, n: nat, i: nat)
    requires i < n
    ensures Pad(image, n)[i] == if i < |image| then image[i] else 0
    ensures |image| >= n ==> Pad(image, n) == image[..n] == Cut(image, n)
  {
  }
}
