/** Bytes and the memory functions of the C library. */
module Octets {

  type Byte = b: nat | b < 256

  /** Conversion to unsigned char. */
  function Octet(x: nat): (b: Byte)
    ensures b == x % 256
  {
    var r := x % 256;
    r
  }

  /** realloc to a size that is not smaller; what is beyond the old contents is arbitrary,
      here `filler`. */
  method Realloc<T>(a: array<T>, size: nat, filler: T) returns (b: array<T>)
    requires a.Length <= size
    ensures fresh(b) && b.Length == size && b[..a.Length] == a[..]
    ensures forall i :: 0 <= i < a.Length ==> b[i] == a[i]
  {
    b := new T[size](_ => filler);
    var k := 0;
    while k < a.Length
      invariant k <= a.Length && b[..k] == a[..k]
    {
      b[k] := a[k];
      k := k + 1;
    }
  }

  /** n elements of src from s on, put over those of dst from d on. */
  function Moved<T>(dst: seq<T>, d: nat, src: seq<T>, s: nat, n: nat): seq<T>
    requires d + n <= |dst| && s + n <= |src|
  {
    dst[..d] + src[s..s + n] + dst[d + n..]
  }

  /** memmove: source and destination may overlap. */
  method MemMove<T>(dst: array<T>, d: nat, src: array<T>, s: nat, n: nat)
    requires d + n <= dst.Length && s + n <= src.Length
    modifies dst
    ensures dst[..] == Moved(old(dst[..]), d, old(src[..]), s, n)
  {
    ghost var was := src[..];
    ghost var over := dst[..];
    if d <= s {
      var k := 0;
      while k < n
        invariant k <= n && dst[..d] == over[..d] && dst[d + n..] == over[d + n..]
        invariant forall j :: d <= j < d + k ==> dst[j] == was[j - d + s]
        invariant forall j :: s + k <= j < s + n ==> src[j] == was[j]
      {
        dst[d + k] := src[s + k];
        k := k + 1;
      }
    } else {
      var k := n;
      while k > 0
        invariant 0 <= k <= n && dst[..d] == over[..d] && dst[d + n..] == over[d + n..]
        invariant forall j :: d + k <= j < d + n ==> dst[j] == was[j - d + s]
        invariant forall j :: s <= j < s + k ==> src[j] == was[j]
      {
        k := k - 1;
        dst[d + k] := src[s + k];
      }
    }
    assert forall j :: d <= j < d + n ==> dst[j] == was[j - d + s];
    assert dst[d..d + n] == was[s..s + n];
    assert dst[..] == dst[..d] + dst[d..d + n] + dst[d + n..];
  }
}
