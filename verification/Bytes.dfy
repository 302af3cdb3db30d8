/** Bytes, big-endian integers, and concatenation: shared by every codec in the project. */
module Bytes {

  type byte = x: int | 0 <= x < 256

  const TWO_TO_THE_16: int := 0x1_0000
  const TWO_TO_THE_32: int := 0x1_0000_0000
  const TWO_TO_THE_64: int := 0x1_0000_0000_0000_0000

  type uint32 = x: int | 0 <= x < 0x1_0000_0000

  /** Error codes of the firmware, reduced to the ones its callers can tell apart. */
  datatype EspErr =
    | OK
    | Fail
    | InvalidArg
    | InvalidState
    | InvalidSize
    | NoMem
    | NotFound
    | Timeout
    | Cancelled
    | EarlyEof

  function WriteBe32(n: uint32): (s: seq<byte>)
    ensures |s| == 4
  {
    [n / 0x100_0000, n / 0x1_0000 % 0x100, n / 0x100 % 0x100, n % 0x100]
  }

  function ReadBe32(s: seq<byte>): (n: uint32)
    requires |s| == 4
  {
    (s[0] as int) * 0x100_0000 + (s[1] as int) * 0x1_0000 + (s[2] as int) * 0x100 + s[3]
  }

  lemma Be32RoundTrip(n: uint32)
    ensures ReadBe32(WriteBe32(n)) == n
  {
    assert n / 0x100 == (n / 0x1_0000) * 0x100 + n / 0x100 % 0x100;
    assert n / 0x1_0000 == (n / 0x100_0000) * 0x100 + n / 0x1_0000 % 0x100;
  }

  function WriteBe16(n: int): (s: seq<byte>)
    requires 0 <= n < TWO_TO_THE_16
    ensures |s| == 2
  {
    [n / 0x100, n % 0x100]
  }

  function ReadBe16(s: seq<byte>): (n: int)
    requires |s| == 2
    ensures 0 <= n < TWO_TO_THE_16
  {
    (s[0] as int) * 0x100 + s[1]
  }

  function Min(a: int, b: int): int { if a < b then a else b }

  /** All the pieces, one after the other. */
  function Flatten<T>(pieces: seq<seq<T>>): (s: seq<T>) {
    if pieces == [] then [] else pieces[0] + Flatten(pieces[1..])
  }

  lemma {:induction false} FlattenConcat<T>(a: seq<seq<T>>, b: seq<seq<T>>)
    ensures Flatten(a + b) == Flatten(a) + Flatten(b)
  {
    if a == [] {
      assert a + b == b;
    } else {
      assert (a + b)[1..] == a[1..] + b;
      FlattenConcat(a[1..], b);
    }
  }

  lemma FlattenSnoc<T>(a: seq<seq<T>>, x: seq<T>)
    ensures Flatten(a + [x]) == Flatten(a) + x
  {
    FlattenConcat(a, [x]);
    assert Flatten([x]) == x + Flatten([]);
  }

  /** `memcpy` into a buffer at an offset. */
  method CopyInto(dst: array<byte>, at: nat, src: seq<byte>)
    requires at + |src| <= dst.Length
    modifies dst
    ensures dst[..] == old(dst[..at]) + src + old(dst[at + |src|..])
  {
    for i := 0 to |src|
      invariant forall j :: 0 <= j < at ==> dst[j] == old(dst[j])
      invariant forall j :: 0 <= j < i ==> dst[at + j] == src[j]
      invariant forall j :: at + |src| <= j < dst.Length ==> dst[j] == old(dst[j])
    {
      dst[at + i] := src[i];
    }
  }

  /** `memmove` of the first `len` bytes down by `n`. */
  method MoveDown(a: array<byte>, n: nat, len: nat)
    requires n <= len <= a.Length
    modifies a
    ensures a[..len - n] == old(a[n..len])
  {
    for i := 0 to len - n
      invariant forall j :: 0 <= j < i ==> a[j] == old(a[n + j])
      invariant forall j :: i <= j < len ==> a[j] == old(a[j])
    {
      a[i] := a[n + i];
    }
  }
}
