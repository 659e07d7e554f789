/** Machine words, bytes and the little-endian layout every frame uses. */
module Words {

  const MAX16: nat := 0xFFFF
  const MAX32: nat := 0xFFFF_FFFF
  const MAX64: nat := 0xFFFF_FFFF_FFFF_FFFF

  type byte = x: nat | x < 0x100
  type u64 = x: nat | x <= 0xFFFF_FFFF_FFFF_FFFF

  datatype Option<+T> = None | Some(value: T)

  function Min(a: nat, b: nat): nat { if a < b then a else b }

  /** The configuration check `(n & (n - 1)) == 0` for n > 0. */
  predicate PowerOfTwo(n: nat) {
    n == 1 || (n > 0 && n % 2 == 0 && PowerOfTwo(n / 2))
  }

  function Pow256(size: nat): (p: nat)
    ensures p > 0
  {
    if size == 0 then 1 else 256 * Pow256(size - 1)
  }

  lemma Pow256Words()
    ensures Pow256(2) == MAX16 + 1
    ensures Pow256(4) == MAX32 + 1
    ensures Pow256(8) == MAX64 + 1
  {
    assert Pow256(1) == 256;
    assert Pow256(3) == 256 * Pow256(2);
    assert Pow256(5) == 256 * Pow256(4);
    assert Pow256(6) == 256 * Pow256(5);
    assert Pow256(7) == 256 * Pow256(6);
  }

  /** The value of `size` little-endian bytes starting at `at`. */
  function Load(b: seq<byte>, at: nat, size: nat): (v: nat)
    requires at + size <= |b|
    ensures v < Pow256(size)
    decreases size
  {
    if size == 0 then 0 else b[at] + 256 * Load(b, at + 1, size - 1)
  }

  /** The `size` little-endian bytes of `v`; higher bytes of `v` are cut off. */
  function Bytes(v: nat, size: nat): (b: seq<byte>)
    ensures |b| == size
  {
    if size == 0 then [] else [v % 256] + Bytes(v / 256, size - 1)
  }

  function U16(b: seq<byte>, at: nat): (v: nat)
    requires at + 2 <= |b|
    ensures v <= MAX16
  {
    Pow256Words();
    Load(b, at, 2)
  }

  function U32(b: seq<byte>, at: nat): (v: nat)
    requires at + 4 <= |b|
    ensures v <= MAX32
  {
    Pow256Words();
    Load(b, at, 4)
  }

  function U64(b: seq<byte>, at: nat): u64
    requires at + 8 <= |b|
  {
    Pow256Words();
    Load(b, at, 8)
  }

  /** Loads read only their own bytes. */
  lemma {:induction false} LoadSame(a: seq<byte>, i: nat, b: seq<byte>, j: nat, size: nat)
    requires i + size <= |a| && j + size <= |b|
    requires a[i..i + size] == b[j..j + size]
    ensures Load(a, i, size) == Load(b, j, size)
    decreases size
  {
    if size > 0 {
      assert a[i] == a[i..i + size][0] == b[j..j + size][0] == b[j];
      assert a[i + 1..i + size] == a[i..i + size][1..] == b[j..j + size][1..] == b[j + 1..j + size];
      LoadSame(a, i + 1, b, j + 1, size - 1);
    }
  }

  /** Storing a value and loading it back is the identity on values that fit. */
  lemma {:induction false} LoadStored(b: seq<byte>, at: nat, size: nat, v: nat)
    requires at + size <= |b|
    requires b[at..at + size] == Bytes(v, size)
    requires v < Pow256(size)
    ensures Load(b, at, size) == v
    decreases size
  {
    if size > 0 {
      assert b[at] == b[at..at + size][0] == v % 256;
      assert b[at + 1..at + size] == b[at..at + size][1..] == Bytes(v / 256, size - 1);
      LoadStored(b, at + 1, size - 1, v / 256);
    }
  }

  /** The other direction: bytes are determined by the value they load as. */
  lemma {:induction false} StoredLoad(b: seq<byte>, at: nat, size: nat)
    requires at + size <= |b|
    ensures Bytes(Load(b, at, size), size) == b[at..at + size]
    decreases size
  {
    if size > 0 {
      StoredLoad(b, at + 1, size - 1);
      var rest := Load(b, at + 1, size - 1);
      assert (b[at] + 256 * rest) % 256 == b[at] && (b[at] + 256 * rest) / 256 == rest;
      assert b[at..at + size] == [b[at]] + b[at + 1..at + size];
    }
  }

  /** The byte store loop: little-endian, in place, touching only its own bytes. */
  method Store(a: array<byte>, at: nat, value: nat, size: nat)
    requires at + size <= a.Length
    modifies a
    ensures a[..] == old(a[..at]) + Bytes(value, size) + old(a[at + size..])
  {
    var rest := value;
    ghost var before, whole := a[..], Bytes(value, size);
    var i := 0;
    while i < size
      invariant i <= size
      invariant Bytes(rest, size - i) == whole[i..]
      invariant a[..] == before[..at] + whole[..i] + before[at + i..]
    {
      a[at + i] := rest % 256;
      assert whole[i..][0] == rest % 256 && whole[i..][1..] == whole[i + 1..];
      assert whole[..i + 1] == whole[..i] + [rest % 256];
      rest := rest / 256;
      i := i + 1;
    }
    assert whole[..i] == whole;
  }
}
