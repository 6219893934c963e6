// Bytes of the recorder's integers.  The controller is little endian, the
// STANAG 4575 directory is big endian; M23_Typedefs.h converts between the two
// with the SWAP_TWO, SWAP_FOUR and SWAP_EIGHT macros.
module Bytes {

  type Byte = x: nat | x < 0x100
  type U16 = x: nat | x < 0x1_0000
  type U32 = x: nat | x < 0x1_0000_0000
  type U64 = x: nat | x < 0x1_0000_0000_0000_0000

  const TWO64 := 0x1_0000_0000_0000_0000

  function Pow256(n: nat): (p: nat)
    ensures p > 0
  {
    if n == 0 then 1 else 0x100 * Pow256(n - 1)
  }

  // The n low-order bytes of x, least significant first: the memory image of
  // an n-byte unsigned integer on the controller.
  function LittleEndian(x: nat, n: nat): (s: seq<Byte>)
    ensures |s| == n
  {
    if n == 0 then [] else [x % 0x100] + LittleEndian(x / 0x100, n - 1)
  }

  function FromLittleEndian(s: seq<Byte>): nat {
    if s == [] then 0 else s[0] + 0x100 * FromLittleEndian(s[1..])
  }

  function Reversed(s: seq<Byte>): (r: seq<Byte>)
    ensures |r| == |s|
  {
    if s == [] then [] else Reversed(s[1..]) + [s[0]]
  }

  // The byte order STANAG 4575 prescribes for every integer of the directory.
  function BigEndian(x: nat, n: nat): (s: seq<Byte>)
    ensures |s| == n
  {
    Reversed(LittleEndian(x, n))
  }

  lemma {:induction false} LittleEndianDecodes(x: nat, n: nat)
    requires x < Pow256(n)
    ensures FromLittleEndian(LittleEndian(x, n)) == x
  {
    if n == 0 {
    } else {
      assert x / 0x100 < Pow256(n - 1);
      LittleEndianDecodes(x / 0x100, n - 1);
      assert LittleEndian(x, n)[1..] == LittleEndian(x / 0x100, n - 1);
    }
  }

  lemma {:induction false} LittleEndianEncodes(s: seq<Byte>)
    ensures FromLittleEndian(s) < Pow256(|s|)
    ensures LittleEndian(FromLittleEndian(s), |s|) == s
  {
    if s == [] {
    } else {
      var rest := FromLittleEndian(s[1..]);
      LittleEndianEncodes(s[1..]);
      assert (s[0] + 0x100 * rest) % 0x100 == s[0] && (s[0] + 0x100 * rest) / 0x100 == rest;
      assert s == [s[0]] + s[1..];
    }
  }

  lemma {:induction false} ReversedAppend(s: seq<Byte>, b: Byte)
    ensures Reversed(s + [b]) == [b] + Reversed(s)
  {
    if s == [] {
      assert Reversed([b]) == Reversed([]) + [b];
    } else {
      ReversedAppend(s[1..], b);
      assert (s + [b])[1..] == s[1..] + [b];
    }
  }

  lemma {:induction false} ReversedTwice(s: seq<Byte>)
    ensures Reversed(Reversed(s)) == s
  {
    if s == [] {
    } else {
      ReversedTwice(s[1..]);
      ReversedAppend(Reversed(s[1..]), s[0]);
      assert s == [s[0]] + s[1..];
    }
  }

  // The macros mask out each byte and shift it to its mirrored place.  The
  // shifted bytes do not overlap, so the bitwise or of the source is a sum.
  function ByteAt(x: nat, i: nat): Byte {
    x / Pow256(i) % 0x100
  }

  function MirroredBytes(x: nat, n: nat, i: nat): nat
    requires i <= n
  {
    if i == 0 then 0 else MirroredBytes(x, n, i - 1) + ByteAt(x, i - 1) * Pow256(n - i)
  }

  // The n-byte macro.
  function Swap(x: nat, n: nat): (y: nat)
    ensures y < Pow256(n)
  {
    MirroredBytesValue(x, n, n);
    LittleEndianEncodes(BigEndian(x, n));
    MirroredBytes(x, n, n)
  }

  function SwapTwo(x: U16): U16 {
    PowersOf256();
    Swap(x, 2)
  }

  function SwapFour(x: U32): U32 {
    PowersOf256();
    Swap(x, 4)
  }

  function SwapEight(x: U64): U64 {
    PowersOf256();
    Swap(x, 8)
  }

  lemma {:induction false} MirroredBytesValue(x: nat, n: nat, i: nat)
    requires i <= n
    ensures MirroredBytes(x, n, i) == Pow256(n - i) * FromLittleEndian(BigEndian(x, n)[n - i..])
  {
    var s := BigEndian(x, n);
    if i == 0 {
      assert s[n..] == [];
    } else {
      MirroredBytesValue(x, n, i - 1);
      ReversedAt(LittleEndian(x, n), n - i);
      ImageBytes(x, n, i - 1);
      var rest := FromLittleEndian(s[n - i + 1..]);
      assert s[n - i..][1..] == s[n - i + 1..];
      assert FromLittleEndian(s[n - i..]) == ByteAt(x, i - 1) as int + 0x100 * rest;
      Regroup(Pow256(n - i), ByteAt(x, i - 1), rest);
    }
  }

  lemma Regroup(p: nat, b: nat, rest: nat)
    ensures 0x100 * p * rest + b * p == p * (b + 0x100 * rest)
  {
  }

  lemma {:induction false} ImageBytes(x: nat, n: nat, i: nat)
    requires i < n
    ensures LittleEndian(x, n)[i] == ByteAt(x, i)
  {
    if i > 0 {
      ImageBytes(x / 0x100, n - 1, i - 1);
      QuotientOfQuotient(x, Pow256(i - 1));
    }
  }

  lemma QuotientOfQuotient(x: nat, p: nat)
    requires p > 0
    ensures x / 0x100 / p == x / (0x100 * p)
  {
    var q := x / 0x100 / p;
    var r := x / 0x100 % p * 0x100 + x % 0x100;
    assert x / 0x100 == p * q + x / 0x100 % p;
    assert x == 0x100 * p * q + r;
    Quotient(x, 0x100 * p, q, r);
  }

  lemma Quotient(x: nat, d: nat, q: nat, r: nat)
    requires r < d && x == d * q + r
    ensures x / d == q
  {
    var k := x / d;
    assert x == d * k + x % d;
    if k < q {
      ProductGrows(d, k + 1, q);
    } else if q < k {
      ProductGrows(d, q + 1, k);
    }
  }

  lemma ProductGrows(d: nat, a: nat, b: nat)
    requires a <= b
    ensures d * a <= d * b
  {
  }

  // Reading the bytes of an integer back in the opposite order.
  lemma {:induction false} ReversedAt(s: seq<Byte>, i: nat)
    requires i < |s|
    ensures Reversed(s)[i] == s[|s| - 1 - i]
  {
    if i < |s| - 1 {
      ReversedAt(s[1..], i);
    }
  }

  // Swapping and then storing the memory image writes the big-endian form.
  lemma {:induction false} SwapIsBigEndian(x: nat, n: nat)
    ensures LittleEndian(Swap(x, n), n) == BigEndian(x, n)
  {
    var s := BigEndian(x, n);
    MirroredBytesValue(x, n, n);
    assert s[n - n..] == s;
    LittleEndianEncodes(s);
  }

  // SWAP_TWO, SWAP_FOUR and SWAP_EIGHT undo themselves.
  lemma {:induction false} SwapIsInvolution(x: nat, n: nat)
    requires x < Pow256(n)
    ensures Swap(Swap(x, n), n) == x
  {
    SwapIsBigEndian(x, n);
    SwapIsBigEndian(Swap(x, n), n);
    ReversedTwice(LittleEndian(x, n));
    LittleEndianDecodes(Swap(Swap(x, n), n), n);
    LittleEndianDecodes(x, n);
  }

  // A reader that takes the most significant byte first.
  function FromBigEndian(s: seq<Byte>): nat {
    if s == [] then 0 else 0x100 * FromBigEndian(s[..|s| - 1]) + s[|s| - 1]
  }

  lemma {:induction false} BigEndianReads(x: nat, n: nat)
    requires x < Pow256(n)
    ensures FromBigEndian(BigEndian(x, n)) == x
  {
    if n > 0 {
      BigEndianReads(x / 0x100, n - 1);
      assert BigEndian(x, n) == BigEndian(x / 0x100, n - 1) + [x % 0x100];
      assert BigEndian(x, n)[..n - 1] == BigEndian(x / 0x100, n - 1);
    }
  }

  lemma PowersOf256()
    ensures Pow256(2) == 0x1_0000 && Pow256(4) == 0x1_0000_0000 && Pow256(8) == TWO64
  {
    assert Pow256(1) == 0x100;
    assert Pow256(3) == 0x100_0000;
    assert Pow256(5) == 0x100_0000_0000;
    assert Pow256(6) == 0x1_0000_0000_0000;
    assert Pow256(7) == 0x100_0000_0000_0000;
  }

  // The value an int has when an unsigned number is assigned to it.
  function Int32(x: U64): int {
    var low := x % 0x1_0000_0000;
    if low < 0x8000_0000 then low else low - 0x1_0000_0000
  }
}
