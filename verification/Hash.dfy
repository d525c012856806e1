/** The order of src/crypto/hash.rs on 32-byte hashes, which compares two 128-bit
    halves. It is the order of the 256-bit big-endian numbers, and it tells any two
    different hashes apart; the rest of the model may therefore speak of a hash as the
    number it denotes. */
module Hash {
  import opened Basics

  type H256Bytes = b: seq<byte> | |b| == 32 witness seq(32, _ => 0)

  datatype Ordering = Less | Equal | Greater

  function CmpNat(a: nat, b: nat): Ordering {
    if a < b then Less else if a == b then Equal else Greater
  }

  /** uN::from_be_bytes. */
  function BigEndian(b: seq<byte>): nat {
    if b == [] then 0 else BigEndian(b[..|b| - 1]) * 256 + b[|b| - 1]
  }

  /** Ord for H256. */
  function Cmp(self: H256Bytes, other: H256Bytes): Ordering {
    var higher := CmpNat(BigEndian(self[0..16]), BigEndian(other[0..16]));
    match higher
    case Equal => CmpNat(BigEndian(self[16..32]), BigEndian(other[16..32]))
    case _ => higher
  }

  function Pow256(n: nat): (r: nat)
    ensures r > 0
  {
    if n == 0 then 1 else Pow256(n - 1) * 256
  }

  lemma {:induction false} BigEndianBound(b: seq<byte>)
    ensures BigEndian(b) < Pow256(|b|)
  {
    if b != [] {
      BigEndianBound(b[..|b| - 1]);
    }
  }

  lemma BigEndianPush(b: seq<byte>, x: byte)
    ensures BigEndian(b + [x]) == BigEndian(b) * 256 + x
  {
    assert (b + [x])[..|b|] == b;
  }

  lemma ScaleByByte(a: nat, p: nat, q: nat, x: nat)
    ensures (a * p + q) * 256 + x == a * (p * 256) + (q * 256 + x)
  {
    assert (a * p) * 256 == a * (p * 256);
  }

  lemma {:induction false} BigEndianConcat(a: seq<byte>, b: seq<byte>)
    ensures BigEndian(a + b) == BigEndian(a) * Pow256(|b|) + BigEndian(b)
  {
    if b == [] {
      assert a + b == a;
    } else {
      hide BigEndian;
      var n := |b| - 1;
      var b', x := b[..n], b[n];
      assert b == b' + [x] && a + b == (a + b') + [x];
      BigEndianConcat(a, b');
      BigEndianPush(a + b', x);
      BigEndianPush(b', x);
      ScaleByByte(BigEndian(a), Pow256(n), BigEndian(b'), x);
    }
  }

  lemma {:induction false} BigEndianInjective(a: seq<byte>, b: seq<byte>)
    requires |a| == |b| && BigEndian(a) == BigEndian(b)
    ensures a == b
  {
    if a != [] {
      var n := |a| - 1;
      BigEndianInjective(a[..n], b[..n]);
      assert a == a[..n] + [a[n]];
      assert b == b[..n] + [b[n]];
    }
  }

  lemma {:induction false} MulMonotone(a: nat, b: nat, c: nat)
    requires a <= b
    ensures a * c <= b * c
    decreases b - a
  {
    if a < b {
      MulMonotone(a, b - 1, c);
      assert b * c == (b - 1) * c + c;
    }
  }

  lemma SingleByte(x: byte)
    ensures BigEndian([x]) == x
  {
    BigEndianPush([], x);
    assert [] + [x] == [x];
  }

  /** The leading byte counts most. */
  lemma LeadingByte(x: byte, rest: seq<byte>)
    ensures BigEndian([x] + rest) == x * Pow256(|rest|) + BigEndian(rest)
  {
    SingleByte(x);
    hide BigEndian, Pow256;
    BigEndianConcat([x], rest);
  }

  lemma {:induction false} AllOnes(n: nat)
    ensures BigEndian(seq(n, _ => 255)) == Pow256(n) - 1
  {
    if n > 0 {
      AllOnes(n - 1);
      BigEndianPush(seq(n - 1, _ => 255), 255);
      assert seq(n - 1, _ => 255) + [255] == seq(n, _ => 255);
    }
  }

  lemma SmallPowers()
    ensures Pow256(31) == 0x1_0000000000_0000000000_0000000000_0000000000_0000000000_0000000000_00
  {
    assert Pow256(6) == 0x1_0000_0000_0000;
    assert Pow256(11) == 0x1_0000_0000_0000_0000_0000_00;
    assert Pow256(16) == 0x1_0000_0000_0000_0000_0000_0000_0000_0000;
    assert Pow256(21) == 0x1_0000_0000_0000_0000_0000_0000_0000_0000_0000_0000_00;
    assert Pow256(26) == 0x1_0000_0000_0000_0000_0000_0000_0000_0000_0000_0000_0000_0000_0000;
  }

  /** A hash of one leading byte and 31 bytes of 255: the form of both genesis difficulties. */
  lemma DifficultyIs(x: byte)
    ensures BigEndian([x] + seq(31, _ => 255)) == (x + 1) * Pow256(31) - 1
  {
    hide BigEndian, Pow256;
    LeadingByte(x, seq(31, _ => 255));
    AllOnes(31);
  }

  /** A higher leading half decides, whatever the trailing halves are. */
  lemma LeadingHalfDecides(hi: nat, lo: nat, hi': nat, lo': nat, unit: nat)
    requires lo < unit && lo' < unit
    ensures hi < hi' ==> hi * unit + lo < hi' * unit + lo'
  {
    if hi < hi' {
      MulMonotone(hi + 1, hi', unit);
      assert (hi + 1) * unit == hi * unit + unit;
    }
  }

  /** The two-halves comparison is the comparison of the 256-bit numbers. */
  lemma CmpIsNumeric(a: H256Bytes, b: H256Bytes)
    ensures Cmp(a, b) == CmpNat(BigEndian(a), BigEndian(b))
  {
    hide BigEndian, Pow256;
    var unit := Pow256(16);
    assert a == a[0..16] + a[16..32] && b == b[0..16] + b[16..32];
    BigEndianConcat(a[0..16], a[16..32]);
    BigEndianConcat(b[0..16], b[16..32]);
    BigEndianBound(a[16..32]);
    BigEndianBound(b[16..32]);
    LeadingHalfDecides(BigEndian(a[0..16]), BigEndian(a[16..32]), BigEndian(b[0..16]), BigEndian(b[16..32]), unit);
    LeadingHalfDecides(BigEndian(b[0..16]), BigEndian(b[16..32]), BigEndian(a[0..16]), BigEndian(a[16..32]), unit);
  }

  /** Ord agrees with Eq. */
  lemma CmpEqualIffSame(a: H256Bytes, b: H256Bytes)
    ensures Cmp(a, b) == Equal <==> a == b
  {
    CmpIsNumeric(a, b);
    if Cmp(a, b) == Equal {
      BigEndianInjective(a, b);
    }
  }
}
