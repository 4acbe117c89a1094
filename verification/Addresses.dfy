/** Addresses and networks, and the folding of IPv4-mapped ones (section 2.5.5.2 of RFC 4291). */
module Addresses {
  import opened Options

  /** `x >> k` */
  function Shift(x: nat, k: nat): nat
    decreases k
  {
    if k == 0 then x else Shift(x / 2, k - 1)
  }

  const V4_SPACE := 0x1_0000_0000
  const V6_SPACE := 0x1_0000_0000_0000_0000_0000_0000_0000_0000
  const MAPPED_BLOCK := 0xFFFF
  const MAPPED_BASE := 0xFFFF_0000_0000

  datatype Address = V4(bits: nat) | V6(bits: nat, zone: Option<string>) {
    predicate Valid() { if V4? then bits < V4_SPACE else bits < V6_SPACE }
  }

  datatype Network = V4Net(base: nat, prefix: nat) | V6Net(base: nat, prefix: nat) {
    predicate Valid() {
      if V4Net? then base < V4_SPACE && prefix <= 32
      else base < V6_SPACE && prefix <= 128
    }
  }

  predicate InMappedBlock(bits: nat) { Shift(bits, 32) == MAPPED_BLOCK }

  function Canonical(a: Address): Address {
    if a.V4? then a else if InMappedBlock(a.bits) then V4(a.bits % V4_SPACE) else V6(a.bits, None)
  }

  function CanonicalNetwork(n: Network): (r: Network)
    ensures n.Valid() ==> r.Valid()
  {
    if n.V6Net? && n.prefix >= 96 && InMappedBlock(n.base) then V4Net(n.base % V4_SPACE, n.prefix - 96) else n
  }

  /** Two numbers agree above their lowest `free` bits. */
  predicate SameBlock(x: nat, y: nat, free: nat) { Shift(x, free) == Shift(y, free) }

  predicate Contains(n: Network, a: Address)
    requires n.Valid()
  {
    if n.V4Net? then a.V4? && SameBlock(a.bits, n.base, 32 - n.prefix)
    else a.V6? && SameBlock(a.bits, n.base, 128 - n.prefix)
  }

  // ---- The reference: every address and network read as IPv6 ----

  function Wide(a: Address): nat { if a.V4? then MAPPED_BASE + a.bits else a.bits }

  predicate Covers(n: Network, a: Address)
    requires n.Valid()
  {
    if n.V4Net? then SameBlock(Wide(a), MAPPED_BASE + n.base, 32 - n.prefix)
    else SameBlock(Wide(a), n.base, 128 - n.prefix)
  }

  lemma {:induction false} ShiftAdds(x: nat, a: nat, b: nat)
    ensures Shift(x, a + b) == Shift(Shift(x, a), b)
    decreases a
  {
    if a > 0 {
      ShiftAdds(x / 2, a - 1, b);
    }
  }

  lemma ShiftByByte(x: nat)
    ensures Shift(x, 8) == x / 256
  {
    assert Shift(x, 8) == Shift(x / 2 / 2 / 2 / 2 / 2 / 2 / 2 / 2, 0);
  }

  lemma ShiftBy32(x: nat)
    ensures Shift(x, 32) == x / V4_SPACE
  {
    ShiftAdds(x, 8, 24);
    ShiftAdds(Shift(x, 8), 8, 16);
    ShiftAdds(Shift(Shift(x, 8), 8), 8, 8);
    ShiftByByte(x);
    ShiftByByte(x / 256);
    ShiftByByte(x / 256 / 256);
    ShiftByByte(x / 256 / 256 / 256);
  }

  /** `c << n` */
  function Scale(c: nat, n: nat): nat
    decreases n
  {
    if n == 0 then c else 2 * Scale(c, n - 1)
  }

  lemma {:induction false} ScaleAdds(c: nat, a: nat, b: nat)
    ensures Scale(c, a + b) == Scale(Scale(c, a), b)
    decreases b
  {
    if b > 0 {
      ScaleAdds(c, a, b - 1);
    }
  }

  lemma ScaleByByte(c: nat)
    ensures Scale(c, 8) == 256 * c
  {
  }

  lemma {:induction false} ShiftScaled(c: nat, n: nat, x: nat, k: nat)
    requires k <= n
    ensures Shift(Scale(c, n) + x, k) == Scale(c, n - k) + Shift(x, k)
    decreases k
  {
    if k > 0 {
      assert (Scale(c, n) + x) / 2 == Scale(c, n - 1) + x / 2;
      ShiftScaled(c, n - 1, x / 2, k - 1);
    }
  }

  lemma {:induction false} ScaleDistributes(a: nat, b: nat, k: nat)
    ensures Scale(a + b, k) == Scale(a, k) + Scale(b, k)
    decreases k
  {
    if k > 0 {
      ScaleDistributes(a, b, k - 1);
    }
  }

  lemma {:induction false} ShiftFloors(x: nat, q: nat, k: nat)
    ensures Shift(x, k) == q <==> Scale(q, k) <= x < Scale(q + 1, k)
    decreases k
  {
    if k > 0 {
      ShiftFloors(x / 2, q, k - 1);
    }
  }

  /** A network is a range: its members run from its first address through the next `2 ^ free` numbers. */
  lemma BlockIsRange(x: nat, q: nat, free: nat)
    ensures SameBlock(x, Scale(q, free), free) <==> Scale(q, free) <= x < Scale(q, free) + Scale(1, free)
  {
    ShiftFloors(Scale(q, free), q, free);
    ShiftFloors(x, q, free);
    ScaleDistributes(q, 1, free);
    ScaleGrows(free);
  }

  lemma {:induction false} ScaleGrows(k: nat)
    ensures Scale(1, k) > 0
    decreases k
  {
    if k > 0 {
      ScaleGrows(k - 1);
    }
  }

  lemma ScaledBlock()
    ensures Scale(MAPPED_BLOCK, 32) == MAPPED_BASE
  {
    ScaleAdds(MAPPED_BLOCK, 8, 24);
    ScaleAdds(Scale(MAPPED_BLOCK, 8), 8, 16);
    ScaleAdds(Scale(Scale(MAPPED_BLOCK, 8), 8), 8, 8);
    ScaleByByte(MAPPED_BLOCK);
    ScaleByByte(MAPPED_BLOCK * 256);
    ScaleByByte(MAPPED_BLOCK * 256 * 256);
    ScaleByByte(MAPPED_BLOCK * 256 * 256 * 256);
  }

  lemma SmallBlocksNest(x: nat, y: nat, free: nat)
    requires free <= 32 && SameBlock(x, y, free)
    ensures SameBlock(x, y, 32)
  {
    ShiftAdds(x, free, 32 - free);
    ShiftAdds(y, free, 32 - free);
  }

  /** In small blocks the low halves decide. */
  lemma MappedBlocks(x: nat, y: nat, free: nat)
    requires free <= 32
    ensures SameBlock(MAPPED_BASE + x, MAPPED_BASE + y, free) <==> SameBlock(x, y, free)
  {
    ScaledBlock();
    ShiftScaled(MAPPED_BLOCK, 32, x, free);
    ShiftScaled(MAPPED_BLOCK, 32, y, free);
  }

  lemma CanonicalIsWide(a: Address)
    requires a.Valid()
    ensures Wide(Canonical(a)) == Wide(a) && Canonical(Canonical(a)) == Canonical(a) && Canonical(a).Valid()
    ensures Canonical(a).V4? <==> InMappedBlock(Wide(a))
  {
    ShiftBy32(Wide(a));
  }

  /** A wide IPv6 network does not get to see an IPv4-mapped address. */
  predicate Hidden(n: Network, a: Address) { n.V6Net? && n.prefix < 96 && InMappedBlock(Wide(a)) }

  /**
   Membership after folding is coverage, except that a wide IPv6 network no longer has the
   IPv4-mapped addresses it covers.
   */
  lemma FoldedMembership(n: Network, a: Address)
    requires n.Valid() && a.Valid()
    ensures Contains(CanonicalNetwork(n), Canonical(a))
            <==> Covers(n, a) && !Hidden(n, a)
  {
    CanonicalIsWide(a);
    if n.V4Net? {
      ShiftBy32(MAPPED_BASE + n.base);
      FoldedSmall(a, MAPPED_BASE + n.base, 32 - n.prefix);
    } else {
      ShiftBy32(n.base);
      if n.prefix >= 96 {
        FoldedSmall(a, n.base, 128 - n.prefix);
      }
    }
  }

  lemma FoldedSmall(a: Address, base: nat, free: nat)
    requires a.Valid() && free <= 32
    ensures var c := Canonical(a);
            SameBlock(Wide(a), base, free)
            <==> if InMappedBlock(base) then c.V4? && SameBlock(c.bits, base % V4_SPACE, free)
                 else c.V6? && SameBlock(c.bits, base, free)
  {
    CanonicalIsWide(a);
    ShiftBy32(base);
    var c := Canonical(a);
    if SameBlock(Wide(a), base, free) {
      SmallBlocksNest(Wide(a), base, free);
    }
    if c.V4? && InMappedBlock(base) {
      assert Wide(a) == MAPPED_BASE + c.bits && base == MAPPED_BASE + base % V4_SPACE;
      MappedBlocks(c.bits, base % V4_SPACE, free);
    }
  }

  /** Folding keeps the membership of every address unless a wide IPv6 network holds the IPv4-mapped block. */
  lemma FoldingIsExact(n: Network)
    requires n.Valid()
    ensures (forall a: Address :: a.Valid() ==> (Contains(CanonicalNetwork(n), Canonical(a)) <==> Covers(n, a)))
            <==> !(n.V6Net? && n.prefix < 96 && Covers(n, V4(0)))
  {
    FoldedMembership(n, V4(0));
    if !(n.V6Net? && n.prefix < 96 && Covers(n, V4(0))) {
      forall a: Address | a.Valid() ensures Contains(CanonicalNetwork(n), Canonical(a)) <==> Covers(n, a) {
        FoldedMembership(n, a);
        if Hidden(n, a) {
          WideBlocks(Wide(a), 128 - n.prefix);
        }
      }
    } else {
      assert InMappedBlock(Wide(V4(0)));
    }
  }

  /** A block of more than 32 free bits takes the IPv4-mapped addresses all or not at all. */
  lemma WideBlocks(x: nat, free: nat)
    requires free >= 32 && InMappedBlock(x)
    ensures SameBlock(x, MAPPED_BASE, free)
  {
    ShiftBy32(MAPPED_BASE);
    ShiftAdds(x, 32, free - 32);
    ShiftAdds(MAPPED_BASE, 32, free - 32);
  }

  /** `::/0` reads as every address, and yet no IPv4 address is in it. */
  lemma AnyIsNotAny(bits: nat)
    requires bits < V4_SPACE
    ensures Covers(V6Net(0, 0), V4(bits)) && !Contains(CanonicalNetwork(V6Net(0, 0)), Canonical(V4(bits)))
  {
    ShiftBy32(Wide(V4(bits)));
    ShiftBy32(MAPPED_BLOCK);
    ShiftAdds(Wide(V4(bits)), 32, 96);
    ShiftAdds(MAPPED_BLOCK, 32, 64);
    ShiftOfZero(64);
    ShiftOfZero(128);
  }

  lemma {:induction false} ShiftOfZero(k: nat)
    ensures Shift(0, k) == 0
    decreases k
  {
    if k > 0 {
      ShiftOfZero(k - 1);
    }
  }

  /** The network of one address, as an entry of the trusted set. */
  function Single(a: Address): Network { if a.V4? then V4Net(a.bits, 32) else V6Net(a.bits, 128) }

  /** Trusting one address trusts that address in each of its forms, and nothing else. */
  lemma SingleMatches(entry: Address, a: Address)
    requires entry.Valid() && a.Valid()
    ensures var n := CanonicalNetwork(Single(Canonical(entry)));
            n.Valid() && (Contains(n, Canonical(a)) <==> Wide(a) == Wide(entry))
  {
    CanonicalIsWide(entry);
    FoldedMembership(Single(Canonical(entry)), a);
  }
}
