/** Address arithmetic of the page-table layout: section 4.5 of Intel SDM volume 3A, with
    canonical addresses as in section 3.3.7.1 of volume 1. */
module VirtLayout {

  const SLOT_MASK: bv64 := 0x0000_007F_FFFF_FFFF

  /** The first index of the high-alias window. */
  const ALIAS_BASE: bv64 := 508

  /** pml4_index: bits 47 to 39. */
  function Pml4Index(a: bv64): bv64 { (a >> 39) & 0x1FF }

  /** canonicalize_virt: bit 47 is extended upwards. */
  function Canonicalize(a: bv64): bv64 {
    if a & 0x0000_8000_0000_0000 != 0 then a | 0xFFFF_0000_0000_0000 else a & 0x0000_FFFF_FFFF_FFFF
  }

  /** pml4_index_base_addr */
  function SlotBase(i: bv64): bv64 { Canonicalize(i << 39) }

  /** kernel_high_alias_of_low */
  function HighAlias(a: bv64): bv64 {
    HighAddress(Pml4Index(a), a & SLOT_MASK)
  }

  /** The address at an offset in the alias slot of index `i`. */
  function HighAddress(i: bv64, offset: bv64): bv64 {
    SlotBase(ALIAS_BASE + i) + offset
  }

  /** 2^41: the low addresses that the alias window covers. */
  const ALIAS_LIMIT: bv64 := 0x0000_0200_0000_0000

  /** 2^64 - 2^41: where the alias window starts, and the bits above it. */
  const ALIAS_START: bv64 := 0xFFFF_FE00_0000_0000

  lemma BelowLimit(a: bv64)
    ensures a < ALIAS_LIMIT <==> a & ALIAS_START == 0
  {
  }

  lemma SumOfSlot(x: bv64, y: bv64)
    requires x & SLOT_MASK == 0 && y & !SLOT_MASK == 0
    ensures x + y == x | y
  {
  }

  /** A low address has one of the indices 0 to 3. */
  lemma LowIndex(a: bv64)
    requires a & ALIAS_START == 0
    ensures Pml4Index(a) == a >> 39 && Pml4Index(a) & !3 == 0
  {
  }

  lemma HighSlot(i: bv64)
    requires i & !3 == 0
    ensures ALIAS_BASE + i == ALIAS_BASE | i && SlotBase(ALIAS_BASE | i) == ALIAS_START | (i << 39)
    ensures SlotBase(ALIAS_BASE | i) & SLOT_MASK == 0
  {
  }

  lemma Rejoined(a: bv64)
    requires a & ALIAS_START == 0
    ensures (ALIAS_START | ((a >> 39) << 39)) | (a & SLOT_MASK) == ALIAS_START | a
    ensures ALIAS_START | a == a + ALIAS_START && ALIAS_START | a >= ALIAS_START
  {
  }

  /** The alias sets the bits above the window and keeps the rest. */
  lemma AliasSetsBits(a: bv64)
    requires a & ALIAS_START == 0
    ensures HighAlias(a) == ALIAS_START | a
  {
    LowIndex(a);
    HighAddressBits(a >> 39, a & SLOT_MASK);
    Rejoined(a);
  }

  lemma HighAddressBits(i: bv64, offset: bv64)
    requires i & !3 == 0 && offset & !SLOT_MASK == 0
    ensures HighAddress(i, offset) == (ALIAS_START | (i << 39)) | offset
  {
    HighSlot(i);
    SumOfSlot(SlotBase(ALIAS_BASE | i), offset);
  }

  /** On every covered address the bit manipulation is one addition of 2^64 - 2^41, and the sum
      does not overflow. */
  lemma AliasIsShift(a: bv64)
    requires a < ALIAS_LIMIT
    ensures HighAlias(a) == a + ALIAS_START && HighAlias(a) >= ALIAS_START
  {
    BelowLimit(a);
    AliasSetsBits(a);
    Rejoined(a);
  }

  lemma SetBitsPlace(a: bv64)
    requires a & ALIAS_START == 0
    ensures Canonicalize(ALIAS_START | a) == ALIAS_START | a && Pml4Index(ALIAS_START | a) == ALIAS_BASE | Pml4Index(a)
    ensures (ALIAS_START | a) & SLOT_MASK == a & SLOT_MASK
  {
  }

  /** The alias is canonical, sits in slot 508 + index and keeps the offset in the slot. */
  lemma AliasPlace(a: bv64)
    requires a < ALIAS_LIMIT
    ensures Canonicalize(HighAlias(a)) == HighAlias(a)
    ensures Pml4Index(HighAlias(a)) == ALIAS_BASE + Pml4Index(a)
    ensures HighAlias(a) & SLOT_MASK == a & SLOT_MASK
  {
    BelowLimit(a);
    AliasSetsBits(a);
    SetBitsPlace(a);
    LowIndex(a);
    HighSlot(Pml4Index(a));
  }

  lemma SetBitsInjective(a: bv64, b: bv64)
    requires a & ALIAS_START == 0 && b & ALIAS_START == 0 && ALIAS_START | a == ALIAS_START | b
    ensures a == b
  {
  }

  lemma AliasInjective(a: bv64, b: bv64)
    requires a < ALIAS_LIMIT && b < ALIAS_LIMIT && HighAlias(a) == HighAlias(b)
    ensures a == b
  {
    BelowLimit(a);
    BelowLimit(b);
    AliasSetsBits(a);
    AliasSetsBits(b);
    SetBitsInjective(a, b);
  }

  /** Slots 0 to 3 hold exactly the canonical addresses below the limit. */
  lemma AliasDomain(a: bv64)
    requires Canonicalize(a) == a
    ensures a < ALIAS_LIMIT <==> Pml4Index(a) < 4
  {
  }

  lemma LimitIndex(a: bv64)
    requires a < ALIAS_LIMIT
    ensures Pml4Index(a) < 4
  {
  }

  /** One slot further the alias wraps around to low memory. */
  lemma AliasWraps()
    ensures HighAlias(ALIAS_LIMIT) == 0
  {
  }
}
