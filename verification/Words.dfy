/** The low bits of counters, as the messages of the built-in program carry them. */
module Words {

  /** The 16-bit word of value `x`. */
  function Low16(x: nat): bv16 {
    if x == 0 then 0 else Next(Low16(x / 2), x)
  }

  /** One more bit at the end: the last one of `x`. */
  function Next(w: bv16, x: nat): bv16 {
    if x % 2 == 0 then w << 1 else (w << 1) | 1
  }

  lemma Doubled(w: bv16)
    requires w < 0x8000
    ensures (w << 1) as nat == 2 * (w as nat) && ((w << 1) | 1) as nat == 2 * (w as nat) + 1
  {
  }

  lemma {:induction false} Low16Exact(x: nat)
    requires x < 0x10000
    ensures Low16(x) as nat == x
  {
    if x > 0 {
      Low16Exact(x / 2);
      Joined(Low16(x / 2), x);
    }
  }

  lemma Small(w: bv16)
    requires w as nat < 0x8000
    ensures w < 0x8000
  {
  }

  lemma Joined(w: bv16, x: nat)
    requires x < 0x10000 && w as nat == x / 2
    ensures Next(w, x) as nat == x
  {
    Small(w);
    Doubled(w);
  }

  /** A tag above the low 16 bits is not disturbed by them. */
  lemma Tagged(tag: bv64, low: bv16)
    requires tag & 0xFFFF == 0
    ensures (tag ^ (low as bv64)) >> 16 == tag >> 16 && (tag ^ (low as bv64)) & 0xFFFF == low as bv64
  {
  }

  lemma Widened(low: bv16)
    ensures (low as bv64) as nat == low as nat
  {
  }
}
