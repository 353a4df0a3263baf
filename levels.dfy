/** How 7-bit MIDI data becomes an 8-bit DMX level. Each function is the arithmetic form of
    one bit expression of the translator on `uint8_t` values; its contract says which bits of
    the result come from where. */
module Levels {
  import opened Midi

  /** A 7-bit value scaled to the 8-bit range, `val <<= 1` on a `uint8_t`. */
  function Scale(val: Data7): (r: Byte)
    ensures r == 2 * val && r % 2 == 0 && r <= 254
  {
    (val * 2) % 256
  }

  /** Bit 0 that a fine (LSB) fragment selects: set exactly when the value is above 63. */
  function FineBit(val: Data7): (b: int)
    ensures b == 0 || b == 1
    ensures b == 1 <==> val > 63
  {
    if val > 63 then 1 else 0
  }

  /** Coarse (MSB) fragment, `(cur & 0x01) | (val << 1)` stored in a `uint8_t`:
      bits 1-7 become the 7 data bits, bit 0 is kept. */
  function WithCoarse(cur: Byte, val: Data7): (r: Byte)
    ensures r % 2 == cur % 2 && r / 2 == val
  {
    (cur % 2 + val * 2) % 256
  }

  /** Fine (LSB) fragment, `cur | 0x01` when `val > 63` and `cur & 0xfe` otherwise:
      bit 0 is set exactly when the value is above 63, bits 1-7 are kept. */
  function WithFine(cur: Byte, val: Data7): (r: Byte)
    ensures r / 2 == cur / 2 && r % 2 == FineBit(val)
  {
    if val > 63 then cur - cur % 2 + 1 else cur - cur % 2
  }

  /** A coarse fragment m and a fine fragment l compose to `2m | (l > 63)`, whatever the
      level was before and in whichever order the two fragments arrive. */
  lemma {:induction false} CoarseFineCompose(cur: Byte, m: Data7, l: Data7)
    ensures WithFine(WithCoarse(cur, m), l) == 2 * m + FineBit(l)
    ensures WithCoarse(WithFine(cur, l), m) == 2 * m + FineBit(l)
  {
    var a := WithCoarse(cur, m);
    assert a == 2 * (a / 2) + a % 2;
    var b := WithFine(cur, l);
    assert WithCoarse(b, m) == 2 * (WithCoarse(b, m) / 2) + WithCoarse(b, m) % 2;
  }

  /** Every 8-bit level is reachable from any starting level by one coarse and one fine
      fragment: the composition is onto. */
  lemma {:induction false} CoarseFineReachAll(cur: Byte, v: Byte)
    ensures WithFine(WithCoarse(cur, v / 2), if v % 2 == 1 then 127 else 0) == v
  {
    CoarseFineCompose(cur, v / 2, if v % 2 == 1 then 127 else 0);
  }
}
