/** The 14-bit NRPN parameter number the two NRPN modes assemble from CC 99 (bits 7-13) and
    CC 98 (bits 0-6), and its mapping onto a (buffer, slot) address. */
module Nrpn {
  import opened Midi
  import opened Dmx

  /** A 14-bit parameter number (`g_nrpnParam`, documented as [0..16383]). */
  type Param = x: int | 0 <= x < 16384

  /** CC 98, `(g_nrpnParam & 0x3f80) | val`: bits 0-6 replaced, bits 7-13 kept. */
  function WithParamLsb(p: Param, val: Data7): (q: Param)
    ensures q / 128 == p / 128 && q % 128 == val
  {
    (p / 128 % 128) * 128 + val
  }

  /** CC 99, `(g_nrpnParam & 0x7f) | (val << 7)`: bits 7-13 replaced, bits 0-6 kept. */
  function WithParamMsb(p: Param, val: Data7): (q: Param)
    ensures q % 128 == p % 128 && q / 128 == val
  {
    p % 128 + val * 128
  }

  /** `g_nrpnParam / 512`: the universe buffer a parameter addresses. */
  function BufferOf(p: Param): (b: BufferIndex)
    ensures b * 512 <= p < b * 512 + 512
  {
    p / 512
  }

  /** `g_nrpnParam % 512`: the slot a parameter addresses within its buffer. */
  function SlotOf(p: Param): (s: SlotIndex)
    ensures BufferOf(p) * 512 + s == p
  {
    p % 512
  }

  /** Parameter numbers and (buffer, slot) addresses are in one-to-one correspondence:
      every slot of every buffer has exactly one parameter number. */
  lemma {:induction false} AddressRoundTrip(b: BufferIndex, s: SlotIndex)
    ensures 0 <= b * 512 + s < 16384
    ensures BufferOf(b * 512 + s) == b && SlotOf(b * 512 + s) == s
  {
  }

  /** An MSB fragment m and an LSB fragment l give parameter `m * 128 + l` whatever the
      parameter was before and in whichever order the two fragments arrive. */
  lemma {:induction false} ParamFromFragments(p: Param, m: Data7, l: Data7)
    ensures WithParamLsb(WithParamMsb(p, m), l) == m * 128 + l
    ensures WithParamMsb(WithParamLsb(p, l), m) == m * 128 + l
  {
    var q := WithParamMsb(p, m);
    var r := WithParamLsb(q, l);
    assert r == 128 * (r / 128) + r % 128;
    var q' := WithParamLsb(p, l);
    var r' := WithParamMsb(q', m);
    assert r' == 128 * (r' / 128) + r' % 128;
  }
}
