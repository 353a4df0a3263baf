/** What each mode handler does to the shared context: which slot it writes, with which
    level, what it leaves alone, and when it sends a frame. */
module HandlerProperties {
  import opened Midi
  import opened Levels
  import opened Dmx
  import opened Nrpn
  import opened Engine

  /** Store e differs from store d at most in slot s of buffer b. */
  ghost predicate OnlyChanged(d: seq<seq<Byte>>, e: seq<seq<Byte>>, b: BufferIndex, s: SlotIndex)
  {
    IsStore(d) && IsStore(e) &&
    forall b', s' :: 0 <= b' < |e| && 0 <= s' < |e[b']| && (b' != b || s' != s) ==>
      e[b'][s'] == d[b'][s']
  }

  /** The NRPN parameter and value are left as they were. */
  predicate SameAccumulator(c: Context, r: Context)
  {
    r.nrpnParam == c.nrpnParam && r.nrpnVal == c.nrpnVal
  }

  // ---------------------------------------------------------------- cc7

  /** cc7 selects buffer `channel` and universe `channel + base` (wrapping at 256), writes
      the doubled value (at most 254) to slot `cc` of that buffer and to nothing else, and
      sends exactly that buffer once. */
  lemma Cc7Effect(c: Context, base: Byte, channel: Channel, cc: Data7, val: Data7)
    requires Valid(c)
    ensures var r := Cc7(c, base, channel, cc, val);
      && r.bufferIndex == channel
      && r.universe == (channel + base) % 256
      && r.dmx[channel][cc] == 2 * val <= 254
      && OnlyChanged(c.dmx, r.dmx, channel, cc)
      && r.sent == c.sent + [Frame(r.universe, r.dmx[channel])]
      && SameAccumulator(c, r) && r.slot == c.slot
  {
  }

  // ---------------------------------------------------------------- cc14

  /** cc14 drops every controller above 65 without any change. */
  lemma Cc14Ignored(c: Context, channel: Channel, cc: Data7, val: Data7)
    requires Valid(c) && cc > 65
    ensures Cc14(c, channel, cc, val) == c
  {
  }

  /** cc14 addresses slot `cc % 32 + (channel * 32) % 256`, always below 256, in the buffer
      and universe left by earlier messages, and changes no other slot. */
  lemma Cc14Address(c: Context, channel: Channel, cc: Data7, val: Data7)
    requires Valid(c) && cc <= 65
    ensures var r := Cc14(c, channel, cc, val);
      && r.slot == cc % 32 + (channel * 32) % 256 < 256
      && r.bufferIndex == c.bufferIndex && r.universe == c.universe
      && OnlyChanged(c.dmx, r.dmx, c.bufferIndex, r.slot)
      && SameAccumulator(c, r)
  {
  }

  /** A coarse fragment (controller 0-31) replaces bits 1-7 of the addressed level with the
      data, keeps bit 0, and sends nothing. */
  lemma Cc14Coarse(c: Context, channel: Channel, cc: Data7, val: Data7)
    requires Valid(c) && cc <= 31
    ensures var r := Cc14(c, channel, cc, val);
      && r.dmx[c.bufferIndex][r.slot] == 2 * val + c.dmx[c.bufferIndex][r.slot] % 2
      && r.sent == c.sent
  {
  }

  /** A fine fragment (controller 32-65) sets bit 0 of the addressed level exactly when the
      data is above 63, keeps bits 1-7, and sends the buffer once. */
  lemma Cc14Fine(c: Context, channel: Channel, cc: Data7, val: Data7)
    requires Valid(c) && 32 <= cc <= 65
    ensures var r := Cc14(c, channel, cc, val);
      var before, after := c.dmx[c.bufferIndex][r.slot], r.dmx[c.bufferIndex][r.slot];
      && after / 2 == before / 2
      && (after % 2 == 1 <==> val > 63)
      && r.sent == c.sent + [Frame(c.universe, r.dmx[c.bufferIndex])]
  {
  }

  /** Controller s (coarse m) followed by controller s + 32 (fine l) on one channel leaves
      `2m | (l > 63)` in the slot and sends exactly one frame, after the fine fragment. */
  lemma Cc14Pair(c: Context, channel: Channel, s: Data7, m: Data7, l: Data7)
    requires Valid(c) && s < 32
    ensures var r := Cc14(Cc14(c, channel, s, m), channel, s + 32, l);
      && r.dmx[c.bufferIndex][Cc14Slot(channel, s)] == 2 * m + FineBit(l)
      && r.sent == c.sent + [Frame(c.universe, r.dmx[c.bufferIndex])]
  {
    var c1 := Cc14(c, channel, s, m);
    assert Cc14Slot(channel, s + 32) == Cc14Slot(channel, s);
    CoarseFineCompose(c.dmx[c.bufferIndex][Cc14Slot(channel, s)], m, l);
  }

  /** A coarse fragment is written at once, not held back until its fine fragment: a fine
      fragment for another slot of the block sends the half-updated level, `2m` plus the old
      bit 0. */
  lemma Cc14CoarseSentEarly(c: Context, channel: Channel, s: Data7, t: Data7, m: Data7, l: Data7)
    requires Valid(c) && s < 32 && 32 <= t <= 65 && Cc14Slot(channel, t) != Cc14Slot(channel, s)
    ensures var r := Cc14(Cc14(c, channel, s, m), channel, t, l);
      && r.sent == c.sent + [Frame(c.universe, r.dmx[c.bufferIndex])]
      && r.dmx[c.bufferIndex][Cc14Slot(channel, s)]
         == 2 * m + c.dmx[c.bufferIndex][Cc14Slot(channel, s)] % 2
  {
  }

  /** The channel offset is computed in a `uint8_t`, so channels c and c + 8 address the same
      slots: a message on channel 9 (1-based) acts exactly as one on channel 1. */
  lemma Cc14ChannelWrap(c: Context, channel: Channel, cc: Data7, val: Data7)
    requires Valid(c) && channel < 8
    ensures Cc14(c, channel + 8, cc, val) == Cc14(c, channel, cc, val)
  {
    assert Cc14Slot(channel + 8, cc) == Cc14Slot(channel, cc);
  }

  /** Controllers 64 and 65 pass the `cc > 65` guard and act as fine fragments for the first
      two slots of the channel's block, exactly as controllers 32 and 33. */
  lemma Cc14HighFine(c: Context, channel: Channel, cc: Data7, val: Data7)
    requires Valid(c) && 64 <= cc <= 65
    ensures Cc14(c, channel, cc, val) == Cc14(c, channel, cc - 32, val)
  {
    assert Cc14Slot(channel, cc) == Cc14Slot(channel, cc - 32);
  }

  // ---------------------------------------------------------------- nrpn7 and nrpn14

  /** The handler of nrpn14 when `nrpn14` holds, of nrpn7 otherwise. */
  function NrpnHandler(nrpn14: bool, c: Context, base: Byte, cc: Data7, val: Data7): (r: Context)
    requires Valid(c)
    ensures Valid(r)
  {
    if nrpn14 then NrpnCc14(c, base, cc, val) else NrpnCc7(c, base, cc, val)
  }

  /** In both NRPN modes CC 98 replaces bits 0-6 and CC 99 bits 7-13 of the parameter; the new
      parameter selects buffer `p / 512` (below 32), slot `p % 512` and universe
      `p / 512 + base`; no level is written and nothing is sent. */
  lemma NrpnSelect(nrpn14: bool, c: Context, base: Byte, cc: Data7, val: Data7)
    requires Valid(c) && (cc == NRPN_LSB || cc == NRPN_MSB)
    ensures var r := NrpnHandler(nrpn14, c, base, cc, val);
      && r.nrpnParam == (if cc == NRPN_LSB then WithParamLsb(c.nrpnParam, val)
                         else WithParamMsb(c.nrpnParam, val))
      && r.bufferIndex == r.nrpnParam / 512 < MAX_MIDI_UNIVERSE
      && r.slot == r.nrpnParam % 512
      && r.universe == (r.bufferIndex + base) % 256
      && r.nrpnVal == c.nrpnVal && r.dmx == c.dmx && r.sent == c.sent
  {
  }

  /** Parameter MSB m and LSB l, in either order, leave the same context: parameter
      `m * 128 + l` and the address derived from it. */
  lemma NrpnFragmentsCommute(nrpn14: bool, c: Context, base: Byte, m: Data7, l: Data7)
    requires Valid(c)
    ensures var r := NrpnHandler(nrpn14, NrpnHandler(nrpn14, c, base, NRPN_MSB, m), base, NRPN_LSB, l);
      && r == NrpnHandler(nrpn14, NrpnHandler(nrpn14, c, base, NRPN_LSB, l), base, NRPN_MSB, m)
      && r.nrpnParam == m * 128 + l
      && r.bufferIndex == (m * 128 + l) / 512 && r.slot == (m * 128 + l) % 512
  {
    ParamFromFragments(c.nrpnParam, m, l);
    var p := m * 128 + l;
    var a := NrpnHandler(nrpn14, c, base, NRPN_MSB, m);
    assert a == Select(c, base, WithParamMsb(c.nrpnParam, m));
    assert NrpnHandler(nrpn14, a, base, NRPN_LSB, l) == Select(c, base, p);
    var b := NrpnHandler(nrpn14, c, base, NRPN_LSB, l);
    assert b == Select(c, base, WithParamLsb(c.nrpnParam, l));
    assert NrpnHandler(nrpn14, b, base, NRPN_MSB, m) == Select(c, base, p);
  }

  /** nrpn7: data entry d after parameter MSB m and LSB l stores `2d` at buffer
      `(m * 128 + l) / 512`, slot `(m * 128 + l) % 512`, and sends that buffer once. */
  lemma Nrpn7Addressed(c: Context, base: Byte, m: Data7, l: Data7, d: Data7)
    requires Valid(c)
    ensures var p := m * 128 + l;
      var r := NrpnCc7(NrpnCc7(NrpnCc7(c, base, NRPN_MSB, m), base, NRPN_LSB, l), base, DATA_MSB, d);
      && r.dmx[p / 512][p % 512] == 2 * d
      && r.sent == c.sent + [Frame((p / 512 + base) % 256, r.dmx[p / 512])]
  {
    var a1 := NrpnCc7(c, base, NRPN_MSB, m);
    NrpnSelect(false, c, base, NRPN_MSB, m);
    var a := NrpnCc7(a1, base, NRPN_LSB, l);
    NrpnSelect(false, a1, base, NRPN_LSB, l);
    ParamFromFragments(c.nrpnParam, m, l);
    Nrpn7DataEntry(a, base, d);
  }

  /** nrpn7: data entry (CC 6) sets the accumulator to the doubled value, stores it at the
      current address, changes no other slot, and sends the buffer once; parameter, buffer,
      slot and universe are kept. */
  lemma Nrpn7DataEntry(c: Context, base: Byte, val: Data7)
    requires Valid(c)
    ensures var r := NrpnCc7(c, base, DATA_MSB, val);
      && r.nrpnVal == 2 * val
      && r.dmx[c.bufferIndex][c.slot] == 2 * val
      && OnlyChanged(c.dmx, r.dmx, c.bufferIndex, c.slot)
      && r.sent == c.sent + [Frame(c.universe, r.dmx[c.bufferIndex])]
      && r == c.(nrpnVal := r.nrpnVal, dmx := r.dmx, sent := r.sent)
  {
  }

  /** nrpn7 ignores CC 38 and every controller it does not list. */
  lemma Nrpn7Ignored(c: Context, base: Byte, cc: Data7, val: Data7)
    requires Valid(c) && cc !in {DATA_MSB, INC, DEC, NRPN_LSB, NRPN_MSB}
    ensures NrpnCc7(c, base, cc, val) == c
  {
  }

  /** nrpn14: CC 6 sets bits 1-7 of the accumulator and keeps bit 0; nothing is written or
      sent. */
  lemma Nrpn14Coarse(c: Context, base: Byte, val: Data7)
    requires Valid(c)
    ensures var r := NrpnCc14(c, base, DATA_MSB, val);
      && r.nrpnVal / 2 == val && r.nrpnVal % 2 == c.nrpnVal % 2
      && r == c.(nrpnVal := r.nrpnVal)
  {
  }

  /** nrpn14: CC 38 sets bit 0 of the accumulator exactly when the data is above 63, keeps
      bits 1-7, stores the accumulator at the current address and sends the buffer once; the
      address (parameter, buffer, slot, universe) is kept. */
  lemma Nrpn14Fine(c: Context, base: Byte, val: Data7)
    requires Valid(c)
    ensures var r := NrpnCc14(c, base, DATA_LSB, val);
      && r.nrpnVal / 2 == c.nrpnVal / 2 && (r.nrpnVal % 2 == 1 <==> val > 63)
      && r.dmx[c.bufferIndex][c.slot] == r.nrpnVal
      && OnlyChanged(c.dmx, r.dmx, c.bufferIndex, c.slot)
      && r.sent == c.sent + [Frame(c.universe, r.dmx[c.bufferIndex])]
      && r == c.(nrpnVal := r.nrpnVal, dmx := r.dmx, sent := r.sent)
  {
  }

  /** nrpn14: data entry MSB m then LSB l stores `2m | (l > 63)` at the current address and
      sends exactly one frame. */
  lemma Nrpn14Value(c: Context, base: Byte, m: Data7, l: Data7)
    requires Valid(c)
    ensures var r := NrpnCc14(NrpnCc14(c, base, DATA_MSB, m), base, DATA_LSB, l);
      && r.dmx[c.bufferIndex][c.slot] == 2 * m + FineBit(l)
      && r.sent == c.sent + [Frame(c.universe, r.dmx[c.bufferIndex])]
  {
    CoarseFineCompose(c.nrpnVal, m, l);
  }

  /** nrpn14 ignores every controller it does not list. */
  lemma Nrpn14Ignored(c: Context, base: Byte, cc: Data7, val: Data7)
    requires Valid(c) && cc !in {DATA_MSB, DATA_LSB, INC, DEC, NRPN_LSB, NRPN_MSB}
    ensures NrpnCc14(c, base, cc, val) == c
  {
  }

  /** Increment (CC 96) in both NRPN modes: below 255 the accumulator (not the stored level)
      goes up by exactly one, is stored at the current address and the buffer is sent; at
      255 nothing changes and nothing is sent. The address is kept either way. */
  lemma NrpnIncrement(nrpn14: bool, c: Context, base: Byte, val: Data7)
    requires Valid(c)
    ensures var r := NrpnHandler(nrpn14, c, base, INC, val);
      if c.nrpnVal < 255 then
        && r.nrpnVal == c.nrpnVal + 1
        && r.dmx[c.bufferIndex][c.slot] == r.nrpnVal
        && OnlyChanged(c.dmx, r.dmx, c.bufferIndex, c.slot)
        && r.sent == c.sent + [Frame(c.universe, r.dmx[c.bufferIndex])]
        && r == c.(nrpnVal := r.nrpnVal, dmx := r.dmx, sent := r.sent)
      else r == c
  {
  }

  /** Decrement (CC 97) in both NRPN modes: above 0 the accumulator goes down by exactly one,
      is stored and the buffer is sent; at 0 no level changes and nothing is sent. nrpn7
      first re-derives the slot from the parameter, nrpn14 keeps the current slot; parameter,
      buffer and universe are kept. */
  lemma NrpnDecrement(nrpn14: bool, c: Context, base: Byte, val: Data7)
    requires Valid(c)
    ensures var at := if nrpn14 then c.slot else SlotOf(c.nrpnParam);
      var r := NrpnHandler(nrpn14, c, base, DEC, val);
      if c.nrpnVal > 0 then
        && r.nrpnVal == c.nrpnVal - 1
        && r.dmx[c.bufferIndex][at] == r.nrpnVal
        && OnlyChanged(c.dmx, r.dmx, c.bufferIndex, at)
        && r.sent == c.sent + [Frame(c.universe, r.dmx[c.bufferIndex])]
        && r == c.(slot := at, nrpnVal := r.nrpnVal, dmx := r.dmx, sent := r.sent)
      else r == c.(slot := at)
  {
  }
}
