/** The translation engine as a pure state machine: the shared context every handler
    updates, the four mode handlers (cc7, cc14, nrpn7, nrpn14), the dispatcher that gates and
    routes one MIDI event, and the processing of a batch of events in arrival order. The class
    in module Midiola updates the same state in place and is proved equal to these functions. */
module Engine {
  import opened Midi
  import opened Levels
  import opened Dmx
  import opened Nrpn

  /** `MIDI_MODE`: the translation mode selected at start-up. */
  datatype Mode = ModeCc7 | ModeCc14 | ModeNrpn7 | ModeNrpn14

  /** Start-up configuration, read-only once events are processed. */
  datatype Config = Config(
    mode: Mode,
    enableCC: bool,
    enableNote: bool,
    midiChannels: ChannelMask,
    universeBase: Byte)

  /** One MIDI event as received: status byte and the two data bytes that follow it. */
  datatype Event = Event(status: Byte, data1: Data7, data2: Data7)

  /** The state all handlers share: NRPN accumulator, current address and universe, the
      universe buffers, and the log of frames sent to the lighting sink. */
  datatype Context = Context(
    nrpnParam: Param,
    nrpnVal: Byte,
    slot: SlotIndex,
    bufferIndex: BufferIndex,
    universe: Byte,
    dmx: seq<seq<Byte>>,
    sent: seq<Frame>)

  ghost predicate Valid(c: Context)
  {
    IsStore(c.dmx)
  }

  /** The context at start-up: accumulator and address zero, the current universe equal to
      the first universe, every buffer blacked out, nothing sent. */
  function Initial(cfg: Config): (c: Context)
    ensures Valid(c) && c.sent == []
    ensures forall b, s :: 0 <= b < |c.dmx| && 0 <= s < |c.dmx[b]| ==> c.dmx[b][s] == 0
  {
    Context(0, 0, 0, 0, cfg.universeBase, Blackout(), [])
  }

  /** `SendDmx(g_universe, g_dmxBuffer[g_bufferIndex])`. */
  function Send(c: Context): (r: Context)
    requires Valid(c)
    ensures Valid(r)
  {
    c.(sent := c.sent + [Frame(c.universe, c.dmx[c.bufferIndex])])
  }

  /** Write a level at the current (buffer, slot) and send the current buffer. */
  function Store(c: Context, v: Byte): (r: Context)
    requires Valid(c)
    ensures Valid(r)
  {
    Send(c.(dmx := Write(c.dmx, c.bufferIndex, c.slot, v)))
  }

  /** cc7: the channel selects the buffer and the universe, the controller number is the
      slot, the doubled value is written and the buffer is sent. */
  function Cc7(c: Context, base: Byte, channel: Channel, cc: Data7, val: Data7): (r: Context)
    requires Valid(c)
    ensures Valid(r)
  {
    var universe: Byte := (channel + base) % 256;
    var dmx := Write(c.dmx, channel, cc, Scale(val));
    c.(universe := universe, bufferIndex := channel, dmx := dmx,
       sent := c.sent + [Frame(universe, dmx[channel])])
  }

  /** cc14 addressing, `cc % 32 + (uint8_t)(channel * 32)`. */
  function Cc14Slot(channel: Channel, cc: Data7): (s: SlotIndex)
    ensures s < 256
    ensures s % 32 == cc % 32 && s / 32 == channel % 8
  {
    cc % 32 + (channel * 32) % 256
  }

  /** cc14: controllers 0-31 set the coarse bits of a slot without sending, controllers
      32-65 set its fine bit and send; above 65 the message is dropped. The buffer and the
      universe are the ones earlier messages selected. */
  function Cc14(c: Context, channel: Channel, cc: Data7, val: Data7): (r: Context)
    requires Valid(c)
    ensures Valid(r)
  {
    if cc > 65 then c
    else
      var slot := Cc14Slot(channel, cc);
      var cur := c.dmx[c.bufferIndex][slot];
      if cc > 31 then Store(c.(slot := slot), WithFine(cur, val))
      else c.(slot := slot, dmx := Write(c.dmx, c.bufferIndex, slot, WithCoarse(cur, val)))
  }

  /** CC 98 or CC 99 in either NRPN mode: the new parameter selects buffer, slot and
      universe; nothing is written or sent. */
  function Select(c: Context, base: Byte, p: Param): (r: Context)
    ensures r.nrpnParam == p && r.bufferIndex * 512 + r.slot == p
    ensures r.universe == (r.bufferIndex + base) % 256
    ensures r.nrpnVal == c.nrpnVal && r.dmx == c.dmx && r.sent == c.sent
  {
    c.(nrpnParam := p, slot := SlotOf(p), bufferIndex := BufferOf(p),
       universe := (BufferOf(p) + base) % 256)
  }

  /** nrpn7: parameter selection, data entry (CC 6) with the doubled value, and
      saturating increment and decrement of the accumulator; other controllers are ignored. */
  function NrpnCc7(c: Context, base: Byte, cc: Data7, val: Data7): (r: Context)
    requires Valid(c)
    ensures Valid(r)
  {
    if cc == NRPN_LSB then Select(c, base, WithParamLsb(c.nrpnParam, val))
    else if cc == NRPN_MSB then Select(c, base, WithParamMsb(c.nrpnParam, val))
    else if cc == DATA_MSB then Store(c.(nrpnVal := Scale(val)), Scale(val))
    else if cc == INC then
      if c.nrpnVal < 255 then Store(c.(nrpnVal := c.nrpnVal + 1), c.nrpnVal + 1) else c
    else if cc == DEC then
      var c' := c.(slot := SlotOf(c.nrpnParam));
      if c.nrpnVal > 0 then Store(c'.(nrpnVal := c.nrpnVal - 1), c.nrpnVal - 1) else c'
    else c
  }

  /** nrpn14: as nrpn7, but data entry takes two fragments: CC 6 sets the coarse bits of the
      accumulator without writing, CC 38 sets its fine bit, writes and sends. */
  function NrpnCc14(c: Context, base: Byte, cc: Data7, val: Data7): (r: Context)
    requires Valid(c)
    ensures Valid(r)
  {
    if cc == NRPN_LSB then Select(c, base, WithParamLsb(c.nrpnParam, val))
    else if cc == NRPN_MSB then Select(c, base, WithParamMsb(c.nrpnParam, val))
    else if cc == DATA_MSB then c.(nrpnVal := WithCoarse(c.nrpnVal, val))
    else if cc == DATA_LSB then
      var v := WithFine(c.nrpnVal, val);
      Store(c.(nrpnVal := v), v)
    else if cc == INC then
      if c.nrpnVal < 255 then Store(c.(nrpnVal := c.nrpnVal + 1), c.nrpnVal + 1) else c
    else if cc == DEC then
      if c.nrpnVal > 0 then Store(c.(nrpnVal := c.nrpnVal - 1), c.nrpnVal - 1) else c
    else c
  }

  /** Whether the dispatcher hands an event to a handler at all: a Control Change with CC
      handling enabled or a Note-On with note handling enabled, on an enabled channel. */
  predicate Accepted(cfg: Config, e: Event): (ok: bool)
    ensures ok ==> Enabled(cfg.midiChannels, ChannelOf(e.status))
    ensures ok ==> e.status >= NOTE_ON && (cfg.enableCC || cfg.enableNote)
  {
    var kind := Kind(e.status);
    ((cfg.enableCC && kind == CONTROL_CHANGE) || (cfg.enableNote && kind == NOTE_ON))
    && Enabled(cfg.midiChannels, ChannelOf(e.status))
  }

  /** One pass of the event loop: an event that is not `Accepted` is skipped; otherwise a
      Control Change goes to the handler of the mode and a Note-On to cc7. */
  function Dispatch(c: Context, cfg: Config, e: Event): (r: Context)
    requires Valid(c)
    ensures Valid(r)
  {
    var channel := ChannelOf(e.status);
    if !Accepted(cfg, e) then c
    else if cfg.enableCC && Kind(e.status) == CONTROL_CHANGE then
      match cfg.mode
      case ModeCc7 => Cc7(c, cfg.universeBase, channel, e.data1, e.data2)
      case ModeCc14 => Cc14(c, channel, e.data1, e.data2)
      case ModeNrpn7 => NrpnCc7(c, cfg.universeBase, e.data1, e.data2)
      case ModeNrpn14 => NrpnCc14(c, cfg.universeBase, e.data1, e.data2)
    else Cc7(c, cfg.universeBase, channel, e.data1, e.data2)
  }

  /** A batch of events processed in arrival order. */
  function Run(c: Context, cfg: Config, events: seq<Event>): (r: Context)
    requires Valid(c)
    ensures Valid(r)
    decreases |events|
  {
    if events == [] then c
    else Dispatch(Run(c, cfg, events[..|events| - 1]), cfg, events[|events| - 1])
  }
}
