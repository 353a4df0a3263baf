/** MIDI 1.0 input as the translator reads it: the three bytes of a channel message, the
    status-byte split into kind and channel, the Control Change numbers it listens to, and the
    bitwise set of enabled channels. */
module Midi {

  /** An unsigned 8-bit value (`uint8_t`). */
  type Byte = x: int | 0 <= x < 256

  /** A MIDI data byte: bit 7 is clear, so it carries 7 bits. */
  type Data7 = x: int | 0 <= x < 128

  /** A MIDI channel as carried in the low nibble of a status byte (0-based). */
  type Channel = x: int | 0 <= x < 16

  // Message kinds: the high nibble of the status byte.
  const NOTE_ON: Byte := 0x90
  const CONTROL_CHANGE: Byte := 0xB0

  // Control Change numbers of the MIDI 1.0 Detailed Specification that the NRPN modes use.
  const DATA_MSB: Data7 := 6    // Data Entry MSB
  const DATA_LSB: Data7 := 38   // Data Entry LSB
  const INC: Data7 := 96        // Data Increment
  const DEC: Data7 := 97        // Data Decrement
  const NRPN_LSB: Data7 := 98   // Non-Registered Parameter Number LSB
  const NRPN_MSB: Data7 := 99   // Non-Registered Parameter Number MSB

  /** The message kind, `status & 0xf0`: the multiple of 16 just below the status byte. */
  function Kind(status: Byte): (k: Byte)
    ensures k % 16 == 0 && k <= status < k + 16
  {
    status / 16 * 16
  }

  /** The source channel, `status & 0x0f`: what the kind leaves over. */
  function ChannelOf(status: Byte): (c: Channel)
    ensures Kind(status) + c == status
  {
    status % 16
  }

  /** A status byte is exactly a kind plus a channel, and splitting it gives both back. */
  lemma {:induction false} StatusRoundTrip(kind: Byte, channel: Channel)
    requires kind % 16 == 0
    ensures kind + channel < 256
    ensures Kind(kind + channel) == kind && ChannelOf(kind + channel) == channel
  {
    assert kind <= 240;
  }

  /** Bitwise set of enabled channels (`uint16_t g_midiChannels`): bit c stands for channel c. */
  type ChannelMask = bv16

  /** Start-up default: every channel enabled. */
  const ALL_CHANNELS: ChannelMask := 0xffff

  /** The mask bit of a channel, `1 << chan`. */
  function ChannelBit(channel: Channel): (b: ChannelMask)
    ensures b != 0 && b & (b - 1) == 0
  {
    (1 as bv16) << channel
  }

  /** The channel gate: `((1 << chan) & g_midiChannels) != 0`. */
  predicate Enabled(mask: ChannelMask, channel: Channel): (on: bool)
    ensures on ==> mask != 0
    ensures on <==> (mask >> channel) & 1 == 1
  {
    ChannelBit(channel) & mask != 0
  }

  /** Distinct channels own distinct bits. */
  lemma ChannelBitsDisjoint(a: Channel, b: Channel)
    requires a != b
    ensures ChannelBit(a) & ChannelBit(b) == 0
  {
  }

  /** Clearing the bit of one channel disables that channel and no other. */
  lemma ClearChannelBit(mask: ChannelMask, gone: Channel, channel: Channel)
    ensures Enabled(mask & !ChannelBit(gone), channel) <==> Enabled(mask, channel) && channel != gone
  {
    if channel != gone {
      ChannelBitsDisjoint(channel, gone);
    }
  }

  /** The default mask lets every channel through. */
  lemma AllChannelsEnabled(channel: Channel)
    ensures Enabled(ALL_CHANNELS, channel)
  {
  }
}
