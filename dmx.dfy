/** The DMX512-A side: 32 buffers of 512 slots each (one per universe the translator can
    address), a write of one slot, and the frame handed to the lighting sink. */
module Dmx {
  import opened Midi

  /** Slots in one DMX512 universe (ANSI E1.11, DMX512-A). */
  const UNIVERSE_SIZE: nat := 512

  /** Number of universe buffers (`MAX_MIDI_UNIVERSE`). */
  const MAX_MIDI_UNIVERSE: nat := 32

  /** A 0-based slot within a universe buffer. */
  type SlotIndex = x: int | 0 <= x < 512

  /** An index into the array of universe buffers. */
  type BufferIndex = x: int | 0 <= x < 32

  /** The abstract value of the buffer array: 32 rows of 512 levels. */
  ghost predicate IsStore(d: seq<seq<Byte>>)
  {
    |d| == MAX_MIDI_UNIVERSE && forall b :: 0 <= b < |d| ==> |d[b]| == UNIVERSE_SIZE
  }

  /** Every buffer at level 0, as after `Blackout()`. */
  function Blackout(): (d: seq<seq<Byte>>)
    ensures IsStore(d)
    ensures forall b, s :: 0 <= b < |d| && 0 <= s < |d[b]| ==> d[b][s] == 0
  {
    seq(MAX_MIDI_UNIVERSE, _ => seq(UNIVERSE_SIZE, _ => 0))
  }

  /** `SetChannel(s, v)` on buffer b: slot s of buffer b becomes v and nothing else changes. */
  function Write(d: seq<seq<Byte>>, b: BufferIndex, s: SlotIndex, v: Byte): (e: seq<seq<Byte>>)
    requires IsStore(d)
    ensures IsStore(e)
    ensures e[b][s] == v
    ensures forall b', s' :: 0 <= b' < |e| && 0 <= s' < |e[b']| && (b' != b || s' != s) ==>
      e[b'][s'] == d[b'][s']
  {
    var row: seq<Byte> := d[b][s := v];
    d[b := row]
  }

  /** One `SendDmx(universe, buffer)` call: the universe number and a snapshot of the buffer. */
  datatype Frame = Frame(universe: Byte, slots: seq<Byte>)
}
