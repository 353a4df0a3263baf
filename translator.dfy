/** The translator as the program runs it: the globals as the fields of one object, the 32
    DMX buffers as a 32 x 512 array written in place, one method per handler, and the event
    loop of the JACK process callback. Every method is proved to move the object's abstract
    state exactly as the matching function of module Engine does. */
module Midiola {
  import opened Midi
  import opened Dmx
  import opened Nrpn
  import opened Engine
  import opened CommandLine

  class Translator {
    // Start-up configuration: g_mode, g_enableCC, g_enableNote, g_midiChannels, g_universeBase.
    var mode: Mode
    var enableCC: bool
    var enableNote: bool
    var midiChannels: ChannelMask
    var universeBase: Byte

    // Translation state: g_nrpnParam, g_nrpnVal, g_slot, g_bufferIndex, g_universe.
    var nrpnParam: Param
    var nrpnVal: Byte
    var slot: SlotIndex
    var bufferIndex: BufferIndex
    var universe: Byte

    /** g_dmxBuffer: one row of 512 slots per universe buffer. */
    const dmx: array2<Byte>

    /** The abstract value of `dmx`. */
    ghost var buffers: seq<seq<Byte>>

    /** Every `SendDmx` call so far, in order. */
    ghost var sent: seq<Frame>

    ghost predicate Valid()
      reads this, dmx
    {
      dmx.Length0 == MAX_MIDI_UNIVERSE && dmx.Length1 == UNIVERSE_SIZE && IsStore(buffers) &&
      forall b, s :: 0 <= b < dmx.Length0 && 0 <= s < dmx.Length1 ==> dmx[b, s] == buffers[b][s]
    }

    function Configuration(): Config
      reads this
    {
      Config(mode, enableCC, enableNote, midiChannels, universeBase)
    }

    ghost function State(): Context
      reads this
    {
      Context(nrpnParam, nrpnVal, slot, bufferIndex, universe, buffers, sent)
    }

    /** The globals' initial values: mode cc7, neither message kind enabled yet, every
        channel enabled, first universe 1; every buffer blacked out. */
    constructor ()
      ensures Valid() && fresh(dmx)
      ensures Configuration() == Config(ModeCc7, false, false, ALL_CHANNELS, 1)
      ensures State() == Initial(Configuration())
    {
      mode, enableCC, enableNote, midiChannels, universeBase := ModeCc7, false, false, ALL_CHANNELS, 1;
      nrpnParam, nrpnVal, slot, bufferIndex, universe := 0, 0, 0, 0, 1;
      dmx := new Byte[MAX_MIDI_UNIVERSE, UNIVERSE_SIZE]((b, s) => 0);
      buffers := Blackout();
      sent := [];
    }

    // ------------------------------------------------------------ start-up options

    /** `-m name`: the mode is set when the name is one of the four, and left alone (the
        program exits) otherwise. */
    method SelectMode(name: string) returns (ok: bool)
      modifies this`mode
      ensures ok <==> name in ModeNames
      ensures if ok then ModeName(mode) == name else mode == old(mode)
    {
      var m := LookupMode(name);
      if m.Some? {
        mode := m.value;
      }
      ok := m.Some?;
    }

    /** `-u n`: first and current universe, truncated to 8 bits as `atoi` into a `uint8_t`. */
    method SetUniverse(n: int)
      modifies this`universe, this`universeBase
      ensures universe == universeBase == n % 256
    {
      universe := n % 256;
      universeBase := universe;
    }

    /** `-c`: listen for Control Change. */
    method ListenControlChange()
      modifies this`enableCC
      ensures enableCC
    {
      enableCC := true;
    }

    /** `-n`: listen for Note-On. */
    method ListenNoteOn()
      modifies this`enableNote
      ensures enableNote
    {
      enableNote := true;
    }

    /** `-x k`: channel k (1-based) is removed from the mask in place; any k outside 1..16 is
        rejected and the mask is left alone (the program exits). */
    method ExcludeChannel(k: int) returns (ok: bool)
      modifies this`midiChannels
      ensures ok <==> 1 <= k <= 16
      ensures if ok then Exclude(old(midiChannels), k) == Some(midiChannels)
              else midiChannels == old(midiChannels)
    {
      if k < 1 || k > 16 {
        return false;
      }
      var mask: ChannelMask := (1 as bv16) << (k - 1);
      mask := !mask;
      midiChannels := midiChannels & mask;
      return true;
    }

    /** `main`: with neither kind asked for, Control Change handling is switched on. */
    method ApplyEnableDefault()
      modifies this`enableCC
      ensures enableCC == EnableDefault(old(enableCC), enableNote)
    {
      if !enableNote && !enableCC {
        enableCC := true;
      }
    }

    // ------------------------------------------------------------ buffer store and sink

    /** `g_dmxBuffer[b].SetChannel(s, v)`. */
    method SetChannel(b: BufferIndex, s: SlotIndex, v: Byte)
      requires Valid()
      modifies this`buffers, dmx
      ensures Valid()
      ensures buffers == Write(old(buffers), b, s, v)
    {
      dmx[b, s] := v;
      buffers := Write(buffers, b, s, v);
    }

    /** `g_olaClient->SendDmx(g_universe, g_dmxBuffer[g_bufferIndex])`: the lighting sink
        receives the current universe number and a snapshot of the current buffer. */
    method SendDmx()
      requires Valid()
      modifies this`sent
      ensures sent == old(sent) + [Frame(universe, buffers[bufferIndex])]
    {
      sent := sent + [Frame(universe, buffers[bufferIndex])];
    }

    // ------------------------------------------------------------ handlers

    /** `cc7`: 7-bit Control Change (and every Note-On). */
    method Cc7(channel: Channel, cc: Data7, val: Data7)
      requires Valid()
      modifies this`universe, this`bufferIndex, this`buffers, this`sent, dmx
      ensures Valid()
      ensures State() == Engine.Cc7(old(State()), universeBase, channel, cc, val)
    {
      universe := (channel + universeBase) % 256;
      bufferIndex := channel;
      var v: Byte := (val * 2) % 256;
      SetChannel(bufferIndex, cc, v);
      SendDmx();
    }

    /** `cc14`: coarse and fine fragments of a level on controllers 0-31 and 32-65. */
    method Cc14(channel: Channel, cc: Data7, val: Data7)
      requires Valid()
      modifies this`slot, this`buffers, this`sent, dmx
      ensures Valid()
      ensures State() == Engine.Cc14(old(State()), channel, cc, val)
    {
      if cc > 65 {
        return;
      }
      var offset := cc % 32;
      var base: Byte := (channel * 32) % 256;
      slot := offset + base;
      var curVal := dmx[bufferIndex, slot];
      if cc > 31 {
        if val > 63 {
          curVal := curVal - curVal % 2 + 1;
        } else {
          curVal := curVal - curVal % 2;
        }
        SetChannel(bufferIndex, slot, curVal);
        SendDmx();
      } else {
        curVal := curVal % 2;
        curVal := (curVal + val * 2) % 256;
        SetChannel(bufferIndex, slot, curVal);
      }
    }

    /** `nrpnCC7`: NRPN addressing with 7-bit data entry and increment/decrement. The MIDI
        channel is not used. */
    method NrpnCc7(channel: Channel, cc: Data7, val: Data7)
      requires Valid()
      modifies this`nrpnParam, this`nrpnVal, this`slot, this`bufferIndex, this`universe
      modifies this`buffers, this`sent, dmx
      ensures Valid()
      ensures State() == Engine.NrpnCc7(old(State()), universeBase, cc, val)
    {
      if cc == NRPN_LSB {
        nrpnParam := (nrpnParam / 128 % 128) * 128 + val;
        slot := nrpnParam % 512;
        bufferIndex := nrpnParam / 512;
        universe := (bufferIndex + universeBase) % 256;
      } else if cc == NRPN_MSB {
        nrpnParam := nrpnParam % 128 + val * 128;
        slot := nrpnParam % 512;
        bufferIndex := nrpnParam / 512;
        universe := (bufferIndex + universeBase) % 256;
      } else if cc == DATA_MSB {
        nrpnVal := (val * 2) % 256;
        SetChannel(bufferIndex, slot, nrpnVal);
        SendDmx();
      } else if cc == INC {
        if nrpnVal < 255 {
          nrpnVal := nrpnVal + 1;
          SetChannel(bufferIndex, slot, nrpnVal);
          SendDmx();
        }
      } else if cc == DEC {
        slot := nrpnParam % 512;
        if nrpnVal > 0 {
          nrpnVal := nrpnVal - 1;
          SetChannel(bufferIndex, slot, nrpnVal);
          SendDmx();
        }
      }
    }

    /** `nrpnCC14`: NRPN addressing with 8-bit data entry from CC 6 and CC 38, and
        increment/decrement. The MIDI channel is not used. */
    method NrpnCc14(channel: Channel, cc: Data7, val: Data7)
      requires Valid()
      modifies this`nrpnParam, this`nrpnVal, this`slot, this`bufferIndex, this`universe
      modifies this`buffers, this`sent, dmx
      ensures Valid()
      ensures State() == Engine.NrpnCc14(old(State()), universeBase, cc, val)
    {
      if cc == NRPN_LSB {
        nrpnParam := (nrpnParam / 128 % 128) * 128 + val;
        slot := nrpnParam % 512;
        bufferIndex := nrpnParam / 512;
        universe := (bufferIndex + universeBase) % 256;
      } else if cc == NRPN_MSB {
        nrpnParam := nrpnParam % 128 + val * 128;
        slot := nrpnParam % 512;
        bufferIndex := nrpnParam / 512;
        universe := (bufferIndex + universeBase) % 256;
      } else if cc == DATA_MSB {
        nrpnVal := (nrpnVal % 2 + val * 2) % 256;
      } else if cc == DATA_LSB {
        if val > 63 {
          nrpnVal := nrpnVal - nrpnVal % 2 + 1;
        } else {
          nrpnVal := nrpnVal - nrpnVal % 2;
        }
        SetChannel(bufferIndex, slot, nrpnVal);
        SendDmx();
      } else if cc == INC {
        if nrpnVal < 255 {
          nrpnVal := nrpnVal + 1;
          SetChannel(bufferIndex, slot, nrpnVal);
          SendDmx();
        }
      } else if cc == DEC {
        if nrpnVal > 0 {
          nrpnVal := nrpnVal - 1;
          SetChannel(bufferIndex, slot, nrpnVal);
          SendDmx();
        }
      }
    }

    // ------------------------------------------------------------ event loop

    /** `onJackProcess`: each event of the batch in arrival order, split into kind and
        channel, gated on the channel mask and routed to one handler. */
    method OnJackProcess(events: seq<Event>)
      requires Valid()
      modifies this`nrpnParam, this`nrpnVal, this`slot, this`bufferIndex, this`universe
      modifies this`buffers, this`sent, dmx
      ensures Valid()
      ensures State() == Run(old(State()), Configuration(), events)
    {
      for i := 0 to |events|
        invariant Valid()
        invariant State() == Run(old(State()), Configuration(), events[..i])
      {
        assert events[..i + 1][..i] == events[..i];
        var e := events[i];
        var cmd := e.status / 16 * 16;
        if enableCC && cmd == CONTROL_CHANGE {
          var chan := e.status % 16;
          if !Enabled(midiChannels, chan) {
            continue;
          }
          match mode {
            case ModeCc7 => Cc7(chan, e.data1, e.data2);
            case ModeCc14 => Cc14(chan, e.data1, e.data2);
            case ModeNrpn7 => NrpnCc7(chan, e.data1, e.data2);
            case ModeNrpn14 => NrpnCc14(chan, e.data1, e.data2);
          }
        } else if enableNote && cmd == NOTE_ON {
          var chan := e.status % 16;
          if !Enabled(midiChannels, chan) {
            continue;
          }
          Cc7(chan, e.data1, e.data2);
        }
      }
      assert events[..|events|] == events;
    }
  }
}
