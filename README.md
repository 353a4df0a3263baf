# jackmidiola translation core in Dafny

jackmidiola is a JACK client that listens on one MIDI input port and drives DMX512 lighting
through OLA. This project models its translation core from `midiola.cpp`:

- the start-up options that shape translation: the mode, the first universe, the message
  kinds listened to, and the channel-exclusion mask;
- the four mode handlers `cc7`, `cc14`, `nrpnCC7` and `nrpnCC14`;
- the event loop of the JACK process callback, which splits each status byte into kind and
  channel, drops events on excluded channels, and routes the rest to one handler.

The model has three layers.

- **Pure pieces.**
  - Module `Midi` holds status-byte splitting and the 16-bit channel mask (a `bv16`).
  - Module `Levels` turns 7-bit MIDI data into 8-bit DMX levels, including coarse/fine
    composition.
  - Module `Nrpn` assembles the 14-bit NRPN parameter and maps it to a (buffer, slot) address.
  - Module `Dmx` holds the 32 buffers of 512 slots and the frames sent to OLA.
- **Module `Engine`.** A specification of the shared state as a value, `Context`, with one
  function per handler, the dispatcher `Dispatch`, and `Run` over a batch of events. Every
  `SendDmx` call appends a `Frame(universe, snapshot of buffer)` to a log. This makes "sends
  exactly one frame" and "sends nothing" statable.
- **Module `Midiola`.** The program as it runs:
  - class `Translator` holds the globals as fields and the buffers as a 32 x 512 `array2`
    written in place;
  - it has one method per handler and per option branch, plus `OnJackProcess`, the event
    loop;
  - each handler method is proved to move the object's state exactly as the matching
    `Engine` function does;
  - the event loop is proved to equal `Engine.Run` over the batch.

The lemmas sit in `HandlerProperties`, `DispatchProperties` and `CommandLine`. They state what
the handlers, the dispatcher and the options do. The model follows the code as written:

- **NRPN ignores the MIDI channel.** The handlers never apply the channel offset that the help
  text mentions.
- **`cc14` keeps the buffer and universe.** It writes into the buffer and universe that the
  last Note-On routed to `cc7` selected. Before any such Note-On, that is buffer 0 and the first
  universe from start-up.
- **Its channel offset wraps.** The offset is computed in a `uint8_t`, so channels c and
  c + 8 address the same slots (`Cc14ChannelWrap`).
- **CC 64 and 65 are fine fragments.** Its guard is `cc > 65`, so these two act as fine
  fragments for the first two slots of the block (`Cc14HighFine`).
- **A `cc14` coarse fragment is written at once.** It is not held back until its fine
  fragment arrives. A fine fragment for another slot of the same buffer therefore sends the
  half-updated level (`Cc14CoarseSentEarly`).
- **Increment and decrement act on the accumulator.** They change the NRPN accumulator, not
  the level stored at the slot.

## Model

| member | source | states |
|---|---|---|
| `Midi.Kind` | midiola.cpp:397 | the kind is a multiple of 16 with kind <= status < kind + 16 |
| `Midi.ChannelOf` | midiola.cpp:401 | kind plus channel gives back the status byte |
| `Midi.StatusRoundTrip` | midiola.cpp:397-401 | any kind plus any channel is a status byte, and splitting it returns both |
| `Midi.ChannelBit` | midiola.cpp:402 | the mask bit `1 << chan` of a channel is a single set bit (non-zero, a power of two) |
| `Midi.Enabled` | midiola.cpp:402-403 | the channel gate `((1 << chan) & mask) != 0` holds exactly when bit `chan` of the mask is set, and never for an empty mask |
| `Midi.ChannelBitsDisjoint` | midiola.cpp:402 | the mask bits `1 << chan` of two distinct channels do not overlap |
| `Midi.ClearChannelBit` | midiola.cpp:194-196 | clearing one channel's bit disables that channel and leaves every other channel's gate as it was |
| `Midi.AllChannelsEnabled` | midiola.cpp:60 | the start-up mask 0xffff lets every channel through |
| `Levels.Scale` | midiola.cpp:228 | `val <<= 1` on a 7-bit value gives 2 * val, even and at most 254, so never 255 |
| `Levels.FineBit` | midiola.cpp:254-257 | the fine bit is 0 or 1, and it is 1 exactly when the value is above 63 |
| `Levels.WithCoarse` | midiola.cpp:262-263 | a coarse fragment replaces bits 1-7 with the data and keeps bit 0 |
| `Levels.WithFine` | midiola.cpp:254-257 | a fine fragment sets bit 0 exactly when the value is above 63 and keeps bits 1-7 |
| `Levels.CoarseFineCompose` | midiola.cpp:252-265 | coarse m and fine l in either order give 2m + (l > 63), whatever the previous level |
| `Levels.CoarseFineReachAll` | midiola.cpp:355-363 | every 8-bit level is reachable with one coarse and one fine fragment |
| `Dmx.Blackout` | midiola.cpp:68 | the store has 32 buffers of 512 slots, all at 0 |
| `Dmx.Write` | midiola.cpp:229 | `SetChannel` sets exactly the target slot of the target buffer and keeps the store's shape |
| `Nrpn.WithParamLsb` | midiola.cpp:284 | CC 98 replaces bits 0-6 of the parameter and keeps bits 7-13 |
| `Nrpn.WithParamMsb` | midiola.cpp:292 | CC 99 replaces bits 7-13 of the parameter and keeps bits 0-6 |
| `Nrpn.BufferOf` | midiola.cpp:286 | the buffer is below 32 = MAX_MIDI_UNIVERSE, and the parameter lies in its 512-slot block |
| `Nrpn.SlotOf` | midiola.cpp:285 | the slot is below 512, and buffer * 512 + slot is the parameter |
| `Nrpn.AddressRoundTrip` | midiola.cpp:285-286 | every (buffer, slot) has exactly one parameter number, and it maps back to that address |
| `Nrpn.ParamFromFragments` | midiola.cpp:283-298 | MSB m and LSB l in either order give parameter m * 128 + l |
| `Engine.Initial` | midiola.cpp:54-68 | at start-up every buffer is at 0 and nothing has been sent |
| `Engine.Send` | midiola.cpp:230 | sending keeps the 32 x 512 store well formed |
| `Engine.Store` | midiola.cpp:301-302 | a write followed by a send keeps the store well formed |
| `Engine.Select` | midiola.cpp:284-287 | CC 98/99 set the parameter to p, the buffer and slot so that buffer * 512 + slot = p, and the universe to buffer + base mod 256; the NRPN value, the buffers and the log are kept |
| `Engine.Accepted` | midiola.cpp:399-403 | an event the loop hands to a handler is on an enabled channel, has a status byte of at least 0x90, and at least one message kind is listened to |
| `Engine.Cc7` | midiola.cpp:216-232 | cc7 keeps the store well formed (its effect is stated by `Cc7Effect`) |
| `Engine.Cc14Slot` | midiola.cpp:248-250 | the cc14 slot is below 256, its low 5 bits are cc % 32 and its block is channel % 8 |
| `Engine.Cc14` | midiola.cpp:234-267 | every write cc14 makes is inside the store |
| `Engine.NrpnCc7` | midiola.cpp:269-324 | every write nrpn7 makes is inside the store |
| `Engine.NrpnCc14` | midiola.cpp:326-386 | every write nrpn14 makes is inside the store |
| `Engine.Dispatch` | midiola.cpp:397-428 | one event keeps the store well formed |
| `Engine.Run` | midiola.cpp:394-429 | a batch keeps the store well formed |
| `HandlerProperties.Cc7Effect` | midiola.cpp:226-230 | buffer = channel, universe = (channel + base) mod 256, slot cc holds 2 * val <= 254, no other slot changes, exactly one frame of that buffer is sent, and the accumulator and slot are kept |
| `HandlerProperties.Cc14Ignored` | midiola.cpp:245-246 | controllers above 65 change nothing and send nothing |
| `HandlerProperties.Cc14Address` | midiola.cpp:248-251 | the slot is cc % 32 + (channel * 32) mod 256 < 256; the buffer and universe are the ones left by earlier messages; no other slot changes |
| `HandlerProperties.Cc14Coarse` | midiola.cpp:260-265 | controllers 0-31 store (old bit 0) + 2 * val and send nothing |
| `HandlerProperties.Cc14Fine` | midiola.cpp:252-259 | controllers 32-65 set bit 0 iff val > 63, keep bits 1-7 and send the buffer once |
| `HandlerProperties.Cc14Pair` | midiola.cpp:245-265 | coarse m on controller s and then fine l on s + 32 store 2m + (l > 63) and send exactly one frame |
| `HandlerProperties.Cc14CoarseSentEarly` | midiola.cpp:252-265 | after a coarse m on one slot, a fine fragment for another slot of the block sends one frame in which the first slot already holds 2m + its old bit 0 |
| `HandlerProperties.Cc14ChannelWrap` | midiola.cpp:249 | channels c and c + 8 act identically because the offset wraps in a `uint8_t` |
| `HandlerProperties.Cc14HighFine` | midiola.cpp:245-252 | controllers 64 and 65 act exactly as controllers 32 and 33 |
| `HandlerProperties.NrpnSelect` | midiola.cpp:283-298 | in both NRPN modes CC 98/99 set the parameter bits; buffer = param / 512 < 32, slot = param % 512, universe = buffer + base mod 256; nothing is written or sent |
| `HandlerProperties.NrpnFragmentsCommute` | midiola.cpp:339-354 | parameter MSB m and LSB l in either order leave the same state, with parameter m * 128 + l |
| `HandlerProperties.Nrpn7Addressed` | midiola.cpp:283-305 | after MSB m and LSB l, CC 6 with d stores 2d at buffer p / 512, slot p % 512, and sends that buffer to universe p / 512 + base |
| `HandlerProperties.Nrpn7DataEntry` | midiola.cpp:299-305 | nrpn7 CC 6 sets the accumulator to 2 * val, stores it at the current address only, and sends once; parameter, buffer, slot and universe are kept |
| `HandlerProperties.Nrpn7Ignored` | midiola.cpp:282-323 | nrpn7 changes nothing for CC 38 and any other unlisted controller |
| `HandlerProperties.Nrpn14Coarse` | midiola.cpp:355-358 | nrpn14 CC 6 sets accumulator bits 1-7 from val, keeps bit 0, and writes and sends nothing |
| `HandlerProperties.Nrpn14Fine` | midiola.cpp:359-368 | nrpn14 CC 38 sets bit 0 iff val > 63, keeps bits 1-7, stores the accumulator at the current address only, and sends once; parameter, buffer, slot and universe are kept |
| `HandlerProperties.Nrpn14Value` | midiola.cpp:355-368 | nrpn14 CC 6 m then CC 38 l store 2m + (l > 63) and send exactly one frame |
| `HandlerProperties.Nrpn14Ignored` | midiola.cpp:338-385 | nrpn14 changes nothing for any unlisted controller |
| `HandlerProperties.NrpnIncrement` | midiola.cpp:306-313 | below 255 the accumulator rises by exactly 1, is stored at the current address only and sent, and the parameter, buffer, slot and universe are kept; at 255 nothing changes |
| `HandlerProperties.NrpnDecrement` | midiola.cpp:314-322 | above 0 the accumulator falls by exactly 1, is stored and sent; at 0 no level changes and nothing is sent; nrpn7 re-derives the slot from the parameter first, nrpn14 keeps it; parameter, buffer and universe are kept |
| `DispatchProperties.DispatchIgnored` | midiola.cpp:397-428 | an event of another kind, of a disabled kind, or on a channel whose mask bit is clear changes nothing and sends nothing |
| `DispatchProperties.DispatchControlChange` | midiola.cpp:399-419 | an accepted Control Change goes to exactly the handler that the mode selects |
| `DispatchProperties.DispatchNoteOn` | midiola.cpp:420-427 | an accepted Note-On goes to cc7 whatever the mode |
| `DispatchProperties.DispatchSendsCurrent` | midiola.cpp:397-428 | an event sends at most one frame: the selected buffer, tagged with the selected universe |
| `DispatchProperties.AcceptedEvents` | midiola.cpp:394-429 | an event is kept exactly when it occurs in the batch and is accepted, each accepted event is kept as many times as it occurs, and there are no more kept events than events |
| `DispatchProperties.AcceptedEventsAppend` | midiola.cpp:394-429 | the filter keeps arrival order: the accepted events of a + b are those of a followed by those of b |
| `DispatchProperties.RunOnlyAccepted` | midiola.cpp:394-429 | a batch has the same effect as its accepted events alone |
| `DispatchProperties.NoneAcceptedNoEffect` | midiola.cpp:399-428 | a batch with no accepted event leaves the state as it was |
| `DispatchProperties.RunAppend` | midiola.cpp:388-431 | two batches in succession act as one batch, since the state carries over between callbacks |
| `DispatchProperties.RunSendsAtMostOnePerEvent` | midiola.cpp:394-429 | over a batch the log only grows, by at most one frame per event |
| `DispatchProperties.DispatchKeepsSlot` | midiola.cpp:282-298 | in the NRPN modes every event keeps slot = param % 512 |
| `DispatchProperties.RunKeepsSlot` | midiola.cpp:314-315 | from start-up, in the NRPN modes, slot = param % 512 after any batch, so nrpn7's recomputation on decrement never moves the slot |
| `CommandLine.ModeIndex` | midiola.cpp:37-42 | each mode's `MIDI_MODE` value indexes `modeNames` |
| `CommandLine.ModeOf` | midiola.cpp:37-42 | the mode of an index has that index |
| `CommandLine.ModeName` | midiola.cpp:72 | the name of a mode is one of the four `modeNames`, at the mode's `MIDI_MODE` index |
| `CommandLine.ModeNamesDistinct` | midiola.cpp:72 | two modes have the same name exactly when they are the same mode |
| `CommandLine.LookupMode` | midiola.cpp:151-160 | a mode is found exactly when the name is one of the four, and the mode found has that name |
| `CommandLine.Exclude` | midiola.cpp:187-196 | `-x k` is rejected exactly when k is outside 1..16 |
| `CommandLine.ExcludeClearsOnlyChannel` | midiola.cpp:194-196 | `-x k` disables exactly channel k - 1 and keeps every other channel's gate |
| `CommandLine.ExcludedChannelSilent` | midiola.cpp:402-403 | after `-x k`, a batch on channel k - 1 changes nothing and sends nothing |
| `CommandLine.EnableDefault` | midiola.cpp:436-437 | afterwards some kind is listened to; an explicit `-c` is kept; CC is only forced on when neither kind was asked for |
| `Midiola.Translator.constructor` | midiola.cpp:54-68 | the globals' initial values and the initial engine state, with every buffer at 0 |
| `Midiola.Translator.SelectMode` | midiola.cpp:151-164 | a known name sets the mode to that name; an unknown name is rejected |
| `Midiola.Translator.SetUniverse` | midiola.cpp:165-170 | the first and current universe become n truncated to 8 bits |
| `Midiola.Translator.ListenControlChange` | midiola.cpp:173-175 | `-c` enables Control Change |
| `Midiola.Translator.ListenNoteOn` | midiola.cpp:176-178 | `-n` enables Note-On |
| `Midiola.Translator.ExcludeChannel` | midiola.cpp:187-196 | the in-place mask update equals `Exclude`; an out-of-range k is rejected and the mask kept |
| `Midiola.Translator.ApplyEnableDefault` | midiola.cpp:436-437 | the in-place update equals `EnableDefault` |
| `Midiola.Translator.SetChannel` | midiola.cpp:229 | the array write matches `Write` on the abstract store |
| `Midiola.Translator.SendDmx` | midiola.cpp:230 | appends the current universe and a snapshot of the current buffer to the log |
| `Midiola.Translator.Cc7` | midiola.cpp:216-232 | the in-place handler moves the state exactly as `Engine.Cc7` |
| `Midiola.Translator.Cc14` | midiola.cpp:234-267 | the in-place handler moves the state exactly as `Engine.Cc14` |
| `Midiola.Translator.NrpnCc7` | midiola.cpp:269-324 | the in-place handler moves the state exactly as `Engine.NrpnCc7` |
| `Midiola.Translator.NrpnCc14` | midiola.cpp:326-386 | the in-place handler moves the state exactly as `Engine.NrpnCc14` |
| `Midiola.Translator.OnJackProcess` | midiola.cpp:388-431 | the event loop over a batch moves the state exactly as `Engine.Run` |

## Left out

- JACK client and port set-up, `jack_port_get_buffer` and `jack_midi_event_get`
  (midiola.cpp:391-396, 474-494) are foreign I/O. A batch is a sequence of three-byte events
  that were read successfully. The code reads byte 0 of every event. It reads bytes 1 and 2
  only for a Control Change or Note-On that passes the kind test and the channel gate
  (midiola.cpp:404-405, 425-426), and then whatever the event's length. The model takes all
  three bytes as given.
- Data bytes with bit 7 set are outside the model: events carry 7-bit data bytes, as
  MIDI 1.0 defines them. With such a byte on CC 99, the code would build a parameter above
  16383 and index a buffer past the 32 it has.
- OLA client set-up and transport (midiola.cpp:457-466) are network I/O. `SendDmx` is an
  append to a log of frames.
- `ola::DmxBuffer` is not part of this model. Each buffer is 512 levels that start at 0,
  with `Get` and `SetChannel` on it. Every write the handlers make is below slot 512.
- The start-up blackout loop (midiola.cpp:467-472) is I/O and is left out. As written it
  blacks out only the current buffer and sends the current universe 32 times. The model
  simply starts with every buffer at 0 and an empty log.
- Logging, help, version and verbosity are left out (midiola.cpp:74-129, 201-212). So are the
  `getopt`, `strcpy` and `exit` mechanics and the JACK client name (midiola.cpp:131-150,
  179-186). An option the program rejects by exiting is modelled as a `false` result that
  leaves the configuration unchanged.
- `Midiola.Translator.SelectMode`: the code first sets `g_mode` to an invalid value and then
  exits on an unknown name. The model leaves the mode unchanged instead, because the program
  never runs with that value.
- `Midiola.Translator.SetUniverse` takes the integer `atoi` would return. Text parsing is left
  out.
- The option branches that run without an argument are left out. The short forms `-m`, `-u`
  and `-x` always get an argument from getopt. The long forms are declared `optional_argument`
  (midiola.cpp:132-138), so `--mode nrpn7`, `--universe 3` and `--exclude 3` written without
  `=` run with no argument. In that case `--mode` sets an invalid mode and exits
  (midiola.cpp:152-164), `--universe` exits (midiola.cpp:171-172), and `--exclude` reports an
  error and leaves the mask unchanged (midiola.cpp:197-199).
- The real-time callback thread and the sleep loop of `main` (midiola.cpp:501-503) are
  concurrency and lifecycle. The model processes one batch at a time, sequentially.
