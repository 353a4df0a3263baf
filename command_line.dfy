/** The start-up options that shape translation: the `-m` mode-name lookup, the `-x`
    channel-exclusion mask, and the rule in `main` that listens for Control Change when
    neither message kind was asked for. */
module CommandLine {
  import opened Midi
  import opened Engine
  import opened DispatchProperties

  datatype Option<T> = None | Some(value: T)

  /** `modeNames`, indexed by the `MIDI_MODE` value. */
  const ModeNames: seq<string> := ["cc7", "cc14", "nrpn7", "nrpn14"]

  /** The `MIDI_MODE` value of a mode. */
  function ModeIndex(m: Mode): (i: nat)
    ensures i < |ModeNames|
  {
    match m
    case ModeCc7 => 0
    case ModeCc14 => 1
    case ModeNrpn7 => 2
    case ModeNrpn14 => 3
  }

  /** The mode a `MIDI_MODE` value stands for. */
  function ModeOf(i: nat): (m: Mode)
    requires i < |ModeNames|
    ensures ModeIndex(m) == i
  {
    if i == 0 then ModeCc7 else if i == 1 then ModeCc14 else if i == 2 then ModeNrpn7 else ModeNrpn14
  }

  /** The name `-m` accepts for a mode. */
  function ModeName(m: Mode): (name: string)
    ensures name in ModeNames && ModeOf(ModeIndex(m)) == m
  {
    ModeNames[ModeIndex(m)]
  }

  /** Names and modes are in one-to-one correspondence. */
  lemma ModeNamesDistinct(a: Mode, b: Mode)
    ensures ModeName(a) == ModeName(b) <==> a == b
  {
  }

  /** A lookup result that, when present, is the mode of that name. */
  predicate Names(m: Option<Mode>, name: string)
  {
    match m
    case None => true
    case Some(mode) => ModeName(mode) == name
  }

  /** The `-m` branch: scan `modeNames` in order and stop at the entry equal to the argument;
      no entry matches exactly when the name is not one of the four. */
  method LookupMode(name: string) returns (m: Option<Mode>)
    ensures m.Some? <==> name in ModeNames
    ensures m.Some? ==> ModeName(m.value) == name
  {
    m := None;
    var i := 0;
    while i < |ModeNames|
      invariant 0 <= i <= |ModeNames|
      invariant m.None? ==> forall j :: 0 <= j < i ==> ModeNames[j] != name
      invariant Names(m, name)
    {
      if name == ModeNames[i] {
        m := Some(ModeOf(i));
        break;
      }
      i := i + 1;
    }
  }

  /** The `-x k` branch: `g_midiChannels & ~(1 << (k - 1))` for k in 1..16; any other k is
      rejected (the program then exits). */
  function Exclude(mask: ChannelMask, k: int): (r: Option<ChannelMask>)
    ensures r.None? <==> k < 1 || k > 16
  {
    if k < 1 || k > 16 then None else Some(mask & !ChannelBit(k - 1))
  }

  /** Excluding channel k (1-based) disables exactly channel k - 1 (0-based) and leaves every
      other channel as it was. */
  lemma ExcludeClearsOnlyChannel(mask: ChannelMask, k: int, channel: Channel)
    requires 1 <= k <= 16
    ensures Enabled(Exclude(mask, k).value, channel) <==> Enabled(mask, channel) && channel != k - 1
  {
    ClearChannelBit(mask, k - 1, channel);
  }

  /** Once channel k is excluded, a batch of messages on channel k - 1 (0-based) changes no
      level, no accumulator, no address, and sends nothing. */
  lemma ExcludedChannelSilent(c: Context, cfg: Config, mask: ChannelMask, k: int, events: seq<Event>)
    requires Valid(c) && 1 <= k <= 16 && Exclude(mask, k) == Some(cfg.midiChannels)
    requires forall i :: 0 <= i < |events| ==> ChannelOf(events[i].status) == k - 1
    ensures Run(c, cfg, events) == c
  {
    forall i | 0 <= i < |events|
      ensures !Accepted(cfg, events[i])
    {
      ExcludeClearsOnlyChannel(mask, k, k - 1);
    }
    NoneAcceptedNoEffect(c, cfg, events);
  }

  /** `main`: with neither `-c` nor `-n`, Control Change handling is switched on. */
  function EnableDefault(enableCC: bool, enableNote: bool): (cc: bool)
    ensures cc || enableNote
    ensures enableCC ==> cc
    ensures cc && !enableCC ==> !enableNote
  {
    if !enableNote && !enableCC then true else enableCC
  }
}
