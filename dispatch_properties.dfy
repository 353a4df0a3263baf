/** What the event loop does with a batch: the channel gate and the routing of each event,
    the frames it sends, and the invariants it keeps from one event to the next. */
module DispatchProperties {
  import opened Midi
  import opened Dmx
  import opened Nrpn
  import opened Engine

  /** An event the dispatcher does not accept (wrong kind, kind not enabled, or channel bit
      clear in the mask) changes nothing and sends nothing. */
  lemma DispatchIgnored(c: Context, cfg: Config, e: Event)
    requires Valid(c) && !Accepted(cfg, e)
    ensures Dispatch(c, cfg, e) == c
  {
  }

  /** A Control Change on an enabled channel, with CC handling on, goes to exactly the
      handler of the configured mode. */
  lemma DispatchControlChange(c: Context, cfg: Config, e: Event)
    requires Valid(c) && cfg.enableCC && Kind(e.status) == CONTROL_CHANGE
    requires Enabled(cfg.midiChannels, ChannelOf(e.status))
    ensures Dispatch(c, cfg, e) == match cfg.mode
      case ModeCc7 => Cc7(c, cfg.universeBase, ChannelOf(e.status), e.data1, e.data2)
      case ModeCc14 => Cc14(c, ChannelOf(e.status), e.data1, e.data2)
      case ModeNrpn7 => NrpnCc7(c, cfg.universeBase, e.data1, e.data2)
      case ModeNrpn14 => NrpnCc14(c, cfg.universeBase, e.data1, e.data2)
  {
  }

  /** A Note-On on an enabled channel, with note handling on, goes to cc7 whatever the mode:
      the note number is the slot and the velocity the value. */
  lemma DispatchNoteOn(c: Context, cfg: Config, e: Event)
    requires Valid(c) && cfg.enableNote && Kind(e.status) == NOTE_ON
    requires Enabled(cfg.midiChannels, ChannelOf(e.status))
    ensures Dispatch(c, cfg, e) == Cc7(c, cfg.universeBase, ChannelOf(e.status), e.data1, e.data2)
  {
  }

  /** Every event sends at most one frame, never retracts one, and a frame it sends is the
      buffer the resulting context selects, tagged with the universe it selects. */
  lemma DispatchSendsCurrent(c: Context, cfg: Config, e: Event)
    requires Valid(c)
    ensures var r := Dispatch(c, cfg, e);
      r.sent == c.sent || r.sent == c.sent + [Frame(r.universe, r.dmx[r.bufferIndex])]
  {
  }

  /** The events of a batch that the dispatcher accepts, in arrival order: an event is kept
      exactly when it occurs in the batch and is accepted. */
  function AcceptedEvents(cfg: Config, events: seq<Event>): (r: seq<Event>)
    ensures |r| <= |events|
    ensures forall i :: 0 <= i < |r| ==> Accepted(cfg, r[i]) && r[i] in events
    ensures forall e :: e in r <==> e in events && Accepted(cfg, e)
    ensures forall e :: multiset(r)[e] == if Accepted(cfg, e) then multiset(events)[e] else 0
    decreases |events|
  {
    if events == [] then []
    else
      var init := AcceptedEvents(cfg, events[..|events| - 1]);
      var last := events[|events| - 1];
      assert events == events[..|events| - 1] + [last];
      if Accepted(cfg, last) then init + [last] else init
  }

  /** Filtering keeps arrival order: the accepted events of two consecutive batches are those
      of the first followed by those of the second. */
  lemma {:induction false} AcceptedEventsAppend(cfg: Config, a: seq<Event>, b: seq<Event>)
    ensures AcceptedEvents(cfg, a + b) == AcceptedEvents(cfg, a) + AcceptedEvents(cfg, b)
    decreases |b|
  {
    if b == [] {
      assert a + b == a;
    } else {
      assert (a + b)[..|a + b| - 1] == a + b[..|b| - 1];
      AcceptedEventsAppend(cfg, a, b[..|b| - 1]);
    }
  }

  /** Processing a batch is processing its accepted events alone: events on a disabled
      channel, of another kind or of a disabled kind change no state and send nothing,
      wherever they occur in the batch. */
  lemma {:induction false} RunOnlyAccepted(c: Context, cfg: Config, events: seq<Event>)
    requires Valid(c)
    ensures Run(c, cfg, events) == Run(c, cfg, AcceptedEvents(cfg, events))
    decreases |events|
  {
    if events != [] {
      var init := events[..|events| - 1];
      var last := events[|events| - 1];
      var kept := AcceptedEvents(cfg, init);
      RunOnlyAccepted(c, cfg, init);
      if Accepted(cfg, last) {
        assert (kept + [last])[..|kept + [last]| - 1] == kept;
      } else {
        DispatchIgnored(Run(c, cfg, init), cfg, last);
      }
    }
  }

  /** A batch none of whose events is accepted (for instance, all on an excluded channel)
      leaves the context exactly as it was. */
  lemma NoneAcceptedNoEffect(c: Context, cfg: Config, events: seq<Event>)
    requires Valid(c)
    requires forall i :: 0 <= i < |events| ==> !Accepted(cfg, events[i])
    ensures Run(c, cfg, events) == c
  {
    RunOnlyAccepted(c, cfg, events);
  }

  /** Two batches processed one after the other are one batch: the context carries over
      between host callbacks. */
  lemma {:induction false} RunAppend(c: Context, cfg: Config, a: seq<Event>, b: seq<Event>)
    requires Valid(c)
    ensures Run(c, cfg, a + b) == Run(Run(c, cfg, a), cfg, b)
    decreases |b|
  {
    if b == [] {
      assert a + b == a;
    } else {
      assert (a + b)[..|a + b| - 1] == a + b[..|b| - 1];
      RunAppend(c, cfg, a, b[..|b| - 1]);
    }
  }

  /** Over a batch the log only grows, by at most one frame per event. */
  lemma {:induction false} RunSendsAtMostOnePerEvent(c: Context, cfg: Config, events: seq<Event>)
    requires Valid(c)
    ensures var r := Run(c, cfg, events);
      c.sent <= r.sent && |r.sent| <= |c.sent| + |events|
    decreases |events|
  {
    if events != [] {
      var init := events[..|events| - 1];
      RunSendsAtMostOnePerEvent(c, cfg, init);
      DispatchSendsCurrent(Run(c, cfg, init), cfg, events[|events| - 1]);
    }
  }

  /** In the NRPN modes the current slot is the one the parameter addresses. */
  predicate SlotFollowsParam(c: Context)
  {
    c.slot == SlotOf(c.nrpnParam)
  }

  /** Every event keeps the slot aligned with the parameter in the NRPN modes (a Note-On
      routed to cc7 moves the buffer and universe but not the slot). */
  lemma DispatchKeepsSlot(c: Context, cfg: Config, e: Event)
    requires Valid(c) && SlotFollowsParam(c)
    requires cfg.mode == ModeNrpn7 || cfg.mode == ModeNrpn14
    ensures SlotFollowsParam(Dispatch(c, cfg, e))
  {
  }

  /** From start-up on, in the NRPN modes, the slot follows the parameter after any batch;
      so nrpn7's recomputation of the slot on decrement never moves it, and a decrement at 0
      changes nothing at all. */
  lemma {:induction false} RunKeepsSlot(cfg: Config, events: seq<Event>)
    requires cfg.mode == ModeNrpn7 || cfg.mode == ModeNrpn14
    ensures SlotFollowsParam(Run(Initial(cfg), cfg, events))
    decreases |events|
  {
    if events != [] {
      var init := events[..|events| - 1];
      RunKeepsSlot(cfg, init);
      DispatchKeepsSlot(Run(Initial(cfg), cfg, init), cfg, events[|events| - 1]);
    }
  }
}
