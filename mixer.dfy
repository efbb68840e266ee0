/** The PulseMixer adapter: it resolves one sink by name when it is built,
    answers volume and mute queries from that sink, forwards volume and mute
    requests to the server, and turns server change events into
    "volume changed" / "mute changed" notifications with edge detection. */
module Mixer {
  import opened Wrappers
  import opened Pulse

  /** The exceptions the mixer can raise. */
  datatype Failure =
    | MixerError(sink: string, available: seq<string>)  // no sink with the configured name
    | IndexError                                         // first channel of an empty channel list

  // ---------------------------------------------------------------------------
  // Sink resolution

  /** The first sink in list order whose name is `name`, if any. */
  function FirstNamed(sinks: seq<Sink>, name: string): (r: Option<Sink>)
    ensures r.Some? ==> r.value in sinks && r.value.name == name
    ensures r.None? <==> forall i :: 0 <= i < |sinks| ==> sinks[i].name != name
  {
    if sinks == [] then None
    else if sinks[0].name == name then Some(sinks[0])
    else FirstNamed(sinks[1..], name)
  }

  /** When `i` is the first position holding a sink named `name`, that sink
      is the one resolved: an earlier match always wins over a later one. */
  lemma {:induction false} FirstNamedIsFirstMatch(sinks: seq<Sink>, name: string, i: int)
    requires 0 <= i < |sinks| && sinks[i].name == name
    requires forall j :: 0 <= j < i ==> sinks[j].name != name
    ensures FirstNamed(sinks, name) == Some(sinks[i])
  {
    if i > 0 {
      assert sinks[0].name != name;
      assert forall j :: 0 <= j < i - 1 ==> sinks[1..][j] == sinks[j + 1];
      FirstNamedIsFirstMatch(sinks[1..], name, i - 1);
    }
  }

  /** The search loop of construction: walk the listed sinks and stop at the
      first one whose name is `name`. */
  method FindSink(sinks: seq<Sink>, name: string) returns (found: Option<Sink>)
    ensures found == FirstNamed(sinks, name)
  {
    found := None;
    var i := 0;
    while i < |sinks|
      invariant 0 <= i <= |sinks|
      invariant FirstNamed(sinks[i..], name) == FirstNamed(sinks, name)
    {
      assert sinks[i..][0] == sinks[i] && sinks[i..][1..] == sinks[i + 1..];
      if sinks[i].name == name {
        found := Some(sinks[i]);
        break;
      }
      i := i + 1;
    }
    assert found.None? ==> sinks[i..] == [];
  }

  // ---------------------------------------------------------------------------
  // Reading volume and mute from the held sink

  /** Python's `int()` on a number: truncation toward zero, which is `Floor`
      for non-negative input and rounds up for negative input. */
  function Trunc(x: real): (n: int)
    ensures 0.0 <= x ==> n == x.Floor && 0 <= n
    ensures 0.0 <= x ==> n as real <= x < n as real + 1.0
    ensures x < 0.0 ==> n <= 0 && n as real - 1.0 < x <= n as real
  {
    if x >= 0.0 then x.Floor else -((-x).Floor)
  }

  /** Python's `list.count(v)`: how many elements equal `v`. */
  function Count(cs: seq<real>, v: real): (n: nat)
    ensures n <= |cs|
  {
    if cs == [] then 0 else (if cs[0] == v then 1 else 0) + Count(cs[1..], v)
  }

  /** Every element equals `v` exactly when `v` occurs `|cs|` times. */
  lemma {:induction false} CountIsLengthIffAll(cs: seq<real>, v: real)
    ensures Count(cs, v) == |cs| <==> forall i :: 0 <= i < |cs| ==> cs[i] == v
  {
    if cs != [] {
      CountIsLengthIffAll(cs[1..], v);
      assert forall i :: 1 <= i < |cs| ==> cs[i] == cs[1..][i - 1];
    }
  }

  /** `get_volume` on the held sink: `None` without a sink; the first
      channel's level in percent, truncated, when every channel has that
      level; `None` when the channels disagree. An empty channel list makes
      the read of the first channel raise. */
  function ReadVolume(sink: Option<Sink>): (r: Result<Option<int>, Failure>)
    ensures sink.None? ==> r == Ok(None)
    ensures sink.Some? && sink.value.channels == [] ==> r == Err(IndexError)
    ensures sink.Some? && sink.value.channels != [] ==>
      var cs := sink.value.channels;
      r.Ok? &&
      (r.value.Some? <==> forall i :: 0 <= i < |cs| ==> cs[i] == cs[0]) &&
      (r.value.Some? ==> r.value.value == Trunc(cs[0] * 100.0))
  {
    match sink
    case None => Ok(None)
    case Some(s) =>
      if |s.channels| == 0 then Err(IndexError)
      else
        CountIsLengthIffAll(s.channels, s.channels[0]);
        if Count(s.channels, s.channels[0]) == |s.channels|
        then Ok(Some(Trunc(s.channels[0] * 100.0)))
        else Ok(None)
  }

  /** With every channel between 0% and 100%, a reported volume is a
      percentage between 0 and 100, and it is the level's floor in percent. */
  lemma VolumeIsPercent(s: Sink)
    requires forall i :: 0 <= i < |s.channels| ==> 0.0 <= s.channels[i] <= 1.0
    requires ReadVolume(Some(s)).Ok? && ReadVolume(Some(s)).value.Some?
    ensures 0 <= ReadVolume(Some(s)).value.value <= 100
    ensures ReadVolume(Some(s)).value.value == (s.channels[0] * 100.0).Floor
  {
  }

  /** Setting every channel to `volume / 100` and reading the sink back
      gives `volume` again, on exact arithmetic. */
  lemma SetThenReadVolume(s: Sink, volume: int)
    requires s.channels != []
    ensures ReadVolume(Some(WithAllChannels(s, volume as real / 100.0))) == Ok(Some(volume))
  {
  }

  /** `get_mute` on the held sink: `None` without a sink, otherwise the
      truth value of the library's integer mute flag. */
  function ReadMute(sink: Option<Sink>): (r: Option<bool>)
    ensures r.None? <==> sink.None?
    ensures sink.Some? ==> (r.value <==> sink.value.mute != 0)
  {
    match sink
    case None => None
    case Some(s) => Some(s.mute != 0)
  }

  // ---------------------------------------------------------------------------
  // Edge detection on change events

  /** The last volume and mute values the mixer reported. */
  datatype Seen = Seen(volume: Option<int>, mute: Option<bool>)

  /** A notification raised to the host. */
  datatype Notification =
    | VolumeChanged(volume: Option<int>)
    | MuteChanged(mute: Option<bool>)

  /** An event matters only when a sink is held, the event concerns that
      sink's index and it is a change event. */
  predicate Relevant(sink: Option<Sink>, ev: Event)
  {
    sink.Some? && ev.index == sink.value.index && ev.t == "change"
  }

  /** The values the handler reads when the volume read does not raise:
      nothing without a sink; otherwise a volume exactly when all channels
      agree, and the sink's mute flag. */
  function Current(sink: Option<Sink>): (now: Seen)
    requires ReadVolume(sink).Ok?
    ensures sink.None? ==> now == Seen(None, None)
    ensures sink.Some? ==>
      var cs := sink.value.channels;
      (now.volume.Some? <==> forall i :: 0 <= i < |cs| ==> cs[i] == cs[0]) &&
      (now.volume.Some? ==> now.volume.value == Trunc(cs[0] * 100.0)) &&
      now.mute == Some(sink.value.mute != 0)
  {
    Seen(ReadVolume(sink).value, ReadMute(sink))
  }

  /** The notifications raised when the reported values go from `before` to
      `after`: a volume notification exactly when the volume differs, a mute
      notification exactly when the mute differs, each with the new value,
      volume first. */
  function Changes(before: Seen, after: Seen): (fired: seq<Notification>)
    ensures VolumeChanged(after.volume) in fired <==> before.volume != after.volume
    ensures MuteChanged(after.mute) in fired <==> before.mute != after.mute
    ensures forall k :: 0 <= k < |fired| ==>
              fired[k] == VolumeChanged(after.volume) || fired[k] == MuteChanged(after.mute)
    ensures |fired| <= 2
    ensures |fired| == 2 ==> fired[0].VolumeChanged? && fired[1].MuteChanged?
  {
    (if before.volume != after.volume then [VolumeChanged(after.volume)] else [])
    + (if before.mute != after.mute then [MuteChanged(after.mute)] else [])
  }

  /** What one call of the event handler does: whether it raised, the values
      it keeps as last seen, and the notifications it raised. */
  datatype Reaction = Reaction(outcome: Outcome<Failure>, seen: Seen, fired: seq<Notification>)

  /** The event handler as a function of the held sink, the last-seen values
      and the event. It raises only on a relevant event for a sink without
      channels, notifies only on a relevant event that returned normally, and
      raises at most two notifications. */
  function React(sink: Option<Sink>, seen: Seen, ev: Event): (rx: Reaction)
    ensures rx.outcome.Fail? <==> Relevant(sink, ev) && sink.value.channels == []
    ensures rx.fired != [] ==> Relevant(sink, ev) && rx.outcome == Pass
    ensures rx.outcome.Fail? || !Relevant(sink, ev) ==> rx.seen == seen
    ensures |rx.fired| <= 2
  {
    if !Relevant(sink, ev) then Reaction(Pass, seen, [])
    else match ReadVolume(sink)
      case Err(e) => Reaction(Fail(e), seen, [])
      case Ok(v) =>
        var now := Seen(v, ReadMute(sink));
        Reaction(Pass, now, Changes(seen, now))
  }

  /** An irrelevant event (no sink, another index, or not a change) leaves
      the last-seen values alone and raises nothing. */
  lemma ReactIgnoresIrrelevant(sink: Option<Sink>, seen: Seen, ev: Event)
    requires sink.None? || ev.index != sink.value.index || ev.t != "change"
    ensures React(sink, seen, ev) == Reaction(Pass, seen, [])
  {
  }

  /** A relevant event overwrites the last-seen values with fresh reads and
      notifies each of volume and mute, independently, exactly when its value
      changed. */
  lemma ReactFiresIffChanged(sink: Option<Sink>, seen: Seen, ev: Event)
    requires Relevant(sink, ev) && ReadVolume(sink).Ok?
    ensures var rx := React(sink, seen, ev);
      rx.outcome == Pass && rx.seen == Current(sink) &&
      (VolumeChanged(rx.seen.volume) in rx.fired <==> seen.volume != rx.seen.volume) &&
      (MuteChanged(rx.seen.mute) in rx.fired <==> seen.mute != rx.seen.mute) &&
      (forall n :: n in rx.fired ==>
         n == VolumeChanged(rx.seen.volume) || n == MuteChanged(rx.seen.mute))
  {
  }

  /** A relevant event on a sink whose volume read raises propagates the
      exception and changes nothing. */
  lemma ReactRaises(sink: Option<Sink>, seen: Seen, ev: Event)
    requires Relevant(sink, ev) && sink.value.channels == []
    ensures React(sink, seen, ev) == Reaction(Fail(IndexError), seen, [])
  {
  }

  /** A second relevant event on an unchanged sink raises nothing and keeps
      the same last-seen values. */
  lemma ReactTwiceFiresOnce(sink: Option<Sink>, seen: Seen, ev1: Event, ev2: Event)
    requires Relevant(sink, ev2)
    ensures var first := React(sink, seen, ev1);
      first.outcome == Pass && Relevant(sink, ev1) ==>
      React(sink, first.seen, ev2) == Reaction(Pass, first.seen, [])
  {
  }

  /** The handler applied to a sequence of events, one after the other:
      the last-seen values at the end and every notification raised, in
      order. A call that raises changes nothing, so the next event proceeds
      from the same values. */
  function Replay(sink: Option<Sink>, seen: Seen, evs: seq<Event>): (run: (Seen, seq<Notification>))
    ensures run.1 != [] ==> exists i :: 0 <= i < |evs| && Relevant(sink, evs[i])
    decreases |evs|
  {
    if evs == [] then (seen, [])
    else
      var rx := React(sink, seen, evs[0]);
      var (final, rest) := Replay(sink, rx.seen, evs[1..]);
      (final, rx.fired + rest)
  }

  /** Because the held sink never changes, a whole run of events raises the
      notifications of the first relevant event and nothing afterwards. */
  lemma {:induction false} ReplayOnSnapshot(sink: Option<Sink>, seen: Seen, evs: seq<Event>)
    ensures var (final, fired) := Replay(sink, seen, evs);
      if ReadVolume(sink).Ok? && exists i :: 0 <= i < |evs| && Relevant(sink, evs[i])
      then final == Current(sink) && fired == Changes(seen, Current(sink))
      else final == seen && fired == []
    decreases |evs|
  {
    if evs != [] {
      var rx := React(sink, seen, evs[0]);
      ReplayOnSnapshot(sink, rx.seen, evs[1..]);
      assert forall i :: 1 <= i < |evs| ==> evs[i] == evs[1..][i - 1];
      if ReadVolume(sink).Ok? && Relevant(sink, evs[0]) {
        assert Changes(Current(sink), Current(sink)) == [];
      } else if ReadVolume(sink).Ok? {
        assert (exists i :: 0 <= i < |evs| && Relevant(sink, evs[i])) ==
               (exists i :: 0 <= i < |evs[1..]| && Relevant(sink, evs[1..][i]));
      }
    }
  }

  /** Over any run of events, at most one volume notification and at most
      one mute notification are raised. */
  lemma RunNotifiesEachAtMostOnce(sink: Option<Sink>, seen: Seen, evs: seq<Event>)
    ensures var fired := Replay(sink, seen, evs).1;
      |fired| <= 2 &&
      (forall j, k ::
         0 <= j < |fired| && 0 <= k < |fired| && fired[j].VolumeChanged? && fired[k].VolumeChanged?
         ==> j == k) &&
      (forall j, k ::
         0 <= j < |fired| && 0 <= k < |fired| && fired[j].MuteChanged? && fired[k].MuteChanged?
         ==> j == k)
  {
    ReplayOnSnapshot(sink, seen, evs);
  }

  // ---------------------------------------------------------------------------
  // The mixer object

  class PulseMixer {
    /** The configured sink name. */
    const sinkName: string
    /** The sink resolved at construction; it is never fetched again. */
    const sink: Option<Sink>
    /** The volume and mute values reported by the last relevant event. */
    var lastVolume: Option<int>
    var lastMute: Option<bool>
    /** The calls issued to the server, oldest first. */
    ghost var calls: seq<ServerCall>
    /** The notifications raised to the host, oldest first. */
    ghost var notifications: seq<Notification>

    /** A mixer holding `sink`, with nothing reported yet. */
    constructor (sinkName: string, sink: Sink)
      ensures this.sinkName == sinkName && this.sink == Some(sink)
      ensures lastVolume == None && lastMute == None
      ensures calls == [] && notifications == []
    {
      this.sinkName := sinkName;
      this.sink := Some(sink);
      lastVolume, lastMute := None, None;
      calls, notifications := [], [];
    }

    /** Construction: resolve the first listed sink named `sinkName`, or
        raise a mixer error that names the sink and the available ones. */
    static method Create(sinkName: string, sinks: seq<Sink>) returns (r: Result<PulseMixer, Failure>)
      ensures FirstNamed(sinks, sinkName).None? ==> r == Err(MixerError(sinkName, Names(sinks)))
      ensures FirstNamed(sinks, sinkName).Some? ==>
        r.Ok? && fresh(r.value) &&
        r.value.sinkName == sinkName && r.value.sink == FirstNamed(sinks, sinkName) &&
        r.value.lastVolume == None && r.value.lastMute == None &&
        r.value.calls == [] && r.value.notifications == []
    {
      var found := FindSink(sinks, sinkName);
      if found.None? {
        return Err(MixerError(sinkName, Names(sinks)));
      }
      var m := new PulseMixer(sinkName, found.value);
      return Ok(m);
    }

    /** `set_volume`: without a sink, refuse and call nothing; otherwise ask
        the server to set every channel of the held sink to `volume / 100`. */
    method SetVolume(volume: int) returns (ok: bool)
      modifies this`calls
      ensures ok <==> sink.Some?
      ensures calls == old(calls) +
        (if sink.Some? then [VolumeSetAllChans(sink.value, volume as real / 100.0)] else [])
    {
      if sink.None? {
        return false;
      }
      calls := calls + [VolumeSetAllChans(sink.value, volume as real / 100.0)];
      return true;
    }

    /** `set_mute`: without a sink, refuse and call nothing; otherwise issue
        one mute call carrying `mute`. */
    method SetMute(mute: bool) returns (ok: bool)
      modifies this`calls
      ensures ok <==> sink.Some?
      ensures calls == old(calls) + (if sink.Some? then [Mute(mute)] else [])
    {
      if sink.None? {
        return false;
      }
      calls := calls + [Mute(mute)];
      return true;
    }

    /** The change-event handler: ignore events that do not concern the held
        sink's change; otherwise store fresh reads as the last-seen values and
        notify each value that differs from the one seen before. */
    method TriggerEventsForChangedValues(ev: Event) returns (outcome: Outcome<Failure>)
      modifies this`lastVolume, this`lastMute, this`notifications
      ensures var rx := React(sink, Seen(old(lastVolume), old(lastMute)), ev);
        outcome == rx.outcome &&
        lastVolume == rx.seen.volume && lastMute == rx.seen.mute &&
        notifications == old(notifications) + rx.fired
    {
      if sink.None? {
        return Pass;
      }
      if ev.index != sink.value.index || ev.t != "change" {
        return Pass;
      }
      var volume := ReadVolume(sink);
      if volume.Err? {
        return Fail(volume.error);
      }
      var oldVolume := lastVolume;
      lastVolume := volume.value;
      var oldMute := lastMute;
      lastMute := ReadMute(sink);
      if oldVolume != lastVolume {
        notifications := notifications + [VolumeChanged(lastVolume)];
      }
      if oldMute != lastMute {
        notifications := notifications + [MuteChanged(lastMute)];
      }
      return Pass;
    }
  }
}
