# PulseMixer volume/mute adapter, modelled in Dafny

This project models the `PulseMixer` class of Mopidy-PulseMixer. The class is a mixer
that a media player uses to read and set the volume and mute state of one
PulseAudio output device, called a sink. It does four things:

- **Construction** looks up the configured sink by name in the server's sink list.
  The first sink in list order with that name wins. If no sink has the name, it raises
  a `MixerError` that names the sink and lists the available sinks.
- **Reads.** `get_volume` and `get_mute` work on the sink snapshot taken at
  construction. The code never fetches it again. The volume is the first
  channel's level times 100, truncated by `int()`. It is reported only when all
  channels agree, and `None` otherwise. The mute flag is `bool()` of the
  library's integer flag.
- **Writes.** `set_volume` and `set_mute` return `False` and do nothing when no
  sink is held. Otherwise each issues one server call and returns `True`.
- **The change-event handler** runs for each server event. It ignores events that
  concern another sink index or are not `'change'`. For a relevant event it
  stores fresh reads as the last-seen values. It then raises `volume_changed`
  and `mute_changed`, each on its own, only when that value differs from the
  last-seen one. `None` counts as a value of its own.

Files:

- `wrappers.dfy` (`Wrappers`) holds `Option`, `Result` and `Outcome`.
- `pulse.dfy` (`Pulse`) holds the client library's data as the mixer sees it:
  sinks, events, and the calls the mixer issues.
- `mixer.dfy` (`Mixer`) holds the adapter. It has the pure reads and the
  edge detector as functions with lemmas, and the `PulseMixer` class. The
  class's state-changing methods are tied to those functions.

The server is abstract. Its sink list is a parameter of construction. The
calls the mixer issues are appended to a ghost log (`calls`). Notifications
to the host are appended to a ghost log (`notifications`). The held sink is
a `const` field, because the code never reassigns or re-fetches it.

Construction cannot fail in a Dafny constructor. So `PulseMixer.Create`
runs the search and returns `Err(MixerError(..))` or a fresh mixer. The
search loop is the method `FindSink`.

The model follows the code as written. In particular:

- the sink is never re-resolved on change events;
- there is no queue of pending writes; the setters call the server directly;
- there is no "first sink when no name is configured" fallback;
- the volume is truncated, not rounded.

## Model

| member | source | states |
|---|---|---|
| `Mixer.FirstNamed` | mopidy_pulsemixer/mixer.py:33-37 | The resolved sink is one of the listed sinks and carries the configured name. Nothing is resolved exactly when no listed sink has that name. |
| `Mixer.FirstNamedIsFirstMatch` | mopidy_pulsemixer/mixer.py:34-37 | If position `i` holds the first sink with the configured name, that sink is the one resolved. An earlier match beats a later one, as with the loop's `break`. |
| `Mixer.FindSink` | mopidy_pulsemixer/mixer.py:32-37 | The search loop with `break` returns exactly the first sink in list order with the configured name, or `None`. |
| `Mixer.PulseMixer.Create` | mopidy_pulsemixer/mixer.py:24-46 | With no matching sink, construction raises `MixerError` with the configured name and the names of all listed sinks, and no mixer exists. Otherwise it returns a fresh mixer holding the first matching sink. Its last volume and mute are `None`, and it has issued no call and raised no notification. |
| `Mixer.PulseMixer.constructor` | mopidy_pulsemixer/mixer.py:26-46 | A new mixer holds the given sink and name. Its last-seen volume and mute are `None`, and both logs are empty. |
| `Mixer.Count` | mopidy_pulsemixer/mixer.py:60 | `list.count(v)` never exceeds the length of the list. |
| `Mixer.CountIsLengthIffAll` | mopidy_pulsemixer/mixer.py:60 | `channels.count(channels[0]) == len(channels)` holds exactly when every channel equals the first. Both directions are proved. |
| `Mixer.Trunc` | mopidy_pulsemixer/mixer.py:61 | `int()` truncates toward zero. For non-negative input it is `Floor`: non-negative and at most one below the input. For negative input it is at most one above the input and never positive. |
| `Mixer.ReadVolume` | mopidy_pulsemixer/mixer.py:56-64 | With no sink it returns `None`. With an empty channel list, reading `channels[0]` raises `IndexError`. Otherwise a volume is reported exactly when every channel equals the first. The reported value is `int(channels[0] * 100)`. When channels disagree it returns `None`. |
| `Mixer.VolumeIsPercent` | mopidy_pulsemixer/mixer.py:59-61 | With every channel level in [0, 1], a reported volume lies in 0..100 and is the floor of the level in percent. |
| `Mixer.SetThenReadVolume` | mopidy_pulsemixer/mixer.py:59-61 | A sink whose channels were all set to `volume / 100`, as `set_volume` requests, reads back as `volume`, on exact arithmetic. |
| `Mixer.ReadMute` | mopidy_pulsemixer/mixer.py:109-113 | With no sink it returns `None`. Otherwise it returns `True` exactly when the library's integer mute flag is non-zero, which is `bool(mute)`. |
| `Mixer.PulseMixer.SetVolume` | mopidy_pulsemixer/mixer.py:66-70 | It returns `True` exactly when a sink is held. Then exactly one call is logged, setting all channels of the held sink to `volume / 100`. Without a sink nothing is logged. |
| `Mixer.PulseMixer.SetMute` | mopidy_pulsemixer/mixer.py:115-119 | It returns `True` exactly when a sink is held. Then exactly one mute call carrying `mute` is logged. Without a sink nothing is logged. |
| `Mixer.Relevant` | mopidy_pulsemixer/mixer.py:122-125 | An event is handled only when a sink is held, the event's index is that sink's index, and its type is `'change'`. |
| `Mixer.Current` | mopidy_pulsemixer/mixer.py:126-127 | These are the values the handler reads when the volume read does not raise. Without a sink both are `None`. Otherwise a volume is present exactly when all channels agree, and it is the truncated first level in percent. The mute value is `bool()` of the sink's flag. |
| `Mixer.Changes` | mopidy_pulsemixer/mixer.py:129-133 | A volume notification with the new value is raised exactly when the volume differs. A mute notification with the new value is raised exactly when the mute differs. Nothing else is raised, and at most two notifications come out, volume first. |
| `Mixer.PulseMixer.TriggerEventsForChangedValues` | mopidy_pulsemixer/mixer.py:121-133 | The handler's outcome, its new last-seen values, and the notifications it appends are those of `React` for the held sink, the old last-seen values and the event. |
| `Mixer.React` | mopidy_pulsemixer/mixer.py:121-133 | It raises exactly on a relevant event for a sink without channels. Notifications come only from a relevant event that returned normally. An irrelevant or raising event keeps the last-seen values. At most two notifications come out. The `React*` lemmas below state the rest. |
| `Mixer.ReactIgnoresIrrelevant` | mopidy_pulsemixer/mixer.py:122-125 | With no sink, another index or a non-`'change'` type, the handler keeps the last-seen values and raises nothing. |
| `Mixer.ReactFiresIffChanged` | mopidy_pulsemixer/mixer.py:126-133 | For a relevant event the last-seen values become the current reads. Each of `volume_changed` and `mute_changed` fires, independently, exactly when its value changed, and nothing else fires. |
| `Mixer.ReactRaises` | mopidy_pulsemixer/mixer.py:126 | For a relevant event on a sink with no channels, the volume read raises `IndexError`. Nothing is assigned and nothing fires, because the tuple's right-hand side is evaluated before any assignment. |
| `Mixer.ReactTwiceFiresOnce` | mopidy_pulsemixer/mixer.py:126-133 | After a relevant event has been handled, a second relevant event on the same sink fires nothing and keeps the last-seen values. |
| `Mixer.Replay` | mopidy_pulsemixer/mixer.py:121-133 | The handler applied to each event of a run in turn. A run raises notifications only if one of its events is relevant. |
| `Mixer.ReplayOnSnapshot` | mopidy_pulsemixer/mixer.py:121-133 | This covers a run of handler calls with no setter call in between, on a held sink that is never re-fetched. The notifications are those of the first relevant event, and the last-seen values end as the current reads. If no event is relevant, or the volume read raises, nothing fires and the values stay as they were. |
| `Mixer.RunNotifiesEachAtMostOnce` | mopidy_pulsemixer/mixer.py:121-133 | Over any run of events, from any last-seen values, at most one volume notification and at most one mute notification are raised. |
| `Pulse.Names` | mopidy_pulsemixer/mixer.py:43 | The sink names listed in the error message are those of the listed sinks, in list order. |
| `Pulse.WithAllChannels` | mopidy_pulsemixer/mixer.py:69 | This is the sink that `volume_set_all_chans` asks for. Every channel is at the given level. The channel count, name, index and mute flag are unchanged. |

## Left out

- `PulseMixerObserver` and `on_start` (mopidy_pulsemixer/mixer.py:51-54, 135-154) are left out. They are a daemon thread that blocks on the server's event loop. That is concurrency and waiting, which this model does not cover. The handler is instead modelled as one call per event. `Replay` gives the effect of a run of events.
- The pulsectl client library is not part of this model. `Pulse(...)`, `sink_list`, `volume_set_all_chans` and `mute` become the sink list parameter and the ghost call log. The model assumes these calls do not alter the held snapshot. Whatever the library does to its argument objects is not captured.
- `PulseMixer.SetMute` logs the single argument that the code passes to the library's `mute` call. That call names no sink. What the library does with that argument is not modelled.
- The host callbacks `trigger_volume_changed` and `trigger_mute_changed`, and the actor and mixer base classes, are reduced to appends to the ghost notification log.
- The `tmp` string (mopidy_pulsemixer/mixer.py:72-107) is left out. It is dead code inside a string literal. The `min_volume`, `max_volume` and `volume_scale` settings (mopidy_pulsemixer/mixer.py:28-30) are used only there, so they are left out too.
- Channel levels are exact reals, not IEEE doubles. The rounding of `channels[0] * 100.0` is not modelled. So `SetThenReadVolume` holds on exact arithmetic only.
- Logging and message formatting (mopidy_pulsemixer/mixer.py:39-44, 47-49, 63) are left out. The `MixerError` carries the configured name and the list of available names instead of the formatted text.
- mopidy_pulsemixer/__init__.py (extension registration, config schema) and setup.py (packaging) are not part of this model.
