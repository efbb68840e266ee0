/** The part of the audio-server client library that the mixer sees: the
    sinks it lists, the events it delivers and the calls the mixer issues.
    The library itself is not part of this model. */
module Pulse {

  /** A sink as the server lists it: its name, the index the server assigned,
      one volume level per channel (1.0 is 100%) and the mute flag, which the
      library reports as an integer. */
  datatype Sink = Sink(name: string, index: nat, channels: seq<real>, mute: int)

  /** A server event: the index of the object it concerns and its type tag
      ("new", "change", "remove", ...). */
  datatype Event = Event(index: nat, t: string)

  /** A state-changing call the mixer issues to the server. `Mute` records the
      single argument the mixer passes to the library's `mute` call. */
  datatype ServerCall =
    | VolumeSetAllChans(sink: Sink, level: real)
    | Mute(arg: bool)

  /** The names of the listed sinks, in list order. */
  function Names(sinks: seq<Sink>): (names: seq<string>)
    ensures |names| == |sinks|
    ensures forall i :: 0 <= i < |sinks| ==> names[i] == sinks[i].name
  {
    if sinks == [] then [] else [sinks[0].name] + Names(sinks[1..])
  }

  /** `s` with every channel set to `level`: what setting all channels asks
      the server to make of the sink. */
  function WithAllChannels(s: Sink, level: real): (t: Sink)
    ensures t.name == s.name && t.index == s.index && t.mute == s.mute
    ensures |t.channels| == |s.channels|
    ensures forall i :: 0 <= i < |t.channels| ==> t.channels[i] == level
  {
    s.(channels := seq(|s.channels|, _ => level))
  }
}
