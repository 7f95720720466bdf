/** Web Audio nodes as plain records of the fields the code sets. Their signal
    processing (filter responses, compression, FFT, ramp interpolation) is
    not modelled. */
module AudioNodes {

  datatype FilterType = LowShelf | LowPass | Peaking

  /** A BiquadFilterNode: type, frequency (Hz), Q and gain (dB). */
  datatype Biquad = Biquad(kind: FilterType, frequency: real, q: real, gain: real)

  /** A DynamicsCompressorNode: threshold and knee in dB, ratio, attack and
      release in seconds. */
  datatype Compressor = Compressor(threshold: real, knee: real, ratio: real, attack: real, release: real)

  datatype Analyser = Analyser(fftSize: nat, smoothing: real)

  /** The shape of an AudioBuffer: channel count, frames per channel, rate. */
  datatype BufferShape = BufferShape(channels: nat, frames: nat, sampleRate: nat)

  /** An AudioBufferSourceNode. `id` tells apart the nodes created over time. */
  datatype Source = Source(id: nat, buffer: BufferShape, loop: bool)

  /** One scheduled change on an AudioParam's timeline. */
  datatype Event =
    | SetValueAt(value: real, time: real)
    | RampTo(value: real, endTime: real)   // linearRampToValueAtTime

  function EventTime(e: Event): real {
    match e
    case SetValueAt(_, t) => t
    case RampTo(_, t) => t
  }

  /** An AudioParam: the value last assigned through `.value`, and its timeline. */
  datatype Param = Param(value: real, events: seq<Event>)

  /** `cancelScheduledValues(t)`: drops every event at or after t and keeps the
      earlier ones in order. */
  function CancelFrom(events: seq<Event>, t: real): (r: seq<Event>)
    ensures forall i :: 0 <= i < |r| ==> EventTime(r[i]) < t && r[i] in events
    ensures forall e :: e in events && EventTime(e) < t ==> e in r
    ensures |r| <= |events|
    ensures (forall e :: e in events ==> EventTime(e) < t) ==> r == events
    decreases |events|
  {
    if events == [] then []
    else
      var rest := CancelFrom(events[..|events| - 1], t);
      var last := events[|events| - 1];
      assert forall e :: e in events ==> e in events[..|events| - 1] || e == last;
      assert events == events[..|events| - 1] + [last];
      if EventTime(last) < t then rest + [last] else rest
  }

  /** A single event survives exactly when it is earlier than t. */
  lemma CancelOne(e: Event, t: real)
    ensures CancelFrom([e], t) == if EventTime(e) < t then [e] else []
  {
    assert [e][..0] == [];
  }

  /** Appending one event appends it to the result exactly when it is
      earlier than t. */
  lemma CancelSnoc(events: seq<Event>, e: Event, t: real)
    ensures CancelFrom(events + [e], t)
      == CancelFrom(events, t) + (if EventTime(e) < t then [e] else [])
  {
    var all := events + [e];
    assert all[..|all| - 1] == events;
  }

  /** Cancelling splits over concatenation: each part keeps its own earlier
      events, in order. With CancelOne this fixes the result on every list. */
  lemma {:induction false} CancelAppend(a: seq<Event>, b: seq<Event>, t: real)
    ensures CancelFrom(a + b, t) == CancelFrom(a, t) + CancelFrom(b, t)
    decreases |b|
  {
    if b == [] {
      assert a + b == a;
    } else {
      var init := b[..|b| - 1];
      var last := b[|b| - 1];
      var tail := if EventTime(last) < t then [last] else [];
      assert b == init + [last];
      assert a + b == (a + init) + [last];
      CancelAppend(a, init, t);
      CancelSnoc(a + init, last, t);
      CancelSnoc(init, last, t);
      assert CancelFrom(a + b, t) == (CancelFrom(a, t) + CancelFrom(init, t)) + tail;
    }
  }

  /** Cancelling twice at the same time is cancelling once. */
  lemma {:induction false} CancelIdempotent(events: seq<Event>, t: real)
    ensures CancelFrom(CancelFrom(events, t), t) == CancelFrom(events, t)
    decreases |events|
  {
    if events != [] {
      var init := events[..|events| - 1];
      CancelIdempotent(init, t);
      var c := CancelFrom(init, t);
      var last := events[|events| - 1];
      if EventTime(last) < t {
        var cc := c + [last];
        assert cc[..|cc| - 1] == c;
      }
    }
  }

  /** An event scheduled at t itself does not survive a cancellation from t. */
  lemma CancelDropsEventAt(events: seq<Event>, e: Event, t: real)
    requires EventTime(e) == t
    ensures CancelFrom(events + [e], t) == CancelFrom(events, t)
  {
    var all := events + [e];
    assert all[..|all| - 1] == events;
  }
}
