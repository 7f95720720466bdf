/** The audio engine hook: builds the node set once, wires the filter chain
    on every start, fades the master gain, and tears the source down.
    React refs become the fields of AudioEngine; the audio clock (`now`), the
    instantaneous gain the device reports (`current`) and the device itself
    are parameters; pending `setTimeout` callbacks are the `pending` field,
    run in whatever order the caller picks. */
module Engine {
  import opened Wrappers
  import opened Params
  import opened AudioNodes

  datatype ContextState = Suspended | Running

  /** The device-level AudioContext: its sample rate and run state. */
  datatype AudioContext = AudioContext(sampleRate: nat, state: ContextState)

  /** A position in the signal path. */
  datatype Stage =
    | SourceStage | BassStage | HighCutStage | SpeechMaskStage | PresenceStage
    | ResonanceStage(index: nat) | CompressorStage | GainStage | AnalyserStage | DestinationStage

  /** One `a.connect(b)`. */
  datatype Link = Link(from: Stage, to: Stage)

  /** A pending `setTimeout` callback and its delay in milliseconds. */
  datatype Callback =
    | FadeEnd(afterMs: real)     // setIsFading(false)
    | Teardown(afterMs: real)    // stop and drop the source, if there is one

  /** The filter, compressor and analyser nodes `initAudio` creates, each
      held by its own ref in the hook; they are created together and only the
      live-update effects change them afterwards. */
  datatype NodeSet = NodeSet(
    analyser: Analyser, bass: Biquad, highCut: Biquad, speechMask: Biquad,
    presence: Biquad, compressor: Compressor, resonance: seq<Biquad>)

  // Web Audio's defaults for a BiquadFilterNode field the code never sets.
  const DefaultQ: real := 1.0
  const DefaultGain: real := 0.0

  const ResonanceCount: nat := 3
  const BufferSeconds: nat := 60

  /** The i-th resonance peak: 200 + 400 i Hz, Q 0.7, +1.5 dB. */
  function ResonanceFilter(i: nat): Biquad {
    Biquad(Peaking, 200.0 + 400.0 * i as real, 0.7, 1.5)
  }

  function BassFilter(p: ParamSet): Biquad { Biquad(LowShelf, 150.0, DefaultQ, p.bassBoost as real) }
  function HighCutFilter(p: ParamSet): Biquad { Biquad(LowPass, p.highCut as real, 0.7, DefaultGain) }
  function SpeechMaskFilter(p: ParamSet): Biquad { Biquad(Peaking, 375.0, 1.5, p.speechMask as real) }
  function PresenceFilter(p: ParamSet): Biquad { Biquad(Peaking, 3000.0, 1.2, p.presence as real) }
  const FixedCompressor: Compressor := Compressor(-24.0, 30.0, 3.0, 0.003, 0.25)
  const FixedAnalyser: Analyser := Analyser(4096, 0.8)

  function ResonanceStages(n: nat): (r: seq<Stage>)
    ensures |r| == n && forall i :: 0 <= i < n ==> r[i] == ResonanceStage(i)
  {
    seq(n, i requires 0 <= i => ResonanceStage(i))
  }

  /** The stages `startAudio` connects before the resonance peaks. */
  const Front: seq<Stage> := [SourceStage, BassStage, HighCutStage, SpeechMaskStage, PresenceStage]
  /** The stages it connects after them. */
  const Back: seq<Stage> := [CompressorStage, GainStage, AnalyserStage, DestinationStage]

  /** The order of the signal path: the n resonance stages sit between the
      presence filter and the compressor, and only when resonance is on. */
  function ChainOrder(resonanceOn: bool, n: nat): seq<Stage> {
    Front + (if resonanceOn then ResonanceStages(n) else []) + Back
  }

  /** `links` connects the stages of `order` pairwise, in order. */
  predicate Links(links: seq<Link>, order: seq<Stage>) {
    |order| == |links| + 1 && forall i :: 0 <= i < |links| ==> links[i] == Link(order[i], order[i + 1])
  }

  /** Connecting the last stage of a path to one more stage extends it. */
  lemma LinksExtend(links: seq<Link>, order: seq<Stage>, next: Stage)
    requires Links(links, order)
    ensures Links(links + [Link(order[|order| - 1], next)], order + [next])
  {
  }

  /** A resonance stage lies on the path exactly when resonance is on. */
  lemma ResonanceOnPathIff(resonanceOn: bool, n: nat, i: nat)
    requires i < n
    ensures ResonanceStage(i) in ChainOrder(resonanceOn, n) <==> resonanceOn
  {
    var order := ChainOrder(resonanceOn, n);
    if resonanceOn {
      assert order[|Front| + i] == ResonanceStage(i);
    } else {
      assert order == Front + Back;
    }
  }

  /** Exactly the resonance peaks at 200, 600 and 1000 Hz. */
  predicate IsResonanceBank(bank: seq<Biquad>) {
    |bank| == ResonanceCount && forall i :: 0 <= i < ResonanceCount ==> bank[i] == ResonanceFilter(i)
  }

  /** The loop of `initAudio` that pushes the resonance filters. */
  method ResonanceBank() returns (bank: seq<Biquad>)
    ensures IsResonanceBank(bank)
    ensures bank[0].frequency == 200.0 && bank[1].frequency == 600.0 && bank[2].frequency == 1000.0
  {
    bank := [];
    var i := 0;
    while i < 3
      invariant 0 <= i <= 3 && |bank| == i
      invariant forall j :: 0 <= j < i ==> bank[j] == ResonanceFilter(j)
    {
      bank := bank + [Biquad(Peaking, 200.0 + 400.0 * i as real, 0.7, 1.5)];
      i := i + 1;
    }
  }

  /** The `currentNode` walk of `startAudio`: each node is connected to the
      next, the resonance filters of `bank` in between only when resonance is on. */
  method ConnectChain(resonanceOn: bool, bank: seq<Biquad>) returns (links: seq<Link>)
    ensures Links(links, ChainOrder(resonanceOn, |bank|))
  {
    var current;
    links, current := ConnectFront();
    ghost var onPath := if resonanceOn then ResonanceStages(|bank|) else [];
    if resonanceOn {
      links, current := ConnectResonance(links, current, |bank|);
    }
    links := ConnectBack(links, Front + onPath, current);
  }

  /** The fixed head of the walk: source, bass, high-cut, speech mask, presence. */
  method ConnectFront() returns (links: seq<Link>, current: Stage)
    ensures Links(links, Front) && current == PresenceStage
  {
    current := SourceStage;
    links := [];
    ghost var path := [SourceStage];
    var fixed := [BassStage, HighCutStage, SpeechMaskStage, PresenceStage];
    for k := 0 to |fixed|
      invariant path == Front[..k + 1] && Links(links, path) && current == path[|path| - 1]
    {
      LinksExtend(links, path, fixed[k]);
      links := links + [Link(current, fixed[k])];
      current := fixed[k];
      path := path + [fixed[k]];
    }
  }

  /** The loop over the resonance filters, each connected after the current node. */
  method ConnectResonance(links0: seq<Link>, current0: Stage, n: nat) returns (links: seq<Link>, current: Stage)
    requires Links(links0, Front) && current0 == PresenceStage
    ensures Links(links, Front + ResonanceStages(n)) && current == (Front + ResonanceStages(n))[|Front| + n - 1]
  {
    links, current := links0, current0;
    ghost var path := Front;
    for i := 0 to n
      invariant path == Front + ResonanceStages(i) && Links(links, path)
      invariant current == path[|path| - 1]
    {
      LinksExtend(links, path, ResonanceStage(i));
      links := links + [Link(current, ResonanceStage(i))];
      current := ResonanceStage(i);
      path := path + [ResonanceStage(i)];
    }
  }

  /** The fixed tail of the walk: compressor, gain, analyser, destination. */
  method ConnectBack(links0: seq<Link>, ghost path: seq<Stage>, current: Stage) returns (links: seq<Link>)
    requires Links(links0, path) && current == path[|path| - 1]
    ensures Links(links, path + Back)
  {
    LinksExtend(links0, path, CompressorStage);
    links := links0 + [Link(current, CompressorStage)];
    LinksExtend(links, path + [CompressorStage], GainStage);
    links := links + [Link(CompressorStage, GainStage)];
    LinksExtend(links, path + [CompressorStage, GainStage], AnalyserStage);
    links := links + [Link(GainStage, AnalyserStage)];
    LinksExtend(links, path + [CompressorStage, GainStage, AnalyserStage], DestinationStage);
    links := links + [Link(AnalyserStage, DestinationStage)];
    assert path + [CompressorStage] + [GainStage] == path + [CompressorStage, GainStage];
    assert path + [CompressorStage, GainStage] + [AnalyserStage] == path + [CompressorStage, GainStage, AnalyserStage];
    assert path + [CompressorStage, GainStage, AnalyserStage] + [DestinationStage] == path + Back;
  }

  class AudioEngine {
    var context: Option<AudioContext>
    var nodes: Option<NodeSet>
    var gain: Option<Param>
    var source: Option<Source>
    var chain: seq<Link>          // the connections made by the latest start
    var targetVolume: real
    var isFading: bool            // written through setIsFading
    var pending: seq<Callback>
    var playing: set<nat>         // ids of sources started and not yet stopped
    var nextId: nat               // id the next source gets

    ghost predicate Valid()
      reads this
    {
      && (context.None? <==> nodes.None?)
      && (context.None? <==> gain.None?)
      && (nodes.Some? ==> |nodes.value.resonance| == ResonanceCount)
      && (context.None? ==> source.None?)
      && (source.Some? ==> source.value.id < nextId)
      && (forall id :: id in playing ==> id < nextId)
    }

    /** The refs as the hook creates them: nothing but the target volume. */
    constructor (volume: int)
      ensures Valid()
      ensures context.None? && source.None? && chain == [] && pending == [] && playing == {} && nextId == 0
      ensures targetVolume == volume as real / 100.0 && !isFading
    {
      context, nodes, gain := None, None, None;
      source, chain := None, [];
      targetVolume := volume as real / 100.0;
      isFading, pending, playing, nextId := false, [], {}, 0;
    }

    /** `initAudio()`: the first call creates every node from the parameters;
        once the context exists a call changes nothing. */
    method InitAudio(p: ParamSet, device: AudioContext)
      requires Valid()
      modifies this`context, this`nodes, this`gain
      ensures Valid() && context.Some?
      ensures old(context).Some? ==> context == old(context) && nodes == old(nodes) && gain == old(gain)
      ensures old(context).None? ==>
        && context == Some(device)
        && nodes == Some(NodeSet(FixedAnalyser, BassFilter(p), HighCutFilter(p), SpeechMaskFilter(p),
             PresenceFilter(p), FixedCompressor, nodes.value.resonance))
        && IsResonanceBank(nodes.value.resonance)
        && gain == Some(Param(p.volume as real / 100.0, []))
    {
      if context.None? {
        var bank := ResonanceBank();
        context := Some(device);
        nodes := Some(NodeSet(
          Analyser(4096, 0.8),
          Biquad(LowShelf, 150.0, DefaultQ, p.bassBoost as real),
          Biquad(LowPass, p.highCut as real, 0.7, DefaultGain),
          Biquad(Peaking, 375.0, 1.5, p.speechMask as real),
          Biquad(Peaking, 3000.0, 1.2, p.presence as real),
          Compressor(-24.0, 30.0, 3.0, 0.003, 0.25),
          bank));
        gain := Some(Param(p.volume as real / 100.0, []));
      }
    }

    /** `fadeVolume(target, duration)`: with no gain node nothing happens;
        otherwise every scheduled change from now on is cancelled, the ramp is
        pinned at the value the device reports now, and a linear ramp reaches
        the target after `duration` seconds; isFading is set and a callback
        that clears it is scheduled. */
    method FadeVolume(target: real, duration: real, now: real, current: real)
      requires Valid()
      modifies this`gain, this`isFading, this`pending
      ensures Valid()
      ensures old(gain).None? ==> gain == old(gain) && isFading == old(isFading) && pending == old(pending)
      ensures old(gain).Some? ==>
        && gain == Some(Param(old(gain).value.value,
             CancelFrom(old(gain).value.events, now) + [SetValueAt(current, now), RampTo(target, now + duration)]))
        && isFading && pending == old(pending) + [FadeEnd(duration * 1000.0)]
    {
      if gain.Some? {
        isFading := true;
        var kept := CancelFrom(gain.value.events, now);
        var events := kept + [SetValueAt(current, now)];
        events := events + [RampTo(target, now + duration)];
        assert events == kept + [SetValueAt(current, now), RampTo(target, now + duration)];
        gain := Some(gain.value.(events := events));
        pending := pending + [FadeEnd(duration * 1000.0)];
      }
    }

    /** The first half of `startAudio()`: resumes a suspended context and
        creates and starts a looping source over a fresh 2-channel buffer of
        60 seconds at the context's rate. */
    method StartSource()
      requires Valid() && context.Some?
      modifies this`context, this`source, this`playing, this`nextId
      ensures Valid()
      ensures context == Some(old(context).value.(state := Running))
      ensures source == Some(Source(old(nextId),
        BufferShape(2, old(context).value.sampleRate * BufferSeconds, old(context).value.sampleRate), true))
      ensures playing == old(playing) + {old(nextId)} && nextId == old(nextId) + 1
    {
      if context.value.state == Suspended {
        context := Some(context.value.(state := Running));
      }
      var rate := context.value.sampleRate;
      var id := nextId;
      nextId := nextId + 1;
      source := Some(Source(id, BufferShape(2, rate * BufferSeconds, rate), true));
      playing := playing + {id};
    }

    /** `startAudio()`: starts a new source (StartSource), wires the chain,
        pins the gain at 0 and fades to the target volume over 3 s. The pin
        and the fade read the audio clock separately (`pinAt`, then `now`);
        the clock never runs backwards. */
    method StartAudio(p: ParamSet, pinAt: real, now: real, current: real)
      requires Valid() && context.Some? && pinAt <= now
      modifies this`context, this`source, this`playing, this`nextId, this`chain, this`gain,
        this`isFading, this`pending
      ensures Valid()
      ensures context == Some(old(context).value.(state := Running))
      ensures source == Some(Source(old(nextId),
        BufferShape(2, old(context).value.sampleRate * BufferSeconds, old(context).value.sampleRate), true))
      ensures playing == old(playing) + {old(nextId)} && nextId == old(nextId) + 1
      ensures Links(chain, ChainOrder(p.resonance, ResonanceCount))
      ensures gain == Some(Param(old(gain).value.value,
        CancelFrom(old(gain).value.events, now)
        + (if pinAt < now then [SetValueAt(0.0, pinAt)] else [])
        + [SetValueAt(current, now), RampTo(old(targetVolume), now + 3.0)]))
      ensures isFading && pending == old(pending) + [FadeEnd(3000.0)]
      ensures targetVolume == old(targetVolume) && nodes == old(nodes)
    {
      StartSource();
      chain := ConnectChain(p.resonance, nodes.value.resonance);
      FadeIn(pinAt, now, current);
    }

    /** The fade-in of `startAudio`: pin the gain at 0 at the clock reading
        `pinAt`, then fade to the target over 3 s from the later reading
        `now`. The fade cancels everything from `now` on: when both readings
        agree the pin goes too and the ramp starts from the reported gain;
        when the clock has moved on in between, the pin stays before it. */
    method FadeIn(pinAt: real, now: real, current: real)
      requires Valid() && gain.Some? && pinAt <= now
      modifies this`gain, this`isFading, this`pending
      ensures Valid()
      ensures gain == Some(Param(old(gain).value.value,
        CancelFrom(old(gain).value.events, now)
        + (if pinAt < now then [SetValueAt(0.0, pinAt)] else [])
        + [SetValueAt(current, now), RampTo(targetVolume, now + 3.0)]))
      ensures isFading && pending == old(pending) + [FadeEnd(3000.0)]
    {
      ghost var before := gain.value.events;
      PinGain(0.0, pinAt);
      PinSurvivesIffClockMoved(before, pinAt, now);
      FadeVolume(targetVolume, 3.0, now, current);
    }

    /** `gain.setValueAtTime(value, now)`. */
    method PinGain(value: real, now: real)
      requires Valid() && gain.Some?
      modifies this`gain
      ensures Valid()
      ensures gain == Some(old(gain).value.(events := old(gain).value.events + [SetValueAt(value, now)]))
    {
      gain := Some(gain.value.(events := gain.value.events + [SetValueAt(value, now)]));
    }

    /** `stopAudio(immediate)`: with no source nothing happens; an immediate
        stop drops the source at once; otherwise the gain fades to 0 over 2 s
        and a teardown is scheduled for 2000 ms later. */
    method StopAudio(immediate: bool, now: real, current: real)
      requires Valid()
      modifies this`source, this`playing, this`gain, this`isFading, this`pending
      ensures Valid()
      ensures old(source).None? ==> unchanged(this)
      ensures old(source).Some? && immediate ==>
        && source.None? && playing == old(playing) - {old(source).value.id}
        && gain == old(gain) && pending == old(pending) && isFading == old(isFading)
      ensures old(source).Some? && !immediate ==>
        && source == old(source) && playing == old(playing)
        && gain == Some(Param(old(gain).value.value,
             CancelFrom(old(gain).value.events, now) + [SetValueAt(current, now), RampTo(0.0, now + 2.0)]))
        && isFading && pending == old(pending) + [FadeEnd(2000.0), Teardown(2000.0)]
    {
      if source.Some? {
        if immediate {
          playing := playing - {source.value.id};
          source := None;
        } else {
          FadeVolume(0.0, 2.0, now, current);
          pending := pending + [Teardown(2000.0)];
        }
      }
    }

    /** Runs the i-th pending callback and removes it from the queue. The
        teardown stops whatever source is current when it runs. */
    method RunCallback(i: nat)
      requires Valid() && i < |pending|
      modifies this`pending, this`isFading, this`source, this`playing
      ensures Valid()
      ensures pending == old(pending[..i] + pending[i + 1..])
      ensures old(pending[i]).FadeEnd? ==> !isFading && source == old(source) && playing == old(playing)
      ensures old(pending[i]).Teardown? ==>
        && isFading == old(isFading) && source.None?
        && playing == (if old(source).Some? then old(playing) - {old(source).value.id} else old(playing))
    {
      var c := pending[i];
      pending := pending[..i] + pending[i + 1..];
      match c
      case FadeEnd(_) =>
        isFading := false;
      case Teardown(_) =>
        if source.Some? {
          playing := playing - {source.value.id};
          source := None;
        }
    }

    /** The live-update effect for speechMask: only that filter's gain moves. */
    method UpdateSpeechMask(db: int)
      requires Valid()
      modifies this`nodes
      ensures Valid()
      ensures nodes == if old(nodes).Some? then
        Some(old(nodes).value.(speechMask := old(nodes).value.speechMask.(gain := db as real))) else None
    {
      if nodes.Some? {
        nodes := Some(nodes.value.(speechMask := nodes.value.speechMask.(gain := db as real)));
      }
    }

    /** The live-update effect for presence. */
    method UpdatePresence(db: int)
      requires Valid()
      modifies this`nodes
      ensures Valid()
      ensures nodes == if old(nodes).Some? then
        Some(old(nodes).value.(presence := old(nodes).value.presence.(gain := db as real))) else None
    {
      if nodes.Some? {
        nodes := Some(nodes.value.(presence := nodes.value.presence.(gain := db as real)));
      }
    }

    /** The live-update effect for bassBoost. */
    method UpdateBassBoost(db: int)
      requires Valid()
      modifies this`nodes
      ensures Valid()
      ensures nodes == if old(nodes).Some? then
        Some(old(nodes).value.(bass := old(nodes).value.bass.(gain := db as real))) else None
    {
      if nodes.Some? {
        nodes := Some(nodes.value.(bass := nodes.value.bass.(gain := db as real)));
      }
    }

    /** The live-update effect for highCut: only the low-pass frequency moves. */
    method UpdateHighCut(hz: int)
      requires Valid()
      modifies this`nodes
      ensures Valid()
      ensures nodes == if old(nodes).Some? then
        Some(old(nodes).value.(highCut := old(nodes).value.highCut.(frequency := hz as real))) else None
    {
      if nodes.Some? {
        nodes := Some(nodes.value.(highCut := nodes.value.highCut.(frequency := hz as real)));
      }
    }

    /** The effect on volume: the target follows volume / 100 only while it is
        non-zero (truthy), so once it is 0 it stays 0. */
    method SyncTargetVolume(volume: int)
      requires Valid()
      modifies this`targetVolume
      ensures Valid()
      ensures old(targetVolume) == 0.0 ==> targetVolume == 0.0
      ensures old(targetVolume) != 0.0 ==> targetVolume == volume as real / 100.0
    {
      if targetVolume != 0.0 {
        targetVolume := volume as real / 100.0;
      }
    }
  }

  /** The zero pin of `startAudio` at clock reading `pinAt` survives the
      fade's cancellation from the later reading `now` exactly when the
      clock moved on between the two reads. */
  lemma PinSurvivesIffClockMoved(before: seq<Event>, pinAt: real, now: real)
    requires pinAt <= now
    ensures CancelFrom(before + [SetValueAt(0.0, pinAt)], now)
      == CancelFrom(before, now) + (if pinAt < now then [SetValueAt(0.0, pinAt)] else [])
  {
    if pinAt < now {
      CancelSnoc(before, SetValueAt(0.0, pinAt), now);
    } else {
      CancelDropsEventAt(before, SetValueAt(0.0, pinAt), now);
    }
  }

  /** Play, pause (stop with fade) and play again before the 2000 ms teardown
      runs: the teardown stops the new source, and the first one, which is
      still started, is no longer referenced, so a later stop request finds no
      source and stops nothing. */
  method RestartBeforeTeardown(p: ParamSet, device: AudioContext, t1: real, t2: real, t3: real, current: real)
    returns (stillPlaying: set<nat>, hasSource: bool)
    ensures stillPlaying == {0} && !hasSource
  {
    var e := PlayThenPause(p, device, t1, t2, current);
    e.StartAudio(p, t3, t3, current);
    assert e.playing == {0, 1} && e.source.value.id == 1 && e.pending[2] == Teardown(2000.0);
    e.RunCallback(2);
    assert e.playing == {0} && e.source.None?;
    e.StopAudio(false, t3, current);
    stillPlaying, hasSource := e.playing, e.source.Some?;
  }

  /** A fresh engine after one play and one fading stop: source 0 still plays
      and its teardown is the third pending callback. */
  method PlayThenPause(p: ParamSet, device: AudioContext, t1: real, t2: real, current: real)
    returns (e: AudioEngine)
    ensures fresh(e) && e.Valid() && e.context.Some?
    ensures e.playing == {0} && e.source.Some? && e.source.value.id == 0 && e.nextId == 1
    ensures |e.pending| == 3 && e.pending[2] == Teardown(2000.0)
  {
    e := new AudioEngine(p.volume);
    e.InitAudio(p, device);
    e.StartAudio(p, t1, t1, current);
    assert e.playing == {0} && e.pending == [FadeEnd(3000.0)];
    e.StopAudio(false, t2, current);
  }
}
