/** The live parameter set (the `params` object of the app state) and its keys.
    A dynamic `{ ...prev, [key]: value }` update becomes Set over a key enum. */
module Params {

  datatype ParamKey =
    | Volume | Color | BassBoost | HighCut | SpeechMask | Presence
    | FletcherMunson | Resonance | Stereo | AmpMod | ModDepth | ModSpeed

  /** A parameter value: the sliders store integers (they pass `parseInt`), the
      switches store booleans. */
  datatype ParamValue = Num(n: int) | Flag(b: bool)

  datatype ParamSet = ParamSet(
    volume: int,          // percent; target gain = volume / 100
    color: int,           // coloring coefficient in thousandths
    bassBoost: int,       // dB, low shelf at 150 Hz
    highCut: int,         // Hz, low-pass cutoff
    speechMask: int,      // dB, peaking at 375 Hz
    presence: int,        // dB, peaking at 3000 Hz
    fletcherMunson: bool,
    resonance: bool,
    stereo: int,
    ampMod: bool,
    modDepth: int,
    modSpeed: int)

  /** The three keys that hold booleans (the ones the switches toggle). */
  predicate IsFlagKey(k: ParamKey) {
    k == FletcherMunson || k == Resonance || k == AmpMod
  }

  /** A value of the kind the key stores. */
  predicate Fits(k: ParamKey, v: ParamValue) {
    v.Flag? == IsFlagKey(k)
  }

  /** `params[k]`. */
  function Get(p: ParamSet, k: ParamKey): (v: ParamValue)
    ensures Fits(k, v)
  {
    match k
    case Volume => Num(p.volume)
    case Color => Num(p.color)
    case BassBoost => Num(p.bassBoost)
    case HighCut => Num(p.highCut)
    case SpeechMask => Num(p.speechMask)
    case Presence => Num(p.presence)
    case FletcherMunson => Flag(p.fletcherMunson)
    case Resonance => Flag(p.resonance)
    case Stereo => Num(p.stereo)
    case AmpMod => Flag(p.ampMod)
    case ModDepth => Num(p.modDepth)
    case ModSpeed => Num(p.modSpeed)
  }

  /** `{ ...p, [k]: v }`: key k reads v afterwards, every other key reads as before. */
  function Set(p: ParamSet, k: ParamKey, v: ParamValue): (r: ParamSet)
    requires Fits(k, v)
    ensures forall j :: Get(r, j) == if j == k then v else Get(p, j)
  {
    ParamSet(
      if k == Volume then v.n else p.volume,
      if k == Color then v.n else p.color,
      if k == BassBoost then v.n else p.bassBoost,
      if k == HighCut then v.n else p.highCut,
      if k == SpeechMask then v.n else p.speechMask,
      if k == Presence then v.n else p.presence,
      if k == FletcherMunson then v.b else p.fletcherMunson,
      if k == Resonance then v.b else p.resonance,
      if k == Stereo then v.n else p.stereo,
      if k == AmpMod then v.b else p.ampMod,
      if k == ModDepth then v.n else p.modDepth,
      if k == ModSpeed then v.n else p.modSpeed)
  }

  /** Two parameter sets that read alike on every key are the same set. */
  lemma GetDetermines(p: ParamSet, q: ParamSet)
    requires forall k :: Get(p, k) == Get(q, k)
    ensures p == q
  {
    assert Get(p, Volume) == Get(q, Volume) && Get(p, Color) == Get(q, Color);
    assert Get(p, BassBoost) == Get(q, BassBoost) && Get(p, HighCut) == Get(q, HighCut);
    assert Get(p, SpeechMask) == Get(q, SpeechMask) && Get(p, Presence) == Get(q, Presence);
    assert Get(p, FletcherMunson) == Get(q, FletcherMunson) && Get(p, Resonance) == Get(q, Resonance);
    assert Get(p, Stereo) == Get(q, Stereo) && Get(p, AmpMod) == Get(q, AmpMod);
    assert Get(p, ModDepth) == Get(q, ModDepth) && Get(p, ModSpeed) == Get(q, ModSpeed);
  }
}
