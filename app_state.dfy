/** The shared application state and its reducers (the context provider).
    Every action is a functional update of one record and one sequence;
    the `localStorage` mirroring of favourites is not modelled. */
module AppState {
  import opened Wrappers
  import opened Params
  import Text

  datatype Timer = Timer(active: bool, remaining: int, duration: int)

  datatype Favorite = Favorite(name: string, params: ParamSet, timestamp: int)

  datatype State = State(
    isPlaying: bool,
    currentPreset: string,
    showAdvanced: bool,
    isFading: bool,
    params: ParamSet,
    timer: Timer,
    favorites: seq<Favorite>)

  /** The preset table, whose contents are not part of this model. */
  type Presets = map<string, ParamSet>

  const CustomKey: string := "custom"
  const DefaultPresetKey: string := "deepFocus"

  /** The state the provider starts with; reading `presets.deepFocus.params`
      throws when the table has no such entry. */
  function Initial(presets: Presets): (r: Result<State>)
    ensures r.Ok? <==> DefaultPresetKey in presets
    ensures r.Ok? ==>
      && !r.value.isPlaying && !r.value.showAdvanced && !r.value.isFading
      && r.value.currentPreset == DefaultPresetKey
      && r.value.params == presets[DefaultPresetKey]
      && r.value.timer == Timer(false, 0, 30)
      && r.value.favorites == []
  {
    if DefaultPresetKey in presets then
      Ok(State(false, DefaultPresetKey, false, false, presets[DefaultPresetKey], Timer(false, 0, 30), []))
    else
      Err(UndefinedLookup(DefaultPresetKey))
  }

  /** `loadPreset(key)`: "custom" only relabels; any other key replaces the
      parameters with the preset's, and a key missing from the table throws
      before anything is set. */
  function LoadPreset(s: State, presets: Presets, key: string): (r: Result<State>)
    ensures key == CustomKey ==> r == Ok(s.(currentPreset := CustomKey))
    ensures key != CustomKey && key !in presets ==> r.Err?
    ensures key != CustomKey && key in presets ==>
      r.Ok? && r.value.params == presets[key] && r.value.currentPreset == key
      && r.value == s.(params := presets[key], currentPreset := key)
  {
    if key == CustomKey then Ok(s.(currentPreset := CustomKey))
    else if key !in presets then Err(UndefinedLookup(key))
    else Ok(s.(params := presets[key], currentPreset := key))
  }

  /** `updateParam(k, v)`: only key k changes, to v, and the preset becomes "custom". */
  function UpdateParam(s: State, k: ParamKey, v: ParamValue): (r: State)
    requires Fits(k, v)
    ensures Get(r.params, k) == v
    ensures forall j :: j != k ==> Get(r.params, j) == Get(s.params, j)
    ensures r.currentPreset == CustomKey
    ensures r == s.(params := r.params, currentPreset := CustomKey)
  {
    s.(params := Set(s.params, k, v), currentPreset := CustomKey)
  }

  /** `toggleParam(k)` on a switch: only key k changes, to its negation. */
  function ToggleParam(s: State, k: ParamKey): (r: State)
    requires IsFlagKey(k)
    ensures Get(r.params, k) == Flag(!Get(s.params, k).b)
    ensures forall j :: j != k ==> Get(r.params, j) == Get(s.params, j)
    ensures r == s.(params := r.params, currentPreset := CustomKey)
  {
    s.(params := Set(s.params, k, Flag(!Get(s.params, k).b)), currentPreset := CustomKey)
  }

  /** `cancelTimer()`: inactive, nothing remaining, duration kept. */
  function CancelTimer(s: State): (r: State)
    ensures !r.timer.active && r.timer.remaining == 0
    ensures r.timer.duration == s.timer.duration
    ensures r == s.(timer := r.timer)
  {
    s.(timer := Timer(false, 0, s.timer.duration))
  }

  /** The name given to the n-th saved favourite: "Custom n". */
  function FavoriteName(n: nat): (name: string)
    ensures |name| > 7 && name[..7] == "Custom "
    ensures Text.AllDigits(name[7..]) && Text.ParseNat(name[7..]) == n
  {
    Text.ParseNatToString(n);
    var name := "Custom " + Text.NatToString(n);
    assert name[7..] == Text.NatToString(n);
    name
  }

  /** `saveFavorite(now)`: appends exactly one entry, numbered one past the old
      length, holding a copy of the current parameters; earlier entries stay. */
  function SaveFavorite(s: State, now: int): (r: State)
    ensures |r.favorites| == |s.favorites| + 1
    ensures r.favorites[..|s.favorites|] == s.favorites
    ensures r.favorites[|s.favorites|] ==
      Favorite(FavoriteName(|s.favorites| + 1), s.params, now)
    ensures r == s.(favorites := r.favorites)
  {
    s.(favorites := s.favorites + [Favorite(FavoriteName(|s.favorites| + 1), s.params, now)])
  }

  /** `xs.filter((_, i) => i !== index)`, element by element: the entry at
      `index` is dropped, the others keep their order; an index outside the
      sequence drops nothing. */
  function Without<T>(xs: seq<T>, index: int): (r: seq<T>)
    ensures 0 <= index < |xs| ==> r == xs[..index] + xs[index + 1..]
    ensures !(0 <= index < |xs|) ==> r == xs
    decreases |xs|
  {
    if xs == [] then []
    else
      var rest := Without(xs[1..], index - 1);
      if index == 0 then
        assert xs[1..] == xs[..0] + xs[1..];
        rest
      else
        assert 0 < index < |xs| ==> [xs[0]] + xs[1..][..index - 1] == xs[..index];
        [xs[0]] + rest
  }

  /** `deleteFavorite(index)`. */
  function DeleteFavorite(s: State, index: int): (r: State)
    ensures 0 <= index < |s.favorites| ==>
      |r.favorites| == |s.favorites| - 1
      && (forall i :: 0 <= i < index ==> r.favorites[i] == s.favorites[i])
      && (forall i :: index <= i < |r.favorites| ==> r.favorites[i] == s.favorites[i + 1])
    ensures !(0 <= index < |s.favorites|) ==> r == s
    ensures r == s.(favorites := r.favorites)
  {
    s.(favorites := Without(s.favorites, index))
  }

  /** `loadFavorite(p)`: the parameters are replaced wholesale; the preset
      becomes "custom". */
  function LoadFavorite(s: State, p: ParamSet): (r: State)
    ensures forall k :: Get(r.params, k) == Get(p, k)
    ensures r == s.(params := p, currentPreset := CustomKey)
  {
    s.(params := p, currentPreset := CustomKey)
  }

  /** Toggling a switch twice restores the parameters. */
  lemma ToggleTwice(s: State, k: ParamKey)
    requires IsFlagKey(k)
    ensures ToggleParam(ToggleParam(s, k), k).params == s.params
  {
    var r := ToggleParam(ToggleParam(s, k), k);
    forall j ensures Get(r.params, j) == Get(s.params, j) {
    }
    GetDetermines(r.params, s.params);
  }

  /** Writing a key's current value back changes no parameter. */
  lemma UpdateSameValue(s: State, k: ParamKey)
    ensures UpdateParam(s, k, Get(s.params, k)).params == s.params
  {
    var r := UpdateParam(s, k, Get(s.params, k));
    forall j ensures Get(r.params, j) == Get(s.params, j) {
    }
    GetDetermines(r.params, s.params);
  }

  /** Deleting the entry just saved undoes the save. */
  lemma DeleteUndoesSave(s: State, now: int)
    ensures DeleteFavorite(SaveFavorite(s, now), |s.favorites|) == s
  {
  }

  /** Names are numbered by length, not by a counter: after two saves and the
      deletion of the first, the next save repeats the surviving name. */
  lemma SaveAfterDeleteRepeatsName(s: State, t1: int, t2: int, t3: int)
    requires s.favorites == []
    ensures
      var r := SaveFavorite(DeleteFavorite(SaveFavorite(SaveFavorite(s, t1), t2), 0), t3);
      |r.favorites| == 2 && r.favorites[0].name == r.favorites[1].name == FavoriteName(2)
  {
  }
}
