/** The console equalizer screen (`ConsoleEqualizerView` in Equalizer.kt):
    five bands, a clear-bass value and the name of the active preset, updated
    by selecting a preset from the menu, by a band's fader and by the
    clear-bass fader. */
module Equalizer {
  import opened FaderMath
  import VerticalFader
  import ClearBassFader

  /** One band of the equalizer (`ConsoleBand`); `name` is its frequency
      label (`label` is a reserved word here) and `gain` is in dB. */
  datatype Band = Band(id: int, name: string, gain: real)

  /** The shipped presets (`EqPreset`), in menu order. */
  datatype EqPreset = Flat | BassBoost | Vibrant | Vocal
  {
    /** The name shown in the menu and, once selected, as the active name.
        No preset is called like the name a manual change shows. */
    function Title(): (t: string)
      ensures t != CustomName
    {
      match this
      case Flat => "Flat"
      case BassBoost => "Bass Boosted"
      case Vibrant => "Vibrant"
      case Vocal => "Voice / Spoken"
    }

    /** The preset's gain vector: one gain per band and a sixth entry for
        clear bass, all within the ranges their faders can produce. */
    function Gains(): (g: seq<real>)
      ensures |g| == 6
      ensures forall i :: 0 <= i < 5 ==> VerticalFader.MinGain <= g[i] <= VerticalFader.MaxGain
      ensures ClearBassFader.MinBass <= g[5] <= ClearBassFader.MaxBass
    {
      match this
      case Flat => [0.0, 0.0, 0.0, 0.0, 0.0, 0.0]
      case BassBoost => [8.0, 5.0, 0.0, 0.0, -2.0, 5.0]
      case Vibrant => [4.0, -2.0, -4.0, 3.0, 6.0, 8.0]
      case Vocal => [-5.0, -2.0, 5.0, 4.0, -3.0, 2.0]
    }
  }

  /** The name shown after a manual change to a band. */
  const CustomName: string := "Custom"

  /** The screen's equalizer state: the bands, the clear-bass value and the
      active preset name. */
  datatype EqState = EqState(bands: seq<Band>, clearBass: real, presetName: string)

  /** The state the screen starts in. */
  function InitialState(): EqState
  {
    EqState([Band(0, "400", 0.0), Band(1, "1k", 0.0), Band(2, "2.5k", 0.0),
             Band(3, "6.3k", 0.0), Band(4, "16k", 0.0)],
            0.0, "Flat")
  }

  /** Every value is one its fader can produce. */
  ghost predicate InRange(s: EqState)
  {
    && (forall i :: 0 <= i < |s.bands| ==>
          VerticalFader.MinGain <= s.bands[i].gain <= VerticalFader.MaxGain)
    && ClearBassFader.MinBass <= s.clearBass <= ClearBassFader.MaxBass
  }

  // ---------------------------------------------------------------------------
  // Preset application
  // ---------------------------------------------------------------------------

  /** The bands after writing `gains` into them index by index, in order,
      skipping every index past the last band: a band below both lengths
      takes the preset's gain, every other band keeps its gain, and no band
      changes its id or name (label). */
  function Overlay(bands: seq<Band>, gains: seq<real>): (r: seq<Band>)
    ensures |r| == |bands|
    ensures forall i :: 0 <= i < |bands| ==>
              && r[i].id == bands[i].id
              && r[i].name == bands[i].name
              && r[i].gain == (if i < |gains| then gains[i] else bands[i].gain)
    decreases |gains|
  {
    if gains == [] then bands
    else
      var index := |gains| - 1;
      var prior := Overlay(bands, gains[..index]);
      if index < |prior| then prior[index := prior[index].(gain := gains[index])] else prior
  }

  /** Selecting a preset with name `title` and gain vector `gains`. */
  function ApplyPreset(s: EqState, title: string, gains: seq<real>): EqState
  {
    EqState(Overlay(s.bands, gains), if |gains| > 5 then gains[5] else s.clearBass, title)
  }

  /** What selecting a preset does: the active name becomes the preset's
      name, each band below both lengths takes the preset's gain, every other
      band is left alone, and clear bass takes the sixth entry when there is
      one and is left alone otherwise. */
  lemma ApplyPresetEffect(s: EqState, title: string, gains: seq<real>)
    ensures var r := ApplyPreset(s, title, gains);
      && r.presetName == title
      && |r.bands| == |s.bands|
      && (forall i :: 0 <= i < |s.bands| ==>
            r.bands[i] == if i < |gains| then s.bands[i].(gain := gains[i]) else s.bands[i])
      && (|gains| > 5 ==> r.clearBass == gains[5])
      && (|gains| <= 5 ==> r.clearBass == s.clearBass)
  {
  }

  /** Writing the same gains twice is writing them once. */
  lemma OverlayIdempotent(bands: seq<Band>, gains: seq<real>)
    ensures Overlay(Overlay(bands, gains), gains) == Overlay(bands, gains)
  {
  }

  /** Selecting the same preset twice in a row is selecting it once. */
  lemma ApplyPresetIdempotent(s: EqState, title: string, gains: seq<real>)
    ensures ApplyPreset(ApplyPreset(s, title, gains), title, gains) == ApplyPreset(s, title, gains)
  {
  }

  /** Selecting a shipped preset keeps every value within its fader's range,
      although selection does not clamp. */
  lemma ApplyPresetKeepsRange(s: EqState, p: EqPreset)
    requires InRange(s)
    ensures InRange(ApplyPreset(s, p.Title(), p.Gains()))
  {
  }

  /** Selecting a preset discards any manual change to a band the preset
      covers. */
  lemma ApplyPresetOverridesChange(s: EqState, index: nat, newGain: real, title: string, gains: seq<real>)
    requires index < |s.bands| && index < |gains|
    ensures ApplyPreset(ChangeBand(s, index, newGain), title, gains) == ApplyPreset(s, title, gains)
  {
  }

  /** Selecting "Bass Boosted" on the initial screen: the five bands take the
      first five gains, clear bass takes the sixth, and the menu shows the
      preset's name. */
  lemma BassBoostExample()
    ensures var r := ApplyPreset(InitialState(), BassBoost.Title(), BassBoost.Gains());
      && r.presetName == "Bass Boosted"
      && r.bands == [Band(0, "400", 8.0), Band(1, "1k", 5.0), Band(2, "2.5k", 0.0),
                     Band(3, "6.3k", 0.0), Band(4, "16k", -2.0)]
      && r.clearBass == 5.0
  {
  }

  // ---------------------------------------------------------------------------
  // Manual changes
  // ---------------------------------------------------------------------------

  /** A band's fader reports `newGain`: the active name becomes "Custom",
      band `index` takes the new gain, and nothing else changes. */
  function ChangeBand(s: EqState, index: nat, newGain: real): (r: EqState)
    requires index < |s.bands|
    ensures r.presetName == CustomName
    ensures r.clearBass == s.clearBass
    ensures |r.bands| == |s.bands|
    ensures r.bands[index].gain == newGain
    ensures forall i :: 0 <= i < |s.bands| ==>
              && r.bands[i].id == s.bands[i].id
              && r.bands[i].name == s.bands[i].name
              && (i != index ==> r.bands[i] == s.bands[i])
  {
    EqState(s.bands[index := s.bands[index].(gain := newGain)], s.clearBass, CustomName)
  }

  /** Whatever preset was active, a manual change shows "Custom". */
  lemma ChangeAfterPresetIsCustom(s: EqState, p: EqPreset, index: nat, newGain: real)
    requires index < |s.bands|
    ensures ApplyPreset(s, p.Title(), p.Gains()).presetName == p.Title()
    ensures ChangeBand(ApplyPreset(s, p.Title(), p.Gains()), index, newGain).presetName == CustomName
  {
  }

  /** A change reported by a band's fader keeps every value within range:
      the fader clamps what it reports. */
  lemma FaderChangeKeepsRange(s: EqState, index: nat, startGain: real, accY: real, height: real)
    requires InRange(s)
    requires index < |s.bands|
    requires height > 0.0
    ensures InRange(ChangeBand(s, index, VerticalFader.DraggedGain(startGain, accY, height)))
  {
  }

  /** A value reported by the clear-bass fader keeps every value within
      range: the fader snaps and clamps what it reports. */
  lemma ClearBassChangeKeepsRange(s: EqState, exact: real)
    requires InRange(s)
    ensures InRange(s.(clearBass := ClearBassFader.Snap(exact)))
  {
  }

  // ---------------------------------------------------------------------------
  // The screen's state holder
  // ---------------------------------------------------------------------------

  /** The state `ConsoleEqualizerView` remembers: the fixed-size band list,
      which its callbacks update in place, the clear-bass value and the active
      preset name. */
  class ConsoleEqualizer {
    const bands: array<Band>
    var clearBass: real
    var currentPresetName: string

    /** The abstract value of the screen's state. */
    function State(): EqState
      reads this, bands
    {
      EqState(bands[..], clearBass, currentPresetName)
    }

    constructor ()
      ensures State() == InitialState()
      ensures fresh(bands)
    {
      bands := new Band[5] [Band(0, "400", 0.0), Band(1, "1k", 0.0), Band(2, "2.5k", 0.0),
                            Band(3, "6.3k", 0.0), Band(4, "16k", 0.0)];
      clearBass := 0.0;
      currentPresetName := "Flat";
    }

    /** The menu entry's `onClick` for `preset`. */
    method SelectPreset(preset: EqPreset)
      modifies this, bands
      ensures State() == ApplyPreset(old(State()), preset.Title(), preset.Gains())
    {
      currentPresetName := preset.Title();
      var gains := preset.Gains();
      ghost var before := bands[..];
      for index := 0 to |gains|
        invariant bands[..] == Overlay(before, gains[..index])
        invariant currentPresetName == preset.Title() && clearBass == old(clearBass)
      {
        assert gains[..index + 1][..index] == gains[..index];
        if index < bands.Length {
          bands[index] := bands[index].(gain := gains[index]);
        }
      }
      assert gains[..|gains|] == gains;
      if |gains| > 5 {
        clearBass := gains[5];
      }
    }

    /** The `onValueChange` callback of the fader of band `index`. */
    method OnBandValueChange(index: nat, newGain: real)
      requires index < bands.Length
      modifies this, bands
      ensures State() == ChangeBand(old(State()), index, newGain)
    {
      currentPresetName := CustomName;
      bands[index] := bands[index].(gain := newGain);
    }

    /** The `onValueChange` callback of the clear-bass fader. */
    method OnClearBassChange(value: real)
      modifies this
      ensures State() == old(State()).(clearBass := value)
    {
      clearBass := value;
    }
  }
}
