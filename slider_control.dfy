/** The rules of one parameter slider's audio-link controls
    (src/app/components/controls/SliderControl.tsx): what linking, unlinking,
    the reactivity slider and the mode buttons send to the reducer. */
module SliderControl {
  import opened Wrappers
  import opened Mappings
  import opened PatternContext

  /** Parameters whose audio link scales the base value rather than adding to
      it: exactly scale, speed and dot size. */
  predicate IsMultiplicativeKey(key: string)
    ensures IsMultiplicativeKey(key) <==> key in {"scale", "speed", "dotSize"}
  {
    key == "scale" || key == "speed" || key == "dotSize"
  }

  /** The sensitivity a new link starts with, per mode. */
  function DefaultSensitivity(mode: Mode): (s: real)
    ensures s > 0.0
    ensures mode == Multiplicative ==> s == 1.0
    ensures mode == Additive ==> s == 20.0
  {
    match mode
    case Additive => 20.0
    case Multiplicative => 1.0
  }

  /** Linking the slider to a feature: a new entry for this slider's key with
      the chosen feature, multiplicative with sensitivity 1 for scale, speed and
      dot size, additive with sensitivity 20 for every other key. */
  function HandleLink(paramKey: string, feature: AudioFeature): (a: Action)
    ensures a.SetMapping? && a.param == paramKey && a.entry.Some?
    ensures a.entry.value.feature == feature
    ensures a.entry.value.mode == Multiplicative <==> IsMultiplicativeKey(paramKey)
    ensures a.entry.value.sensitivity == (if IsMultiplicativeKey(paramKey) then 1.0 else 20.0)
  {
    var mode := if IsMultiplicativeKey(paramKey) then Multiplicative else Additive;
    SetMapping(paramKey, Some(MappingConfig(feature, mode, DefaultSensitivity(mode))))
  }

  /** Unlinking sends a null entry for this slider's key. */
  function Unlink(paramKey: string): (a: Action)
    ensures a.SetMapping? && a.param == paramKey && a.entry.None?
  {
    SetMapping(paramKey, None)
  }

  /** The reactivity slider sends a partial entry holding only the sensitivity. */
  function ReactivityChange(paramKey: string, sensitivity: real): (a: Action)
    ensures a.UpdateMappingConfig? && a.param == paramKey
    ensures a.patch.sensitivity == Some(sensitivity) && a.patch.mode.None? && a.patch.feature.None?
  {
    UpdateMappingConfig(paramKey, MappingPatch(None, None, Some(sensitivity)))
  }

  /** A mode button sends a partial entry holding only the mode. */
  function ModeChange(paramKey: string, mode: Mode): (a: Action)
    ensures a.UpdateMappingConfig? && a.param == paramKey
    ensures a.patch.mode == Some(mode) && a.patch.sensitivity.None? && a.patch.feature.None?
  {
    UpdateMappingConfig(paramKey, MappingPatch(None, Some(mode), None))
  }

  /** The reactivity slider's range: [0, 5] in steps of 0.1 when multiplicative,
      [0, 100] in steps of 1 when additive. */
  datatype SliderRange = SliderRange(min: real, max: real, step: real)

  function ReactivityRange(mode: Mode): (r: SliderRange)
    ensures r.min == 0.0 && r.min < r.max && 0.0 < r.step <= 1.0
    ensures DefaultSensitivity(mode) <= r.max
    ensures mode == Multiplicative ==> r == SliderRange(0.0, 5.0, 0.1)
    ensures mode == Additive ==> r == SliderRange(0.0, 100.0, 1.0)
  {
    if mode == Multiplicative then SliderRange(0.0, 5.0, 0.1) else SliderRange(0.0, 100.0, 1.0)
  }

  /** The entry the panel hands to a slider as `currentMapping`: the table's
      entry for its key, absent when there is none. */
  function CurrentMapping(s: State, paramKey: string): Option<MappingConfig>
  {
    if paramKey in s.mappings then Some(s.mappings[paramKey]) else None
  }

  /** `disabled={!!currentMapping}`: the value slider is disabled exactly
      while the parameter has a mapping. */
  predicate ValueSliderDisabled(s: State, paramKey: string)
    ensures ValueSliderDisabled(s, paramKey) <==> paramKey in s.mappings
  {
    CurrentMapping(s, paramKey).Some?
  }

  /** After linking, the slider's key is mapped to the chosen feature, so its
      value slider is disabled; nothing else in the state changes. */
  lemma LinkBindsThisKey(s: State, paramKey: string, feature: AudioFeature)
    ensures var r := Reduce(s, HandleLink(paramKey, feature));
      && ValueSliderDisabled(r, paramKey)
      && r.mappings[paramKey].feature == feature
      && r.mappings[paramKey].sensitivity <= ReactivityRange(r.mappings[paramKey].mode).max
      && r.patternConfig == s.patternConfig && r.zoom == s.zoom
      && (forall q :: q in s.mappings && q != paramKey ==> r.mappings[q] == s.mappings[q])
  {
  }

  /** Unlinking removes exactly this key's entry and re-enables its value slider. */
  lemma UnlinkDeletes(s: State, paramKey: string)
    ensures var r := Reduce(s, Unlink(paramKey));
      && !ValueSliderDisabled(r, paramKey)
      && r.mappings == s.mappings - {paramKey}
  {
  }

  /** Linking a previously unlinked slider and unlinking it again leaves the
      session as it was. */
  lemma LinkThenUnlinkRestores(s: State, paramKey: string, feature: AudioFeature)
    requires paramKey !in s.mappings
    ensures Reduce(Reduce(s, HandleLink(paramKey, feature)), Unlink(paramKey)) == s
  {
    BindThenUnbindRestores(s, paramKey, HandleLink(paramKey, feature).entry.value);
  }

  /** Changing the reactivity or the mode of a linked slider keeps its feature
      and the other field; on an unlinked slider nothing happens. */
  lemma TuningKeepsFeature(s: State, paramKey: string, sensitivity: real, mode: Mode)
    ensures paramKey in s.mappings ==>
      var r := Reduce(s, ReactivityChange(paramKey, sensitivity));
      r.mappings[paramKey] == s.mappings[paramKey].(sensitivity := sensitivity)
    ensures paramKey in s.mappings ==>
      var r := Reduce(s, ModeChange(paramKey, mode));
      r.mappings[paramKey] == s.mappings[paramKey].(mode := mode)
    ensures paramKey !in s.mappings ==>
      Reduce(s, ReactivityChange(paramKey, sensitivity)) == s && Reduce(s, ModeChange(paramKey, mode)) == s
  {
  }
}
