/** Audio mapping entries: which audio feature drives a parameter, how it is
    combined with the base value, and how strongly. */
module Mappings {
  import opened Wrappers

  /** The four band energies the audio analyzer reports. */
  datatype AudioFeature = Bass | Mids | Treble | Overall

  /** The feature list in the order the controls offer it. */
  const AudioFeatures: seq<AudioFeature> := [Bass, Mids, Treble, Overall]

  datatype Mode = Additive | Multiplicative

  /** One entry of the mapping table. */
  datatype MappingConfig = MappingConfig(feature: AudioFeature, mode: Mode, sensitivity: real)

  /** A partial entry: the fields a control sends to update an existing entry;
      `None` is a field the partial record leaves out. */
  datatype MappingPatch = MappingPatch(feature: Option<AudioFeature>, mode: Option<Mode>, sensitivity: Option<real>)

  /** The mapping table, keyed by parameter name; at most one entry per name. */
  type MappingTable = map<string, MappingConfig>

  /** Object spread `{ ...existing, ...patch }`: a field the patch supplies
      wins, a field it leaves out keeps the existing value. */
  function Merge(existing: MappingConfig, patch: MappingPatch): (r: MappingConfig)
    ensures patch.feature.Some? ==> r.feature == patch.feature.value
    ensures patch.feature.None? ==> r.feature == existing.feature
    ensures patch.mode.Some? ==> r.mode == patch.mode.value
    ensures patch.mode.None? ==> r.mode == existing.mode
    ensures patch.sensitivity.Some? ==> r.sensitivity == patch.sensitivity.value
    ensures patch.sensitivity.None? ==> r.sensitivity == existing.sensitivity
  {
    MappingConfig(
      if patch.feature.Some? then patch.feature.value else existing.feature,
      if patch.mode.Some? then patch.mode.value else existing.mode,
      if patch.sensitivity.Some? then patch.sensitivity.value else existing.sensitivity)
  }

  /** The empty partial entry changes nothing, and applying the same partial
      entry twice is the same as applying it once. */
  lemma MergeIdentityAndIdempotence(existing: MappingConfig, patch: MappingPatch)
    ensures Merge(existing, MappingPatch(None, None, None)) == existing
    ensures Merge(Merge(existing, patch), patch) == Merge(existing, patch)
  {
  }
}
