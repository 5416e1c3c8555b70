/** The editing session's state machine: the current pattern config, the
    zoom level and the audio mapping table, changed only through actions
    (src/app/context/PatternContext.tsx). */
module PatternContext {
  import opened Wrappers
  import opened Patterns
  import opened Mappings

  datatype State = State(patternConfig: PatternConfig, zoom: real, mappings: MappingTable)

  /** The reducer's actions; `UnknownAction` stands for any other action
      type, which the reducer's default branch ignores. */
  datatype Action =
    | SetPatternType(pattern: string)
    | UpdateParam(key: string, value: real)
    | ResetPattern
    | LoadConfig(config: PatternConfig, zoom: Option<real>)
    | SetZoom(level: real)
    | SetMapping(param: string, entry: Option<MappingConfig>)
    | UpdateMappingConfig(param: string, patch: MappingPatch)
    | ReplaceMappings(table: MappingTable)
    | UnknownAction(name: string)

  /** The session starts on the spiral defaults, unzoomed, with no mappings. */
  const InitialState: State := State(PatternConfig(SPIRAL, SpiralDefaults), 1.0, map[])

  /** `zoom || 1`: an absent or zero zoom (both falsy) falls back to 1. */
  function ZoomOrOne(zoom: Option<real>): (z: real)
    ensures z != 0.0
    ensures zoom.Some? && zoom.value != 0.0 ==> z == zoom.value
    ensures zoom.None? || zoom.value == 0.0 ==> z == 1.0
  {
    match zoom
    case None => 1.0
    case Some(v) => if v != 0.0 then v else 1.0
  }

  /** The reducer. Each action writes only its part of the state. */
  function Reduce(s: State, a: Action): (r: State)
    ensures !(a.SetPatternType? || a.LoadConfig? || a.SetZoom?) ==> r.zoom == s.zoom
    ensures (a.SetMapping? || a.UpdateMappingConfig? || a.ReplaceMappings? || a.SetZoom? || a.UnknownAction?)
      ==> r.patternConfig == s.patternConfig
    ensures a.UpdateParam? || a.SetZoom? || a.UnknownAction? ==> r.mappings == s.mappings
    ensures a.SetPatternType? || a.ResetPattern? || a.LoadConfig? ==> r.mappings == map[]
  {
    match a
    case SetPatternType(p) =>
      s.(patternConfig := DefaultConfig(p), zoom := 1.0, mappings := map[])
    case UpdateParam(k, v) =>
      s.(patternConfig := PatternConfig(Family(s.patternConfig.kind), s.patternConfig.params[k := v]))
    case ResetPattern =>
      s.(patternConfig := DefaultConfig(s.patternConfig.kind), mappings := map[])
    case LoadConfig(c, z) =>
      s.(patternConfig := c, zoom := ZoomOrOne(z), mappings := map[])
    case SetZoom(z) =>
      s.(zoom := z)
    case SetMapping(p, c) =>
      s.(mappings := if c.None? then s.mappings - {p} else s.mappings[p := c.value])
    case UpdateMappingConfig(p, patch) =>
      if p !in s.mappings then s
      else s.(mappings := s.mappings[p := Merge(s.mappings[p], patch)])
    case ReplaceMappings(t) =>
      s.(mappings := t)
    case UnknownAction(_) =>
      s
  }

  /** The state after dispatching a sequence of actions in order. */
  function ReduceAll(s: State, actions: seq<Action>): State
    decreases |actions|
  {
    if actions == [] then s else ReduceAll(Reduce(s, actions[0]), actions[1..])
  }

  // ---- Switching family, editing, resetting, loading ----

  /** Switching family forgets the whole previous state: the result depends
      only on the payload, and every payload other than "vortex" gives spiral. */
  lemma SetPatternTypeResets(s: State, s': State, p: string)
    ensures Reduce(s, SetPatternType(p)) == Reduce(s', SetPatternType(p))
    ensures var r := Reduce(s, SetPatternType(p));
      && r.zoom == 1.0 && r.mappings == map[]
      && (p == VORTEX ==> r.patternConfig == PatternConfig(VORTEX, VortexDefaults))
      && (p != VORTEX ==> r.patternConfig == PatternConfig(SPIRAL, SpiralDefaults))
  {
  }

  /** A param edit sets exactly the named key. The family tag is kept when it is
      vortex or spiral (any other tag is rewritten to spiral); zoom and mappings are untouched. */
  lemma UpdateParamTouchesOneKey(s: State, k: string, v: real)
    ensures var r := Reduce(s, UpdateParam(k, v));
      && r.patternConfig.kind == Family(s.patternConfig.kind)
      && (s.patternConfig.kind in {VORTEX, SPIRAL} ==> r.patternConfig.kind == s.patternConfig.kind)
      && r.patternConfig.params.Keys == s.patternConfig.params.Keys + {k}
      && r.patternConfig.params[k] == v
      && (forall j :: j in s.patternConfig.params && j != k ==> r.patternConfig.params[j] == s.patternConfig.params[j])
      && r.zoom == s.zoom && r.mappings == s.mappings
  {
  }

  /** Reset restores the defaults of the family the tag falls back to and
      clears the mappings, keeping zoom; a vortex or spiral tag keeps its
      family, any other tag becomes spiral. */
  lemma ResetPatternKeepsFamilyAndZoom(s: State)
    ensures var r := Reduce(s, ResetPattern);
      && r.patternConfig == DefaultConfig(s.patternConfig.kind)
      && r.zoom == s.zoom && r.mappings == map[]
    ensures s.patternConfig.kind in {VORTEX, SPIRAL} ==>
      var r := Reduce(s, ResetPattern);
      && r.patternConfig.kind == s.patternConfig.kind
      && r.patternConfig.params == (if s.patternConfig.kind == VORTEX then VortexDefaults else SpiralDefaults)
    ensures s.patternConfig.kind !in {VORTEX, SPIRAL} ==>
      Reduce(s, ResetPattern).patternConfig == PatternConfig(SPIRAL, SpiralDefaults)
  {
  }

  /** Loading installs the config verbatim, without checking its tag, sets the
      supplied zoom when it is non-zero and 1 otherwise, and clears the mappings. */
  lemma LoadConfigInstalls(s: State, c: PatternConfig, z: Option<real>)
    ensures var r := Reduce(s, LoadConfig(c, z));
      && r.patternConfig == c
      && r.zoom == (if z.Some? && z.value != 0.0 then z.value else 1.0)
      && r.mappings == map[]
  {
  }

  /** Zoom is stored as given, with no clamping. */
  lemma SetZoomStoresAnyValue(s: State, z: real)
    ensures Reduce(s, SetZoom(z)) == State(s.patternConfig, z, s.mappings)
  {
  }

  // ---- The mapping table ----

  /** Binding inserts or replaces exactly one entry; unbinding (null) removes
      exactly that entry; nothing else changes. */
  lemma SetMappingTouchesOneKey(s: State, p: string, c: Option<MappingConfig>)
    ensures var r := Reduce(s, SetMapping(p, c));
      && r.patternConfig == s.patternConfig && r.zoom == s.zoom
      && (c.Some? ==> p in r.mappings && r.mappings[p] == c.value && r.mappings.Keys == s.mappings.Keys + {p})
      && (c.None? ==> r.mappings.Keys == s.mappings.Keys - {p})
      && (forall q :: q in s.mappings && q != p ==> q in r.mappings && r.mappings[q] == s.mappings[q])
  {
  }

  /** Bind followed by unbind on a key that had no entry gives back the original state. */
  lemma BindThenUnbindRestores(s: State, p: string, c: MappingConfig)
    requires p !in s.mappings
    ensures Reduce(Reduce(s, SetMapping(p, Some(c))), SetMapping(p, None)) == s
  {
    assert s.mappings[p := c] - {p} == s.mappings;
  }

  /** Updating a key with no entry is a no-op, not an error. */
  lemma UpdateMissingIsNoOp(s: State, p: string, patch: MappingPatch)
    requires p !in s.mappings
    ensures Reduce(s, UpdateMappingConfig(p, patch)) == s
  {
  }

  /** Updating an existing entry overwrites only the supplied fields of that
      entry (the feature stays unless given); other keys are untouched. */
  lemma UpdateExistingMerges(s: State, p: string, patch: MappingPatch)
    requires p in s.mappings
    ensures var r := Reduce(s, UpdateMappingConfig(p, patch));
      && r.patternConfig == s.patternConfig && r.zoom == s.zoom
      && r.mappings.Keys == s.mappings.Keys
      && r.mappings[p].feature == (if patch.feature.Some? then patch.feature.value else s.mappings[p].feature)
      && r.mappings[p].mode == (if patch.mode.Some? then patch.mode.value else s.mappings[p].mode)
      && r.mappings[p].sensitivity == (if patch.sensitivity.Some? then patch.sensitivity.value else s.mappings[p].sensitivity)
      && (forall q :: q in s.mappings && q != p ==> r.mappings[q] == s.mappings[q])
  {
  }

  /** Bulk replace installs exactly the payload, so no earlier entry survives,
      and replacing twice with the same table is the same as once. */
  lemma ReplaceMappingsExact(s: State, t: MappingTable)
    ensures Reduce(s, ReplaceMappings(t)).mappings == t
    ensures Reduce(s, ReplaceMappings(t)).patternConfig == s.patternConfig
    ensures Reduce(Reduce(s, ReplaceMappings(t)), ReplaceMappings(t)) == Reduce(s, ReplaceMappings(t))
  {
  }

  /** The reducer's default branch returns the state unchanged. */
  lemma UnknownActionIsIgnored(s: State, name: string)
    ensures Reduce(s, UnknownAction(name)) == s
  {
  }

  // ---- Invariants over whole sessions ----

  /** A config the editor itself produces: its tag is one of the two families
      and it has at least that family's default keys. */
  ghost predicate WellFormed(s: State)
  {
    && s.patternConfig.kind in {VORTEX, SPIRAL}
    && DefaultConfig(s.patternConfig.kind).params.Keys <= s.patternConfig.params.Keys
  }

  /** A loaded config may carry any tag; the well-formedness is only kept by
      loads of well-formed configs. */
  ghost predicate LoadsWellFormed(actions: seq<Action>)
  {
    forall i :: 0 <= i < |actions| && actions[i].LoadConfig? ==>
      WellFormed(State(actions[i].config, 1.0, map[]))
  }

  lemma InitialStateWellFormed()
    ensures WellFormed(InitialState)
    ensures InitialState.patternConfig == DefaultConfig(SPIRAL)
    ensures InitialState.zoom == 1.0 && InitialState.mappings == map[]
  {
  }

  /** One action keeps a well-formed state well-formed, unless it loads an
      ill-formed config. A change of family always clears the mappings. */
  lemma ReducePreservesWellFormed(s: State, a: Action)
    requires WellFormed(s)
    requires a.LoadConfig? ==> WellFormed(State(a.config, 1.0, map[]))
    ensures WellFormed(Reduce(s, a))
    ensures Reduce(s, a).patternConfig.kind != s.patternConfig.kind ==> Reduce(s, a).mappings == map[]
  {
  }

  /** Every state reached from a well-formed one by a session that loads only
      well-formed configs is well-formed. */
  lemma {:induction false} SessionPreservesWellFormed(s: State, actions: seq<Action>)
    requires WellFormed(s)
    requires LoadsWellFormed(actions)
    ensures WellFormed(ReduceAll(s, actions))
    decreases |actions|
  {
    if actions != [] {
      ReducePreservesWellFormed(s, actions[0]);
      assert LoadsWellFormed(actions[1..]) by {
        forall i | 0 <= i < |actions[1..]| && actions[1..][i].LoadConfig?
          ensures WellFormed(State(actions[1..][i].config, 1.0, map[]))
        {
          assert actions[1..][i] == actions[i + 1];
        }
      }
      SessionPreservesWellFormed(Reduce(s, actions[0]), actions[1..]);
    }
  }

  /** A session with no mapping actions and no family switch, reset or load
      keeps the mapping table as it was. */
  lemma {:induction false} NonMappingEditsKeepMappings(s: State, actions: seq<Action>)
    requires forall i :: 0 <= i < |actions| ==>
      actions[i].UpdateParam? || actions[i].SetZoom? || actions[i].UnknownAction?
    ensures ReduceAll(s, actions).mappings == s.mappings
    decreases |actions|
  {
    if actions != [] {
      assert forall i :: 0 <= i < |actions[1..]| ==> actions[1..][i] == actions[i + 1];
      NonMappingEditsKeepMappings(Reduce(s, actions[0]), actions[1..]);
    }
  }
}
