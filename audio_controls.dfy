/** The "randomize mappings" action of the audio controls
    (src/app/components/controls/AudioControls.tsx). Every `Math.random()`
    outcome is an explicit input, and the shuffle is an explicit permutation. */
module AudioControls {
  import opened Patterns
  import opened Mappings
  import opened PatternContext
  import opened SliderControl

  /** The parameters a random mapping may pick, in the source's order. */
  const ParamsToRandomize: seq<string> :=
    ["distortion", "scale", "intensity", "dotSize", "speed",
     "koMultiplier", "eoMultiplier", "cosMultiplier", "oBase"]

  /** One outcome of `Math.random()`. */
  type Unit = u: real | 0.0 <= u < 1.0

  /** The two draws made for each chosen parameter: feature, then sensitivity. */
  datatype Draw = Draw(feature: Unit, sensitivity: Unit)

  predicate Distinct<T(==)>(s: seq<T>)
  {
    forall i, j :: 0 <= i < j < |s| ==> s[i] != s[j]
  }

  function Min(a: int, b: int): int
  {
    if a <= b then a else b
  }

  /** `keys.filter(p => p in params)`: the keys present in the params, in order. */
  function Filter(keys: seq<string>, params: Params): (r: seq<string>)
    ensures |r| <= |keys|
    ensures forall k :: k in r <==> k in keys && k in params
    ensures Distinct(keys) ==> Distinct(r)
  {
    if keys == [] then []
    else
      var rest := Filter(keys[1..], params);
      assert Distinct(keys) ==> keys[0] !in rest;
      if keys[0] in params then [keys[0]] + rest else rest
  }

  function AvailableParams(params: Params): (r: seq<string>)
    ensures forall k :: k in r <==> k in ParamsToRandomize && k in params
    ensures Distinct(r)
  {
    Filter(ParamsToRandomize, params)
  }

  /** `perm` lists each index below n exactly once. */
  predicate IsPermutation(perm: seq<nat>, n: nat)
  {
    && |perm| == n
    && (forall i :: 0 <= i < n ==> perm[i] < n)
    && Distinct(perm)
  }

  /** The indices below n, as a set. */
  function Below(n: nat): (b: set<nat>)
    ensures |b| == n
    ensures forall j: int :: j in b <==> 0 <= j < n
  {
    if n == 0 then {} else Below(n - 1) + {n - 1}
  }

  lemma SubsetOfSameSize<T>(a: set<T>, b: set<T>)
    requires a <= b && |a| == |b|
    ensures a == b
  {
    assert b == a + (b - a);
    assert a * (b - a) == {};
  }

  /** A permutation of the indices below n lists every one of them. */
  lemma PermutationCovers(perm: seq<nat>, n: nat)
    requires IsPermutation(perm, n)
    ensures forall j: nat :: j < n ==> j in perm
  {
    var image := set i | 0 <= i < n :: perm[i];
    DistinctCard(perm);
    SubsetOfSameSize(image, Below(n));
    forall j: nat | j < n
      ensures j in perm
    {
      assert j in image;
    }
  }

  /** The outcome of sorting with a random comparator: some reordering, with
      the same length and the same elements. */
  function Shuffle(xs: seq<string>, perm: seq<nat>): (r: seq<string>)
    requires IsPermutation(perm, |xs|)
    ensures |r| == |xs|
    ensures forall k :: k in r <==> k in xs
    ensures Distinct(xs) ==> Distinct(r)
  {
    PermutationCovers(perm, |xs|);
    var r := seq(|xs|, i requires 0 <= i < |xs| => xs[perm[i]]);
    assert forall j :: 0 <= j < |xs| ==> xs[j] in r by {
      forall j | 0 <= j < |xs|
        ensures xs[j] in r
      {
        assert j in perm;
        var i :| 0 <= i < |perm| && perm[i] == j;
        assert r[i] == xs[j];
      }
    }
    r
  }

  /** `Math.floor(Math.random() * 3) + 3`: how many parameters to map. */
  function MapCount(draw: Unit): (n: int)
    ensures 3 <= n <= 5
  {
    (draw * 3.0).Floor + 3
  }

  /** `AUDIO_FEATURES[Math.floor(Math.random() * 4)]`: each quarter of the
      unit interval picks one feature, in list order. */
  function FeatureOf(draw: Unit): (f: AudioFeature)
    ensures 0 <= (draw * 4.0).Floor < |AudioFeatures| && f == AudioFeatures[(draw * 4.0).Floor]
    ensures f == Bass <==> draw < 0.25
    ensures f == Mids <==> 0.25 <= draw < 0.5
    ensures f == Treble <==> 0.5 <= draw < 0.75
    ensures f == Overall <==> 0.75 <= draw
  {
    var i := (draw * 4.0).Floor;
    AudioFeatures[i]
  }

  /** `parseFloat(x.toFixed(2))` for non-negative x: the nearest multiple of
      0.01, halves rounded up. */
  function Round2(x: real): (r: real)
    ensures -0.005 < r - x <= 0.005
    ensures (r * 100.0).Floor as real == r * 100.0
  {
    ((x * 100.0 + 0.5).Floor as real) / 100.0
  }

  /** The drawn sensitivity: 0.5 to 2.0 when multiplicative, 5 to 30 when additive. */
  function SensitivityOf(mode: Mode, draw: Unit): (s: real)
    ensures mode == Multiplicative ==> 0.5 <= s <= 2.0
    ensures mode == Additive ==> 5.0 <= s <= 30.0
  {
    if mode == Multiplicative then Round2(draw * 1.5 + 0.5) else Round2(draw * 25.0 + 5.0)
  }

  function ModeFor(key: string): (m: Mode)
    ensures m == Multiplicative <==> IsMultiplicativeKey(key)
  {
    if IsMultiplicativeKey(key) then Multiplicative else Additive
  }

  /** The entry built for one chosen parameter from its two draws: the drawn
      feature, the key's mode and a sensitivity in that mode's band. */
  function EntryFor(key: string, d: Draw): (e: MappingConfig)
    ensures e.feature == FeatureOf(d.feature) && e.mode == ModeFor(key)
    ensures WellDrawn(key, e)
  {
    MappingConfig(FeatureOf(d.feature), ModeFor(key), SensitivityOf(ModeFor(key), d.sensitivity))
  }

  /** The chosen parameters: the first `MapCount` of the shuffled available ones. */
  function Chosen(params: Params, perm: seq<nat>, countDraw: Unit): (r: seq<string>)
    requires IsPermutation(perm, |AvailableParams(params)|)
    ensures |r| == Min(|AvailableParams(params)|, MapCount(countDraw))
    ensures Distinct(r)
    ensures forall k :: k in r ==> k in ParamsToRandomize && k in params
  {
    var shuffled := Shuffle(AvailableParams(params), perm);
    shuffled[..Min(|shuffled|, MapCount(countDraw))]
  }

  lemma {:induction false} DistinctCard<T>(s: seq<T>)
    requires Distinct(s)
    ensures |set i | 0 <= i < |s| :: s[i]| == |s|
    decreases |s|
  {
    if s != [] {
      var init := s[..|s| - 1];
      assert Distinct(init);
      DistinctCard(init);
      var a := set i | 0 <= i < |init| :: init[i];
      var b := set i | 0 <= i < |s| :: s[i];
      assert b == a + {s[|s| - 1]};
      assert s[|s| - 1] !in a;
    }
  }

  /** An entry as the randomizer draws it for `key`: the mode follows the key,
      and the sensitivity lies in that mode's band. */
  predicate WellDrawn(key: string, e: MappingConfig)
  {
    && (e.mode == Multiplicative <==> IsMultiplicativeKey(key))
    && (e.mode == Multiplicative ==> 0.5 <= e.sensitivity <= 2.0)
    && (e.mode == Additive ==> 5.0 <= e.sensitivity <= 30.0)
  }

  /** The `forEach` that fills the fresh table, one chosen key at a time. */
  method FillTable(chosen: seq<string>, draws: seq<Draw>) returns (table: MappingTable)
    requires Distinct(chosen) && |draws| == |chosen|
    ensures |table| == |chosen|
    ensures forall k :: k in table <==> k in chosen
    ensures forall k :: k in table ==> WellDrawn(k, table[k])
    ensures forall j :: 0 <= j < |chosen| ==> table[chosen[j]] == EntryFor(chosen[j], draws[j])
  {
    table := map[];
    var i := 0;
    while i < |chosen|
      invariant 0 <= i <= |chosen|
      invariant table.Keys == set j | 0 <= j < i :: chosen[j]
      invariant forall j :: 0 <= j < i ==> table[chosen[j]] == EntryFor(chosen[j], draws[j])
      invariant forall k :: k in table ==> WellDrawn(k, table[k])
    {
      table := table[chosen[i] := EntryFor(chosen[i], draws[i])];
      i := i + 1;
    }
    DistinctCard(chosen);
  }

  /** Builds the replacement table for the chosen parameters, one entry each,
      and dispatches it as a single bulk replace. */
  method RandomizeMappings(params: Params, perm: seq<nat>, countDraw: Unit, draws: seq<Draw>)
    returns (a: Action)
    requires IsPermutation(perm, |AvailableParams(params)|)
    requires |draws| == Min(|AvailableParams(params)|, MapCount(countDraw))
    ensures a.ReplaceMappings?
    ensures |a.table| == Min(|AvailableParams(params)|, MapCount(countDraw))
    ensures forall k :: k in a.table ==> k in ParamsToRandomize && k in params
    ensures forall k :: k in a.table ==> WellDrawn(k, a.table[k])
    ensures var chosen := Chosen(params, perm, countDraw);
      && (forall k :: k in a.table <==> k in chosen)
      && (forall j :: 0 <= j < |chosen| ==> a.table[chosen[j]] == EntryFor(chosen[j], draws[j]))
    ensures var chosen := Chosen(params, perm, countDraw);
      forall j :: 0 <= j < |chosen| ==> chosen[j] in a.table && a.table[chosen[j]].feature == FeatureOf(draws[j].feature)
  {
    var chosen := Chosen(params, perm, countDraw);
    var table := FillTable(chosen, draws);
    a := ReplaceMappings(table);
  }

  /** On the spiral defaults `oBase` is never picked, since spiral has no such
      parameter; on the vortex defaults all nine candidates are available. */
  lemma SpiralExcludesOBase()
    ensures "oBase" !in AvailableParams(SpiralDefaults)
    ensures "oBase" in AvailableParams(VortexDefaults)
  {
    assert "oBase" !in SpiralDefaults && "oBase" in VortexDefaults;
    assert ParamsToRandomize[8] == "oBase";
  }

  /** Every drawn sensitivity starts inside the reactivity slider's range. */
  lemma DrawnSensitivityInSliderRange(key: string, d: Draw)
    ensures var e := EntryFor(key, d);
      ReactivityRange(e.mode).min <= e.sensitivity <= ReactivityRange(e.mode).max
  {
  }
}
