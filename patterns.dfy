/** The two pattern families and their default parameter records, as the
    pattern registry hands them out (src/app/lib/patterns/registry.ts). */
module Patterns {

  /** A parameter set: any string key to a number. The reducer's param edit
      takes an arbitrary key, so the map is not restricted to a family's vocabulary. */
  type Params = map<string, real>

  /** The family tag of a config. It is a plain string because a loaded
      config file may carry any tag; the editor itself only produces these two. */
  const VORTEX: string := "vortex"
  const SPIRAL: string := "spiral"

  /** A pattern config: its family tag and its parameter set. */
  datatype PatternConfig = PatternConfig(kind: string, params: Params)

  /** The vortex family's default parameters (src/app/lib/patterns/vortex.ts). */
  const VortexDefaults: Params := map[
    "speed" := 1.0, "scale" := 1.0, "intensity" := 1.0, "distortion" := 5.0,
    "xOffset" := 130.0, "yOffset" := 70.0, "dotSize" := 1.0,
    "xMax" := 200.0, "yMax" := 200.0, "step" := 2.0,
    "xDivisor" := 10.0, "xSubtractor" := 10.0, "yDivisor" := 8.0, "ySubtractor" := 12.0,
    "oBase" := 2.0, "oDivisor" := 3.0, "sinDivisor" := 2.0, "cosMultiplier" := 0.8,
    "xKMultiplier" := 4.0, "xScale" := 0.7, "koMultiplier" := 2.0,
    "yDivFactor" := 5.0, "yScale" := 0.7, "eoMultiplier" := 1.0
  ]

  /** The spiral family's default parameters (src/app/lib/patterns/spiral.ts). */
  const SpiralDefaults: Params := map[
    "speed" := 1.0, "scale" := 1.0, "intensity" := 1.0, "distortion" := 5.0,
    "dotSize" := 1.0, "xMax" := 90.0, "yMax" := 90.0,
    "xDivisor" := 4.0, "xSubtractor" := 12.0, "yDivisor" := 9.0, "ySubtractor" := 9.0,
    "oDivisor" := 9.0, "yDivFactor" := 30.0, "cosMultiplier" := 9.0, "koMultiplier" := 4.0,
    "xScale" := 0.7, "step" := 1.0, "xOffset" := 200.0, "yOffset" := 200.0,
    "eoMultiplier" := 4.0
  ]

  /** The family the reducer falls back to: "vortex" stays vortex, every other tag becomes spiral. */
  function Family(kind: string): (f: string)
    ensures f == VORTEX || f == SPIRAL
    ensures f == VORTEX <==> kind == VORTEX
  {
    if kind == VORTEX then VORTEX else SPIRAL
  }

  /** The registry's default config for a tag, with the reducer's vortex-or-else-spiral choice. */
  function DefaultConfig(kind: string): (c: PatternConfig)
    ensures c.kind == Family(kind)
    ensures c.kind == VORTEX ==> c.params == VortexDefaults
    ensures c.kind != VORTEX ==> c.params == SpiralDefaults
  {
    if kind == VORTEX then PatternConfig(VORTEX, VortexDefaults)
    else PatternConfig(SPIRAL, SpiralDefaults)
  }
}
