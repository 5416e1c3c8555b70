# Pattern editor: session state, audio bands, mappings, config files and export rules

This project is a Dafny model of the discrete logic in a browser pattern editor. The editor animates a "vortex" or "spiral" dot pattern on a canvas. Audio can modulate the pattern's numeric parameters, and the animation can be saved as a config file or exported as a video. The model covers the rules that decide state, not the floating-point drawing:

- `PatternContext`: the session reducer over `{patternConfig, zoom, mappings}` (`patternReducer` and `initialState`).
- `Patterns`: the two families' default parameter records, reached through the pattern registry.
- `Mappings`: audio mapping entries (feature, mode, sensitivity) and the partial entries used to update them.
- `AudioAnalyzer`: the analyzer hook.
  - The band-energy reduction of a byte spectrum (`analyze`) is written as functions.
  - The inactive/playing/listening life cycle (`cleanup`, `startFromFile`, `startFromMic`) is a class. Its source and audio context are objects that cleanup disconnects and closes.
- `SliderControl`: what a slider's link, unlink, reactivity and mode controls send to the reducer.
- `AudioControls`: `randomizeMappings`. Every `Math.random()` outcome is an explicit input in [0, 1), and the random-comparator sort is an explicit permutation.
- `FileUtils`: the record written by `savePatternConfig` and the accept/reject decision of `loadPatternConfig`. Both work on already-parsed JSON with optional fields.
- `VideoExport`: the export option updates, the recording-format choice, and the export session.
  - The session is a class: it creates the recorder, collects chunks, and runs the 100 ms progress ticker that stops the recorder.

Numbers are exact `real`s and integers. The bytes of the spectrum are the subset type `Byte` (0..255).

The family tag of a config is a `string`, not a two-valued enum. The loader accepts any non-empty `pattern`, and the reducer maps every tag other than `"vortex"` to spiral when a param is edited or the pattern is reset. The model keeps both behaviours.

Three checks the code does not make; the model adds none of them:

- The loader does not check that the tag is a known family or that the params match the family's keys (`LoadAcceptsAnyFamily`).
- Zoom is stored unclamped (`SetZoomStoresAnyValue`).
- The grid renderer has no `step > 0` guard. The renderer is not part of this model (see "Left out").

## Model

| member | source | states |
|---|---|---|
| `Patterns.Family` | src/app/context/PatternContext.tsx:74-90 | The family a tag falls back to is vortex exactly for `"vortex"` and spiral for every other tag |
| `Patterns.DefaultConfig` | src/app/lib/patterns/registry.ts:25-34 | The default config of a tag carries the vortex defaults for `"vortex"` and the spiral defaults otherwise, with the matching tag |
| `Mappings.Merge` | src/app/context/PatternContext.tsx:141 | The spread `{ ...existing, ...config }`: each field the partial entry supplies wins, each field it leaves out keeps the existing value |
| `Mappings.MergeIdentityAndIdempotence` | src/app/context/PatternContext.tsx:141 | The empty partial entry changes nothing, and merging the same partial entry twice equals merging it once |
| `PatternContext.ZoomOrOne` | src/app/context/PatternContext.tsx:118 | `zoom \|\| 1` never yields 0. A supplied non-zero zoom is kept; an absent or zero zoom gives 1 |
| `PatternContext.Reduce` | src/app/context/PatternContext.tsx:46-150 | Each action writes only its part of the state. Zoom changes only on family switch, load and set-zoom. The config is untouched by mapping, zoom and unknown actions. Switch, reset and load clear the mappings |
| `PatternContext.SetPatternTypeResets` | src/app/context/PatternContext.tsx:48-71 | Switching family yields the family's defaults, zoom 1 and no mappings, independent of the previous state; any payload other than `"vortex"` yields spiral |
| `PatternContext.UpdateParamTouchesOneKey` | src/app/context/PatternContext.tsx:72-91 | A param edit sets only the named key, keeps every other param, zoom and mappings, and keeps a vortex/spiral tag (other tags become spiral) |
| `PatternContext.ResetPatternKeepsFamilyAndZoom` | src/app/context/PatternContext.tsx:92-113 | Reset keeps zoom, clears mappings and installs the defaults of the family the tag falls back to: a vortex or spiral tag keeps its family, any other tag (as a loaded file may carry) becomes spiral with the spiral defaults |
| `PatternContext.LoadConfigInstalls` | src/app/context/PatternContext.tsx:114-120 | Load installs the config verbatim, zoom is the supplied value when non-zero and 1 otherwise, mappings are cleared |
| `PatternContext.SetZoomStoresAnyValue` | src/app/context/PatternContext.tsx:121-122 | Set-zoom stores any value unclamped and changes nothing else |
| `PatternContext.SetMappingTouchesOneKey` | src/app/context/PatternContext.tsx:123-131 | A non-null entry inserts or replaces exactly that key; null deletes exactly that key; other entries, config and zoom are unchanged |
| `PatternContext.BindThenUnbindRestores` | src/app/context/PatternContext.tsx:123-131 | Bind then unbind on a previously unmapped key restores the original state |
| `PatternContext.UpdateMissingIsNoOp` | src/app/context/PatternContext.tsx:132-135 | Updating a key with no entry returns the state unchanged |
| `PatternContext.UpdateExistingMerges` | src/app/context/PatternContext.tsx:137-143 | Updating an existing entry overwrites only the supplied fields (feature kept unless given); other keys and the rest of the state are unchanged |
| `PatternContext.ReplaceMappingsExact` | src/app/context/PatternContext.tsx:145-146 | Bulk replace sets the table to exactly the payload, keeps the config, and is idempotent |
| `PatternContext.UnknownActionIsIgnored` | src/app/context/PatternContext.tsx:147-148 | The default branch returns the state unchanged |
| `PatternContext.InitialStateWellFormed` | src/app/context/PatternContext.tsx:152-159 | The initial state is the spiral defaults, zoom 1, no mappings, and is well-formed |
| `PatternContext.ReducePreservesWellFormed` | src/app/context/PatternContext.tsx:46-150 | Every action keeps a well-formed state well-formed, unless it loads an ill-formed config. Well-formed means a known family whose default keys are all present. A change of family always comes with an empty mapping table |
| `PatternContext.SessionPreservesWellFormed` | src/app/context/PatternContext.tsx:46-150 | By induction over a session: a session that loads only well-formed configs stays well-formed |
| `PatternContext.NonMappingEditsKeepMappings` | src/app/context/PatternContext.tsx:72-148 | By induction: a session of only param edits (lines 72-91), zoom changes (121-122) and unknown actions (147-148) leaves the mapping table as it was |
| `AudioAnalyzer.Ends` | src/app/hooks/useAudioAnalyzer.ts:57-59 | The floor band ends are ordered: 0 ≤ bassEnd ≤ midsEnd ≤ trebleEnd ≤ bufferLength |
| `AudioAnalyzer.Sum` | src/app/hooks/useAudioAnalyzer.ts:61-71 | The sum of n bytes lies in [0, 255·n] |
| `AudioAnalyzer.SumConcat` | src/app/hooks/useAudioAnalyzer.ts:61-71 | The sum of two adjacent ranges is the sum of each |
| `AudioAnalyzer.BandLevel` | src/app/hooks/useAudioAnalyzer.ts:61-78 | A band's level lies in [0, 1]; an empty band (0/0 NaN) and a silent band are reported as 0; otherwise level·255·count equals the band's sum (the mean normalised by 255) |
| `AudioAnalyzer.Analyze` | src/app/hooks/useAudioAnalyzer.ts:50-81 | Every reported value lies in [0, 1] |
| `AudioAnalyzer.BandsPartition` | src/app/hooks/useAudioAnalyzer.ts:57-71 | Bass, mids and treble are the disjoint contiguous ranges [0,bassEnd), [bassEnd,midsEnd), [midsEnd,trebleEnd). With the bins above treble they make up the spectrum, and the overall sum splits accordingly |
| `AudioAnalyzer.SplitAt` | src/app/hooks/useAudioAnalyzer.ts:61-71 | Cutting a spectrum at three ordered points splits both the sequence and its sum |
| `AudioAnalyzer.SilenceIsZero` | src/app/hooks/useAudioAnalyzer.ts:73-78 | An all-zero spectrum reports exactly 0 for all four values |
| `AudioAnalyzer.StandardBands` | src/app/hooks/useAudioAnalyzer.ts:87 | With FFT size 256 there are 128 bins (section 1.8 of the W3C Web Audio API) and the band ends are 1, 11 and 81 |
| `AudioAnalyzer.Analyzer.constructor` | src/app/hooks/useAudioAnalyzer.ts:21-30 | The hook starts inactive, with zeroed data, no file name and no references |
| `AudioAnalyzer.Analyzer.Cleanup` | src/app/hooks/useAudioAnalyzer.ts:32-48 | Stop cancels the frame, disconnects the source and closes its context. It ends inactive with zeroed data and no references, whatever the previous state, so stopping twice equals stopping once |
| `AudioAnalyzer.Analyzer.SetFileName` | src/app/hooks/useAudioAnalyzer.ts:134 | The exposed setter changes only the file name |
| `AudioAnalyzer.Analyzer.AnalyzeFrame` | src/app/hooks/useAudioAnalyzer.ts:50-81 | Without an analyser a frame does nothing; with one the data becomes the spectrum's band energies and the next frame is scheduled |
| `AudioAnalyzer.Analyzer.Setup` | src/app/hooks/useAudioAnalyzer.ts:83-98 | Connecting holds the new source and an analyser and runs the first frame |
| `AudioAnalyzer.Analyzer.StartFromFile` | src/app/hooks/useAudioAnalyzer.ts:100-110 | File start first releases the previous source. When the context and the element's source node are created it ends `playing` on a fresh source with the first frame's data; when creation throws, the exception escapes after the cleanup and the hook ends stopped |
| `AudioAnalyzer.Analyzer.StartFromMic` | src/app/hooks/useAudioAnalyzer.ts:112-124 | Microphone start first releases the previous source. Success ends `listening` on a fresh source with an empty file name; denial, or any throw the `catch` handles, ends stopped with zeroed data |
| `AudioAnalyzer.Analyzer.HandleFileChange` | src/app/components/controls/AudioControls.tsx:44-52 | As written: choosing a file ends with an empty file name, `playing` when the source is created and stopped when creation throws |
| `AudioAnalyzer.Analyzer.HandleFileChangeKeepingName` | src/app/components/controls/AudioControls.tsx:44-52 | Corrected: choosing a file ends `playing` showing the chosen name when the source is created, and stopped when creation throws |
| `AudioAnalyzer.FileNameIsLost` | src/app/components/controls/AudioControls.tsx:49-50 | For any non-empty name, the as-written handler shows the empty name instead, whether or not the source is created |
| `SliderControl.IsMultiplicativeKey` | src/app/components/controls/SliderControl.tsx:57-58 | Exactly `scale`, `speed` and `dotSize` are linked multiplicatively |
| `SliderControl.DefaultSensitivity` | src/app/components/controls/SliderControl.tsx:41 | New links start at sensitivity 20 when additive and 1 when multiplicative |
| `SliderControl.HandleLink` | src/app/components/controls/SliderControl.tsx:56-65 | Linking sends an entry for this slider's key with the chosen feature. It is multiplicative with sensitivity 1 exactly for `scale`, `speed` and `dotSize`, and additive with sensitivity 20 otherwise |
| `SliderControl.Unlink` | src/app/components/controls/SliderControl.tsx:111 | Unlink sends null for this slider's key |
| `SliderControl.ReactivityChange` | src/app/components/controls/SliderControl.tsx:137-139 | The reactivity slider sends a partial entry holding only the sensitivity |
| `SliderControl.ModeChange` | src/app/components/controls/SliderControl.tsx:150-164 | The mode buttons send a partial entry holding only the mode |
| `SliderControl.ReactivityRange` | src/app/components/controls/SliderControl.tsx:140-142 | The sensitivity range is [0,5] step 0.1 when multiplicative and [0,100] step 1 when additive, and contains the default sensitivity |
| `SliderControl.ValueSliderDisabled` | src/app/components/controls/SliderControl.tsx:126 | The value slider is disabled exactly while the table holds an entry for its key |
| `SliderControl.LinkBindsThisKey` | src/app/components/controls/SliderControl.tsx:56-65 | After a link, the key is mapped to the chosen feature and its value slider is disabled; other entries, config and zoom are unchanged |
| `SliderControl.UnlinkDeletes` | src/app/components/controls/SliderControl.tsx:111 | Unlink removes exactly this key's entry, which re-enables its value slider |
| `SliderControl.LinkThenUnlinkRestores` | src/app/components/controls/SliderControl.tsx:56-65 | Link then unlink on an unlinked slider restores the session |
| `SliderControl.TuningKeepsFeature` | src/app/components/controls/SliderControl.tsx:137-164 | Reactivity and mode changes alter only that field of a linked entry and are no-ops on unlinked sliders |
| `AudioControls.Filter` | src/app/components/controls/AudioControls.tsx:58-60 | The filter keeps exactly the keys present in the params, never lengthens, and keeps distinct keys distinct |
| `AudioControls.AvailableParams` | src/app/components/controls/AudioControls.tsx:22-32 | The available keys are exactly those of the fixed list that are present in the params, each once |
| `AudioControls.PermutationCovers` | src/app/components/controls/AudioControls.tsx:61 | A list of distinct indices below n of length n lists every index below n (pigeonhole) |
| `AudioControls.Shuffle` | src/app/components/controls/AudioControls.tsx:61 | A shuffle keeps the length, contains exactly the input's elements, and keeps distinct elements distinct |
| `AudioControls.MapCount` | src/app/components/controls/AudioControls.tsx:64-67 | The number to map is 3, 4 or 5 |
| `AudioControls.FeatureOf` | src/app/components/controls/AudioControls.tsx:70-71 | The feature index `floor(r·4)` lies in 0..3 and each quarter of [0, 1) picks one feature in list order: bass below 0.25, mids to 0.5, treble to 0.75, overall above |
| `AudioControls.Round2` | src/app/components/controls/AudioControls.tsx:78-79 | Rounding to two decimals moves a value by more than -0.005 and at most 0.005 and gives a whole number of hundredths |
| `AudioControls.SensitivityOf` | src/app/components/controls/AudioControls.tsx:76-79 | The drawn sensitivity lies in [0.5, 2.0] when multiplicative and [5, 30] when additive |
| `AudioControls.ModeFor` | src/app/components/controls/AudioControls.tsx:72-75 | The mode is multiplicative iff the key is `scale`, `speed` or `dotSize` |
| `AudioControls.EntryFor` | src/app/components/controls/AudioControls.tsx:69-81 | The entry for one chosen key has the drawn feature, the key's mode and a sensitivity in that mode's band |
| `AudioControls.Chosen` | src/app/components/controls/AudioControls.tsx:58-67 | min(available, n) distinct keys are chosen, all from the fixed list and present in the params |
| `AudioControls.DistinctCard` | src/app/components/controls/AudioControls.tsx:64-67 | Distinct keys give as many table entries as keys |
| `AudioControls.FillTable` | src/app/components/controls/AudioControls.tsx:69-82 | The loop gives one entry per chosen key, each built from that key's draws, with the mode rule and sensitivity bands |
| `AudioControls.RandomizeMappings` | src/app/components/controls/AudioControls.tsx:54-85 | One bulk replace of min(available, n) entries. The table's keys are exactly the chosen keys, which are from the fixed list and present in the params. Each entry is the one built from that key's draws (`EntryFor`): the drawn feature, the key's mode and the rounded drawn sensitivity in its band |
| `AudioControls.SpiralExcludesOBase` | src/app/components/controls/AudioControls.tsx:58-60 | `oBase` is never picked for the spiral defaults and is available for the vortex defaults |
| `AudioControls.DrawnSensitivityInSliderRange` | src/app/components/controls/AudioControls.tsx:76-79 | A drawn sensitivity starts inside the reactivity slider's range for its mode |
| `FileUtils.SavePatternConfig` | src/app/lib/patterns/fileUtils.ts:5-9 | Save writes `pattern` = the config's tag and `params` = its params unchanged, plus a timestamp |
| `FileUtils.HasPatternAndParams` | src/app/lib/patterns/fileUtils.ts:34 | The truthiness test holds exactly for a present non-empty `pattern` and a present `params` object, an empty params object included |
| `FileUtils.LoadPatternConfig` | src/app/lib/patterns/fileUtils.ts:29-50 | Load accepts iff it was read and parsed and `pattern` and `params` are truthy. An accepted load takes them unvalidated; otherwise it rejects with "Invalid config file structure.". A read or parse failure rejects with no config |
| `FileUtils.SaveThenLoad` | src/app/lib/patterns/fileUtils.ts:5-9 | Loading what save wrote gives back the original config |
| `FileUtils.LoadIgnoresTimestamp` | src/app/lib/patterns/fileUtils.ts:35-38 | The timestamp plays no part in loading |
| `FileUtils.LoadAcceptsAnyFamily` | src/app/lib/patterns/fileUtils.ts:34-38 | An unknown tag with any params is accepted as is |
| `VideoExport.BitrateFor` | src/app/components/shared/VideoExportDialog.tsx:136-151 | low→1 000 000, medium→4 000 000, high→8 000 000 |
| `VideoExport.BitrateIncreasesWithQuality` | src/app/components/shared/VideoExportDialog.tsx:136-151 | A better quality gets a strictly higher bitrate, and distinct qualities distinct bitrates |
| `VideoExport.HandleQualityChange` | src/app/components/shared/VideoExportDialog.tsx:136-154 | A quality change sets quality and its bitrate only |
| `VideoExport.HandleFpsChange` | src/app/components/shared/VideoExportDialog.tsx:128-130 | An fps change sets fps only |
| `VideoExport.HandleDurationChange` | src/app/components/shared/VideoExportDialog.tsx:132-134 | A duration change sets duration only |
| `VideoExport.FirstSupported` | src/app/components/shared/VideoExportDialog.tsx:45-57 | The chosen format is the first of vp9, vp8 and plain webm that is supported, or "" iff none is |
| `VideoExport.SelectMimeType` | src/app/components/shared/VideoExportDialog.tsx:51-57 | The `for`/`break` loop returns exactly that first supported format |
| `VideoExport.ProgressPercent` | src/app/components/shared/VideoExportDialog.tsx:115 | Progress is non-finite exactly for a zero duration, and at least 100 once the elapsed time reaches a positive duration |
| `VideoExport.TicksUntilStop` | src/app/components/shared/VideoExportDialog.tsx:109-121 | The recorder stops at the first 100 ms tick whose elapsed time reaches the duration, and never before tick 1 |
| `VideoExport.WholeSecondsTicks` | src/app/components/shared/VideoExportDialog.tsx:109-121 | For d whole seconds the recorder stops after exactly 10·d ticks |
| `VideoExport.ExportDialog.constructor` | src/app/components/shared/VideoExportDialog.tsx:27-31 | The dialog starts from the imported defaults, not exporting, with no recorder |
| `VideoExport.ExportDialog.ExportVideo` | src/app/components/shared/VideoExportDialog.tsx:33-126 | Without a canvas nothing changes. With no supported format, or a recorder that cannot be created, the export aborts with `isExporting` false and no recorder. Otherwise a recorder in the first supported format and the chosen bitrate starts with an empty chunk list and the ticker at 0 |
| `VideoExport.ExportDialog.OnDataAvailable` | src/app/components/shared/VideoExportDialog.tsx:78-82 | Only chunks of positive size are collected; options, progress, the exporting flag, the recorder and the ticker are unchanged |
| `VideoExport.ExportDialog.Tick` | src/app/components/shared/VideoExportDialog.tsx:113-121 | A tick adds 100 ms and updates progress. Once elapsed reaches the duration it stops the ticker and the recorder; while it keeps running the recorder is untouched. Options, duration, chunks and the exporting flag are unchanged |
| `VideoExport.ExportDialog.OnStop` | src/app/components/shared/VideoExportDialog.tsx:84-103 | Called once the ticker has stopped, the stop handler ends the export and resets progress to 0, keeps every other field, and keeps the dialog's invariant |
| `VideoExport.ExportDialog.RunTicker` | src/app/components/shared/VideoExportDialog.tsx:109-121 | Run to completion, the ticker makes exactly `TicksUntilStop` ticks and stops the recorder, keeping the duration, the options and the exporting flag; for a positive duration the last progress is at least 100 |
| `VideoExport.DefaultExportReachesFullProgress` | src/app/components/shared/VideoExportDialog.tsx:33-121 | With the default 10 s duration and any one of the three formats supported, an export runs exactly 100 ticks and ends showing progress of at least 100 percent |

## Findings

| source | as written | input that shows it | evidently intended | confidence | as-written member | corrected member |
|---|---|---|---|---|---|---|
| src/app/components/controls/AudioControls.tsx:49-50 | `setFileName(file.name)` runs before `startFromFile`, whose `cleanup` (src/app/hooks/useAudioAnalyzer.ts:47) sets the name back to `''` | choosing any file, e.g. `song.mp3`: the status line reads "Playing: " with no name | the chosen file's name is shown while it plays | high; not executed | `AudioAnalyzer.FileNameIsLost` | `AudioAnalyzer.Analyzer.HandleFileChangeKeepingName` |

## Left out

- Pattern drawing: the vortex and spiral formulas, the grid loops, canvas drawing, animation frames, resizing and the zoom transform. They are floating-point trigonometry and browser scheduling.
- Audio-driven parameter blending: no part of the source computes live values from the audio data, so nothing of it is modelled.
- Web Audio plumbing (`AudioContext`, `getUserMedia`, node connections, `getByteFrequencyData`). The spectrum is an input, a source is an abstract object with `connected`/`contextClosed` flags, and microphone permission is a boolean.
- `AudioAnalyzer.Analyzer.StartFromFile`: whether the browser creates the context and the element's source node is a boolean input. When the context is made but the source node throws, that context stays open and unreferenced; the model does not track it.
- `AudioAnalyzer.Analyzer.StartFromMic`: `granted` stands for every outcome of the `try`. When the context is made but `createMediaStreamSource` throws, that context stays open and unreferenced; the model does not track it.
- `AudioAnalyzer.Analyzer.HandleFileChange`: the `if (file && audioElementRef.current)` guard is not modelled. A cancelled file dialog does nothing in the source, and the model only covers the case where a file was chosen. The same holds for `HandleFileChangeKeepingName`.
- `AudioAnalyzer.Analyzer.StartFromMic`: the `await` between cleanup and the permission answer is not modelled, so events that interleave there are not covered.
- `AudioAnalyzer.Ends`: the band ends use exact rational arithmetic. Floating-point rounding of `bufferLength * (250 / 22050)` is not modelled; it can differ only when the exact product is an integer.
- `AudioControls.Round2`: `toFixed(2)` is modelled as round-half-up to two decimals of an exact real; binary floating-point rounding is not modelled.
- `AudioControls.Shuffle`: the sort with a random comparator is modelled as some permutation; which permutations the browser's sort can produce is not modelled.
- `FileUtils.LoadPatternConfig`: the parsed fields are a string and a number map. JSON values of other types in `pattern` or `params` (numbers, arrays, `true`) are not modelled. File reading, `JSON.parse`/`JSON.stringify`, Blob downloads and the download file names are I/O and are not modelled.
- Video export: MediaRecorder, canvas capture, timers and the download are browser objects. Creating a recorder is modelled only as "fails or succeeds", and the download in the stop handler is left out.
- `VideoExport.HandleQualityChange`: the `switch` default (bitrate 4 000 000 for a value outside low/medium/high) cannot happen with the three-valued `Quality` type and is not modelled.
- NaN and infinite numbers: `Number(...)` of a non-numeric duration and NaN zoom values are not modelled. The one NaN the analyzer replaces is modelled as the empty-band case, and the infinite progress of a zero duration as `None`.
- The config import path of the config controls only forwards the parsed `params` and `pattern` without checks. It is not modelled beyond `FileUtils`.
- Presentational components, navigation and layout have no logic of their own beyond dispatching the reducer actions modelled here.
