# stepper3 sequencing core in Dafny

This project models the sequencing core of the stepper3 browser drum machine:

- the step sequencer (`js/sequencer.js`);
- the shared application state with track construction and whole-state save/load (`js/state-woscillators.js`);
- the sixteen-slot pattern bank (`js/pattern-bank.js`);
- the scale and note utilities (`js/music-utils.js`).

It then proves properties of that model.

Modules follow the source files:

| module | file | entities |
|---|---|---|
| `Common` | (shared) | JavaScript's remainder, logical-or defaulting, nullish defaulting and `Math.round`, written out; `Option`; parameter maps; step-lock snapshots |
| `MusicUtils` | `music-utils.dfy` | the scale table, `getScaleNotes` (a loop, as a method against a specification function), clamping, `indexOf`, note names and their inverse |
| `EngineSpecs` | `engine_specs.dfy` | the per-engine parameter bounds that the LFO clamp consults |
| `TrackState` | `track_state.dfy` | `Track` as a record; class `AppState` for the mutable `state` object (tracks map, processing order, transport counters); `initializeTrack(s)`; save/load |
| `Sequencer` | `sequencer.dfy` | bar conditions, next active step, drum locks and slides, the melodic accumulator loop, LFO modulation, the per-tick pass, and class `Sequencer` (start/stop/reset/tempo/tick) |
| `PatternBank` | `pattern_bank.dfy` | class `PatternBank` (slot array and clipboard), saved-pattern snapshots, export/import documents, the drum-code mapping |

Modelling decisions:

- **The timer is a boolean.** `setInterval`/`clearInterval` become `Sequencer.timerActive`. The timer's callback `step` becomes the explicit method `Sequencer.Tick`.
- **Sounds are recorded, not played.** Each `audioEngine.playDrum` call becomes a `Trigger` appended to the ghost log `Sequencer.log`. A slide's shortened decay travels inside the trigger's parameters.
- **The LFO value is a parameter.** `evaluateLFO` reads the audio clock, so each LFO value is supplied by a `LfoReading` function of (track id, step index, LFO slot).
- **Track order is explicit.** `Object.values(state.tracks)` visits tracks in insertion order, so `AppState.trackOrder` records the order of `initializeTrack` calls.
- **Shaped tracks.** The invariant `Registry` says:
  - every track is stored under its own id;
  - its five per-step arrays (steps, velocities, conditions, locks, slides) have one length, which is what the sequencer indexes.
- **Pattern-bank slots.** A slot is `Undefined`, `Null` or `Stored(pattern)`.
  - `Undefined` is what JavaScript reads past the end of an array, and in the holes a far write leaves.
  - `patterns[index] = v` is `Write`.
  - `pattern-bank.js` imports `./state.js`, and `state-woscillators.js` is the only state module in the core, so the bank works on the `TrackState.AppState` object.
- **Arithmetic.** Integers are unbounded and numbers are exact reals. JavaScript's truncating `%` is `JsRem`. `Math.round` is `floor(x + 0.5)`.

## Model

| member | source | states |
|---|---|---|
| MusicUtils.ScaleDefinitionsWellFormed | js/music-utils.js:9-30 | every scale's interval list starts at 0, rises strictly and stays within 0..11 |
| MusicUtils.FindScaleSpec | js/music-utils.js:53 | `find` gives nothing exactly when no definition has the id; otherwise it gives the first definition with that id |
| MusicUtils.GetScaleDefinitionSpec | js/music-utils.js:52-54 | the result is always a table entry; a known id gets its own definition; an unknown id falls back to ionian |
| MusicUtils.PitchClass | js/music-utils.js:61 | the double remainder lies in [0, 12) and is the true residue of `note - root` modulo 12, negative differences included |
| MusicUtils.WindowNotesMembership | js/music-utils.js:60-65 | a note is collected exactly when it lies in the window and its pitch class is one of the scale's intervals |
| MusicUtils.WindowNotesAscending | js/music-utils.js:60-65 | the collected notes rise strictly |
| MusicUtils.ScaleNotesSpec | js/music-utils.js:56-72 | the list is never empty and rises strictly; it is `[root]` when no window note fits the scale, and otherwise holds exactly the window's scale notes |
| MusicUtils.CollectScaleNotes | js/music-utils.js:58-65 | the loop yields the window's scale notes in order |
| MusicUtils.GetScaleNotes | js/music-utils.js:56-72 | the method returns the scale-notes specification, so the properties of ScaleNotesSpec hold for it |
| MusicUtils.ClampIndex | js/music-utils.js:74-77 | 0 for an empty range; otherwise a valid index, equal to the value when the value is in range and pinned to the nearer end when it is not |
| MusicUtils.IndexOf | js/music-utils.js:81 | -1 exactly when the note is absent; otherwise the first position holding it |
| MusicUtils.CycleScaleIndex | js/music-utils.js:79-85 | an empty list returns the note; otherwise the result is one of the scale notes; an unknown note counts from index 0; a zero offset from a listed note returns that note; a listed note moves `offset` places from its first occurrence, clamped at the ends of the list |
| MusicUtils.MidiToNoteName | js/music-utils.js:45-50 | for a non-negative MIDI number: the note name of its pitch class followed by the octave `floor(midi / 12) - 1` |
| MusicUtils.MiddleC | js/music-utils.js:45-50 | 60 is "C4", 69 is "A4" and 0 is "C-1" |
| MusicUtils.NoteNameRoundTrip | js/music-utils.js:45-50 | reading a non-negative MIDI number's name back gives the number, so different notes get different names |
| EngineSpecs.EngineSpecsWellFormed | js/audio-engine-woscillators.js:576-818 | every declared parameter range is non-empty (min <= max), so the LFO clamp always has a target |
| TrackState.GetDefaultParams | js/state-woscillators.js:106-303 | every engine's defaults hold exactly the nine Plaits parameter names |
| TrackState.UnknownEngineDefaults | js/state-woscillators.js:302 | an engine missing from the table gets the kick's defaults (engine number 13) |
| TrackState.NewTrack | js/state-woscillators.js:42-104 | the new track is well formed (all per-step arrays `maxSteps` long); it has the given id, name and engine and is unmuted; a missing or zero `maxSteps` becomes 16; a melodic track plays the smaller of `maxSteps` and `stepCount` (a missing or zero `stepCount` means `maxSteps`) |
| TrackState.NewTrackDefaults | js/state-woscillators.js:42-96 | every step starts off, at velocity 0.8, condition 1:1, no lock, no slide and note index 0; three inert LFOs; the engine's defaults and the default effects, mirrored in `normalState`; the synth state starts at accumulator 0 and step -1 |
| TrackState.SaveTrack | js/state-woscillators.js:337-364 | a saved track carries synth settings exactly when it is melodic |
| TrackState.MergeTrackSpec | js/state-woscillators.js:379-411 | loading replaces mute, engine, parameters, effects and morph state; it never touches the step grid, id, name, type or runtime synth state; it changes the synth settings only for a melodic track whose entry has them |
| TrackState.MergeKeepsOrAccepts | js/state-woscillators.js:394-408 | fields read with logical-or keep the old value on 0 or ""; fields read with `??` accept 0 and keep the old value only when absent |
| TrackState.MergeSavedTrack | js/state-woscillators.js:330-412 | loading a track's own saved entry into it leaves it unchanged |
| TrackState.LoadTracks | js/state-woscillators.js:379-411 | the key set is unchanged; ids in both maps are merged; ids only in the document are ignored; the rest are untouched |
| TrackState.LoadSavedTracks | js/state-woscillators.js:330-412 | loading the saved tracks back restores the track table exactly |
| TrackState.DefaultTracksSpec | js/state-woscillators.js:318-327 | the six default drum tracks are 16-step drum tracks with their engines; the two melodic tracks are 32-step `plaits_va` tracks that play 16 steps |
| TrackState.DefaultTracksKeys | js/state-woscillators.js:318-327 | `initializeTracks` adds exactly the eight default ids to the table |
| TrackState.DefaultOrderFromEmpty | js/state-woscillators.js:318-327 | from an empty table, tracks are processed kick, snare, hihat, tom, perc, cymbal, bass, lead |
| TrackState.AppState.constructor | js/state-woscillators.js:3-31 | stopped at tempo 128, step -1, bar 0, step-in-bar 0, "kick" selected, pattern 0, default master effects, no tracks |
| TrackState.AppState.InitializeTrack | js/state-woscillators.js:42-104 | the new track is stored under its id, replacing any old one; a new id is appended to the processing order; the transport and master effects are unchanged; the invariant is kept |
| TrackState.AppState.InitializeTracks | js/state-woscillators.js:318-327 | the table becomes the eight defaults laid over the old one, in the default registration order; tempo, master effects, the transport counters, the selected track and the pattern slot are unchanged |
| TrackState.AppState.SaveCompleteState | js/state-woscillators.js:330-367 | the document has version "2.0", tempo, pattern and master effects, and one entry per track; an entry has synth settings exactly for melodic tracks |
| TrackState.AppState.LoadCompleteState | js/state-woscillators.js:369-412 | succeeds exactly for versions "1.0" and "2.0" with a track table; an unknown version changes nothing; an accepted version sets tempo, pattern (0 when missing or zero) and master effects, then merges the tracks, or, with no track table, fails with those three already written and the tracks untouched; the order and transport are kept |
| TrackState.MergeSavedTracks | js/state-woscillators.js:379-411 | the loop over the document's entries yields the merged track table |
| TrackState.LoadTracksKeepsIds | js/state-woscillators.js:379-411 | loading keeps every track under its own id and keeps its step arrays aligned |
| TrackState.SaveThenLoad | js/state-woscillators.js:330-412 | saving the state and loading the document straight back leaves tempo, pattern, master effects, tracks and order exactly as they were; the playing flag, the transport counters and the selected track are not touched |
| Sequencer.ShouldTriggerSpec | js/sequencer.js:100-107 | 1:1 always fires; `k:n` fires exactly in the bars with `bar % n == k - 1`; the answer repeats every `n` bars; a condition with `k` outside 1..n never fires |
| Sequencer.ExactlyOncePerCycle | js/sequencer.js:100-107 | a condition `k:n` with 1 <= k <= n fires in exactly one bar of every `n` consecutive bars |
| Sequencer.StepAfter | js/sequencer.js:112 | `(from + i) % 16` for a step and an offset below 16 is the step `i` places on, wrapping once |
| Sequencer.NextFromSpec | js/sequencer.js:109-118 | the search from offset `i` finds nothing exactly when no later offset holds an active step; otherwise it finds the nearest one |
| Sequencer.NextActiveStepSpec | js/sequencer.js:109-118 | `findNextActiveStep` gives null exactly when no other step is on; otherwise it gives the first active step after the current one, cyclically, and never the current step itself |
| Sequencer.FindNextActiveStep | js/sequencer.js:109-118 | the loop returns the specified next active step |
| Sequencer.SlideDistanceSpec | js/sequencer.js:145-147 | the distance to a different step is between 1 and 15, and stepping that far forward (mod 16) reaches it |
| Sequencer.SlideDistanceOfNext | js/sequencer.js:143-147 | the slide distance to the next active step passes over no active step |
| Sequencer.SlideDecay | js/sequencer.js:120-125 | the slide decay `min((60 / tempo) * (distance / 4), 2)` equals the product when that is at most 2 and is 2 otherwise; it is positive for a positive tempo and distance; it is 2 at tempo 0, where JavaScript divides to Infinity |
| Sequencer.LockedEngine | js/sequencer.js:137 | without a lock the track's engine is used; a lock's non-empty engine overrides it |
| Sequencer.DrumTriggerSpec | js/sequencer.js:127-159 | a drum step sounds exactly when it is on and its condition fires in the current bar; the sound carries the track id and the step's velocity, and the lock's engine, parameters and effects or the track's own; parameters other than decay are unchanged; a slid step with a next active step has its decay replaced by `SlideDecay` of the tempo and the wrap-aware distance to that step, hence at most 2 |
| Sequencer.ProcessDrumTrack | js/sequencer.js:127-159 | the method requests exactly the specified sound |
| Sequencer.GetNoteFromScale | js/sequencer.js:208-212 | 60 for an empty list; otherwise a scale note at the clamped index, and the indexed note when the index is in range |
| Sequencer.BaseIndex | js/sequencer.js:203-204 | the base index never exceeds the last scale index; a stored note index within range is used as is; a missing entry reads as 0 |
| Sequencer.ResolveSynthNote | js/sequencer.js:200-206 | the track's scale notes over `[rangeStart, rangeStart + rangeSpan - 1]`, never empty, with a base index inside them |
| Sequencer.Clamp | js/sequencer.js:230 | the value is pushed into [lo, hi] and left alone when already inside |
| Sequencer.ApplyLFOSpec | js/sequencer.js:221-233 | one LFO changes at most its destination parameter and leaves it inside the engine's range; it moves the note offset only when it targets transpose |
| Sequencer.LfoModulationSpec | js/sequencer.js:214-237 | after all LFOs: every modulated parameter is present and inside its engine range; every other parameter is exactly as given; without a transposing LFO the note offset is 0 |
| Sequencer.ApplySynthLFOs | js/sequencer.js:214-237 | the loop over the LFO slots yields the specified modulation |
| Sequencer.SynthStepTriggerSpec | js/sequencer.js:179-198 | a melodic step sounds exactly when it is on and its condition fires; the sound has the track's id, engine, effects and the step's velocity; its note is one of the track's scale notes |
| Sequencer.TriggerSynthStep | js/sequencer.js:179-198 | returns the specified sound; it raises the track's playing flag exactly when a sound is made and changes nothing else |
| Sequencer.SynthStepCount | js/sequencer.js:166 | the first non-zero of the track's `stepCount`, its `maxSteps` and 16, so never zero |
| Sequencer.SynthRate | js/sequencer.js:168 | the track's rate multiplier, or 1 when it is zero; never zero, and positive for a non-negative multiplier |
| Sequencer.SynthLoopSpec | js/sequencer.js:172-176 | the loop uses up the accumulator's whole part and leaves its fraction; it plays at most that many steps, all with the track's own id, engine and effects; the playing flag ends up raised exactly when it was up already or a step sounded |
| Sequencer.SynthLoopIndex | js/sequencer.js:172-176 | after `n` passes from step index `s`, the track stands at step `(s + n) % stepCount` |
| Sequencer.SynthTickSpec | js/sequencer.js:161-177 | a non-positive step count leaves the track alone; only the runtime synth state changes; the accumulator keeps exactly the fractional part of `acc + rate`; below 1 the step index stays and nothing plays; from an accumulator in [0, 1) and a positive rate, at most `floor(acc + rate)` steps play, the accumulator returns to [0, 1) and the step index lands in [0, stepCount) |
| Sequencer.ProcessSynthTrack | js/sequencer.js:161-177 | the loop with its in-place updates yields the specified track and sounds |
| Sequencer.AdvanceSpec | js/sequencer.js:66-75 | from counters in range, the global step and the step in bar each advance by one modulo 16, and the bar advances (mod 4) exactly when the step in bar wraps |
| Sequencer.BarTurnsOnLastStep | js/sequencer.js:66-75 | while the step in bar follows the global step, it keeps doing so, and the bar changes exactly when the new step is 15 |
| Sequencer.ClearFlag | js/sequencer.js:78-82 | a melodic track's playing flag is lowered and nothing else changes; a drum track is untouched |
| Sequencer.ClearFlags | js/sequencer.js:78-82 | the first pass keeps the set of track ids |
| Sequencer.PlayTrack | js/sequencer.js:85-92 | a muted track is skipped; a drum track is unchanged and asks for at most one sound; only the runtime synth state can change; every sound is the track's own |
| Sequencer.PlayTracks | js/sequencer.js:85-92 | the second pass keeps the id set and the step arrays, and changes only runtime synth state |
| Sequencer.PlayTracksFrame | js/sequencer.js:85-92 | with ids listed once, each listed track is played once and the others are left alone |
| Sequencer.PlayTracksSources | js/sequencer.js:85-92 | every sound of the pass comes from a listed, unmuted track |
| Sequencer.TickTracksSpec | js/sequencer.js:77-92 | per tick: drum tracks are unchanged; a muted melodic track only has its playing flag lowered; an unmuted melodic track runs its own clock from a lowered flag; every sound comes from an unmuted track |
| Sequencer.TickKeepsRegistry | js/sequencer.js:77-92 | a tick keeps every track under its id, with aligned step arrays, in the same processing order |
| Sequencer.ClearSynthFlags | js/sequencer.js:78-82 | the loop yields the first pass |
| Sequencer.PlayAllTracks | js/sequencer.js:85-92 | the loop yields the second pass, its tracks and its sounds in processing order |
| Sequencer.TickAllTracks | js/sequencer.js:77-92 | both passes of a tick, in sequence |
| Sequencer.Sequencer.constructor | js/sequencer.js:10 | the timer starts stopped, over a stopped state, with an empty log |
| Sequencer.Sequencer.Start | js/sequencer.js:20-30 | the timer runs and the state is playing; a running timer is not started twice |
| Sequencer.Sequencer.Stop | js/sequencer.js:32-44 | the timer stops, the state is not playing and the playhead returns to -1 |
| Sequencer.Sequencer.Reset | js/sequencer.js:46-64 | the counters return to step -1, bar 0 and step-in-bar 0, and a playing sequencer is still playing afterwards |
| Sequencer.Sequencer.UpdateTempo | js/sequencer.js:263-270 | the tempo is stored; a playing sequencer keeps playing and rewinds to step -1; a stopped one keeps its step |
| Sequencer.Sequencer.AdvanceClock | js/sequencer.js:66-75 | the counters take the specified next values and stay in range |
| Sequencer.Sequencer.Tick | js/sequencer.js:66-98 | one timer callback advances the counters, replaces the tracks with the tick's result for the new step and bar, appends the tick's sounds to the log, and keeps every invariant |
| PatternBank.WriteSpec | js/pattern-bank.js:30 | a write changes the written slot and no other; the array grows to `index + 1` only when writing past the end |
| PatternBank.RestoreRoundTrip | js/pattern-bank.js:37-52 | restoring a track from its own snapshot changes nothing, and a restored track's snapshot is the one restored |
| PatternBank.PatternOf | js/pattern-bank.js:11-28 | a saved pattern has one entry per track |
| PatternBank.ApplyPattern | js/pattern-bank.js:37-52 | loading never adds or removes tracks |
| PatternBank.LoadSavedPattern | js/pattern-bank.js:11-55 | loading a saved pattern over edited tracks gives the saved step data back; it keeps each track's other fields; tracks missing from the pattern are untouched |
| PatternBank.LoadOwnPattern | js/pattern-bank.js:11-55 | loading the current tracks' own pattern changes nothing |
| PatternBank.PatternKeepsRegistry | js/pattern-bank.js:33-55 | loading a pattern whose step arrays are aligned keeps the application-state invariant |
| PatternBank.SavedPatternShaped | js/pattern-bank.js:11-31 | a pattern saved from a consistent state has aligned step arrays |
| PatternBank.CapturePattern | js/pattern-bank.js:11-28 | the loop over the tracks yields the saved pattern |
| PatternBank.RestoreTracks | js/pattern-bank.js:37-52 | the loop over the pattern's entries yields the loaded tracks |
| PatternBank.PatternBank.constructor | js/pattern-bank.js:6-9 | sixteen `null` slots and an empty clipboard, so no slot below 16 reports a pattern |
| PatternBank.PatternBank.Save | js/pattern-bank.js:11-31 | slot `index` receives the current tracks' pattern, growing the array when needed |
| PatternBank.PatternBank.Load | js/pattern-bank.js:33-55 | succeeds exactly when the slot holds a pattern and then loads it into the tracks; otherwise the tracks are unchanged |
| PatternBank.PatternBank.Clear | js/pattern-bank.js:57-59 | slot `index` becomes `null` and reports no pattern |
| PatternBank.PatternBank.HasPattern | js/pattern-bank.js:61-63 | inside the array, true exactly when the slot is not `null`; past the end, always true |
| PatternBank.PatternBank.HasStoredPattern | js/pattern-bank.js:61-63 | true only for a slot inside the array that is not `null`, and true for every stored pattern |
| PatternBank.PatternBank.Copy | js/pattern-bank.js:65-67 | the clipboard gets the slot as it is, empty or not |
| PatternBank.PatternBank.Paste | js/pattern-bank.js:69-73 | a clipboard holding a pattern is written to the slot; an empty clipboard changes nothing |
| PatternBank.PatternBank.ExportPattern | js/pattern-bank.js:114-122 | a document exists exactly for a slot holding a pattern, with version "1.0" and that pattern |
| PatternBank.PatternBank.ImportPattern | js/pattern-bank.js:124-130 | accepted exactly when the version is "1.0" and a pattern is present, and then it is stored in the slot; otherwise nothing changes |
| PatternBank.PatternBank.ExportAllPatterns | js/pattern-bank.js:132-137 | version "1.0" with the whole slot array |
| PatternBank.PatternBank.ImportAllPatterns | js/pattern-bank.js:139-145 | accepted exactly when the version is "1.0" and a truthy `patterns` is present (modelled as an array), and then it replaces the whole array; otherwise nothing changes |
| PatternBank.HasPatternPastEnd | js/pattern-bank.js:61-63 | past the end of the array `hasPattern` says yes while nothing can be loaded or exported there |
| PatternBank.SlotPastEndOfFreshBank | js/pattern-bank.js:6-63 | on a fresh bank slot 16 is reported as taken, yet loading it fails |
| PatternBank.HasStoredPatternSpec | js/pattern-bank.js:61-63 | a slot holds a pattern exactly when it can be exported, and then `hasPattern` also says yes |
| PatternBank.SaveThenLoad | js/pattern-bank.js:11-55 | saving a slot and loading it straight back succeeds and leaves every track as it was |
| PatternBank.CopyThenPaste | js/pattern-bank.js:65-73 | copy then paste duplicates a stored pattern into the target slot and leaves every other slot as it was; copying an empty or missing slot and pasting changes no slot |
| PatternBank.ExportThenImport | js/pattern-bank.js:114-130 | importing a slot's own export leaves the bank unchanged |
| PatternBank.ExportAllThenImportAll | js/pattern-bank.js:132-145 | importing the bank's own whole export succeeds and leaves the bank unchanged |
| PatternBank.MapDrumToTrackSpec | js/pattern-bank.js:148-177 | every drum code lands on one of the six drum tracks; a table code on its table entry; a clap on the snare or the perc track |
| PatternBank.DrumTableEntries | js/pattern-bank.js:149-175 | a bass drum goes to kick, an open hi-hat to hihat, a crash to cymbal, and an unknown code to some drum track |

## Left out

- The audio graph (`js/audio-engine-woscillators.js`): voices, effects, the reverb impulse and the external synthesis library are foreign calls and floating point. Only the parameter bounds of `ENGINE_SPECS` are kept, for the LFO clamp; `FX_SPECS` is not part of this model.
- `evaluateLFO`: it reads the audio clock and `Math.random` and computes sines. The value of each LFO is the `LfoReading` parameter.
  - One reading per (track, step, slot) is assumed, so a step that fires twice in one tick sees the same value.
- The timer period: `stepDuration = (60 / tempo) * 1000 / 4` and `setInterval` are not modelled beyond the running/stopped boolean.
- The render callback and `setAudioEngine`/`setRenderCallback`: UI notifications with no effect on the state.
- `loadMagicPattern`: it fetches a JSON file over the network and draws random numbers. `mapDrumToTrack` is modelled with the random draw as a parameter in [0, 1).
- `js/ui.js` and `js/main.js`: DOM handling, file I/O and morph interpolation are not part of this model.
- `NOTE_OPTIONS` and `LFO_WAVES` in `js/music-utils.js`: display tables with no logic. `SEQUENCER_RATES` is kept as a constant.
- `getTrack`, `setSelectedTrack` and `getSelectedTrack`: plain field reads and writes. The fields they read and write are part of `AppState`.
- The global morph and condition-modal fields of `state` (`conditionModalStep`, `globalMorphAmount`, ...): only the UI uses them.
- Negative slot indices, prototype-named keys such as `"__proto__"`, non-numeric `maxSteps` and `Array(n)` for a negative `n` are not modelled. Indices are `nat` and ids are plain keys.
- JSON deep copies and object spreads are modelled as values. The aliasing they avoid is not modelled, nor the aliasing that `exportAllPatterns`, `importPattern` and `importAllPatterns` create by storing the caller's objects by reference.
- Malformed condition strings such as `"2:0"` (JavaScript gives `NaN`) are outside the `Cond` type: `Cond` always has a total of at least 1.
- The branch of `processSynthTrack` that recreates a missing `synthState`: every modelled track has one. Initially `isPlaying` is `undefined` in JavaScript; it is taken here as `false`.
- `Object.values` visits integer-like keys first. Track ids are visited in registration order here.
- `Registry` (aligned step arrays) covers how tracks are built, but an imported or loaded pattern with mismatched array lengths is not covered.
  - JavaScript would read `undefined` from such a pattern during `step`.
  - `PatternBank.PatternBank.Load` therefore promises the invariant only through `PatternBank.PatternKeepsRegistry`, for patterns with aligned arrays.
- `TrackState.WellFormed` (`stepCount <= maxSteps` and per-step arrays of `maxSteps` entries) holds for a track built by `NewTrack`, but no load keeps it. `loadCompleteState` takes `stepCount` and `noteIndices` from the document as they are, as the source does, so a loaded track may play more steps than it has or carry a note list of another length. Only `Registry` is kept across loads.
- TrackState.AppState.LoadCompleteState: the source throws on an unknown version; the model returns `false` and changes nothing, which is what a caller that catches the error observes.
- TrackState.AppState.LoadCompleteState: a missing track table is modelled (the call fails after tempo, pattern slot and master effects are written). Every other document field is taken to be present and well typed: a missing `tempo`, or a track entry without `mute` or `engine`, would store `undefined`, and one without `params` or `fx` would store `{}`; those paths are not modelled.
- Sequencer.SlideDecay: JavaScript's `Infinity` at tempo 0 is modelled (the decay is 2). Floating-point rounding of the product is not, and a negative tempo gives the exact negative product.

## Findings

| source | as written | input that shows it | evidently intended | confidence | as-written member | corrected member |
|---|---|---|---|---|---|---|
| js/pattern-bank.js:61-63 | `hasPattern` tests `!== null`, so a slot past the end of the array (`undefined`) counts as taken | a fresh bank asked about index 16; or the bank after `importAllPatterns` of a shorter array, asked about a slot past its end. The slot is reported as taken, but `loadPattern` returns false and `exportPattern` returns null | a slot counts as taken only when it holds a pattern, the same test `loadPattern` and `exportPattern` use | not executed | PatternBank.SlotPastEndOfFreshBank | PatternBank.PatternBank.HasStoredPattern |
