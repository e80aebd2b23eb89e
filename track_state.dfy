/** The application's single state container: the tracks with their step
    grids, the global transport counters and master effects, track
    construction, and the whole-state save and load. */
module TrackState {
  import opened Common

  /** A bar condition `"k:n"`: the step fires only in bars with `bar % n == k - 1`. */
  datatype Condition = Condition(trigger: int, total: int)
  type Cond = c: Condition | c.total >= 1 witness Condition(1, 1)

  /** `"1:1"`, the condition that always fires. */
  const ALWAYS: Cond := Condition(1, 1)

  datatype LFO = LFO(destination: string, wave: string, depth: real, rate: real)

  /** Runtime-only state of a melodic track: the fractional step accumulator,
      the track's own step index and whether it fired in the current tick. */
  datatype SynthState = SynthState(accumulator: real, stepIndex: int, isPlaying: bool)

  datatype Track = Track(
    id: string,
    name: string,
    mute: bool,
    engine: string,
    params: Params,
    fx: Params,
    normalState: Option<Snapshot>,
    morphAmount: real,
    targetParams: Option<Params>,
    steps: seq<bool>,
    velocities: seq<real>,
    stepConditions: seq<Cond>,
    stepLocks: seq<Option<Snapshot>>,
    stepSlides: seq<bool>,
    maxSteps: int,
    stepCount: int,
    rateMultiplier: real,
    isSynth: bool,
    noteIndices: seq<int>,
    rootNote: int,
    scale: string,
    rangeStart: int,
    rangeSpan: int,
    transpose: int,
    lfos: seq<LFO>,
    synthState: SynthState)

  /** The optional third argument of `initializeTrack`. */
  datatype TrackOptions = TrackOptions(synthType: bool, maxSteps: Option<nat>, stepCount: Option<int>)

  const NO_OPTIONS: TrackOptions := TrackOptions(false, None, None)

  /** The options of the two default melodic tracks: 32 steps, 16 of them played. */
  const SYNTH_OPTIONS: TrackOptions := TrackOptions(true, Some(32), Some(16))

  /** The registration (and processing) order of the default tracks. */
  const DEFAULT_ORDER: seq<string> := ["kick", "snare", "hihat", "tom", "perc", "cymbal", "bass", "lead"]

  /** The five index-aligned per-step arrays have one common length. */
  predicate Shaped(t: Track) {
    && |t.velocities| == |t.steps|
    && |t.stepConditions| == |t.steps|
    && |t.stepLocks| == |t.steps|
    && |t.stepSlides| == |t.steps|
  }

  /** The invariants a freshly built track has: every per-step array is
      `maxSteps` long, `stepCount <= maxSteps`, and a drum track plays all of
      its steps. */
  predicate WellFormed(t: Track) {
    && Shaped(t)
    && t.maxSteps >= 1
    && |t.steps| == t.maxSteps
    && |t.noteIndices| == t.maxSteps
    && t.stepCount <= t.maxSteps
    && (!t.isSynth ==> t.stepCount == t.maxSteps)
  }

  const DEFAULT_FX: Params := map[
    "waspFilter" := 0.0, "waspFreq" := 2000.0, "waspRes" := 5.0, "waspDrive" := 2.0,
    "drive" := 1.0, "distortion" := 0.0, "resonator" := 0.0, "resFreq" := 440.0,
    "resDecay" := 0.3, "delay" := 0.0, "delayTime" := 0.25, "reverb" := 0.0, "reverbSize" := 2.0]

  function CreateDefaultLFO(): LFO {
    LFO("none", "sine", 0.0, 0.5)
  }

  /** One engine's default parameter set; `fm` and `fade` are 0 for every engine. */
  function PlaitsParams(note: real, harmonics: real, timbre: real, morph: real, decay: real, volume: real, engineNumber: real): Params {
    map["note" := note, "harmonics" := harmonics, "timbre" := timbre, "morph" := morph,
        "fm" := 0.0, "decay" := decay, "fade" := 0.0, "volume" := volume, "engine" := engineNumber]
  }

  const KICK_DEFAULTS: Params := PlaitsParams(36.0, 0.5, 0.3, 0.5, 0.5, 0.9, 13.0)

  const PARAM_NAMES: set<string> := {"note", "harmonics", "timbre", "morph", "fm", "decay", "fade", "volume", "engine"}

  /** `getDefaultParams`: the engine's defaults, the kick's for an unknown engine. */
  function GetDefaultParams(engine: string): (p: Params)
    ensures p.Keys == PARAM_NAMES
  {
    match engine
    case "plaits_kick" => KICK_DEFAULTS
    case "plaits_snare" => PlaitsParams(60.0, 0.5, 0.6, 0.7, 0.15, 0.9, 14.0)
    case "plaits_hihat" => PlaitsParams(72.0, 0.6, 0.5, 0.8, 0.08, 0.8, 15.0)
    case "plaits_modal" => PlaitsParams(48.0, 0.5, 0.5, 0.6, 1.0, 0.8, 12.0)
    case "plaits_fm" => PlaitsParams(60.0, 0.5, 0.5, 0.0, 0.3, 0.8, 2.0)
    case "plaits_noise" => PlaitsParams(60.0, 0.5, 0.5, 0.3, 0.2, 0.8, 9.0)
    case "plaits_va" => PlaitsParams(48.0, 0.5, 0.5, 0.5, 0.5, 0.8, 0.0)
    case "plaits_ws" => PlaitsParams(48.0, 0.5, 0.5, 0.5, 0.5, 0.8, 1.0)
    case "plaits_grain" => PlaitsParams(48.0, 0.5, 0.5, 0.5, 0.8, 0.8, 3.0)
    case "plaits_add" => PlaitsParams(48.0, 0.5, 0.5, 0.0, 0.5, 0.8, 4.0)
    case "plaits_wt" => PlaitsParams(48.0, 0.0, 0.5, 0.0, 0.5, 0.8, 5.0)
    case "plaits_chord" => PlaitsParams(48.0, 0.3, 0.5, 0.5, 0.5, 0.8, 6.0)
    case "plaits_vowel" => PlaitsParams(48.0, 0.5, 0.5, 0.2, 0.5, 0.8, 7.0)
    case "plaits_swarm" => PlaitsParams(48.0, 0.6, 0.4, 0.5, 0.7, 0.8, 8.0)
    case "plaits_particle" => PlaitsParams(48.0, 0.6, 0.5, 0.5, 0.6, 0.8, 10.0)
    case "plaits_string" => PlaitsParams(36.0, 0.5, 0.6, 0.3, 1.5, 0.8, 11.0)
    case _ => KICK_DEFAULTS
  }

  const KNOWN_ENGINES: set<string> := {
    "plaits_kick", "plaits_snare", "plaits_hihat", "plaits_modal", "plaits_fm", "plaits_noise",
    "plaits_va", "plaits_ws", "plaits_grain", "plaits_add", "plaits_wt", "plaits_chord",
    "plaits_vowel", "plaits_swarm", "plaits_particle", "plaits_string"}

  /** An engine id without defaults of its own gets the kick's defaults. */
  lemma UnknownEngineDefaults(engine: string)
    requires engine !in KNOWN_ENGINES
    ensures GetDefaultParams(engine) == KICK_DEFAULTS
    ensures GetDefaultParams(engine)["engine"] == 13.0
  {
  }

  /** `initializeTrack`'s record, before it is registered. */
  function NewTrack(trackId: string, name: string, engine: string, options: TrackOptions): (t: Track)
    ensures WellFormed(t)
    ensures t.id == trackId && t.name == name && t.engine == engine && !t.mute
    ensures t.maxSteps == (if options.maxSteps.Some? && options.maxSteps.value != 0 then options.maxSteps.value else 16)
    ensures t.isSynth == options.synthType
    ensures t.isSynth ==> t.stepCount == MinInt(OrInt(options.stepCount, t.maxSteps), t.maxSteps)
  {
    var maxSteps := if options.maxSteps.Some? && options.maxSteps.value != 0 then options.maxSteps.value else 16;
    var isSynth := options.synthType;
    var params := GetDefaultParams(engine);
    Track(
      trackId, name, false, engine, params, DEFAULT_FX,
      Some(Snapshot(engine, params, DEFAULT_FX)), 0.0, None,
      seq(maxSteps, _ => false), seq(maxSteps, _ => 0.8), seq(maxSteps, _ => ALWAYS),
      seq(maxSteps, _ => None), seq(maxSteps, _ => false),
      maxSteps,
      if isSynth then MinInt(OrInt(options.stepCount, maxSteps), maxSteps) else maxSteps,
      1.0, isSynth, seq(maxSteps, _ => 0), 60, "ionian", 48, 24, 0,
      [CreateDefaultLFO(), CreateDefaultLFO(), CreateDefaultLFO()],
      SynthState(0.0, -1, false))
  }

  /** A new track's grid is empty (no step on, velocity 0.8, condition `1:1`,
      no lock, no slide, note index 0), its LFOs are off, its runtime synth
      state is reset and its sound is the engine's defaults, which are also its
      morph home. */
  lemma NewTrackDefaults(trackId: string, name: string, engine: string, options: TrackOptions)
    ensures var t := NewTrack(trackId, name, engine, options);
            && (forall i | 0 <= i < t.maxSteps ::
                  && !t.steps[i] && t.velocities[i] == 0.8 && t.stepConditions[i] == ALWAYS
                  && t.stepLocks[i].None? && !t.stepSlides[i] && t.noteIndices[i] == 0)
            && t.synthState == SynthState(0.0, -1, false)
            && |t.lfos| == 3 && (forall l | l in t.lfos :: l.destination == "none" && l.depth == 0.0)
            && t.params == GetDefaultParams(engine) && t.params.Keys == PARAM_NAMES && t.fx == DEFAULT_FX
            && t.normalState == Some(Snapshot(engine, t.params, t.fx))
            && t.morphAmount == 0.0 && t.targetParams.None? && t.rateMultiplier == 1.0
            && t.rootNote == 60 && t.scale == "ionian" && t.rangeStart == 48 && t.rangeSpan == 24 && t.transpose == 0
  {
  }

  // ---------------------------------------------------------------------------
  // The saved-state document

  datatype SynthSettings = SynthSettings(
    stepCount: Option<int>,
    rateMultiplier: Option<real>,
    rootNote: Option<int>,
    scale: Option<string>,
    rangeStart: Option<int>,
    rangeSpan: Option<int>,
    transpose: Option<int>,
    noteIndices: Option<seq<int>>,
    lfos: Option<seq<LFO>>)

  datatype SavedTrack = SavedTrack(
    name: string,
    mute: bool,
    engine: string,
    params: Params,
    fx: Params,
    normalState: Option<Snapshot>,
    morphAmount: Option<real>,
    targetParams: Option<Params>,
    synthSettings: Option<SynthSettings>)

  datatype SavedState = SavedState(
    version: string,
    tempo: real,
    currentPattern: Option<int>,
    masterFX: Params,
    tracks: Option<map<string, SavedTrack>>)

  /** One track's entry in `saveCompleteState`'s document. */
  function SaveTrack(t: Track): (d: SavedTrack)
    ensures d.synthSettings.None? <==> !t.isSynth
  {
    SavedTrack(
      t.name, t.mute, t.engine, t.params, t.fx, t.normalState, Some(t.morphAmount), t.targetParams,
      if t.isSynth then
        Some(SynthSettings(Some(t.stepCount), Some(t.rateMultiplier), Some(t.rootNote), Some(t.scale),
                           Some(t.rangeStart), Some(t.rangeSpan), Some(t.transpose),
                           Some(t.noteIndices), Some(t.lfos)))
      else None)
  }

  /** The synth-settings merge of `loadCompleteState`: `||` for step count, rate,
      scale and range span, `??` for root, range start and transpose. */
  function MergeSynthSettings(t: Track, s: SynthSettings): Track {
    t.(stepCount := OrInt(s.stepCount, t.stepCount),
       rateMultiplier := OrReal(s.rateMultiplier, t.rateMultiplier),
       rootNote := Nullish(s.rootNote, t.rootNote),
       scale := OrString(s.scale, t.scale),
       rangeStart := Nullish(s.rangeStart, t.rangeStart),
       rangeSpan := OrInt(s.rangeSpan, t.rangeSpan),
       transpose := Nullish(s.transpose, t.transpose),
       noteIndices := Nullish(s.noteIndices, t.noteIndices),
       lfos := Nullish(s.lfos, t.lfos))
  }

  /** What `loadCompleteState` does to one existing track. */
  function MergeTrack(t: Track, d: SavedTrack): Track {
    var base := t.(mute := d.mute, engine := d.engine, params := d.params, fx := d.fx,
                   normalState := d.normalState, morphAmount := OrReal(d.morphAmount, 0.0),
                   targetParams := d.targetParams);
    if t.isSynth && d.synthSettings.Some? then MergeSynthSettings(base, d.synthSettings.value) else base
  }

  /** Loading replaces the sound (mute, engine, parameters, effects, morph
      state) wholesale, never touches the step grid, the id, the name or the
      runtime synth state, and changes nothing else unless the track is
      melodic and the entry carries synth settings. */
  lemma MergeTrackSpec(t: Track, d: SavedTrack)
    ensures var r := MergeTrack(t, d);
            && r.id == t.id && r.name == t.name && r.isSynth == t.isSynth && r.maxSteps == t.maxSteps
            && r.steps == t.steps && r.velocities == t.velocities && r.stepConditions == t.stepConditions
            && r.stepLocks == t.stepLocks && r.stepSlides == t.stepSlides && r.synthState == t.synthState
            && Shaped(r) == Shaped(t)
            && r.mute == d.mute && r.engine == d.engine && r.params == d.params && r.fx == d.fx
            && r.normalState == d.normalState && r.targetParams == d.targetParams
            && r.morphAmount == OrReal(d.morphAmount, 0.0)
            && ((!t.isSynth || d.synthSettings.None?) ==>
                  && r.stepCount == t.stepCount && r.rateMultiplier == t.rateMultiplier
                  && r.noteIndices == t.noteIndices && r.rootNote == t.rootNote && r.scale == t.scale
                  && r.rangeStart == t.rangeStart && r.rangeSpan == t.rangeSpan
                  && r.transpose == t.transpose && r.lfos == t.lfos)
  {
  }

  /** A missing setting always keeps the current value; a zero step count, rate
      or range span and an empty scale keep it too, while a zero root note,
      range start or transpose is taken. */
  lemma MergeKeepsOrAccepts(t: Track, d: SavedTrack)
    requires t.isSynth && d.synthSettings.Some?
    ensures var s := d.synthSettings.value;
            var r := MergeTrack(t, d);
            && (s.stepCount.None? || s.stepCount == Some(0) ==> r.stepCount == t.stepCount)
            && (s.rateMultiplier.None? || s.rateMultiplier == Some(0.0) ==> r.rateMultiplier == t.rateMultiplier)
            && (s.scale.None? || s.scale == Some("") ==> r.scale == t.scale)
            && (s.rangeSpan.None? || s.rangeSpan == Some(0) ==> r.rangeSpan == t.rangeSpan)
            && (s.rootNote.None? ==> r.rootNote == t.rootNote)
            && (s.rootNote == Some(0) ==> r.rootNote == 0)
            && (s.rangeStart.None? ==> r.rangeStart == t.rangeStart)
            && (s.rangeStart == Some(0) ==> r.rangeStart == 0)
            && (s.transpose.None? ==> r.transpose == t.transpose)
            && (s.transpose == Some(0) ==> r.transpose == 0)
            && (s.noteIndices.None? ==> r.noteIndices == t.noteIndices)
            && (s.lfos.None? ==> r.lfos == t.lfos)
  {
  }

  /** Loading a track's own saved entry gives the track back unchanged. */
  lemma MergeSavedTrack(t: Track)
    ensures MergeTrack(t, SaveTrack(t)) == t
  {
  }

  /** The tracks once the saved entries of the ids in `done` have been merged. */
  function LoadSome(tracks: map<string, Track>, saved: map<string, SavedTrack>, done: set<string>): map<string, Track> {
    map id | id in tracks :: if id in saved && id in done then MergeTrack(tracks[id], saved[id]) else tracks[id]
  }

  /** The tracks after `loadCompleteState`: ids present in both are merged,
      ids only in the document are ignored, the others are untouched. */
  function LoadTracks(tracks: map<string, Track>, saved: map<string, SavedTrack>): (r: map<string, Track>)
    ensures r.Keys == tracks.Keys
    ensures forall id | id in tracks && id !in saved :: r[id] == tracks[id]
    ensures forall id | id in tracks && id in saved :: r[id] == MergeTrack(tracks[id], saved[id])
  {
    LoadSome(tracks, saved, saved.Keys)
  }

  lemma LoadSomeStep(tracks: map<string, Track>, saved: map<string, SavedTrack>, done: set<string>, id: string)
    requires id in saved && id !in done
    ensures var before := LoadSome(tracks, saved, done);
            LoadSome(tracks, saved, done + {id}) ==
              if id in tracks then before[id := MergeTrack(before[id], saved[id])] else before
  {
  }

  function SaveTracks(tracks: map<string, Track>): map<string, SavedTrack> {
    map id | id in tracks :: SaveTrack(tracks[id])
  }

  lemma {:induction false} LoadSavedTracks(tracks: map<string, Track>)
    ensures LoadTracks(tracks, SaveTracks(tracks)) == tracks
  {
    forall id | id in tracks ensures LoadTracks(tracks, SaveTracks(tracks))[id] == tracks[id] {
      MergeSavedTrack(tracks[id]);
    }
  }

  predicate AcceptedVersion(v: string) {
    v == "1.0" || v == "2.0"
  }

  // ---------------------------------------------------------------------------
  // The state container

  /** A track id's place in the processing order: a new id joins the end, a
      known id keeps its place. */
  function Register(order: seq<string>, id: string): seq<string> {
    if id in order then order else order + [id]
  }

  /** The processing order after registering the eight default tracks, in turn, into `order`. */
  function RegisterDefaults(order: seq<string>): seq<string> {
    Register(Register(Register(Register(Register(Register(Register(Register(
      order, "kick"), "snare"), "hihat"), "tom"), "perc"), "cymbal"), "bass"), "lead")
  }

  /** The track table after `initializeTracks` has (re)built the eight default tracks over `tracks`. */
  function DefaultTracksOver(tracks: map<string, Track>): map<string, Track> {
    tracks["kick" := NewTrack("kick", "KICK", "plaits_kick", NO_OPTIONS)]
          ["snare" := NewTrack("snare", "SNARE", "plaits_snare", NO_OPTIONS)]
          ["hihat" := NewTrack("hihat", "HI-HAT", "plaits_hihat", NO_OPTIONS)]
          ["tom" := NewTrack("tom", "TOM", "plaits_modal", NO_OPTIONS)]
          ["perc" := NewTrack("perc", "PERC", "plaits_fm", NO_OPTIONS)]
          ["cymbal" := NewTrack("cymbal", "CYMBAL", "plaits_noise", NO_OPTIONS)]
          ["bass" := NewTrack("bass", "BASS", "plaits_va", SYNTH_OPTIONS)]
          ["lead" := NewTrack("lead", "LEAD", "plaits_va", SYNTH_OPTIONS)]
  }

  predicate DrumTrack(t: Track, id: string, engine: string) {
    t.id == id && t.engine == engine && !t.isSynth && t.maxSteps == 16 && t.stepCount == 16
  }

  predicate SynthTrack(t: Track, id: string) {
    t.id == id && t.engine == "plaits_va" && t.isSynth && t.maxSteps == 32 && t.stepCount == 16
  }

  /** The default kit: six 16-step drum tracks playing every step and two
      32-step melodic tracks on the virtual-analog engine playing 16 of them. */
  lemma DefaultTracksSpec()
    ensures DrumTrack(NewTrack("kick", "KICK", "plaits_kick", NO_OPTIONS), "kick", "plaits_kick")
    ensures DrumTrack(NewTrack("snare", "SNARE", "plaits_snare", NO_OPTIONS), "snare", "plaits_snare")
    ensures DrumTrack(NewTrack("hihat", "HI-HAT", "plaits_hihat", NO_OPTIONS), "hihat", "plaits_hihat")
    ensures DrumTrack(NewTrack("tom", "TOM", "plaits_modal", NO_OPTIONS), "tom", "plaits_modal")
    ensures DrumTrack(NewTrack("perc", "PERC", "plaits_fm", NO_OPTIONS), "perc", "plaits_fm")
    ensures DrumTrack(NewTrack("cymbal", "CYMBAL", "plaits_noise", NO_OPTIONS), "cymbal", "plaits_noise")
    ensures SynthTrack(NewTrack("bass", "BASS", "plaits_va", SYNTH_OPTIONS), "bass")
    ensures SynthTrack(NewTrack("lead", "LEAD", "plaits_va", SYNTH_OPTIONS), "lead")
  {
  }

  /** `initializeTracks` adds exactly the eight default ids to the track table. */
  lemma DefaultTracksKeys(tracks: map<string, Track>)
    ensures DefaultTracksOver(tracks).Keys == tracks.Keys + {"kick", "snare", "hihat", "tom", "perc", "cymbal", "bass", "lead"}
  {
  }

  /** Registering the default tracks into an empty state gives them their listed order. */
  lemma DefaultOrderFromEmpty()
    ensures RegisterDefaults([]) == DEFAULT_ORDER
  {
    var o := Register([], "kick");
    assert o == ["kick"];
    o := Register(o, "snare");
    assert o == ["kick", "snare"];
    o := Register(o, "hihat");
    assert o == ["kick", "snare", "hihat"];
    o := Register(o, "tom");
    assert o == ["kick", "snare", "hihat", "tom"];
    o := Register(o, "perc");
    assert o == ["kick", "snare", "hihat", "tom", "perc"];
    o := Register(o, "cymbal");
    assert o == ["kick", "snare", "hihat", "tom", "perc", "cymbal"];
    o := Register(o, "bass");
    assert o == ["kick", "snare", "hihat", "tom", "perc", "cymbal", "bass"];
  }

  /** Every registered id appears once in `order`, and each track is stored
      under its own id with its per-step arrays of one length. */
  ghost predicate Registry(order: seq<string>, tracks: map<string, Track>) {
    && (forall i, j | 0 <= i < j < |order| :: order[i] != order[j])
    && (forall id :: id in tracks <==> id in order)
    && (forall id | id in tracks :: tracks[id].id == id && Shaped(tracks[id]))
  }

  class AppState {
    var isPlaying: bool
    var tempo: real
    var currentStep: int
    var currentBar: int
    var stepInBar: int
    var selectedTrack: string
    var currentPattern: int
    var masterFX: Params
    /** The order in which tracks were first registered (JavaScript object key order). */
    var trackOrder: seq<string>
    var tracks: map<string, Track>

    ghost predicate Valid()
      reads this
    {
      Registry(trackOrder, tracks)
    }

    constructor ()
      ensures Valid()
      ensures !isPlaying && tempo == 128.0 && currentStep == -1 && currentBar == 0 && stepInBar == 0
      ensures selectedTrack == "kick" && currentPattern == 0 && masterFX == DEFAULT_FX
      ensures trackOrder == [] && tracks == map[]
    {
      isPlaying := false;
      tempo := 128.0;
      currentStep := -1;
      currentBar := 0;
      stepInBar := 0;
      selectedTrack := "kick";
      currentPattern := 0;
      masterFX := DEFAULT_FX;
      trackOrder := [];
      tracks := map[];
    }

    /** `initializeTrack`: build a track and register it under its id; a new id
        joins the end of the processing order, a known id keeps its place. */
    method InitializeTrack(trackId: string, name: string, engine: string, options: TrackOptions) returns (t: Track)
      requires Valid()
      modifies this
      ensures Valid()
      ensures t == NewTrack(trackId, name, engine, options)
      ensures tracks == old(tracks)[trackId := t]
      ensures trackOrder == Register(old(trackOrder), trackId)
      ensures isPlaying == old(isPlaying) && tempo == old(tempo) && currentStep == old(currentStep)
      ensures currentBar == old(currentBar) && stepInBar == old(stepInBar) && selectedTrack == old(selectedTrack)
      ensures currentPattern == old(currentPattern) && masterFX == old(masterFX)
    {
      t := NewTrack(trackId, name, engine, options);
      if trackId !in trackOrder {
        trackOrder := trackOrder + [trackId];
      }
      tracks := tracks[trackId := t];
    }

    /** `initializeTracks`: six 16-step drum tracks, then two 32-step synth
        tracks playing 16 steps, registered in this order. */
    method InitializeTracks()
      requires Valid()
      modifies this
      ensures Valid()
      ensures trackOrder == RegisterDefaults(old(trackOrder))
      ensures tracks == DefaultTracksOver(old(tracks))
      ensures isPlaying == old(isPlaying) && tempo == old(tempo) && masterFX == old(masterFX)
      ensures currentStep == old(currentStep) && currentBar == old(currentBar) && stepInBar == old(stepInBar)
      ensures selectedTrack == old(selectedTrack) && currentPattern == old(currentPattern)
    {
      var t := InitializeTrack("kick", "KICK", "plaits_kick", NO_OPTIONS);
      t := InitializeTrack("snare", "SNARE", "plaits_snare", NO_OPTIONS);
      t := InitializeTrack("hihat", "HI-HAT", "plaits_hihat", NO_OPTIONS);
      t := InitializeTrack("tom", "TOM", "plaits_modal", NO_OPTIONS);
      t := InitializeTrack("perc", "PERC", "plaits_fm", NO_OPTIONS);
      t := InitializeTrack("cymbal", "CYMBAL", "plaits_noise", NO_OPTIONS);
      t := InitializeTrack("bass", "BASS", "plaits_va", SYNTH_OPTIONS);
      t := InitializeTrack("lead", "LEAD", "plaits_va", SYNTH_OPTIONS);
    }

    /** `saveCompleteState`: a version 2.0 document of the tempo, pattern slot,
        master effects and every track's sound and synth settings. */
    function SaveCompleteState(): (doc: SavedState)
      reads this
      ensures doc.version == "2.0" && doc.tempo == tempo && doc.currentPattern == Some(currentPattern)
      ensures doc.masterFX == masterFX && doc.tracks.Some? && doc.tracks.value.Keys == tracks.Keys
      ensures forall id | id in tracks :: doc.tracks.value[id].synthSettings.None? <==> !tracks[id].isSynth
    {
      SavedState("2.0", tempo, Some(currentPattern), masterFX, Some(SaveTracks(tracks)))
    }

    /** `loadCompleteState`: reject an unknown version before touching anything
        (the source throws), otherwise take tempo, pattern slot and master
        effects and merge each saved track into the existing track of that id.
        A document without a track table fails only after the tempo, pattern
        slot and master effects are written (the source throws at
        `Object.entries(undefined)`), so that state is left half-loaded. */
    method LoadCompleteState(data: SavedState) returns (ok: bool)
      requires Valid()
      modifies this
      ensures Valid()
      ensures ok <==> AcceptedVersion(data.version) && data.tracks.Some?
      ensures !AcceptedVersion(data.version) ==> tempo == old(tempo) && currentPattern == old(currentPattern) &&
                                                 masterFX == old(masterFX)
      ensures AcceptedVersion(data.version) ==> tempo == data.tempo && currentPattern == OrInt(data.currentPattern, 0) &&
                                                masterFX == data.masterFX
      ensures tracks == if ok then LoadTracks(old(tracks), data.tracks.value) else old(tracks)
      ensures trackOrder == old(trackOrder) && isPlaying == old(isPlaying)
      ensures currentStep == old(currentStep) && currentBar == old(currentBar) && stepInBar == old(stepInBar)
      ensures selectedTrack == old(selectedTrack)
    {
      if !AcceptedVersion(data.version) {
        return false;
      }
      tempo := data.tempo;
      currentPattern := OrInt(data.currentPattern, 0);
      masterFX := data.masterFX;
      if data.tracks.None? {
        return false;
      }
      tracks := MergeSavedTracks(tracks, data.tracks.value);
      LoadTracksKeepsIds(old(tracks), data.tracks.value);
      ok := true;
    }
  }

  /** The `forEach` over the document's tracks: each id that names an existing
      track is merged into it, the other entries are skipped. */
  method MergeSavedTracks(tracks: map<string, Track>, saved: map<string, SavedTrack>) returns (merged: map<string, Track>)
    ensures merged == LoadTracks(tracks, saved)
  {
    var pending := saved.Keys;
    merged := tracks;
    while pending != {}
      invariant pending <= saved.Keys
      invariant merged == LoadSome(tracks, saved, saved.Keys - pending)
      decreases pending
    {
      var id :| id in pending;
      LoadSomeStep(tracks, saved, saved.Keys - pending, id);
      if id in merged {
        merged := merged[id := MergeTrack(merged[id], saved[id])];
      }
      assert saved.Keys - (pending - {id}) == (saved.Keys - pending) + {id};
      pending := pending - {id};
    }
    assert saved.Keys - pending == saved.Keys;
  }

  /** Loading keeps every track stored under its own id, with its per-step arrays of one length. */
  lemma LoadTracksKeepsIds(tracks: map<string, Track>, saved: map<string, SavedTrack>)
    requires forall id | id in tracks :: tracks[id].id == id && Shaped(tracks[id])
    ensures forall id | id in LoadTracks(tracks, saved) :: LoadTracks(tracks, saved)[id].id == id && Shaped(LoadTracks(tracks, saved)[id])
  {
    forall id | id in tracks && id in saved ensures MergeTrack(tracks[id], saved[id]).id == id && Shaped(MergeTrack(tracks[id], saved[id])) {
      MergeTrackSpec(tracks[id], saved[id]);
    }
  }

  /** Loading what was just saved changes nothing: tempo, pattern slot, master
      effects and every track, including its synth settings, come back as they were. */
  method SaveThenLoad(s: AppState)
    requires s.Valid()
    modifies s
    ensures s.Valid()
    ensures s.tempo == old(s.tempo) && s.currentPattern == old(s.currentPattern)
    ensures s.masterFX == old(s.masterFX) && s.tracks == old(s.tracks) && s.trackOrder == old(s.trackOrder)
    ensures s.isPlaying == old(s.isPlaying) && s.currentStep == old(s.currentStep) && s.currentBar == old(s.currentBar)
    ensures s.stepInBar == old(s.stepInBar) && s.selectedTrack == old(s.selectedTrack)
  {
    var doc := s.SaveCompleteState();
    LoadSavedTracks(s.tracks);
    var ok := s.LoadCompleteState(doc);
  }
}
