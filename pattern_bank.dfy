/** The pattern bank: sixteen slots, each holding a deep snapshot of every
    track's five step arrays, and a clipboard; save, load, clear, copy,
    paste, and the versioned single-slot and whole-bank export and import. */
module PatternBank {
  import opened Common
  import opened TrackState

  /** One track's saved step data: the five per-step arrays. */
  datatype TrackPattern = TrackPattern(
    steps: seq<bool>,
    velocities: seq<real>,
    stepConditions: seq<Cond>,
    stepLocks: seq<Option<Snapshot>>,
    stepSlides: seq<bool>)

  /** A saved pattern: the step data of each track, by track id. */
  type Pattern = map<string, TrackPattern>

  /** One element of the `patterns` array. `Undefined` is a hole: the array
      reads `undefined` past its end and in the gap a write past the end leaves. */
  datatype Slot = Undefined | Null | Stored(pattern: Pattern)

  /** `{version, pattern}`, the document `exportPattern` returns and `importPattern` reads. */
  datatype PatternDoc = PatternDoc(version: string, pattern: Option<Pattern>)

  /** `{version, patterns}`, the document `exportAllPatterns` returns and `importAllPatterns` reads. */
  datatype BankDoc = BankDoc(version: string, patterns: Option<seq<Slot>>)

  const SLOT_COUNT: nat := 16

  const FORMAT_VERSION: string := "1.0"

  // ---------------------------------------------------------------------------
  // The slot array

  /** `patterns[index]`. */
  function SlotAt(slots: seq<Slot>, index: nat): Slot {
    if index < |slots| then slots[index] else Undefined
  }

  /** `patterns[index] = v`: a write past the end grows the array to
      `index + 1`, leaving holes in between. */
  function Write(slots: seq<Slot>, index: nat, v: Slot): seq<Slot> {
    if index < |slots| then slots[index := v]
    else slots + seq(index - |slots|, _ => Undefined) + [v]
  }

  /** A write changes slot `index` and no other, and grows the array only as
      far as `index`. */
  lemma WriteSpec(slots: seq<Slot>, index: nat, v: Slot)
    ensures var r := Write(slots, index, v);
            && |r| == (if index < |slots| then |slots| else index + 1)
            && SlotAt(r, index) == v
            && (forall j: nat | j != index :: SlotAt(r, j) == SlotAt(slots, j))
  {
    var r := Write(slots, index, v);
    if index >= |slots| {
      forall j: nat | j != index ensures SlotAt(r, j) == SlotAt(slots, j) {
        if j < |slots| {
          assert r[j] == slots[j];
        } else if j < index {
          assert r[j] == Undefined;
        }
      }
    }
  }

  /** Writing a slot back with what it already holds changes nothing. */
  lemma WriteSame(slots: seq<Slot>, index: nat)
    requires index < |slots|
    ensures Write(slots, index, SlotAt(slots, index)) == slots
  {
  }

  // ---------------------------------------------------------------------------
  // Snapshots of the tracks

  /** The deep copy `savePattern` takes of one track. */
  function TrackPatternOf(t: Track): TrackPattern {
    TrackPattern(t.steps, t.velocities, t.stepConditions, t.stepLocks, t.stepSlides)
  }

  /** `loadPattern`'s update of one track: its five step arrays are replaced. */
  function RestoreTrack(t: Track, tp: TrackPattern): Track {
    t.(steps := tp.steps, velocities := tp.velocities, stepConditions := tp.stepConditions,
       stepLocks := tp.stepLocks, stepSlides := tp.stepSlides)
  }

  /** Restoring a track from its own snapshot leaves it as it was, and the
      snapshot of a restored track is what was restored. */
  lemma RestoreRoundTrip(t: Track, tp: TrackPattern)
    ensures RestoreTrack(t, TrackPatternOf(t)) == t
    ensures TrackPatternOf(RestoreTrack(t, tp)) == tp
  {
  }

  /** The pattern `savePattern` stores: a snapshot of every track. */
  function PatternOf(tracks: map<string, Track>): (p: Pattern)
    ensures p.Keys == tracks.Keys
  {
    map id | id in tracks :: TrackPatternOf(tracks[id])
  }

  /** The tracks after `loadPattern`: a track named in the pattern gets its
      step arrays back, every other track is untouched, and pattern entries
      with no track are skipped. */
  function ApplyPattern(tracks: map<string, Track>, p: Pattern): (r: map<string, Track>)
    ensures r.Keys == tracks.Keys
  {
    map id | id in tracks :: if id in p then RestoreTrack(tracks[id], p[id]) else tracks[id]
  }

  /** Loading a pattern saved from `saved` into the later tracks `edited`:
      each track saved gets exactly its saved step arrays back and keeps
      everything else (engine, sound, effects, synth settings) as `edited`
      has it; the other tracks are left alone. */
  lemma LoadSavedPattern(saved: map<string, Track>, edited: map<string, Track>)
    ensures var r := ApplyPattern(edited, PatternOf(saved));
            && r.Keys == edited.Keys
            && (forall id | id in edited && id in saved ::
                  && TrackPatternOf(r[id]) == TrackPatternOf(saved[id])
                  && RestoreTrack(r[id], TrackPatternOf(edited[id])) == edited[id])
            && (forall id | id in edited && id !in saved :: r[id] == edited[id])
  {
    var r := ApplyPattern(edited, PatternOf(saved));
    forall id | id in edited && id in saved
      ensures TrackPatternOf(r[id]) == TrackPatternOf(saved[id])
      ensures RestoreTrack(r[id], TrackPatternOf(edited[id])) == edited[id]
    {
      RestoreRoundTrip(edited[id], TrackPatternOf(saved[id]));
    }
  }

  /** Saving and loading straight back leaves the tracks as they were. */
  lemma LoadOwnPattern(tracks: map<string, Track>)
    ensures ApplyPattern(tracks, PatternOf(tracks)) == tracks
  {
    forall id | id in tracks ensures ApplyPattern(tracks, PatternOf(tracks))[id] == tracks[id] {
      RestoreRoundTrip(tracks[id], TrackPatternOf(tracks[id]));
    }
  }

  /** The five arrays of a track snapshot have one length. */
  predicate ShapedPattern(tp: TrackPattern) {
    && |tp.velocities| == |tp.steps|
    && |tp.stepConditions| == |tp.steps|
    && |tp.stepLocks| == |tp.steps|
    && |tp.stepSlides| == |tp.steps|
  }

  /** Loading a pattern whose snapshots are each of one length keeps the
      tracks registered as they were; a pattern saved from registered tracks
      is such a pattern. */
  lemma PatternKeepsRegistry(order: seq<string>, tracks: map<string, Track>, p: Pattern)
    requires Registry(order, tracks)
    requires forall id | id in p :: ShapedPattern(p[id])
    ensures Registry(order, ApplyPattern(tracks, p))
  {
  }

  lemma SavedPatternShaped(order: seq<string>, tracks: map<string, Track>)
    requires Registry(order, tracks)
    ensures forall id | id in PatternOf(tracks) :: ShapedPattern(PatternOf(tracks)[id])
  {
  }

  /** The `forEach` of `savePattern` over the tracks. */
  method CapturePattern(tracks: map<string, Track>) returns (pattern: Pattern)
    ensures pattern == PatternOf(tracks)
  {
    pattern := map[];
    var pending := tracks.Keys;
    while pending != {}
      invariant pending <= tracks.Keys
      invariant pattern == map id | id in tracks.Keys - pending :: TrackPatternOf(tracks[id])
      decreases pending
    {
      var id :| id in pending;
      var track := tracks[id];
      pattern := pattern[id := TrackPattern(track.steps, track.velocities, track.stepConditions, track.stepLocks, track.stepSlides)];
      pending := pending - {id};
    }
  }

  /** The `forEach` of `loadPattern` over the pattern's entries. */
  method RestoreTracks(tracks: map<string, Track>, pattern: Pattern) returns (restored: map<string, Track>)
    ensures restored == ApplyPattern(tracks, pattern)
  {
    restored := tracks;
    var pending := pattern.Keys;
    while pending != {}
      invariant pending <= pattern.Keys
      invariant restored == map id | id in tracks ::
                  if id in pattern.Keys - pending then RestoreTrack(tracks[id], pattern[id]) else tracks[id]
      decreases pending
    {
      var trackId :| trackId in pending;
      if trackId in restored {
        var trackData := pattern[trackId];
        restored := restored[trackId := restored[trackId].(
          steps := trackData.steps, velocities := trackData.velocities,
          stepConditions := trackData.stepConditions, stepLocks := trackData.stepLocks,
          stepSlides := trackData.stepSlides)];
      }
      pending := pending - {trackId};
    }
  }

  // ---------------------------------------------------------------------------
  // The bank

  class PatternBank {
    var patterns: seq<Slot>
    var clipboard: Slot

    /** Sixteen empty slots and an empty clipboard. */
    constructor ()
      ensures patterns == seq(SLOT_COUNT, _ => Null) && clipboard == Null
      ensures forall i: nat | i < SLOT_COUNT :: !HasPattern(i)
    {
      patterns := seq(SLOT_COUNT, _ => Null);
      clipboard := Null;
    }

    /** `savePattern`: slot `index` gets a snapshot of every track of `state`. */
    method Save(index: nat, state: AppState)
      modifies `patterns
      ensures patterns == Write(old(patterns), index, Stored(PatternOf(state.tracks)))
    {
      var pattern := CapturePattern(state.tracks);
      patterns := Write(patterns, index, Stored(pattern));
    }

    /** `loadPattern`: an empty slot is refused and nothing changes; a stored
        pattern gives each of its tracks in `state` its step arrays back. */
    method Load(index: nat, state: AppState) returns (ok: bool)
      modifies state`tracks
      ensures ok <==> SlotAt(patterns, index).Stored?
      ensures ok ==> state.tracks == ApplyPattern(old(state.tracks), SlotAt(patterns, index).pattern)
      ensures !ok ==> state.tracks == old(state.tracks)
    {
      var slot := SlotAt(patterns, index);
      if !slot.Stored? {
        return false;
      }
      state.tracks := RestoreTracks(state.tracks, slot.pattern);
      ok := true;
    }

    /** `clearPattern`. */
    method Clear(index: nat)
      modifies `patterns
      ensures patterns == Write(old(patterns), index, Null)
      ensures !HasPattern(index)
    {
      patterns := Write(patterns, index, Null);
      WriteSpec(old(patterns), index, Null);
    }

    /** `hasPattern`: the slot is not `null`. A hole past the end reads
        `undefined`, which is not `null`. */
    function HasPattern(index: nat): (r: bool)
      reads this
      ensures index < |patterns| ==> (r <==> patterns[index] != Null)
      ensures index >= |patterns| ==> r
    {
      SlotAt(patterns, index) != Null
    }

    /** Whether slot `index` holds a pattern, the question `loadPattern` and
        `exportPattern` ask. */
    function HasStoredPattern(index: nat): (r: bool)
      reads this
      ensures r ==> index < |patterns| && patterns[index] != Null
      ensures index < |patterns| && patterns[index].Stored? ==> r
    {
      SlotAt(patterns, index).Stored?
    }

    /** `copyPattern`: the clipboard gets the slot as it is, empty or not. */
    method Copy(index: nat)
      modifies `clipboard
      ensures clipboard == SlotAt(patterns, index)
    {
      clipboard := SlotAt(patterns, index);
    }

    /** `pastePattern`: a clipboard holding a pattern is written to slot
        `index`; an empty clipboard changes nothing. */
    method Paste(index: nat)
      modifies `patterns
      ensures patterns == if clipboard.Stored? then Write(old(patterns), index, clipboard) else old(patterns)
    {
      if clipboard.Stored? {
        patterns := Write(patterns, index, clipboard);
      }
    }

    /** `exportPattern`: nothing for an empty slot, otherwise the pattern
        under version `"1.0"`. */
    function ExportPattern(index: nat): (doc: Option<PatternDoc>)
      reads this
      ensures doc.Some? <==> HasStoredPattern(index)
      ensures doc.Some? ==> doc.value.version == FORMAT_VERSION && doc.value.pattern == Some(SlotAt(patterns, index).pattern)
    {
      var slot := SlotAt(patterns, index);
      if slot.Stored? then Some(PatternDoc(FORMAT_VERSION, Some(slot.pattern))) else None
    }

    /** `importPattern`: only a version `"1.0"` document carrying a pattern
        is accepted, and it is written to slot `index`. */
    method ImportPattern(index: nat, data: PatternDoc) returns (ok: bool)
      modifies `patterns
      ensures ok <==> data.version == FORMAT_VERSION && data.pattern.Some?
      ensures ok ==> patterns == Write(old(patterns), index, Stored(data.pattern.value))
      ensures !ok ==> patterns == old(patterns)
    {
      if data.version == FORMAT_VERSION && data.pattern.Some? {
        patterns := Write(patterns, index, Stored(data.pattern.value));
        return true;
      }
      return false;
    }

    /** `exportAllPatterns`: the whole slot array under version `"1.0"`. */
    function ExportAllPatterns(): (doc: BankDoc)
      reads this
      ensures doc.version == FORMAT_VERSION && doc.patterns == Some(patterns)
    {
      BankDoc(FORMAT_VERSION, Some(patterns))
    }

    /** `importAllPatterns`: only a version `"1.0"` document carrying a slot
        array is accepted, and it replaces the whole array. */
    method ImportAllPatterns(data: BankDoc) returns (ok: bool)
      modifies `patterns
      ensures ok <==> data.version == FORMAT_VERSION && data.patterns.Some?
      ensures patterns == if ok then data.patterns.value else old(patterns)
    {
      if data.version == FORMAT_VERSION && data.patterns.Some? {
        patterns := data.patterns.value;
        return true;
      }
      return false;
    }
  }

  // ---------------------------------------------------------------------------
  // Round trips through the bank

  /** `hasPattern` as written answers yes for every index past the end of the
      array, although there is no pattern to load or export there: on a fresh
      bank, slot 16 is reported as taken. */
  lemma HasPatternPastEnd(b: PatternBank, index: nat)
    requires index >= |b.patterns|
    ensures b.HasPattern(index) && !b.HasStoredPattern(index) && b.ExportPattern(index).None?
  {
  }

  /** The smallest case: on a fresh bank, slot 16 is reported as taken by
      `hasPattern`, yet loading it fails. */
  method SlotPastEndOfFreshBank() returns (taken: bool, loaded: bool)
    ensures taken && !loaded
  {
    var b := new PatternBank();
    var state := new AppState();
    taken := b.HasPattern(SLOT_COUNT);
    loaded := b.Load(SLOT_COUNT, state);
  }

  /** Whether a slot holds a pattern agrees with what export can produce. */
  lemma HasStoredPatternSpec(b: PatternBank, index: nat)
    ensures b.HasStoredPattern(index) <==> b.ExportPattern(index).Some?
    ensures b.HasStoredPattern(index) ==> b.HasPattern(index)
    ensures index < |b.patterns| ==> (b.HasPattern(index) <==> b.patterns[index] != Null)
  {
  }

  /** Saving a slot and loading it straight back succeeds and leaves every
      track as it was. */
  method SaveThenLoad(b: PatternBank, state: AppState, index: nat) returns (ok: bool)
    modifies b`patterns, state`tracks
    ensures ok && state.tracks == old(state.tracks)
    ensures SlotAt(b.patterns, index) == Stored(PatternOf(old(state.tracks)))
  {
    b.Save(index, state);
    WriteSpec(old(b.patterns), index, Stored(PatternOf(state.tracks)));
    LoadOwnPattern(state.tracks);
    ok := b.Load(index, state);
  }

  /** Copying slot `i` and pasting it into slot `j` makes slot `j` hold slot
      `i`'s pattern and leaves every other slot as it was; copying an empty
      slot and pasting changes no slot. */
  method CopyThenPaste(b: PatternBank, i: nat, j: nat)
    modifies b`clipboard, b`patterns
    ensures SlotAt(old(b.patterns), i).Stored? ==> SlotAt(b.patterns, j) == SlotAt(old(b.patterns), i)
    ensures forall k: nat | k != j :: SlotAt(b.patterns, k) == SlotAt(old(b.patterns), k)
    ensures !SlotAt(old(b.patterns), i).Stored? ==> b.patterns == old(b.patterns)
  {
    b.Copy(i);
    b.Paste(j);
    WriteSpec(old(b.patterns), j, b.clipboard);
  }

  /** Exporting a slot and importing the document into the same slot changes nothing. */
  method ExportThenImport(b: PatternBank, index: nat)
    modifies b`patterns
    ensures b.patterns == old(b.patterns)
  {
    var doc := b.ExportPattern(index);
    if doc.Some? {
      var ok := b.ImportPattern(index, doc.value);
      WriteSame(old(b.patterns), index);
    }
  }

  /** Exporting the whole bank and importing the document restores every slot. */
  method ExportAllThenImportAll(b: PatternBank) returns (ok: bool)
    modifies b`patterns
    ensures ok && b.patterns == old(b.patterns)
  {
    var doc := b.ExportAllPatterns();
    ok := b.ImportAllPatterns(doc);
  }

  // ---------------------------------------------------------------------------
  // Drum codes

  /** The six drum tracks a pattern-file drum code can land on. */
  const DRUM_TRACKS: seq<string> := ["kick", "snare", "hihat", "tom", "perc", "cymbal"]

  /** The fixed table of `mapDrumToTrack`. */
  function DrumTable(code: string): Option<string> {
    match code
    case "BD" => Some("kick")
    case "SD" => Some("snare")
    case "CH" => Some("hihat")
    case "HH" => Some("hihat")
    case "OH" => Some("hihat")
    case "LT" => Some("tom")
    case "MT" => Some("tom")
    case "HT" => Some("tom")
    case "RS" => Some("perc")
    case "CB" => Some("perc")
    case "CY" => Some("cymbal")
    case "RC" => Some("cymbal")
    case "CR" => Some("cymbal")
    case _ => None
  }

  /** `mapDrumToTrack` with `random` standing for `Math.random()`: a clap
      goes to the snare or the percussion track, a code in the table to its
      track, any other code to one of the six drum tracks. */
  function MapDrumToTrack(code: string, random: real): string
    requires 0.0 <= random < 1.0
  {
    if code == "CP" then (if random > 0.5 then "snare" else "perc")
    else if DrumTable(code).Some? then DrumTable(code).value
    else DRUM_TRACKS[(random * 6.0).Floor]
  }

  /** Every code lands on one of the six drum tracks; a code in the table
      lands on its table entry whatever the random draw; a clap lands on the
      snare or percussion track. */
  lemma MapDrumToTrackSpec(code: string, random: real)
    requires 0.0 <= random < 1.0
    ensures MapDrumToTrack(code, random) in DRUM_TRACKS
    ensures DrumTable(code).Some? ==> MapDrumToTrack(code, random) == DrumTable(code).value
    ensures code == "CP" ==> MapDrumToTrack(code, random) in ["snare", "perc"]
  {
    assert 0.0 <= random * 6.0 < 6.0;
  }

  /** A few table entries, spelled out. */
  lemma DrumTableEntries(random: real)
    requires 0.0 <= random < 1.0
    ensures MapDrumToTrack("BD", random) == "kick"
    ensures MapDrumToTrack("OH", random) == "hihat"
    ensures MapDrumToTrack("CR", random) == "cymbal"
    ensures MapDrumToTrack("XX", random) in DRUM_TRACKS
  {
    MapDrumToTrackSpec("XX", random);
  }
}
