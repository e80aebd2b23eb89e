/** The step sequencer: the global 16th-note clock, bar-conditional gating,
    drum step locks and slides, and the melodic tracks' fractional-rate step
    accumulator with scale-quantised notes. Every sound the sequencer asks the
    audio engine to play is recorded as a `Trigger`. */
module Sequencer {
  import opened Common
  import opened MusicUtils
  import opened EngineSpecs
  import opened TrackState

  /** One `playDrum` request; the slide's decay is carried in `params["decay"]`. */
  datatype Trigger = Trigger(trackId: string, engine: string, params: Params, fx: Params, velocity: real)

  /** An LFO reading: the value of LFO slot `slot` when track `trackId` fires
      its step `stepIndex`. Waveforms and time are not modelled. */
  type LfoReading = (string, int, nat) -> real

  // ---------------------------------------------------------------------------
  // Bar conditions

  /** `shouldTrigger`: `1:1` always fires, `k:n` fires in the bars with `bar % n == k - 1`. */
  predicate ShouldTrigger(c: Cond, bar: int) {
    c == ALWAYS || JsRem(bar, c.total) == c.trigger - 1
  }

  /** Euclidean division is determined by any quotient and in-range remainder. */
  lemma DivModUnique(x: int, n: int, q: int, r: int)
    requires n >= 1 && 0 <= r < n && x == q * n + r
    ensures x / n == q && x % n == r
  {
    var q0, r0 := x / n, x % n;
    assert x == q0 * n + r0;
    assert (q - q0) * n == r0 - r;
    MulStep(q - q0, n);
  }

  lemma ShouldTriggerSpec(c: Cond, bar: nat)
    ensures ShouldTrigger(ALWAYS, bar)
    ensures ShouldTrigger(c, bar) <==> bar % c.total == c.trigger - 1
    ensures ShouldTrigger(c, bar) <==> ShouldTrigger(c, bar + c.total)
    ensures c.trigger > c.total || c.trigger < 1 ==> !ShouldTrigger(c, bar)
  {
    var n := c.total;
    DivModUnique(bar + n, n, bar / n + 1, bar % n);
    if c == ALWAYS {
      assert bar % n == 0;
    }
  }

  /** Two bars less than a full cycle apart with the same bar-in-pattern are the same bar. */
  lemma SameResidueClose(x: nat, y: nat, n: int)
    requires n >= 1 && x % n == y % n && x - n < y < x + n
    ensures x == y
  {
    var d := y / n - x / n;
    assert x == (x / n) * n + x % n;
    assert y == (y / n) * n + y % n;
    assert y - x == d * n;
    MulStep(d, n);
  }

  lemma MulStep(d: int, n: int)
    requires n >= 1
    ensures d >= 1 ==> d * n >= n
    ensures d <= -1 ==> d * n <= -n
  {
  }

  /** A condition `k:n` with `1 <= k <= n` fires in exactly one of any `n` consecutive bars. */
  lemma ExactlyOncePerCycle(c: Cond, start: nat)
    requires 1 <= c.trigger <= c.total
    ensures exists b | start <= b < start + c.total :: ShouldTrigger(c, b)
    ensures forall b1, b2 | start <= b1 < start + c.total && start <= b2 < start + c.total &&
                            ShouldTrigger(c, b1) && ShouldTrigger(c, b2) :: b1 == b2
  {
    var n := c.total;
    var q, r := start / n, start % n;
    var k := c.trigger - 1;
    assert start == q * n + r;
    assert (q + 1) * n == q * n + n;
    var b: nat := if r <= k then q * n + k else q * n + n + k;
    DivModUnique(b, n, if r <= k then q else q + 1, k);
    assert start <= b < start + n;
    assert ShouldTrigger(c, b);
    forall b1: nat, b2: nat | start <= b1 < start + n && start <= b2 < start + n &&
                    ShouldTrigger(c, b1) && ShouldTrigger(c, b2)
      ensures b1 == b2
    {
      SameResidueClose(b1, b2, n);
    }
  }

  // ---------------------------------------------------------------------------
  // Drum tracks

  /** `track.steps[k]` is truthy: in range and on. */
  predicate Active(steps: seq<bool>, k: int) {
    0 <= k < |steps| && steps[k]
  }

  /** `(fromStep + i) % 16` with JavaScript's remainder. */
  function StepAfter(from: int, i: int): (r: int)
    ensures 0 <= from < 16 && 0 <= i < 16 ==> r == if from + i < 16 then from + i else from + i - 16
  {
    JsRem(from + i, 16)
  }

  /** The first active step among `(from + i) % 16` for `i` from `i0` up to 15. */
  function NextFrom(steps: seq<bool>, from: int, i: int): Option<int>
    requires 1 <= i <= 16
    decreases 16 - i
  {
    if i == 16 then None
    else if Active(steps, StepAfter(from, i)) then Some(StepAfter(from, i))
    else NextFrom(steps, from, i + 1)
  }

  /** `findNextActiveStep`'s specification. */
  function NextActiveStep(steps: seq<bool>, from: int): Option<int> {
    NextFrom(steps, from, 1)
  }

  lemma {:induction false} NextFromSpec(steps: seq<bool>, from: int, i: int)
    requires 1 <= i <= 16
    ensures NextFrom(steps, from, i).None? <==> forall j | i <= j < 16 :: !Active(steps, StepAfter(from, j))
    ensures NextFrom(steps, from, i).Some? ==>
              exists j | i <= j < 16 :: NextFrom(steps, from, i).value == StepAfter(from, j) &&
                Active(steps, StepAfter(from, j)) && forall m | i <= m < j :: !Active(steps, StepAfter(from, m))
    decreases 16 - i
  {
    if i < 16 {
      var k := StepAfter(from, i);
      if Active(steps, k) {
        assert NextFrom(steps, from, i) == Some(k);
        assert forall m | i <= m < i :: !Active(steps, StepAfter(from, m));
      } else {
        assert NextFrom(steps, from, i) == NextFrom(steps, from, i + 1);
        NextFromSpec(steps, from, i + 1);
        if NextFrom(steps, from, i + 1).Some? {
          var j :| i + 1 <= j < 16 && NextFrom(steps, from, i + 1).value == StepAfter(from, j) &&
            Active(steps, StepAfter(from, j)) && forall m | i + 1 <= m < j :: !Active(steps, StepAfter(from, m));
          assert forall m | i <= m < j :: !Active(steps, StepAfter(from, m));
        }
      }
    }
  }

  /** The search never lands on the step it started from, finds the nearest
      active step going forward with wrap-around at 16, and finds nothing
      exactly when none of the other fifteen steps is on. */
  lemma NextActiveStepSpec(steps: seq<bool>, from: int)
    requires 0 <= from < 16
    ensures var r := NextActiveStep(steps, from);
            && (r.None? <==> forall j | 1 <= j < 16 :: !Active(steps, StepAfter(from, j)))
            && (r.Some? ==> 0 <= r.value < 16 && r.value != from && Active(steps, r.value))
            && (r.Some? ==> exists j | 1 <= j < 16 :: r.value == StepAfter(from, j) &&
                              forall m | 1 <= m < j :: !Active(steps, StepAfter(from, m)))
  {
    NextFromSpec(steps, from, 1);
  }

  /** `findNextActiveStep`, the forward scan. */
  method FindNextActiveStep(steps: seq<bool>, fromStep: int) returns (r: Option<int>)
    ensures r == NextActiveStep(steps, fromStep)
  {
    var i := 1;
    while i < 16
      invariant 1 <= i <= 16
      invariant NextActiveStep(steps, fromStep) == NextFrom(steps, fromStep, i)
    {
      var checkStep := JsRem(fromStep + i, 16);
      if 0 <= checkStep < |steps| && steps[checkStep] {
        return Some(checkStep);
      }
      i := i + 1;
    }
    return None;
  }

  /** The number of 16th notes from `current` forward to `next`, wrapping at 16. */
  function SlideDistance(current: int, next: int): int {
    if next > current then next - current else 16 - current + next
  }

  lemma SlideDistanceSpec(current: int, next: int)
    requires 0 <= current < 16 && 0 <= next < 16 && next != current
    ensures 1 <= SlideDistance(current, next) <= 15
    ensures (current + SlideDistance(current, next)) % 16 == next
  {
  }

  /** The distance to the next active step is the scan's own offset, so
      every step the slide passes over is off. */
  lemma SlideDistanceOfNext(steps: seq<bool>, current: int)
    requires 0 <= current < 16 && NextActiveStep(steps, current).Some?
    ensures var d := SlideDistance(current, NextActiveStep(steps, current).value);
            && 1 <= d <= 15 && StepAfter(current, d) == NextActiveStep(steps, current).value
            && forall m | 1 <= m < d :: !Active(steps, StepAfter(current, m))
  {
    NextActiveStepSpec(steps, current);
    var n := NextActiveStep(steps, current).value;
    var j :| 1 <= j < 16 && n == StepAfter(current, j) && forall m | 1 <= m < j :: !Active(steps, StepAfter(current, m));
    assert SlideDistance(current, n) == j;
  }

  /** `min((60 / tempo) * (distance / 4), 2)`: a 16th note lasts `15 / tempo`
      seconds; a zero tempo gives JavaScript's `Infinity`, capped at 2. */
  function SlideDecay(tempo: real, distance: int): (d: real)
    ensures d <= 2.0
    ensures tempo > 0.0 && distance > 0 ==> 0.0 < d
    ensures tempo == 0.0 ==> d == 2.0
    ensures tempo != 0.0 && (60.0 / tempo) * (distance as real / 4.0) <= 2.0 ==> d == (60.0 / tempo) * (distance as real / 4.0)
    ensures tempo != 0.0 && (60.0 / tempo) * (distance as real / 4.0) > 2.0 ==> d == 2.0
  {
    if tempo == 0.0 then 2.0 else MinReal((60.0 / tempo) * (distance as real / 4.0), 2.0)
  }

  /** `stepLock?.engine || track.engine` and its `params`/`fx` siblings. */
  function LockedEngine(lock: Option<Snapshot>, engine: string): (r: string)
    ensures lock.None? ==> r == engine
    ensures lock.Some? && lock.value.engine != "" ==> r == lock.value.engine
  {
    if lock.Some? && lock.value.engine != "" then lock.value.engine else engine
  }

  function LockedParams(lock: Option<Snapshot>, params: Params): Params {
    if lock.Some? then lock.value.params else params
  }

  function LockedFx(lock: Option<Snapshot>, fx: Params): Params {
    if lock.Some? then lock.value.fx else fx
  }

  /** `processDrumTrack`'s request, if any, at the global step `step`. */
  function DrumTrigger(t: Track, step: int, bar: int, tempo: real): Option<Trigger>
    requires Shaped(t)
  {
    if !Active(t.steps, step) || !ShouldTrigger(t.stepConditions[step], bar) then None
    else
      var lock := t.stepLocks[step];
      var engine := LockedEngine(lock, t.engine);
      var params := LockedParams(lock, t.params);
      var fx := LockedFx(lock, t.fx);
      var next := if t.stepSlides[step] then NextActiveStep(t.steps, step) else None;
      if next.Some? then
        Some(Trigger(t.id, engine, params["decay" := SlideDecay(tempo, SlideDistance(step, next.value))], fx, t.velocities[step]))
      else
        Some(Trigger(t.id, engine, params, fx, t.velocities[step]))
  }

  /** A drum track fires exactly when its current step is on and the step's
      condition holds in this bar; it fires the step lock's sound when there is
      one and the track's own otherwise, and a slide toward a later active step
      only overrides the decay. */
  lemma DrumTriggerSpec(t: Track, step: int, bar: int, tempo: real)
    requires Shaped(t)
    ensures var r := DrumTrigger(t, step, bar, tempo);
            && (r.Some? <==> Active(t.steps, step) && ShouldTrigger(t.stepConditions[step], bar))
            && (r.Some? ==>
                  var lock := t.stepLocks[step];
                  && r.value.trackId == t.id && r.value.velocity == t.velocities[step]
                  && r.value.engine == LockedEngine(lock, t.engine)
                  && r.value.fx == (if lock.Some? then lock.value.fx else t.fx)
                  && (forall k | k != "decay" :: k in r.value.params <==> k in LockedParams(lock, t.params))
                  && (forall k | k != "decay" && k in r.value.params :: r.value.params[k] == LockedParams(lock, t.params)[k])
                  && (!t.stepSlides[step] || NextActiveStep(t.steps, step).None? ==> r.value.params == LockedParams(lock, t.params))
                  && (t.stepSlides[step] && NextActiveStep(t.steps, step).Some? ==>
                        && "decay" in r.value.params
                        && r.value.params["decay"] == SlideDecay(tempo, SlideDistance(step, NextActiveStep(t.steps, step).value))
                        && r.value.params["decay"] <= 2.0))
  {
  }

  /** The drum track's requests as a list: empty or a single trigger. */
  method ProcessDrumTrack(t: Track, currentStep: int, currentBar: int, tempo: real) returns (r: Option<Trigger>)
    requires Shaped(t)
    ensures r == DrumTrigger(t, currentStep, currentBar, tempo)
  {
    if !(0 <= currentStep < |t.steps|) || !t.steps[currentStep] {
      return None;
    }
    var condition := t.stepConditions[currentStep];
    if !ShouldTrigger(condition, currentBar) {
      return None;
    }
    var stepLock := t.stepLocks[currentStep];
    var hasSlide := t.stepSlides[currentStep];
    var engine := LockedEngine(stepLock, t.engine);
    var params := LockedParams(stepLock, t.params);
    var fx := LockedFx(stepLock, t.fx);
    var velocity := t.velocities[currentStep];
    if hasSlide {
      var nextStep := FindNextActiveStep(t.steps, currentStep);
      if nextStep.Some? {
        var distance := SlideDistance(currentStep, nextStep.value);
        var duration := SlideDecay(tempo, distance);
        return Some(Trigger(t.id, engine, params["decay" := duration], fx, velocity));
      }
    }
    return Some(Trigger(t.id, engine, params, fx, velocity));
  }

  // ---------------------------------------------------------------------------
  // Melodic tracks: notes

  /** `getNoteFromScale`: middle C for an empty list, otherwise the entry at the clamped index. */
  function GetNoteFromScale(scaleNotes: seq<int>, index: int): (note: int)
    ensures |scaleNotes| == 0 ==> note == 60
    ensures |scaleNotes| > 0 ==> note in scaleNotes && note == scaleNotes[ClampIndex(index, |scaleNotes|)]
    ensures 0 <= index < |scaleNotes| ==> note == scaleNotes[index]
  {
    if |scaleNotes| == 0 then 60
    else scaleNotes[MaxInt(0, MinInt(|scaleNotes| - 1, index))]
  }

  /** The track's scale window from `rangeStart` spanning `rangeSpan` notes. */
  function TrackScaleNotes(t: Track): seq<int> {
    ScaleNotes(t.rootNote, t.scale, t.rangeStart, t.rangeStart + t.rangeSpan - 1)
  }

  /** `min(noteIndices[i] || 0, max(len - 1, 0))`; a missing entry reads as 0. */
  function BaseIndex(scaleNotes: seq<int>, noteIndices: seq<int>, stepIndex: int): (b: int)
    ensures b <= MaxInt(|scaleNotes| - 1, 0)
    ensures 0 <= stepIndex < |noteIndices| && noteIndices[stepIndex] <= |scaleNotes| - 1 ==> b == noteIndices[stepIndex]
    ensures !(0 <= stepIndex < |noteIndices|) ==> b == 0
  {
    var stored := if 0 <= stepIndex < |noteIndices| then noteIndices[stepIndex] else 0;
    MinInt(stored, MaxInt(|scaleNotes| - 1, 0))
  }

  /** `resolveSynthNote`: the track's scale notes and the step's index into them. */
  function ResolveSynthNote(t: Track, stepIndex: int): (r: (seq<int>, int))
    ensures |r.0| > 0 && r.1 <= |r.0| - 1
    ensures r.0 == TrackScaleNotes(t)
  {
    ScaleNotesSpec(t.rootNote, t.scale, t.rangeStart, t.rangeStart + t.rangeSpan - 1);
    var scaleNotes := TrackScaleNotes(t);
    (scaleNotes, BaseIndex(scaleNotes, t.noteIndices, stepIndex))
  }

  // ---------------------------------------------------------------------------
  // Melodic tracks: LFO modulation

  datatype LfoResult = LfoResult(params: Params, noteOffset: real)

  function Clamp(lo: real, hi: real, x: real): (r: real)
    ensures lo <= hi ==> lo <= r <= hi
    ensures lo <= x <= hi ==> r == x
  {
    MaxReal(lo, MinReal(hi, x))
  }

  /** One LFO's effect: off when its depth is not positive or it has no
      destination; `transpose` adds `value * depth * 12` semitones; a parameter
      the engine declares moves by `value * depth * range / 2` from its current
      value (its minimum when absent), clamped to the declared range. */
  function ApplyLFO(engine: string, acc: LfoResult, lfo: LFO, value: real): LfoResult {
    if lfo.depth <= 0.0 || lfo.destination == "none" then acc
    else if lfo.destination == "transpose" then LfoResult(acc.params, acc.noteOffset + value * lfo.depth * 12.0)
    else
      match EngineParamSpec(engine, lfo.destination)
      case None => acc
      case Some(spec) =>
        var current := if lfo.destination in acc.params then acc.params[lfo.destination] else spec.min;
        var delta := value * lfo.depth * (spec.max - spec.min) * 0.5;
        LfoResult(acc.params[lfo.destination := Clamp(spec.min, spec.max, current + delta)], acc.noteOffset)
  }

  /** `applySynthLFOs`' result: the LFOs applied in slot order to a copy of `params`. */
  function LfoModulation(engine: string, lfos: seq<LFO>, reading: LfoReading, trackId: string, stepIndex: int, params: Params): LfoResult
    decreases |lfos|
  {
    if lfos == [] then LfoResult(params, 0.0)
    else
      var k := |lfos| - 1;
      ApplyLFO(engine, LfoModulation(engine, lfos[..k], reading, trackId, stepIndex, params), lfos[k], reading(trackId, stepIndex, k))
  }

  /** The LFO in a slot drives parameter `name` of the engine. */
  predicate Modulates(engine: string, lfo: LFO, name: string) {
    && lfo.depth > 0.0 && lfo.destination != "none" && lfo.destination != "transpose"
    && lfo.destination == name && EngineParamSpec(engine, name).Some?
  }

  predicate Transposes(lfo: LFO) {
    lfo.depth > 0.0 && lfo.destination == "transpose"
  }

  /** One LFO moves at most its own destination, leaves a declared parameter
      inside its range, and moves the note offset only when it transposes. */
  lemma ApplyLFOSpec(engine: string, acc: LfoResult, lfo: LFO, value: real)
    ensures var r := ApplyLFO(engine, acc, lfo, value);
            && (forall name | !Modulates(engine, lfo, name) ::
                  (name in r.params <==> name in acc.params) && (name in acc.params ==> r.params[name] == acc.params[name]))
            && (Modulates(engine, lfo, lfo.destination) ==>
                  && lfo.destination in r.params
                  && EngineParamSpec(engine, lfo.destination).value.min <= r.params[lfo.destination]
                  && r.params[lfo.destination] <= EngineParamSpec(engine, lfo.destination).value.max)
            && (!Transposes(lfo) ==> r.noteOffset == acc.noteOffset)
  {
    EngineSpecsWellFormed(engine, lfo.destination);
  }

  /** Every modulated parameter ends inside the engine's declared range, every
      other parameter is left as it was, and without a transposing LFO the
      note offset is 0. */
  lemma {:induction false} LfoModulationSpec(engine: string, lfos: seq<LFO>, reading: LfoReading, trackId: string, stepIndex: int, params: Params)
    ensures var r := LfoModulation(engine, lfos, reading, trackId, stepIndex, params);
            && (forall name | (exists j | 0 <= j < |lfos| :: Modulates(engine, lfos[j], name)) ::
                  name in r.params &&
                  EngineParamSpec(engine, name).value.min <= r.params[name] <= EngineParamSpec(engine, name).value.max)
            && (forall name | (forall j | 0 <= j < |lfos| :: !Modulates(engine, lfos[j], name)) ::
                  (name in r.params <==> name in params) && (name in params ==> r.params[name] == params[name]))
            && ((forall j | 0 <= j < |lfos| :: !Transposes(lfos[j])) ==> r.noteOffset == 0.0)
    decreases |lfos|
  {
    if lfos != [] {
      var k := |lfos| - 1;
      var prefix := lfos[..k];
      LfoModulationSpec(engine, prefix, reading, trackId, stepIndex, params);
      assert forall j | 0 <= j < k :: prefix[j] == lfos[j];
      ApplyLFOSpec(engine, LfoModulation(engine, prefix, reading, trackId, stepIndex, params), lfos[k], reading(trackId, stepIndex, k));
    }
  }

  /** `applySynthLFOs`' `forEach` over the track's LFO slots. */
  method ApplySynthLFOs(engine: string, lfos: seq<LFO>, reading: LfoReading, trackId: string, stepIndex: int, params: Params)
    returns (r: LfoResult)
    ensures r == LfoModulation(engine, lfos, reading, trackId, stepIndex, params)
  {
    r := LfoResult(params, 0.0);
    var i := 0;
    while i < |lfos|
      invariant 0 <= i <= |lfos|
      invariant r == LfoModulation(engine, lfos[..i], reading, trackId, stepIndex, params)
    {
      assert lfos[..i + 1][..i] == lfos[..i];
      r := ApplyLFO(engine, r, lfos[i], reading(trackId, stepIndex, i));
      i := i + 1;
    }
    assert lfos[..i] == lfos;
  }

  // ---------------------------------------------------------------------------
  // Melodic tracks: stepping

  /** `triggerSynthStep`'s effect: when the step is on and its condition holds,
      mark the track as playing and request the step's quantised note. */
  function SynthStepTrigger(t: Track, stepIndex: int, bar: int, reading: LfoReading): Option<Trigger>
    requires Shaped(t)
  {
    if !Active(t.steps, stepIndex) || !ShouldTrigger(t.stepConditions[stepIndex], bar) then None
    else
      var lfoResult := LfoModulation(t.engine, t.lfos, reading, t.id, stepIndex, t.params);
      Some(Trigger(t.id, t.engine, lfoResult.params["note" := SynthNote(t, stepIndex, lfoResult.noteOffset) as real], t.fx, t.velocities[stepIndex]))
  }

  /** The note a melodic step plays: its stored index plus the track's
      transposition plus the rounded LFO offset, clamped into the scale. */
  function SynthNote(t: Track, stepIndex: int, noteOffset: real): int {
    var noteData := ResolveSynthNote(t, stepIndex);
    GetNoteFromScale(noteData.0, noteData.1 + t.transpose + Round(noteOffset))
  }

  /** A melodic step fires exactly when it is on and its condition holds, with
      the track's own engine, effects and velocity, and its note is always one
      of the track's scale notes. */
  lemma SynthStepTriggerSpec(t: Track, stepIndex: int, bar: int, reading: LfoReading)
    requires Shaped(t)
    ensures var r := SynthStepTrigger(t, stepIndex, bar, reading);
            && (r.Some? <==> Active(t.steps, stepIndex) && ShouldTrigger(t.stepConditions[stepIndex], bar))
            && (r.Some? ==> && r.value.trackId == t.id && r.value.engine == t.engine && r.value.fx == t.fx
                            && r.value.velocity == t.velocities[stepIndex]
                            && "note" in r.value.params && (r.value.params["note"]).Floor in TrackScaleNotes(t))
  {
  }

  /** `triggerSynthStep`. */
  method TriggerSynthStep(t: Track, stepIndex: int, bar: int, reading: LfoReading) returns (track: Track, trigger: Option<Trigger>)
    requires Shaped(t)
    ensures trigger == SynthStepTrigger(t, stepIndex, bar, reading)
    ensures track == if trigger.Some? then t.(synthState := t.synthState.(isPlaying := true)) else t
    ensures track.synthState == t.synthState.(isPlaying := t.synthState.isPlaying || trigger.Some?)
  {
    if !(0 <= stepIndex < |t.steps|) || !t.steps[stepIndex] {
      return t, None;
    }
    var condition := t.stepConditions[stepIndex];
    if !ShouldTrigger(condition, bar) {
      return t, None;
    }
    var rangeEnd := t.rangeStart + t.rangeSpan - 1;
    var scaleNotes := GetScaleNotes(t.rootNote, t.scale, t.rangeStart, rangeEnd);
    var baseIndex := BaseIndex(scaleNotes, t.noteIndices, stepIndex);
    assert scaleNotes == TrackScaleNotes(t);
    assert (scaleNotes, baseIndex) == ResolveSynthNote(t, stepIndex);
    var lfoResult := ApplySynthLFOs(t.engine, t.lfos, reading, t.id, stepIndex, t.params);
    var note := GetNoteFromScale(scaleNotes, baseIndex + t.transpose + Round(lfoResult.noteOffset));
    assert note == SynthNote(t, stepIndex, lfoResult.noteOffset);
    track := t.(synthState := t.synthState.(isPlaying := true));
    trigger := Some(Trigger(t.id, t.engine, lfoResult.params["note" := note as real], t.fx, t.velocities[stepIndex]));
  }

  /** `track.stepCount || track.maxSteps || 16`: the first non-zero of the
      three, so never zero. */
  function SynthStepCount(t: Track): (r: int)
    ensures r != 0
    ensures t.stepCount != 0 ==> r == t.stepCount
    ensures t.stepCount == 0 && t.maxSteps != 0 ==> r == t.maxSteps
    ensures t.stepCount == 0 && t.maxSteps == 0 ==> r == 16
  {
    if t.stepCount != 0 then t.stepCount else if t.maxSteps != 0 then t.maxSteps else 16
  }

  /** `track.rateMultiplier || 1`: a zero multiplier falls back to 1, so the
      rate is never zero, and it is positive whenever the multiplier is not negative. */
  function SynthRate(t: Track): (r: real)
    ensures r != 0.0
    ensures t.rateMultiplier >= 0.0 ==> r > 0.0
    ensures t.rateMultiplier != 0.0 ==> r == t.rateMultiplier
  {
    if t.rateMultiplier != 0.0 then t.rateMultiplier else 1.0
  }

  lemma ModAddMod(a: int, k: int, n: int)
    requires a >= 0 && k >= 0 && n >= 1
    ensures (a % n + k) % n == (a + k) % n
  {
    var q, r := a / n, a % n;
    var q2, r2 := (r + k) / n, (r + k) % n;
    assert a == q * n + r;
    assert r + k == q2 * n + r2;
    assert a + k == (q + q2) * n + r2;
    DivModUnique(a + k, n, q + q2, r2);
  }

  /** The `while (accumulator >= 1)` loop of `processSynthTrack`, on the
      track's runtime state `s`: each whole unit of the accumulator advances
      the step index, wrapping at `count`, and plays that step of `t` (which
      reads every field but the runtime state). */
  function SynthLoop(t: Track, s: SynthState, count: int, bar: int, reading: LfoReading): (r: (SynthState, seq<Trigger>))
    requires Shaped(t) && count >= 1
    decreases if s.accumulator >= 1.0 then s.accumulator.Floor else 0
  {
    if s.accumulator < 1.0 then (s, [])
    else
      var s1 := s.(accumulator := s.accumulator - 1.0, stepIndex := JsRem(s.stepIndex + 1, count));
      var trigger := SynthStepTrigger(t.(synthState := s1), s1.stepIndex, bar, reading);
      var rest := SynthLoop(t, s1.(isPlaying := s1.isPlaying || trigger.Some?), count, bar, reading);
      (rest.0, (if trigger.Some? then [trigger.value] else []) + rest.1)
  }

  /** One pass of the step loop, unfolded. */
  lemma SynthLoopStep(t: Track, s: SynthState, count: int, bar: int, reading: LfoReading)
    requires Shaped(t) && count >= 1 && s.accumulator >= 1.0
    ensures var s1 := s.(accumulator := s.accumulator - 1.0, stepIndex := JsRem(s.stepIndex + 1, count));
            var trigger := SynthStepTrigger(t.(synthState := s1), s1.stepIndex, bar, reading);
            var rest := SynthLoop(t, s1.(isPlaying := s1.isPlaying || trigger.Some?), count, bar, reading);
            SynthLoop(t, s, count, bar, reading) == (rest.0, (if trigger.Some? then [trigger.value] else []) + rest.1)
  {
  }

  /** The state after one pass: one unit of the accumulator used and the
      step index moved, with the rest of the loop still to run from it. */
  lemma SynthLoopNext(t: Track, s: SynthState, count: int, bar: int, reading: LfoReading) returns (next: SynthState)
    requires Shaped(t) && count >= 1 && s.accumulator >= 1.0
    ensures next.accumulator == s.accumulator - 1.0 && next.stepIndex == JsRem(s.stepIndex + 1, count)
    ensures SynthLoop(t, s, count, bar, reading).0 == SynthLoop(t, next, count, bar, reading).0
    ensures next.accumulator < 1.0 ==> SynthLoop(t, next, count, bar, reading).0 == next
  {
    var s1 := s.(accumulator := s.accumulator - 1.0, stepIndex := JsRem(s.stepIndex + 1, count));
    var trigger := SynthStepTrigger(t.(synthState := s1), s1.stepIndex, bar, reading);
    next := s1.(isPlaying := s1.isPlaying || trigger.Some?);
  }

  /** Each pass consumes one unit of the accumulator and plays at most one
      step, always with the track's own id, engine and effects, so the loop
      leaves the fractional part and plays at most `floor(accumulator)` steps;
      the playing flag is raised exactly when it was already up or a step played. */
  lemma {:induction false} SynthLoopSpec(t: Track, s: SynthState, count: int, bar: int, reading: LfoReading)
    requires Shaped(t) && count >= 1 && s.accumulator >= 0.0
    ensures var r := SynthLoop(t, s, count, bar, reading);
            && (s.accumulator < 1.0 ==> r == (s, []))
            && r.0.accumulator == s.accumulator - s.accumulator.Floor as real
            && |r.1| <= s.accumulator.Floor
            && (r.0.isPlaying <==> s.isPlaying || |r.1| > 0)
            && (forall tr | tr in r.1 :: tr.trackId == t.id && tr.engine == t.engine && tr.fx == t.fx)
    decreases if s.accumulator >= 1.0 then s.accumulator.Floor else 0
  {
    if s.accumulator >= 1.0 {
      var s1 := s.(accumulator := s.accumulator - 1.0, stepIndex := JsRem(s.stepIndex + 1, count));
      var trigger := SynthStepTrigger(t.(synthState := s1), s1.stepIndex, bar, reading);
      SynthStepTriggerSpec(t.(synthState := s1), s1.stepIndex, bar, reading);
      SynthLoopSpec(t, s1.(isPlaying := s1.isPlaying || trigger.Some?), count, bar, reading);
      assert (s.accumulator - 1.0).Floor == s.accumulator.Floor - 1;
    }
  }

  /** Each pass moves the step index one place forward, wrapping at `count`. */
  lemma {:induction false} SynthLoopIndex(t: Track, s: SynthState, count: int, bar: int, reading: LfoReading)
    requires Shaped(t) && count >= 1 && s.accumulator >= 1.0 && s.stepIndex >= -1
    ensures SynthLoop(t, s, count, bar, reading).0.stepIndex == (s.stepIndex + s.accumulator.Floor) % count
    decreases s.accumulator.Floor
  {
    var next := SynthLoopNext(t, s, count, bar, reading);
    var n := s.accumulator.Floor;
    assert next.accumulator.Floor == n - 1;
    assert next.stepIndex == (s.stepIndex + 1) % count;
    if n >= 2 {
      SynthLoopIndex(t, next, count, bar, reading);
      ModAddMod(s.stepIndex + 1, n - 1, count);
      assert (next.stepIndex + (n - 1)) % count == (s.stepIndex + n) % count;
    }
  }

  /** `processSynthTrack`'s effect: add the (defaulted) rate to the
      accumulator and run the step loop, unless the step count is not positive. */
  function SynthTick(t: Track, bar: int, reading: LfoReading): (r: (Track, seq<Trigger>))
    requires Shaped(t)
  {
    var count := SynthStepCount(t);
    if count <= 0 then (t, [])
    else
      var loop := SynthLoop(t, t.synthState.(accumulator := t.synthState.accumulator + SynthRate(t)), count, bar, reading);
      (t.(synthState := loop.0), loop.1)
  }

  /** A track with a non-positive step count is left alone; otherwise, from an
      accumulator in `[0, 1)` and a positive rate, the track advances
      `floor(accumulator + rate)` steps, plays at most that many, ends with its
      accumulator back in `[0, 1)` and, when it moved, with its step index in
      `[0, count)`; nothing but the runtime synth state changes. */
  lemma SynthTickSpec(t: Track, bar: int, reading: LfoReading)
    requires Shaped(t)
    ensures var r := SynthTick(t, bar, reading);
            var count := SynthStepCount(t);
            var acc := t.synthState.accumulator + SynthRate(t);
            && (count <= 0 ==> r == (t, []))
            && r.0 == t.(synthState := r.0.synthState) && Shaped(r.0)
            && (forall tr | tr in r.1 :: tr.trackId == t.id)
            && (count > 0 && acc >= 0.0 ==> r.0.synthState.accumulator == acc - acc.Floor as real)
            && (count > 0 && 0.0 <= acc < 1.0 ==> r.0.synthState.stepIndex == t.synthState.stepIndex && r.1 == [])
            && (count > 0 && 0.0 <= t.synthState.accumulator < 1.0 && SynthRate(t) > 0.0 ==>
                  && 0.0 <= r.0.synthState.accumulator < 1.0
                  && |r.1| <= acc.Floor
                  && (acc >= 1.0 && t.synthState.stepIndex >= -1 ==>
                        0 <= r.0.synthState.stepIndex < count &&
                        r.0.synthState.stepIndex == (t.synthState.stepIndex + acc.Floor) % count))
  {
    var count := SynthStepCount(t);
    var s0 := t.synthState.(accumulator := t.synthState.accumulator + SynthRate(t));
    if count > 0 && s0.accumulator >= 0.0 {
      SynthLoopSpec(t, s0, count, bar, reading);
      if s0.accumulator >= 1.0 && t.synthState.stepIndex >= -1 {
        SynthLoopIndex(t, s0, count, bar, reading);
      }
    }
  }

  lemma AppendAssoc<T>(a: seq<T>, b: seq<T>, c: seq<T>)
    ensures a + (b + c) == (a + b) + c
  {
  }

  /** `processSynthTrack`. */
  method ProcessSynthTrack(t: Track, currentBar: int, reading: LfoReading) returns (track: Track, triggers: seq<Trigger>)
    requires Shaped(t)
    ensures (track, triggers) == SynthTick(t, currentBar, reading)
  {
    var stepCount := SynthStepCount(t);
    if stepCount <= 0 {
      return t, [];
    }
    var rate := SynthRate(t);
    var state := t.synthState.(accumulator := t.synthState.accumulator + rate);
    ghost var target := SynthLoop(t, state, stepCount, currentBar, reading);
    triggers := [];
    while state.accumulator >= 1.0
      invariant SynthLoop(t, state, stepCount, currentBar, reading).0 == target.0
      invariant triggers + SynthLoop(t, state, stepCount, currentBar, reading).1 == target.1
      decreases state.accumulator.Floor
    {
      ghost var before := state;
      state := state.(accumulator := state.accumulator - 1.0, stepIndex := JsRem(state.stepIndex + 1, stepCount));
      var stepped, trigger := TriggerSynthStep(t.(synthState := state), state.stepIndex, currentBar, reading);
      state := stepped.synthState;
      ghost var emitted := if trigger.Some? then [trigger.value] else [];
      ghost var rest := SynthLoop(t, state, stepCount, currentBar, reading).1;
      SynthLoopStep(t, before, stepCount, currentBar, reading);
      AppendAssoc(triggers, emitted, rest);
      if trigger.Some? {
        triggers := triggers + [trigger.value];
      }
    }
    track := t.(synthState := state);
    assert triggers + [] == triggers;
  }

  // ---------------------------------------------------------------------------
  // The global clock

  /** The counters `step` advances first: the global step wraps at 16, and
      the position in the bar counts to 16 and then starts the next of four
      bars. */
  function Advance(currentStep: int, stepInBar: int, currentBar: int): (int, int, int) {
    var inBar := stepInBar + 1;
    if inBar >= 16 then (JsRem(currentStep + 1, 16), 0, JsRem(currentBar + 1, 4))
    else (JsRem(currentStep + 1, 16), inBar, currentBar)
  }

  /** From counters in range, `step` moves the global step and the position
      in the bar one place forward (wrapping at 16) and moves to the next bar
      (wrapping at 4) exactly when the position wraps. */
  lemma AdvanceSpec(currentStep: int, stepInBar: int, currentBar: int)
    requires -1 <= currentStep < 16 && 0 <= stepInBar < 16 && 0 <= currentBar < 4
    ensures var r := Advance(currentStep, stepInBar, currentBar);
            && 0 <= r.0 < 16 && 0 <= r.1 < 16 && 0 <= r.2 < 4
            && r.0 == (currentStep + 1) % 16
            && r.1 == (stepInBar + 1) % 16
            && r.2 == (if stepInBar == 15 then (currentBar + 1) % 4 else currentBar)
  {
  }

  /** While the global step and the position in the bar stay in step (as they
      do from a reset), the next bar begins on the tick that plays global step
      15, so that step is gated by the next bar's number. */
  lemma BarTurnsOnLastStep(currentStep: int, stepInBar: int, currentBar: int)
    requires -1 <= currentStep < 16 && 0 <= currentBar < 4
    requires stepInBar == (currentStep + 1) % 16
    ensures var r := Advance(currentStep, stepInBar, currentBar);
            && r.1 == (r.0 + 1) % 16
            && (r.2 != currentBar <==> r.0 == 15)
  {
  }

  // ---------------------------------------------------------------------------
  // One tick over every track

  /** The first pass of `step`: a melodic track's playing flag is lowered. */
  function ClearFlag(t: Track): (r: Track)
    ensures r == t.(synthState := r.synthState) && (Shaped(r) <==> Shaped(t))
    ensures t.isSynth ==> !r.synthState.isPlaying
    ensures !t.isSynth ==> r == t
  {
    if t.isSynth then t.(synthState := t.synthState.(isPlaying := false)) else t
  }

  function ClearFlags(tracks: map<string, Track>): (r: map<string, Track>)
    ensures r.Keys == tracks.Keys
  {
    map id | id in tracks :: ClearFlag(tracks[id])
  }

  /** One track's part of the second pass of `step`: a muted track is
      skipped, a melodic track runs its own clock, a drum track plays the
      global step. Only the runtime synth state of the track can change; a
      drum track asks for at most one sound; every sound is the track's own. */
  function PlayTrack(t: Track, step: int, bar: int, tempo: real, reading: LfoReading): (r: (Track, seq<Trigger>))
    requires Shaped(t)
    ensures Shaped(r.0) && r.0 == t.(synthState := r.0.synthState)
    ensures t.mute ==> r == (t, [])
    ensures !t.isSynth ==> r.0 == t && |r.1| <= 1
    ensures forall tr | tr in r.1 :: tr.trackId == t.id
  {
    if t.mute then (t, [])
    else if t.isSynth then SynthTickSpec(t, bar, reading); SynthTick(t, bar, reading)
    else
      var trigger := DrumTrigger(t, step, bar, tempo);
      if trigger.Some? then DrumTriggerSpec(t, step, bar, tempo); (t, [trigger.value]) else (t, [])
  }

  /** The second pass of `step`: the tracks in key order, each seeing the
      tracks map as the earlier ones left it. */
  function PlayTracks(tracks: map<string, Track>, order: seq<string>, step: int, bar: int, tempo: real, reading: LfoReading): (r: (map<string, Track>, seq<Trigger>))
    requires forall id | id in tracks :: Shaped(tracks[id])
    ensures r.0.Keys == tracks.Keys
    ensures forall id | id in r.0 :: Shaped(r.0[id]) && r.0[id] == tracks[id].(synthState := r.0[id].synthState)
  {
    if |order| == 0 then (tracks, [])
    else if order[0] !in tracks then PlayTracks(tracks, order[1..], step, bar, tempo, reading)
    else
      var played := PlayTrack(tracks[order[0]], step, bar, tempo, reading);
      var rest := PlayTracks(tracks[order[0] := played.0], order[1..], step, bar, tempo, reading);
      (rest.0, played.1 + rest.1)
  }

  /** The tail of a list without repeats has no repeats, misses the head and
      holds every other element. */
  lemma TailDistinct(order: seq<string>)
    requires |order| > 0
    requires forall i, j | 0 <= i < j < |order| :: order[i] != order[j]
    ensures forall i, j | 0 <= i < j < |order[1..]| :: order[1..][i] != order[1..][j]
    ensures order[0] !in order[1..]
    ensures forall id | id in order && id != order[0] :: id in order[1..]
  {
    forall i, j | 0 <= i < j < |order[1..]| ensures order[1..][i] != order[1..][j] {
      assert order[1..][i] == order[i + 1] && order[1..][j] == order[j + 1];
    }
    forall k | 0 <= k < |order[1..]| ensures order[1..][k] != order[0] {
      assert order[1..][k] == order[k + 1];
    }
    forall id | id in order && id != order[0] ensures id in order[1..] {
      var k :| 0 <= k < |order| && order[k] == id;
      assert order[1..][k - 1] == id;
    }
  }

  /** Each listed track is played once, against the map as the earlier
      tracks left it, and the others are left alone. */
  lemma {:induction false} PlayTracksFrame(tracks: map<string, Track>, order: seq<string>, step: int, bar: int, tempo: real, reading: LfoReading)
    requires forall id | id in tracks :: Shaped(tracks[id])
    requires forall i, j | 0 <= i < j < |order| :: order[i] != order[j]
    ensures var r := PlayTracks(tracks, order, step, bar, tempo, reading);
            && (forall id | id in tracks && id in order :: r.0[id] == PlayTrack(tracks[id], step, bar, tempo, reading).0)
            && (forall id | id in tracks && id !in order :: r.0[id] == tracks[id])
  {
    if |order| > 0 {
      var id0 := order[0];
      TailDistinct(order);
      if id0 !in tracks {
        PlayTracksFrame(tracks, order[1..], step, bar, tempo, reading);
      } else {
        var played := PlayTrack(tracks[id0], step, bar, tempo, reading);
        PlayTracksFrame(tracks[id0 := played.0], order[1..], step, bar, tempo, reading);
      }
    }
  }

  /** Every sound of the pass comes from a listed track that is not muted. */
  lemma {:induction false} PlayTracksSources(tracks: map<string, Track>, order: seq<string>, step: int, bar: int, tempo: real, reading: LfoReading)
    requires forall id | id in tracks :: Shaped(tracks[id]) && tracks[id].id == id
    ensures forall tr | tr in PlayTracks(tracks, order, step, bar, tempo, reading).1 ::
              tr.trackId in order && tr.trackId in tracks && !tracks[tr.trackId].mute
  {
    if |order| > 0 {
      var id0 := order[0];
      assert forall id | id in order[1..] :: id in order;
      if id0 !in tracks {
        PlayTracksSources(tracks, order[1..], step, bar, tempo, reading);
      } else {
        var played := PlayTrack(tracks[id0], step, bar, tempo, reading);
        PlayTracksSources(tracks[id0 := played.0], order[1..], step, bar, tempo, reading);
      }
    }
  }

  /** What one tick does to the tracks: lower the melodic tracks' playing
      flags, then play every listed track. */
  function TickTracks(tracks: map<string, Track>, order: seq<string>, step: int, bar: int, tempo: real, reading: LfoReading): (map<string, Track>, seq<Trigger>)
    requires forall id | id in tracks :: Shaped(tracks[id])
  {
    PlayTracks(ClearFlags(tracks), order, step, bar, tempo, reading)
  }

  /** After a tick a drum track is as it was, a muted melodic track has its
      playing flag lowered and is otherwise as it was, an unmuted melodic
      track has run its clock from a lowered flag, and no muted track sounds. */
  lemma TickTracksSpec(tracks: map<string, Track>, order: seq<string>, step: int, bar: int, tempo: real, reading: LfoReading)
    requires forall id | id in tracks :: Shaped(tracks[id]) && tracks[id].id == id
    requires forall i, j | 0 <= i < j < |order| :: order[i] != order[j]
    requires forall id :: id in tracks <==> id in order
    ensures var r := TickTracks(tracks, order, step, bar, tempo, reading);
            && r.0.Keys == tracks.Keys
            && (forall id | id in tracks && !tracks[id].isSynth :: r.0[id] == tracks[id])
            && (forall id | id in tracks && tracks[id].isSynth && tracks[id].mute ::
                  r.0[id] == tracks[id].(synthState := tracks[id].synthState.(isPlaying := false)))
            && (forall id | id in tracks && tracks[id].isSynth && !tracks[id].mute ::
                  r.0[id] == SynthTick(ClearFlag(tracks[id]), bar, reading).0)
            && (forall tr | tr in r.1 :: tr.trackId in tracks && !tracks[tr.trackId].mute)
  {
    PlayTracksFrame(ClearFlags(tracks), order, step, bar, tempo, reading);
    PlayTracksSources(ClearFlags(tracks), order, step, bar, tempo, reading);
  }

  /** A tick keeps the tracks registered as they were. */
  lemma TickKeepsRegistry(tracks: map<string, Track>, order: seq<string>, step: int, bar: int, tempo: real, reading: LfoReading)
    requires Registry(order, tracks)
    ensures Registry(order, TickTracks(tracks, order, step, bar, tempo, reading).0)
  {
    var r := PlayTracks(ClearFlags(tracks), order, step, bar, tempo, reading);
    assert forall id | id in r.0 :: r.0[id].id == ClearFlags(tracks)[id].id == tracks[id].id;
  }

  /** The first loop of `step`. */
  method ClearSynthFlags(tracks: map<string, Track>, order: seq<string>) returns (cleared: map<string, Track>)
    requires forall id :: id in tracks <==> id in order
    ensures cleared == ClearFlags(tracks)
  {
    cleared := tracks;
    for i := 0 to |order|
      invariant cleared == map id | id in tracks :: if id in order[..i] then ClearFlag(tracks[id]) else tracks[id]
    {
      var id := order[i];
      var track := cleared[id];
      if track.isSynth {
        cleared := cleared[id := track.(synthState := track.synthState.(isPlaying := false))];
      }
      assert order[..i + 1] == order[..i] + [id];
    }
    assert order[..|order|] == order;
  }

  /** The second loop of `step`. */
  method PlayAllTracks(tracks: map<string, Track>, order: seq<string>, step: int, bar: int, tempo: real, reading: LfoReading)
    returns (played: map<string, Track>, triggers: seq<Trigger>)
    requires forall id | id in tracks :: Shaped(tracks[id])
    ensures (played, triggers) == PlayTracks(tracks, order, step, bar, tempo, reading)
  {
    ghost var target := PlayTracks(tracks, order, step, bar, tempo, reading);
    played, triggers := tracks, [];
    for i := 0 to |order|
      invariant played.Keys == tracks.Keys && forall id | id in played :: Shaped(played[id])
      invariant PlayTracks(played, order[i..], step, bar, tempo, reading).0 == target.0
      invariant triggers + PlayTracks(played, order[i..], step, bar, tempo, reading).1 == target.1
    {
      assert order[i..][1..] == order[i + 1..];
      var id := order[i];
      if id in played {
        var track := played[id];
        var emitted: seq<Trigger> := [];
        if !track.mute {
          if track.isSynth {
            track, emitted := ProcessSynthTrack(track, bar, reading);
          } else {
            var trigger := ProcessDrumTrack(track, step, bar, tempo);
            if trigger.Some? {
              emitted := [trigger.value];
            }
          }
        }
        assert (track, emitted) == PlayTrack(played[id], step, bar, tempo, reading);
        AppendAssoc(triggers, emitted, PlayTracks(played[id := track], order[i + 1..], step, bar, tempo, reading).1);
        played := played[id := track];
        triggers := triggers + emitted;
      }
    }
    assert triggers + [] == triggers;
  }

  /** The two loops of `step` over the tracks. */
  method TickAllTracks(tracks: map<string, Track>, order: seq<string>, step: int, bar: int, tempo: real, reading: LfoReading)
    returns (played: map<string, Track>, triggers: seq<Trigger>)
    requires forall id | id in tracks :: Shaped(tracks[id])
    requires forall id :: id in tracks <==> id in order
    ensures (played, triggers) == TickTracks(tracks, order, step, bar, tempo, reading)
  {
    var cleared := ClearSynthFlags(tracks, order);
    played, triggers := PlayAllTracks(cleared, order, step, bar, tempo, reading);
  }

  // ---------------------------------------------------------------------------
  // The sequencer

  /** The transport around the shared application state: whether the step
      timer is running, and the log of every sound requested so far. */
  class Sequencer {
    const app: AppState
    var timerActive: bool
    ghost var log: seq<Trigger>

    /** The application state is consistent, the timer runs exactly while
        the state says it is playing, and the counters are in range. */
    ghost predicate Valid()
      reads this, app
    {
      && app.Valid()
      && app.isPlaying == timerActive
      && -1 <= app.currentStep < 16 && 0 <= app.stepInBar < 16 && 0 <= app.currentBar < 4
    }

    constructor (app: AppState)
      requires app.Valid() && !app.isPlaying
      requires -1 <= app.currentStep < 16 && 0 <= app.stepInBar < 16 && 0 <= app.currentBar < 4
      ensures Valid() && this.app == app && !timerActive && log == []
    {
      this.app := app;
      timerActive := false;
      log := [];
    }

    /** `startSequencer`: a running timer is left alone; otherwise the timer
        starts and the state is marked as playing. */
    method Start()
      requires Valid()
      modifies `timerActive, app`isPlaying
      ensures Valid() && timerActive && app.isPlaying
    {
      if timerActive {
        return;
      }
      timerActive := true;
      app.isPlaying := true;
    }

    /** `stopSequencer`: the timer stops, the playhead rewinds to before the
        first step and the state is marked as stopped. */
    method Stop()
      requires Valid()
      modifies `timerActive, app`isPlaying, app`currentStep
      ensures Valid() && !timerActive && !app.isPlaying && app.currentStep == -1
    {
      timerActive := false;
      app.currentStep := -1;
      app.isPlaying := false;
    }

    /** `resetSequencer`: all counters go back to the start, and a playing
        sequencer is stopped and started again, so it keeps playing. */
    method Reset()
      requires Valid()
      modifies `timerActive, app`isPlaying, app`currentStep, app`currentBar, app`stepInBar
      ensures Valid() && app.isPlaying == old(app.isPlaying)
      ensures app.currentStep == -1 && app.currentBar == 0 && app.stepInBar == 0
    {
      var wasPlaying := app.isPlaying;
      if wasPlaying {
        Stop();
      }
      app.currentStep := -1;
      app.currentBar := 0;
      app.stepInBar := 0;
      if wasPlaying {
        Start();
      }
    }

    /** `updateTempo`: the new tempo is stored; a playing sequencer is
        restarted, which rewinds its playhead but not its bar counters. */
    method UpdateTempo(newTempo: real)
      requires Valid()
      modifies `timerActive, app`isPlaying, app`currentStep, app`tempo
      ensures Valid() && app.tempo == newTempo && app.isPlaying == old(app.isPlaying)
      ensures app.currentStep == if old(app.isPlaying) then -1 else old(app.currentStep)
    {
      app.tempo := newTempo;
      if app.isPlaying {
        Stop();
        Start();
      }
    }

    /** The counter update at the head of `step`. */
    method AdvanceClock()
      requires Valid()
      modifies app`currentStep, app`stepInBar, app`currentBar
      ensures Valid()
      ensures var c := Advance(old(app.currentStep), old(app.stepInBar), old(app.currentBar));
              app.currentStep == c.0 && app.stepInBar == c.1 && app.currentBar == c.2
    {
      AdvanceSpec(app.currentStep, app.stepInBar, app.currentBar);
      app.currentStep := JsRem(app.currentStep + 1, 16);
      app.stepInBar := app.stepInBar + 1;
      if app.stepInBar >= 16 {
        app.stepInBar := 0;
        app.currentBar := JsRem(app.currentBar + 1, 4);
      }
    }

    /** `step`, the timer's callback: advance the counters, lower the melodic
        tracks' playing flags, then play every track in key order with the new
        step and bar, recording each sound requested. */
    method Tick(reading: LfoReading)
      requires Valid()
      modifies `log, app`currentStep, app`stepInBar, app`currentBar, app`tracks
      ensures Valid()
      ensures var c := Advance(old(app.currentStep), old(app.stepInBar), old(app.currentBar));
              && app.currentStep == c.0 && app.stepInBar == c.1 && app.currentBar == c.2
              && var r := TickTracks(old(app.tracks), old(app.trackOrder), c.0, c.2, old(app.tempo), reading);
                 app.tracks == r.0 && log == old(log) + r.1
    {
      var tracks, order, tempo := app.tracks, app.trackOrder, app.tempo;
      AdvanceClock();
      var step, bar := app.currentStep, app.currentBar;
      TickKeepsRegistry(tracks, order, step, bar, tempo, reading);
      var played, triggers := TickAllTracks(tracks, order, step, bar, tempo, reading);
      app.tracks := played;
      log := log + triggers;
    }
  }
}
