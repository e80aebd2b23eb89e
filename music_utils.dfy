/** Scale and pitch utilities: the scale table, the list of MIDI notes of a scale
    inside a range window, index clamping, stepping through a scale, and MIDI
    note names. */
module MusicUtils {
  import opened Common

  datatype ScaleDefinition = ScaleDefinition(id: string, name: string, intervals: seq<int>)

  const IONIAN: seq<int> := [0, 2, 4, 5, 7, 9, 11]
  const DORIAN: seq<int> := [0, 2, 3, 5, 7, 9, 10]
  const PHRYGIAN: seq<int> := [0, 1, 3, 5, 7, 8, 10]
  const LYDIAN: seq<int> := [0, 2, 4, 6, 7, 9, 11]
  const MIXOLYDIAN: seq<int> := [0, 2, 4, 5, 7, 9, 10]
  const AEOLIAN: seq<int> := [0, 2, 3, 5, 7, 8, 10]
  const LOCRIAN: seq<int> := [0, 1, 3, 5, 6, 8, 10]
  const HARMONIC_MINOR: seq<int> := [0, 2, 3, 5, 7, 8, 11]
  const MELODIC_MINOR: seq<int> := [0, 2, 3, 5, 7, 9, 11]
  const WHOLE_TONE: seq<int> := [0, 2, 4, 6, 8, 10]
  const CHROMATIC: seq<int> := [0, 1, 2, 3, 4, 5, 6, 7, 8, 9, 10, 11]
  const MAJOR_PENTATONIC: seq<int> := [0, 2, 4, 7, 9]
  const MINOR_PENTATONIC: seq<int> := [0, 3, 5, 7, 10]
  const BLUES: seq<int> := [0, 3, 5, 6, 7, 10]
  const HUNGARIAN_MINOR: seq<int> := [0, 2, 3, 6, 7, 8, 11]
  const PERSIAN: seq<int> := [0, 1, 4, 5, 6, 8, 11]
  const HIRAJOSHI: seq<int> := [0, 2, 3, 7, 8]
  const INSEN: seq<int> := [0, 1, 5, 7, 10]
  const KUMOI: seq<int> := [0, 2, 3, 7, 9]
  const NEAPOLITAN_MINOR: seq<int> := [0, 1, 3, 5, 7, 8, 11]

  const SCALE_DEFINITIONS: seq<ScaleDefinition> := [
    ScaleDefinition("ionian", "Ionian (Major)", IONIAN),
    ScaleDefinition("dorian", "Dorian", DORIAN),
    ScaleDefinition("phrygian", "Phrygian", PHRYGIAN),
    ScaleDefinition("lydian", "Lydian", LYDIAN),
    ScaleDefinition("mixolydian", "Mixolydian", MIXOLYDIAN),
    ScaleDefinition("aeolian", "Aeolian (Natural Minor)", AEOLIAN),
    ScaleDefinition("locrian", "Locrian", LOCRIAN),
    ScaleDefinition("harmonic_minor", "Harmonic Minor", HARMONIC_MINOR),
    ScaleDefinition("melodic_minor", "Melodic Minor", MELODIC_MINOR),
    ScaleDefinition("whole_tone", "Whole Tone", WHOLE_TONE),
    ScaleDefinition("chromatic", "Chromatic", CHROMATIC),
    ScaleDefinition("major_pentatonic", "Major Pentatonic", MAJOR_PENTATONIC),
    ScaleDefinition("minor_pentatonic", "Minor Pentatonic", MINOR_PENTATONIC),
    ScaleDefinition("blues", "Blues", BLUES),
    ScaleDefinition("hungarian_minor", "Hungarian Minor", HUNGARIAN_MINOR),
    ScaleDefinition("persian", "Persian", PERSIAN),
    ScaleDefinition("hirajoshi", "Hirajoshi", HIRAJOSHI),
    ScaleDefinition("insen", "Insen", INSEN),
    ScaleDefinition("kumoi", "Kumoi", KUMOI),
    ScaleDefinition("neapolitan_minor", "Neapolitan Minor", NEAPOLITAN_MINOR)
  ]

  /** The rate multipliers offered for melodic tracks. */
  const SEQUENCER_RATES: seq<real> := [0.25, 0.5, 1.0, 2.0, 4.0]

  const NOTE_NAMES: seq<string> := ["C", "C#", "D", "D#", "E", "F", "F#", "G", "G#", "A", "A#", "B"]

  // ---------------------------------------------------------------------------
  // The scale table

  /** An interval set starts at the root, rises strictly and stays inside one octave. */
  ghost predicate ValidIntervals(iv: seq<int>) {
    && |iv| > 0 && iv[0] == 0
    && (forall i, j | 0 <= i < j < |iv| :: iv[i] < iv[j])
    && (forall i | 0 <= i < |iv| :: 0 <= iv[i] <= 11)
  }

  /** The executable check: from position `i` on, each interval is below the next. */
  predicate RisingFrom(iv: seq<int>, i: nat)
    decreases |iv| - i
  {
    i + 1 >= |iv| || (iv[i] < iv[i + 1] && RisingFrom(iv, i + 1))
  }

  predicate CheckedIntervals(iv: seq<int>) {
    |iv| > 0 && iv[0] == 0 && iv[|iv| - 1] <= 11 && RisingFrom(iv, 0)
  }

  lemma {:induction false} RisingFromIncreasing(iv: seq<int>, i: nat, j: nat)
    requires RisingFrom(iv, i) && i <= j < |iv|
    ensures forall k | j < k < |iv| :: iv[j] < iv[k]
    ensures iv[i] <= iv[j]
    decreases |iv| - i
  {
    if i + 1 < |iv| {
      if i < j {
        RisingFromIncreasing(iv, i + 1, j);
      } else {
        RisingFromIncreasing(iv, i + 1, i + 1);
      }
    }
  }

  lemma CheckedIntervalsValid(iv: seq<int>)
    requires CheckedIntervals(iv)
    ensures ValidIntervals(iv)
  {
    forall i | 0 <= i < |iv| ensures 0 <= iv[i] <= 11 && forall k | i < k < |iv| :: iv[i] < iv[k] {
      RisingFromIncreasing(iv, 0, i);
      if i < |iv| - 1 {
        assert iv[i] < iv[|iv| - 1];
      }
    }
  }

  lemma CheckedLow(k: int)
    requires 0 <= k < 10
    ensures CheckedIntervals(SCALE_DEFINITIONS[k].intervals)
  {
    if k == 0 { assert CheckedIntervals(IONIAN); }
    else if k == 1 { assert CheckedIntervals(DORIAN); }
    else if k == 2 { assert CheckedIntervals(PHRYGIAN); }
    else if k == 3 { assert CheckedIntervals(LYDIAN); }
    else if k == 4 { assert CheckedIntervals(MIXOLYDIAN); }
    else if k == 5 { assert CheckedIntervals(AEOLIAN); }
    else if k == 6 { assert CheckedIntervals(LOCRIAN); }
    else if k == 7 { assert CheckedIntervals(HARMONIC_MINOR); }
    else if k == 8 { assert CheckedIntervals(MELODIC_MINOR); }
    else if k == 9 { assert CheckedIntervals(WHOLE_TONE); }
  }

  lemma CheckedHigh(k: int)
    requires 10 <= k < |SCALE_DEFINITIONS|
    ensures CheckedIntervals(SCALE_DEFINITIONS[k].intervals)
  {
    if k == 10 { assert CheckedIntervals(CHROMATIC); }
    else if k == 11 { assert CheckedIntervals(MAJOR_PENTATONIC); }
    else if k == 12 { assert CheckedIntervals(MINOR_PENTATONIC); }
    else if k == 13 { assert CheckedIntervals(BLUES); }
    else if k == 14 { assert CheckedIntervals(HUNGARIAN_MINOR); }
    else if k == 15 { assert CheckedIntervals(PERSIAN); }
    else if k == 16 { assert CheckedIntervals(HIRAJOSHI); }
    else if k == 17 { assert CheckedIntervals(INSEN); }
    else if k == 18 { assert CheckedIntervals(KUMOI); }
    else if k == 19 { assert CheckedIntervals(NEAPOLITAN_MINOR); }
  }

  /** Every interval set of the table starts at 0, rises strictly and stays within 0..11. */
  lemma ScaleDefinitionsWellFormed()
    ensures forall k | 0 <= k < |SCALE_DEFINITIONS| :: ValidIntervals(SCALE_DEFINITIONS[k].intervals)
  {
    forall k | 0 <= k < |SCALE_DEFINITIONS| ensures ValidIntervals(SCALE_DEFINITIONS[k].intervals) {
      if k < 10 { CheckedLow(k); } else { CheckedHigh(k); }
      CheckedIntervalsValid(SCALE_DEFINITIONS[k].intervals);
    }
  }

  /** The first definition with the given id, as `Array.prototype.find` returns it. */
  function FindScale(defs: seq<ScaleDefinition>, scaleId: string): Option<ScaleDefinition> {
    if |defs| == 0 then None
    else if defs[0].id == scaleId then Some(defs[0])
    else FindScale(defs[1..], scaleId)
  }

  /** `find` gives nothing exactly when no id matches, and otherwise the first match. */
  lemma {:induction false} FindScaleSpec(defs: seq<ScaleDefinition>, scaleId: string)
    ensures var r := FindScale(defs, scaleId);
            && (r.None? <==> forall i | 0 <= i < |defs| :: defs[i].id != scaleId)
            && (r.Some? ==> exists i | 0 <= i < |defs| ::
                  defs[i] == r.value && r.value.id == scaleId
                  && forall j | 0 <= j < i :: defs[j].id != scaleId)
  {
    if |defs| > 0 && defs[0].id != scaleId {
      FindScaleSpec(defs[1..], scaleId);
      assert forall i | 1 <= i < |defs| :: defs[i] == defs[1..][i - 1];
      var r := FindScale(defs[1..], scaleId);
      if r.Some? {
        var i :| 0 <= i < |defs[1..]| && defs[1..][i] == r.value && r.value.id == scaleId
                 && forall j | 0 <= j < i :: defs[1..][j].id != scaleId;
        assert defs[i + 1] == r.value;
        assert forall j | 0 <= j < i + 1 :: defs[j].id != scaleId by {
          forall j | 0 <= j < i + 1 ensures defs[j].id != scaleId {
            if j > 0 { assert defs[j] == defs[1..][j - 1]; }
          }
        }
      }
    }
  }

  /** The definition named `scaleId`, falling back to the first one. */
  function GetScaleDefinition(scaleId: string): ScaleDefinition {
    match FindScale(SCALE_DEFINITIONS, scaleId)
    case Some(d) => d
    case None => SCALE_DEFINITIONS[0]
  }

  /** A known id gets its own definition; an unknown id falls back to ionian. */
  lemma GetScaleDefinitionSpec(scaleId: string)
    ensures GetScaleDefinition(scaleId) in SCALE_DEFINITIONS
    ensures (exists i | 0 <= i < |SCALE_DEFINITIONS| :: SCALE_DEFINITIONS[i].id == scaleId) ==>
              GetScaleDefinition(scaleId).id == scaleId
    ensures (forall i | 0 <= i < |SCALE_DEFINITIONS| :: SCALE_DEFINITIONS[i].id != scaleId) ==>
              GetScaleDefinition(scaleId) == SCALE_DEFINITIONS[0] && GetScaleDefinition(scaleId).id == "ionian"
  {
    FindScaleSpec(SCALE_DEFINITIONS, scaleId);
  }

  // ---------------------------------------------------------------------------
  // Scale notes inside a window

  /** `((note - root) % 12 + 12) % 12` with JavaScript's remainder. */
  function PitchClass(note: int, root: int): (r: int)
    ensures 0 <= r < 12
    ensures r == (note - root) % 12
  {
    JsRem(JsRem(note - root, 12) + 12, 12)
  }

  predicate InScale(note: int, root: int, intervals: seq<int>) {
    PitchClass(note, root) in intervals
  }

  /** The notes of `[lo, hi]`, in order, whose pitch class is in `intervals`:
      what the loop of `getScaleNotes` has pushed once it has passed `hi`. */
  function WindowNotes(root: int, intervals: seq<int>, lo: int, hi: int): seq<int>
    decreases hi - lo
  {
    if hi < lo then []
    else WindowNotes(root, intervals, lo, hi - 1) + (if InScale(hi, root, intervals) then [hi] else [])
  }

  /** `getScaleNotes` as a value: the window's scale notes, or `[root]` when none fits. */
  function ScaleNotes(root: int, scaleId: string, lo: int, hi: int): seq<int> {
    var w := WindowNotes(root, GetScaleDefinition(scaleId).intervals, lo, hi);
    if |w| == 0 then [root] else w
  }

  lemma {:induction false} WindowNotesMembership(root: int, intervals: seq<int>, lo: int, hi: int, x: int)
    ensures x in WindowNotes(root, intervals, lo, hi) <==> lo <= x <= hi && InScale(x, root, intervals)
    decreases hi - lo
  {
    if hi >= lo {
      WindowNotesMembership(root, intervals, lo, hi - 1, x);
    }
  }

  /** Strictly ascending. */
  predicate Ascending(s: seq<int>) {
    forall i, j | 0 <= i < j < |s| :: s[i] < s[j]
  }

  lemma {:induction false} WindowNotesAscending(root: int, intervals: seq<int>, lo: int, hi: int)
    ensures Ascending(WindowNotes(root, intervals, lo, hi))
    decreases hi - lo
  {
    if hi >= lo {
      var prev := WindowNotes(root, intervals, lo, hi - 1);
      WindowNotesAscending(root, intervals, lo, hi - 1);
      forall i | 0 <= i < |prev| ensures prev[i] < hi {
        WindowNotesMembership(root, intervals, lo, hi - 1, prev[i]);
      }
      if InScale(hi, root, intervals) {
        var w := WindowNotes(root, intervals, lo, hi);
        assert w == prev + [hi];
        forall i, j | 0 <= i < j < |w| ensures w[i] < w[j] {
          if j < |prev| {
            assert w[i] == prev[i] && w[j] == prev[j];
          } else {
            assert w[i] == prev[i] && w[j] == hi;
          }
        }
        assert Ascending(w);
      } else {
        assert WindowNotes(root, intervals, lo, hi) == prev;
      }
    }
  }

  /** The scale list is never empty and rises strictly; when the window holds
      a scale note the list holds exactly the window's scale notes, and
      otherwise it is exactly `[root]`. */
  lemma ScaleNotesSpec(root: int, scaleId: string, lo: int, hi: int)
    ensures var iv := GetScaleDefinition(scaleId).intervals;
            var r := ScaleNotes(root, scaleId, lo, hi);
            && |r| > 0
            && Ascending(r)
            && ((forall x | lo <= x <= hi :: !InScale(x, root, iv)) ==> r == [root])
            && ((exists x | lo <= x <= hi :: InScale(x, root, iv)) ==>
                  forall x :: x in r <==> lo <= x <= hi && InScale(x, root, iv))
  {
    var iv := GetScaleDefinition(scaleId).intervals;
    var w := WindowNotes(root, iv, lo, hi);
    WindowNotesAscending(root, iv, lo, hi);
    forall x ensures x in w <==> lo <= x <= hi && InScale(x, root, iv) {
      WindowNotesMembership(root, iv, lo, hi, x);
    }
    if |w| > 0 {
      assert w[0] in w;
    } else {
      forall x | lo <= x <= hi ensures !InScale(x, root, iv) {
        WindowNotesMembership(root, iv, lo, hi, x);
      }
    }
  }

  /** The loop of `getScaleNotes`: scan the window upward, pushing every note
      whose pitch class relative to the root is one of the intervals. */
  method CollectScaleNotes(rootMidi: int, intervals: seq<int>, rangeStart: int, rangeEnd: int) returns (result: seq<int>)
    ensures result == WindowNotes(rootMidi, intervals, rangeStart, rangeEnd)
  {
    result := [];
    var note := rangeStart;
    while note <= rangeEnd
      invariant note <= rangeEnd + 1 || note == rangeStart
      invariant result == WindowNotes(rootMidi, intervals, rangeStart, note - 1)
    {
      var relative := JsRem(JsRem(note - rootMidi, 12) + 12, 12);
      if relative in intervals {
        result := result + [note];
      }
      note := note + 1;
    }
  }

  /** `getScaleNotes`: the scale's notes inside `[rangeStart, rangeEnd]`, or the
      root alone when none fits. */
  method GetScaleNotes(rootMidi: int, scaleId: string, rangeStart: int, rangeEnd: int) returns (result: seq<int>)
    ensures result == ScaleNotes(rootMidi, scaleId, rangeStart, rangeEnd)
  {
    var scale := GetScaleDefinition(scaleId);
    result := CollectScaleNotes(rootMidi, scale.intervals, rangeStart, rangeEnd);
    if |result| == 0 {
      result := result + [rootMidi];
    }
  }

  // ---------------------------------------------------------------------------
  // Index helpers

  /** `clampIndex`: 0 for an empty range, otherwise `value` pushed into `[0, max-1]`. */
  function ClampIndex(value: int, max: int): (r: int)
    ensures max <= 0 ==> r == 0
    ensures max > 0 ==> 0 <= r < max
    ensures 0 <= value < max ==> r == value
    ensures max > 0 && value < 0 ==> r == 0
    ensures max > 0 && value >= max ==> r == max - 1
  {
    if max <= 0 then 0 else MaxInt(0, MinInt(max - 1, value))
  }

  /** `indexOf`: the first position of `x`, or -1. */
  function IndexOf(s: seq<int>, x: int): (r: int)
    ensures r == -1 <==> x !in s
    ensures r != -1 ==> 0 <= r < |s| && s[r] == x && x !in s[..r]
  {
    if |s| == 0 then -1
    else if s[0] == x then 0
    else
      var k := IndexOf(s[1..], x);
      if k == -1 then -1
      else
        assert s[..k + 1] == [s[0]] + s[1..][..k];
        k + 1
  }

  /** `cycleScaleIndex`: move `offset` places from `note` in the list, clamped at its ends. */
  function CycleScaleIndex(scaleNotes: seq<int>, note: int, offset: int): (r: int)
    ensures |scaleNotes| == 0 ==> r == note
    ensures |scaleNotes| > 0 ==> r in scaleNotes
    ensures |scaleNotes| > 0 && note !in scaleNotes ==> r == scaleNotes[ClampIndex(offset, |scaleNotes|)]
    ensures |scaleNotes| > 0 && note in scaleNotes && offset == 0 ==> r == note
    ensures forall i | 0 <= i < |scaleNotes| && scaleNotes[i] == note && note !in scaleNotes[..i] ::
              r == scaleNotes[ClampIndex(i + offset, |scaleNotes|)]
  {
    if |scaleNotes| == 0 then note
    else
      var baseIndex := IndexOf(scaleNotes, note);
      var safeIndex := if baseIndex == -1 then 0 else baseIndex;
      scaleNotes[ClampIndex(safeIndex + offset, |scaleNotes|)]
  }

  // ---------------------------------------------------------------------------
  // Note names

  function DigitChar(d: int): char
    requires 0 <= d < 10
  {
    "0123456789"[d]
  }

  /** Decimal digits of a natural number, as `String(n)` writes them. */
  function NatToString(n: nat): (s: string)
    ensures |s| > 0 && forall i | 0 <= i < |s| :: '0' <= s[i] <= '9'
    decreases n
  {
    if n < 10 then [DigitChar(n)] else NatToString(n / 10) + [DigitChar(n % 10)]
  }

  function IntToString(i: int): string {
    if i < 0 then "-" + NatToString(-i) else NatToString(i)
  }

  /** `midiToNoteName`: note name at `midi % 12` (JavaScript remainder, so a
      negative pitch class reads as `undefined`) followed by `floor(midi/12) - 1`. */
  function MidiToNoteName(midi: int): (r: string)
    ensures midi >= 0 ==> r == NOTE_NAMES[midi % 12] + IntToString(midi / 12 - 1)
  {
    var pc := JsRem(midi, 12);
    var note := if pc >= 0 then NOTE_NAMES[pc] else "undefined";
    note + IntToString(midi / 12 - 1)
  }

  lemma MiddleC()
    ensures MidiToNoteName(60) == "C4"
    ensures MidiToNoteName(69) == "A4"
    ensures MidiToNoteName(0) == "C-1"
  {
    assert NatToString(4) == "4";
    assert NatToString(1) == "1";
  }

  // The inverse of MidiToNoteName, used to show it loses nothing.

  function DigitValue(c: char): int { (c as int) - ('0' as int) }

  function ParseNat(s: string): Option<nat>
    decreases |s|
  {
    if |s| == 0 || !('0' <= s[|s| - 1] <= '9') then None
    else if |s| == 1 then Some(DigitValue(s[0]))
    else match ParseNat(s[..|s| - 1])
      case None => None
      case Some(v) => Some(v * 10 + DigitValue(s[|s| - 1]))
  }

  function ParseInt(s: string): (r: Option<int>) {
    if |s| > 0 && s[0] == '-' then
      match ParseNat(s[1..])
      case None => None
      case Some(v) => Some(0 - v)
    else match ParseNat(s)
      case None => None
      case Some(v) => Some(v as int)
  }

  function PitchOfName(name: string): Option<int> {
    match name
    case "C" => Some(0) case "C#" => Some(1) case "D" => Some(2) case "D#" => Some(3)
    case "E" => Some(4) case "F" => Some(5) case "F#" => Some(6) case "G" => Some(7)
    case "G#" => Some(8) case "A" => Some(9) case "A#" => Some(10) case "B" => Some(11)
    case _ => None
  }

  /** Reads a name such as "F#3" back into its MIDI number. */
  function NoteNameToMidi(s: string): Option<int> {
    if |s| < 2 then None
    else
      var nameLen := if s[1] == '#' then 2 else 1;
      match PitchOfName(s[..nameLen])
      case None => None
      case Some(pc) =>
        match ParseInt(s[nameLen..])
        case None => None
        case Some(octave) => Some((octave + 1) * 12 + pc)
  }

  lemma {:induction false} ParseNatToString(n: nat)
    ensures ParseNat(NatToString(n)) == Some(n)
    decreases n
  {
    var s := NatToString(n);
    if n >= 10 {
      ParseNatToString(n / 10);
      assert s[..|s| - 1] == NatToString(n / 10);
      assert DigitValue(s[|s| - 1]) == n % 10;
    } else {
      assert DigitValue(s[0]) == n;
    }
  }

  lemma PitchOfNameInverse(k: int)
    requires 0 <= k < 12
    ensures PitchOfName(NOTE_NAMES[k]) == Some(k)
    ensures |NOTE_NAMES[k]| == 1 || (|NOTE_NAMES[k]| == 2 && NOTE_NAMES[k][1] == '#')
  {
  }

  lemma ParseNegative(digits: string, n: nat)
    requires ParseNat(digits) == Some(n)
    ensures ParseInt("-" + digits) == Some(0 - n)
  {
    assert ("-" + digits)[1..] == digits;
  }

  lemma ParseIntToString(i: int)
    ensures ParseInt(IntToString(i)) == Some(i)
    ensures |IntToString(i)| > 0 && IntToString(i)[0] != '#'
  {
    if i < 0 {
      ParseNatToString(-i);
      ParseNegative(NatToString(-i), -i);
    } else {
      var digits := NatToString(i);
      assert '0' <= digits[0] <= '9';
      ParseNatToString(i);
      assert ParseInt(digits) == Some(i);
    }
  }

  /** Reading a pitch name followed by an octave number. */
  lemma ReadNameAndOctave(name: string, digits: string, pc: int, octave: int)
    requires |name| == 1 || (|name| == 2 && name[1] == '#')
    requires |digits| > 0 && digits[0] != '#'
    requires PitchOfName(name) == Some(pc) && ParseInt(digits) == Some(octave)
    ensures NoteNameToMidi(name + digits) == Some((octave + 1) * 12 + pc)
  {
    var s := name + digits;
    if |name| == 1 {
      assert s[1] == digits[0];
    }
    var nameLen := if s[1] == '#' then 2 else 1;
    assert nameLen == |name|;
    assert s[..nameLen] == name;
    assert s[nameLen..] == digits;
  }

  /** A MIDI note's name determines the note: reading the name back gives the number. */
  lemma NoteNameRoundTrip(midi: int)
    requires midi >= 0
    ensures NoteNameToMidi(MidiToNoteName(midi)) == Some(midi)
  {
    var k := midi % 12;
    var octave := midi / 12 - 1;
    var name := NOTE_NAMES[k];
    var digits := IntToString(octave);
    PitchOfNameInverse(k);
    ParseIntToString(octave);
    ReadNameAndOctave(name, digits, k, octave);
    assert MidiToNoteName(midi) == name + digits;
    assert (octave + 1) * 12 + k == midi;
  }
}
