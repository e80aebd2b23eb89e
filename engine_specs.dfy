/** The parameter bounds of each synthesis engine, the only part of the audio
    engine's tables that sequencing logic consults (to clamp LFO modulation). */
module EngineSpecs {
  import opened Common

  datatype ParamSpec = ParamSpec(min: real, max: real)

  /** What varies between engines: the note range, the decay range and the
      fixed engine number. Every other parameter has the same bounds everywhere. */
  datatype EngineBounds = EngineBounds(noteMin: real, noteMax: real, decayMin: real, decayMax: real, engineNumber: real)

  function Bounds(engine: string): Option<EngineBounds> {
    match engine
    case "plaits_kick" => Some(EngineBounds(24.0, 60.0, 0.05, 1.5, 13.0))
    case "plaits_snare" => Some(EngineBounds(40.0, 80.0, 0.02, 0.5, 14.0))
    case "plaits_hihat" => Some(EngineBounds(60.0, 96.0, 0.01, 0.3, 15.0))
    case "plaits_modal" => Some(EngineBounds(24.0, 96.0, 0.1, 3.0, 12.0))
    case "plaits_fm" => Some(EngineBounds(24.0, 96.0, 0.05, 2.0, 2.0))
    case "plaits_noise" => Some(EngineBounds(24.0, 96.0, 0.01, 1.0, 9.0))
    case "plaits_va" => Some(EngineBounds(24.0, 96.0, 0.05, 2.0, 0.0))
    case "plaits_ws" => Some(EngineBounds(24.0, 96.0, 0.05, 2.0, 1.0))
    case "plaits_grain" => Some(EngineBounds(24.0, 96.0, 0.1, 2.0, 3.0))
    case "plaits_add" => Some(EngineBounds(24.0, 96.0, 0.05, 2.0, 4.0))
    case "plaits_wt" => Some(EngineBounds(24.0, 96.0, 0.05, 2.0, 5.0))
    case "plaits_chord" => Some(EngineBounds(24.0, 96.0, 0.1, 3.0, 6.0))
    case "plaits_vowel" => Some(EngineBounds(24.0, 96.0, 0.05, 2.0, 7.0))
    case "plaits_swarm" => Some(EngineBounds(24.0, 96.0, 0.1, 3.0, 8.0))
    case "plaits_particle" => Some(EngineBounds(24.0, 96.0, 0.1, 2.0, 10.0))
    case "plaits_string" => Some(EngineBounds(24.0, 72.0, 0.2, 4.0, 11.0))
    case _ => None
  }

  /** `ENGINE_SPECS[engine]?.params?.[name]`, reduced to its bounds. */
  function EngineParamSpec(engine: string, name: string): Option<ParamSpec> {
    match Bounds(engine)
    case None => None
    case Some(b) =>
      match name
      case "note" => Some(ParamSpec(b.noteMin, b.noteMax))
      case "harmonics" => Some(ParamSpec(0.0, 1.0))
      case "timbre" => Some(ParamSpec(0.0, 1.0))
      case "morph" => Some(ParamSpec(0.0, 1.0))
      case "fm" => Some(ParamSpec(0.0, 10.0))
      case "decay" => Some(ParamSpec(b.decayMin, b.decayMax))
      case "fade" => Some(ParamSpec(0.0, 1.0))
      case "volume" => Some(ParamSpec(0.0, 1.0))
      case "engine" => Some(ParamSpec(b.engineNumber, b.engineNumber))
      case _ => None
  }

  /** Every bound in the table is a non-empty interval. */
  lemma EngineSpecsWellFormed(engine: string, name: string)
    ensures EngineParamSpec(engine, name).Some? ==> EngineParamSpec(engine, name).value.min <= EngineParamSpec(engine, name).value.max
  {
  }
}
