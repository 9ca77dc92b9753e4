// The scoring library the bindings configure (rosu_pp, current API), as
// the bindings see it: its builders are recorded as the sequence of calls
// made on them, and its calculations are uninterpreted functions of those
// calls, gathered in an `Engine` parameter.
module Rosu {
  import opened Base
  import opened Mods
  import Mode
  import DA = DifficultyAttributes
  import PA = PerformanceAttributes
  import ST = Strains
  import SS = ScoreState

  /** A call on `rosu_pp::Difficulty`; `Difficulty::new()` is the empty
      sequence of calls. */
  datatype DifficultyCall =
    | WithMods(mods: PyGameMods)
    | PassedObjects(count: U32)
    | ClockRate(value: Float)
    | Ar(value: Float, withMods: bool)
    | Cs(value: Float, withMods: bool)
    | Hp(value: Float, withMods: bool)
    | Od(value: Float, withMods: bool)
    | HardrockOffsets(flag: bool)
    | IsLazer(flag: bool)

  /** `rosu_pp::any::HitResultPriority`. */
  datatype HitResultPriority = BestCase | WorstCase | Fastest

  /** A call on `rosu_pp::Performance`. */
  datatype PerformanceCall =
    | Accuracy(value: Float)
    | Combo(count: U32)
    | SliderEndHits(count: U32)
    | LargeTickHits(count: U32)
    | SmallTickHits(count: U32)
    | NGeki(count: U32)
    | NKatu(count: U32)
    | N300(count: U32)
    | N100(count: U32)
    | N50(count: U32)
    | Misses(count: U32)
    | Priority(priority: HitResultPriority)
    | WithDifficulty(difficulty: seq<DifficultyCall>)

  /** What a `Performance` is created from: difficulty attributes computed
      earlier, or a beatmap. */
  datatype PerformanceSource =
    | AttributesSource(attrs: DA.DifficultyAttributes)
    | MapSource(beatmap: Beatmap)

  /** A `Performance` builder: its source and the calls made on it. */
  datatype Performance = Performance(source: PerformanceSource, calls: seq<PerformanceCall>)

  /** `Performance::new`: no calls yet. */
  function NewPerformance(source: PerformanceSource): Performance
  {
    Performance(source, [])
  }

  /** The variant of a `Performance`: the mode of its attributes, or of its
      beatmap. */
  function VariantMode(p: Performance): GameMode
  {
    match p.source
    case AttributesSource(attrs) => Mode.ToGameMode(DA.ModeOf(attrs))
    case MapSource(beatmap) => beatmap.mode
  }

  /** A call on `rosu_pp`'s `BeatmapAttributesBuilder`. */
  datatype BeatmapAttributesCall =
    | BuildMods(mods: PyGameMods)
    | BuildMode(mode: GameMode, isConvert: bool)
    | BuildClockRate(value: Float)
    | BuildAr(value: Float, withMods: bool)
    | BuildCs(value: Float, withMods: bool)
    | BuildHp(value: Float, withMods: bool)
    | BuildOd(value: Float, withMods: bool)

  datatype HitWindows = HitWindows(ar: Float, odGreat: Float, odOk: Option<Float>, odMeh: Option<Float>)

  /** `rosu_pp::model::beatmap::BeatmapAttributes`. */
  datatype BeatmapAttributes = BeatmapAttributes(
    ar: Float,
    od: Float,
    cs: Float,
    hp: Float,
    clockRate: Float,
    hitWindows: HitWindows)

  /** The scoring library's calculations, left uninterpreted. */
  datatype Engine = Engine(
    calculate: (seq<DifficultyCall>, Beatmap) -> DA.DifficultyAttributes,
    strains: (seq<DifficultyCall>, Beatmap) -> ST.Strains,
    generateState: Performance -> SS.ScoreState,
    performance: Performance -> PA.PerformanceAttributes,
    buildAttributes: seq<BeatmapAttributesCall> -> BeatmapAttributes)
}
