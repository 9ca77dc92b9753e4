// The Python `PerformanceAttributes` record and its conversion from the
// scoring library's per-mode performance attributes
// (src/attributes/performance.rs).
module PerformanceAttributes {
  import opened Base
  import opened Mode
  import DA = DifficultyAttributes
  import SS = ScoreState

  // ---------------------------------------------------------------------
  // The scoring library's attributes, one record per mode.

  datatype OsuPerformanceAttributes = OsuPerformanceAttributes(
    difficulty: DA.OsuDifficultyAttributes,
    pp: Float,
    ppAcc: Float,
    ppAim: Float,
    ppFlashlight: Float,
    ppSpeed: Float,
    effectiveMissCount: Float,
    speedDeviation: Option<Float>)

  datatype TaikoPerformanceAttributes = TaikoPerformanceAttributes(
    difficulty: DA.TaikoDifficultyAttributes,
    pp: Float,
    ppAcc: Float,
    ppDifficulty: Float,
    effectiveMissCount: Float,
    estimatedUnstableRate: Option<Float>)

  datatype CatchPerformanceAttributes = CatchPerformanceAttributes(
    difficulty: DA.CatchDifficultyAttributes,
    pp: Float)

  datatype ManiaPerformanceAttributes = ManiaPerformanceAttributes(
    difficulty: DA.ManiaDifficultyAttributes,
    pp: Float,
    ppDifficulty: Float)

  datatype PerformanceAttributes =
    | OsuPerformance(osu: OsuPerformanceAttributes)
    | TaikoPerformance(taiko: TaikoPerformanceAttributes)
    | CatchPerformance(catch: CatchPerformanceAttributes)
    | ManiaPerformance(mania: ManiaPerformanceAttributes)

  /** The difficulty attributes a performance result was computed from. */
  function DifficultyOf(a: PerformanceAttributes): DA.DifficultyAttributes
  {
    match a
    case OsuPerformance(o) => DA.OsuDifficulty(o.difficulty)
    case TaikoPerformance(t) => DA.TaikoDifficulty(t.difficulty)
    case CatchPerformance(c) => DA.CatchDifficulty(c.difficulty)
    case ManiaPerformance(m) => DA.ManiaDifficulty(m.difficulty)
  }

  // ---------------------------------------------------------------------
  // The Python record.

  datatype PyPerformanceAttributes = PyPerformanceAttributes(
    difficulty: DA.PyDifficultyAttributes,
    state: Option<SS.PyScoreState>,
    pp: Float,
    ppAim: Option<Float>,
    ppFlashlight: Option<Float>,
    ppSpeed: Option<Float>,
    ppAccuracy: Option<Float>,
    effectiveMissCount: Option<Float>,
    speedDeviation: Option<Float>,
    estimatedUnstableRate: Option<Float>,
    ppDifficulty: Option<Float>)

  /** The derived `Default`. */
  function Default(): PyPerformanceAttributes
  {
    PyPerformanceAttributes(DA.Default(), None, Float(0.0), None, None, None, None, None, None, None, None)
  }

  /** The optional attributes, by name. */
  datatype PerfField =
    | PpAim | PpFlashlight | PpSpeed | PpAccuracy | EffectiveMissCount
    | SpeedDeviation | EstimatedUnstableRate | PpDifficulty

  function Field(p: PyPerformanceAttributes, f: PerfField): Option<Float>
  {
    match f
    case PpAim => p.ppAim
    case PpFlashlight => p.ppFlashlight
    case PpSpeed => p.ppSpeed
    case PpAccuracy => p.ppAccuracy
    case EffectiveMissCount => p.effectiveMissCount
    case SpeedDeviation => p.speedDeviation
    case EstimatedUnstableRate => p.estimatedUnstableRate
    case PpDifficulty => p.ppDifficulty
  }

  /** The modes whose result always carries an attribute. */
  function AlwaysIn(f: PerfField): set<PyGameMode>
  {
    match f
    case PpAim | PpFlashlight | PpSpeed => {PyGameMode.Osu}
    case PpAccuracy | EffectiveMissCount => {PyGameMode.Osu, PyGameMode.Taiko}
    case PpDifficulty => {PyGameMode.Taiko, PyGameMode.Mania}
    case SpeedDeviation | EstimatedUnstableRate => {}
  }

  /** The modes whose result may carry an attribute. */
  function MaybeIn(f: PerfField): set<PyGameMode>
  {
    match f
    case SpeedDeviation => {PyGameMode.Osu}
    case EstimatedUnstableRate => {PyGameMode.Taiko}
    case _ => AlwaysIn(f)
  }

  /** The record has the attributes its mode always sets and none that the
      mode never sets. */
  predicate Shaped(p: PyPerformanceAttributes, m: PyGameMode)
  {
    forall f :: (m in AlwaysIn(f) ==> Field(p, f).Some?) && (m !in MaybeIn(f) ==> Field(p, f).None?)
  }

  function FromOsu(a: OsuPerformanceAttributes): (r: PyPerformanceAttributes)
    ensures r.difficulty == DA.FromOsu(a.difficulty) && r.state.None? && r.pp == a.pp
    ensures r.speedDeviation == a.speedDeviation
    ensures r.ppAccuracy == Some(a.ppAcc) && r.ppAim == Some(a.ppAim)
    ensures r.ppFlashlight == Some(a.ppFlashlight) && r.ppSpeed == Some(a.ppSpeed)
    ensures r.effectiveMissCount == Some(a.effectiveMissCount)
    ensures Shaped(r, PyGameMode.Osu)
  {
    Default().(
      difficulty := DA.FromOsu(a.difficulty),
      pp := a.pp,
      ppAccuracy := Some(a.ppAcc),
      ppAim := Some(a.ppAim),
      ppFlashlight := Some(a.ppFlashlight),
      ppSpeed := Some(a.ppSpeed),
      effectiveMissCount := Some(a.effectiveMissCount),
      speedDeviation := a.speedDeviation)
  }

  function FromTaiko(a: TaikoPerformanceAttributes): (r: PyPerformanceAttributes)
    ensures r.difficulty == DA.FromTaiko(a.difficulty) && r.state.None? && r.pp == a.pp
    ensures r.estimatedUnstableRate == a.estimatedUnstableRate
    ensures r.ppAccuracy == Some(a.ppAcc) && r.ppDifficulty == Some(a.ppDifficulty)
    ensures r.effectiveMissCount == Some(a.effectiveMissCount)
    ensures Shaped(r, PyGameMode.Taiko)
  {
    Default().(
      difficulty := DA.FromTaiko(a.difficulty),
      pp := a.pp,
      ppAccuracy := Some(a.ppAcc),
      ppDifficulty := Some(a.ppDifficulty),
      effectiveMissCount := Some(a.effectiveMissCount),
      estimatedUnstableRate := a.estimatedUnstableRate)
  }

  function FromCatch(a: CatchPerformanceAttributes): (r: PyPerformanceAttributes)
    ensures r.difficulty == DA.FromCatch(a.difficulty) && r.state.None? && r.pp == a.pp
    ensures Shaped(r, PyGameMode.Catch)
  {
    Default().(
      difficulty := DA.FromCatch(a.difficulty),
      pp := a.pp)
  }

  function FromMania(a: ManiaPerformanceAttributes): (r: PyPerformanceAttributes)
    ensures r.difficulty == DA.FromMania(a.difficulty) && r.state.None? && r.pp == a.pp
    ensures r.ppDifficulty == Some(a.ppDifficulty)
    ensures Shaped(r, PyGameMode.Mania)
  {
    Default().(
      difficulty := DA.FromMania(a.difficulty),
      pp := a.pp,
      ppDifficulty := Some(a.ppDifficulty))
  }

  /** `From<PerformanceAttributes> for PyPerformanceAttributes`: the nested
      difficulty record is the conversion of the result's own difficulty
      attributes, no score state is attached yet, and the record has its
      mode's shape. */
  function FromAttributes(a: PerformanceAttributes): (r: PyPerformanceAttributes)
    ensures r.difficulty == DA.FromAttributes(DifficultyOf(a))
    ensures r.state.None?
    ensures Shaped(r, r.difficulty.mode)
  {
    match a
    case OsuPerformance(o) => FromOsu(o)
    case TaikoPerformance(t) => FromTaiko(t)
    case CatchPerformance(c) => FromCatch(c)
    case ManiaPerformance(m) => FromMania(m)
  }

  /** The conversion loses nothing: distinct results give distinct records. */
  lemma {:induction false} FromAttributesInjective(a: PerformanceAttributes, b: PerformanceAttributes)
    requires FromAttributes(a) == FromAttributes(b)
    ensures a == b
  {
    var da, db := DifficultyOf(a), DifficultyOf(b);
    assert DA.TryFromPy(DA.FromAttributes(da)) == Ok(da);
    assert DA.TryFromPy(DA.FromAttributes(db)) == Ok(db);
    assert da == db;
  }
}
