// The older API's `PerformanceAttributes` Python class (src/perf_attrs.rs):
// a wrapper around the older scoring library's per-mode performance
// attributes whose getters read the wrapped variant.
module PerfAttrs {
  import opened Base
  import Mode
  import DiffAttrs

  datatype OsuPerformanceAttributes = OsuPerformanceAttributes(
    difficulty: DiffAttrs.OsuDifficultyAttributes,
    pp: Float, ppAcc: Float, ppAim: Float, ppFlashlight: Float, ppSpeed: Float,
    effectiveMissCount: Float)

  datatype TaikoPerformanceAttributes = TaikoPerformanceAttributes(
    difficulty: DiffAttrs.TaikoDifficultyAttributes,
    pp: Float, ppAcc: Float, ppDifficulty: Float, effectiveMissCount: Float)

  datatype CatchPerformanceAttributes = CatchPerformanceAttributes(
    difficulty: DiffAttrs.CatchDifficultyAttributes, pp: Float)

  datatype ManiaPerformanceAttributes = ManiaPerformanceAttributes(
    difficulty: DiffAttrs.ManiaDifficultyAttributes, pp: Float, ppDifficulty: Float)

  datatype PerformanceAttributes =
    | OsuPerformance(osu: OsuPerformanceAttributes)
    | TaikoPerformance(taiko: TaikoPerformanceAttributes)
    | CatchPerformance(catch: CatchPerformanceAttributes)
    | ManiaPerformance(mania: ManiaPerformanceAttributes)

  function ModeOf(a: PerformanceAttributes): GameMode
  {
    match a
    case OsuPerformance(_) => GameMode.Osu
    case TaikoPerformance(_) => GameMode.Taiko
    case CatchPerformance(_) => GameMode.Catch
    case ManiaPerformance(_) => GameMode.Mania
  }

  /** The library's `difficulty_attributes()`: the nested difficulty record,
      tagged with the same mode. */
  function DifficultyAttributesOf(a: PerformanceAttributes): (r: DiffAttrs.DifficultyAttributes)
    ensures DiffAttrs.ModeOf(r) == ModeOf(a)
  {
    match a
    case OsuPerformance(o) => DiffAttrs.OsuDifficulty(o.difficulty)
    case TaikoPerformance(t) => DiffAttrs.TaikoDifficulty(t.difficulty)
    case CatchPerformance(c) => DiffAttrs.CatchDifficulty(c.difficulty)
    case ManiaPerformance(m) => DiffAttrs.ManiaDifficulty(m.difficulty)
  }

  datatype PyPerformanceAttributes = PyPerformanceAttributes(inner: PerformanceAttributes)

  /** `From<PerformanceAttributes>`: the attributes are wrapped unchanged. */
  function From(a: PerformanceAttributes): (r: PyPerformanceAttributes)
    ensures r.inner == a
  {
    PyPerformanceAttributes(a)
  }

  /** The `mode` getter: the position of the wrapped mode in the Python
      `GameMode` enum. */
  function ModeGetter(p: PyPerformanceAttributes): (r: U8)
    ensures r == Mode.Ordinal(Mode.FromGameMode(ModeOf(p.inner)))
  {
    match p.inner
    case OsuPerformance(_) => 0
    case TaikoPerformance(_) => 1
    case CatchPerformance(_) => 2
    case ManiaPerformance(_) => 3
  }

  /** The `difficulty` getter: a `DifficultyAttributes` object wrapping the
      nested difficulty record, of the same mode. */
  function DifficultyGetter(p: PyPerformanceAttributes): (r: DiffAttrs.PyDifficultyAttributes)
    ensures DiffAttrs.ModeGetter(r) == ModeGetter(p)
    ensures r.inner == DifficultyAttributesOf(p.inner)
  {
    DiffAttrs.From(DifficultyAttributesOf(p.inner))
  }

  /** The generated optional getters; every one returns an `f64`. */
  datatype Getter = Pp | PpAim | PpFlashlight | PpSpeed | PpAcc | EffectiveMissCount | PpDifficulty

  /** The modes listed for each getter in the generating table. */
  function GetterModes(g: Getter): set<GameMode>
  {
    match g
    case Pp => {GameMode.Osu, GameMode.Taiko, GameMode.Catch, GameMode.Mania}
    case PpAim | PpFlashlight | PpSpeed => {GameMode.Osu}
    case PpAcc | EffectiveMissCount => {GameMode.Osu, GameMode.Taiko}
    case PpDifficulty => {GameMode.Taiko, GameMode.Mania}
  }

  function OsuGetter(o: OsuPerformanceAttributes, g: Getter): Option<Float>
  {
    match g
    case Pp => Some(o.pp)
    case PpAim => Some(o.ppAim)
    case PpFlashlight => Some(o.ppFlashlight)
    case PpSpeed => Some(o.ppSpeed)
    case PpAcc => Some(o.ppAcc)
    case EffectiveMissCount => Some(o.effectiveMissCount)
    case PpDifficulty => None
  }

  function TaikoGetter(t: TaikoPerformanceAttributes, g: Getter): Option<Float>
  {
    match g
    case Pp => Some(t.pp)
    case PpAcc => Some(t.ppAcc)
    case EffectiveMissCount => Some(t.effectiveMissCount)
    case PpDifficulty => Some(t.ppDifficulty)
    case _ => None
  }

  function ManiaGetter(m: ManiaPerformanceAttributes, g: Getter): Option<Float>
  {
    match g
    case Pp => Some(m.pp)
    case PpDifficulty => Some(m.ppDifficulty)
    case _ => None
  }

  /** A generated getter: `Some` of the wrapped record's field exactly when
      the wrapped mode is one the table lists for that getter. */
  function Get(p: PyPerformanceAttributes, g: Getter): (r: Option<Float>)
    ensures r.Some? <==> ModeOf(p.inner) in GetterModes(g)
  {
    match p.inner
    case OsuPerformance(o) => OsuGetter(o, g)
    case TaikoPerformance(t) => TaikoGetter(t, g)
    case CatchPerformance(c) => if g == Pp then Some(c.pp) else None
    case ManiaPerformance(m) => ManiaGetter(m, g)
  }

  /** Over a wrapped osu! result, each listed getter returns `Some` of the
      field it is named after. */
  lemma OsuGettersRead(p: PyPerformanceAttributes)
    requires p.inner.OsuPerformance?
    ensures Get(p, Pp) == Some(p.inner.osu.pp)
    ensures Get(p, PpAim) == Some(p.inner.osu.ppAim)
    ensures Get(p, PpFlashlight) == Some(p.inner.osu.ppFlashlight)
    ensures Get(p, PpSpeed) == Some(p.inner.osu.ppSpeed)
    ensures Get(p, PpAcc) == Some(p.inner.osu.ppAcc)
    ensures Get(p, EffectiveMissCount) == Some(p.inner.osu.effectiveMissCount)
  {
  }

  /** Over a wrapped taiko result, each listed getter returns its field. */
  lemma TaikoGettersRead(p: PyPerformanceAttributes)
    requires p.inner.TaikoPerformance?
    ensures Get(p, Pp) == Some(p.inner.taiko.pp)
    ensures Get(p, PpAcc) == Some(p.inner.taiko.ppAcc)
    ensures Get(p, EffectiveMissCount) == Some(p.inner.taiko.effectiveMissCount)
    ensures Get(p, PpDifficulty) == Some(p.inner.taiko.ppDifficulty)
  {
  }

  /** Over a wrapped catch result, `pp` returns its field. */
  lemma CatchGettersRead(p: PyPerformanceAttributes)
    requires p.inner.CatchPerformance?
    ensures Get(p, Pp) == Some(p.inner.catch.pp)
  {
  }

  /** Over a wrapped mania result, each listed getter returns its field. */
  lemma ManiaGettersRead(p: PyPerformanceAttributes)
    requires p.inner.ManiaPerformance?
    ensures Get(p, Pp) == Some(p.inner.mania.pp)
    ensures Get(p, PpDifficulty) == Some(p.inner.mania.ppDifficulty)
  {
  }

  /** `pp` is available whatever the mode. */
  lemma PpAlwaysPresent(p: PyPerformanceAttributes)
    ensures Get(p, Pp).Some?
  {
  }
}
