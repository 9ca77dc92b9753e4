// The older API's `DifficultyAttributes` Python class (src/diff_attrs.rs): a
// wrapper around the scoring library's per-mode difficulty attributes (the
// older library generation) whose getters read the wrapped variant.
module DiffAttrs {
  import opened Base
  import Mode

  // ---------------------------------------------------------------------
  // The older scoring library's attributes, one record per mode.

  datatype OsuDifficultyAttributes = OsuDifficultyAttributes(
    aim: Float, speed: Float, flashlight: Float, sliderFactor: Float, speedNoteCount: Float,
    ar: Float, od: Float, hp: Float,
    nCircles: Usize, nSliders: Usize, nSpinners: Usize,
    stars: Float, maxCombo: Usize)

  datatype TaikoDifficultyAttributes = TaikoDifficultyAttributes(
    stamina: Float, rhythm: Float, colour: Float, peak: Float, hitWindow: Float,
    stars: Float, maxCombo: Usize)

  datatype CatchDifficultyAttributes = CatchDifficultyAttributes(
    stars: Float, ar: Float, nFruits: Usize, nDroplets: Usize, nTinyDroplets: Usize)

  datatype ManiaDifficultyAttributes = ManiaDifficultyAttributes(
    stars: Float, hitWindow: Float, maxCombo: Usize)

  datatype DifficultyAttributes =
    | OsuDifficulty(osu: OsuDifficultyAttributes)
    | TaikoDifficulty(taiko: TaikoDifficultyAttributes)
    | CatchDifficulty(catch: CatchDifficultyAttributes)
    | ManiaDifficulty(mania: ManiaDifficultyAttributes)

  function ModeOf(a: DifficultyAttributes): GameMode
  {
    match a
    case OsuDifficulty(_) => GameMode.Osu
    case TaikoDifficulty(_) => GameMode.Taiko
    case CatchDifficulty(_) => GameMode.Catch
    case ManiaDifficulty(_) => GameMode.Mania
  }

  /** The older library generation's `CatchDifficultyAttributes::max_combo()`,
      which is not repository code. It is taken to be fruits plus droplets,
      wrapping in the `usize` width of that generation's fields. */
  function CatchMaxCombo(c: CatchDifficultyAttributes): Usize
  {
    (c.nFruits + c.nDroplets) % 0x1_0000_0000_0000_0000
  }

  // ---------------------------------------------------------------------
  // The Python class.

  datatype PyDifficultyAttributes = PyDifficultyAttributes(inner: DifficultyAttributes)

  /** `From<DifficultyAttributes>`: the attributes are wrapped unchanged, so
      the getters below read exactly the library's values. */
  function From(a: DifficultyAttributes): (r: PyDifficultyAttributes)
    ensures r.inner == a
    ensures ModeOf(r.inner) == ModeOf(a)
  {
    PyDifficultyAttributes(a)
  }

  /** The `mode` getter: 0, 1, 2 or 3 for osu!, taiko, catch and mania, which
      is the position of the mode in the Python `GameMode` enum. */
  function ModeGetter(p: PyDifficultyAttributes): (r: U8)
    ensures r == Mode.Ordinal(Mode.FromGameMode(ModeOf(p.inner)))
  {
    match p.inner
    case OsuDifficulty(_) => 0
    case TaikoDifficulty(_) => 1
    case CatchDifficulty(_) => 2
    case ManiaDifficulty(_) => 3
  }

  /** The `max_combo` getter: defined for every mode; catch computes it
      from its object counts. */
  function MaxComboGetter(p: PyDifficultyAttributes): (r: Usize)
    ensures p.inner.CatchDifficulty? ==> r == CatchMaxCombo(p.inner.catch)
    ensures p.inner.OsuDifficulty? ==> r == p.inner.osu.maxCombo
    ensures p.inner.TaikoDifficulty? ==> r == p.inner.taiko.maxCombo
    ensures p.inner.ManiaDifficulty? ==> r == p.inner.mania.maxCombo
  {
    match p.inner
    case OsuDifficulty(o) => o.maxCombo
    case TaikoDifficulty(t) => t.maxCombo
    case CatchDifficulty(c) => CatchMaxCombo(c)
    case ManiaDifficulty(m) => m.maxCombo
  }

  /** The `color` getter: taiko's colour difficulty, nothing for the other
      modes. */
  function ColorGetter(p: PyDifficultyAttributes): (r: Option<Float>)
    ensures r.Some? <==> ModeOf(p.inner) == GameMode.Taiko
    ensures r.Some? ==> r.value == p.inner.taiko.colour
  {
    if p.inner.TaikoDifficulty? then Some(p.inner.taiko.colour) else None
  }

  // ---------------------------------------------------------------------
  // The generated optional getters.

  datatype Getter =
    | Stars
    | Aim | Speed | Flashlight | SliderFactor | SpeedNoteCount | Od
    | NCircles | NSliders | NSpinners
    | Stamina | Rhythm | Peak
    | NFruits | NDroplets | NTinyDroplets
    | Ar | HitWindow

  /** What a getter returns: an `f64` or a `usize`. */
  datatype GetterValue = FloatValue(x: Float) | CountValue(n: Usize)

  /** The modes listed for each getter in the generating table. */
  function GetterModes(g: Getter): set<GameMode>
  {
    match g
    case Stars => {GameMode.Osu, GameMode.Taiko, GameMode.Catch, GameMode.Mania}
    case Aim | Speed | Flashlight | SliderFactor | SpeedNoteCount | Od
       | NCircles | NSliders | NSpinners => {GameMode.Osu}
    case Stamina | Rhythm | Peak => {GameMode.Taiko}
    case NFruits | NDroplets | NTinyDroplets => {GameMode.Catch}
    case Ar => {GameMode.Osu, GameMode.Catch}
    case HitWindow => {GameMode.Taiko, GameMode.Mania}
  }

  function OsuGetter(o: OsuDifficultyAttributes, g: Getter): Option<GetterValue>
  {
    match g
    case Stars => Some(FloatValue(o.stars))
    case Aim => Some(FloatValue(o.aim))
    case Speed => Some(FloatValue(o.speed))
    case Flashlight => Some(FloatValue(o.flashlight))
    case SliderFactor => Some(FloatValue(o.sliderFactor))
    case SpeedNoteCount => Some(FloatValue(o.speedNoteCount))
    case Od => Some(FloatValue(o.od))
    case NCircles => Some(CountValue(o.nCircles))
    case NSliders => Some(CountValue(o.nSliders))
    case NSpinners => Some(CountValue(o.nSpinners))
    case Ar => Some(FloatValue(o.ar))
    case _ => None
  }

  function TaikoGetter(t: TaikoDifficultyAttributes, g: Getter): Option<GetterValue>
  {
    match g
    case Stars => Some(FloatValue(t.stars))
    case Stamina => Some(FloatValue(t.stamina))
    case Rhythm => Some(FloatValue(t.rhythm))
    case Peak => Some(FloatValue(t.peak))
    case HitWindow => Some(FloatValue(t.hitWindow))
    case _ => None
  }

  function CatchGetter(c: CatchDifficultyAttributes, g: Getter): Option<GetterValue>
  {
    match g
    case Stars => Some(FloatValue(c.stars))
    case NFruits => Some(CountValue(c.nFruits))
    case NDroplets => Some(CountValue(c.nDroplets))
    case NTinyDroplets => Some(CountValue(c.nTinyDroplets))
    case Ar => Some(FloatValue(c.ar))
    case _ => None
  }

  function ManiaGetter(m: ManiaDifficultyAttributes, g: Getter): Option<GetterValue>
  {
    match g
    case Stars => Some(FloatValue(m.stars))
    case HitWindow => Some(FloatValue(m.hitWindow))
    case _ => None
  }

  /** A generated getter: `Some` of the wrapped record's field exactly when
      the wrapped mode is one the table lists for that getter. */
  function Get(p: PyDifficultyAttributes, g: Getter): (r: Option<GetterValue>)
    ensures r.Some? <==> ModeOf(p.inner) in GetterModes(g)
  {
    match p.inner
    case OsuDifficulty(o) => OsuGetter(o, g)
    case TaikoDifficulty(t) => TaikoGetter(t, g)
    case CatchDifficulty(c) => CatchGetter(c, g)
    case ManiaDifficulty(m) => ManiaGetter(m, g)
  }

  /** `stars` is available whatever the mode. */
  lemma StarsAlwaysPresent(p: PyDifficultyAttributes)
    ensures Get(p, Stars).Some?
  {
  }

  /** Over wrapped osu! attributes, each listed getter returns `Some` of the
      field it is named after. */
  lemma OsuGettersRead(p: PyDifficultyAttributes)
    requires p.inner.OsuDifficulty?
    ensures Get(p, Stars) == Some(FloatValue(p.inner.osu.stars))
    ensures Get(p, Aim) == Some(FloatValue(p.inner.osu.aim))
    ensures Get(p, Speed) == Some(FloatValue(p.inner.osu.speed))
    ensures Get(p, Flashlight) == Some(FloatValue(p.inner.osu.flashlight))
    ensures Get(p, SliderFactor) == Some(FloatValue(p.inner.osu.sliderFactor))
    ensures Get(p, SpeedNoteCount) == Some(FloatValue(p.inner.osu.speedNoteCount))
    ensures Get(p, Od) == Some(FloatValue(p.inner.osu.od))
    ensures Get(p, NCircles) == Some(CountValue(p.inner.osu.nCircles))
    ensures Get(p, NSliders) == Some(CountValue(p.inner.osu.nSliders))
    ensures Get(p, NSpinners) == Some(CountValue(p.inner.osu.nSpinners))
    ensures Get(p, Ar) == Some(FloatValue(p.inner.osu.ar))
  {
  }

  /** Over wrapped taiko attributes, each listed getter returns its field. */
  lemma TaikoGettersRead(p: PyDifficultyAttributes)
    requires p.inner.TaikoDifficulty?
    ensures Get(p, Stars) == Some(FloatValue(p.inner.taiko.stars))
    ensures Get(p, Stamina) == Some(FloatValue(p.inner.taiko.stamina))
    ensures Get(p, Rhythm) == Some(FloatValue(p.inner.taiko.rhythm))
    ensures Get(p, Peak) == Some(FloatValue(p.inner.taiko.peak))
    ensures Get(p, HitWindow) == Some(FloatValue(p.inner.taiko.hitWindow))
  {
  }

  /** Over wrapped catch attributes, each listed getter returns its field. */
  lemma CatchGettersRead(p: PyDifficultyAttributes)
    requires p.inner.CatchDifficulty?
    ensures Get(p, Stars) == Some(FloatValue(p.inner.catch.stars))
    ensures Get(p, NFruits) == Some(CountValue(p.inner.catch.nFruits))
    ensures Get(p, NDroplets) == Some(CountValue(p.inner.catch.nDroplets))
    ensures Get(p, NTinyDroplets) == Some(CountValue(p.inner.catch.nTinyDroplets))
    ensures Get(p, Ar) == Some(FloatValue(p.inner.catch.ar))
  {
  }

  /** Over wrapped mania attributes, each listed getter returns its field. */
  lemma ManiaGettersRead(p: PyDifficultyAttributes)
    requires p.inner.ManiaDifficulty?
    ensures Get(p, Stars) == Some(FloatValue(p.inner.mania.stars))
    ensures Get(p, HitWindow) == Some(FloatValue(p.inner.mania.hitWindow))
  {
  }

  /** The getters that read a shared field name (`ar`, `hit_window`) return
      the field of whichever listed mode is wrapped. */
  lemma SharedGettersRead(p: PyDifficultyAttributes)
    ensures p.inner.OsuDifficulty? ==> Get(p, Ar) == Some(FloatValue(p.inner.osu.ar))
    ensures p.inner.CatchDifficulty? ==> Get(p, Ar) == Some(FloatValue(p.inner.catch.ar))
    ensures p.inner.TaikoDifficulty? ==> Get(p, HitWindow) == Some(FloatValue(p.inner.taiko.hitWindow))
    ensures p.inner.ManiaDifficulty? ==> Get(p, HitWindow) == Some(FloatValue(p.inner.mania.hitWindow))
  {
  }
}
