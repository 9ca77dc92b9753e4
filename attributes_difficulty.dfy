// The Python `DifficultyAttributes` record and its conversions to and from
// the scoring library's per-mode difficulty attributes
// (src/attributes/difficulty.rs).
module DifficultyAttributes {
  import opened Base
  import opened Errors
  import opened Mode

  // ---------------------------------------------------------------------
  // The scoring library's attributes, one record per mode.

  datatype OsuDifficultyAttributes = OsuDifficultyAttributes(
    aim: Float,
    aimDifficultSliderCount: Float,
    speed: Float,
    flashlight: Float,
    sliderFactor: Float,
    speedNoteCount: Float,
    aimDifficultStrainCount: Float,
    speedDifficultStrainCount: Float,
    ar: Float,
    greatHitWindow: Float,
    okHitWindow: Float,
    mehHitWindow: Float,
    hp: Float,
    nCircles: U32,
    nSliders: U32,
    nLargeTicks: U32,
    nSpinners: U32,
    stars: Float,
    maxCombo: U32)

  datatype TaikoDifficultyAttributes = TaikoDifficultyAttributes(
    stamina: Float,
    reading: Float,
    rhythm: Float,
    color: Float,
    greatHitWindow: Float,
    okHitWindow: Float,
    monoStaminaFactor: Float,
    stars: Float,
    maxCombo: U32,
    isConvert: bool)

  datatype CatchDifficultyAttributes = CatchDifficultyAttributes(
    stars: Float,
    ar: Float,
    nFruits: U32,
    nDroplets: U32,
    nTinyDroplets: U32,
    isConvert: bool)

  datatype ManiaDifficultyAttributes = ManiaDifficultyAttributes(
    stars: Float,
    nObjects: U32,
    nHoldNotes: U32,
    maxCombo: U32,
    isConvert: bool)

  datatype DifficultyAttributes =
    | OsuDifficulty(osu: OsuDifficultyAttributes)
    | TaikoDifficulty(taiko: TaikoDifficultyAttributes)
    | CatchDifficulty(catch: CatchDifficultyAttributes)
    | ManiaDifficulty(mania: ManiaDifficultyAttributes)

  function ModeOf(d: DifficultyAttributes): PyGameMode
  {
    match d
    case OsuDifficulty(_) => PyGameMode.Osu
    case TaikoDifficulty(_) => PyGameMode.Taiko
    case CatchDifficulty(_) => PyGameMode.Catch
    case ManiaDifficulty(_) => PyGameMode.Mania
  }

  /** The scoring library's `CatchDifficultyAttributes::max_combo`, which
      is not repository code. It is taken to be fruits plus droplets,
      wrapping in the `u32` width of this library generation's fields. */
  function CatchMaxCombo(c: CatchDifficultyAttributes): U32
  {
    (c.nFruits + c.nDroplets) % 0x1_0000_0000
  }

  // ---------------------------------------------------------------------
  // The Python record: mode, stars, is_convert and max_combo are always
  // set, every other attribute is optional.

  datatype PyDifficultyAttributes = PyDifficultyAttributes(
    mode: PyGameMode,
    stars: Float,
    isConvert: bool,
    aim: Option<Float>,
    aimDifficultSliderCount: Option<Float>,
    speed: Option<Float>,
    flashlight: Option<Float>,
    sliderFactor: Option<Float>,
    speedNoteCount: Option<Float>,
    aimDifficultStrainCount: Option<Float>,
    speedDifficultStrainCount: Option<Float>,
    hp: Option<Float>,
    nCircles: Option<U32>,
    nSliders: Option<U32>,
    nLargeTicks: Option<U32>,
    nSpinners: Option<U32>,
    stamina: Option<Float>,
    reading: Option<Float>,
    rhythm: Option<Float>,
    color: Option<Float>,
    nFruits: Option<U32>,
    nDroplets: Option<U32>,
    nTinyDroplets: Option<U32>,
    nObjects: Option<U32>,
    nHoldNotes: Option<U32>,
    ar: Option<Float>,
    greatHitWindow: Option<Float>,
    okHitWindow: Option<Float>,
    mehHitWindow: Option<Float>,
    monoStaminaFactor: Option<Float>,
    maxCombo: U32)

  /** The derived `Default`: mode Osu, zero stars and combo, nothing set. */
  function Default(): PyDifficultyAttributes
  {
    PyDifficultyAttributes(
      DefaultMode(), Float(0.0), false,
      None, None, None, None, None, None, None, None, None,
      None, None, None, None,
      None, None, None, None,
      None, None, None, None, None,
      None, None, None, None, None,
      0)
  }

  /** The optional attributes, by name. */
  datatype DiffField =
    | Aim | AimDifficultSliderCount | Speed | Flashlight | SliderFactor | SpeedNoteCount
    | AimDifficultStrainCount | SpeedDifficultStrainCount | Hp
    | NCircles | NSliders | NLargeTicks | NSpinners
    | Stamina | Reading | Rhythm | Color
    | NFruits | NDroplets | NTinyDroplets | NObjects | NHoldNotes
    | Ar | GreatHitWindow | OkHitWindow | MehHitWindow | MonoStaminaFactor

  datatype FieldValue = FloatValue(x: Float) | CountValue(n: U32)

  function FloatField(o: Option<Float>): Option<FieldValue>
  {
    if o.Some? then Some(FloatValue(o.value)) else None
  }

  function CountField(o: Option<U32>): Option<FieldValue>
  {
    if o.Some? then Some(CountValue(o.value)) else None
  }

  /** The Python getter of an optional attribute. */
  function Field(p: PyDifficultyAttributes, f: DiffField): Option<FieldValue>
  {
    match f
    case Aim => FloatField(p.aim)
    case AimDifficultSliderCount => FloatField(p.aimDifficultSliderCount)
    case Speed => FloatField(p.speed)
    case Flashlight => FloatField(p.flashlight)
    case SliderFactor => FloatField(p.sliderFactor)
    case SpeedNoteCount => FloatField(p.speedNoteCount)
    case AimDifficultStrainCount => FloatField(p.aimDifficultStrainCount)
    case SpeedDifficultStrainCount => FloatField(p.speedDifficultStrainCount)
    case Hp => FloatField(p.hp)
    case NCircles => CountField(p.nCircles)
    case NSliders => CountField(p.nSliders)
    case NLargeTicks => CountField(p.nLargeTicks)
    case NSpinners => CountField(p.nSpinners)
    case Stamina => FloatField(p.stamina)
    case Reading => FloatField(p.reading)
    case Rhythm => FloatField(p.rhythm)
    case Color => FloatField(p.color)
    case NFruits => CountField(p.nFruits)
    case NDroplets => CountField(p.nDroplets)
    case NTinyDroplets => CountField(p.nTinyDroplets)
    case NObjects => CountField(p.nObjects)
    case NHoldNotes => CountField(p.nHoldNotes)
    case Ar => FloatField(p.ar)
    case GreatHitWindow => FloatField(p.greatHitWindow)
    case OkHitWindow => FloatField(p.okHitWindow)
    case MehHitWindow => FloatField(p.mehHitWindow)
    case MonoStaminaFactor => FloatField(p.monoStaminaFactor)
  }

  predicate Present(p: PyDifficultyAttributes, f: DiffField)
  {
    Field(p, f).Some?
  }

  /** The modes whose record carries an optional attribute. */
  function FieldModes(f: DiffField): set<PyGameMode>
  {
    match f
    case Ar => {PyGameMode.Osu, PyGameMode.Catch}
    case GreatHitWindow | OkHitWindow => {PyGameMode.Osu, PyGameMode.Taiko}
    case Aim | AimDifficultSliderCount | Speed | Flashlight | SliderFactor | SpeedNoteCount
       | AimDifficultStrainCount | SpeedDifficultStrainCount | Hp
       | NCircles | NSliders | NLargeTicks | NSpinners | MehHitWindow => {PyGameMode.Osu}
    case Stamina | Reading | Rhythm | Color | MonoStaminaFactor => {PyGameMode.Taiko}
    case NFruits | NDroplets | NTinyDroplets => {PyGameMode.Catch}
    case NObjects | NHoldNotes => {PyGameMode.Mania}
  }

  /** Mode `m`'s record carries attribute `f`. */
  predicate Required(m: PyGameMode, f: DiffField)
  {
    m in FieldModes(f)
  }

  /** Every attribute the record's own mode needs is present. */
  predicate Complete(p: PyDifficultyAttributes)
  {
    forall f :: Required(p.mode, f) ==> Present(p, f)
  }

  /** The record has exactly the optional attributes of its own mode. */
  predicate Exact(p: PyDifficultyAttributes)
  {
    forall f :: Present(p, f) <==> Required(p.mode, f)
  }

  // ---------------------------------------------------------------------
  // Rust to Python.

  function FromOsu(a: OsuDifficultyAttributes): (r: PyDifficultyAttributes)
    ensures r.mode == PyGameMode.Osu && !r.isConvert
    ensures r.stars == a.stars && r.maxCombo == a.maxCombo
    ensures r.aim == Some(a.aim) && r.aimDifficultSliderCount == Some(a.aimDifficultSliderCount)
    ensures r.speed == Some(a.speed) && r.flashlight == Some(a.flashlight)
    ensures r.sliderFactor == Some(a.sliderFactor) && r.speedNoteCount == Some(a.speedNoteCount)
    ensures r.aimDifficultStrainCount == Some(a.aimDifficultStrainCount)
    ensures r.speedDifficultStrainCount == Some(a.speedDifficultStrainCount)
    ensures r.ar == Some(a.ar) && r.hp == Some(a.hp)
    ensures r.greatHitWindow == Some(a.greatHitWindow) && r.okHitWindow == Some(a.okHitWindow)
    ensures r.mehHitWindow == Some(a.mehHitWindow)
    ensures r.nCircles == Some(a.nCircles) && r.nSliders == Some(a.nSliders)
    ensures r.nLargeTicks == Some(a.nLargeTicks) && r.nSpinners == Some(a.nSpinners)
    ensures Exact(r)
  {
    Default().(
      mode := PyGameMode.Osu,
      stars := a.stars,
      isConvert := false,
      aim := Some(a.aim),
      aimDifficultSliderCount := Some(a.aimDifficultSliderCount),
      speed := Some(a.speed),
      flashlight := Some(a.flashlight),
      sliderFactor := Some(a.sliderFactor),
      speedNoteCount := Some(a.speedNoteCount),
      aimDifficultStrainCount := Some(a.aimDifficultStrainCount),
      speedDifficultStrainCount := Some(a.speedDifficultStrainCount),
      ar := Some(a.ar),
      greatHitWindow := Some(a.greatHitWindow),
      okHitWindow := Some(a.okHitWindow),
      mehHitWindow := Some(a.mehHitWindow),
      hp := Some(a.hp),
      nCircles := Some(a.nCircles),
      nSliders := Some(a.nSliders),
      nLargeTicks := Some(a.nLargeTicks),
      nSpinners := Some(a.nSpinners),
      maxCombo := a.maxCombo)
  }

  function FromTaiko(a: TaikoDifficultyAttributes): (r: PyDifficultyAttributes)
    ensures r.mode == PyGameMode.Taiko && r.isConvert == a.isConvert
    ensures r.stars == a.stars && r.maxCombo == a.maxCombo
    ensures r.stamina == Some(a.stamina) && r.reading == Some(a.reading)
    ensures r.rhythm == Some(a.rhythm) && r.color == Some(a.color)
    ensures r.greatHitWindow == Some(a.greatHitWindow) && r.okHitWindow == Some(a.okHitWindow)
    ensures r.monoStaminaFactor == Some(a.monoStaminaFactor)
    ensures Exact(r)
  {
    Default().(
      mode := PyGameMode.Taiko,
      stars := a.stars,
      isConvert := a.isConvert,
      stamina := Some(a.stamina),
      reading := Some(a.reading),
      rhythm := Some(a.rhythm),
      color := Some(a.color),
      greatHitWindow := Some(a.greatHitWindow),
      okHitWindow := Some(a.okHitWindow),
      monoStaminaFactor := Some(a.monoStaminaFactor),
      maxCombo := a.maxCombo)
  }

  function FromCatch(a: CatchDifficultyAttributes): (r: PyDifficultyAttributes)
    ensures r.mode == PyGameMode.Catch && r.isConvert == a.isConvert
    ensures r.stars == a.stars && r.maxCombo == CatchMaxCombo(a)
    ensures r.ar == Some(a.ar) && r.nFruits == Some(a.nFruits)
    ensures r.nDroplets == Some(a.nDroplets) && r.nTinyDroplets == Some(a.nTinyDroplets)
    ensures Exact(r)
  {
    Default().(
      mode := PyGameMode.Catch,
      stars := a.stars,
      isConvert := a.isConvert,
      ar := Some(a.ar),
      nFruits := Some(a.nFruits),
      nDroplets := Some(a.nDroplets),
      nTinyDroplets := Some(a.nTinyDroplets),
      maxCombo := CatchMaxCombo(a))
  }

  function FromMania(a: ManiaDifficultyAttributes): (r: PyDifficultyAttributes)
    ensures r.mode == PyGameMode.Mania && r.isConvert == a.isConvert
    ensures r.stars == a.stars && r.maxCombo == a.maxCombo
    ensures r.nObjects == Some(a.nObjects) && r.nHoldNotes == Some(a.nHoldNotes)
    ensures Exact(r)
  {
    Default().(
      mode := PyGameMode.Mania,
      stars := a.stars,
      isConvert := a.isConvert,
      nObjects := Some(a.nObjects),
      nHoldNotes := Some(a.nHoldNotes),
      maxCombo := a.maxCombo)
  }

  // ---------------------------------------------------------------------
  // Python to Rust.

  const INVALID_ATTRIBUTES: string := "invalid difficulty attributes"

  /** `TryFrom<PyDifficultyAttributes> for DifficultyAttributes`: the record
      converts exactly when every attribute of its own mode is present; the
      other modes' attributes are ignored. */
  function TryFromPy(p: PyDifficultyAttributes): (r: Result<DifficultyAttributes, PyErr>)
    ensures r.Ok? <==> Complete(p)
    ensures r.Err? ==> r.error == ParseError(INVALID_ATTRIBUTES)
    ensures r.Ok? ==> ModeOf(r.value) == p.mode
  {
    match p.mode
    case Osu =>
      if p.aim.Some? && p.aimDifficultSliderCount.Some? && p.speed.Some? && p.flashlight.Some?
         && p.sliderFactor.Some? && p.speedNoteCount.Some? && p.aimDifficultStrainCount.Some?
         && p.speedDifficultStrainCount.Some? && p.ar.Some? && p.greatHitWindow.Some?
         && p.okHitWindow.Some? && p.mehHitWindow.Some? && p.hp.Some? && p.nCircles.Some?
         && p.nSliders.Some? && p.nLargeTicks.Some? && p.nSpinners.Some?
      then
        assert Complete(p) by { OsuComplete(p); }
        Ok(OsuDifficulty(OsuDifficultyAttributes(
          p.aim.value, p.aimDifficultSliderCount.value, p.speed.value, p.flashlight.value,
          p.sliderFactor.value, p.speedNoteCount.value, p.aimDifficultStrainCount.value,
          p.speedDifficultStrainCount.value, p.ar.value, p.greatHitWindow.value,
          p.okHitWindow.value, p.mehHitWindow.value, p.hp.value, p.nCircles.value,
          p.nSliders.value, p.nLargeTicks.value, p.nSpinners.value, p.stars, p.maxCombo)))
      else
        assert !Complete(p) by { OsuIncomplete(p); }
        Err(ParseError(INVALID_ATTRIBUTES))
    case Taiko =>
      if p.stamina.Some? && p.reading.Some? && p.rhythm.Some? && p.color.Some?
         && p.greatHitWindow.Some? && p.okHitWindow.Some? && p.monoStaminaFactor.Some?
      then
        assert Complete(p) by { TaikoComplete(p); }
        Ok(TaikoDifficulty(TaikoDifficultyAttributes(
          p.stamina.value, p.reading.value, p.rhythm.value, p.color.value,
          p.greatHitWindow.value, p.okHitWindow.value, p.monoStaminaFactor.value,
          p.stars, p.maxCombo, p.isConvert)))
      else
        assert !Complete(p) by { TaikoIncomplete(p); }
        Err(ParseError(INVALID_ATTRIBUTES))
    case Catch =>
      if p.ar.Some? && p.nFruits.Some? && p.nDroplets.Some? && p.nTinyDroplets.Some? then
        assert Complete(p) by { CatchComplete(p); }
        Ok(CatchDifficulty(CatchDifficultyAttributes(
          p.stars, p.ar.value, p.nFruits.value, p.nDroplets.value, p.nTinyDroplets.value,
          p.isConvert)))
      else
        assert !Complete(p) by { CatchIncomplete(p); }
        Err(ParseError(INVALID_ATTRIBUTES))
    case Mania =>
      if p.nObjects.Some? && p.nHoldNotes.Some? then
        assert Complete(p) by { ManiaComplete(p); }
        Ok(ManiaDifficulty(ManiaDifficultyAttributes(
          p.stars, p.nObjects.value, p.nHoldNotes.value, p.maxCombo, p.isConvert)))
      else
        assert !Complete(p) by { ManiaIncomplete(p); }
        Err(ParseError(INVALID_ATTRIBUTES))
  }

  /** An osu! record with all of its attributes is complete ... */
  lemma OsuComplete(p: PyDifficultyAttributes)
    requires p.mode == PyGameMode.Osu
    requires p.aim.Some? && p.aimDifficultSliderCount.Some? && p.speed.Some? && p.flashlight.Some?
      && p.sliderFactor.Some? && p.speedNoteCount.Some? && p.aimDifficultStrainCount.Some?
      && p.speedDifficultStrainCount.Some? && p.ar.Some? && p.greatHitWindow.Some?
      && p.okHitWindow.Some? && p.mehHitWindow.Some? && p.hp.Some? && p.nCircles.Some?
      && p.nSliders.Some? && p.nLargeTicks.Some? && p.nSpinners.Some?
    ensures Complete(p)
  {
    forall f | Required(p.mode, f) ensures Present(p, f) {
      match f
      case Aim =>
      case _ =>
    }
  }

  /** ... and one that lacks any of them is not. */
  lemma OsuIncomplete(p: PyDifficultyAttributes)
    requires p.mode == PyGameMode.Osu
    requires !(p.aim.Some? && p.aimDifficultSliderCount.Some? && p.speed.Some? && p.flashlight.Some?
      && p.sliderFactor.Some? && p.speedNoteCount.Some? && p.aimDifficultStrainCount.Some?
      && p.speedDifficultStrainCount.Some? && p.ar.Some? && p.greatHitWindow.Some?
      && p.okHitWindow.Some? && p.mehHitWindow.Some? && p.hp.Some? && p.nCircles.Some?
      && p.nSliders.Some? && p.nLargeTicks.Some? && p.nSpinners.Some?)
    ensures !Complete(p)
  {
    if p.aim.None? {
      assert !Present(p, Aim);
    } else if p.aimDifficultSliderCount.None? {
      assert !Present(p, AimDifficultSliderCount);
    } else if p.speed.None? {
      assert !Present(p, Speed);
    } else if p.flashlight.None? {
      assert !Present(p, Flashlight);
    } else if p.sliderFactor.None? {
      assert !Present(p, SliderFactor);
    } else if p.speedNoteCount.None? {
      assert !Present(p, SpeedNoteCount);
    } else if p.aimDifficultStrainCount.None? {
      assert !Present(p, AimDifficultStrainCount);
    } else if p.speedDifficultStrainCount.None? {
      assert !Present(p, SpeedDifficultStrainCount);
    } else if p.ar.None? {
      assert !Present(p, Ar);
    } else if p.greatHitWindow.None? {
      assert !Present(p, GreatHitWindow);
    } else if p.okHitWindow.None? {
      assert !Present(p, OkHitWindow);
    } else if p.mehHitWindow.None? {
      assert !Present(p, MehHitWindow);
    } else if p.hp.None? {
      assert !Present(p, Hp);
    } else if p.nCircles.None? {
      assert !Present(p, NCircles);
    } else if p.nSliders.None? {
      assert !Present(p, NSliders);
    } else if p.nLargeTicks.None? {
      assert !Present(p, NLargeTicks);
    } else if p.nSpinners.None? {
      assert !Present(p, NSpinners);
    }
  }


  /** A Taiko record with all of its attributes is complete ... */
  lemma TaikoComplete(p: PyDifficultyAttributes)
    requires p.mode == PyGameMode.Taiko
    requires p.stamina.Some? && p.reading.Some? && p.rhythm.Some? && p.color.Some?
      && p.greatHitWindow.Some? && p.okHitWindow.Some? && p.monoStaminaFactor.Some?
    ensures Complete(p)
  {
    forall f | Required(p.mode, f) ensures Present(p, f) {
      match f
      case Stamina =>
      case _ =>
    }
  }

  /** ... and one that lacks any of them is not. */
  lemma TaikoIncomplete(p: PyDifficultyAttributes)
    requires p.mode == PyGameMode.Taiko
    requires !(p.stamina.Some? && p.reading.Some? && p.rhythm.Some? && p.color.Some?
      && p.greatHitWindow.Some? && p.okHitWindow.Some? && p.monoStaminaFactor.Some?)
    ensures !Complete(p)
  {
    if p.stamina.None? {
      assert !Present(p, Stamina);
    } else if p.reading.None? {
      assert !Present(p, Reading);
    } else if p.rhythm.None? {
      assert !Present(p, Rhythm);
    } else if p.color.None? {
      assert !Present(p, Color);
    } else if p.greatHitWindow.None? {
      assert !Present(p, GreatHitWindow);
    } else if p.okHitWindow.None? {
      assert !Present(p, OkHitWindow);
    } else if p.monoStaminaFactor.None? {
      assert !Present(p, MonoStaminaFactor);
    }
  }


  /** A Catch record with all of its attributes is complete ... */
  lemma CatchComplete(p: PyDifficultyAttributes)
    requires p.mode == PyGameMode.Catch
    requires p.ar.Some? && p.nFruits.Some? && p.nDroplets.Some? && p.nTinyDroplets.Some?
    ensures Complete(p)
  {
    forall f | Required(p.mode, f) ensures Present(p, f) {
      match f
      case Ar =>
      case _ =>
    }
  }

  /** ... and one that lacks any of them is not. */
  lemma CatchIncomplete(p: PyDifficultyAttributes)
    requires p.mode == PyGameMode.Catch
    requires !(p.ar.Some? && p.nFruits.Some? && p.nDroplets.Some? && p.nTinyDroplets.Some?)
    ensures !Complete(p)
  {
    if p.ar.None? {
      assert !Present(p, Ar);
    } else if p.nFruits.None? {
      assert !Present(p, NFruits);
    } else if p.nDroplets.None? {
      assert !Present(p, NDroplets);
    } else if p.nTinyDroplets.None? {
      assert !Present(p, NTinyDroplets);
    }
  }


  /** A Mania record with all of its attributes is complete ... */
  lemma ManiaComplete(p: PyDifficultyAttributes)
    requires p.mode == PyGameMode.Mania
    requires p.nObjects.Some? && p.nHoldNotes.Some?
    ensures Complete(p)
  {
    forall f | Required(p.mode, f) ensures Present(p, f) {
      match f
      case NObjects =>
      case _ =>
    }
  }

  /** ... and one that lacks any of them is not. */
  lemma ManiaIncomplete(p: PyDifficultyAttributes)
    requires p.mode == PyGameMode.Mania
    requires !(p.nObjects.Some? && p.nHoldNotes.Some?)
    ensures !Complete(p)
  {
    if p.nObjects.None? {
      assert !Present(p, NObjects);
    } else if p.nHoldNotes.None? {
      assert !Present(p, NHoldNotes);
    }
  }


  /** `From<DifficultyAttributes> for PyDifficultyAttributes`: the record is
      tagged with the attributes' mode, carries exactly that mode's optional
      attributes, and converts back to the attributes it came from. */
  function FromAttributes(d: DifficultyAttributes): (r: PyDifficultyAttributes)
    ensures r.mode == ModeOf(d)
    ensures Exact(r)
    ensures TryFromPy(r) == Ok(d)
  {
    match d
    case OsuDifficulty(a) => FromOsu(a)
    case TaikoDifficulty(a) => FromTaiko(a)
    case CatchDifficulty(a) => FromCatch(a)
    case ManiaDifficulty(a) => FromMania(a)
  }

  /** The other direction of the round trip: converting a record that parses
      and converting the result back keeps the mode, the stars, every
      attribute of the mode, the combo (computed again for Catch) and the
      convert flag (which an osu! record does not carry), and clears the
      other modes' attributes. */
  lemma TryFromThenFrom(p: PyDifficultyAttributes)
    requires TryFromPy(p).Ok?
    ensures var q := FromAttributes(TryFromPy(p).value);
      q.mode == p.mode && q.stars == p.stars
      && (p.mode != PyGameMode.Catch ==> q.maxCombo == p.maxCombo)
      && (p.mode != PyGameMode.Osu ==> q.isConvert == p.isConvert)
      && forall f :: Field(q, f) == (if Required(p.mode, f) then Field(p, f) else None)
  {
    var q := FromAttributes(TryFromPy(p).value);
    forall f ensures Field(q, f) == (if Required(p.mode, f) then Field(p, f) else None) {
      if Required(p.mode, f) {
        assert Present(p, f);
      } else {
        assert !Present(q, f);
      }
    }
  }

  /** Conversion reads nothing but the mode, the stars, the attributes of
      the record's own mode, the combo (except for Catch, which computes it)
      and the convert flag (except for osu!, which has none). */
  lemma TryFromIgnoresOtherModes(p: PyDifficultyAttributes, q: PyDifficultyAttributes)
    requires p.mode == q.mode && p.stars == q.stars
    requires p.mode != PyGameMode.Catch ==> p.maxCombo == q.maxCombo
    requires p.mode != PyGameMode.Osu ==> p.isConvert == q.isConvert
    requires forall f :: Required(p.mode, f) ==> Field(p, f) == Field(q, f)
    ensures TryFromPy(p) == TryFromPy(q)
  {
    match p.mode
    case Osu => IgnoresOtherModesOsu(p, q);
    case Taiko => IgnoresOtherModesTaiko(p, q);
    case Catch => IgnoresOtherModesCatch(p, q);
    case Mania => IgnoresOtherModesMania(p, q);
  }

  lemma OsuFieldsAgree1(p: PyDifficultyAttributes, q: PyDifficultyAttributes)
    requires p.mode == PyGameMode.Osu
    requires forall f :: Required(p.mode, f) ==> Field(p, f) == Field(q, f)
    ensures p.aim == q.aim && p.aimDifficultSliderCount == q.aimDifficultSliderCount && p.speed == q.speed && p.flashlight == q.flashlight && p.sliderFactor == q.sliderFactor && p.speedNoteCount == q.speedNoteCount && p.aimDifficultStrainCount == q.aimDifficultStrainCount && p.speedDifficultStrainCount == q.speedDifficultStrainCount && p.ar == q.ar
  {
    assert p.aim == q.aim by { assert Field(p, Aim) == Field(q, Aim); }
    assert p.aimDifficultSliderCount == q.aimDifficultSliderCount by { assert Field(p, AimDifficultSliderCount) == Field(q, AimDifficultSliderCount); }
    assert p.speed == q.speed by { assert Field(p, Speed) == Field(q, Speed); }
    assert p.flashlight == q.flashlight by { assert Field(p, Flashlight) == Field(q, Flashlight); }
    assert p.sliderFactor == q.sliderFactor by { assert Field(p, SliderFactor) == Field(q, SliderFactor); }
    assert p.speedNoteCount == q.speedNoteCount by { assert Field(p, SpeedNoteCount) == Field(q, SpeedNoteCount); }
    assert p.aimDifficultStrainCount == q.aimDifficultStrainCount by { assert Field(p, AimDifficultStrainCount) == Field(q, AimDifficultStrainCount); }
    assert p.speedDifficultStrainCount == q.speedDifficultStrainCount by { assert Field(p, SpeedDifficultStrainCount) == Field(q, SpeedDifficultStrainCount); }
    assert p.ar == q.ar by { assert Field(p, Ar) == Field(q, Ar); }
  }

  lemma OsuFieldsAgree2(p: PyDifficultyAttributes, q: PyDifficultyAttributes)
    requires p.mode == PyGameMode.Osu
    requires forall f :: Required(p.mode, f) ==> Field(p, f) == Field(q, f)
    ensures p.greatHitWindow == q.greatHitWindow && p.okHitWindow == q.okHitWindow && p.mehHitWindow == q.mehHitWindow && p.hp == q.hp && p.nCircles == q.nCircles && p.nSliders == q.nSliders && p.nLargeTicks == q.nLargeTicks && p.nSpinners == q.nSpinners
  {
    assert p.greatHitWindow == q.greatHitWindow by { assert Field(p, GreatHitWindow) == Field(q, GreatHitWindow); }
    assert p.okHitWindow == q.okHitWindow by { assert Field(p, OkHitWindow) == Field(q, OkHitWindow); }
    assert p.mehHitWindow == q.mehHitWindow by { assert Field(p, MehHitWindow) == Field(q, MehHitWindow); }
    assert p.hp == q.hp by { assert Field(p, Hp) == Field(q, Hp); }
    assert p.nCircles == q.nCircles by { assert Field(p, NCircles) == Field(q, NCircles); }
    assert p.nSliders == q.nSliders by { assert Field(p, NSliders) == Field(q, NSliders); }
    assert p.nLargeTicks == q.nLargeTicks by { assert Field(p, NLargeTicks) == Field(q, NLargeTicks); }
    assert p.nSpinners == q.nSpinners by { assert Field(p, NSpinners) == Field(q, NSpinners); }
  }

  lemma IgnoresOtherModesOsu(p: PyDifficultyAttributes, q: PyDifficultyAttributes)
    requires p.mode == PyGameMode.Osu
    requires p.mode == q.mode && p.stars == q.stars
    requires p.mode != PyGameMode.Catch ==> p.maxCombo == q.maxCombo
    requires p.mode != PyGameMode.Osu ==> p.isConvert == q.isConvert
    requires forall f :: Required(p.mode, f) ==> Field(p, f) == Field(q, f)
    ensures TryFromPy(p) == TryFromPy(q)
  {
    OsuFieldsAgree1(p, q);
    OsuFieldsAgree2(p, q);
  }

  lemma IgnoresOtherModesTaiko(p: PyDifficultyAttributes, q: PyDifficultyAttributes)
    requires p.mode == PyGameMode.Taiko
    requires p.mode == q.mode && p.stars == q.stars
    requires p.mode != PyGameMode.Catch ==> p.maxCombo == q.maxCombo
    requires p.mode != PyGameMode.Osu ==> p.isConvert == q.isConvert
    requires forall f :: Required(p.mode, f) ==> Field(p, f) == Field(q, f)
    ensures TryFromPy(p) == TryFromPy(q)
  {
    assert p.stamina == q.stamina by { assert Field(p, Stamina) == Field(q, Stamina); }
    assert p.reading == q.reading by { assert Field(p, Reading) == Field(q, Reading); }
    assert p.rhythm == q.rhythm by { assert Field(p, Rhythm) == Field(q, Rhythm); }
    assert p.color == q.color by { assert Field(p, Color) == Field(q, Color); }
    assert p.greatHitWindow == q.greatHitWindow by { assert Field(p, GreatHitWindow) == Field(q, GreatHitWindow); }
    assert p.okHitWindow == q.okHitWindow by { assert Field(p, OkHitWindow) == Field(q, OkHitWindow); }
    assert p.monoStaminaFactor == q.monoStaminaFactor by { assert Field(p, MonoStaminaFactor) == Field(q, MonoStaminaFactor); }
  }

  lemma IgnoresOtherModesCatch(p: PyDifficultyAttributes, q: PyDifficultyAttributes)
    requires p.mode == PyGameMode.Catch
    requires p.mode == q.mode && p.stars == q.stars
    requires p.mode != PyGameMode.Catch ==> p.maxCombo == q.maxCombo
    requires p.mode != PyGameMode.Osu ==> p.isConvert == q.isConvert
    requires forall f :: Required(p.mode, f) ==> Field(p, f) == Field(q, f)
    ensures TryFromPy(p) == TryFromPy(q)
  {
    assert p.ar == q.ar by { assert Field(p, Ar) == Field(q, Ar); }
    assert p.nFruits == q.nFruits by { assert Field(p, NFruits) == Field(q, NFruits); }
    assert p.nDroplets == q.nDroplets by { assert Field(p, NDroplets) == Field(q, NDroplets); }
    assert p.nTinyDroplets == q.nTinyDroplets by { assert Field(p, NTinyDroplets) == Field(q, NTinyDroplets); }
  }

  lemma IgnoresOtherModesMania(p: PyDifficultyAttributes, q: PyDifficultyAttributes)
    requires p.mode == PyGameMode.Mania
    requires p.mode == q.mode && p.stars == q.stars
    requires p.mode != PyGameMode.Catch ==> p.maxCombo == q.maxCombo
    requires p.mode != PyGameMode.Osu ==> p.isConvert == q.isConvert
    requires forall f :: Required(p.mode, f) ==> Field(p, f) == Field(q, f)
    ensures TryFromPy(p) == TryFromPy(q)
  {
    assert p.nObjects == q.nObjects by { assert Field(p, NObjects) == Field(q, NObjects); }
    assert p.nHoldNotes == q.nHoldNotes by { assert Field(p, NHoldNotes) == Field(q, NHoldNotes); }
  }

  /** Converting to Python loses nothing: distinct attributes give distinct
      records. */
  lemma FromAttributesInjective(a: DifficultyAttributes, b: DifficultyAttributes)
    ensures FromAttributes(a) == FromAttributes(b) ==> a == b
  {
  }
}
