// The Python `Strains` record and its conversion from the scoring library's
// per-mode strain values (src/strains.rs).
module Strains {
  import opened Base
  import opened Mode

  type DoubleList = seq<Float>

  datatype OsuStrains = OsuStrains(
    aim: DoubleList, aimNoSliders: DoubleList, speed: DoubleList, flashlight: DoubleList)

  datatype TaikoStrains = TaikoStrains(
    color: DoubleList, reading: DoubleList, rhythm: DoubleList, stamina: DoubleList,
    singleColorStamina: DoubleList)

  datatype CatchStrains = CatchStrains(movement: DoubleList)

  datatype ManiaStrains = ManiaStrains(strains: DoubleList)

  datatype Strains =
    | OsuStrainValues(osu: OsuStrains)
    | TaikoStrainValues(taiko: TaikoStrains)
    | CatchStrainValues(catch: CatchStrains)
    | ManiaStrainValues(mania: ManiaStrains)

  /** The scoring library's `SECTION_LEN` of each mode's strains: the length
      of one strain section in milliseconds. */
  const OSU_SECTION_LEN: Float := Float(400.0)
  const TAIKO_SECTION_LEN: Float := Float(400.0)
  const CATCH_SECTION_LEN: Float := Float(750.0)
  const MANIA_SECTION_LEN: Float := Float(400.0)

  function SectionLength(m: PyGameMode): Float
  {
    match m
    case Osu => OSU_SECTION_LEN
    case Taiko => TAIKO_SECTION_LEN
    case Catch => CATCH_SECTION_LEN
    case Mania => MANIA_SECTION_LEN
  }

  datatype PyStrains = PyStrains(
    mode: PyGameMode,
    sectionLength: Float,
    aim: Option<DoubleList>,
    aimNoSliders: Option<DoubleList>,
    speed: Option<DoubleList>,
    flashlight: Option<DoubleList>,
    color: Option<DoubleList>,
    reading: Option<DoubleList>,
    rhythm: Option<DoubleList>,
    stamina: Option<DoubleList>,
    singleColorStamina: Option<DoubleList>,
    movement: Option<DoubleList>,
    strains: Option<DoubleList>)

  /** The derived `Default`. */
  function Default(): PyStrains
  {
    PyStrains(DefaultMode(), Float(0.0), None, None, None, None, None, None, None, None, None, None, None)
  }

  /** The optional lists, by name (`StrainPeaks` is the mania list,
      `strains` in Python). */
  datatype StrainField =
    | Aim | AimNoSliders | Speed | Flashlight
    | Color | Reading | Rhythm | Stamina | SingleColorStamina
    | Movement | StrainPeaks

  function Field(p: PyStrains, f: StrainField): Option<DoubleList>
  {
    match f
    case Aim => p.aim
    case AimNoSliders => p.aimNoSliders
    case Speed => p.speed
    case Flashlight => p.flashlight
    case Color => p.color
    case Reading => p.reading
    case Rhythm => p.rhythm
    case Stamina => p.stamina
    case SingleColorStamina => p.singleColorStamina
    case Movement => p.movement
    case StrainPeaks => p.strains
  }

  /** The mode whose strains carry a list. */
  function FieldMode(f: StrainField): PyGameMode
  {
    match f
    case Aim | AimNoSliders | Speed | Flashlight => PyGameMode.Osu
    case Color | Reading | Rhythm | Stamina | SingleColorStamina => PyGameMode.Taiko
    case Movement => PyGameMode.Catch
    case StrainPeaks => PyGameMode.Mania
  }

  /** The record has exactly the lists of its own mode and that mode's
      section length. */
  predicate Exact(p: PyStrains)
  {
    p.sectionLength == SectionLength(p.mode)
    && forall f :: Field(p, f).Some? <==> FieldMode(f) == p.mode
  }

  function FromOsu(s: OsuStrains): (r: PyStrains)
    ensures r.mode == PyGameMode.Osu && Exact(r)
    ensures r.aim == Some(s.aim) && r.aimNoSliders == Some(s.aimNoSliders)
    ensures r.speed == Some(s.speed) && r.flashlight == Some(s.flashlight)
  {
    Default().(
      mode := PyGameMode.Osu,
      sectionLength := OSU_SECTION_LEN,
      aim := Some(s.aim),
      aimNoSliders := Some(s.aimNoSliders),
      speed := Some(s.speed),
      flashlight := Some(s.flashlight))
  }

  function FromTaiko(s: TaikoStrains): (r: PyStrains)
    ensures r.mode == PyGameMode.Taiko && Exact(r)
    ensures r.color == Some(s.color) && r.reading == Some(s.reading) && r.rhythm == Some(s.rhythm)
    ensures r.stamina == Some(s.stamina) && r.singleColorStamina == Some(s.singleColorStamina)
  {
    Default().(
      mode := PyGameMode.Taiko,
      sectionLength := TAIKO_SECTION_LEN,
      color := Some(s.color),
      reading := Some(s.reading),
      rhythm := Some(s.rhythm),
      stamina := Some(s.stamina),
      singleColorStamina := Some(s.singleColorStamina))
  }

  function FromCatch(s: CatchStrains): (r: PyStrains)
    ensures r.mode == PyGameMode.Catch && Exact(r)
    ensures r.movement == Some(s.movement)
  {
    Default().(
      mode := PyGameMode.Catch,
      sectionLength := CATCH_SECTION_LEN,
      movement := Some(s.movement))
  }

  function FromMania(s: ManiaStrains): (r: PyStrains)
    ensures r.mode == PyGameMode.Mania && Exact(r)
    ensures r.strains == Some(s.strains)
  {
    Default().(
      mode := PyGameMode.Mania,
      sectionLength := MANIA_SECTION_LEN,
      strains := Some(s.strains))
  }

  function ModeOf(s: Strains): PyGameMode
  {
    match s
    case OsuStrainValues(_) => PyGameMode.Osu
    case TaikoStrainValues(_) => PyGameMode.Taiko
    case CatchStrainValues(_) => PyGameMode.Catch
    case ManiaStrainValues(_) => PyGameMode.Mania
  }

  /** Reads the library strains back out of a record: the lists of the
      record's mode, when all of them are present. */
  function ToStrains(p: PyStrains): Option<Strains>
  {
    match p.mode
    case Osu =>
      if p.aim.Some? && p.aimNoSliders.Some? && p.speed.Some? && p.flashlight.Some?
      then Some(OsuStrainValues(OsuStrains(p.aim.value, p.aimNoSliders.value, p.speed.value, p.flashlight.value)))
      else None
    case Taiko =>
      if p.color.Some? && p.reading.Some? && p.rhythm.Some? && p.stamina.Some? && p.singleColorStamina.Some?
      then Some(TaikoStrainValues(TaikoStrains(
        p.color.value, p.reading.value, p.rhythm.value, p.stamina.value, p.singleColorStamina.value)))
      else None
    case Catch =>
      if p.movement.Some? then Some(CatchStrainValues(CatchStrains(p.movement.value))) else None
    case Mania =>
      if p.strains.Some? then Some(ManiaStrainValues(ManiaStrains(p.strains.value))) else None
  }

  /** `From<Strains> for PyStrains`: tagged with the strains' mode, with
      exactly that mode's lists and section length, and each list moved over
      unchanged, so that the strains can be read back from the record. */
  function FromStrains(s: Strains): (r: PyStrains)
    ensures r.mode == ModeOf(s) && Exact(r)
    ensures ToStrains(r) == Some(s)
  {
    match s
    case OsuStrainValues(o) => FromOsu(o)
    case TaikoStrainValues(t) => FromTaiko(t)
    case CatchStrainValues(c) => FromCatch(c)
    case ManiaStrainValues(m) => FromMania(m)
  }

  /** Distinct strains give distinct records, since each can be read back
      from its record. */
  lemma FromStrainsInjective(a: Strains, b: Strains)
    requires FromStrains(a) == FromStrains(b)
    ensures a == b
  {
    assert Some(a) == ToStrains(FromStrains(a)) == ToStrains(FromStrains(b)) == Some(b);
  }
}
