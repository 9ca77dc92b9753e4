// The older API's `Calculator` class (src/calculator.rs): a record of
// optional settings, filled from keyword arguments or setters, that
// configures the older scoring library's calculators, each recorded as the
// sequence of calls made on it.
module Calculator {
  import opened Base
  import opened Errors
  import opened Python
  import DiffAttrs
  import PerfAttrs

  // ---------------------------------------------------------------------
  // The older scoring library, as the bindings see it.

  /** A call on the star calculator (`AnyStars`). */
  datatype StarsCall =
    | StarsMode(mode: GameMode)
    | StarsMods(mods: U32)
    | StarsPassedObjects(count: Usize)
    | StarsClockRate(rate: Float)

  /** A call on the performance calculator (`AnyPP`). */
  datatype PpCall =
    | PpMode(mode: GameMode)
    | PpMods(mods: U32)
    | PpNGeki(count: Usize)
    | PpNKatu(count: Usize)
    | PpN300(count: Usize)
    | PpN100(count: Usize)
    | PpN50(count: Usize)
    | PpNMisses(count: Usize)
    | PpCombo(count: Usize)
    | PpPassedObjects(count: Usize)
    | PpClockRate(rate: Float)
    | PpAttributes(attrs: DiffAttrs.DifficultyAttributes)
    | PpAccuracy(acc: Float)

  /** A call on the beatmap attributes builder (`map.attributes()`). */
  datatype MapCall =
    | MapMode(mode: GameMode)
    | MapConverted(converted: bool)
    | MapMods(mods: U32)
    | MapClockRate(rate: Float)

  /** The older library's functions, left uninterpreted: the conversion of
      a beatmap to a mode, and the calculators on the calls made on them. */
  datatype OldEngine = OldEngine(
    convertMode: (Beatmap, GameMode) -> Beatmap,
    stars: (Beatmap, seq<StarsCall>) -> DiffAttrs.DifficultyAttributes,
    pp: (Beatmap, seq<PpCall>) -> PerfAttrs.PerformanceAttributes)

  /** What `map_attributes` hands to the `BeatmapAttributes` record: the
      beatmap the builder was made from, the calls made on it and the mode. */
  datatype MapAttributesRequest = MapAttributesRequest(base: Beatmap, calls: seq<MapCall>, mode: GameMode)

  // ---------------------------------------------------------------------
  // `set_calc!`: each listed field that is set becomes one call, in the
  // order the fields are listed.

  /** The calls of the listed fields that are set, in order. */
  function Present<C>(fields: seq<Option<C>>): (r: seq<C>)
    ensures |r| <= |fields|
  {
    if fields == [] then []
    else (if fields[0].Some? then [fields[0].value] else []) + Present(fields[1..])
  }

  /** A field list split in two gives the calls of the first part, then
      those of the second. */
  lemma {:induction false} PresentAppend<C>(a: seq<Option<C>>, b: seq<Option<C>>)
    ensures Present(a + b) == Present(a) + Present(b)
  {
    if a == [] {
      assert a + b == b;
    } else {
      assert (a + b)[0] == a[0];
      assert (a + b)[1..] == a[1..] + b;
      PresentAppend(a[1..], b);
    }
  }

  /** A call is made exactly when some listed field is set to it. */
  lemma {:induction false} PresentMembers<C>(fields: seq<Option<C>>, c: C)
    ensures c in Present(fields) <==> Some(c) in fields
  {
    if fields != [] {
      PresentMembers(fields[1..], c);
      assert fields == [fields[0]] + fields[1..];
    }
  }

  /** The macro: the calculator reassigned with one call per set field. */
  method SetCalc<C>(calls: seq<C>, fields: seq<Option<C>>) returns (r: seq<C>)
    ensures r == calls + Present(fields)
  {
    r := calls;
    var i := 0;
    while i < |fields|
      invariant 0 <= i <= |fields|
      invariant r + Present(fields[i..]) == calls + Present(fields)
    {
      assert fields[i..][0] == fields[i];
      assert fields[i..][1..] == fields[i + 1..];
      if fields[i].Some? {
        r := r + [fields[i].value];
      }
      i := i + 1;
    }
    assert fields[i..] == [];
  }

  // ---------------------------------------------------------------------
  // The settings.

  /** The settings a `Calculator` holds, field for field. */
  datatype CalculatorSettings = CalculatorSettings(
    attributes: Option<DiffAttrs.DifficultyAttributes>,
    mode: Option<GameMode>,
    mods: Option<U32>,
    acc: Option<Float>,
    nGeki: Option<Usize>,
    nKatu: Option<Usize>,
    n300: Option<Usize>,
    n100: Option<Usize>,
    n50: Option<Usize>,
    nMisses: Option<Usize>,
    combo: Option<Usize>,
    passedObjects: Option<Usize>,
    clockRate: Option<Float>)

  /** The derived `Default`: nothing set. */
  const DEFAULT_SETTINGS: CalculatorSettings :=
    CalculatorSettings(None, None, None, None, None, None, None, None, None, None, None, None, None)

  /** The fields `difficulty` and `strains` list for `set_calc!`. */
  function StarsFields(s: CalculatorSettings): seq<Option<StarsCall>>
  {
    [if s.mode.Some? then Some(StarsMode(s.mode.value)) else None,
     if s.mods.Some? then Some(StarsMods(s.mods.value)) else None,
     if s.passedObjects.Some? then Some(StarsPassedObjects(s.passedObjects.value)) else None,
     if s.clockRate.Some? then Some(StarsClockRate(s.clockRate.value)) else None]
  }

  /** The calls `difficulty` and `strains` make. */
  function StarsCalls(s: CalculatorSettings): seq<StarsCall>
  {
    Present(StarsFields(s))
  }

  /** The fields `performance` lists for `set_calc!`: the mode and mods,
      then the hit counts, then the combo, passed objects and clock rate. */
  function PpFields(s: CalculatorSettings): seq<Option<PpCall>>
  {
    [if s.mode.Some? then Some(PpMode(s.mode.value)) else None,
     if s.mods.Some? then Some(PpMods(s.mods.value)) else None]
    + PpCountFields(s)
    + [if s.combo.Some? then Some(PpCombo(s.combo.value)) else None,
       if s.passedObjects.Some? then Some(PpPassedObjects(s.passedObjects.value)) else None,
       if s.clockRate.Some? then Some(PpClockRate(s.clockRate.value)) else None]
  }

  function PpCountFields(s: CalculatorSettings): seq<Option<PpCall>>
  {
    [if s.nGeki.Some? then Some(PpNGeki(s.nGeki.value)) else None,
     if s.nKatu.Some? then Some(PpNKatu(s.nKatu.value)) else None,
     if s.n300.Some? then Some(PpN300(s.n300.value)) else None,
     if s.n100.Some? then Some(PpN100(s.n100.value)) else None,
     if s.n50.Some? then Some(PpN50(s.n50.value)) else None,
     if s.nMisses.Some? then Some(PpNMisses(s.nMisses.value)) else None]
  }

  /** The attributes call, then the accuracy call, when they are set. */
  function PpTail(s: CalculatorSettings): seq<PpCall>
  {
    (if s.attributes.Some? then [PpAttributes(s.attributes.value)] else [])
      + (if s.acc.Some? then [PpAccuracy(s.acc.value)] else [])
  }

  /** The calls `performance` makes. */
  function PpCalls(s: CalculatorSettings): seq<PpCall>
  {
    Present(PpFields(s)) + PpTail(s)
  }

  /** `difficulty` and `strains` forward exactly the mode, mods, passed
      objects and clock rate that are set. */
  lemma StarsCallsForwarded(s: CalculatorSettings)
    ensures var calls := StarsCalls(s);
      && (forall m :: StarsMode(m) in calls <==> s.mode == Some(m))
      && (forall b: U32 :: StarsMods(b) in calls <==> s.mods == Some(b))
      && (forall n: Usize :: StarsPassedObjects(n) in calls <==> s.passedObjects == Some(n))
      && (forall x :: StarsClockRate(x) in calls <==> s.clockRate == Some(x))
      && |calls| <= 4
  {
    forall c: StarsCall { PresentMembers(StarsFields(s), c); }
  }

  /** Whether the settings ask `performance` for call `c`: each call is
      asked for by its own field, with that field's value. */
  predicate PpAsked(s: CalculatorSettings, c: PpCall)
  {
    match c
    case PpMode(m) => s.mode == Some(m)
    case PpMods(b) => s.mods == Some(b)
    case PpNGeki(n) => s.nGeki == Some(n)
    case PpNKatu(n) => s.nKatu == Some(n)
    case PpN300(n) => s.n300 == Some(n)
    case PpN100(n) => s.n100 == Some(n)
    case PpN50(n) => s.n50 == Some(n)
    case PpNMisses(n) => s.nMisses == Some(n)
    case PpCombo(n) => s.combo == Some(n)
    case PpPassedObjects(n) => s.passedObjects == Some(n)
    case PpClockRate(x) => s.clockRate == Some(x)
    case PpAttributes(a) => s.attributes == Some(a)
    case PpAccuracy(x) => s.acc == Some(x)
  }

  lemma PpCountFieldMember(s: CalculatorSettings, c: PpCall)
    ensures Some(c) in PpCountFields(s) <==>
      (c.PpNGeki? || c.PpNKatu? || c.PpN300? || c.PpN100? || c.PpN50? || c.PpNMisses?) && PpAsked(s, c)
  {
  }

  lemma PpFieldMember(s: CalculatorSettings, c: PpCall)
    ensures Some(c) in PpFields(s) <==> !c.PpAttributes? && !c.PpAccuracy? && PpAsked(s, c)
  {
    PpCountFieldMember(s, c);
  }

  /** `performance` makes exactly the calls the settings ask for. */
  lemma PpCallMember(s: CalculatorSettings, c: PpCall)
    ensures c in PpCalls(s) <==> PpAsked(s, c)
  {
    PresentMembers(PpFields(s), c);
    PpFieldMember(s, c);
  }

  /** The `set_calc!` part of `performance` never gives the attributes or
      the accuracy; each of those two is given exactly when it is set, and
      with both set they are the last two calls, in that order. */
  lemma PpCallsOrder(s: CalculatorSettings)
    ensures forall c :: c in Present(PpFields(s)) ==> !c.PpAttributes? && !c.PpAccuracy?
    ensures forall a :: PpAttributes(a) in PpCalls(s) <==> s.attributes == Some(a)
    ensures forall x :: PpAccuracy(x) in PpCalls(s) <==> s.acc == Some(x)
    ensures s.attributes.Some? && s.acc.Some? ==>
      PpCalls(s)[|PpCalls(s)| - 2..] == [PpAttributes(s.attributes.value), PpAccuracy(s.acc.value)]
  {
    forall c | c in Present(PpFields(s))
      ensures !c.PpAttributes? && !c.PpAccuracy?
    {
      PresentMembers(PpFields(s), c);
      PpFieldMember(s, c);
    }
    forall a ensures PpAttributes(a) in PpCalls(s) <==> s.attributes == Some(a) {
      PpCallMember(s, PpAttributes(a));
    }
    forall x ensures PpAccuracy(x) in PpCalls(s) <==> s.acc == Some(x) {
      PpCallMember(s, PpAccuracy(x));
    }
  }

  /** `performance` forwards exactly the hit counts that are set. */
  lemma PpCountsForwarded(s: CalculatorSettings)
    ensures forall n: Usize :: PpNGeki(n) in PpCalls(s) <==> s.nGeki == Some(n)
    ensures forall n: Usize :: PpNKatu(n) in PpCalls(s) <==> s.nKatu == Some(n)
    ensures forall n: Usize :: PpN300(n) in PpCalls(s) <==> s.n300 == Some(n)
    ensures forall n: Usize :: PpN100(n) in PpCalls(s) <==> s.n100 == Some(n)
    ensures forall n: Usize :: PpN50(n) in PpCalls(s) <==> s.n50 == Some(n)
    ensures forall n: Usize :: PpNMisses(n) in PpCalls(s) <==> s.nMisses == Some(n)
  {
    forall n: Usize ensures PpNGeki(n) in PpCalls(s) <==> s.nGeki == Some(n) {
      PpCallMember(s, PpNGeki(n));
    }
    forall n: Usize ensures PpNKatu(n) in PpCalls(s) <==> s.nKatu == Some(n) {
      PpCallMember(s, PpNKatu(n));
    }
    forall n: Usize ensures PpN300(n) in PpCalls(s) <==> s.n300 == Some(n) {
      PpCallMember(s, PpN300(n));
    }
    forall n: Usize ensures PpN100(n) in PpCalls(s) <==> s.n100 == Some(n) {
      PpCallMember(s, PpN100(n));
    }
    forall n: Usize ensures PpN50(n) in PpCalls(s) <==> s.n50 == Some(n) {
      PpCallMember(s, PpN50(n));
    }
    forall n: Usize ensures PpNMisses(n) in PpCalls(s) <==> s.nMisses == Some(n) {
      PpCallMember(s, PpNMisses(n));
    }
  }

  /** `performance` forwards exactly the mode, mods, combo, passed objects,
      and clock rate that are set. */
  lemma PpSettingsForwarded(s: CalculatorSettings)
    ensures forall m: GameMode :: PpMode(m) in PpCalls(s) <==> s.mode == Some(m)
    ensures forall b: U32 :: PpMods(b) in PpCalls(s) <==> s.mods == Some(b)
    ensures forall n: Usize :: PpCombo(n) in PpCalls(s) <==> s.combo == Some(n)
    ensures forall n: Usize :: PpPassedObjects(n) in PpCalls(s) <==> s.passedObjects == Some(n)
    ensures forall x: Float :: PpClockRate(x) in PpCalls(s) <==> s.clockRate == Some(x)
  {
    forall m: GameMode ensures PpMode(m) in PpCalls(s) <==> s.mode == Some(m) {
      PpCallMember(s, PpMode(m));
    }
    forall b: U32 ensures PpMods(b) in PpCalls(s) <==> s.mods == Some(b) {
      PpCallMember(s, PpMods(b));
    }
    forall n: Usize ensures PpCombo(n) in PpCalls(s) <==> s.combo == Some(n) {
      PpCallMember(s, PpCombo(n));
    }
    forall n: Usize ensures PpPassedObjects(n) in PpCalls(s) <==> s.passedObjects == Some(n) {
      PpCallMember(s, PpPassedObjects(n));
    }
    forall x: Float ensures PpClockRate(x) in PpCalls(s) <==> s.clockRate == Some(x) {
      PpCallMember(s, PpClockRate(x));
    }
  }

  // ---------------------------------------------------------------------
  // The keyword constructor.

  /** The message of the `KwargsError` for an unknown keyword. */
  function UnexpectedKwarg(key: string): string
  {
    "unexpected kwarg '" + key + "': expected 'mode', 'mods', \n"
      + "'n_geki', 'n_katu', 'n300', 'n100', 'n50', 'n_misses', \n"
      + "'acc', 'combo', 'passed_objects', 'clock_rate', or 'difficulty'"
  }

  function MustBe(key: string, what: string): string
  {
    "kwarg '" + key + "': must be " + what
  }

  const INVALID_MODE: string := "invalid mode integer"

  /** The mode an integer names, if it names one. */
  function ModeOfInt(n: U8): (r: Option<GameMode>)
    ensures r.Some? <==> n < 4
  {
    if n == 0 then Some(GameMode.Osu)
    else if n == 1 then Some(GameMode.Taiko)
    else if n == 2 then Some(GameMode.Catch)
    else if n == 3 then Some(GameMode.Mania)
    else None
  }

  /** The keywords whose value is an optional count. */
  const COUNT_KEYS: set<string> := {"n300", "n100", "n50", "n_misses", "n_geki", "n_katu", "combo", "passed_objects"}

  /** Every keyword the constructor knows. */
  const KNOWN_KEYS: set<string> := COUNT_KEYS + {"mode", "mods", "acc", "accuracy", "clock_rate", "difficulty", "attributes"}

  /** A count given by keyword. */
  function SetCount(s: CalculatorSettings, key: string, n: Option<Usize>): CalculatorSettings
  {
    if key == "n300" then s.(n300 := n)
    else if key == "n100" then s.(n100 := n)
    else if key == "n50" then s.(n50 := n)
    else if key == "n_misses" then s.(nMisses := n)
    else if key == "n_geki" then s.(nGeki := n)
    else if key == "n_katu" then s.(nKatu := n)
    else if key == "combo" then s.(combo := n)
    else s.(passedObjects := n)
  }

  /** One keyword argument: the mode as an integer 0 to 3; the mods, counts,
      accuracy and clock rate each as an optional value of their type (so
      `None` clears them); the difficulty as older `DifficultyAttributes`.
      "accuracy" is another name for "acc", "attributes" for "difficulty". */
  function Step(s: CalculatorSettings, key: string, v: PyObj): Result<CalculatorSettings, PyErr>
  {
    if key == "mode" then
      match ExtractU8(v)
      case Err(_) => Err(TypeError(MustBe(key, "an int")))
      case Ok(n) =>
        if ModeOfInt(n).Some? then Ok(s.(mode := ModeOfInt(n))) else Err(ValueError(INVALID_MODE))
    else if key == "mods" then
      match ExtractOption(v, ExtractU32)
      case Err(_) => Err(TypeError(MustBe(key, "an int")))
      case Ok(m) => Ok(s.(mods := m))
    else if key in COUNT_KEYS then
      match ExtractOption(v, ExtractUsize)
      case Err(_) => Err(TypeError(MustBe(key, "an int")))
      case Ok(n) => Ok(SetCount(s, key, n))
    else StepRest(s, key, v)
  }

  /** The keywords after the counts: accuracy, clock rate, difficulty, and
      the unknown ones. */
  function StepRest(s: CalculatorSettings, key: string, v: PyObj): Result<CalculatorSettings, PyErr>
  {
    if key == "acc" || key == "accuracy" then
      match ExtractOption(v, ExtractFloat)
      case Err(_) => Err(TypeError(MustBe("acc", "a real number")))
      case Ok(x) => Ok(s.(acc := x))
    else if key == "clock_rate" then
      match ExtractOption(v, ExtractFloat)
      case Err(_) => Err(TypeError(MustBe(key, "a real number")))
      case Ok(x) => Ok(s.(clockRate := x))
    else if key == "difficulty" || key == "attributes" then
      if v.PyOldDifficultyAttributesObj? then Ok(s.(attributes := Some(v.oldAttrs.inner)))
      else Err(TypeError(MustBe("difficulty", "DifficultyAttributes")))
    else Err(KwargsError(UnexpectedKwarg(key)))
  }

  /** The constructor's result: the default settings without keywords,
      else the keywords applied in order from the default settings. */
  function NewSpec(kwargs: Option<Kwargs>): Result<CalculatorSettings, PyErr>
  {
    match kwargs
    case None => Ok(DEFAULT_SETTINGS)
    case Some(kw) => FoldKwargs(DEFAULT_SETTINGS, kw, Step)
  }

  /** The "mode" keyword: 0, 1, 2 and 3 are osu!, taiko, catch and mania;
      another `u8` is a `ValueError`, anything else a `TypeError`. */
  lemma ModeKwarg(s: CalculatorSettings, v: PyObj)
    ensures v == PyInt(0) ==> Step(s, "mode", v) == Ok(s.(mode := Some(GameMode.Osu)))
    ensures v == PyInt(1) ==> Step(s, "mode", v) == Ok(s.(mode := Some(GameMode.Taiko)))
    ensures v == PyInt(2) ==> Step(s, "mode", v) == Ok(s.(mode := Some(GameMode.Catch)))
    ensures v == PyInt(3) ==> Step(s, "mode", v) == Ok(s.(mode := Some(GameMode.Mania)))
    ensures IsInt(v) && 4 <= IntValue(v) < 0x100 ==> Step(s, "mode", v) == Err(ValueError(INVALID_MODE))
    ensures !(IsInt(v) && 0 <= IntValue(v) < 0x100) ==> Step(s, "mode", v) == Err(TypeError("kwarg 'mode': must be an int"))
  {
    assert MustBe("mode", "an int") == "kwarg 'mode': must be an int";
  }

  /** The two names of the accuracy, and of the difficulty, behave alike. */
  lemma AliasesAgree(s: CalculatorSettings, v: PyObj)
    ensures Step(s, "accuracy", v) == Step(s, "acc", v)
    ensures Step(s, "attributes", v) == Step(s, "difficulty", v)
    ensures Step(s, "acc", v).Ok? <==> v.PyNone? || v.PyFloat? || (IsInt(v) && FitsF64(IntValue(v)))
    ensures Step(s, "difficulty", v).Ok? <==> v.PyOldDifficultyAttributesObj?
  {
  }

  /** A count keyword with `None` clears the count, and with an integer in
      range sets it, over the settings built so far. */
  lemma CountKwargSets(kw: Kwargs, key: string, v: PyObj)
    requires NewSpec(Some(kw)).Ok?
    requires key in COUNT_KEYS && ExtractOption(v, ExtractUsize).Ok?
    ensures NewSpec(Some(kw + [(key, v)])) ==
      Ok(SetCount(NewSpec(Some(kw)).value, key, if v.PyNone? then None else Some(IntValue(v))))
  {
    FoldKwargsSnoc(DEFAULT_SETTINGS, kw, key, v, Step);
  }

  /** An unknown keyword is refused with a `KwargsError` naming it. */
  lemma UnknownKwargRefused(s: CalculatorSettings, key: string, v: PyObj)
    requires key !in KNOWN_KEYS
    ensures Step(s, key, v) == Err(KwargsError(UnexpectedKwarg(key)))
  {
  }

  /** A refused keyword ends construction with its error, whatever
      follows. */
  lemma RefusedKwargIsFinal(kw: Kwargs, key: string, v: PyObj, rest: Kwargs)
    requires NewSpec(Some(kw)).Ok?
    requires Step(NewSpec(Some(kw)).value, key, v).Err?
    ensures NewSpec(Some(kw + [(key, v)] + rest)) == Err(Step(NewSpec(Some(kw)).value, key, v).error)
  {
    FoldKwargsSnoc(DEFAULT_SETTINGS, kw, key, v, Step);
    FoldKwargsAppend(DEFAULT_SETTINGS, kw + [(key, v)], rest, Step);
  }

  // ---------------------------------------------------------------------
  // `map_attributes`.

  /** The beatmap the builder is made from and the mode reported: with a
      mode set, the beatmap converted to it and that mode; else the beatmap
      and its own mode. */
  function MapAndMode(engine: OldEngine, s: CalculatorSettings, beatmap: Beatmap): (Beatmap, GameMode)
  {
    if s.mode.Some? then (engine.convertMode(beatmap, s.mode.value), s.mode.value) else (beatmap, beatmap.mode)
  }

  /** The calls `map_attributes` makes on the builder. */
  function MapCalls(engine: OldEngine, s: CalculatorSettings, beatmap: Beatmap): seq<MapCall>
  {
    var converted := MapAndMode(engine, s, beatmap).0;
    (if s.mode.Some? then
       [MapMode(s.mode.value)]
       + (if converted.mode != s.mode.value && converted.mode == GameMode.Osu then [MapConverted(true)] else [])
     else [])
    + (if s.mods.Some? then [MapMods(s.mods.value)] else [])
    + (if s.clockRate.Some? then [MapClockRate(s.clockRate.value)] else [])
  }

  function MapAttributesSpec(engine: OldEngine, s: CalculatorSettings, beatmap: Beatmap): MapAttributesRequest
  {
    var (base, mode) := MapAndMode(engine, s, beatmap);
    MapAttributesRequest(base, MapCalls(engine, s, beatmap), mode)
  }

  /** `converted(true)` is called exactly when a mode is set, the beatmap
      converted to it still has another mode, and that mode is osu!; the
      mode is forwarded exactly when it is set. */
  lemma ConvertedFlag(engine: OldEngine, s: CalculatorSettings, beatmap: Beatmap)
    ensures MapConverted(true) in MapCalls(engine, s, beatmap) <==>
      && s.mode.Some?
      && engine.convertMode(beatmap, s.mode.value).mode != s.mode.value
      && engine.convertMode(beatmap, s.mode.value).mode == GameMode.Osu
    ensures forall m :: MapMode(m) in MapCalls(engine, s, beatmap) <==> s.mode == Some(m)
    ensures s.mode.None? ==> MapAttributesSpec(engine, s, beatmap).base == beatmap && MapAttributesSpec(engine, s, beatmap).mode == beatmap.mode
  {
  }

  /** If converting an osu! beatmap always reaches the mode asked for, and
      a beatmap of another mode is left as it is, then `converted(true)` is
      never called. */
  lemma ConvertedNeverWhenConversionReachesMode(engine: OldEngine, s: CalculatorSettings, beatmap: Beatmap)
    requires beatmap.mode == GameMode.Osu ==> forall m :: engine.convertMode(beatmap, m).mode == m
    requires beatmap.mode != GameMode.Osu ==> forall m :: engine.convertMode(beatmap, m) == beatmap
    ensures MapConverted(true) !in MapCalls(engine, s, beatmap)
  {
    ConvertedFlag(engine, s, beatmap);
  }

  // ---------------------------------------------------------------------
  // The Python class.

  class PyCalculator {
    var attributes: Option<DiffAttrs.DifficultyAttributes>
    var mode: Option<GameMode>
    var mods: Option<U32>
    var acc: Option<Float>
    var nGeki: Option<Usize>
    var nKatu: Option<Usize>
    var n300: Option<Usize>
    var n100: Option<Usize>
    var n50: Option<Usize>
    var nMisses: Option<Usize>
    var combo: Option<Usize>
    var passedObjects: Option<Usize>
    var clockRate: Option<Float>

    /** The object's settings as a value. */
    function Settings(): CalculatorSettings
      reads this
    {
      CalculatorSettings(attributes, mode, mods, acc, nGeki, nKatu, n300, n100, n50, nMisses,
                         combo, passedObjects, clockRate)
    }

    /** `Self::default()`. */
    constructor ()
      ensures Settings() == DEFAULT_SETTINGS
    {
      attributes, mode, mods, acc := None, None, None, None;
      nGeki, nKatu, n300, n100, n50, nMisses := None, None, None, None, None, None;
      combo, passedObjects, clockRate := None, None, None;
    }

    /** One turn of the keyword loop of `new`. */
    method ApplyKwarg(key: string, value: PyObj) returns (err: Option<PyErr>)
      modifies this
      ensures Step(old(Settings()), key, value).Err? ==> err == Some(Step(old(Settings()), key, value).error)
      ensures Step(old(Settings()), key, value).Ok? ==> err.None? && Settings() == Step(old(Settings()), key, value).value
    {
      if key == "mode" {
        var number := ExtractU8(value);
        if number.Err? {
          return Some(TypeError(MustBe(key, "an int")));
        }
        var m := ModeOfInt(number.value);
        if m.None? {
          return Some(ValueError(INVALID_MODE));
        }
        mode := m;
      } else if key == "mods" {
        var m := ExtractOption(value, ExtractU32);
        if m.Err? {
          return Some(TypeError(MustBe(key, "an int")));
        }
        mods := m.value;
      } else if key in COUNT_KEYS {
        var n := ExtractOption(value, ExtractUsize);
        if n.Err? {
          return Some(TypeError(MustBe(key, "an int")));
        }
        SetCountField(key, n.value);
      } else {
        err := ApplyOtherKwarg(key, value);
        return;
      }
      return None;
    }

    /** The keyword loop's turn for the keywords `StepRest` covers. */
    method ApplyOtherKwarg(key: string, value: PyObj) returns (err: Option<PyErr>)
      modifies this
      ensures StepRest(old(Settings()), key, value).Err? ==> err == Some(StepRest(old(Settings()), key, value).error)
      ensures StepRest(old(Settings()), key, value).Ok? ==> err.None? && Settings() == StepRest(old(Settings()), key, value).value
    {
      if key == "acc" || key == "accuracy" || key == "clock_rate" {
        err := ApplyRealKwarg(key, value);
        return;
      } else if key == "difficulty" || key == "attributes" {
        if !value.PyOldDifficultyAttributesObj? {
          return Some(TypeError(MustBe("difficulty", "DifficultyAttributes")));
        }
        attributes := Some(value.oldAttrs.inner);
      } else {
        return Some(KwargsError(UnexpectedKwarg(key)));
      }
      return None;
    }

    /** The keyword loop's turn for the two real-number keywords. */
    method ApplyRealKwarg(key: string, value: PyObj) returns (err: Option<PyErr>)
      requires key == "acc" || key == "accuracy" || key == "clock_rate"
      modifies this
      ensures StepRest(old(Settings()), key, value).Err? ==> err == Some(StepRest(old(Settings()), key, value).error)
      ensures StepRest(old(Settings()), key, value).Ok? ==> err.None? && Settings() == StepRest(old(Settings()), key, value).value
    {
      var x := ExtractOption(value, ExtractFloat);
      if x.Err? {
        return Some(TypeError(MustBe(if key == "clock_rate" then key else "acc", "a real number")));
      }
      if key == "clock_rate" {
        clockRate := x.value;
      } else {
        acc := x.value;
      }
      return None;
    }

    /** The count field a count keyword names. */
    method SetCountField(key: string, n: Option<Usize>)
      modifies this
      ensures Settings() == SetCount(old(Settings()), key, n)
    {
      if key == "n300" {
        n300 := n;
      } else if key == "n100" {
        n100 := n;
      } else if key == "n50" {
        n50 := n;
      } else if key == "n_misses" {
        nMisses := n;
      } else if key == "n_geki" {
        nGeki := n;
      } else if key == "n_katu" {
        nKatu := n;
      } else if key == "combo" {
        combo := n;
      } else {
        passedObjects := n;
      }
    }

    method SetMods(mods: U32)
      modifies this
      ensures Settings() == old(Settings()).(mods := Some(mods))
    {
      this.mods := Some(mods);
    }

    method SetAcc(acc: Float)
      modifies this
      ensures Settings() == old(Settings()).(acc := Some(acc))
    {
      this.acc := Some(acc);
    }

    method SetNGeki(nGeki: Usize)
      modifies this
      ensures Settings() == old(Settings()).(nGeki := Some(nGeki))
    {
      this.nGeki := Some(nGeki);
    }

    method SetNKatu(nKatu: Usize)
      modifies this
      ensures Settings() == old(Settings()).(nKatu := Some(nKatu))
    {
      this.nKatu := Some(nKatu);
    }

    method SetN300(n300: Usize)
      modifies this
      ensures Settings() == old(Settings()).(n300 := Some(n300))
    {
      this.n300 := Some(n300);
    }

    method SetN100(n100: Usize)
      modifies this
      ensures Settings() == old(Settings()).(n100 := Some(n100))
    {
      this.n100 := Some(n100);
    }

    method SetN50(n50: Usize)
      modifies this
      ensures Settings() == old(Settings()).(n50 := Some(n50))
    {
      this.n50 := Some(n50);
    }

    method SetNMisses(nMisses: Usize)
      modifies this
      ensures Settings() == old(Settings()).(nMisses := Some(nMisses))
    {
      this.nMisses := Some(nMisses);
    }

    method SetCombo(combo: Usize)
      modifies this
      ensures Settings() == old(Settings()).(combo := Some(combo))
    {
      this.combo := Some(combo);
    }

    method SetPassedObjects(passedObjects: Usize)
      modifies this
      ensures Settings() == old(Settings()).(passedObjects := Some(passedObjects))
    {
      this.passedObjects := Some(passedObjects);
    }

    method SetClockRate(clockRate: Float)
      modifies this
      ensures Settings() == old(Settings()).(clockRate := Some(clockRate))
    {
      this.clockRate := Some(clockRate);
    }

    method SetDifficulty(difficulty: DiffAttrs.PyDifficultyAttributes)
      modifies this
      ensures Settings() == old(Settings()).(attributes := Some(difficulty.inner))
    {
      this.attributes := Some(difficulty.inner);
    }

    /** `map_attributes`: the beatmap converted to the mode set, if any, and
        the builder given the mode (and the conversion flag), the mods and
        the clock rate. */
    method MapAttributes(engine: OldEngine, beatmap: Beatmap) returns (r: MapAttributesRequest)
      ensures r == MapAttributesSpec(engine, Settings(), beatmap)
    {
      var converted: Beatmap, m: GameMode;
      if mode.Some? {
        converted, m := engine.convertMode(beatmap, mode.value), mode.value;
      } else {
        converted, m := beatmap, beatmap.mode;
      }
      var calls: seq<MapCall> := [];
      if mode.Some? {
        calls := calls + [MapMode(mode.value)];
        if converted.mode != mode.value && converted.mode == GameMode.Osu {
          calls := calls + [MapConverted(true)];
        }
      }
      if mods.Some? {
        calls := calls + [MapMods(mods.value)];
      }
      if clockRate.Some? {
        calls := calls + [MapClockRate(clockRate.value)];
      }
      return MapAttributesRequest(converted, calls, m);
    }

    /** `difficulty`: the star calculator on the beatmap, configured by
        `set_calc!`, its result wrapped. */
    method Difficulty(engine: OldEngine, beatmap: Beatmap) returns (r: DiffAttrs.PyDifficultyAttributes)
      ensures r == DiffAttrs.From(engine.stars(beatmap, StarsCalls(Settings())))
    {
      var calls := SetCalc([], StarsFields(Settings()));
      assert calls == StarsCalls(Settings());
      return DiffAttrs.From(engine.stars(beatmap, calls));
    }

    /** `performance`: the performance calculator on the beatmap, configured
        by `set_calc!`, then given the attributes and the accuracy. */
    method Performance(engine: OldEngine, beatmap: Beatmap) returns (r: PerfAttrs.PyPerformanceAttributes)
      ensures r == PerfAttrs.From(engine.pp(beatmap, PpCalls(Settings())))
    {
      var calls := SetCalc([], PpFields(Settings()));
      ghost var fields := Present(PpFields(Settings()));
      assert calls == fields;
      if attributes.Some? {
        calls := calls + [PpAttributes(attributes.value)];
      }
      if acc.Some? {
        calls := calls + [PpAccuracy(acc.value)];
      }
      assert calls == PpCalls(Settings());
      return PerfAttrs.From(engine.pp(beatmap, calls));
    }

    /** `strains`: the star calculator configured as for `difficulty`. */
    method Strains(beatmap: Beatmap) returns (calls: seq<StarsCall>)
      ensures calls == StarsCalls(Settings())
    {
      calls := SetCalc([], StarsFields(Settings()));
      assert calls == StarsCalls(Settings());
    }
  }

  /** `Calculator(**kwargs)`: the default calculator, then each keyword in
      turn; the first refused one is the result. */
  method New(kwargs: Option<Kwargs>) returns (r: Result<PyCalculator, PyErr>)
    ensures NewSpec(kwargs).Err? ==> r == Err(NewSpec(kwargs).error)
    ensures NewSpec(kwargs).Ok? ==> r.Ok? && fresh(r.value) && r.value.Settings() == NewSpec(kwargs).value
  {
    var calculator := new PyCalculator();
    if kwargs.None? {
      return Ok(calculator);
    }
    var kw := kwargs.value;
    var i := 0;
    while i < |kw|
      invariant 0 <= i <= |kw|
      invariant FoldKwargs(DEFAULT_SETTINGS, kw, Step) == FoldKwargs(calculator.Settings(), kw[i..], Step)
    {
      FoldKwargsAt(calculator.Settings(), kw, i, Step);
      var (key, value) := kw[i];
      var err := calculator.ApplyKwarg(key, value);
      if err.Some? {
        return Err(err.value);
      }
      i := i + 1;
    }
    return Ok(calculator);
  }
}
