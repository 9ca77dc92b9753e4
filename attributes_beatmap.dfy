// The Python `BeatmapAttributesBuilder` and `BeatmapAttributes`
// (src/attributes/beatmap.rs): a record of optional beatmap settings, filled
// from keyword arguments, a beatmap or setters, and turned into a configured
// builder of the scoring library when it is built.
module BeatmapAttributesBuilder {
  import opened Base
  import opened Errors
  import opened Python
  import opened ModsCatalog
  import opened Mods
  import opened Rosu
  import Mode

  /** The settings a `BeatmapAttributesBuilder` holds, field for field. */
  datatype BuilderSettings = BuilderSettings(
    mode: Option<Mode.PyGameMode>,
    isConvert: bool,
    mods: Option<PyObj>,
    clockRate: Option<Float>,
    ar: Option<Float>,
    arWithMods: bool,
    cs: Option<Float>,
    csWithMods: bool,
    hp: Option<Float>,
    hpWithMods: bool,
    od: Option<Float>,
    odWithMods: bool)

  /** The derived `Default`: nothing set, no flag raised. */
  const DEFAULT_SETTINGS: BuilderSettings :=
    BuilderSettings(None, false, None, None, None, false, None, false, None, false, None, false)

  /** `set_map`: the beatmap's mode, AR, CS, HP, OD and conversion flag;
      the mods, the clock rate and the `with_mods` flags stay as they are. */
  function WithMap(s: BuilderSettings, m: Beatmap): (r: BuilderSettings)
    ensures r.mode == Some(Mode.FromGameMode(m.mode)) && r.isConvert == m.isConvert
    ensures r.ar == Some(m.ar) && r.cs == Some(m.cs) && r.hp == Some(m.hp) && r.od == Some(m.od)
    ensures r.mods == s.mods && r.clockRate == s.clockRate
    ensures r.arWithMods == s.arWithMods && r.csWithMods == s.csWithMods
    ensures r.hpWithMods == s.hpWithMods && r.odWithMods == s.odWithMods
  {
    s.(mode := Some(Mode.FromGameMode(m.mode)), ar := Some(m.ar), cs := Some(m.cs),
       hp := Some(m.hp), od := Some(m.od), isConvert := m.isConvert)
  }

  // ---------------------------------------------------------------------
  // The keyword constructor.

  /** The message of the `ArgsError` for an unknown keyword. */
  function UnexpectedKwarg(key: string): string
  {
    "unexpected kwarg '" + key + "': expected 'map', 'mode', \n"
      + "'is_convert', 'mods', 'clock_rate', 'ar', 'ar_with_mods', \n"
      + "'cs', 'cs_with_mods', 'hp', 'hp_with_mods', 'od', \n"
      + "or 'od_with_mods'"
  }

  /** The message of the `TypeError` for a value of the wrong type. */
  function MustBe(key: string, what: string): string
  {
    "kwarg '" + key + "': must be " + what
  }

  /** The keywords whose value is a float. */
  const FLOAT_KEYS: set<string> := {"clock_rate", "ar", "cs", "hp", "od"}

  /** The keywords whose value is a bool. */
  const FLAG_KEYS: set<string> := {"is_convert", "ar_with_mods", "cs_with_mods", "hp_with_mods", "od_with_mods"}

  /** Every keyword the constructor knows. */
  const KNOWN_KEYS: set<string> := {"map", "mode", "mods"} + FLOAT_KEYS + FLAG_KEYS

  /** The object as `Option<Py<PyAny>>`: `None` is no object. */
  function OptionalObject(v: PyObj): Option<PyObj>
  {
    if v.PyNone? then None else Some(v)
  }

  /** A float setting given by keyword. */
  function SetFloat(s: BuilderSettings, key: string, x: Float): BuilderSettings
  {
    if key == "clock_rate" then s.(clockRate := Some(x))
    else if key == "ar" then s.(ar := Some(x))
    else if key == "cs" then s.(cs := Some(x))
    else if key == "hp" then s.(hp := Some(x))
    else s.(od := Some(x))
  }

  /** A flag given by keyword. */
  function SetFlag(s: BuilderSettings, key: string, b: bool): BuilderSettings
  {
    if key == "is_convert" then s.(isConvert := b)
    else if key == "ar_with_mods" then s.(arWithMods := b)
    else if key == "cs_with_mods" then s.(csWithMods := b)
    else if key == "hp_with_mods" then s.(hpWithMods := b)
    else s.(odWithMods := b)
  }

  /** One keyword argument: a beatmap for "map", a `GameMode` for "mode",
      any object (or `None`) for "mods", a float or a bool for the others;
      a value of the wrong type is a `TypeError` naming the keyword and
      what it must be, and an unknown keyword an `ArgsError` naming it. */
  function Step(s: BuilderSettings, key: string, v: PyObj): Result<BuilderSettings, PyErr>
  {
    if key == "map" then
      (if v.PyBeatmapObj? then Ok(WithMap(s, v.beatmap)) else Err(TypeError(MustBe(key, "a Beatmap"))))
    else if key == "mode" then
      (if v.PyGameModeObj? then Ok(s.(mode := Some(v.mode))) else Err(TypeError(MustBe(key, "a GameMode"))))
    else if key == "mods" then Ok(s.(mods := OptionalObject(v)))
    else OtherStep(s, key, v)
  }

  /** The keywords after "map", "mode" and "mods": the float settings, the
      flags, and the unknown ones. */
  function OtherStep(s: BuilderSettings, key: string, v: PyObj): Result<BuilderSettings, PyErr>
  {
    if key in FLOAT_KEYS then FloatStep(s, key, v)
    else if key in FLAG_KEYS then FlagStep(s, key, v)
    else Err(ArgsError(UnexpectedKwarg(key)))
  }

  /** A float setting's keyword: a float (or an int that fits one), else a
      `TypeError` naming the keyword. */
  function FloatStep(s: BuilderSettings, key: string, v: PyObj): Result<BuilderSettings, PyErr>
  {
    match ExtractFloat(v)
    case Err(_) => Err(TypeError(MustBe(key, "a float")))
    case Ok(x) => Ok(SetFloat(s, key, x))
  }

  /** A flag's keyword: a bool, else a `TypeError` naming the keyword. */
  function FlagStep(s: BuilderSettings, key: string, v: PyObj): Result<BuilderSettings, PyErr>
  {
    match ExtractBool(v)
    case Err(_) => Err(TypeError(MustBe(key, "a bool")))
    case Ok(b) => Ok(SetFlag(s, key, b))
  }

  /** The constructor's result: the default settings without keywords,
      else the keywords applied in order from the default settings. */
  function NewSpec(kwargs: Option<Kwargs>): Result<BuilderSettings, PyErr>
  {
    match kwargs
    case None => Ok(DEFAULT_SETTINGS)
    case Some(kw) => FoldKwargs(DEFAULT_SETTINGS, kw, Step)
  }

  /** An argument is refused exactly when its keyword is unknown (an
      `ArgsError`) or its value has the wrong type (a `TypeError` naming the
      keyword); "mods" takes anything. */
  lemma StepOutcome(s: BuilderSettings, key: string, v: PyObj)
    ensures key !in KNOWN_KEYS ==> Step(s, key, v) == Err(ArgsError(UnexpectedKwarg(key)))
    ensures key == "map" ==>
      Step(s, key, v) == if v.PyBeatmapObj? then Ok(WithMap(s, v.beatmap)) else Err(TypeError(MustBe(key, "a Beatmap")))
    ensures key == "mode" ==>
      Step(s, key, v) == if v.PyGameModeObj? then Ok(s.(mode := Some(v.mode))) else Err(TypeError(MustBe(key, "a GameMode")))
    ensures key == "mods" ==> Step(s, key, v) == Ok(s.(mods := if v.PyNone? then None else Some(v)))
    ensures key in FLOAT_KEYS ==> (Step(s, key, v).Ok? <==> v.PyFloat? || (IsInt(v) && FitsF64(IntValue(v))))
    ensures key in FLOAT_KEYS && Step(s, key, v).Err? ==> Step(s, key, v).error == TypeError(MustBe(key, "a float"))
    ensures key in FLAG_KEYS ==> (Step(s, key, v).Ok? <==> v.PyBool?)
    ensures key in FLAG_KEYS && Step(s, key, v).Err? ==> Step(s, key, v).error == TypeError(MustBe(key, "a bool"))
  {
  }

  /** A keyword naming a float setting, with a float or integer value, sets
      exactly that setting of the settings built so far; so a later keyword
      overwrites an earlier one. */
  lemma FloatKwargSets(kw: Kwargs, key: string, v: PyObj)
    requires NewSpec(Some(kw)).Ok?
    requires key in FLOAT_KEYS && ExtractFloat(v).Ok?
    ensures var before := NewSpec(Some(kw)).value;
      NewSpec(Some(kw + [(key, v)])) == Ok(SetFloat(before, key, ExtractFloat(v).value))
  {
    FoldKwargsSnoc(DEFAULT_SETTINGS, kw, key, v, Step);
  }

  /** A "map" keyword with a beatmap copies the beatmap's settings over the
      settings built so far. */
  lemma MapKwargCopiesMap(kw: Kwargs, m: Beatmap)
    requires NewSpec(Some(kw)).Ok?
    ensures NewSpec(Some(kw + [("map", PyBeatmapObj(m))])) == Ok(WithMap(NewSpec(Some(kw)).value, m))
  {
    FoldKwargsSnoc(DEFAULT_SETTINGS, kw, "map", PyBeatmapObj(m), Step);
  }

  /** A refused argument ends construction with its error, whatever
      follows. */
  lemma RefusedKwargIsFinal(kw: Kwargs, key: string, v: PyObj, rest: Kwargs)
    requires NewSpec(Some(kw)).Ok?
    requires Step(NewSpec(Some(kw)).value, key, v).Err?
    ensures NewSpec(Some(kw + [(key, v)] + rest)) == Err(Step(NewSpec(Some(kw)).value, key, v).error)
  {
    FoldKwargsSnoc(DEFAULT_SETTINGS, kw, key, v, Step);
    FoldKwargsAppend(DEFAULT_SETTINGS, kw + [(key, v)], rest, Step);
  }

  // ---------------------------------------------------------------------
  // `build`.

  /** The position of each kind of call in `build`. */
  function CallRank(c: BeatmapAttributesCall): nat
  {
    match c
    case BuildMods(_) => 0
    case BuildMode(_, _) => 1
    case BuildClockRate(_) => 2
    case BuildAr(_, _) => 3
    case BuildCs(_, _) => 4
    case BuildHp(_, _) => 5
    case BuildOd(_, _) => 6
  }

  /** The call of rank `k` the settings ask for: one call when its setting
      is set, none otherwise. */
  function Stage(s: BuilderSettings, k: nat): (r: seq<BeatmapAttributesCall>)
    ensures |r| <= 1 && (|r| == 1 ==> CallRank(r[0]) == k)
  {
    if k == 1 then (if s.mode.Some? then [BuildMode(Mode.ToGameMode(s.mode.value), s.isConvert)] else [])
    else if k == 2 then (if s.clockRate.Some? then [BuildClockRate(s.clockRate.value)] else [])
    else if k == 3 then (if s.ar.Some? then [BuildAr(s.ar.value, s.arWithMods)] else [])
    else if k == 4 then (if s.cs.Some? then [BuildCs(s.cs.value, s.csWithMods)] else [])
    else if k == 5 then (if s.hp.Some? then [BuildHp(s.hp.value, s.hpWithMods)] else [])
    else if k == 6 then (if s.od.Some? then [BuildOd(s.od.value, s.odWithMods)] else [])
    else []
  }

  /** The calls up to rank `k`: the mods, then each stage in turn. */
  function CallsUpTo(mods: PyGameMods, s: BuilderSettings, k: nat): (r: seq<BeatmapAttributesCall>)
    ensures |r| >= 1 && r[0] == BuildMods(mods)
  {
    if k == 0 then [BuildMods(mods)] else CallsUpTo(mods, s, k - 1) + Stage(s, k)
  }

  const LAST_RANK: nat := 6

  function BuildCalls(mods: PyGameMods, s: BuilderSettings): seq<BeatmapAttributesCall>
  {
    CallsUpTo(mods, s, LAST_RANK)
  }

  /** The mode the mods are resolved for: the mode set, else osu!. */
  function ModsMode(s: BuilderSettings): GameMode
  {
    Mode.ToGameMode(if s.mode.Some? then s.mode.value else Mode.DefaultMode())
  }

  /** The Python `BeatmapAttributes` record. */
  datatype PyBeatmapAttributes = PyBeatmapAttributes(
    ar: Float,
    od: Float,
    cs: Float,
    hp: Float,
    clockRate: Float,
    arHitWindow: Float,
    odGreatHitWindow: Float,
    odOkHitWindow: Option<Float>,
    odMehHitWindow: Option<Float>)

  /** `From<BeatmapAttributes> for PyBeatmapAttributes`: each attribute,
      hit windows included, is handed to Python under its own name. */
  function FromBeatmapAttributes(a: BeatmapAttributes): (r: PyBeatmapAttributes)
    ensures r.ar == a.ar && r.od == a.od && r.cs == a.cs && r.hp == a.hp
    ensures r.clockRate == a.clockRate
    ensures r.arHitWindow == a.hitWindows.ar && r.odGreatHitWindow == a.hitWindows.odGreat
    ensures r.odOkHitWindow == a.hitWindows.odOk && r.odMehHitWindow == a.hitWindows.odMeh
  {
    PyBeatmapAttributes(a.ar, a.od, a.cs, a.hp, a.clockRate,
                        a.hitWindows.ar, a.hitWindows.odGreat, a.hitWindows.odOk, a.hitWindows.odMeh)
  }

  /** The library's attributes a Python record stands for. */
  function ToBeatmapAttributes(p: PyBeatmapAttributes): BeatmapAttributes
  {
    BeatmapAttributes(p.ar, p.od, p.cs, p.hp, p.clockRate,
                      HitWindows(p.arHitWindow, p.odGreatHitWindow, p.odOkHitWindow, p.odMehHitWindow))
  }

  /** The conversion loses nothing, and every record is the conversion of
      some attributes. */
  lemma FromBeatmapAttributesBijective(a: BeatmapAttributes, p: PyBeatmapAttributes)
    ensures ToBeatmapAttributes(FromBeatmapAttributes(a)) == a
    ensures FromBeatmapAttributes(ToBeatmapAttributes(p)) == p
  {
  }

  /** `build`: a mods resolution error is the result, else the attributes
      the configured builder produces. */
  function BuildSpec(cat: Catalog, engine: Engine, s: BuilderSettings): Result<PyBeatmapAttributes, PyErr>
  {
    match Resolve(cat, ModsMode(s), s.mods)
    case Err(e) => Err(e)
    case Ok(mods) => Ok(FromBeatmapAttributes(engine.buildAttributes(BuildCalls(mods, s))))
  }

  /** Calls made in rank order, each kind at most once. */
  predicate Ordered(calls: seq<BeatmapAttributesCall>)
  {
    forall i, j :: 0 <= i < j < |calls| ==> CallRank(calls[i]) < CallRank(calls[j])
  }

  /** The calls up to rank `k` are in rank order. */
  lemma {:induction false} CallsUpToOrdered(mods: PyGameMods, s: BuilderSettings, k: nat)
    ensures Ordered(CallsUpTo(mods, s, k))
    ensures forall i :: 0 <= i < |CallsUpTo(mods, s, k)| ==> CallRank(CallsUpTo(mods, s, k)[i]) <= k
  {
    if k > 0 {
      CallsUpToOrdered(mods, s, k - 1);
      assert CallsUpTo(mods, s, k) == CallsUpTo(mods, s, k - 1) + Stage(s, k);
    }
  }

  /** The calls up to rank `k` hold a call exactly when it is the mods or
      the call its rank's setting asks for. */
  lemma {:induction false} CallsUpToMembers(mods: PyGameMods, s: BuilderSettings, k: nat)
    ensures forall c :: c in CallsUpTo(mods, s, k) <==>
      c == BuildMods(mods) || (1 <= CallRank(c) <= k && Stage(s, CallRank(c)) == [c])
  {
    if k > 0 {
      CallsUpToMembers(mods, s, k - 1);
      var prev := CallsUpTo(mods, s, k - 1);
      var st := Stage(s, k);
      assert CallsUpTo(mods, s, k) == prev + st;
      forall c
        ensures c in prev + st <==> c == BuildMods(mods) || (1 <= CallRank(c) <= k && Stage(s, CallRank(c)) == [c])
      {
        if c in st {
          assert c == st[0];
        }
      }
    }
  }

  /** `build` fails exactly when the mods do not resolve for the mode set
      (osu! when none is), with that error; the builder is given the mods
      first and the other calls in rank order. */
  lemma BuildOutcome(cat: Catalog, engine: Engine, s: BuilderSettings)
    ensures BuildSpec(cat, engine, s).Err? <==> Resolve(cat, ModsMode(s), s.mods).Err?
    ensures BuildSpec(cat, engine, s).Err? ==> BuildSpec(cat, engine, s).error == Resolve(cat, ModsMode(s), s.mods).error
    ensures s.mode.None? ==> ModsMode(s) == GameMode.Osu
    ensures Resolve(cat, ModsMode(s), s.mods).Ok? ==>
      var calls := BuildCalls(Resolve(cat, ModsMode(s), s.mods).value, s);
      calls[0] == BuildMods(Resolve(cat, ModsMode(s), s.mods).value) && Ordered(calls)
  {
    if Resolve(cat, ModsMode(s), s.mods).Ok? {
      CallsUpToOrdered(Resolve(cat, ModsMode(s), s.mods).value, s, LAST_RANK);
    }
  }

  /** The mode is passed to the builder, with the conversion flag, exactly
      when one is set; each other setting that is set is passed with its
      flag, and one that is not set is not. */
  lemma BuildAppliesSettings(mods: PyGameMods, s: BuilderSettings)
    ensures var calls := BuildCalls(mods, s);
      && (forall m, b :: BuildMode(m, b) in calls <==> s.mode.Some? && m == Mode.ToGameMode(s.mode.value) && b == s.isConvert)
      && (forall x :: BuildClockRate(x) in calls <==> s.clockRate == Some(x))
      && (forall x, w :: BuildAr(x, w) in calls <==> s.ar == Some(x) && w == s.arWithMods)
  {
    CallsUpToMembers(mods, s, LAST_RANK);
  }

  /** As `BuildAppliesSettings`, for CS, HP and OD. */
  lemma BuildAppliesMoreSettings(mods: PyGameMods, s: BuilderSettings)
    ensures var calls := BuildCalls(mods, s);
      && (forall x, w :: BuildCs(x, w) in calls <==> s.cs == Some(x) && w == s.csWithMods)
      && (forall x, w :: BuildHp(x, w) in calls <==> s.hp == Some(x) && w == s.hpWithMods)
      && (forall x, w :: BuildOd(x, w) in calls <==> s.od == Some(x) && w == s.odWithMods)
  {
    CallsUpToMembers(mods, s, LAST_RANK);
  }

  // ---------------------------------------------------------------------
  // The Python class.

  class PyBeatmapAttributesBuilder {
    var mode: Option<Mode.PyGameMode>
    var isConvert: bool
    var mods: Option<PyObj>
    var clockRate: Option<Float>
    var ar: Option<Float>
    var arWithMods: bool
    var cs: Option<Float>
    var csWithMods: bool
    var hp: Option<Float>
    var hpWithMods: bool
    var od: Option<Float>
    var odWithMods: bool

    /** The object's settings as a value. */
    function Settings(): BuilderSettings
      reads this
    {
      BuilderSettings(mode, isConvert, mods, clockRate, ar, arWithMods, cs, csWithMods,
                      hp, hpWithMods, od, odWithMods)
    }

    /** `Self::default()`. */
    constructor ()
      ensures Settings() == DEFAULT_SETTINGS
    {
      mode, isConvert, mods, clockRate := None, false, None, None;
      ar, arWithMods, cs, csWithMods := None, false, None, false;
      hp, hpWithMods, od, odWithMods := None, false, None, false;
    }

    /** One turn of the keyword loop of `new`. */
    method ApplyKwarg(key: string, value: PyObj) returns (err: Option<PyErr>)
      modifies this
      ensures Step(old(Settings()), key, value).Err? ==> err == Some(Step(old(Settings()), key, value).error)
      ensures Step(old(Settings()), key, value).Ok? ==> err.None? && Settings() == Step(old(Settings()), key, value).value
    {
      if key == "map" {
        if !value.PyBeatmapObj? {
          return Some(TypeError(MustBe(key, "a Beatmap")));
        }
        SetMap(value.beatmap);
      } else if key == "mode" {
        if !value.PyGameModeObj? {
          return Some(TypeError(MustBe(key, "a GameMode")));
        }
        mode := Some(value.mode);
      } else if key == "mods" {
        mods := OptionalObject(value);
      } else {
        err := ApplyOtherKwarg(key, value);
        return;
      }
      return None;
    }

    /** The keyword loop's turn for the keywords `OtherStep` covers. */
    method ApplyOtherKwarg(key: string, value: PyObj) returns (err: Option<PyErr>)
      modifies this
      ensures OtherStep(old(Settings()), key, value).Err? ==> err == Some(OtherStep(old(Settings()), key, value).error)
      ensures OtherStep(old(Settings()), key, value).Ok? ==> err.None? && Settings() == OtherStep(old(Settings()), key, value).value
    {
      ghost var before := Settings();
      if key in FLOAT_KEYS {
        assert OtherStep(before, key, value) == FloatStep(before, key, value);
        err := ApplyFloatKwarg(key, value);
      } else if key in FLAG_KEYS {
        assert OtherStep(before, key, value) == FlagStep(before, key, value);
        err := ApplyFlagKwarg(key, value);
      } else {
        err := Some(ArgsError(UnexpectedKwarg(key)));
      }
    }

    /** The keyword loop's turn for a float setting. */
    method ApplyFloatKwarg(key: string, value: PyObj) returns (err: Option<PyErr>)
      modifies this
      ensures FloatStep(old(Settings()), key, value).Err? ==> err == Some(FloatStep(old(Settings()), key, value).error)
      ensures FloatStep(old(Settings()), key, value).Ok? ==> err.None? && Settings() == FloatStep(old(Settings()), key, value).value
    {
      var x := ExtractFloat(value);
      if x.Err? {
        return Some(TypeError(MustBe(key, "a float")));
      }
      if key == "clock_rate" {
        clockRate := Some(x.value);
      } else if key == "ar" {
        ar := Some(x.value);
      } else if key == "cs" {
        cs := Some(x.value);
      } else if key == "hp" {
        hp := Some(x.value);
      } else {
        od := Some(x.value);
      }
      return None;
    }

    /** The keyword loop's turn for a flag. */
    method ApplyFlagKwarg(key: string, value: PyObj) returns (err: Option<PyErr>)
      modifies this
      ensures FlagStep(old(Settings()), key, value).Err? ==> err == Some(FlagStep(old(Settings()), key, value).error)
      ensures FlagStep(old(Settings()), key, value).Ok? ==> err.None? && Settings() == FlagStep(old(Settings()), key, value).value
    {
      var b := ExtractBool(value);
      if b.Err? {
        return Some(TypeError(MustBe(key, "a bool")));
      }
      if key == "is_convert" {
        isConvert := b.value;
      } else if key == "ar_with_mods" {
        arWithMods := b.value;
      } else if key == "cs_with_mods" {
        csWithMods := b.value;
      } else if key == "hp_with_mods" {
        hpWithMods := b.value;
      } else {
        odWithMods := b.value;
      }
      return None;
    }

    method SetMap(m: Beatmap)
      modifies this
      ensures Settings() == WithMap(old(Settings()), m)
    {
      mode := Some(Mode.FromGameMode(m.mode));
      ar := Some(m.ar);
      cs := Some(m.cs);
      hp := Some(m.hp);
      od := Some(m.od);
      isConvert := m.isConvert;
    }

    method SetMode(mode: Option<Mode.PyGameMode>, isConvert: bool)
      modifies this
      ensures Settings() == old(Settings()).(mode := mode, isConvert := isConvert)
    {
      this.mode := mode;
      this.isConvert := isConvert;
    }

    method SetMods(mods: Option<PyObj>)
      modifies this
      ensures Settings() == old(Settings()).(mods := mods)
    {
      this.mods := mods;
    }

    method SetClockRate(clockRate: Option<Float>)
      modifies this
      ensures Settings() == old(Settings()).(clockRate := clockRate)
    {
      this.clockRate := clockRate;
    }

    method SetAr(ar: Option<Float>, arWithMods: bool)
      modifies this
      ensures Settings() == old(Settings()).(ar := ar, arWithMods := arWithMods)
    {
      this.ar := ar;
      this.arWithMods := arWithMods;
    }

    method SetCs(cs: Option<Float>, csWithMods: bool)
      modifies this
      ensures Settings() == old(Settings()).(cs := cs, csWithMods := csWithMods)
    {
      this.cs := cs;
      this.csWithMods := csWithMods;
    }

    method SetHp(hp: Option<Float>, hpWithMods: bool)
      modifies this
      ensures Settings() == old(Settings()).(hp := hp, hpWithMods := hpWithMods)
    {
      this.hp := hp;
      this.hpWithMods := hpWithMods;
    }

    method SetOd(od: Option<Float>, odWithMods: bool)
      modifies this
      ensures Settings() == old(Settings()).(od := od, odWithMods := odWithMods)
    {
      this.od := od;
      this.odWithMods := odWithMods;
    }

    /** `build`: the mods resolved for the mode set (osu! when none is),
        then the settings that are set, then the library's attributes. */
    method Build(cat: Catalog, engine: Engine) returns (r: Result<PyBeatmapAttributes, PyErr>)
      ensures r == BuildSpec(cat, engine, Settings())
    {
      var resolved := Extract(cat, Mode.ToGameMode(if mode.Some? then mode.value else Mode.DefaultMode()), mods);
      if resolved.Err? {
        return Err(resolved.error);
      }
      var builder := BuildModeAndRates(resolved.value);
      return Ok(FromBeatmapAttributes(engine.buildAttributes(builder)));
    }

    /** The mods, mode, clock rate and AR steps of `build`. */
    method BuildModeAndRates(resolved: PyGameMods) returns (builder: seq<BeatmapAttributesCall>)
      ensures builder == BuildCalls(resolved, Settings())
    {
      ghost var s := Settings();
      builder := [BuildMods(resolved)];
      if mode.Some? {
        builder := builder + [BuildMode(Mode.ToGameMode(mode.value), isConvert)];
      }
      assert builder == CallsUpTo(resolved, s, 1);
      if clockRate.Some? {
        builder := builder + [BuildClockRate(clockRate.value)];
      }
      assert builder == CallsUpTo(resolved, s, 2);
      if ar.Some? {
        builder := builder + [BuildAr(ar.value, arWithMods)];
      }
      builder := BuildDimensions(resolved, builder);
    }

    /** The CS, HP and OD steps of `build`. */
    method BuildDimensions(ghost resolved: PyGameMods, prefix: seq<BeatmapAttributesCall>) returns (builder: seq<BeatmapAttributesCall>)
      requires prefix == CallsUpTo(resolved, Settings(), 3)
      ensures builder == BuildCalls(resolved, Settings())
    {
      ghost var s := Settings();
      builder := prefix;
      if cs.Some? {
        builder := builder + [BuildCs(cs.value, csWithMods)];
      }
      assert builder == CallsUpTo(resolved, s, 4);
      if hp.Some? {
        builder := builder + [BuildHp(hp.value, hpWithMods)];
      }
      assert builder == CallsUpTo(resolved, s, 5);
      if od.Some? {
        builder := builder + [BuildOd(od.value, odWithMods)];
      }
    }
  }

  /** `BeatmapAttributesBuilder(**kwargs)`: the default builder, then each
      keyword in turn; the first refused one is the result. */
  method New(kwargs: Option<Kwargs>) returns (r: Result<PyBeatmapAttributesBuilder, PyErr>)
    ensures NewSpec(kwargs).Err? ==> r == Err(NewSpec(kwargs).error)
    ensures NewSpec(kwargs).Ok? ==> r.Ok? && fresh(r.value) && r.value.Settings() == NewSpec(kwargs).value
  {
    var builder := new PyBeatmapAttributesBuilder();
    if kwargs.None? {
      return Ok(builder);
    }
    var kw := kwargs.value;
    var i := 0;
    while i < |kw|
      invariant 0 <= i <= |kw|
      invariant FoldKwargs(DEFAULT_SETTINGS, kw, Step) == FoldKwargs(builder.Settings(), kw[i..], Step)
    {
      FoldKwargsAt(builder.Settings(), kw, i, Step);
      var (key, value) := kw[i];
      var err := builder.ApplyKwarg(key, value);
      if err.Some? {
        return Err(err.value);
      }
      i := i + 1;
    }
    return Ok(builder);
  }
}
