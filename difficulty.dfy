// The Python `Difficulty` calculator (src/difficulty.rs): a record of
// optional settings with setters, turned into a configured
// `rosu_pp::Difficulty` when a beatmap is calculated.
module Difficulty {
  import opened Base
  import opened Errors
  import opened Python
  import opened ModsCatalog
  import opened Mods
  import opened Rosu
  import DA = DifficultyAttributes
  import ST = Strains

  /** The settings a `Difficulty` holds, field for field. */
  datatype DifficultySettings = DifficultySettings(
    mods: Option<PyObj>,
    clockRate: Option<Float>,
    ar: Option<Float>,
    arWithMods: bool,
    cs: Option<Float>,
    csWithMods: bool,
    hp: Option<Float>,
    hpWithMods: bool,
    od: Option<Float>,
    odWithMods: bool,
    passedObjects: Option<U32>,
    hardrockOffsets: Option<bool>,
    lazer: Option<bool>)

  /** The derived `Default`: nothing set, no flag raised. */
  const DEFAULT_SETTINGS: DifficultySettings :=
    DifficultySettings(None, None, None, false, None, false, None, false, None, false, None, None, None)

  // ---------------------------------------------------------------------
  // The calls `as_difficulty` makes on the builder.

  /** The position of each kind of call in `as_difficulty`. */
  function CallRank(c: DifficultyCall): nat
  {
    match c
    case WithMods(_) => 0
    case PassedObjects(_) => 1
    case ClockRate(_) => 2
    case Ar(_, _) => 3
    case Cs(_, _) => 4
    case Hp(_, _) => 5
    case Od(_, _) => 6
    case HardrockOffsets(_) => 7
    case IsLazer(_) => 8
  }

  /** The call of rank `k` the settings ask for: one call when its setting
      is set, none otherwise (the mods, rank 0, are always set). */
  function Stage(s: DifficultySettings, k: nat): (r: seq<DifficultyCall>)
    ensures |r| <= 1 && (|r| == 1 ==> CallRank(r[0]) == k)
  {
    if k == 1 then (if s.passedObjects.Some? then [PassedObjects(s.passedObjects.value)] else [])
    else if k == 2 then (if s.clockRate.Some? then [ClockRate(s.clockRate.value)] else [])
    else if k == 3 then (if s.ar.Some? then [Ar(s.ar.value, s.arWithMods)] else [])
    else if k == 4 then (if s.cs.Some? then [Cs(s.cs.value, s.csWithMods)] else [])
    else if k == 5 then (if s.hp.Some? then [Hp(s.hp.value, s.hpWithMods)] else [])
    else if k == 6 then (if s.od.Some? then [Od(s.od.value, s.odWithMods)] else [])
    else if k == 7 then (if s.hardrockOffsets.Some? then [HardrockOffsets(s.hardrockOffsets.value)] else [])
    else if k == 8 then (if s.lazer.Some? then [IsLazer(s.lazer.value)] else [])
    else []
  }

  /** The calls up to rank `k`: the mods, then each stage in turn. */
  function CallsUpTo(mods: PyGameMods, s: DifficultySettings, k: nat): (r: seq<DifficultyCall>)
    ensures |r| >= 1 && r[0] == WithMods(mods)
  {
    if k == 0 then [WithMods(mods)] else CallsUpTo(mods, s, k - 1) + Stage(s, k)
  }

  const LAST_RANK: nat := 8

  /** The calls once the mods are resolved. */
  function DifficultyCalls(mods: PyGameMods, s: DifficultySettings): seq<DifficultyCall>
  {
    CallsUpTo(mods, s, LAST_RANK)
  }

  /** `as_difficulty` for maps of mode `mode`: a mods resolution error is
      the result, else the configured builder. */
  function AsDifficultySpec(cat: Catalog, mode: GameMode, s: DifficultySettings): Result<seq<DifficultyCall>, PyErr>
  {
    match Resolve(cat, mode, s.mods)
    case Err(e) => Err(e)
    case Ok(mods) => Ok(DifficultyCalls(mods, s))
  }

  /** Calls made in rank order, each kind at most once. */
  predicate Ordered(calls: seq<DifficultyCall>)
  {
    forall i, j :: 0 <= i < j < |calls| ==> CallRank(calls[i]) < CallRank(calls[j])
  }

  /** The calls up to rank `k` are in rank order, none above rank `k`. */
  lemma {:induction false} CallsUpToOrdered(mods: PyGameMods, s: DifficultySettings, k: nat)
    ensures Ordered(CallsUpTo(mods, s, k))
    ensures forall i :: 0 <= i < |CallsUpTo(mods, s, k)| ==> CallRank(CallsUpTo(mods, s, k)[i]) <= k
  {
    if k > 0 {
      CallsUpToOrdered(mods, s, k - 1);
      var prev := CallsUpTo(mods, s, k - 1);
      assert CallsUpTo(mods, s, k) == prev + Stage(s, k);
    }
  }

  /** The calls up to rank `k` hold a call exactly when it is the mods or
      the call its rank's setting asks for. */
  lemma {:induction false} CallsUpToMembers(mods: PyGameMods, s: DifficultySettings, k: nat)
    ensures forall c :: c in CallsUpTo(mods, s, k) <==>
      c == WithMods(mods) || (1 <= CallRank(c) <= k && Stage(s, CallRank(c)) == [c])
  {
    if k > 0 {
      CallsUpToMembers(mods, s, k - 1);
      var prev := CallsUpTo(mods, s, k - 1);
      var st := Stage(s, k);
      assert CallsUpTo(mods, s, k) == prev + st;
      forall c
        ensures c in prev + st <==> c == WithMods(mods) || (1 <= CallRank(c) <= k && Stage(s, CallRank(c)) == [c])
      {
        if c in st {
          assert c == st[0];
        }
      }
    }
  }

  /** Without any setting, the builder only receives the mods. */
  lemma {:induction false} CallsUpToDefault(mods: PyGameMods, k: nat)
    ensures CallsUpTo(mods, DEFAULT_SETTINGS, k) == [WithMods(mods)]
  {
    if k > 0 {
      CallsUpToDefault(mods, k - 1);
      assert Stage(DEFAULT_SETTINGS, k) == [];
    }
  }

  /** `as_difficulty` resolves the mods first and fails exactly when that
      fails, with its error; it then calls the builder with the mods first
      and the other calls in rank order. */
  lemma AsDifficultyModsFirst(cat: Catalog, mode: GameMode, s: DifficultySettings)
    ensures AsDifficultySpec(cat, mode, s).Err? <==> Resolve(cat, mode, s.mods).Err?
    ensures AsDifficultySpec(cat, mode, s).Err? ==> AsDifficultySpec(cat, mode, s).error == Resolve(cat, mode, s.mods).error
    ensures AsDifficultySpec(cat, mode, s).Ok? ==>
      && AsDifficultySpec(cat, mode, s).value[0] == WithMods(Resolve(cat, mode, s.mods).value)
      && Ordered(AsDifficultySpec(cat, mode, s).value)
  {
    if Resolve(cat, mode, s.mods).Ok? {
      CallsUpToOrdered(Resolve(cat, mode, s.mods).value, s, LAST_RANK);
    }
  }

  /** Each setting that is set is passed to the builder, with its flag, and
      a setting that is not set is not. */
  lemma AsDifficultyAppliesSettings(mods: PyGameMods, s: DifficultySettings)
    ensures var calls := DifficultyCalls(mods, s);
      && (forall n: U32 :: PassedObjects(n) in calls <==> s.passedObjects == Some(n))
      && (forall x :: ClockRate(x) in calls <==> s.clockRate == Some(x))
      && (forall x, w :: Ar(x, w) in calls <==> s.ar == Some(x) && w == s.arWithMods)
      && (forall x, w :: Cs(x, w) in calls <==> s.cs == Some(x) && w == s.csWithMods)
  {
    CallsUpToMembers(mods, s, LAST_RANK);
  }

  /** As `AsDifficultyAppliesSettings`, for the remaining settings. */
  lemma AsDifficultyAppliesMoreSettings(mods: PyGameMods, s: DifficultySettings)
    ensures var calls := DifficultyCalls(mods, s);
      && (forall x, w :: Hp(x, w) in calls <==> s.hp == Some(x) && w == s.hpWithMods)
      && (forall x, w :: Od(x, w) in calls <==> s.od == Some(x) && w == s.odWithMods)
      && (forall b :: HardrockOffsets(b) in calls <==> s.hardrockOffsets == Some(b))
      && (forall b :: IsLazer(b) in calls <==> s.lazer == Some(b))
  {
    CallsUpToMembers(mods, s, LAST_RANK);
  }

  /** Without any setting, the builder only receives the default (no) mods. */
  lemma DefaultOnlyMods(cat: Catalog, mode: GameMode)
    ensures AsDifficultySpec(cat, mode, DEFAULT_SETTINGS) == Ok([WithMods(Legacy(NO_MOD))])
  {
    CallsUpToDefault(Legacy(NO_MOD), LAST_RANK);
  }

  // ---------------------------------------------------------------------
  // The Python class.

  class PyDifficulty {
    var mods: Option<PyObj>
    var clockRate: Option<Float>
    var ar: Option<Float>
    var arWithMods: bool
    var cs: Option<Float>
    var csWithMods: bool
    var hp: Option<Float>
    var hpWithMods: bool
    var od: Option<Float>
    var odWithMods: bool
    var passedObjects: Option<U32>
    var hardrockOffsets: Option<bool>
    var lazer: Option<bool>

    /** The object's settings as a value. */
    function Settings(): DifficultySettings
      reads this
    {
      DifficultySettings(mods, clockRate, ar, arWithMods, cs, csWithMods, hp, hpWithMods,
                         od, odWithMods, passedObjects, hardrockOffsets, lazer)
    }

    /** `Difficulty()` without keywords: the default settings. */
    constructor ()
      ensures Settings() == DEFAULT_SETTINGS
    {
      mods, clockRate, ar, arWithMods := None, None, None, false;
      cs, csWithMods, hp, hpWithMods := None, false, None, false;
      od, odWithMods := None, false;
      passedObjects, hardrockOffsets, lazer := None, None, None;
    }

    /** A `Difficulty` with the given settings (how the other classes build
        one). */
    constructor FromSettings(s: DifficultySettings)
      ensures Settings() == s
    {
      mods, clockRate, ar, arWithMods := s.mods, s.clockRate, s.ar, s.arWithMods;
      cs, csWithMods, hp, hpWithMods := s.cs, s.csWithMods, s.hp, s.hpWithMods;
      od, odWithMods := s.od, s.odWithMods;
      passedObjects, hardrockOffsets, lazer := s.passedObjects, s.hardrockOffsets, s.lazer;
    }

    method SetMods(mods: Option<PyObj>)
      modifies this
      ensures Settings() == old(Settings()).(mods := mods)
    {
      this.mods := mods;
    }

    method SetLazer(lazer: Option<bool>)
      modifies this
      ensures Settings() == old(Settings()).(lazer := lazer)
    {
      this.lazer := lazer;
    }

    method SetClockRate(clockRate: Option<Float>)
      modifies this
      ensures Settings() == old(Settings()).(clockRate := clockRate)
    {
      this.clockRate := clockRate;
    }

    method SetAr(ar: Option<Float>, arWithMods: bool)
      modifies this
      ensures Settings() == old(Settings()).(ar := ar, arWithMods := arWithMods)
    {
      this.ar := ar;
      this.arWithMods := arWithMods;
    }

    method SetCs(cs: Option<Float>, csWithMods: bool)
      modifies this
      ensures Settings() == old(Settings()).(cs := cs, csWithMods := csWithMods)
    {
      this.cs := cs;
      this.csWithMods := csWithMods;
    }

    method SetHp(hp: Option<Float>, hpWithMods: bool)
      modifies this
      ensures Settings() == old(Settings()).(hp := hp, hpWithMods := hpWithMods)
    {
      this.hp := hp;
      this.hpWithMods := hpWithMods;
    }

    method SetOd(od: Option<Float>, odWithMods: bool)
      modifies this
      ensures Settings() == old(Settings()).(od := od, odWithMods := odWithMods)
    {
      this.od := od;
      this.odWithMods := odWithMods;
    }

    method SetPassedObjects(passedObjects: Option<U32>)
      modifies this
      ensures Settings() == old(Settings()).(passedObjects := passedObjects)
    {
      this.passedObjects := passedObjects;
    }

    method SetHardrockOffsets(hardrockOffsets: Option<bool>)
      modifies this
      ensures Settings() == old(Settings()).(hardrockOffsets := hardrockOffsets)
    {
      this.hardrockOffsets := hardrockOffsets;
    }

    /** `as_difficulty`: the mods are resolved first, and an error there is
        the result; then the builder is given the settings. */
    method AsDifficulty(cat: Catalog, mode: GameMode) returns (r: Result<seq<DifficultyCall>, PyErr>)
      ensures r == AsDifficultySpec(cat, mode, Settings())
    {
      var resolved := Extract(cat, mode, mods);
      if resolved.Err? {
        return Err(resolved.error);
      }
      var difficulty := ApplySettings(resolved.value);
      return Ok(difficulty);
    }

    /** The rest of `as_difficulty`: the builder, given the mods, is
        reassigned with each setting that is set, step by step (the
        settings up to CS here, the others in `ApplyLaterSettings`). */
    method ApplySettings(resolved: PyGameMods) returns (difficulty: seq<DifficultyCall>)
      ensures difficulty == DifficultyCalls(resolved, Settings())
    {
      ghost var s := Settings();
      difficulty := [WithMods(resolved)];
      if passedObjects.Some? {
        difficulty := difficulty + [PassedObjects(passedObjects.value)];
      }
      assert difficulty == CallsUpTo(resolved, s, 1);
      if clockRate.Some? {
        difficulty := difficulty + [ClockRate(clockRate.value)];
      }
      assert difficulty == CallsUpTo(resolved, s, 2);
      if ar.Some? {
        difficulty := difficulty + [Ar(ar.value, arWithMods)];
      }
      assert difficulty == CallsUpTo(resolved, s, 3);
      if cs.Some? {
        difficulty := difficulty + [Cs(cs.value, csWithMods)];
      }
      difficulty := ApplyLaterSettings(resolved, difficulty);
    }

    /** The HP, OD, hardrock-offsets and lazer steps of `as_difficulty`. */
    method ApplyLaterSettings(ghost resolved: PyGameMods, calls: seq<DifficultyCall>) returns (difficulty: seq<DifficultyCall>)
      requires calls == CallsUpTo(resolved, Settings(), 4)
      ensures difficulty == DifficultyCalls(resolved, Settings())
    {
      ghost var s := Settings();
      difficulty := calls;
      if hp.Some? {
        difficulty := difficulty + [Hp(hp.value, hpWithMods)];
      }
      assert difficulty == CallsUpTo(resolved, s, 5);
      if od.Some? {
        difficulty := difficulty + [Od(od.value, odWithMods)];
      }
      assert difficulty == CallsUpTo(resolved, s, 6);
      if hardrockOffsets.Some? {
        difficulty := difficulty + [HardrockOffsets(hardrockOffsets.value)];
      }
      assert difficulty == CallsUpTo(resolved, s, 7);
      if lazer.Some? {
        difficulty := difficulty + [IsLazer(lazer.value)];
      }
    }

    /** `calculate`: the mods are resolved for the beatmap's own mode, and
        the attributes computed are converted to the Python record. */
    method Calculate(cat: Catalog, engine: Engine, beatmap: Beatmap) returns (r: Result<DA.PyDifficultyAttributes, PyErr>)
      ensures AsDifficultySpec(cat, beatmap.mode, Settings()).Err? ==>
        r == Err(AsDifficultySpec(cat, beatmap.mode, Settings()).error)
      ensures AsDifficultySpec(cat, beatmap.mode, Settings()).Ok? ==>
        r == Ok(DA.FromAttributes(engine.calculate(AsDifficultySpec(cat, beatmap.mode, Settings()).value, beatmap)))
    {
      var difficulty := AsDifficulty(cat, beatmap.mode);
      if difficulty.Err? {
        return Err(difficulty.error);
      }
      return Ok(DA.FromAttributes(engine.calculate(difficulty.value, beatmap)));
    }

    /** `strains`: as `calculate`, for the strains. */
    method Strains(cat: Catalog, engine: Engine, beatmap: Beatmap) returns (r: Result<ST.PyStrains, PyErr>)
      ensures AsDifficultySpec(cat, beatmap.mode, Settings()).Err? ==>
        r == Err(AsDifficultySpec(cat, beatmap.mode, Settings()).error)
      ensures AsDifficultySpec(cat, beatmap.mode, Settings()).Ok? ==>
        r == Ok(ST.FromStrains(engine.strains(AsDifficultySpec(cat, beatmap.mode, Settings()).value, beatmap)))
    {
      var difficulty := AsDifficulty(cat, beatmap.mode);
      if difficulty.Err? {
        return Err(difficulty.error);
      }
      return Ok(ST.FromStrains(engine.strains(difficulty.value, beatmap)));
    }
  }
}
