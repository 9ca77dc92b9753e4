// The Python `Performance` calculator (src/performance.rs): the difficulty
// settings of a `Difficulty` plus the score to evaluate, turned into a
// configured `rosu_pp::Performance` when the performance is calculated.
module PerformanceCalculator {
  import opened Base
  import opened Errors
  import opened Python
  import opened ModsCatalog
  import opened Mods
  import opened Rosu
  import Mode
  import DF = Difficulty
  import DA = DifficultyAttributes
  import PA = PerformanceAttributes
  import SS = ScoreState

  /** The Python enum `HitResultPriority`. */
  datatype PyHitResultPriority = BestCase | WorstCase | Fastest

  /** The derived `Default`. */
  const DEFAULT_PRIORITY: PyHitResultPriority := PyHitResultPriority.BestCase

  /** `From<PyHitResultPriority> for HitResultPriority`: variant for variant. */
  function ToHitResultPriority(p: PyHitResultPriority): (r: HitResultPriority)
  {
    match p
    case BestCase => HitResultPriority.BestCase
    case WorstCase => HitResultPriority.WorstCase
    case Fastest => HitResultPriority.Fastest
  }

  /** The library's priority as the Python enum, variant for variant. */
  function FromHitResultPriority(h: HitResultPriority): PyHitResultPriority
  {
    match h
    case BestCase => PyHitResultPriority.BestCase
    case WorstCase => PyHitResultPriority.WorstCase
    case Fastest => PyHitResultPriority.Fastest
  }

  /** The conversion is a bijection, and the default maps to the default. */
  lemma PriorityConversionBijective(p: PyHitResultPriority, h: HitResultPriority)
    ensures FromHitResultPriority(ToHitResultPriority(p)) == p
    ensures ToHitResultPriority(FromHitResultPriority(h)) == h
    ensures ToHitResultPriority(DEFAULT_PRIORITY) == HitResultPriority.BestCase
  {
  }

  /** The settings a `Performance` holds, field for field. */
  datatype PerformanceSettings = PerformanceSettings(
    mods: Option<PyObj>,
    clockRate: Option<Float>,
    ar: Option<Float>,
    arWithMods: bool,
    cs: Option<Float>,
    csWithMods: bool,
    hp: Option<Float>,
    hpWithMods: bool,
    od: Option<Float>,
    odWithMods: bool,
    passedObjects: Option<U32>,
    hardrockOffsets: Option<bool>,
    lazer: Option<bool>,
    accuracy: Option<Float>,
    combo: Option<U32>,
    largeTickHits: Option<U32>,
    smallTickHits: Option<U32>,
    sliderEndHits: Option<U32>,
    nGeki: Option<U32>,
    nKatu: Option<U32>,
    n300: Option<U32>,
    n100: Option<U32>,
    n50: Option<U32>,
    misses: Option<U32>,
    hitresultPriority: PyHitResultPriority)

  /** The derived `Default`: nothing set, no flag raised, best case first. */
  const DEFAULT_SETTINGS: PerformanceSettings := PerformanceSettings(
    None, None, None, false, None, false, None, false, None, false, None, None, None,
    None, None, None, None, None, None, None, None, None, None, None, DEFAULT_PRIORITY)

  /** The thirteen settings a `Performance` shares with a `Difficulty`. */
  function DifficultyPart(s: PerformanceSettings): DF.DifficultySettings
  {
    DF.DifficultySettings(s.mods, s.clockRate, s.ar, s.arWithMods, s.cs, s.csWithMods,
                          s.hp, s.hpWithMods, s.od, s.odWithMods, s.passedObjects,
                          s.hardrockOffsets, s.lazer)
  }

  /** `Difficulty.performance()`: the difficulty settings copied, the score
      settings and the priority left at their defaults. */
  function FromDifficultySettings(d: DF.DifficultySettings): (r: PerformanceSettings)
    ensures DifficultyPart(r) == d
    ensures r.(mods := None, clockRate := None, ar := None, arWithMods := false, cs := None,
               csWithMods := false, hp := None, hpWithMods := false, od := None,
               odWithMods := false, passedObjects := None, hardrockOffsets := None,
               lazer := None) == DEFAULT_SETTINGS
  {
    DEFAULT_SETTINGS.(mods := d.mods, clockRate := d.clockRate, ar := d.ar, arWithMods := d.arWithMods,
                      cs := d.cs, csWithMods := d.csWithMods, hp := d.hp, hpWithMods := d.hpWithMods,
                      od := d.od, odWithMods := d.odWithMods, passedObjects := d.passedObjects,
                      hardrockOffsets := d.hardrockOffsets, lazer := d.lazer)
  }

  /** Going from a `Difficulty` to a `Performance` and back keeps every
      setting; going the other way keeps the difficulty settings and resets
      the score ones. */
  lemma DifficultyRoundTrip(d: DF.DifficultySettings, s: PerformanceSettings)
    ensures DifficultyPart(FromDifficultySettings(d)) == d
    ensures DifficultyPart(FromDifficultySettings(DifficultyPart(s))) == DifficultyPart(s)
    ensures FromDifficultySettings(DifficultyPart(s)) == s <==>
      s.(mods := None, clockRate := None, ar := None, arWithMods := false, cs := None,
         csWithMods := false, hp := None, hpWithMods := false, od := None,
         odWithMods := false, passedObjects := None, hardrockOffsets := None,
         lazer := None) == DEFAULT_SETTINGS
  {
  }

  // ---------------------------------------------------------------------
  // The calls `apply` makes on the performance builder.

  /** The position of each kind of call in `apply`. */
  function CallRank(c: PerformanceCall): nat
  {
    match c
    case Accuracy(_) => 1
    case Combo(_) => 2
    case SliderEndHits(_) => 3
    case LargeTickHits(_) => 4
    case SmallTickHits(_) => 5
    case NGeki(_) => 6
    case NKatu(_) => 7
    case N300(_) => 8
    case N100(_) => 9
    case N50(_) => 10
    case Misses(_) => 11
    case Priority(_) => 12
    case WithDifficulty(_) => 13
  }

  /** The score call of rank `k` the settings ask for: one call when its
      setting is set, none otherwise. */
  function ScoreStage(s: PerformanceSettings, k: nat): (r: seq<PerformanceCall>)
    ensures |r| <= 1 && (|r| == 1 ==> CallRank(r[0]) == k)
  {
    if k == 1 then (if s.accuracy.Some? then [Accuracy(s.accuracy.value)] else [])
    else if k == 2 then (if s.combo.Some? then [Combo(s.combo.value)] else [])
    else if k == 3 then (if s.sliderEndHits.Some? then [SliderEndHits(s.sliderEndHits.value)] else [])
    else if k == 4 then (if s.largeTickHits.Some? then [LargeTickHits(s.largeTickHits.value)] else [])
    else if k == 5 then (if s.smallTickHits.Some? then [SmallTickHits(s.smallTickHits.value)] else [])
    else if k == 6 then (if s.nGeki.Some? then [NGeki(s.nGeki.value)] else [])
    else if k == 7 then (if s.nKatu.Some? then [NKatu(s.nKatu.value)] else [])
    else if k == 8 then (if s.n300.Some? then [N300(s.n300.value)] else [])
    else if k == 9 then (if s.n100.Some? then [N100(s.n100.value)] else [])
    else if k == 10 then (if s.n50.Some? then [N50(s.n50.value)] else [])
    else if k == 11 then (if s.misses.Some? then [Misses(s.misses.value)] else [])
    else []
  }

  /** The score calls up to rank `k`, each stage in turn. */
  function ScoreCallsUpTo(s: PerformanceSettings, k: nat): seq<PerformanceCall>
  {
    if k == 0 then [] else ScoreCallsUpTo(s, k - 1) + ScoreStage(s, k)
  }

  const LAST_SCORE_RANK: nat := 11

  function ScoreCalls(s: PerformanceSettings): seq<PerformanceCall>
  {
    ScoreCallsUpTo(s, LAST_SCORE_RANK)
  }

  /** `apply` on a builder: the score calls, then, once the mods are
      resolved for the builder's own mode, the priority and the configured
      difficulty; a mods resolution error is the result. */
  function ApplySpec(cat: Catalog, s: PerformanceSettings, perf: Performance): Result<Performance, PyErr>
  {
    match DF.AsDifficultySpec(cat, VariantMode(perf), DifficultyPart(s))
    case Err(e) => Err(e)
    case Ok(difficulty) =>
      Ok(Performance(perf.source, perf.calls + ScoreCalls(s)
        + [Priority(ToHitResultPriority(s.hitresultPriority)), WithDifficulty(difficulty)]))
  }

  /** Calls made in rank order, each kind at most once. */
  predicate Ordered(calls: seq<PerformanceCall>)
  {
    forall i, j :: 0 <= i < j < |calls| ==> CallRank(calls[i]) < CallRank(calls[j])
  }

  /** The score calls up to rank `k` are in rank order, none above `k`. */
  lemma {:induction false} ScoreCallsOrdered(s: PerformanceSettings, k: nat)
    ensures Ordered(ScoreCallsUpTo(s, k))
    ensures forall i :: 0 <= i < |ScoreCallsUpTo(s, k)| ==> 1 <= CallRank(ScoreCallsUpTo(s, k)[i]) <= k
  {
    if k > 0 {
      ScoreCallsOrdered(s, k - 1);
      assert ScoreCallsUpTo(s, k) == ScoreCallsUpTo(s, k - 1) + ScoreStage(s, k);
    }
  }

  /** The score calls up to rank `k` hold a call exactly when it is the
      call its rank's setting asks for. */
  lemma {:induction false} ScoreCallsMembers(s: PerformanceSettings, k: nat)
    ensures forall c :: c in ScoreCallsUpTo(s, k) <==> 1 <= CallRank(c) <= k && ScoreStage(s, CallRank(c)) == [c]
  {
    if k > 0 {
      ScoreCallsMembers(s, k - 1);
      var prev := ScoreCallsUpTo(s, k - 1);
      var st := ScoreStage(s, k);
      assert ScoreCallsUpTo(s, k) == prev + st;
      forall c
        ensures c in prev + st <==> 1 <= CallRank(c) <= k && ScoreStage(s, CallRank(c)) == [c]
      {
        if c in st {
          assert c == st[0];
        }
      }
    }
  }

  /** Without any score setting, no score call is made. */
  lemma {:induction false} ScoreCallsUpToDefault(k: nat)
    ensures ScoreCallsUpTo(DEFAULT_SETTINGS, k) == []
  {
    if k > 0 {
      ScoreCallsUpToDefault(k - 1);
      assert ScoreStage(DEFAULT_SETTINGS, k) == [];
    }
  }

  /** `apply` fails exactly when the mods do not resolve for the builder's
      mode, with that error; otherwise it keeps the builder's source and
      earlier calls and adds its own in rank order, ending with the priority
      and the difficulty. */
  lemma ApplyOutcome(cat: Catalog, s: PerformanceSettings, perf: Performance)
    ensures ApplySpec(cat, s, perf).Err? <==> Resolve(cat, VariantMode(perf), s.mods).Err?
    ensures ApplySpec(cat, s, perf).Err? ==> ApplySpec(cat, s, perf).error == Resolve(cat, VariantMode(perf), s.mods).error
    ensures ApplySpec(cat, s, perf).Ok? ==>
      var p := ApplySpec(cat, s, perf).value;
      var added := p.calls[|perf.calls|..];
      && p.source == perf.source
      && |p.calls| >= |perf.calls| + 2
      && p.calls[..|perf.calls|] == perf.calls
      && Ordered(added)
      && p.calls[|p.calls| - 2] == Priority(ToHitResultPriority(s.hitresultPriority))
      && p.calls[|p.calls| - 1] == WithDifficulty(DF.AsDifficultySpec(cat, VariantMode(perf), DifficultyPart(s)).value)
  {
    if ApplySpec(cat, s, perf).Ok? {
      var p := ApplySpec(cat, s, perf).value;
      var tail := [Priority(ToHitResultPriority(s.hitresultPriority)),
                   WithDifficulty(DF.AsDifficultySpec(cat, VariantMode(perf), DifficultyPart(s)).value)];
      ScoreCallsOrdered(s, LAST_SCORE_RANK);
      assert p.calls == perf.calls + (ScoreCalls(s) + tail);
      assert p.calls[|perf.calls|..] == ScoreCalls(s) + tail;
    }
  }

  /** The mods are resolved for the mode of the difficulty attributes, or
      of the beatmap, the builder was made from. */
  lemma ApplyUsesVariantMode(cat: Catalog, s: PerformanceSettings, perf: Performance)
    ensures perf.source.AttributesSource? ==>
      (ApplySpec(cat, s, perf).Err? <==> Resolve(cat, Mode.ToGameMode(DA.ModeOf(perf.source.attrs)), s.mods).Err?)
    ensures perf.source.MapSource? ==>
      (ApplySpec(cat, s, perf).Err? <==> Resolve(cat, perf.source.beatmap.mode, s.mods).Err?)
  {
    ApplyOutcome(cat, s, perf);
  }

  /** A score call is forwarded exactly when its setting is set to its
      value. */
  lemma ScoreCallForwarded(s: PerformanceSettings, c: PerformanceCall)
    ensures c in ScoreCalls(s) <==> 1 <= CallRank(c) <= LAST_SCORE_RANK && ScoreStage(s, CallRank(c)) == [c]
  {
    ScoreCallsMembers(s, LAST_SCORE_RANK);
  }

  /** Each score setting that is set is forwarded, and one that is not set
      is not. */
  lemma ScoreSettingsForwarded(s: PerformanceSettings)
    ensures var calls := ScoreCalls(s);
      && (forall x :: Accuracy(x) in calls <==> s.accuracy == Some(x))
      && (forall n: U32 :: Combo(n) in calls <==> s.combo == Some(n))
      && (forall n: U32 :: SliderEndHits(n) in calls <==> s.sliderEndHits == Some(n))
  {
    forall x { ScoreCallForwarded(s, Accuracy(x)); }
    forall n: U32 { ScoreCallForwarded(s, Combo(n)); }
    forall n: U32 { ScoreCallForwarded(s, SliderEndHits(n)); }
  }

  /** As `ScoreSettingsForwarded`, for the tick counts. */
  lemma TickCountsForwarded(s: PerformanceSettings)
    ensures var calls := ScoreCalls(s);
      && (forall n: U32 :: LargeTickHits(n) in calls <==> s.largeTickHits == Some(n))
      && (forall n: U32 :: SmallTickHits(n) in calls <==> s.smallTickHits == Some(n))
  {
    forall n: U32 { ScoreCallForwarded(s, LargeTickHits(n)); }
    forall n: U32 { ScoreCallForwarded(s, SmallTickHits(n)); }
  }

  /** As `ScoreSettingsForwarded`, for the geki, katu and 300 counts. */
  lemma HitCountsForwarded(s: PerformanceSettings)
    ensures var calls := ScoreCalls(s);
      && (forall n: U32 :: NGeki(n) in calls <==> s.nGeki == Some(n))
      && (forall n: U32 :: NKatu(n) in calls <==> s.nKatu == Some(n))
      && (forall n: U32 :: N300(n) in calls <==> s.n300 == Some(n))
  {
    forall n: U32 { ScoreCallForwarded(s, NGeki(n)); }
    forall n: U32 { ScoreCallForwarded(s, NKatu(n)); }
    forall n: U32 { ScoreCallForwarded(s, N300(n)); }
  }

  /** As `ScoreSettingsForwarded`, for the 100, 50 and miss counts. */
  lemma LowerHitCountsForwarded(s: PerformanceSettings)
    ensures var calls := ScoreCalls(s);
      && (forall n: U32 :: N100(n) in calls <==> s.n100 == Some(n))
      && (forall n: U32 :: N50(n) in calls <==> s.n50 == Some(n))
      && (forall n: U32 :: Misses(n) in calls <==> s.misses == Some(n))
  {
    forall n: U32 { ScoreCallForwarded(s, N100(n)); }
    forall n: U32 { ScoreCallForwarded(s, N50(n)); }
    forall n: U32 { ScoreCallForwarded(s, Misses(n)); }
  }

  /** With the default settings, the builder only receives the best-case
      priority and a difficulty with no mods. */
  lemma DefaultApply(cat: Catalog, perf: Performance)
    ensures ApplySpec(cat, DEFAULT_SETTINGS, perf) ==
      Ok(Performance(perf.source, perf.calls
        + [Priority(HitResultPriority.BestCase), WithDifficulty([WithMods(Legacy(NO_MOD))])]))
  {
    ScoreCallsUpToDefault(LAST_SCORE_RANK);
    assert DifficultyPart(DEFAULT_SETTINGS) == DF.DEFAULT_SETTINGS;
    DF.DefaultOnlyMods(cat, VariantMode(perf));
    assert perf.calls + ScoreCalls(DEFAULT_SETTINGS) == perf.calls;
  }

  // ---------------------------------------------------------------------
  // `calculate`.

  const CALCULATE_ARGUMENT: string := "argument must be DifficultyAttributes, PerformanceAttributes, or a Beatmap"

  /** The builder `calculate` starts from: the difficulty attributes of a
      performance result, difficulty attributes, or a beatmap, tried in
      that order; a record that does not convert is an error. */
  function SourceOf(args: PyObj): (r: Result<PerformanceSource, PyErr>)
    ensures args.PyPerformanceAttributesObj? ==>
      (r.Ok? <==> DA.Complete(args.pattrs.difficulty))
      && (r.Ok? ==> r.value.AttributesSource? && DA.ModeOf(r.value.attrs) == args.pattrs.difficulty.mode)
    ensures args.PyDifficultyAttributesObj? ==>
      (r.Ok? <==> DA.Complete(args.attrs))
      && (r.Ok? ==> r.value.AttributesSource? && DA.ModeOf(r.value.attrs) == args.attrs.mode)
    ensures args.PyBeatmapObj? ==> r == Ok(MapSource(args.beatmap))
    ensures !(args.PyPerformanceAttributesObj? || args.PyDifficultyAttributesObj? || args.PyBeatmapObj?) ==>
      r == Err(ArgsError(CALCULATE_ARGUMENT))
  {
    match args
    case PyPerformanceAttributesObj(pattrs) =>
      (match DA.TryFromPy(pattrs.difficulty)
       case Err(e) => Err(e)
       case Ok(a) => Ok(AttributesSource(a)))
    case PyDifficultyAttributesObj(attrs) =>
      (match DA.TryFromPy(attrs)
       case Err(e) => Err(e)
       case Ok(a) => Ok(AttributesSource(a)))
    case PyBeatmapObj(beatmap) => Ok(MapSource(beatmap))
    case _ => Err(ArgsError(CALCULATE_ARGUMENT))
  }

  /** The performance record of a configured builder: the engine's result,
      with the score state the engine generates for it attached. */
  function Evaluate(engine: Engine, perf: Performance): (r: PA.PyPerformanceAttributes)
    ensures r.state == Some(SS.FromScoreState(engine.generateState(perf)))
    ensures r.difficulty == DA.FromAttributes(PA.DifficultyOf(engine.performance(perf)))
  {
    PA.FromAttributes(engine.performance(perf)).(state := Some(SS.FromScoreState(engine.generateState(perf))))
  }

  /** `calculate`: the builder, `apply`, then the evaluation. */
  function CalculateSpec(cat: Catalog, engine: Engine, s: PerformanceSettings, args: PyObj): Result<PA.PyPerformanceAttributes, PyErr>
  {
    match SourceOf(args)
    case Err(e) => Err(e)
    case Ok(source) =>
      match ApplySpec(cat, s, NewPerformance(source))
      case Err(e) => Err(e)
      case Ok(perf) => Ok(Evaluate(engine, perf))
  }

  /** A record or beatmap argument is never refused as such: `calculate`
      then fails only when the record does not convert or the mods do not
      resolve, and its result always carries a score state. */
  lemma CalculateOutcome(cat: Catalog, engine: Engine, s: PerformanceSettings, args: PyObj)
    ensures CalculateSpec(cat, engine, s, args) == Err(ArgsError(CALCULATE_ARGUMENT)) <==>
      !(args.PyPerformanceAttributesObj? || args.PyDifficultyAttributesObj? || args.PyBeatmapObj?)
    ensures args.PyBeatmapObj? ==>
      (CalculateSpec(cat, engine, s, args).Ok? <==> Resolve(cat, args.beatmap.mode, s.mods).Ok?)
    ensures args.PyDifficultyAttributesObj? ==>
      (CalculateSpec(cat, engine, s, args).Ok? <==>
        DA.Complete(args.attrs) && Resolve(cat, Mode.ToGameMode(args.attrs.mode), s.mods).Ok?)
    ensures CalculateSpec(cat, engine, s, args).Ok? ==> CalculateSpec(cat, engine, s, args).value.state.Some?
  {
    match SourceOf(args)
    case Err(e) =>
      if args.PyPerformanceAttributesObj? || args.PyDifficultyAttributesObj? {
        assert e == ParseError(DA.INVALID_ATTRIBUTES);
      }
    case Ok(source) =>
      ApplyOutcome(cat, s, NewPerformance(source));
      match ApplySpec(cat, s, NewPerformance(source))
      case Err(e) =>
        ResolveOutcome(cat, VariantMode(NewPerformance(source)), s.mods.value);
      case Ok(_) =>
  }

  // ---------------------------------------------------------------------
  // The Python class.

  class PyPerformance {
    var mods: Option<PyObj>
    var clockRate: Option<Float>
    var ar: Option<Float>
    var arWithMods: bool
    var cs: Option<Float>
    var csWithMods: bool
    var hp: Option<Float>
    var hpWithMods: bool
    var od: Option<Float>
    var odWithMods: bool
    var passedObjects: Option<U32>
    var hardrockOffsets: Option<bool>
    var lazer: Option<bool>
    var accuracy: Option<Float>
    var combo: Option<U32>
    var largeTickHits: Option<U32>
    var smallTickHits: Option<U32>
    var sliderEndHits: Option<U32>
    var nGeki: Option<U32>
    var nKatu: Option<U32>
    var n300: Option<U32>
    var n100: Option<U32>
    var n50: Option<U32>
    var misses: Option<U32>
    var hitresultPriority: PyHitResultPriority

    /** The object's settings as a value. */
    function Settings(): PerformanceSettings
      reads this
    {
      PerformanceSettings(mods, clockRate, ar, arWithMods, cs, csWithMods, hp, hpWithMods,
                          od, odWithMods, passedObjects, hardrockOffsets, lazer,
                          accuracy, combo, largeTickHits, smallTickHits, sliderEndHits,
                          nGeki, nKatu, n300, n100, n50, misses, hitresultPriority)
    }

    /** `Performance()` without keywords: the default settings. */
    constructor ()
      ensures Settings() == DEFAULT_SETTINGS
    {
      mods, clockRate, ar, arWithMods := None, None, None, false;
      cs, csWithMods, hp, hpWithMods := None, false, None, false;
      od, odWithMods := None, false;
      passedObjects, hardrockOffsets, lazer := None, None, None;
      accuracy, combo, largeTickHits, smallTickHits, sliderEndHits := None, None, None, None, None;
      nGeki, nKatu, n300, n100, n50, misses := None, None, None, None, None, None;
      hitresultPriority := DEFAULT_PRIORITY;
    }

    /** `Difficulty.performance()`: a `Performance` with the difficulty's
        settings and default score settings. */
    constructor FromDifficulty(d: DF.PyDifficulty)
      ensures Settings() == FromDifficultySettings(d.Settings())
    {
      mods, clockRate, ar, arWithMods := d.mods, d.clockRate, d.ar, d.arWithMods;
      cs, csWithMods, hp, hpWithMods := d.cs, d.csWithMods, d.hp, d.hpWithMods;
      od, odWithMods := d.od, d.odWithMods;
      passedObjects, hardrockOffsets, lazer := d.passedObjects, d.hardrockOffsets, d.lazer;
      accuracy, combo, largeTickHits, smallTickHits, sliderEndHits := None, None, None, None, None;
      nGeki, nKatu, n300, n100, n50, misses := None, None, None, None, None, None;
      hitresultPriority := DEFAULT_PRIORITY;
    }

    /** `difficulty()`: a new `Difficulty` with the thirteen shared
        settings. */
    method Difficulty() returns (d: DF.PyDifficulty)
      ensures fresh(d)
      ensures d.Settings() == DifficultyPart(Settings())
    {
      d := new DF.PyDifficulty.FromSettings(DifficultyPart(Settings()));
    }

    method SetMods(mods: Option<PyObj>)
      modifies this
      ensures Settings() == old(Settings()).(mods := mods)
    {
      this.mods := mods;
    }

    method SetLazer(lazer: Option<bool>)
      modifies this
      ensures Settings() == old(Settings()).(lazer := lazer)
    {
      this.lazer := lazer;
    }

    method SetClockRate(clockRate: Option<Float>)
      modifies this
      ensures Settings() == old(Settings()).(clockRate := clockRate)
    {
      this.clockRate := clockRate;
    }

    method SetAr(ar: Option<Float>, arWithMods: bool)
      modifies this
      ensures Settings() == old(Settings()).(ar := ar, arWithMods := arWithMods)
    {
      this.ar := ar;
      this.arWithMods := arWithMods;
    }

    method SetCs(cs: Option<Float>, csWithMods: bool)
      modifies this
      ensures Settings() == old(Settings()).(cs := cs, csWithMods := csWithMods)
    {
      this.cs := cs;
      this.csWithMods := csWithMods;
    }

    method SetHp(hp: Option<Float>, hpWithMods: bool)
      modifies this
      ensures Settings() == old(Settings()).(hp := hp, hpWithMods := hpWithMods)
    {
      this.hp := hp;
      this.hpWithMods := hpWithMods;
    }

    method SetOd(od: Option<Float>, odWithMods: bool)
      modifies this
      ensures Settings() == old(Settings()).(od := od, odWithMods := odWithMods)
    {
      this.od := od;
      this.odWithMods := odWithMods;
    }

    method SetPassedObjects(passedObjects: Option<U32>)
      modifies this
      ensures Settings() == old(Settings()).(passedObjects := passedObjects)
    {
      this.passedObjects := passedObjects;
    }

    method SetHardrockOffsets(hardrockOffsets: Option<bool>)
      modifies this
      ensures Settings() == old(Settings()).(hardrockOffsets := hardrockOffsets)
    {
      this.hardrockOffsets := hardrockOffsets;
    }

    method SetAccuracy(accuracy: Option<Float>)
      modifies this
      ensures Settings() == old(Settings()).(accuracy := accuracy)
    {
      this.accuracy := accuracy;
    }

    method SetCombo(combo: Option<U32>)
      modifies this
      ensures Settings() == old(Settings()).(combo := combo)
    {
      this.combo := combo;
    }

    method SetLargeTickHits(nLargeTicks: Option<U32>)
      modifies this
      ensures Settings() == old(Settings()).(largeTickHits := nLargeTicks)
    {
      this.largeTickHits := nLargeTicks;
    }

    method SetSmallTickHits(nSmallTicks: Option<U32>)
      modifies this
      ensures Settings() == old(Settings()).(smallTickHits := nSmallTicks)
    {
      this.smallTickHits := nSmallTicks;
    }

    method SetSliderEndHits(nSliderEnds: Option<U32>)
      modifies this
      ensures Settings() == old(Settings()).(sliderEndHits := nSliderEnds)
    {
      this.sliderEndHits := nSliderEnds;
    }

    method SetNGeki(nGeki: Option<U32>)
      modifies this
      ensures Settings() == old(Settings()).(nGeki := nGeki)
    {
      this.nGeki := nGeki;
    }

    method SetNKatu(nKatu: Option<U32>)
      modifies this
      ensures Settings() == old(Settings()).(nKatu := nKatu)
    {
      this.nKatu := nKatu;
    }

    method SetN300(n300: Option<U32>)
      modifies this
      ensures Settings() == old(Settings()).(n300 := n300)
    {
      this.n300 := n300;
    }

    method SetN100(n100: Option<U32>)
      modifies this
      ensures Settings() == old(Settings()).(n100 := n100)
    {
      this.n100 := n100;
    }

    method SetN50(n50: Option<U32>)
      modifies this
      ensures Settings() == old(Settings()).(n50 := n50)
    {
      this.n50 := n50;
    }

    method SetMisses(misses: Option<U32>)
      modifies this
      ensures Settings() == old(Settings()).(misses := misses)
    {
      this.misses := misses;
    }

    /** `set_hitresult_priority`: no priority means the default one. */
    method SetHitResultPriority(hitresultPriority: Option<PyHitResultPriority>)
      modifies this
      ensures Settings() == old(Settings()).(hitresultPriority :=
        if hitresultPriority.Some? then hitresultPriority.value else DEFAULT_PRIORITY)
    {
      this.hitresultPriority := if hitresultPriority.Some? then hitresultPriority.value else DEFAULT_PRIORITY;
    }

    /** `calculate`: the builder for the argument, configured by `apply`,
        then evaluated, with its generated score state attached. */
    method Calculate(cat: Catalog, engine: Engine, args: PyObj) returns (r: Result<PA.PyPerformanceAttributes, PyErr>)
      ensures r == CalculateSpec(cat, engine, Settings(), args)
    {
      var perf: Performance;
      if args.PyPerformanceAttributesObj? {
        var attrs := DA.TryFromPy(args.pattrs.difficulty);
        if attrs.Err? {
          return Err(attrs.error);
        }
        perf := NewPerformance(AttributesSource(attrs.value));
      } else if args.PyDifficultyAttributesObj? {
        var attrs := DA.TryFromPy(args.attrs);
        if attrs.Err? {
          return Err(attrs.error);
        }
        perf := NewPerformance(AttributesSource(attrs.value));
      } else if args.PyBeatmapObj? {
        perf := NewPerformance(MapSource(args.beatmap));
      } else {
        return Err(ArgsError(CALCULATE_ARGUMENT));
      }
      var applied := Apply(cat, perf);
      if applied.Err? {
        return Err(applied.error);
      }
      perf := applied.value;
      var state := engine.generateState(perf);
      var attrs := PA.FromAttributes(engine.performance(perf));
      attrs := attrs.(state := Some(SS.FromScoreState(state)));
      return Ok(attrs);
    }

    /** `apply`: the score settings that are set, in turn; the mods
        resolved for the builder's mode; then the priority and the
        difficulty. */
    method Apply(cat: Catalog, perf: Performance) returns (r: Result<Performance, PyErr>)
      ensures r == ApplySpec(cat, Settings(), perf)
    {
      var calls := ApplyScore();
      var mode := match perf.source
        case AttributesSource(attrs) => Mode.ToGameMode(DA.ModeOf(attrs))
        case MapSource(beatmap) => beatmap.mode;
      var difficulty := AsDifficulty(cat, mode);
      if difficulty.Err? {
        return Err(difficulty.error);
      }
      var tail := [Priority(ToHitResultPriority(hitresultPriority)), WithDifficulty(difficulty.value)];
      calls := calls + tail;
      assert perf.calls + calls == perf.calls + ScoreCalls(Settings()) + tail;
      return Ok(Performance(perf.source, perf.calls + calls));
    }

    /** The score steps of `apply`: accuracy, combo and the tick counts
        here, the hit counts in `ApplyHitCounts`. */
    method ApplyScore() returns (calls: seq<PerformanceCall>)
      ensures calls == ScoreCalls(Settings())
    {
      ghost var s := Settings();
      calls := [];
      if accuracy.Some? {
        calls := calls + [Accuracy(accuracy.value)];
      }
      assert calls == ScoreCallsUpTo(s, 1);
      if combo.Some? {
        calls := calls + [Combo(combo.value)];
      }
      assert calls == ScoreCallsUpTo(s, 2);
      if sliderEndHits.Some? {
        calls := calls + [SliderEndHits(sliderEndHits.value)];
      }
      assert calls == ScoreCallsUpTo(s, 3);
      if largeTickHits.Some? {
        calls := calls + [LargeTickHits(largeTickHits.value)];
      }
      assert calls == ScoreCallsUpTo(s, 4);
      if smallTickHits.Some? {
        calls := calls + [SmallTickHits(smallTickHits.value)];
      }
      calls := ApplyHitCounts(calls);
    }

    /** The geki, katu and 300 steps of `apply`. */
    method ApplyHitCounts(prefix: seq<PerformanceCall>) returns (calls: seq<PerformanceCall>)
      requires prefix == ScoreCallsUpTo(Settings(), 5)
      ensures calls == ScoreCalls(Settings())
    {
      ghost var s := Settings();
      calls := prefix;
      if nGeki.Some? {
        calls := calls + [NGeki(nGeki.value)];
      }
      assert calls == ScoreCallsUpTo(s, 6);
      if nKatu.Some? {
        calls := calls + [NKatu(nKatu.value)];
      }
      assert calls == ScoreCallsUpTo(s, 7);
      if n300.Some? {
        calls := calls + [N300(n300.value)];
      }
      calls := ApplyLowerHitCounts(calls);
    }

    /** The 100, 50 and miss steps of `apply`. */
    method ApplyLowerHitCounts(prefix: seq<PerformanceCall>) returns (calls: seq<PerformanceCall>)
      requires prefix == ScoreCallsUpTo(Settings(), 8)
      ensures calls == ScoreCalls(Settings())
    {
      ghost var s := Settings();
      calls := prefix;
      if n100.Some? {
        calls := calls + [N100(n100.value)];
      }
      assert calls == ScoreCallsUpTo(s, 9);
      if n50.Some? {
        calls := calls + [N50(n50.value)];
      }
      assert calls == ScoreCallsUpTo(s, 10);
      if misses.Some? {
        calls := calls + [Misses(misses.value)];
      }
    }

    /** `as_difficulty`: the same steps as the `Difficulty` class takes, on
        this object's own copy of the settings. */
    method AsDifficulty(cat: Catalog, mode: GameMode) returns (r: Result<seq<DifficultyCall>, PyErr>)
      ensures r == DF.AsDifficultySpec(cat, mode, DifficultyPart(Settings()))
    {
      var resolved := Extract(cat, mode, mods);
      if resolved.Err? {
        return Err(resolved.error);
      }
      var difficulty := ApplySettings(resolved.value);
      return Ok(difficulty);
    }

    /** The passed-objects, clock rate, AR and CS steps of `as_difficulty`. */
    method ApplySettings(resolved: PyGameMods) returns (difficulty: seq<DifficultyCall>)
      ensures difficulty == DF.DifficultyCalls(resolved, DifficultyPart(Settings()))
    {
      ghost var s := DifficultyPart(Settings());
      difficulty := [WithMods(resolved)];
      if passedObjects.Some? {
        difficulty := difficulty + [PassedObjects(passedObjects.value)];
      }
      assert difficulty == DF.CallsUpTo(resolved, s, 1);
      if clockRate.Some? {
        difficulty := difficulty + [ClockRate(clockRate.value)];
      }
      assert difficulty == DF.CallsUpTo(resolved, s, 2);
      if ar.Some? {
        difficulty := difficulty + [Ar(ar.value, arWithMods)];
      }
      assert difficulty == DF.CallsUpTo(resolved, s, 3);
      if cs.Some? {
        difficulty := difficulty + [Cs(cs.value, csWithMods)];
      }
      difficulty := ApplyLaterSettings(resolved, difficulty);
    }

    /** The HP, OD, hardrock-offsets and lazer steps of `as_difficulty`. */
    method ApplyLaterSettings(ghost resolved: PyGameMods, calls: seq<DifficultyCall>) returns (difficulty: seq<DifficultyCall>)
      requires calls == DF.CallsUpTo(resolved, DifficultyPart(Settings()), 4)
      ensures difficulty == DF.DifficultyCalls(resolved, DifficultyPart(Settings()))
    {
      ghost var s := DifficultyPart(Settings());
      difficulty := calls;
      if hp.Some? {
        difficulty := difficulty + [Hp(hp.value, hpWithMods)];
      }
      assert difficulty == DF.CallsUpTo(resolved, s, 5);
      if od.Some? {
        difficulty := difficulty + [Od(od.value, odWithMods)];
      }
      assert difficulty == DF.CallsUpTo(resolved, s, 6);
      if hardrockOffsets.Some? {
        difficulty := difficulty + [HardrockOffsets(hardrockOffsets.value)];
      }
      assert difficulty == DF.CallsUpTo(resolved, s, 7);
      if lazer.Some? {
        difficulty := difficulty + [IsLazer(lazer.value)];
      }
    }
  }
}
