# rosu-pp-py bindings, modelled in Dafny

rosu-pp-py exposes the osu! difficulty and performance calculator `rosu_pp` to
Python through PyO3. This project models the part of the bindings that has logic
of its own. The scoring mathematics stays out of it.

- **Mods resolution** (`src/mods.rs`). The `mods` argument is an untyped Python
  value. It is classified as legacy bits, an intermode acronym set, or a typed
  lazer mod collection.
  - Modules `ModsInput`, `ModsValue`, `ModsCatalog`, `ModsAccess` and `Mods`.
  - The two serde `MapAccess` state machines are classes: `PyGameModMap` and
    `DictAccess`.
  - The list branch and the whole extraction are methods with loops, proved
    against specification functions.
  - The `rosu_mods` pieces are fields of a `Catalog` parameter: acronym
    parsing, legacy bits, insertion and the seed's mod schemas.
- **Attribute records.** These convert between the library's per-mode unions
  and the flat Python records of optional fields, in both directions.
  - `DifficultyAttributes` (`src/attributes/difficulty.rs`) has the validating
    `TryFrom` back to the union.
  - The others are `PerformanceAttributes`, `Strains`, `ScoreState` and `Mode`.
  - `DiffAttrs` and `PerfAttrs` are the older API's wrappers with their getters.
- **Settings builders.** Classes with one field per setting, with setters and
  keyword parsing. Each turns its settings into the calls it makes on a
  `rosu_pp` builder.
  - `Difficulty`, `PerformanceCalculator`, `BeatmapAttributesBuilder` and
    `ScoreStateKwargs` are the current API.
  - `Calculator` is the older API's `Calculator`.
  - Each builder of the library is recorded as the sequence of calls made on
    it, in module `Rosu` (current API) and `Calculator` (older API).
  - The calculations are uninterpreted functions of those calls, gathered in
    an `Engine` parameter.
- **Python values** (`Python`). Python values are one datatype, and PyO3's
  extraction rules are written out as functions:
  - an int target accepts an int or a bool within range;
  - a float target accepts a float, or an int or a bool that converts to a
    finite `f64`; a larger int is an `OverflowError`;
  - a bool target accepts only a bool, and a str target only a str.

  These rules are an assumption about PyO3, which is not part of this model.

Floats are only ever copied, so `Base.Float` is an opaque value. Integer widths
(`u8`, `u32`, `usize` as 64 bits) are subset types, and an extraction out of
range is refused as PyO3 refuses it.

A failing `GameMod` or list deserialization does not end mods resolution with
its own error. The code (`src/mods.rs:76-78`, `src/mods.rs:112-114`) only
records that failure as one of the four causes, and resolution ends with the
aggregate `PyGameMods` error; see `Mods.GameModDictIsOneMod` and
`Mods.ListIsFold`.

`map_attributes` of the old `Calculator` tests the mode of the beatmap *after*
conversion, because the converted beatmap shadows the argument. So
`converted(true)` is only called when conversion did not reach the requested
mode and left an osu! beatmap. When conversion behaves as intended,
`Calculator.ConvertedNeverWhenConversionReachesMode` shows that the flag is
never set. Whether this is intended depends on `convert_mode`, which lives in
`rosu_pp` and is not part of this model, so it is recorded here rather than as
a finding.

## Model

| member | source | states |
|---|---|---|
| Mode.Ordinal | src/mode.rs:6-14 | with `eq_int`, each `GameMode` member compares equal to its declaration position: Osu 0, Taiko 1, Catch 2, Mania 3 |
| Mode.OrdinalInjective | src/mode.rs:6-14 | distinct members compare equal to distinct integers |
| Mode.DefaultMode | src/mode.rs:7-10 | the derived default member is `Osu`, position 0 |
| Mode.ToGameMode | src/mode.rs:22-31 | the conversion to the library's mode keeps the variant |
| Mode.FromGameMode | src/mode.rs:33-42 | the conversion from the library's mode keeps the variant and is undone by `ToGameMode` |
| Mode.ConversionsInverse | src/mode.rs:22-42 | the two conversions are mutually inverse |
| ScoreState.FieldNameInjective | src/score_state.rs:15-30 | the seven attribute names are distinct |
| ScoreState.Set | src/score_state.rs:15-30 | a generated setter changes its own count and no other |
| ScoreState.GetExtensional | src/score_state.rs:15-30 | two states with the same seven counts are the same state |
| ScoreState.Debug | src/score_state.rs:99-121 | the textual form lists all seven counts, by name, in declaration order |
| ScoreState.DebugListsEveryField | src/score_state.rs:99-127 | every count appears in the textual form, under a name no other entry has |
| ScoreState.ToScoreState | src/score_state.rs:129-141 | every count is copied into the library's state |
| ScoreState.FromScoreState | src/score_state.rs:143-155 | every count is copied back from the library's state |
| ScoreState.ConversionsInverse | src/score_state.rs:129-155 | the two conversions are mutually inverse |
| ScoreStateKwargs.FieldOfName | src/score_state.rs:44-80 | a keyword names a count exactly when it is that count's attribute name |
| ScoreStateKwargs.New | src/score_state.rs:36-92 | the constructor's loop gives the fold of the keywords from the default state, stopping at the first refused one |
| ScoreStateKwargs.NoKwargsIsDefault | src/score_state.rs:37-41 | without keywords every count is zero |
| ScoreStateKwargs.KnownKwargSets | src/score_state.rs:45-79 | a count keyword with a `u32` value sets exactly that count over what came before, so a later one overwrites an earlier one |
| ScoreStateKwargs.BadValueIsTypeError | src/score_state.rs:45-79 | a count keyword whose value is not a `u32` ends construction with the `TypeError` naming it, whatever follows |
| ScoreStateKwargs.UnknownKwargIsArgsError | src/score_state.rs:80-87 | an unknown keyword ends construction with the `ArgsError` naming it, whatever follows |
| DifficultyAttributes.FromOsu | src/attributes/difficulty.rs:47-96 | an osu! result gives mode `Osu`, `is_convert` false, the same stars and combo, each of the seventeen osu! attributes equal to the library field of its name, and no other attribute set |
| DifficultyAttributes.FromTaiko | src/attributes/difficulty.rs:98-128 | a taiko result keeps `is_convert`, stars and combo, sets each of the seven taiko attributes to the library field of its name, and no other attribute |
| DifficultyAttributes.FromCatch | src/attributes/difficulty.rs:130-155 | a catch result keeps `is_convert` and stars, takes the combo from `max_combo()`, sets `ar`, `n_fruits`, `n_droplets` and `n_tiny_droplets` to the library fields, and no other attribute |
| DifficultyAttributes.FromMania | src/attributes/difficulty.rs:157-177 | a mania result keeps `is_convert`, stars and combo, sets `n_objects` and `n_hold_notes` to the library fields, and no other attribute |
| DifficultyAttributes.FromAttributes | src/attributes/difficulty.rs:179-188 | the record gets the variant's mode, exactly that mode's attributes, and converts back to the same variant |
| DifficultyAttributes.FromAttributesInjective | src/attributes/difficulty.rs:179-188 | distinct library attributes give distinct Python records |
| DifficultyAttributes.TryFromPy | src/attributes/difficulty.rs:190-350 | a record converts exactly when every attribute of its mode is set; the result has that mode; otherwise the `ParseError` "invalid difficulty attributes" |
| DifficultyAttributes.TryFromThenFrom | src/attributes/difficulty.rs:179-350 | converting a record that parses and back keeps mode, stars, its mode's attributes, combo (except catch) and convert flag (except osu!), and clears the rest |
| DifficultyAttributes.TryFromIgnoresOtherModes | src/attributes/difficulty.rs:228-347 | conversion reads only the mode, stars, its own mode's attributes, the combo (not for catch) and the convert flag (not for osu!) |
| DifficultyAttributes.IgnoresOtherModesOsu | src/attributes/difficulty.rs:229-289 | the osu! branch reads only the osu! attributes, stars and combo |
| DifficultyAttributes.IgnoresOtherModesTaiko | src/attributes/difficulty.rs:290-321 | the taiko branch reads only the taiko attributes, stars, combo and convert flag |
| DifficultyAttributes.IgnoresOtherModesCatch | src/attributes/difficulty.rs:322-335 | the catch branch reads only the catch attributes, stars and convert flag |
| DifficultyAttributes.IgnoresOtherModesMania | src/attributes/difficulty.rs:336-346 | the mania branch reads only the mania attributes, stars, combo and convert flag |
| DifficultyAttributes.OsuFieldsAgree1 | src/attributes/difficulty.rs:230-266 | records agreeing on the required osu! attributes agree on the first nine of them |
| DifficultyAttributes.OsuFieldsAgree2 | src/attributes/difficulty.rs:230-266 | records agreeing on the required osu! attributes agree on the other eight |
| DifficultyAttributes.OsuComplete | src/attributes/difficulty.rs:229-289 | an osu! record with all seventeen osu! attributes converts |
| DifficultyAttributes.OsuIncomplete | src/attributes/difficulty.rs:229-349 | an osu! record lacking any of them does not |
| DifficultyAttributes.TaikoComplete | src/attributes/difficulty.rs:290-321 | a taiko record with all seven taiko attributes converts |
| DifficultyAttributes.TaikoIncomplete | src/attributes/difficulty.rs:290-321 | a taiko record lacking any of them does not |
| DifficultyAttributes.CatchComplete | src/attributes/difficulty.rs:322-335 | a catch record with all four catch attributes converts |
| DifficultyAttributes.CatchIncomplete | src/attributes/difficulty.rs:322-335 | a catch record lacking any of them does not |
| DifficultyAttributes.ManiaComplete | src/attributes/difficulty.rs:336-346 | a mania record with both mania attributes converts |
| DifficultyAttributes.ManiaIncomplete | src/attributes/difficulty.rs:336-346 | a mania record lacking either does not |
| PerformanceAttributes.FromOsu | src/attributes/performance.rs:30-55 | an osu! result converts its difficulty, keeps pp and the optional speed deviation, leaves the state unset, and sets the five osu! pp attributes to the result's own pp-accuracy, pp-aim, pp-flashlight, pp-speed and effective miss count, and no other attribute |
| PerformanceAttributes.FromTaiko | src/attributes/performance.rs:57-78 | a taiko result converts its difficulty, keeps pp and the optional unstable rate, leaves the state unset, and sets `pp_accuracy`, `pp_difficulty` and `effective_miss_count` to the result's own values, and no other attribute |
| PerformanceAttributes.FromCatch | src/attributes/performance.rs:80-90 | a catch result converts its difficulty, keeps pp and sets no optional attribute |
| PerformanceAttributes.FromMania | src/attributes/performance.rs:92-107 | a mania result converts its difficulty, keeps pp, leaves the state unset and sets only `pp_difficulty`, to the result's own value |
| PerformanceAttributes.FromAttributes | src/attributes/performance.rs:109-118 | the difficulty is the converted difficulty of the variant, the state is unset, and the optional attributes match the difficulty's mode |
| PerformanceAttributes.FromAttributesInjective | src/attributes/performance.rs:30-118 | distinct library results give distinct Python records |
| Strains.FromOsu | src/strains.rs:30-49 | osu! strains get mode `Osu`, its section length, and `aim`, `aim_no_sliders`, `speed` and `flashlight` equal to the library's lists, with every other list unset |
| Strains.FromTaiko | src/strains.rs:51-72 | taiko strains get mode `Taiko`, its section length, and `color`, `reading`, `rhythm`, `stamina` and `single_color_stamina` equal to the library's lists, with every other list unset |
| Strains.FromCatch | src/strains.rs:74-85 | catch strains get mode `Catch`, its section length and `movement` equal to the library's list, with every other list unset |
| Strains.FromMania | src/strains.rs:87-98 | mania strains get mode `Mania`, its section length and `strains` equal to the library's list, with every other list unset |
| Strains.FromStrains | src/strains.rs:100-109 | the record has the variant's mode, exactly that mode's lists and its section length, and the library strains read back from the record are the original ones |
| Strains.FromStrainsInjective | src/strains.rs:30-109 | distinct library strains give distinct Python records |
| DiffAttrs.From | src/diff_attrs.rs:15-20 | the older library's attributes are wrapped unchanged, with their mode |
| DiffAttrs.ModeGetter | src/diff_attrs.rs:168-175 | `mode` is 0, 1, 2 or 3 for osu!, taiko, catch and mania: the position of the wrapped mode in `GameMode`, pinned by `Mode.Ordinal` |
| DiffAttrs.MaxComboGetter | src/diff_attrs.rs:177-185 | `max_combo` is defined for every mode and is the computed `max_combo()` for catch |
| DiffAttrs.ColorGetter | src/diff_attrs.rs:187-194 | `color` is `Some` exactly for taiko, and then taiko's colour value |
| DiffAttrs.Get | src/diff_attrs.rs:200-233 | a generated getter is `Some` exactly when the wrapped mode is among the modes listed for it; the per-mode `GettersRead` lemmas state which field the `Some` holds |
| DiffAttrs.StarsAlwaysPresent | src/diff_attrs.rs:215 | `stars` is available for every mode |
| DiffAttrs.SharedGettersRead | src/diff_attrs.rs:231-232 | `ar` reads the osu! or catch field and `hit_window` the taiko or mania field, whichever is wrapped |
| DiffAttrs.OsuGettersRead | src/diff_attrs.rs:200-233 | over osu! attributes, `stars`, `aim`, `speed`, `flashlight`, `slider_factor`, `speed_note_count`, `od`, `n_circles`, `n_sliders`, `n_spinners` and `ar` each return `Some` of the field they are named after |
| DiffAttrs.TaikoGettersRead | src/diff_attrs.rs:200-233 | over taiko attributes, `stars`, `stamina`, `rhythm`, `peak` and `hit_window` return their own fields |
| DiffAttrs.CatchGettersRead | src/diff_attrs.rs:200-233 | over catch attributes, `stars`, `n_fruits`, `n_droplets`, `n_tiny_droplets` and `ar` return their own fields |
| DiffAttrs.ManiaGettersRead | src/diff_attrs.rs:200-233 | over mania attributes, `stars` and `hit_window` return their own fields |
| PerfAttrs.From | src/perf_attrs.rs:17-22 | the older library's performance result is wrapped unchanged |
| PerfAttrs.ModeGetter | src/perf_attrs.rs:104-112 | `mode` is 0, 1, 2 or 3 for osu!, taiko, catch and mania: the position of the wrapped mode in `GameMode`, pinned by `Mode.Ordinal` |
| PerfAttrs.DifficultyAttributesOf | src/perf_attrs.rs:114-117 | the nested difficulty attributes have the same mode as the performance result |
| PerfAttrs.DifficultyGetter | src/perf_attrs.rs:114-117 | `difficulty` wraps the nested difficulty attributes, so its `mode` getter agrees |
| PerfAttrs.Get | src/perf_attrs.rs:123-145 | a generated getter is `Some` exactly when the wrapped mode is among the modes listed for it; the per-mode `GettersRead` lemmas state which field the `Some` holds |
| PerfAttrs.PpAlwaysPresent | src/perf_attrs.rs:138 | `pp` is available for every mode |
| PerfAttrs.OsuGettersRead | src/perf_attrs.rs:123-145 | over an osu! result, `pp`, `pp_aim`, `pp_flashlight`, `pp_speed`, `pp_acc` and `effective_miss_count` each return `Some` of the field they are named after |
| PerfAttrs.TaikoGettersRead | src/perf_attrs.rs:123-145 | over a taiko result, `pp`, `pp_acc`, `effective_miss_count` and `pp_difficulty` return their own fields |
| PerfAttrs.CatchGettersRead | src/perf_attrs.rs:123-145 | over a catch result, `pp` returns its own field |
| PerfAttrs.ManiaGettersRead | src/perf_attrs.rs:123-145 | over a mania result, `pp` and `pp_difficulty` return their own fields |
| ModsInput.ExtractSettings | src/mods.rs:148-156 | an absent or `None` "settings" entry means no settings, a dict is the settings, anything else is an error |
| ModsInput.ExtractPyGameModShape | src/mods.rs:141-159 | a `GameMod` dict is extracted exactly when it is a dict with a str "acronym" and a "settings" that is absent, `None` or a dict, with that acronym and settings |
| ModsInput.ExtractPyGameModErrors | src/mods.rs:141-159 | a non-dict is a downcast error, a missing "acronym" a `KeyError`, a non-str acronym an error on the field `acronym` |
| ModsInput.ExtractUnion | src/mods.rs:161-166 | a list element is a `GameMod` dict (extracted as that dict's `GameMod`), else a str acronym, else `u32` bits, tried in that order; it extracts exactly when one of them does |
| ModsInput.ExtractPyValue | src/mods.rs:496-501 | a setting value is a bool, else a number (ints that fit an `f64` included), else a str; it extracts exactly for those kinds |
| ModsValue.Deserialize | src/mods.rs:503-749 | each entry point accepts exactly its kinds and passes the value on; any other kind is an `invalid_type` error showing the value; `deserialize_option` wraps, `deserialize_ignored_any` visits unit |
| ModsValue.AnyIsOwnKind | src/mods.rs:506-635 | `deserialize_any` behaves as the typed entry point of the value's kind, the only typed one that accepts it |
| ModsCatalog.ReadEntry | src/mods.rs:472-481 | a settings entry is read exactly when its key is a str and its value a setting value; each failure is a custom error |
| ModsCatalog.SettingStep | src/mods.rs:651-748 | a setting the mod has is read through `deserialize_option` and must be of its kind; any other name is skipped through `deserialize_ignored_any` |
| ModsCatalog.EntryStep | src/mods.rs:466-489 | an entry is accepted exactly when it reads and has its setting's kind; a setting of the mod is stored, any other key leaves the settings as they were |
| ModsCatalog.SettingsFromAccepted | src/mods.rs:463-494 | reading a settings dict succeeds exactly when every entry is accepted, and the result holds only settings of the mod, of their kinds |
| ModsCatalog.SeedGameModResult | src/mods.rs:413-456 | a mod read from a dict keeps its acronym and only conforming settings; without settings it is the mod of the bare acronym |
| ModsAccess.DictAccess.constructor | src/mods.rs:441-444 | the access starts at the first entry of the settings dict with no value kept |
| ModsAccess.DictAccess.SizeHint | src/mods.rs:491-493 | the size hint is the number of entries not yet consumed |
| ModsAccess.DictAccess.NextKey | src/mods.rs:466-482 | at the end of the dict there is no key; otherwise one entry is consumed, a key that is not a str or a value that is not a setting value is a custom error, and on success the key is returned and the value kept |
| ModsAccess.DictAccess.NextValue | src/mods.rs:484-489 | the kept value is handed to the requested entry point and no longer kept |
| ModsAccess.ReadEntryOf | src/mods.rs:466-489 | one key then one value consumed through the access is the entry step of the settings specification |
| ModsAccess.ReadSettings | src/mods.rs:440-451 | driving the access to the end of the dict yields the settings specification: the first failing entry ends the read |
| ModsAccess.PyGameModMap.constructor | src/mods.rs:407-411 | the map starts holding the whole `GameMod` |
| ModsAccess.PyGameModMap.NextKey | src/mods.rs:416-428 | the key is "acronym" exactly while full, "settings" exactly while the settings are pending, and there is none exactly when done |
| ModsAccess.PyGameModMap.NextAcronym | src/mods.rs:434-439 | the acronym is handed out; the map moves to the settings when there are any, else it is done |
| ModsAccess.PyGameModMap.NextSettings | src/mods.rs:440-451 | the settings dict is read as the settings specification and the map is done whatever the outcome |
| ModsAccess.VisitGameMod | src/mods.rs:413-456 | driving the map yields the mod seed's specification, and a successful read sees the keys "acronym", "settings" only when there are settings, then the end |
| Mods.ElementMod | src/mods.rs:95-109 | a `GameMod` dict element gives the mod seed's outcome on that dict; otherwise a str gives the seed's outcome on the acronym; otherwise an in-range integer gives the seed's outcome on the bits; a seed error becomes a `ParseError`; any other element fails with the union's enum error |
| Mods.SeedElementOf | src/mods.rs:95-104 | the seed on one extracted element: a `GameMod` through its map, an acronym as a str, bits as a `u32` |
| Mods.ListFold | src/mods.rs:90-112 | the `try_fold` over the list, starting from no mods and inserting each element's mod, is the list specification |
| Mods.ListFromOk | src/mods.rs:90-112 | the fold succeeds exactly when every element gives a mod |
| Mods.ListFromSnoc | src/mods.rs:106-111 | one more element inserts its mod into what the fold collected before it, or ends the fold with its error |
| Mods.ListFromFirstError | src/mods.rs:106-109 | the first element that gives no mod ends the fold with its error, whatever follows |
| Mods.Extract | src/mods.rs:36-127 | the four shapes are tried in order, the first that succeeds is returned, and when none does the error lists all four causes |
| Mods.AbsentIsNoMod | src/mods.rs:41-43 | no `mods` argument means no mods |
| Mods.IntIsLegacyBits | src/mods.rs:49-52 | an int in `u32` range is taken as legacy mods with those bits |
| Mods.StrIsAcronyms | src/mods.rs:53-68 | a str never fails: legacy mods exactly when its acronyms have legacy bits, otherwise the intermode mods of those acronyms |
| Mods.GameModDictIsOneMod | src/mods.rs:69-82 | a `GameMod` gives the mods holding the one mod the seed reads, or a final error whose third cause is the seed's error as a `ParseError` |
| Mods.ListIsFold | src/mods.rs:83-117 | a list succeeds exactly when every element gives a mod, with the fold's collection; otherwise the final error's last cause is the fold's error |
| Mods.ResolveOutcome | src/mods.rs:47-127 | only the four shapes are accepted, typed mods only from a `GameMod` or a list, intermode mods only from a str, and any failure is the `PyGameMods` enum error with the four variants, shapes and one cause each |
| Difficulty.Stage | src/difficulty.rs:193-223 | each setting step of `as_difficulty` makes at most one call on the builder, of its own kind |
| Difficulty.CallsUpTo | src/difficulty.rs:184-191 | the builder always receives the resolved mods first |
| Difficulty.CallsUpToOrdered | src/difficulty.rs:183-226 | the builder's calls come in the source's order, each kind at most once |
| Difficulty.CallsUpToMembers | src/difficulty.rs:193-223 | a call is made exactly when it is the mods or the call that a set setting asks for |
| Difficulty.CallsUpToDefault | src/difficulty.rs:183-226 | with nothing set, the builder only receives the mods |
| Difficulty.AsDifficultyModsFirst | src/difficulty.rs:186-191 | `as_difficulty` fails exactly when resolving the mods fails, with that error; otherwise the mods are the first call and the rest follow in order |
| Difficulty.AsDifficultyAppliesSettings | src/difficulty.rs:193-207 | passed objects, clock rate, AR and CS (with their flags) are passed exactly when they are set |
| Difficulty.AsDifficultyAppliesMoreSettings | src/difficulty.rs:209-223 | HP, OD (with their flags), hardrock offsets and lazer are passed exactly when they are set |
| Difficulty.DefaultOnlyMods | src/difficulty.rs:183-226 | a fresh `Difficulty` configures the builder with no mods and nothing else |
| Difficulty.PyDifficulty.constructor | src/difficulty.rs:42-46 | `Difficulty()` without keywords holds the default settings |
| Difficulty.PyDifficulty.FromSettings | src/difficulty.rs:21-35 | a `Difficulty` holds exactly the settings it is built with |
| Difficulty.PyDifficulty.SetMods | src/difficulty.rs:132-135 | the mods are replaced and every other setting kept |
| Difficulty.PyDifficulty.SetLazer | src/difficulty.rs:137-140 | the lazer flag is replaced and every other setting kept |
| Difficulty.PyDifficulty.SetClockRate | src/difficulty.rs:142-145 | the clock rate is replaced and every other setting kept |
| Difficulty.PyDifficulty.SetAr | src/difficulty.rs:147-151 | AR and its flag are replaced and every other setting kept |
| Difficulty.PyDifficulty.SetCs | src/difficulty.rs:153-157 | CS and its flag are replaced and every other setting kept |
| Difficulty.PyDifficulty.SetHp | src/difficulty.rs:159-163 | HP and its flag are replaced and every other setting kept |
| Difficulty.PyDifficulty.SetOd | src/difficulty.rs:165-169 | OD and its flag are replaced and every other setting kept |
| Difficulty.PyDifficulty.SetPassedObjects | src/difficulty.rs:171-174 | the passed-object count is replaced and every other setting kept |
| Difficulty.PyDifficulty.SetHardrockOffsets | src/difficulty.rs:176-179 | the hardrock-offsets flag is replaced and every other setting kept |
| Difficulty.PyDifficulty.AsDifficulty | src/difficulty.rs:183-226 | the step-by-step builder is the `as_difficulty` specification |
| Difficulty.PyDifficulty.ApplySettings | src/difficulty.rs:184-207 | after the mods, reassigning the builder with each set setting gives the specified calls |
| Difficulty.PyDifficulty.ApplyLaterSettings | src/difficulty.rs:209-225 | the later steps complete the specified calls |
| Difficulty.PyDifficulty.Calculate | src/difficulty.rs:71-76 | mods are resolved for the beatmap's own mode; a resolution error is the result, else the engine's attributes for the specified calls, converted |
| Difficulty.PyDifficulty.Strains | src/difficulty.rs:78-83 | as `calculate`, for the strains |
| PerformanceCalculator.PriorityConversionBijective | src/performance.rs:377-394 | the conversion to the library's priority is a bijection, and the default priority is best case |
| PerformanceCalculator.FromDifficultySettings | src/difficulty.rs:85-118 | `Difficulty.performance()` copies the thirteen difficulty settings and leaves every score setting and the priority at its default |
| PerformanceCalculator.DifficultyRoundTrip | src/performance.rs:126-159 | a `Difficulty` turned into a `Performance` and back keeps every setting; a `Performance` turned into a `Difficulty` and back is unchanged exactly when its score settings were at their defaults |
| PerformanceCalculator.ScoreStage | src/performance.rs:273-315 | each score step of `apply` makes at most one call on the builder, of its own kind |
| PerformanceCalculator.ScoreCallsOrdered | src/performance.rs:273-315 | the score calls come in the source's order, each kind at most once |
| PerformanceCalculator.ScoreCallsMembers | src/performance.rs:273-315 | a score call is made exactly when a set setting asks for it |
| PerformanceCalculator.ScoreCallsUpToDefault | src/performance.rs:272-315 | with no score setting, no score call is made |
| PerformanceCalculator.ApplyOutcome | src/performance.rs:272-329 | `apply` fails exactly when the mods do not resolve for the builder's mode, with that error; otherwise it keeps the builder's source and earlier calls and appends the score calls in order, then the priority, then the configured difficulty |
| PerformanceCalculator.ApplyUsesVariantMode | src/performance.rs:317-324 | the mods are resolved for the mode of the attributes, or of the beatmap, the builder was made from |
| PerformanceCalculator.ScoreCallForwarded | src/performance.rs:273-315 | a score call is forwarded exactly when its setting is set to its value |
| PerformanceCalculator.ScoreSettingsForwarded | src/performance.rs:273-283 | accuracy, combo and slider-end hits are forwarded exactly when set, with their values |
| PerformanceCalculator.TickCountsForwarded | src/performance.rs:285-291 | large and small tick hits are forwarded exactly when set, with their values |
| PerformanceCalculator.HitCountsForwarded | src/performance.rs:293-303 | geki, katu and 300 counts are forwarded exactly when set, with their values |
| PerformanceCalculator.LowerHitCountsForwarded | src/performance.rs:305-315 | 100, 50 and miss counts are forwarded exactly when set, with their values |
| PerformanceCalculator.DefaultApply | src/performance.rs:272-329 | with the default settings, the builder only receives the best-case priority and a difficulty holding no mods |
| PerformanceCalculator.SourceOf | src/performance.rs:102-116 | performance attributes, then difficulty attributes, then a beatmap are tried; attributes give a builder of their mode exactly when they are complete; anything else is an `ArgsError` with the source's message |
| PerformanceCalculator.Evaluate | src/performance.rs:119-123 | the result carries the engine's difficulty attributes and the score state generated for the configured builder |
| PerformanceCalculator.CalculateOutcome | src/performance.rs:97-124 | the argument error is raised exactly for an argument of another type; a beatmap succeeds exactly when the mods resolve for its mode, difficulty attributes exactly when complete and the mods resolve for their mode; a result always carries a score state |
| PerformanceCalculator.PyPerformance.constructor | src/performance.rs:56-60 | `Performance()` without keywords holds the default settings |
| PerformanceCalculator.PyPerformance.FromDifficulty | src/difficulty.rs:85-118 | the new `Performance` holds the difficulty's settings and default score settings |
| PerformanceCalculator.PyPerformance.Difficulty | src/performance.rs:126-159 | a new `Difficulty` is made holding exactly the thirteen shared settings |
| PerformanceCalculator.PyPerformance.SetMods | src/performance.rs:161-164 | the mods replaced and every other setting kept |
| PerformanceCalculator.PyPerformance.SetLazer | src/performance.rs:166-169 | the lazer flag replaced and every other setting kept |
| PerformanceCalculator.PyPerformance.SetClockRate | src/performance.rs:171-174 | the clock rate replaced and every other setting kept |
| PerformanceCalculator.PyPerformance.SetAr | src/performance.rs:176-180 | AR and its flag replaced and every other setting kept |
| PerformanceCalculator.PyPerformance.SetCs | src/performance.rs:182-186 | CS and its flag replaced and every other setting kept |
| PerformanceCalculator.PyPerformance.SetHp | src/performance.rs:188-192 | HP and its flag replaced and every other setting kept |
| PerformanceCalculator.PyPerformance.SetOd | src/performance.rs:194-198 | OD and its flag replaced and every other setting kept |
| PerformanceCalculator.PyPerformance.SetPassedObjects | src/performance.rs:200-203 | the passed-object count replaced and every other setting kept |
| PerformanceCalculator.PyPerformance.SetHardrockOffsets | src/performance.rs:205-208 | the hardrock-offsets flag replaced and every other setting kept |
| PerformanceCalculator.PyPerformance.SetAccuracy | src/performance.rs:210-213 | the accuracy replaced and every other setting kept |
| PerformanceCalculator.PyPerformance.SetCombo | src/performance.rs:215-218 | the combo replaced and every other setting kept |
| PerformanceCalculator.PyPerformance.SetLargeTickHits | src/performance.rs:220-223 | the large tick hits replaced and every other setting kept |
| PerformanceCalculator.PyPerformance.SetSmallTickHits | src/performance.rs:225-228 | the small tick hits replaced and every other setting kept |
| PerformanceCalculator.PyPerformance.SetSliderEndHits | src/performance.rs:230-233 | the slider-end hits replaced and every other setting kept |
| PerformanceCalculator.PyPerformance.SetNGeki | src/performance.rs:235-238 | the geki count replaced and every other setting kept |
| PerformanceCalculator.PyPerformance.SetNKatu | src/performance.rs:240-243 | the katu count replaced and every other setting kept |
| PerformanceCalculator.PyPerformance.SetN300 | src/performance.rs:245-248 | the 300 count replaced and every other setting kept |
| PerformanceCalculator.PyPerformance.SetN100 | src/performance.rs:250-253 | the 100 count replaced and every other setting kept |
| PerformanceCalculator.PyPerformance.SetN50 | src/performance.rs:255-258 | the 50 count replaced and every other setting kept |
| PerformanceCalculator.PyPerformance.SetMisses | src/performance.rs:260-263 | the miss count replaced and every other setting kept |
| PerformanceCalculator.PyPerformance.SetHitResultPriority | src/performance.rs:265-268 | the priority is replaced, no priority meaning the default one, and every other setting kept |
| PerformanceCalculator.PyPerformance.Calculate | src/performance.rs:97-124 | the step-by-step `calculate` is its specification: source, `apply`, evaluation |
| PerformanceCalculator.PyPerformance.Apply | src/performance.rs:272-329 | the step-by-step `apply` is its specification |
| PerformanceCalculator.PyPerformance.ApplyScore | src/performance.rs:273-291 | reassigning the builder with each set score setting gives the specified score calls |
| PerformanceCalculator.PyPerformance.ApplyHitCounts | src/performance.rs:293-303 | the geki, katu and 300 steps continue the specified score calls |
| PerformanceCalculator.PyPerformance.ApplyLowerHitCounts | src/performance.rs:305-315 | the 100, 50 and miss steps complete the specified score calls |
| PerformanceCalculator.PyPerformance.AsDifficulty | src/performance.rs:331-374 | `as_difficulty` of a `Performance` is that of a `Difficulty` holding its thirteen shared settings |
| PerformanceCalculator.PyPerformance.ApplySettings | src/performance.rs:332-355 | after the mods, reassigning the difficulty builder with each set setting gives the specified calls |
| PerformanceCalculator.PyPerformance.ApplyLaterSettings | src/performance.rs:357-373 | the later difficulty steps complete the specified calls |
| BeatmapAttributesBuilder.WithMap | src/attributes/beatmap.rs:173-182 | `set_map` takes the mode, AR, CS, HP, OD and conversion flag from the beatmap and keeps the mods, clock rate and every with-mods flag |
| BeatmapAttributesBuilder.StepOutcome | src/attributes/beatmap.rs:39-128 | an unknown keyword is an `ArgsError` with the source's message; "map" takes a beatmap, "mode" a mode, the float settings a float or an int that fits an `f64`, the flags a bool, each else a `TypeError` naming the keyword; "mods" takes anything, none meaning unset |
| BeatmapAttributesBuilder.FloatKwargSets | src/attributes/beatmap.rs:64-112 | a float keyword with a numeric value sets exactly that setting of what was built so far, so a later keyword overrides an earlier one |
| BeatmapAttributesBuilder.MapKwargCopiesMap | src/attributes/beatmap.rs:41-47 | a "map" keyword copies the beatmap's settings over what was built so far |
| BeatmapAttributesBuilder.RefusedKwargIsFinal | src/attributes/beatmap.rs:39-129 | the first refused keyword ends construction with its error, whatever follows |
| BeatmapAttributesBuilder.Stage | src/attributes/beatmap.rs:146-168 | each step of `build` makes at most one call on the builder, of its own kind |
| BeatmapAttributesBuilder.CallsUpTo | src/attributes/beatmap.rs:135-144 | the builder always receives the resolved mods first |
| BeatmapAttributesBuilder.FromBeatmapAttributesBijective | src/attributes/beatmap.rs:241-270 | the conversion to the Python record loses nothing, and every record is the conversion of some attributes |
| BeatmapAttributesBuilder.FromBeatmapAttributes | src/attributes/beatmap.rs:241-270 | AR, OD, CS, HP, the clock rate and the four hit windows are each handed to Python under their own name |
| BeatmapAttributesBuilder.CallsUpToOrdered | src/attributes/beatmap.rs:134-171 | the builder's calls come in the source's order, each kind at most once |
| BeatmapAttributesBuilder.CallsUpToMembers | src/attributes/beatmap.rs:146-168 | a call is made exactly when it is the mods or the call a set setting asks for |
| BeatmapAttributesBuilder.BuildOutcome | src/attributes/beatmap.rs:134-171 | `build` fails exactly when the mods do not resolve for the mode set (osu! when none is), with that error; otherwise the mods come first and the other calls in order |
| BeatmapAttributesBuilder.BuildAppliesSettings | src/attributes/beatmap.rs:146-156 | the mode with the conversion flag, the clock rate and AR with its flag are passed exactly when set |
| BeatmapAttributesBuilder.BuildAppliesMoreSettings | src/attributes/beatmap.rs:158-168 | CS, HP and OD with their flags are passed exactly when set |
| BeatmapAttributesBuilder.PyBeatmapAttributesBuilder.constructor | src/attributes/beatmap.rs:11-37 | a builder without keywords holds the default settings |
| BeatmapAttributesBuilder.PyBeatmapAttributesBuilder.ApplyKwarg | src/attributes/beatmap.rs:40-128 | one keyword either fails with the step's error or leaves the settings the step gives |
| BeatmapAttributesBuilder.PyBeatmapAttributesBuilder.SetMap | src/attributes/beatmap.rs:173-182 | the settings become the beatmap-copied ones |
| BeatmapAttributesBuilder.PyBeatmapAttributesBuilder.SetMode | src/attributes/beatmap.rs:184-188 | the mode and conversion flag are replaced and every other setting kept |
| BeatmapAttributesBuilder.PyBeatmapAttributesBuilder.SetMods | src/attributes/beatmap.rs:190-193 | the mods are replaced and every other setting kept |
| BeatmapAttributesBuilder.PyBeatmapAttributesBuilder.SetClockRate | src/attributes/beatmap.rs:195-198 | the clock rate is replaced and every other setting kept |
| BeatmapAttributesBuilder.PyBeatmapAttributesBuilder.SetAr | src/attributes/beatmap.rs:200-204 | AR and its flag are replaced and every other setting kept |
| BeatmapAttributesBuilder.PyBeatmapAttributesBuilder.SetCs | src/attributes/beatmap.rs:206-210 | CS and its flag are replaced and every other setting kept |
| BeatmapAttributesBuilder.PyBeatmapAttributesBuilder.SetHp | src/attributes/beatmap.rs:212-216 | HP and its flag are replaced and every other setting kept |
| BeatmapAttributesBuilder.PyBeatmapAttributesBuilder.SetOd | src/attributes/beatmap.rs:218-222 | OD and its flag are replaced and every other setting kept |
| BeatmapAttributesBuilder.PyBeatmapAttributesBuilder.Build | src/attributes/beatmap.rs:134-171 | the step-by-step `build` is its specification |
| BeatmapAttributesBuilder.PyBeatmapAttributesBuilder.BuildModeAndRates | src/attributes/beatmap.rs:135-156 | after the mods, the mode, clock-rate and AR steps, then the rest, give the specified calls |
| BeatmapAttributesBuilder.PyBeatmapAttributesBuilder.BuildDimensions | src/attributes/beatmap.rs:158-168 | the CS, HP and OD steps complete the specified calls |
| BeatmapAttributesBuilder.New | src/attributes/beatmap.rs:30-132 | construction fails with the first refused keyword's error, else yields a fresh builder holding the keywords folded in order over the defaults |
| Calculator.Present | src/calculator.rs:34-42 | `set_calc!` makes at most one call per field it lists |
| Calculator.PresentAppend | src/calculator.rs:34-42 | the calls for a list of fields are those for its first part followed by those for the rest, so the fields are forwarded in the order listed |
| Calculator.PresentMembers | src/calculator.rs:37-39 | a call is made exactly when its field is set to that value |
| Calculator.SetCalc | src/calculator.rs:34-42 | the macro's reassignments, field by field, append exactly the calls for the set fields, in order |
| Calculator.StarsCallsForwarded | src/calculator.rs:223-234 | `difficulty` forwards the mode, mods, passed objects and clock rate exactly when set, with their values, and nothing else |
| Calculator.PpCountFieldMember | src/calculator.rs:242-247 | a hit-count call comes from the count fields exactly when that count is set to its value |
| Calculator.PpFieldMember | src/calculator.rs:239-251 | the macro's calls in `performance` are exactly the calls asked for other than attributes and accuracy |
| Calculator.PpCallMember | src/calculator.rs:236-262 | `performance` makes a call exactly when its setting is set to its value |
| Calculator.PpCallsOrder | src/calculator.rs:239-259 | the macro never sets attributes or accuracy; attributes and accuracy are forwarded exactly when set, and when both are set they are the last two calls, attributes first |
| Calculator.PpCountsForwarded | src/calculator.rs:242-247 | each of the six hit counts is forwarded exactly when set, with its value |
| Calculator.PpSettingsForwarded | src/calculator.rs:240-250 | the mode, mods, combo, passed objects and clock rate are forwarded exactly when set, with their values |
| Calculator.ModeOfInt | src/calculator.rs:63-69 | a mode integer names a mode exactly when it is below 4 |
| Calculator.ModeKwarg | src/calculator.rs:58-70 | the "mode" keyword maps 0 to 3 to osu!, taiko, catch and mania; another `u8` is a `ValueError`, anything else a `TypeError` |
| Calculator.AliasesAgree | src/calculator.rs:106-132 | "acc" and "accuracy" behave alike, as do "difficulty" and "attributes"; the accuracy takes none, a float or an int that fits an `f64`, the difficulty only difficulty attributes |
| Calculator.CountKwargSets | src/calculator.rs:76-120 | a count keyword with none clears the count, and with an in-range integer sets it, over what was built so far |
| Calculator.UnknownKwargRefused | src/calculator.rs:133-141 | an unknown keyword is a `KwargsError` naming it and listing the accepted ones |
| Calculator.RefusedKwargIsFinal | src/calculator.rs:56-143 | the first refused keyword ends construction with its error, whatever follows |
| Calculator.ConvertedFlag | src/calculator.rs:196-221 | `converted(true)` is called exactly when a mode is set and the beatmap converted to it has another mode that is osu!; the mode is forwarded exactly when set; without a mode the beatmap and its own mode are used |
| Calculator.ConvertedNeverWhenConversionReachesMode | src/calculator.rs:197-209 | when conversion reaches the requested mode from osu! and leaves other beatmaps alone, `converted(true)` is never called |
| Calculator.PyCalculator.constructor | src/calculator.rs:49-52 | `Calculator()` without keywords holds no settings |
| Calculator.PyCalculator.ApplyKwarg | src/calculator.rs:57-142 | one keyword either fails with the step's error or leaves the settings the step gives |
| Calculator.PyCalculator.ApplyOtherKwarg | src/calculator.rs:106-141 | the accuracy, clock-rate, difficulty and unknown keywords either fail with the step's error or leave the settings the step gives |
| Calculator.PyCalculator.SetCountField | src/calculator.rs:76-120 | a count keyword's value is stored in its own field and nowhere else |
| Calculator.PyCalculator.SetMods | src/calculator.rs:148-150 | the mods is set to the value and every other setting kept |
| Calculator.PyCalculator.SetAcc | src/calculator.rs:152-154 | the accuracy is set to the value and every other setting kept |
| Calculator.PyCalculator.SetNGeki | src/calculator.rs:156-158 | the geki count is set to the value and every other setting kept |
| Calculator.PyCalculator.SetNKatu | src/calculator.rs:160-162 | the katu count is set to the value and every other setting kept |
| Calculator.PyCalculator.SetN300 | src/calculator.rs:164-166 | the 300 count is set to the value and every other setting kept |
| Calculator.PyCalculator.SetN100 | src/calculator.rs:168-170 | the 100 count is set to the value and every other setting kept |
| Calculator.PyCalculator.SetN50 | src/calculator.rs:172-174 | the 50 count is set to the value and every other setting kept |
| Calculator.PyCalculator.SetNMisses | src/calculator.rs:176-178 | the miss count is set to the value and every other setting kept |
| Calculator.PyCalculator.SetCombo | src/calculator.rs:180-182 | the combo is set to the value and every other setting kept |
| Calculator.PyCalculator.SetPassedObjects | src/calculator.rs:184-186 | the passed-object count is set to the value and every other setting kept |
| Calculator.PyCalculator.SetClockRate | src/calculator.rs:188-190 | the clock rate is set to the value and every other setting kept |
| Calculator.PyCalculator.SetDifficulty | src/calculator.rs:192-194 | the attributes are set to the record's inner attributes and every other setting kept |
| Calculator.PyCalculator.MapAttributes | src/calculator.rs:196-221 | the builder's beatmap, calls and reported mode are those of the `map_attributes` specification |
| Calculator.PyCalculator.Difficulty | src/calculator.rs:223-234 | the result is the engine's star calculation for the forwarded settings, wrapped |
| Calculator.PyCalculator.Performance | src/calculator.rs:236-262 | the result is the engine's pp calculation for the forwarded settings, wrapped |
| Calculator.PyCalculator.Strains | src/calculator.rs:264-275 | the strain calculator receives the same calls as `difficulty` |
| Calculator.New | src/calculator.rs:46-146 | construction fails with the first refused keyword's error, else yields a fresh calculator holding the keywords folded in order over the defaults |

## Left out

- The scoring mathematics is left out because it is external `rosu_pp` code. This covers `Difficulty::calculate`, `strains`, `Performance::calculate`, `generate_state`, the old `AnyStars`/`AnyPP` calculators and the old attributes builder. They are uninterpreted functions of the call sequence, in `Rosu.Engine` and `Calculator.OldEngine`.
- The gradual iterators (`src/gradual/`) are left out because they are thin wrappers over the same external calculators.
- `rosu_mods` internals are left out because they belong to another crate. These are `from_acronyms`, `checked_bits`, `from_bits`, `GameModsLazer::insert` and the `GameModSeed` catalog of mods and their settings. They are the fields of `ModsCatalog.Catalog`. The seed's settings visitor reads each setting through `deserialize_option`, checks it against the mod's schema, and skips unknown names because `deny_unknown_fields` is false.
- `to_str` failing on a str with lone surrogates (`src/mods.rs:54-65`) is left out because strings are sequences of characters here and always convert.
- The `try_iter()?` and `item?` early returns of the list branch (`src/mods.rs:91-94`) are left out because iterating a Python list cannot fail. A failing element extraction is modelled: it ends the fold with its error, as the `?` on `extract` does.
- The `deserialize_*` entry points of the two deserializers that end in `unimplemented!()` are left out, because they panic. The seed never asks for them: the model's `Request` type only holds the entry points that are implemented.
- Beatmap parsing and loading (`src/beatmap.rs`) is left out because it is file and byte I/O. A beatmap is a value with the fields the bindings read.
- `Beatmap::convert_mode` is left out because it is external. It is a parameter of `Calculator.OldEngine`.
- `src/map_attrs.rs` is not part of this model: its only computation is float arithmetic on external values. `Calculator.PyCalculator.MapAttributes` returns the builder request (beatmap, calls, mode) that it is built from.
- `Calculator.PyCalculator.Strains` returns the calls made on the strain calculator and not the converted strains, because the older API's strains type is external.
- The `extract_args!` keyword parsing of `Difficulty(**kwargs)` and `Performance(**kwargs)` is left out because that macro is not part of this model. Only the keyword-free constructors are modelled.
- The `Debug`/`Display` text of the older `DifficultyAttributes`/`PerformanceAttributes` wrappers is left out because it is standard formatting. Their getters are modelled.
- The f32/f64 distinction and float arithmetic are left out because floats are only copied.
- PyO3 plumbing is left out: the GIL, reference counts, `clone_ref`, exception-type creation (`src/error.rs`) and module registration (`src/lib.rs`). Exceptions are values of `Errors.PyErr`, and a Python object's identity is not modelled.
- `SECTION_LEN` of each mode's strains is a `rosu_pp` constant, not repository code. It enters `Strains` as a named constant, and only its copying into the record is modelled.
- Python.ExtractFloat: objects of other types that define `__float__` or `__index__` (a `numpy.float32`, say) are refused here, while PyO3 converts them through Python's float protocol; an object's Python methods are not part of this model. The same holds for `__index__` objects given to the int extractions such as `Python.ExtractU32`.
- DifficultyAttributes.CatchMaxCombo: the library's `max_combo()` called at `src/attributes/difficulty.rs:132` is external code. The model assumes it is `n_fruits + n_droplets`, wrapping in `u32` because this library generation stores those counts as `u32` (`src/attributes/difficulty.rs:33-34`). Only that the record copies the library's value is promised by the source.
- DiffAttrs.CatchMaxCombo: the older library's `max_combo()` called at `src/diff_attrs.rs:182` is external code. The model assumes it is the same sum, wrapping in `usize` (64 bits here) because the older generation's counts and getter are `usize` (`src/diff_attrs.rs:178`, `src/diff_attrs.rs:228-229`). The two definitions differ only in width, since they model two library generations.
