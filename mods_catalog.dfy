// The mods library the bindings hand their input to, as a parameter: its
// three mod collections, the functions the bindings call on them, and the
// mod seed's reading of an acronym, of bits and of a settings dict.
module ModsCatalog {
  import opened Base
  import opened Errors
  import opened Python
  import opened ModsInput
  import opened ModsValue

  /** Legacy mods: a bitflag set. */
  datatype GameModsLegacy = GameModsLegacy(bits: U32)

  /** `GameModsLegacy::NoMod`. */
  const NO_MOD: GameModsLegacy := GameModsLegacy(0)

  /** Mods known only by acronym, for no mode in particular. */
  datatype GameModsIntermode = GameModsIntermode(acronyms: set<string>)

  /** One typed mod: its acronym and the settings it was given. */
  datatype GameMod = GameMod(acronym: string, settings: map<string, PyValue>)

  /** A typed mod collection (`GameMods`), in insertion order. */
  datatype GameModsLazer = GameModsLazer(mods: seq<GameMod>)

  /** `GameMods::new()`. */
  const EMPTY: GameModsLazer := GameModsLazer([])

  /** The kind of value a setting of a mod takes. */
  datatype Kind = BoolKind | NumberKind | StringKind

  /** The settings a mod has, by name. */
  type Schema = map<string, Kind>

  /** The deserializer entry point a setting's visitor calls for its kind. */
  function RequestFor(k: Kind): Request
  {
    match k
    case BoolKind => BoolRequest
    case NumberKind => F64Request
    case StringKind => StringRequest
  }

  function KindOf(v: PyValue): Kind
  {
    match v
    case Bool(_) => BoolKind
    case Number(_) => NumberKind
    case String(_) => StringKind
  }

  /** The mods library's functions the bindings call, left uninterpreted:
      `GameModsIntermode::from_acronyms`, `checked_bits`,
      `GameModsLegacy::from_bits`, the mod seed's lookup of a mode's mod by
      acronym (giving its settings) and by bits, and `GameMods::insert`. A
      lookup failure carries the library's message. */
  datatype Catalog = Catalog(
    fromAcronyms: string -> GameModsIntermode,
    checkedBits: GameModsIntermode -> Option<U32>,
    legacyFromBits: U32 -> GameModsLegacy,
    schema: (GameMode, string) -> Result<Schema, string>,
    modFromBits: (GameMode, U32) -> Result<GameMod, string>,
    insert: (GameModsLazer, GameMod) -> GameModsLazer)

  // ---------------------------------------------------------------------
  // A settings dict, as `DictAccess` hands it to the settings visitor.

  /** `DictAccess::next_key_seed` on one entry: the key must be a str and
      the value a setting value; either failure is a custom error wrapping
      the extraction error. */
  function ReadEntry(e: (PyObj, PyObj)): (r: Result<(string, PyValue), DeErr>)
    ensures r.Ok? <==> e.0.PyStr? && ExtractPyValue(e.1).Ok?
    ensures r.Ok? ==> r.value == (e.0.s, ExtractPyValue(e.1).value)
  {
    match ExtractStr(e.0)
    case Err(err) => Err(Custom(err))
    case Ok(key) =>
      match ExtractPyValue(e.1)
      case Err(err) => Err(Custom(err))
      case Ok(v) => Ok((key, v))
  }

  /** The settings visitor on one setting: a setting of the mod is an
      `Option` of its kind (`deserialize_option`, then the kind's entry
      point); an unknown name is skipped (`deserialize_ignored_any`). */
  function SettingStep(acc: map<string, PyValue>, key: string, v: PyValue, schema: Schema): (r: Result<map<string, PyValue>, DeErr>)
    ensures key !in schema ==> r == Ok(acc)
    ensures key in schema ==> (r.Ok? <==> KindOf(v) == schema[key])
    ensures key in schema && r.Ok? ==> r.value == acc[key := v]
    ensures key in schema && r.Err? ==> r.error == InvalidType(UnexpectedOf(v), RequestFor(schema[key]))
  {
    if key in schema then
      match Deserialize(v, OptionRequest)
      case Err(e) => Err(e)
      case Ok(visit) =>
        match Deserialize(Payload(visit).value, RequestFor(schema[key]))
        case Err(e) => Err(e)
        case Ok(typed) => Ok(acc[key := Payload(typed).value])
    else
      match Deserialize(v, IgnoredAnyRequest)
      case Err(e) => Err(e)
      case Ok(_) => Ok(acc)
  }

  /** One entry of the settings dict: read, then applied to the settings
      read so far. */
  function EntryStep(acc: map<string, PyValue>, e: (PyObj, PyObj), schema: Schema): (r: Result<map<string, PyValue>, DeErr>)
    ensures r.Ok? <==> EntryAccepted(e, schema)
    ensures r.Ok? && e.0.s in schema ==> r.value == acc[e.0.s := ExtractPyValue(e.1).value]
    ensures r.Ok? && e.0.s !in schema ==> r.value == acc
  {
    match ReadEntry(e)
    case Err(err) => Err(err)
    case Ok(kv) => SettingStep(acc, kv.0, kv.1, schema)
  }

  /** The settings read so far, then the remaining entries in order; the
      first failing entry ends the read. */
  function SettingsFrom(acc: map<string, PyValue>, entries: seq<(PyObj, PyObj)>, schema: Schema): Result<map<string, PyValue>, DeErr>
    decreases |entries|
  {
    if entries == [] then Ok(acc)
    else
      match EntryStep(acc, entries[0], schema)
      case Err(e) => Err(e)
      case Ok(next) => SettingsFrom(next, entries[1..], schema)
  }

  /** The settings of a settings dict for a mod with the given schema. */
  function SettingsSpec(entries: seq<(PyObj, PyObj)>, schema: Schema): Result<map<string, PyValue>, DeErr>
  {
    SettingsFrom(map[], entries, schema)
  }

  /** An entry the settings read gets past: a str key and a setting value
      that, if the key names a setting of the mod, has that setting's kind. */
  predicate EntryAccepted(e: (PyObj, PyObj), schema: Schema)
  {
    ReadEntry(e).Ok?
    && (ReadEntry(e).value.0 in schema ==> KindOf(ReadEntry(e).value.1) == schema[ReadEntry(e).value.0])
  }

  /** Every setting read is a setting of the mod, of its kind. */
  predicate Conforms(s: map<string, PyValue>, schema: Schema)
  {
    forall k :: k in s ==> k in schema && KindOf(s[k]) == schema[k]
  }

  /** The read succeeds exactly when every entry is accepted, and then it
      holds only settings of the mod, each of its kind. */
  lemma {:induction false} SettingsFromAccepted(acc: map<string, PyValue>, entries: seq<(PyObj, PyObj)>, schema: Schema)
    requires Conforms(acc, schema)
    ensures SettingsFrom(acc, entries, schema).Ok? <==>
      forall i :: 0 <= i < |entries| ==> EntryAccepted(entries[i], schema)
    ensures SettingsFrom(acc, entries, schema).Ok? ==> Conforms(SettingsFrom(acc, entries, schema).value, schema)
    decreases |entries|
  {
    if entries != [] {
      assert forall i :: 1 <= i < |entries| ==> entries[i] == entries[1..][i - 1];
      match EntryStep(acc, entries[0], schema)
      case Err(e) =>
      case Ok(next) =>
        if entries[0].0.s in schema {
          assert KindOf(next[entries[0].0.s]) == schema[entries[0].0.s];
        }
        SettingsFromAccepted(next, entries[1..], schema);
    }
  }

  // ---------------------------------------------------------------------
  // The mod seed (`GameModSeed::Mode`) on each input shape.

  /** The seed on a `GameMod` dict (through `PyGameModMap`): the acronym
      names a mod of the mode, whose settings are read from the settings
      dict when there is one. */
  function SeedGameMod(cat: Catalog, mode: GameMode, gm: PyGameMod): Result<GameMod, DeErr>
  {
    match cat.schema(mode, gm.acronym)
    case Err(msg) => Err(CatalogError(msg))
    case Ok(schema) =>
      match gm.settings
      case None => Ok(GameMod(gm.acronym, map[]))
      case Some(entries) =>
        match SettingsSpec(entries, schema)
        case Err(e) => Err(e)
        case Ok(settings) => Ok(GameMod(gm.acronym, settings))
  }

  /** The seed on an acronym string: the mode's mod of that acronym, with no
      settings. */
  function SeedAcronym(cat: Catalog, mode: GameMode, acronym: string): Result<GameMod, DeErr>
  {
    match cat.schema(mode, acronym)
    case Err(msg) => Err(CatalogError(msg))
    case Ok(_) => Ok(GameMod(acronym, map[]))
  }

  /** The seed on `u32` bits. */
  function SeedBits(cat: Catalog, mode: GameMode, bits: U32): Result<GameMod, DeErr>
  {
    match cat.modFromBits(mode, bits)
    case Err(msg) => Err(CatalogError(msg))
    case Ok(m) => Ok(m)
  }

  /** A mod read from a dict keeps its acronym and holds only settings of
      that mod, each of its kind; without a settings dict it is the mod the
      bare acronym gives. */
  lemma SeedGameModResult(cat: Catalog, mode: GameMode, gm: PyGameMod)
    ensures SeedGameMod(cat, mode, gm).Ok? ==>
      && SeedGameMod(cat, mode, gm).value.acronym == gm.acronym
      && cat.schema(mode, gm.acronym).Ok?
      && Conforms(SeedGameMod(cat, mode, gm).value.settings, cat.schema(mode, gm.acronym).value)
    ensures gm.settings.None? ==> SeedGameMod(cat, mode, gm) == SeedAcronym(cat, mode, gm.acronym)
  {
    if cat.schema(mode, gm.acronym).Ok? && gm.settings.Some? {
      SettingsFromAccepted(map[], gm.settings.value, cat.schema(mode, gm.acronym).value);
    }
  }
}
