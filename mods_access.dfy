// The two `MapAccess` implementations of src/mods.rs, which hand a `GameMod`
// dict to the mods library's seed one key and one value at a time:
// `PyGameModMap` over the dict's two fields and `DictAccess` over the
// settings dict. The seed configuring them is modelled by the driver methods
// at the end, which call them in the order a serde map visitor does.
module ModsAccess {
  import opened Base
  import opened Errors
  import opened Python
  import opened ModsInput
  import opened ModsValue
  import opened ModsCatalog

  // ---------------------------------------------------------------------
  // `DictAccess`: an iterator over the settings dict, holding the value of
  // the key it last handed out until it is asked for it.

  class DictAccess {
    /** The dict's entries, which the iterator runs through. */
    var entries: seq<(PyObj, PyObj)>
    /** How many entries the iterator has consumed. */
    var pos: nat
    /** The value read with the last key, not yet handed out. */
    var nextValue: Option<PyValue>

    predicate Valid()
      reads this
    {
      pos <= |entries|
    }

    /** The entries the iterator has yet to yield. */
    function Remaining(): seq<(PyObj, PyObj)>
      reads this
      requires Valid()
    {
      entries[pos..]
    }

    constructor (entries: seq<(PyObj, PyObj)>)
      ensures Valid() && this.entries == entries && Remaining() == entries && nextValue.None?
    {
      this.entries := entries;
      pos := 0;
      nextValue := None;
    }

    /** `size_hint`: the number of entries left. */
    function SizeHint(): (r: nat)
      reads this
      requires Valid()
      ensures r == |Remaining()|
    {
      |entries| - pos
    }

    /** `next_key_seed`: the next entry's key, after checking that the key
        is a str and the value a setting value; the value is kept for the
        following `NextValue`. At the end of the dict there is no key. */
    method NextKey() returns (r: Result<Option<string>, DeErr>)
      requires Valid() && nextValue.None?
      modifies this
      ensures Valid() && entries == old(entries)
      ensures old(pos) == |entries| ==> r == Ok(None) && pos == old(pos) && nextValue.None?
      ensures old(pos) < |entries| ==> pos == old(pos) + 1
      ensures old(pos) < |entries| && ReadEntry(entries[old(pos)]).Err? ==>
        r == Err(ReadEntry(entries[old(pos)]).error) && nextValue.None?
      ensures old(pos) < |entries| && ReadEntry(entries[old(pos)]).Ok? ==>
        r == Ok(Some(ReadEntry(entries[old(pos)]).value.0))
        && nextValue == Some(ReadEntry(entries[old(pos)]).value.1)
    {
      if pos == |entries| {
        return Ok(None);
      }
      var (key, value) := entries[pos];
      pos := pos + 1;
      var k := ExtractStr(key);
      if k.Err? {
        return Err(Custom(k.error));
      }
      var v := ExtractPyValue(value);
      if v.Err? {
        return Err(Custom(v.error));
      }
      nextValue := Some(v.value);
      var visit := Deserialize(String(k.value), StrRequest);
      return Ok(Some(Payload(visit.value).value.s));
    }

    /** `next_value_seed`: hands the kept value to the entry point `req`
        asks for, and keeps nothing. */
    method NextValue(req: Request) returns (r: Result<Visit, DeErr>)
      requires nextValue.Some?
      modifies this
      ensures nextValue.None? && pos == old(pos) && entries == old(entries)
      ensures r == Deserialize(old(nextValue).value, req)
    {
      var v := nextValue.value;
      nextValue := None;
      r := Deserialize(v, req);
    }
  }

  /** The settings visitor on one entry of a `DictAccess`: its key, then
      its value as the setting's kind (through `deserialize_option`) or,
      for a name the mod does not have, ignored. */
  method ReadEntryOf(access: DictAccess, acc: map<string, PyValue>, schema: Schema) returns (r: Result<map<string, PyValue>, DeErr>)
    requires access.Valid() && access.pos < |access.entries| && access.nextValue.None?
    modifies access
    ensures access.Valid() && access.entries == old(access.entries) && access.nextValue.None?
    ensures access.pos == old(access.pos) + 1
    ensures r == EntryStep(acc, access.entries[old(access.pos)], schema)
  {
    var key := access.NextKey();
    if key.Err? {
      return Err(key.error);
    }
    var name := key.value.value;
    if name in schema {
      var some := access.NextValue(OptionRequest);
      var typed := Deserialize(Payload(some.value).value, RequestFor(schema[name]));
      if typed.Err? {
        return Err(typed.error);
      }
      r := Ok(acc[name := Payload(typed.value).value]);
    } else {
      var ignored := access.NextValue(IgnoredAnyRequest);
      r := Ok(acc);
    }
  }

  /** The settings visitor of a mod with the given schema, driven through a
      `DictAccess`: entries until the end of the dict; the first failing
      entry ends the read. */
  method ReadSettings(entries: seq<(PyObj, PyObj)>, schema: Schema) returns (r: Result<map<string, PyValue>, DeErr>)
    ensures r == SettingsSpec(entries, schema)
  {
    var access := new DictAccess(entries);
    var acc: map<string, PyValue> := map[];
    while access.pos < |entries|
      invariant access.Valid() && access.entries == entries && access.nextValue.None?
      invariant SettingsSpec(entries, schema) == SettingsFrom(acc, entries[access.pos..], schema)
      decreases |entries| - access.pos
    {
      assert entries[access.pos..][0] == entries[access.pos];
      assert entries[access.pos..][1..] == entries[access.pos + 1..];
      var next := ReadEntryOf(access, acc, schema);
      if next.Err? {
        return next;
      }
      acc := next.value;
    }
    var end := access.NextKey();
    assert end == Ok(None);
    assert entries[access.pos..] == [];
    return Ok(acc);
  }

  // ---------------------------------------------------------------------
  // `PyGameModMap`: the `GameMod` dict as a two-field map.

  datatype MapState = Full(gamemod: PyGameMod) | Settings(dict: seq<(PyObj, PyObj)>) | Done

  class PyGameModMap {
    var state: MapState

    constructor (gamemod: PyGameMod)
      ensures state == Full(gamemod)
    {
      state := Full(gamemod);
    }

    /** `next_key_seed`: "acronym" first, "settings" while the settings are
        pending, then the end of the map. */
    method NextKey() returns (r: Option<string>)
      ensures r == Some("acronym") <==> state.Full?
      ensures r == Some("settings") <==> state.Settings?
      ensures r.None? <==> state.Done?
    {
      match state
      case Full(_) => r := Some("acronym");
      case Settings(_) => r := Some("settings");
      case Done => r := None;
    }

    /** `next_value_seed` after "acronym": the acronym; the settings come
        next when there are any, else the map is done. */
    method NextAcronym() returns (r: string)
      requires state.Full?
      modifies this
      ensures r == old(state).gamemod.acronym
      ensures old(state).gamemod.settings.Some? ==> state == Settings(old(state).gamemod.settings.value)
      ensures old(state).gamemod.settings.None? ==> state == Done
    {
      var gamemod := state.gamemod;
      r := gamemod.acronym;
      state := if gamemod.settings.Some? then Settings(gamemod.settings.value) else Done;
    }

    /** `next_value_seed` after "settings": the settings dict read through a
        `DictAccess`; the map is done afterwards, whatever the outcome. */
    method NextSettings(schema: Schema) returns (r: Result<map<string, PyValue>, DeErr>)
      requires state.Settings?
      modifies this
      ensures state == Done
      ensures r == SettingsSpec(old(state).dict, schema)
    {
      r := ReadSettings(state.dict, schema);
      state := Done;
    }
  }

  function Rank(s: MapState): nat
  {
    match s
    case Full(_) => 2
    case Settings(_) => 1
    case Done => 0
  }

  /** The mod seed on a `GameMod` dict: a map visitor reading keys until the
      end of the map, looking the acronym up in the mode's mods and reading
      the settings against that mod's schema. `keys` is the sequence of keys
      the map handed out: "acronym", "settings" only when there are
      settings, then the end. */
  method VisitGameMod(cat: Catalog, mode: GameMode, gamemod: PyGameMod) returns (r: Result<GameMod, DeErr>, ghost keys: seq<Option<string>>)
    ensures r == SeedGameMod(cat, mode, gamemod)
    ensures |keys| >= 1 && keys[0] == Some("acronym")
    ensures r.Ok? ==>
      keys == [Some("acronym")] + (if gamemod.settings.Some? then [Some("settings")] else []) + [None]
  {
    var access := new PyGameModMap(gamemod);
    var schema: Schema := map[];
    var settings: map<string, PyValue> := map[];
    keys := [];
    while true
      invariant access.state.Full? ==> access.state == Full(gamemod) && keys == [] && settings == map[]
      invariant !access.state.Full? ==>
        && cat.schema(mode, gamemod.acronym) == Ok(schema)
        && |keys| >= 1 && keys[0] == Some("acronym")
      invariant access.state.Settings? ==>
        gamemod.settings == Some(access.state.dict) && keys == [Some("acronym")] && settings == map[]
      invariant access.state.Done? ==>
        && keys == [Some("acronym")] + (if gamemod.settings.Some? then [Some("settings")] else [])
        && (gamemod.settings.None? ==> settings == map[])
        && (gamemod.settings.Some? ==> SettingsSpec(gamemod.settings.value, schema) == Ok(settings))
      decreases Rank(access.state)
    {
      var key := access.NextKey();
      keys := keys + [key];
      if key.None? {
        break;
      }
      if key == Some("acronym") {
        var acronym := access.NextAcronym();
        var found := cat.schema(mode, acronym);
        if found.Err? {
          return Err(CatalogError(found.error)), keys;
        }
        schema := found.value;
      } else {
        var read := access.NextSettings(schema);
        if read.Err? {
          return Err(read.error), keys;
        }
        settings := read.value;
      }
    }
    return Ok(GameMod(gamemod.acronym, settings)), keys;
  }
}
