// `PyGameMods::extract` (src/mods.rs): turning whatever a Python caller
// passed as `mods` into one of the mods library's three collections.
module Mods {
  import opened Base
  import opened Errors
  import opened Python
  import opened ModsInput
  import opened ModsCatalog
  import opened ModsAccess

  datatype PyGameMods =
    | Lazer(lazer: GameModsLazer)
    | Intermode(intermode: GameModsIntermode)
    | Legacy(legacy: GameModsLegacy)

  /** `PyGameMods::default()`: no mods. */
  const DEFAULT: PyGameMods := Legacy(NO_MOD)

  /** The variant names and Python shapes the final error lists. */
  const VARIANTS: seq<string> := ["Legacy", "Intermode", "GameMods", "GameMods"]
  const SHAPES: seq<string> := ["int", "str", "GameMod", "List[GameMod | str | int]"]

  // ---------------------------------------------------------------------
  // A mods list.

  /** The mod seed on one list element, after extracting it as the union. */
  function SeedElement(cat: Catalog, mode: GameMode, u: PyGameModUnion): Result<GameMod, DeErr>
  {
    match u
    case Mod(gm) => SeedGameMod(cat, mode, gm)
    case Acronym(acronym) => SeedAcronym(cat, mode, acronym)
    case Bits(bits) => SeedBits(cat, mode, bits)
  }

  /** A seed's outcome as a Python result: a seed error becomes a
      `ParseError` carrying it. */
  function AsParseResult(s: Result<GameMod, DeErr>): Result<GameMod, PyErr>
  {
    match s
    case Ok(m) => Ok(m)
    case Err(d) => Err(ModParseError(d))
  }

  /** The mod a list element gives. The element is read as a `GameMod` dict
      if it is one, else as an acronym if it is a str, else as `u32` bits if
      it is an integer in range, and the matching seed's outcome is the
      result; an element of none of the three shapes fails with the union's
      enum error. */
  function ElementMod(cat: Catalog, mode: GameMode, o: PyObj): (r: Result<GameMod, PyErr>)
    ensures IsGameModDict(o) ==> r == AsParseResult(SeedGameMod(cat, mode, ExtractPyGameMod(o).value))
    ensures !IsGameModDict(o) && o.PyStr? ==> r == AsParseResult(SeedAcronym(cat, mode, o.s))
    ensures !IsGameModDict(o) && !o.PyStr? && ExtractU32(o).Ok? ==>
      r == AsParseResult(SeedBits(cat, mode, ExtractU32(o).value))
    ensures !IsGameModDict(o) && !o.PyStr? && ExtractU32(o).Err? ==>
      r == Err(ExtractUnion(o).error) && r.error.EnumError?
  {
    match ExtractUnion(o)
    case Err(e) => Err(e)
    case Ok(u) =>
      match SeedElement(cat, mode, u)
      case Err(d) => Err(ModParseError(d))
      case Ok(m) => Ok(m)
  }

  /** The mods collected so far, then the remaining elements in order, each
      inserted into the collection; the first failing element ends the fold. */
  function ListFrom(cat: Catalog, mode: GameMode, acc: GameModsLazer, items: seq<PyObj>): Result<GameModsLazer, PyErr>
    decreases |items|
  {
    if items == [] then Ok(acc)
    else
      match ElementMod(cat, mode, items[0])
      case Err(e) => Err(e)
      case Ok(m) => ListFrom(cat, mode, cat.insert(acc, m), items[1..])
  }

  /** The collection a mods list gives, starting from `GameMods::new()`. */
  function ListSpec(cat: Catalog, mode: GameMode, items: seq<PyObj>): Result<GameModsLazer, PyErr>
  {
    ListFrom(cat, mode, EMPTY, items)
  }

  /** The seed on one list element: a `GameMod` dict through its map
      access, an acronym through a string deserializer, bits through a
      `u32` deserializer. */
  method SeedElementOf(cat: Catalog, mode: GameMode, u: PyGameModUnion) returns (r: Result<GameMod, DeErr>)
    ensures r == SeedElement(cat, mode, u)
  {
    match u {
      case Mod(gm) =>
        ghost var keys;
        r, keys := VisitGameMod(cat, mode, gm);
      case Acronym(acronym) =>
        r := SeedAcronym(cat, mode, acronym);
      case Bits(bits) =>
        r := SeedBits(cat, mode, bits);
    }
  }

  /** The fold over a mods list, one element at a time. */
  method ListFold(cat: Catalog, mode: GameMode, items: seq<PyObj>) returns (r: Result<GameModsLazer, PyErr>)
    ensures r == ListSpec(cat, mode, items)
  {
    var mods := EMPTY;
    var i := 0;
    while i < |items|
      invariant 0 <= i <= |items|
      invariant ListSpec(cat, mode, items) == ListFrom(cat, mode, mods, items[i..])
    {
      assert items[i..][0] == items[i];
      assert items[i..][1..] == items[i + 1..];
      var item := ExtractUnion(items[i]);
      if item.Err? {
        return Err(item.error);
      }
      var res := SeedElementOf(cat, mode, item.value);
      if res.Err? {
        return Err(ModParseError(res.error));
      }
      mods := cat.insert(mods, res.value);
      i := i + 1;
    }
    assert items[i..] == [];
    return Ok(mods);
  }

  /** The fold succeeds exactly when every element gives a mod. */
  lemma {:induction false} ListFromOk(cat: Catalog, mode: GameMode, acc: GameModsLazer, items: seq<PyObj>)
    ensures ListFrom(cat, mode, acc, items).Ok? <==>
      forall i :: 0 <= i < |items| ==> ElementMod(cat, mode, items[i]).Ok?
    decreases |items|
  {
    if items != [] {
      assert forall i :: 1 <= i < |items| ==> items[i] == items[1..][i - 1];
      if ElementMod(cat, mode, items[0]).Ok? {
        ListFromOk(cat, mode, cat.insert(acc, ElementMod(cat, mode, items[0]).value), items[1..]);
      }
    }
  }

  /** Mods are inserted in list order: one more element inserts its mod
      into the collection the list before it gives. */
  lemma {:induction false} ListFromSnoc(cat: Catalog, mode: GameMode, acc: GameModsLazer, items: seq<PyObj>, o: PyObj)
    ensures ListFrom(cat, mode, acc, items + [o]) ==
      match ListFrom(cat, mode, acc, items)
      case Err(e) => Err(e)
      case Ok(mods) =>
        match ElementMod(cat, mode, o)
        case Err(e) => Err(e)
        case Ok(m) => Ok(cat.insert(mods, m))
    decreases |items|
  {
    if items == [] {
      assert [o][1..] == [];
    } else {
      assert (items + [o])[0] == items[0];
      assert (items + [o])[1..] == items[1..] + [o];
      if ElementMod(cat, mode, items[0]).Ok? {
        ListFromSnoc(cat, mode, cat.insert(acc, ElementMod(cat, mode, items[0]).value), items[1..], o);
      }
    }
  }

  /** The first element that gives no mod ends the fold with its error,
      whatever follows it. */
  lemma {:induction false} ListFromFirstError(cat: Catalog, mode: GameMode, acc: GameModsLazer, good: seq<PyObj>, bad: PyObj, rest: seq<PyObj>)
    requires forall i :: 0 <= i < |good| ==> ElementMod(cat, mode, good[i]).Ok?
    requires ElementMod(cat, mode, bad).Err?
    ensures ListFrom(cat, mode, acc, good + [bad] + rest) == Err(ElementMod(cat, mode, bad).error)
    decreases |good|
  {
    if good == [] {
      assert [bad] + rest == [bad] + rest;
      assert ([bad] + rest)[0] == bad;
    } else {
      assert (good + [bad] + rest)[0] == good[0];
      assert (good + [bad] + rest)[1..] == good[1..] + [bad] + rest;
      assert forall i :: 0 <= i < |good[1..]| ==> good[1..][i] == good[i + 1];
      ListFromFirstError(cat, mode, cat.insert(acc, ElementMod(cat, mode, good[0]).value), good[1..], bad, rest);
    }
  }

  // ---------------------------------------------------------------------
  // The four shapes `mods` may take, tried in order.

  /** An int in `u32` range: legacy mods with those bits. */
  function IntAttempt(cat: Catalog, o: PyObj): Result<PyGameMods, PyErr>
  {
    match ExtractU32(o)
    case Err(e) => Err(FieldError("PyInt", "0", e))
    case Ok(bits) => Ok(Legacy(cat.legacyFromBits(bits)))
  }

  /** A str of acronyms: legacy mods when the acronyms have legacy bits,
      else intermode mods. */
  function StrAttempt(cat: Catalog, o: PyObj): Result<PyGameMods, PyErr>
  {
    match ExtractStr(o)
    case Err(e) => Err(FieldError("PyString", "0", e))
    case Ok(acronyms) =>
      var intermode := cat.fromAcronyms(acronyms);
      match cat.checkedBits(intermode)
      case Some(bits) => Ok(Legacy(cat.legacyFromBits(bits)))
      case None => Ok(Intermode(intermode))
  }

  /** A `GameMod` dict: the mods containing the one mod the seed reads. */
  function GameModAttempt(cat: Catalog, mode: GameMode, o: PyObj): Result<PyGameMods, PyErr>
  {
    match ExtractPyGameMod(o)
    case Err(e) => Err(FieldError("PyGameMod", "0", e))
    case Ok(gm) =>
      match SeedGameMod(cat, mode, gm)
      case Err(d) => Err(ModParseError(d))
      case Ok(m) => Ok(Lazer(cat.insert(EMPTY, m)))
  }

  /** A list of mods: the collection the fold gives. */
  function ListAttempt(cat: Catalog, mode: GameMode, o: PyObj): Result<PyGameMods, PyErr>
  {
    match ExtractList(o)
    case Err(e) => Err(FieldError("PyList", "0", e))
    case Ok(items) =>
      match ListSpec(cat, mode, items)
      case Err(e) => Err(e)
      case Ok(mods) => Ok(Lazer(mods))
  }

  /** The mods for an optional `mods` argument, for maps of mode `mode`: the
      default without one, else the first shape that succeeds; if none
      does, an error listing every shape's failure in order. */
  function Resolve(cat: Catalog, mode: GameMode, mods: Option<PyObj>): Result<PyGameMods, PyErr>
  {
    match mods
    case None => Ok(DEFAULT)
    case Some(o) =>
      var a1 := IntAttempt(cat, o);
      var a2 := StrAttempt(cat, o);
      var a3 := GameModAttempt(cat, mode, o);
      var a4 := ListAttempt(cat, mode, o);
      if a1.Ok? then a1
      else if a2.Ok? then a2
      else if a3.Ok? then a3
      else if a4.Ok? then a4
      else Err(EnumError("PyGameMods", VARIANTS, SHAPES, [a1.error, a2.error, a3.error, a4.error]))
  }

  /** `PyGameMods::extract`, trying the shapes in order with an early
      return on the first success. */
  method Extract(cat: Catalog, mode: GameMode, mods: Option<PyObj>) returns (r: Result<PyGameMods, PyErr>)
    ensures r == Resolve(cat, mode, mods)
  {
    if mods.None? {
      return Ok(DEFAULT);
    }
    var obj := mods.value;

    var bits := ExtractU32(obj);
    if bits.Ok? {
      return Ok(Legacy(cat.legacyFromBits(bits.value)));
    }
    var e1 := FieldError("PyInt", "0", bits.error);

    var acronyms := ExtractStr(obj);
    if acronyms.Ok? {
      var intermode := cat.fromAcronyms(acronyms.value);
      var checked := cat.checkedBits(intermode);
      if checked.Some? {
        return Ok(Legacy(cat.legacyFromBits(checked.value)));
      }
      return Ok(Intermode(intermode));
    }
    var e2 := FieldError("PyString", "0", acronyms.error);

    var e3;
    var gamemod := ExtractPyGameMod(obj);
    if gamemod.Ok? {
      var seeded, keys := VisitGameMod(cat, mode, gamemod.value);
      if seeded.Ok? {
        return Ok(Lazer(cat.insert(EMPTY, seeded.value)));
      }
      e3 := ModParseError(seeded.error);
    } else {
      e3 := FieldError("PyGameMod", "0", gamemod.error);
    }

    var e4;
    var list := ExtractList(obj);
    if list.Ok? {
      var folded := ListFold(cat, mode, list.value);
      if folded.Ok? {
        return Ok(Lazer(folded.value));
      }
      e4 := folded.error;
    } else {
      e4 := FieldError("PyList", "0", list.error);
    }

    return Err(EnumError("PyGameMods", VARIANTS, SHAPES, [e1, e2, e3, e4]));
  }

  // ---------------------------------------------------------------------
  // What the resolution gives, by the shape of the input.

  /** No `mods` argument means no mods. */
  lemma AbsentIsNoMod(cat: Catalog, mode: GameMode)
    ensures Resolve(cat, mode, None) == Ok(Legacy(NO_MOD))
  {
  }

  /** An int in `u32` range (a bool counts as 0 or 1) is taken as legacy
      bits, before anything else is tried. */
  lemma IntIsLegacyBits(cat: Catalog, mode: GameMode, o: PyObj)
    requires IsInt(o) && 0 <= IntValue(o) < 0x1_0000_0000
    ensures Resolve(cat, mode, Some(o)) == Ok(Legacy(cat.legacyFromBits(IntValue(o))))
  {
  }

  /** A str is read as acronyms: legacy mods exactly when the acronyms have
      legacy bits, intermode mods otherwise; it never fails. */
  lemma StrIsAcronyms(cat: Catalog, mode: GameMode, s: string)
    ensures var r := Resolve(cat, mode, Some(PyStr(s)));
      && r.Ok?
      && (r.value.Legacy? <==> cat.checkedBits(cat.fromAcronyms(s)).Some?)
      && (r.value.Legacy? ==> r.value.legacy == cat.legacyFromBits(cat.checkedBits(cat.fromAcronyms(s)).value))
      && (r.value.Intermode? ==> r.value.intermode == cat.fromAcronyms(s))
  {
  }

  /** A `GameMod` dict gives typed mods holding that one mod when the seed
      accepts it; otherwise the final error's third cause is the seed's
      error as a `ParseError`. */
  lemma GameModDictIsOneMod(cat: Catalog, mode: GameMode, o: PyObj)
    requires IsGameModDict(o)
    ensures var gm := ExtractPyGameMod(o).value;
      && ExtractPyGameMod(o).Ok?
      && (SeedGameMod(cat, mode, gm).Ok? ==>
            Resolve(cat, mode, Some(o)) == Ok(Lazer(cat.insert(EMPTY, SeedGameMod(cat, mode, gm).value))))
      && (SeedGameMod(cat, mode, gm).Err? ==>
            Resolve(cat, mode, Some(o)).Err?
            && Resolve(cat, mode, Some(o)).error.EnumError?
            && Resolve(cat, mode, Some(o)).error.causes[2] == ModParseError(SeedGameMod(cat, mode, gm).error))
  {
    ExtractPyGameModShape(o);
  }

  /** A list gives the typed mods the fold collects exactly when every
      element gives a mod; otherwise the final error's last cause is the
      fold's error. */
  lemma ListIsFold(cat: Catalog, mode: GameMode, items: seq<PyObj>)
    ensures var r := Resolve(cat, mode, Some(PyList(items)));
      && (r.Ok? <==> forall i :: 0 <= i < |items| ==> ElementMod(cat, mode, items[i]).Ok?)
      && (r.Ok? ==> r == Ok(Lazer(ListSpec(cat, mode, items).value)))
      && (r.Err? ==> r.error.EnumError? && r.error.causes[3] == ListSpec(cat, mode, items).error)
  {
    ListFromOk(cat, mode, EMPTY, items);
  }

  /** Only the four shapes are accepted, and a failure always lists the
      four variants, their shapes and one cause each. */
  lemma ResolveOutcome(cat: Catalog, mode: GameMode, o: PyObj)
    ensures Resolve(cat, mode, Some(o)).Ok? ==>
      ExtractU32(o).Ok? || o.PyStr? || IsGameModDict(o) || o.PyList?
    ensures Resolve(cat, mode, Some(o)).Err? ==>
      && Resolve(cat, mode, Some(o)).error.EnumError?
      && Resolve(cat, mode, Some(o)).error.owner == "PyGameMods"
      && Resolve(cat, mode, Some(o)).error.variants == VARIANTS
      && Resolve(cat, mode, Some(o)).error.shapes == SHAPES
      && |Resolve(cat, mode, Some(o)).error.causes| == 4
    ensures Resolve(cat, mode, Some(o)).Ok? && Resolve(cat, mode, Some(o)).value.Lazer? ==>
      IsGameModDict(o) || o.PyList?
    ensures Resolve(cat, mode, Some(o)).Ok? && Resolve(cat, mode, Some(o)).value.Intermode? ==> o.PyStr?
  {
    ExtractPyGameModShape(o);
  }
}
