// The Python shapes that mods can be given in (src/mods.rs): a `GameMod`
// dict, the element union of a mods list, and the scalar setting values of
// a settings dict, each with its PyO3 extraction.
module ModsInput {
  import opened Base
  import opened Errors
  import opened Python

  // ---------------------------------------------------------------------
  // `PyGameMod`: a dict with a str "acronym" and an optional "settings" dict.

  datatype PyGameMod = PyGameMod(acronym: string, settings: Option<seq<(PyObj, PyObj)>>)

  /** The "settings" entry as the bindings read it: absent or `None` means
      no settings, a dict is the settings, anything else is a type error. */
  function ExtractSettings(entry: Option<PyObj>): (r: Result<Option<seq<(PyObj, PyObj)>>, PyErr>)
    ensures r == Ok(None) <==> entry.None? || entry == Some(PyNone)
    ensures r.Ok? && r.value.Some? <==> entry.Some? && entry.value.PyDict?
    ensures r.Ok? && r.value.Some? ==> r.value.value == entry.value.entries
  {
    match entry
    case None => Ok(None)
    case Some(o) => ExtractOption(o, ExtractDict)
  }

  /** `PyGameMod::extract_bound`: the object must be a dict; a missing
      "acronym" is a `KeyError`; the acronym must be a str (an error naming
      the field otherwise), and then the settings are read. */
  function ExtractPyGameMod(o: PyObj): Result<PyGameMod, PyErr>
  {
    match ExtractDict(o)
    case Err(e) => Err(e)
    case Ok(entries) =>
      match DictGet(entries, "acronym")
      case None => Err(KeyError("acronym"))
      case Some(a) =>
        match ExtractStr(a)
        case Err(e) => Err(FieldError("PyGameMod", "acronym", e))
        case Ok(acronym) =>
          match ExtractSettings(DictGet(entries, "settings"))
          case Err(e) => Err(e)
          case Ok(settings) => Ok(PyGameMod(acronym, settings))
  }

  /** The shape `ExtractPyGameMod` accepts, stated without its control
      flow. */
  predicate IsGameModDict(o: PyObj)
  {
    && o.PyDict?
    && DictGet(o.entries, "acronym").Some?
    && DictGet(o.entries, "acronym").value.PyStr?
    && var s := DictGet(o.entries, "settings");
       s.None? || s.value.PyNone? || s.value.PyDict?
  }

  /** A `GameMod` dict is extracted exactly when it has that shape, with the
      acronym it names and the settings dict it holds, if any. */
  lemma ExtractPyGameModShape(o: PyObj)
    ensures ExtractPyGameMod(o).Ok? <==> IsGameModDict(o)
    ensures ExtractPyGameMod(o).Ok? ==>
      && ExtractPyGameMod(o).value.acronym == DictGet(o.entries, "acronym").value.s
      && (ExtractPyGameMod(o).value.settings.Some? <==>
            DictGet(o.entries, "settings").Some? && DictGet(o.entries, "settings").value.PyDict?)
  {
  }

  /** The error cases: a non-dict is a downcast error, a dict without
      "acronym" a `KeyError`, a dict whose acronym is no str an error on the
      field `acronym`. */
  lemma ExtractPyGameModErrors(o: PyObj)
    ensures !o.PyDict? ==> ExtractPyGameMod(o) == Err(DowncastError(TypeName(o), "PyDict"))
    ensures o.PyDict? && DictGet(o.entries, "acronym").None? ==>
      ExtractPyGameMod(o) == Err(KeyError("acronym"))
    ensures o.PyDict? && DictGet(o.entries, "acronym").Some? && !DictGet(o.entries, "acronym").value.PyStr? ==>
      ExtractPyGameMod(o).Err? && ExtractPyGameMod(o).error.FieldError?
      && ExtractPyGameMod(o).error.field == "acronym"
  {
  }

  // ---------------------------------------------------------------------
  // `PyGameModUnion`: one element of a mods list.

  datatype PyGameModUnion = Mod(gamemod: PyGameMod) | Acronym(acronym: string) | Bits(bits: U32)

  /** The derived extraction of the union: the variants are tried in
      declaration order, and if all fail the error lists each variant's
      failure. */
  function ExtractUnion(o: PyObj): (r: Result<PyGameModUnion, PyErr>)
    ensures r.Ok? <==> IsGameModDict(o) || o.PyStr? || ExtractU32(o).Ok?
    ensures IsGameModDict(o) ==> r == Ok(Mod(ExtractPyGameMod(o).value))
    ensures !IsGameModDict(o) && o.PyStr? ==> r == Ok(Acronym(o.s))
    ensures !IsGameModDict(o) && !o.PyStr? && ExtractU32(o).Ok? ==> r == Ok(Bits(ExtractU32(o).value))
  {
    ExtractPyGameModShape(o);
    match ExtractPyGameMod(o)
    case Ok(gm) => Ok(Mod(gm))
    case Err(e1) =>
      match ExtractStr(o)
      case Ok(s) => Ok(Acronym(s))
      case Err(e2) =>
        match ExtractU32(o)
        case Ok(bits) => Ok(Bits(bits))
        case Err(e3) =>
          Err(EnumError("PyGameModUnion", ["Mod", "Acronym", "Bits"], ["Mod", "Acronym", "Bits"],
            [FieldError("PyGameModUnion::Mod", "0", e1),
             FieldError("PyGameModUnion::Acronym", "0", e2),
             FieldError("PyGameModUnion::Bits", "0", e3)]))
  }

  // ---------------------------------------------------------------------
  // `PyValue`: a setting's value.

  datatype PyValue = Bool(b: bool) | Number(x: Float) | String(s: string)

  /** The derived extraction of a setting value: a bool first, then a float
      (which also takes ints that fit an `f64`), then a str; otherwise an
      error listing the three failures. */
  function ExtractPyValue(o: PyObj): (r: Result<PyValue, PyErr>)
    ensures r.Ok? <==> o.PyBool? || (o.PyInt? && FitsF64(o.i)) || o.PyFloat? || o.PyStr?
    ensures o.PyBool? ==> r == Ok(Bool(o.b))
    ensures o.PyInt? && FitsF64(o.i) ==> r == Ok(Number(Float(o.i as real)))
    ensures o.PyFloat? ==> r == Ok(Number(o.x))
    ensures o.PyStr? ==> r == Ok(String(o.s))
  {
    match ExtractBool(o)
    case Ok(b) => Ok(Bool(b))
    case Err(e1) =>
      match ExtractFloat(o)
      case Ok(x) => Ok(Number(x))
      case Err(e2) =>
        match ExtractStr(o)
        case Ok(s) => Ok(String(s))
        case Err(e3) =>
          Err(EnumError("PyValue", ["Bool", "Number", "String"], ["Bool", "Number", "String"],
            [FieldError("PyValue::Bool", "0", e1),
             FieldError("PyValue::Number", "0", e2),
             FieldError("PyValue::String", "0", e3)]))
  }
}
