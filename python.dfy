// Python values as the bindings receive them, and the PyO3 extraction rules
// the bindings rely on: how an object is turned into a Rust integer, float,
// bool or string, or into one of the bindings' own classes, and how keyword
// arguments are folded into a record.
module Python {
  import opened Base
  import opened Errors
  import Mode
  import DA = DifficultyAttributes
  import PA = PerformanceAttributes
  import DiffAttrs

  /** A Python object. Dicts keep their entries in insertion order; the
      instances of the bindings' own classes carry their Rust value. */
  datatype PyObj =
    | PyNone
    | PyBool(b: bool)
    | PyInt(i: int)
    | PyFloat(x: Float)
    | PyStr(s: string)
    | PyDict(entries: seq<(PyObj, PyObj)>)
    | PyList(items: seq<PyObj>)
    | PyGameModeObj(mode: Mode.PyGameMode)
    | PyBeatmapObj(beatmap: Beatmap)
    | PyDifficultyAttributesObj(attrs: DA.PyDifficultyAttributes)
    | PyPerformanceAttributesObj(pattrs: PA.PyPerformanceAttributes)
    | PyOldDifficultyAttributesObj(oldAttrs: DiffAttrs.PyDifficultyAttributes)
    | PyOther(typeName: string)

  /** The name of an object's Python type, as extraction errors show it. */
  function TypeName(o: PyObj): string
  {
    match o
    case PyNone => "NoneType"
    case PyBool(_) => "bool"
    case PyInt(_) => "int"
    case PyFloat(_) => "float"
    case PyStr(_) => "str"
    case PyDict(_) => "dict"
    case PyList(_) => "list"
    case PyGameModeObj(_) => "GameMode"
    case PyBeatmapObj(_) => "Beatmap"
    case PyDifficultyAttributesObj(_) => "DifficultyAttributes"
    case PyPerformanceAttributesObj(_) => "PerformanceAttributes"
    case PyOldDifficultyAttributesObj(_) => "DifficultyAttributes"
    case PyOther(name) => name
  }

  // ---------------------------------------------------------------------
  // Extraction of Rust values.

  /** Whether an object is a Python integer; `bool` is a subclass of `int`. */
  predicate IsInt(o: PyObj)
  {
    o.PyBool? || o.PyInt?
  }

  function IntValue(o: PyObj): int
    requires IsInt(o)
  {
    if o.PyBool? then (if o.b then 1 else 0) else o.i
  }

  /** Extraction into a Rust integer type with range `lo <= n < hi`, named
      `target`: a non-integer is a type error, an integer out of range an
      overflow error. */
  function ExtractInt(o: PyObj, lo: int, hi: int, target: string): (r: Result<int, PyErr>)
    ensures r.Ok? <==> IsInt(o) && lo <= IntValue(o) < hi
    ensures r.Ok? ==> r.value == IntValue(o)
    ensures !IsInt(o) ==> r == Err(DowncastError(TypeName(o), "int"))
    ensures IsInt(o) && r.Err? ==> r == Err(OverflowError(target))
  {
    if !IsInt(o) then Err(DowncastError(TypeName(o), "int"))
    else if lo <= IntValue(o) < hi then Ok(IntValue(o))
    else Err(OverflowError(target))
  }

  function ExtractU8(o: PyObj): (r: Result<U8, PyErr>)
    ensures r.Ok? <==> IsInt(o) && 0 <= IntValue(o) < 0x100
    ensures r.Ok? ==> r.value == IntValue(o)
  {
    match ExtractInt(o, 0, 0x100, "u8")
    case Ok(n) => Ok(n)
    case Err(e) => Err(e)
  }

  function ExtractU32(o: PyObj): (r: Result<U32, PyErr>)
    ensures r.Ok? <==> IsInt(o) && 0 <= IntValue(o) < 0x1_0000_0000
    ensures r.Ok? ==> r.value == IntValue(o)
  {
    match ExtractInt(o, 0, 0x1_0000_0000, "u32")
    case Ok(n) => Ok(n)
    case Err(e) => Err(e)
  }

  function ExtractUsize(o: PyObj): (r: Result<Usize, PyErr>)
    ensures r.Ok? <==> IsInt(o) && 0 <= IntValue(o) < 0x1_0000_0000_0000_0000
    ensures r.Ok? ==> r.value == IntValue(o)
  {
    match ExtractInt(o, 0, 0x1_0000_0000_0000_0000, "usize")
    case Ok(n) => Ok(n)
    case Err(e) => Err(e)
  }

  /** The least magnitude, 2^1024 - 2^970, of an int that rounds past the
      largest finite `f64`; converting such an int to a float raises an
      `OverflowError`. */
  const F64_OVERFLOW: int := 0xFFFFFFFFFFFFFC00000000000000000000000000000000000000000000000000000000000000000000000000000000000000000000000000000000000000000000000000000000000000000000000000000000000000000000000000000000000000000000000000000000000000000000000000000000000000000000000000

  /** Whether an int converts to a finite `f64`. */
  predicate FitsF64(i: int)
  {
    -F64_OVERFLOW < i < F64_OVERFLOW
  }

  /** Extraction into `f32`/`f64`: floats, and integers (bools included)
      that convert to a finite float, giving their value; a larger int is
      an overflow error, anything else a type error. */
  function ExtractFloat(o: PyObj): (r: Result<Float, PyErr>)
    ensures r.Ok? <==> o.PyFloat? || (IsInt(o) && FitsF64(IntValue(o)))
    ensures o.PyFloat? ==> r == Ok(o.x)
    ensures IsInt(o) && FitsF64(IntValue(o)) ==> r == Ok(Float(IntValue(o) as real))
    ensures IsInt(o) && !FitsF64(IntValue(o)) ==> r == Err(OverflowError("f64"))
  {
    if o.PyFloat? then Ok(o.x)
    else if IsInt(o) then
      (if FitsF64(IntValue(o)) then Ok(Float(IntValue(o) as real)) else Err(OverflowError("f64")))
    else Err(DowncastError(TypeName(o), "PyFloat"))
  }

  /** Extraction into `bool`: only a Python `bool`. */
  function ExtractBool(o: PyObj): (r: Result<bool, PyErr>)
    ensures r.Ok? <==> o.PyBool?
    ensures r.Ok? ==> r.value == o.b
  {
    if o.PyBool? then Ok(o.b) else Err(DowncastError(TypeName(o), "PyBool"))
  }

  /** Extraction into `Bound<PyString>` (and `&str`): only a Python `str`. */
  function ExtractStr(o: PyObj): (r: Result<string, PyErr>)
    ensures r.Ok? <==> o.PyStr?
    ensures r.Ok? ==> r.value == o.s
  {
    if o.PyStr? then Ok(o.s) else Err(DowncastError(TypeName(o), "PyString"))
  }

  /** Extraction into `Bound<PyDict>`: only a Python `dict`. */
  function ExtractDict(o: PyObj): (r: Result<seq<(PyObj, PyObj)>, PyErr>)
    ensures r.Ok? <==> o.PyDict?
    ensures r.Ok? ==> r.value == o.entries
  {
    if o.PyDict? then Ok(o.entries) else Err(DowncastError(TypeName(o), "PyDict"))
  }

  /** Extraction into `Bound<PyList>`: only a Python `list`. */
  function ExtractList(o: PyObj): (r: Result<seq<PyObj>, PyErr>)
    ensures r.Ok? <==> o.PyList?
    ensures r.Ok? ==> r.value == o.items
  {
    if o.PyList? then Ok(o.items) else Err(DowncastError(TypeName(o), "PyList"))
  }

  /** Extraction into `Option<T>`: `None` is `None`, anything else is
      extracted as a `T`. */
  function ExtractOption<T>(o: PyObj, extract: PyObj -> Result<T, PyErr>): (r: Result<Option<T>, PyErr>)
    ensures o.PyNone? ==> r == Ok(None)
    ensures !o.PyNone? ==> (r.Ok? <==> extract(o).Ok?)
    ensures !o.PyNone? && r.Ok? ==> r.value == Some(extract(o).value)
  {
    if o.PyNone? then Ok(None)
    else match extract(o)
      case Ok(v) => Ok(Some(v))
      case Err(e) => Err(e)
  }

  // ---------------------------------------------------------------------
  // Dict lookup.

  /** `dict.get_item(key)` for a string key: the value of the entry whose
      key is that string, if there is one. */
  function DictGet(entries: seq<(PyObj, PyObj)>, key: string): (r: Option<PyObj>)
    ensures r.Some? <==> exists i :: 0 <= i < |entries| && entries[i].0 == PyStr(key)
    ensures r.Some? ==> exists i :: 0 <= i < |entries| && entries[i] == (PyStr(key), r.value)
  {
    if entries == [] then None
    else if entries[0].0 == PyStr(key) then Some(entries[0].1)
    else
      var r := DictGet(entries[1..], key);
      assert forall i :: 1 <= i < |entries| ==> entries[i] == entries[1..][i - 1];
      r
  }

  // ---------------------------------------------------------------------
  // Keyword arguments.

  /** `**kwargs`: the keyword arguments in the order Python passes them. */
  type Kwargs = seq<(string, PyObj)>

  /** A constructor's loop over its keyword arguments: each argument updates
      the record in turn, and the first failing one ends the loop with its
      error. */
  function FoldKwargs<S>(s: S, kw: Kwargs, step: (S, string, PyObj) -> Result<S, PyErr>): Result<S, PyErr>
    decreases |kw|
  {
    if kw == [] then Ok(s)
    else match step(s, kw[0].0, kw[0].1)
      case Err(e) => Err(e)
      case Ok(t) => FoldKwargs(t, kw[1..], step)
  }

  /** One turn of the loop, seen from an arbitrary position: what is left
      after argument `i` is the fold of the rest from the updated record. */
  lemma {:induction false} FoldKwargsAt<S>(s: S, kw: Kwargs, i: nat, step: (S, string, PyObj) -> Result<S, PyErr>)
    requires i < |kw|
    ensures FoldKwargs(s, kw[i..], step) ==
      match step(s, kw[i].0, kw[i].1)
      case Err(e) => Err(e)
      case Ok(t) => FoldKwargs(t, kw[i + 1..], step)
  {
    assert kw[i..][0] == kw[i];
    assert kw[i..][1..] == kw[i + 1..];
  }

  /** Splitting the arguments: the second part runs from the record the
      first part produced, and an error in the first part is final. */
  lemma {:induction false} FoldKwargsAppend<S>(s: S, a: Kwargs, b: Kwargs, step: (S, string, PyObj) -> Result<S, PyErr>)
    ensures FoldKwargs(s, a + b, step) ==
      match FoldKwargs(s, a, step)
      case Err(e) => Err(e)
      case Ok(t) => FoldKwargs(t, b, step)
    decreases |a|
  {
    if a == [] {
      assert a + b == b;
    } else {
      assert (a + b)[0] == a[0];
      assert (a + b)[1..] == a[1..] + b;
      match step(s, a[0].0, a[0].1)
      case Err(e) =>
      case Ok(t) => FoldKwargsAppend(t, a[1..], b, step);
    }
  }

  /** The fold of one more argument after a successful prefix. */
  lemma FoldKwargsSnoc<S>(s: S, a: Kwargs, key: string, v: PyObj, step: (S, string, PyObj) -> Result<S, PyErr>)
    requires FoldKwargs(s, a, step).Ok?
    ensures FoldKwargs(s, a + [(key, v)], step) == step(FoldKwargs(s, a, step).value, key, v)
  {
    FoldKwargsAppend(s, a, [(key, v)], step);
    var t := FoldKwargs(s, a, step).value;
    assert [(key, v)][1..] == [];
    match step(t, key, v)
    case Err(e) =>
    case Ok(u) =>
  }
}
