// `ScoreState(**kwargs)` (src/score_state.rs): the keyword constructor of
// the Python score state.
module ScoreStateKwargs {
  import opened Base
  import opened Errors
  import opened Python
  import opened ScoreState

  /** The message of the `ArgsError` for an unknown keyword. */
  function UnexpectedKwarg(key: string): string
  {
    "unexpected kwarg '" + key
      + "': expected 'max_combo', \n'n_geki', 'n_katu', 'n300', 'n100', 'n50' or 'misses'"
  }

  /** The message of the `TypeError` for a value that is not a `u32`. */
  function MustBeInt(key: string): string
  {
    "kwarg '" + key + "': must be an int"
  }

  /** The count a keyword names, if it names one. */
  function FieldOfName(key: string): (r: Option<ScoreField>)
    ensures r.Some? ==> FieldName(r.value) == key
    ensures r.None? ==> forall f :: FieldName(f) != key
  {
    if key == "max_combo" then Some(MaxCombo)
    else if key == "n_geki" then Some(NGeki)
    else if key == "n_katu" then Some(NKatu)
    else if key == "n300" then Some(N300)
    else if key == "n100" then Some(N100)
    else if key == "n50" then Some(N50)
    else if key == "misses" then Some(Misses)
    else None
  }

  /** A count's own name names that count. */
  lemma FieldOfNameOf(f: ScoreField)
    ensures FieldOfName(FieldName(f)) == Some(f)
  {
    var g := FieldOfName(FieldName(f));
    assert g.Some?;
    FieldNameInjective(f, g.value);
  }

  /** One keyword argument: a known count takes the extracted `u32`, a value
      that does not extract is a `TypeError` naming the keyword, and an
      unknown keyword an `ArgsError` naming it. */
  function Step(s: PyScoreState, key: string, v: PyObj): Result<PyScoreState, PyErr>
  {
    match FieldOfName(key)
    case None => Err(ArgsError(UnexpectedKwarg(key)))
    case Some(f) =>
      match ExtractU32(v)
      case Err(_) => Err(TypeError(MustBeInt(key)))
      case Ok(n) => Ok(Set(s, f, n))
  }

  /** The constructor's result: the default state without keywords, else
      the keywords applied in order from the default state. */
  function NewSpec(kwargs: Option<Kwargs>): Result<PyScoreState, PyErr>
  {
    match kwargs
    case None => Ok(DefaultState())
    case Some(kw) => FoldKwargs(DefaultState(), kw, Step)
  }

  /** `PyScoreState::new`: the loop over the keyword arguments. */
  method New(kwargs: Option<Kwargs>) returns (r: Result<PyScoreState, PyErr>)
    ensures r == NewSpec(kwargs)
  {
    var state := DefaultState();
    if kwargs.None? {
      return Ok(state);
    }
    var kw := kwargs.value;
    var i := 0;
    while i < |kw|
      invariant 0 <= i <= |kw|
      invariant FoldKwargs(DefaultState(), kw, Step) == FoldKwargs(state, kw[i..], Step)
    {
      FoldKwargsAt(state, kw, i, Step);
      var (key, value) := kw[i];
      var field := FieldOfName(key);
      if field.None? {
        return Err(ArgsError(UnexpectedKwarg(key)));
      }
      var n := ExtractU32(value);
      if n.Err? {
        return Err(TypeError(MustBeInt(key)));
      }
      state := Set(state, field.value, n.value);
      i := i + 1;
    }
    return Ok(state);
  }

  /** Without keywords (or with none given) every count is zero. */
  lemma NoKwargsIsDefault()
    ensures NewSpec(None) == NewSpec(Some([])) == Ok(DefaultState())
    ensures forall f :: Get(DefaultState(), f) == 0
  {
  }

  /** A keyword naming a count, with an integer value in `u32` range, sets
      exactly that count of the state built so far; so a later keyword
      overwrites an earlier one. */
  lemma KnownKwargSets(kw: Kwargs, f: ScoreField, v: PyObj)
    requires NewSpec(Some(kw)).Ok?
    requires ExtractU32(v).Ok?
    ensures NewSpec(Some(kw + [(FieldName(f), v)])) == Ok(Set(NewSpec(Some(kw)).value, f, IntValue(v)))
  {
    FieldOfNameOf(f);
    FoldKwargsSnoc(DefaultState(), kw, FieldName(f), v, Step);
  }

  /** A keyword naming a count whose value is not an integer in `u32` range
      ends construction with a `TypeError` naming the keyword, whatever
      follows. */
  lemma BadValueIsTypeError(kw: Kwargs, f: ScoreField, v: PyObj, rest: Kwargs)
    requires NewSpec(Some(kw)).Ok?
    requires ExtractU32(v).Err?
    ensures NewSpec(Some(kw + [(FieldName(f), v)] + rest)) == Err(TypeError(MustBeInt(FieldName(f))))
  {
    FieldOfNameOf(f);
    FoldKwargsSnoc(DefaultState(), kw, FieldName(f), v, Step);
    FoldKwargsAppend(DefaultState(), kw + [(FieldName(f), v)], rest, Step);
  }

  /** An unknown keyword ends construction with an `ArgsError` naming it,
      whatever follows. */
  lemma UnknownKwargIsArgsError(kw: Kwargs, key: string, v: PyObj, rest: Kwargs)
    requires NewSpec(Some(kw)).Ok?
    requires forall f :: FieldName(f) != key
    ensures NewSpec(Some(kw + [(key, v)] + rest)) == Err(ArgsError(UnexpectedKwarg(key)))
  {
    if FieldOfName(key).Some? {
      FieldOfNameOf(FieldOfName(key).value);
    }
    assert Step(NewSpec(Some(kw)).value, key, v) == Err(ArgsError(UnexpectedKwarg(key)));
    FoldKwargsSnoc(DefaultState(), kw, key, v, Step);
    FoldKwargsAppend(DefaultState(), kw + [(key, v)], rest, Step);
  }
}
