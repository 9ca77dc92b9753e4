// The Python `ScoreState` record (src/score_state.rs): its keyword
// constructor, its textual form and its conversions to and from the
// scoring library's score state.
module ScoreState {
  import opened Base

  /** The scoring library's score state, restricted to the seven counts the
      bindings copy. */
  datatype ScoreState = ScoreState(
    maxCombo: U32, nGeki: U32, nKatu: U32, n300: U32, n100: U32, n50: U32, misses: U32)

  datatype PyScoreState = PyScoreState(
    maxCombo: U32, nGeki: U32, nKatu: U32, n300: U32, n100: U32, n50: U32, misses: U32)

  /** The derived `Default`: every count zero. */
  function DefaultState(): PyScoreState
  {
    PyScoreState(0, 0, 0, 0, 0, 0, 0)
  }

  /** The seven counts, in declaration order. */
  datatype ScoreField = MaxCombo | NGeki | NKatu | N300 | N100 | N50 | Misses

  /** The attribute (and keyword) name of a count. */
  function FieldName(f: ScoreField): string
  {
    match f
    case MaxCombo => "max_combo"
    case NGeki => "n_geki"
    case NKatu => "n_katu"
    case N300 => "n300"
    case N100 => "n100"
    case N50 => "n50"
    case Misses => "misses"
  }

  lemma FieldNameInjective(f: ScoreField, g: ScoreField)
    ensures FieldName(f) == FieldName(g) ==> f == g
  {
  }

  /** The Python getter of a count. */
  function Get(s: PyScoreState, f: ScoreField): U32
  {
    match f
    case MaxCombo => s.maxCombo
    case NGeki => s.nGeki
    case NKatu => s.nKatu
    case N300 => s.n300
    case N100 => s.n100
    case N50 => s.n50
    case Misses => s.misses
  }

  function StateGet(s: ScoreState, f: ScoreField): U32
  {
    match f
    case MaxCombo => s.maxCombo
    case NGeki => s.nGeki
    case NKatu => s.nKatu
    case N300 => s.n300
    case N100 => s.n100
    case N50 => s.n50
    case Misses => s.misses
  }

  /** The Python setter of a count: that count changes, no other does. */
  function Set(s: PyScoreState, f: ScoreField, v: U32): (r: PyScoreState)
    ensures Get(r, f) == v
    ensures forall g :: g != f ==> Get(r, g) == Get(s, g)
  {
    match f
    case MaxCombo => s.(maxCombo := v)
    case NGeki => s.(nGeki := v)
    case NKatu => s.(nKatu := v)
    case N300 => s.(n300 := v)
    case N100 => s.(n100 := v)
    case N50 => s.(n50 := v)
    case Misses => s.(misses := v)
  }

  /** Records with the same counts are the same record. */
  lemma GetExtensional(s: PyScoreState, t: PyScoreState)
    requires forall f :: Get(s, f) == Get(t, f)
    ensures s == t
  {
    assert Get(s, MaxCombo) == Get(t, MaxCombo) && Get(s, NGeki) == Get(t, NGeki);
    assert Get(s, NKatu) == Get(t, NKatu) && Get(s, N300) == Get(t, N300);
    assert Get(s, N100) == Get(t, N100) && Get(s, N50) == Get(t, N50);
    assert Get(s, Misses) == Get(t, Misses);
  }

  /** The order in which the textual form lists the counts. */
  const DEBUG_ORDER: seq<ScoreField> := [MaxCombo, NGeki, NKatu, N300, N100, N50, Misses]

  /** `Debug` (and so `Display` and `__repr__`): a `ScoreState` struct
      rendering listing every count once, by name, in declaration order. */
  function Debug(s: PyScoreState): (r: seq<(string, U32)>)
    ensures |r| == |DEBUG_ORDER|
    ensures forall i :: 0 <= i < |r| ==> r[i] == (FieldName(DEBUG_ORDER[i]), Get(s, DEBUG_ORDER[i]))
  {
    [("max_combo", s.maxCombo), ("n_geki", s.nGeki), ("n_katu", s.nKatu), ("n300", s.n300),
     ("n100", s.n100), ("n50", s.n50), ("misses", s.misses)]
  }

  /** Every count appears in the textual form exactly once. */
  lemma DebugListsEveryField(s: PyScoreState, f: ScoreField)
    ensures exists i :: 0 <= i < |Debug(s)| && Debug(s)[i] == (FieldName(f), Get(s, f))
    ensures forall i, j :: 0 <= i < j < |Debug(s)| ==> Debug(s)[i].0 != Debug(s)[j].0
  {
    var i := match f
      case MaxCombo => 0 case NGeki => 1 case NKatu => 2 case N300 => 3
      case N100 => 4 case N50 => 5 case Misses => 6;
    assert Debug(s)[i] == (FieldName(f), Get(s, f));
  }

  /** `From<&PyScoreState> for ScoreState`: every count is copied. */
  function ToScoreState(p: PyScoreState): (r: ScoreState)
    ensures forall f :: StateGet(r, f) == Get(p, f)
  {
    ScoreState(p.maxCombo, p.nGeki, p.nKatu, p.n300, p.n100, p.n50, p.misses)
  }

  /** `From<ScoreState> for PyScoreState`: every count is copied. */
  function FromScoreState(s: ScoreState): (r: PyScoreState)
    ensures forall f :: Get(r, f) == StateGet(s, f)
  {
    PyScoreState(s.maxCombo, s.nGeki, s.nKatu, s.n300, s.n100, s.n50, s.misses)
  }

  /** The two conversions are mutually inverse. */
  lemma ConversionsInverse(p: PyScoreState, s: ScoreState)
    ensures FromScoreState(ToScoreState(p)) == p
    ensures ToScoreState(FromScoreState(s)) == s
  {
  }
}
