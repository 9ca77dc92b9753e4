// The Python-facing `GameMode` enum and its conversions to and from the
// scoring library's mode (src/mode.rs).
module Mode {
  import opened Base

  /** The Python class `GameMode`; with `eq_int` its members compare equal to
      their declaration index. */
  datatype PyGameMode = Osu | Taiko | Catch | Mania

  /** The members in declaration order. */
  const MEMBERS: seq<PyGameMode> := [PyGameMode.Osu, PyGameMode.Taiko, PyGameMode.Catch, PyGameMode.Mania]

  /** The integer a member compares equal to: its position in the enum. */
  function Ordinal(m: PyGameMode): (r: nat)
    ensures r < |MEMBERS| && MEMBERS[r] == m
  {
    match m
    case Osu => 0
    case Taiko => 1
    case Catch => 2
    case Mania => 3
  }

  /** The variant name, which the conversions below preserve. */
  function PyName(m: PyGameMode): string
  {
    match m
    case Osu => "Osu"
    case Taiko => "Taiko"
    case Catch => "Catch"
    case Mania => "Mania"
  }

  function Name(m: GameMode): string
  {
    match m
    case Osu => "Osu"
    case Taiko => "Taiko"
    case Catch => "Catch"
    case Mania => "Mania"
  }

  /** The derived default member. */
  function DefaultMode(): (m: PyGameMode)
    ensures Ordinal(m) == 0
  {
    PyGameMode.Osu
  }

  /** `From<PyGameMode> for GameMode`. */
  function ToGameMode(m: PyGameMode): (r: GameMode)
    ensures Name(r) == PyName(m)
  {
    match m
    case Osu => GameMode.Osu
    case Taiko => GameMode.Taiko
    case Catch => GameMode.Catch
    case Mania => GameMode.Mania
  }

  /** `From<GameMode> for PyGameMode`. */
  function FromGameMode(m: GameMode): (r: PyGameMode)
    ensures PyName(r) == Name(m)
    ensures ToGameMode(r) == m
  {
    match m
    case Osu => PyGameMode.Osu
    case Taiko => PyGameMode.Taiko
    case Catch => PyGameMode.Catch
    case Mania => PyGameMode.Mania
  }

  /** The two conversions are mutually inverse. */
  lemma ConversionsInverse(p: PyGameMode, g: GameMode)
    ensures FromGameMode(ToGameMode(p)) == p
    ensures ToGameMode(FromGameMode(g)) == g
  {
  }

  /** Distinct members compare equal to distinct integers. */
  lemma OrdinalInjective(a: PyGameMode, b: PyGameMode)
    ensures Ordinal(a) == Ordinal(b) <==> a == b
  {
  }
}
