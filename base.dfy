// Value types shared by every part of the bindings model: Option/Result,
// the Rust integer widths the bindings use, opaque floats, and the game mode
// and parsed beatmap of the scoring library the bindings wrap.
module Base {

  datatype Option<+T> = None | Some(value: T)

  datatype Result<+T, +E> = Ok(value: T) | Err(error: E)

  /** An `f32` or `f64`. The bindings never compute with floats, they only
      copy them between records, so a float is kept opaque: the real number
      stands for the machine value and is never inspected. */
  datatype Float = Float(approx: real)

  /** Rust's `u8`, `u32` and `usize` (a 64-bit target). */
  type U8 = x: int | 0 <= x < 0x100
  type U32 = x: int | 0 <= x < 0x1_0000_0000
  type Usize = x: int | 0 <= x < 0x1_0000_0000_0000_0000

  /** The scoring library's game mode (also the mods library's: both list the
      same four modes in the same order, and the bindings convert one into the
      other through `u8`, which is the identity on the variant). */
  datatype GameMode = Osu | Taiko | Catch | Mania

  /** A parsed beatmap of the scoring library, reduced to what the bindings
      read from it: its mode, the four difficulty settings, whether it is a
      conversion, and an opaque stand-in for its hit objects. */
  datatype Beatmap = Beatmap(
    mode: GameMode,
    ar: Float,
    cs: Float,
    hp: Float,
    od: Float,
    isConvert: bool,
    objects: nat)
}
