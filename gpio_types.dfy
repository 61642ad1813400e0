/**
 * The value types a GPIO pin handle passes around: the logical level of a
 * pin, the interrupt configuration, the direction value handed to the
 * register block, and the direction marker a pin handle is typed with.
 */
module GpioTypes {

  /** An unsigned 32-bit integer: pin indices are `u32` throughout. */
  newtype u32 = x: int | 0 <= x < 0x1_0000_0000

  /** Logical level of a pin: low (0) or high (1). */
  datatype Level = Low | High

  /**
   * Interrupt configuration for a pin. The crate names the last three
   * `FallingEgdge`, `Low` and `High`; they are renamed here so that they do
   * not clash with the constructors of `Level`. `LevelLow` and `LevelHigh`
   * trigger while the pin is at that level.
   */
  datatype Interrupt = Off | RisingEdge | FallingEdge | LevelLow | LevelHigh

  /** The direction value forwarded to the register block for one pin. */
  datatype IoDir = In | Out

  /**
   * The direction marker a pin handle carries (`Input` or `Output`). In the
   * crate this is a sealed type parameter; here it is a closed datatype.
   */
  datatype Direction = Input | Output

  /** The register direction each marker's `set_dir` programs. */
  function IoDirOf(d: Direction): (r: IoDir)
    ensures r == In <==> d == Input
    ensures r == Out <==> d == Output
  {
    match d
    case Input => In
    case Output => Out
  }
}
