/**
 * The platform-facing layer: the register contract a platform implements,
 * the thin handle that forwards to it, and the bank that resolves a handle.
 *
 * What a register block does in hardware is platform code. Here a register
 * block only records, in order, the calls it receives; a read records the
 * word the platform returned, which the model leaves unconstrained.
 */
module Low {
  import opened GpioTypes

  /** One call received by a register block. */
  datatype Call =
    | SetDir(pin: u32, dir: IoDir)
    | SetInterrupt(pin: u32, mode: Interrupt)
    | Read(word: bv32)
    | Write(mask: bv32)

  /** A platform register block, observed through the calls made on it. */
  class RegisterBlock {
    /** Every call this block has received, oldest first. */
    var trace: seq<Call>

    constructor ()
      ensures trace == []
    {
      trace := [];
    }

    /** Set the direction of a single pin. */
    method SetDir(pin: u32, dir: IoDir)
      modifies this
      ensures trace == old(trace) + [Call.SetDir(pin, dir)]
    {
      trace := trace + [Call.SetDir(pin, dir)];
    }

    /** Configure the interrupt mode of a single pin. */
    method SetInterrupt(pin: u32, mode: Interrupt)
      modifies this
      ensures trace == old(trace) + [Call.SetInterrupt(pin, mode)]
    {
      trace := trace + [Call.SetInterrupt(pin, mode)];
    }

    /** Read the bank's input register; the word is whatever the hardware holds. */
    method Read() returns (word: bv32)
      modifies this
      ensures trace == old(trace) + [Call.Read(word)]
    {
      word :| true;
      trace := trace + [Call.Read(word)];
    }

    /** Write a bitmask to the bank's output register(s). */
    method Write(mask: bv32)
      modifies this
      ensures trace == old(trace) + [Call.Write(mask)]
    {
      trace := trace + [Call.Write(mask)];
    }
  }

  /**
   * A handle over one register block. It stores the block's address and
   * forwards each operation to it with its arguments unchanged. The address
   * is a `const`, so no operation can change it.
   */
  class Gpio {
    const registers: RegisterBlock

    /** Wrap a register-block address. */
    constructor New(registers: RegisterBlock)
      ensures this.registers == registers
    {
      this.registers := registers;
    }

    method SetDir(pin: u32, dir: IoDir)
      modifies registers
      ensures registers.trace == old(registers.trace) + [Call.SetDir(pin, dir)]
    {
      registers.SetDir(pin, dir);
    }

    method SetInterrupt(pin: u32, mode: Interrupt)
      modifies registers
      ensures registers.trace == old(registers.trace) + [Call.SetInterrupt(pin, mode)]
    {
      registers.SetInterrupt(pin, mode);
    }

    /** Returns exactly the word the register block's read produced. */
    method Read() returns (word: bv32)
      modifies registers
      ensures registers.trace == old(registers.trace) + [Call.Read(word)]
    {
      word := registers.Read();
    }

    method Write(mask: bv32)
      modifies registers
      ensures registers.trace == old(registers.trace) + [Call.Write(mask)]
    {
      registers.Write(mask);
    }
  }

  /**
   * A bank of pins: a fixed register block at a fixed address. In the crate
   * a bank is a type and its address a function of that type; here it is an
   * object whose address is a `const`.
   */
  class Bank {
    const block: RegisterBlock

    constructor (block: RegisterBlock)
      ensures this.block == block
    {
      this.block := block;
    }

    /**
     * The base address of this bank's register block: the bank's own block,
     * the same on every call.
     */
    function Addr(): (r: RegisterBlock)
      ensures r == block
    {
      block
    }

    /** A fresh handle over this bank's register block; touches no register. */
    method GetHandle() returns (g: Gpio)
      ensures fresh(g) && g.registers == Addr()
    {
      g := new Gpio.New(Addr());
    }
  }
}
