/**
 * The typed pin handle. A handle for pin `n` of a bank, with a direction
 * marker, obtains a fresh register handle for every operation and issues
 * exactly one register call through it.
 *
 * The crate rejects an operation that does not fit the marker at compile
 * time; here the marker is a field and each such operation `requires` it.
 */
module Pins {
  import opened GpioTypes
  import opened Low
  import opened Encoding

  /**
   * `Direction::set_dir`: program `pin` on `gpio` with the register
   * direction that marker `d` stands for.
   */
  method SetDirection(d: Direction, gpio: Gpio, pin: u32)
    modifies gpio.registers
    ensures gpio.registers.trace == old(gpio.registers.trace) + [Call.SetDir(pin, IoDirOf(d))]
  {
    match d
    case Input => gpio.SetDir(pin, In);
    case Output => gpio.SetDir(pin, Out);
  }

  /**
   * The public operations of a pin handle. `Sample(word)` is a read whose
   * bank read returned `word`.
   */
  datatype PinOp =
    | Init
    | ConfigureInterrupt(mode: Interrupt)
    | Sample(word: bv32)
    | DriveLow
    | DriveHigh

  /** The operations a handle with marker `d` offers. */
  predicate Offers(d: Direction, op: PinOp)
  {
    match op
    case Init => true
    case ConfigureInterrupt(_) => d == Input
    case Sample(_) => d == Input
    case DriveLow => d == Output
    case DriveHigh => d == Output
  }

  /**
   * An operation on pin `n` that shifts by `n` (a read or a write) needs `n`
   * below 32.
   */
  predicate InRange(op: PinOp, n: u32)
  {
    (op.Sample? || op.DriveLow? || op.DriveHigh?) ==> n < 32
  }

  /**
   * `done` is the operation `op` as it was performed: the same operation,
   * except that a read carries the word the hardware returned.
   */
  predicate Performs(done: PinOp, op: PinOp)
  {
    if op.Sample? then done.Sample? else done == op
  }

  /**
   * The one register call that operation `op` on pin `n` issues, for a handle
   * whose marker is `d`. Initialisation programs the pin as an input whatever
   * `d` is.
   */
  function CallOf(op: PinOp, n: u32, d: Direction): (r: Call)
    requires InRange(op, n)
    ensures r.SetDir? <==> op.Init?
    ensures r.SetDir? ==> r.pin == n && r.dir == In
    ensures r.SetInterrupt? <==> op.ConfigureInterrupt?
    ensures r.SetInterrupt? ==> r.pin == n && r.mode == op.mode
    ensures r.Read? <==> op.Sample?
    ensures r.Read? ==> r.word == op.word
    ensures r.Write? <==> (op.DriveLow? || op.DriveHigh?)
    ensures r.Write? ==> LevelOf(r.mask, n as nat) == (if op.DriveHigh? then Level.High else Level.Low)
  {
    match op
    case Init => Call.SetDir(n, IoDirOf(Input))
    case ConfigureInterrupt(mode) => Call.SetInterrupt(n, mode)
    case Sample(word) => Call.Read(word)
    case DriveLow =>
      ReadsBackWrittenLevel(Level.Low, n as nat);
      Call.Write(MaskOf(Level.Low, n as nat))
    case DriveHigh =>
      ReadsBackWrittenLevel(Level.High, n as nat);
      Call.Write(MaskOf(Level.High, n as nat))
  }

  /**
   * Initialisation issues `set_dir(n, In)` for both markers, so an output pin
   * is programmed with the direction of an input.
   */
  lemma InitProgramsInput(n: u32, d: Direction)
    ensures CallOf(Init, n, d) == Call.SetDir(n, In)
    ensures d == Output ==> CallOf(Init, n, d).dir != IoDirOf(d)
  {
  }

  /**
   * The register calls a sequence of operations on pin `n` issues, in order:
   * `CallOf` applied to each operation. `Io.Perform` shows that running the
   * operations on a handle appends exactly these calls to its bank's block.
   */
  function SessionCalls(ops: seq<PinOp>, n: u32, d: Direction): (r: seq<Call>)
    requires forall k :: 0 <= k < |ops| ==> InRange(ops[k], n)
    ensures |r| == |ops|
    ensures forall k :: 0 <= k < |ops| ==> r[k] == CallOf(ops[k], n, d)
  {
    if ops == [] then []
    else SessionCalls(ops[..|ops| - 1], n, d) + [CallOf(ops[|ops| - 1], n, d)]
  }

  /**
   * Whatever operations a handle offers are performed on it (see
   * `Io.Perform`), one register
   * call reaches the block per operation, every `set_dir` and
   * `set_interrupt` names pin `n`, no call ever sets direction `Out`, an
   * input handle never writes and an output handle never reads or touches
   * the interrupt configuration.
   */
  lemma SessionShape(ops: seq<PinOp>, n: u32, d: Direction)
    requires forall k :: 0 <= k < |ops| ==> Offers(d, ops[k]) && InRange(ops[k], n)
    ensures |SessionCalls(ops, n, d)| == |ops|
    ensures forall c :: c in SessionCalls(ops, n, d) ==> !(c.SetDir? && c.dir == Out)
    ensures forall c :: c in SessionCalls(ops, n, d) && (c.SetDir? || c.SetInterrupt?) ==> c.pin == n
    ensures d == Input ==> forall c :: c in SessionCalls(ops, n, d) ==> !c.Write?
    ensures d == Output ==> forall c :: c in SessionCalls(ops, n, d) ==> !c.Read? && !c.SetInterrupt?
  {
  }

  /**
   * A typed handle for pin `n` of `bank` with marker `direction`. The crate's
   * handle holds no runtime data; its three parameters are fields here.
   */
  class Io {
    const bank: Bank
    const n: u32
    const direction: Direction

    /**
     * `init`: obtain a register handle and program the pin's direction. As the
     * crate writes it, the input marker's `set_dir` is used for every marker.
     */
    constructor Init(bank: Bank, n: u32, direction: Direction)
      modifies bank.block
      ensures this.bank == bank && this.n == n && this.direction == direction
      ensures bank.block.trace == old(bank.block.trace) + [CallOf(PinOp.Init, n, direction)]
    {
      this.bank := bank;
      this.n := n;
      this.direction := direction;
      new;
      var gpio := bank.GetHandle();
      SetDirection(Input, gpio, n);
    }

    /** `set_interrupt` (input pins): forward the mode for pin `n`. */
    method SetInterrupt(mode: Interrupt)
      requires direction == Input
      modifies bank.block
      ensures bank.block.trace == old(bank.block.trace) + [CallOf(ConfigureInterrupt(mode), n, direction)]
    {
      var gpio := bank.GetHandle();
      gpio.SetInterrupt(n, mode);
    }

    /** `read` (input pins): one bank read, decoded at bit `n`. */
    method Read() returns (level: Level)
      requires direction == Input
      requires n < 32
      modifies bank.block
      ensures exists word ::
        bank.block.trace == old(bank.block.trace) + [CallOf(Sample(word), n, direction)] &&
        level == LevelOf(word, n as nat)
    {
      var gpio := bank.GetHandle();
      var value := gpio.Read();
      if value & (1 << n) != 0 {
        level := Level.High;
      } else {
        level := Level.Low;
      }
      assert bank.block.trace == old(bank.block.trace) + [CallOf(Sample(value), n, direction)];
    }

    /** `write` (output pins): one bank write of the mask for `level`. */
    method Write(level: Level)
      requires direction == Output
      requires n < 32
      modifies bank.block
      ensures bank.block.trace == old(bank.block.trace) + [Call.Write(MaskOf(level, n as nat))]
    {
      var gpio := bank.GetHandle();
      var mask: bv32 := match level
        case Low => 0xFFFF_FFFF ^ (1 << n)
        case High => 1 << n;
      gpio.Write(mask);
    }

    /** `set_low` (output pins): exactly `write(Low)`. */
    method SetLow()
      requires direction == Output
      requires n < 32
      modifies bank.block
      ensures bank.block.trace == old(bank.block.trace) + [CallOf(DriveLow, n, direction)]
    {
      Write(Level.Low);
    }

    /** `set_high` (output pins): exactly `write(High)`. */
    method SetHigh()
      requires direction == Output
      requires n < 32
      modifies bank.block
      ensures bank.block.trace == old(bank.block.trace) + [CallOf(DriveHigh, n, direction)]
    {
      Write(Level.High);
    }
      /**
     * A client running `ops` on this pin one after another: `Init`
     * initialises the pin again through a new handle, every other operation
     * calls the matching method. `done` is `ops` as performed, each read
     * carrying the word the hardware returned.
     */
    method Perform(ops: seq<PinOp>) returns (done: seq<PinOp>)
      requires forall k :: 0 <= k < |ops| ==> Offers(direction, ops[k]) && InRange(ops[k], n)
      modifies bank.block
      ensures |done| == |ops|
      ensures forall k :: 0 <= k < |ops| ==> Performs(done[k], ops[k])
      ensures forall k :: 0 <= k < |done| ==> Offers(direction, done[k]) && InRange(done[k], n)
      ensures bank.block.trace == old(bank.block.trace) + SessionCalls(done, n, direction)
      ensures forall c :: c in bank.block.trace[|old(bank.block.trace)|..] ==> !(c.SetDir? && c.dir == Out)
      ensures forall c :: c in bank.block.trace[|old(bank.block.trace)|..] && (c.SetDir? || c.SetInterrupt?) ==> c.pin == n
      ensures direction == Input ==> forall c :: c in bank.block.trace[|old(bank.block.trace)|..] ==> !c.Write?
      ensures direction == Output ==>
        forall c :: c in bank.block.trace[|old(bank.block.trace)|..] ==> !c.Read? && !c.SetInterrupt?
    {
      done := [];
      for i := 0 to |ops|
        invariant |done| == i
        invariant forall k :: 0 <= k < i ==> Performs(done[k], ops[k])
        invariant forall k :: 0 <= k < i ==> Offers(direction, done[k]) && InRange(done[k], n)
        invariant bank.block.trace == old(bank.block.trace) + SessionCalls(done, n, direction)
      {
        var performed := ops[i];
        if ops[i].Init? {
          var again := new Io.Init(bank, n, direction);
        } else if ops[i].ConfigureInterrupt? {
          SetInterrupt(ops[i].mode);
        } else if ops[i].Sample? {
          var level := Read();
          performed := Sample(bank.block.trace[|bank.block.trace| - 1].word);
        } else if ops[i].DriveLow? {
          SetLow();
        } else {
          SetHigh();
        }
        assert (done + [performed])[..i] == done;
        done := done + [performed];
      }
      SessionShape(done, n, direction);
    }
  }
}
