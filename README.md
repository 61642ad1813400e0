# Typed GPIO pins over an abstract register block

A model of the `ayo` crate's pin-level logic: a typed GPIO pin handle
(`Io<N, B, R, D>`) for pin `N` of bank `B`, with direction marker `D`
(`Input` or `Output`), layered over a platform register block `R` that the
crate only reaches through four raw operations (`set_dir`, `set_interrupt`,
`read`, `write`).

- `gpio_types.dfy` (module `GpioTypes`): `Level`, `Interrupt`, `IoDir`, the
  `Direction` marker as a closed datatype, and `u32` pin indices.
- `low.dfy` (module `Low`): the register contract as a `RegisterBlock` class
  that records, in order, every call it receives (a read records the word the
  platform returned, which is left unconstrained); the `Gpio` handle that
  stores the block's address and forwards each operation unchanged; and the
  `Bank` whose address is fixed and whose `GetHandle` wraps it.
- `encoding.dfy` (module `Encoding`): how a bank word becomes a level (bit `N`
  set means `High`) and how a level becomes the mask written to the bank
  (`High`: only bit `N`; `Low`: every bit except bit `N`).
- `pins.dfy` (module `Pins`): `Direction::set_dir`, the `Io` handle class, and
  the single register call each public pin operation issues (`CallOf`).
  `SessionCalls` is `CallOf` applied to each operation of a list. `Io.Perform`
  is a client of the handle rather than a crate operation: it runs a list of
  operations on one handle. Its contract shows that the bank's block receives
  exactly `SessionCalls` of the operations as performed, and it restates the
  facts of `SessionShape` about those calls.

Every public pin operation obtains a fresh register handle from its bank and
issues exactly one register call on the bank's block; no other object is
changed. Points where the code does something a reader might not expect, all
reproduced as written:

- `init` is documented (src/lib.rs:108-110) as configuring the hardware
  direction "using the marker types `Input` and `Output`". The code calls the
  `Input` marker's `set_dir` whatever the handle's marker is (src/lib.rs:113),
  so an output pin receives `set_dir(N, In)`. The model follows the code
  (`Pins.InitProgramsInput`). `Pins.SessionShape` and `Pins.Io.Perform` show
  the consequence: no run of public operations ever sends `set_dir(_, Out)`.
- `init` issues no `set_interrupt` and no `write`: its only register call is
  the one `set_dir`.
- `read` and `write` move whole 32-bit bank words: `read` decodes bit `N` of
  the word the block returns, and `write` hands the block a 32-bit mask.
- `1 << N` is only defined for `N < 32` (a larger shift overflows in Rust), so
  `read`, `write`, `set_low` and `set_high` require `N < 32`; `init` and
  `set_interrupt` do not shift and accept any `u32` pin index.
- The crate's interrupt modes `FallingEgdge`, `Low` and `High` are named
  `FallingEdge`, `LevelLow` and `LevelHigh` so they do not clash with `Level`.

## Model

| member | source | states |
|---|---|---|
| GpioTypes.IoDirOf | src/lib.rs:91-100 | The `Input` marker stands for register direction `In` and the `Output` marker for `Out`, in both directions of the equivalence. |
| Low.RegisterBlock.SetDir | src/low.rs:72-73 | The block's trace grows by exactly one `SetDir(pin, dir)` entry. |
| Low.RegisterBlock.SetInterrupt | src/low.rs:75-76 | The block's trace grows by exactly one `SetInterrupt(pin, mode)` entry. |
| Low.RegisterBlock.Read | src/low.rs:78-79 | The block's trace grows by exactly one `Read` entry carrying the word returned. |
| Low.RegisterBlock.Write | src/low.rs:81-82 | The block's trace grows by exactly one `Write(mask)` entry. |
| Low.Gpio.New | src/low.rs:115-117 | The handle stores the given register-block address unchanged. |
| Low.Gpio.SetDir | src/low.rs:121-123 | Exactly one call, `set_dir(pin, dir)`, reaches the handle's block, arguments unchanged. |
| Low.Gpio.SetInterrupt | src/low.rs:127-129 | Exactly one call, `set_interrupt(pin, mode)`, reaches the handle's block, arguments unchanged. |
| Low.Gpio.Read | src/low.rs:133-135 | Exactly one `read` reaches the block and the handle returns the very word it produced. |
| Low.Gpio.Write | src/low.rs:139-141 | Exactly one call, `write(mask)`, reaches the handle's block with the mask unchanged. |
| Low.Bank.Addr | src/low.rs:40-41 | The bank's register-block address is its own fixed block, the same on every call. |
| Low.Bank.GetHandle | src/low.rs:36-38 | Returns a new handle whose stored address is the bank's `Addr()`, and touches no register. |
| Encoding.LevelOf | src/lib.rs:136-140 | The level is `High` exactly when bit `N` of the word is set and `Low` exactly when it is clear. |
| Encoding.MaskOf | src/lib.rs:152-155 | The `High` mask has bit `N` set and every other bit clear; the `Low` mask has every bit set except bit `N`. |
| Encoding.LowMaskIsComplement | src/lib.rs:152-155 | The `Low` mask is the bitwise complement of the `High` mask: they share no bit and together cover all 32. |
| Encoding.ReadsBackWrittenLevel | src/lib.rs:136-155 | Decoding the mask written for a level at bit `N` gives back that level. |
| Encoding.OtherPinsReadOpposite | src/lib.rs:152-155 | At every other pin `M`, the mask written for a level decodes as the opposite level. |
| Encoding.ShiftedOneValue | src/lib.rs:154 | As an unsigned number, `1 << N` is 2^N. |
| Encoding.ClearedBitValue | src/lib.rs:153 | As an unsigned number, `u32::MAX ^ (1 << N)` is 2^32 - 1 - 2^N. |
| Encoding.MaskValues | src/lib.rs:152-155 | As unsigned numbers the `High` mask is 2^N and the `Low` mask is 2^32 - 1 - 2^N. |
| Pins.SetDirection | src/lib.rs:91-100 | `Input::set_dir` issues exactly `set_dir(pin, In)` and `Output::set_dir` exactly `set_dir(pin, Out)`, one call each. |
| Pins.CallOf | src/lib.rs:111-169 | Each public operation issues one call of its own kind: `init` a `set_dir(N, In)` whatever the marker, `set_interrupt` the mode unchanged for pin `N`, `read` a bank read, `set_low`/`set_high` a write whose mask decodes at bit `N` as `Low`/`High`. |
| Pins.InitProgramsInput | src/lib.rs:111-119 | `init` issues `set_dir(N, In)` for both markers, so for an `Output` pin the programmed direction differs from the marker's. |
| Pins.SessionCalls | src/lib.rs:111-169 | `CallOf` applied to each operation of a list: one call per operation, the k-th being the k-th operation's call. |
| Pins.SessionShape | src/lib.rs:102-169 | For `CallOf` applied to any list of offered operations: every `set_dir`/`set_interrupt` names pin `N`, none sets direction `Out`, an input pin never writes and an output pin never reads or sets an interrupt. |
| Pins.Io.Init | src/lib.rs:111-119 | `init` issues exactly one call on the bank's block, `set_dir(N, In)`, and nothing else. |
| Pins.Io.SetInterrupt | src/lib.rs:127-130 | `set_interrupt(mode)` issues exactly `set_interrupt(N, mode)` on the bank's block and nothing else. |
| Pins.Io.Read | src/lib.rs:133-141 | `read` issues exactly one bank read and returns `High` exactly when bit `N` of the word it returned is set. |
| Pins.Io.Write | src/lib.rs:150-157 | `write(level)` issues exactly one bank write, of the mask for `level` at pin `N`. |
| Pins.Io.SetLow | src/lib.rs:160-163 | `set_low` issues exactly the call `write(Low)` issues. |
| Pins.Io.SetHigh | src/lib.rs:166-169 | `set_high` issues exactly the call `write(High)` issues. |
| Pins.Io.Perform | src/lib.rs:111-169 | Running a list of offered operations on one handle (re-initialising for `init`) appends exactly `SessionCalls` of the operations as performed to the bank's block. Among the appended calls, none sets direction `Out` and every `set_dir`/`set_interrupt` names pin `N`; an input pin never writes, and an output pin never reads or sets an interrupt. |

## Left out

- Compile-time guarantees: the sealed `Direction` trait, the `PhantomData` marker fields and the type-level rejection of wrong-direction calls. The marker is a field of `Io`, and each direction-specific operation `requires` the matching marker.
- Raw pointers, `unsafe`, volatile-access obligations and the validity of a bank's base address: a register-block address is an object reference here.
- What `set_dir`, `set_interrupt`, `read` and `write` do in hardware is platform code that is not part of this model; the register block only records the calls it receives, and the word a read returns is unconstrained.
- Concurrent or interrupt-context access to a bank's register words is the platform's responsibility and is not modelled.
- The mocked register block and bank in the crate's documentation examples are not part of this model.
- `io::Gpio::new` is visible only inside the crate's low-level module, so calling code cannot build a handle over an arbitrary address. Dafny modules here export everything, so `Low.Gpio.New` can be called from anywhere; the model does not capture that restriction.
- `get_handle` is a default method of the `Bank` trait, and a platform bank may override it. The model fixes the default (a handle over `Addr()`). Every `Io` contract's statement that a call reaches the bank's block depends on that default.
