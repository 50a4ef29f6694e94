# KinitOS interrupt table and VGA writer, modelled in Dafny

This project models two parts of the KinitOS kernel.

- `cpu_exceptions.dfy` (module `CpuExceptions`) covers the interrupt-descriptor-table code. It models:
  - the closed set of CPU exception kinds, whose discriminants are their vector numbers (section 6.2, Table 6-1, of the Intel 64 and IA-32 Architectures Software Developer's Manual, Volume 3A);
  - the gate attribute constants;
  - one 64-bit-mode gate descriptor: its constructor, `set_options` and `set_address` (layout from section 6.14.1 of the same volume);
  - the fixed table of 256 descriptors with `new`, `get` and `set`.

  The source file is an unfinished sketch. It does not compile: line 79 assigns `0` to the options wrapper, line 93 has a malformed signature, lines 46-49 are a `todo!` match that misses `Task`, and line 172 reads `fn unsafe`. The model follows what the field comments (lines 60, 64, 65) and the gate constants (lines 32-33) intend. Two places where the arithmetic as written breaks that intent are modelled as written too, and are recorded under "Findings".
- `vga_buffer.dfy` (module `VgaBuffer`) models the VGA text-mode writer. It covers:
  - the colour attribute byte;
  - a 25 x 80 grid of (byte, colour) cells;
  - the cursor (`rowpos`, `colpos`), line wrapping and scroll-up;
  - `print`, which substitutes 0xFE for every byte that is neither a newline nor printable ASCII.

  `Writer` is a class over an `array2` updated in place. A ghost field `cells` mirrors the array. Each method is proved against a pure function on a `Screen` value (`Scrolled`, `LineFed`, `CharPut`, `Printed`). The properties are lemmas about those functions. The object invariant `Valid()` keeps the cursor inside the grid, and that is what keeps the cell write of `print_char` in bounds.

## Model

| member | source | states |
|---|---|---|
| `CpuExceptions.Vector` | src/cpu_exceptions.rs:7-28 | every exception kind's discriminant is a vector in 0-19 other than the reserved 15 |
| `CpuExceptions.Classify` | src/cpu_exceptions.rs:7-28 | a vector has a kind exactly when it is below 20 and not 15; the kind found has that vector as its discriminant |
| `CpuExceptions.ClassifyVector` | src/cpu_exceptions.rs:7-28 | classifying a kind's own vector gives back that kind |
| `CpuExceptions.VectorInjective` | src/cpu_exceptions.rs:7-28 | no two kinds share a vector |
| `CpuExceptions.VectorOnto` | src/cpu_exceptions.rs:7-28 | every vector in 0-19 except 15 belongs to some kind |
| `CpuExceptions.PackAttributes` | src/cpu_exceptions.rs:30-35 | the section 6.14.1 attribute byte: gate type, bit 4, privilege level and present flag each read back as packed |
| `CpuExceptions.GateConstantsLayout` | src/cpu_exceptions.rs:31-33 | Interrupt (0x8E) and Trap (0x8F) are present, privilege-0 gates with bit 4 clear and type 0xE and 0xF respectively |
| `CpuExceptions.GateValue` | src/cpu_exceptions.rs:30-35 | the `repr(u64)` discriminants, Task's implicit one included, all set the present bit with privilege level 0; only Task's sets bit 4 |
| `CpuExceptions.TaskHasNoGateType` | src/cpu_exceptions.rs:34 | Task's implicit discriminant is 0x90, whose gate-type field 0 names no 64-bit gate |
| `CpuExceptions.SplitAddress` | src/cpu_exceptions.rs:103-107 | the intended split of a 64-bit handler address into bits 0-15, 16-31 and 32-63 reconstructs the address exactly |
| `CpuExceptions.SplitJoin` | src/cpu_exceptions.rs:60-65 | splitting the address the three offset fields encode gives back those fields, so fields and address are in bijection |
| `CpuExceptions.SplitAddressAsWritten` | src/cpu_exceptions.rs:104-106 | the written split agrees with the intended one in the low and middle fields, but its high field holds address bits 16-47: its low half repeats the middle field |
| `CpuExceptions.SplitAsWrittenLosesAddress` | src/cpu_exceptions.rs:106 | with the high field shifted by 16, address 0x1_0000 is encoded as fields (0, 1, 1), which name 0x1_0001_0000 |
| `CpuExceptions.TypeAttributesAsWritten` | src/cpu_exceptions.rs:95 | the written attribute expression is always 0, so its present bit is clear and its gate type is 0 |
| `CpuExceptions.EmptyDescriptorNotPresent` | src/cpu_exceptions.rs:74-84 | the all-zero descriptor is not present and names address 0 |
| `CpuExceptions.InterruptDescriptor.constructor` | src/cpu_exceptions.rs:74-84 | `new` gives the all-zero descriptor, which is not present |
| `CpuExceptions.InterruptDescriptor.SetOptions` | src/cpu_exceptions.rs:93-96 | the stack-table index becomes 0 and the attributes become the gate's constant, so the descriptor is present with type 0xE or 0xF; the offsets, selector and reserved field are unchanged |
| `CpuExceptions.InterruptDescriptor.SetAddress` | src/cpu_exceptions.rs:103-107 | the offset fields become the split of the address and the descriptor names exactly that address; selector, stack index, attributes and reserved field are unchanged |
| `CpuExceptions.InterruptDescriptorTable.constructor` | src/cpu_exceptions.rs:122-124 | `new` gives exactly 256 entries, each the empty descriptor, none present |
| `CpuExceptions.InterruptDescriptorTable.Get` | src/cpu_exceptions.rs:127-129 | `get` returns the descriptor stored for an index below 256 and fails for any larger index |
| `CpuExceptions.InterruptDescriptorTable.Set` | src/cpu_exceptions.rs:132-134 | after `set(i, d)`, `get(i)` returns `d` and every other index returns what it returned before; an index of 256 or more fails and stores nothing |
| `VgaBuffer.FontValue` | src/vga_buffer.rs:12-29 | every foreground colour is a 4-bit value |
| `VgaBuffer.BackgroundValue` | src/vga_buffer.rs:34-43 | every background colour is a 3-bit value |
| `VgaBuffer.NewColorCode` | src/vga_buffer.rs:53-55 | the code's low nibble is the foreground, the code shifted right by 4 is the background, and the code is below 0x80 |
| `VgaBuffer.DefaultColorCode` | src/vga_buffer.rs:79 | light gray on black is attribute 0x07 |
| `VgaBuffer.Scrolled` | src/vga_buffer.rs:104-114 | new row i is old row i+1 for every row but the last, the last row is blank in the current colour, and cursor and colour stay |
| `VgaBuffer.LineFed` | src/vga_buffer.rs:91-99 | the column becomes 0; the row advances, or on the last row stays and the grid scrolls; a cursor row inside the grid stays inside it |
| `VgaBuffer.CharPut` | src/vga_buffer.rs:133-146 | a newline feeds the line; any other byte is written in the current colour at the old cursor and the cursor moves right or wraps; except in the last cell of the grid no other cell changes; in the last cell the written grid scrolls one row up; the cursor stays inside the grid |
| `VgaBuffer.Substitute` | src/vga_buffer.rs:121-126 | a newline or printable byte passes unchanged; anything else becomes 0xFE; the result is never anything else |
| `VgaBuffer.Printed` | src/vga_buffer.rs:120-127 | printing any byte string keeps the cursor inside the grid and the colour unchanged |
| `VgaBuffer.PrintedAppend` | src/vga_buffer.rs:121-126 | bytes are processed in order: printing `a + b` is printing `a`, then `b` |
| `VgaBuffer.PrintedSnoc` | src/vga_buffer.rs:121-126 | printing one more byte puts its substituted form after the bytes printed so far |
| `VgaBuffer.LineFedKeepsDisplayable` | src/vga_buffer.rs:104-114 | a line feed, scrolling included, keeps every cell printable ASCII or 0xFE |
| `VgaBuffer.CharPutKeepsDisplayable` | src/vga_buffer.rs:133-146 | putting a newline, a printable byte or 0xFE keeps every cell printable ASCII or 0xFE |
| `VgaBuffer.CharPutWritesDisplayable` | src/vga_buffer.rs:133-146 | putting a newline, a printable byte or 0xFE adds only printable ASCII or 0xFE cells: every cell is such a cell or one from the given set |
| `VgaBuffer.PrintedWritesDisplayable` | src/vga_buffer.rs:120-137 | printing any bytes keeps "every cell is printable ASCII, 0xFE or one of the given cells" |
| `VgaBuffer.PrintedOnlyWritesDisplayable` | src/vga_buffer.rs:120-137 | `print` only ever writes printable ASCII or 0xFE, whatever the screen held: after printing, a cell that is neither was already on the screen before |
| `VgaBuffer.PrintedKeepsDisplayable` | src/vga_buffer.rs:120-137 | the clean-screen case: from a grid of printable ASCII and 0xFE only, printing keeps that property and no cell holds a newline |
| `VgaBuffer.Writer.constructor` | src/vga_buffer.rs:78-84 | the cursor starts at (0, 0) and the colour is light gray on black (0x07) |
| `VgaBuffer.Writer.SetColor` | src/vga_buffer.rs:87-89 | only the colour changes; cursor and grid are unchanged |
| `VgaBuffer.Writer.NewLine` | src/vga_buffer.rs:91-99 | keeps the cursor inside the grid; the new state is `LineFed` of the old |
| `VgaBuffer.Writer.ShiftUp` | src/vga_buffer.rs:104-114 | the nested copy loops and the blanking loop leave the buffer equal to `Scrolled` of the old grid |
| `VgaBuffer.Writer.PrintChar` | src/vga_buffer.rs:133-146 | the cell write is in bounds and the new state is `CharPut` of the old |
| `VgaBuffer.Writer.Print` | src/vga_buffer.rs:120-127 | keeps the cursor inside the grid; the new state is `Printed` of the old state and the bytes |

## Findings

| source | as written | input that shows it | evidently intended | confidence | as-written member | corrected member |
|---|---|---|---|---|---|---|
| src/cpu_exceptions.rs:106 | the high offset field takes the address shifted right by 16 | handler address 0x1_0000 gives fields (0, 1, 1), which encode 0x1_0001_0000 | shift right by 32, so that bits 32-63 land in the high field as the comment on line 65 says | high; not executed | `CpuExceptions.SplitAddressAsWritten`, `CpuExceptions.SplitAsWrittenLosesAddress` | `CpuExceptions.SplitAddress` |
| src/cpu_exceptions.rs:95 | the attribute field is an `&` chain of `1 << 8`, `0 << 6` and `0xF` | any call: the expression evaluates to 0, so the present bit is clear | the gate's attribute constant, 0x8E or 0x8F (lines 32-33), which sets the present bit | high; not executed | `CpuExceptions.TypeAttributesAsWritten` | `CpuExceptions.InterruptDescriptor.SetOptions` |

## Left out

- `load_idt` and `disable_interrupt` are left out: they run privileged instructions (`lidt`) and have no logic to state. `load_idt` also passes the table itself where `lidt` expects a limit/base pseudo-descriptor.
- `idt_init` is left out: its body, apart from those two calls, is commented out.
- The handler stubs (`divide_error` and the others) and the empty-armed `exception_handler` match are left out: they have no behaviour to state, apart from a serial print.
- The in-memory layout of the descriptor is left out. The model has no `repr(C)` and no byte offsets. It keeps `ist` as the source's `u8` and `type_attributes` as a 16-bit value holding the attribute byte.
- CpuExceptions.InterruptDescriptor.SetOptions requires a gate other than Task, because Task's constant has no 64-bit gate type (`TaskHasNoGateType`). The unused address parameters of the malformed signature are not modelled, and neither is `set_gate_type`, whose arms are `todo!` and which `set_options` never calls.
- CpuExceptions.InterruptDescriptorTable.Get and CpuExceptions.InterruptDescriptorTable.Set model the panic of an out-of-range index as a failed result (`None`, `false`), not as a halt.
- Per-kind error-code flags and a dispatch policy are not modelled: the code has neither.
- VgaBuffer.Writer.constructor takes the frame buffer as a parameter. The fixed MMIO address 0xb8000 and `Volatile` reads and writes are not modelled. The grid's initial contents are whatever the buffer holds.
- The `WRITER` static, its `Mutex` and `lazy_static`, `_print`, the `fmt::Write` impl and the `print!`/`println!` macros are left out: they are locking and formatting machinery.
- `src/lib.rs`, `src/serial.rs` and `src/main.rs` are left out: they are QEMU exit port I/O, the serial port wrapper, panic handlers, the test harness and the boot entry point.
