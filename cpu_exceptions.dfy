/**
 * The interrupt-descriptor-table part of the kernel (src/cpu_exceptions.rs):
 * the closed set of CPU exception kinds and their vector numbers, the gate
 * attribute constants, one 64-bit-mode gate descriptor and the table of 256
 * descriptors indexed by vector.
 *
 * Vector numbers follow section 6.2 (Table 6-1) and the descriptor layout
 * section 6.14.1 of the Intel 64 and IA-32 Architectures Software
 * Developer's Manual, Volume 3A. Fields are modelled as values; the
 * in-memory byte layout of the descriptor is not part of this model.
 */
module CpuExceptions {

  /** The unsigned machine integers of the source, as bounded integers. */
  type u8 = x: int | 0 <= x < 0x100
  type u16 = x: int | 0 <= x < 0x1_0000
  type u32 = x: int | 0 <= x < 0x1_0000_0000
  type u64 = x: int | 0 <= x < 0x1_0000_0000_0000_0000

  datatype Option<T> = None | Some(value: T)

  // ---------------------------------------------------------------------
  // Exception kinds
  // ---------------------------------------------------------------------

  /** `CPUExceptionType`: the exceptions the processor raises on vectors 0-19. */
  datatype CpuExceptionType =
    | ZeroDivide | Debug | NonMaskableInt | BreakPoint | Overflow | BoundCheck
    | InvalidOpcode | DevNotAvail | DoubleFault | CoprocSegOverrun | InvalidTss
    | SegNotPresent | StackSegFault | GeneralProtection | PageFault
    | FloatPointError | AlignCheck | MachineCheck | SimdFloatException

  /** The enum discriminant of a kind, which is its architectural vector number. */
  function Vector(k: CpuExceptionType): (v: u8)
    ensures v < 20 && v != 15
  {
    match k
    case ZeroDivide => 0
    case Debug => 1
    case NonMaskableInt => 2
    case BreakPoint => 3
    case Overflow => 4
    case BoundCheck => 5
    case InvalidOpcode => 6
    case DevNotAvail => 7
    case DoubleFault => 8
    case CoprocSegOverrun => 9
    case InvalidTss => 10
    case SegNotPresent => 11
    case StackSegFault => 12
    case GeneralProtection => 13
    case PageFault => 14
    case FloatPointError => 16
    case AlignCheck => 17
    case MachineCheck => 18
    case SimdFloatException => 19
  }

  /**
   * The kind whose discriminant is `v`: nothing for the reserved vector 15
   * and nothing for any vector from 20 on.
   */
  function Classify(v: nat): (r: Option<CpuExceptionType>)
    ensures r.Some? <==> v < 20 && v != 15
    ensures r.Some? ==> Vector(r.value) == v
  {
    if v == 0 then Some(ZeroDivide)
    else if v == 1 then Some(Debug)
    else if v == 2 then Some(NonMaskableInt)
    else if v == 3 then Some(BreakPoint)
    else if v == 4 then Some(Overflow)
    else if v == 5 then Some(BoundCheck)
    else if v == 6 then Some(InvalidOpcode)
    else if v == 7 then Some(DevNotAvail)
    else if v == 8 then Some(DoubleFault)
    else if v == 9 then Some(CoprocSegOverrun)
    else if v == 10 then Some(InvalidTss)
    else if v == 11 then Some(SegNotPresent)
    else if v == 12 then Some(StackSegFault)
    else if v == 13 then Some(GeneralProtection)
    else if v == 14 then Some(PageFault)
    else if v == 16 then Some(FloatPointError)
    else if v == 17 then Some(AlignCheck)
    else if v == 18 then Some(MachineCheck)
    else if v == 19 then Some(SimdFloatException)
    else None
  }

  /** Classifying a kind's own vector gives the kind back. */
  lemma ClassifyVector(k: CpuExceptionType)
    ensures Classify(Vector(k)) == Some(k)
  {
  }

  /** No two kinds share a vector number. */
  lemma VectorInjective(a: CpuExceptionType, b: CpuExceptionType)
    requires Vector(a) == Vector(b)
    ensures a == b
  {
    ClassifyVector(a);
    ClassifyVector(b);
  }

  /** Every vector in 0-19 other than 15 is the vector of some kind. */
  lemma VectorOnto(v: nat)
    requires v < 20 && v != 15
    ensures exists k :: Vector(k) == v
  {
    var k := Classify(v).value;
    assert Vector(k) == v;
  }

  // ---------------------------------------------------------------------
  // Gate attributes
  // ---------------------------------------------------------------------

  /** `GateType`: Task carries no explicit discriminant and so follows Trap. */
  datatype GateType = Interrupt | Trap | Task

  /**
   * The `#[repr(u64)]` discriminant of a gate type: its attribute byte. All
   * three are present with privilege level 0; only Task's sets bit 4, which
   * marks a code or data segment rather than a system gate.
   */
  function GateValue(g: GateType): (v: u64)
    ensures PresentBit(v) == 1 && Dpl(v) == 0
    ensures Bit4(v) == 1 <==> g == Task
  {
    match g
    case Interrupt => 0x8E
    case Trap => 0x8F
    case Task => 0x90
  }

  /** Bits 0-3 of an attribute byte: the gate type. */
  function GateTypeBits(a: nat): nat { a % 0x10 }

  /** Bit 4 of an attribute byte, which a gate descriptor keeps at zero. */
  function Bit4(a: nat): nat { a / 0x10 % 2 }

  /** Bits 5-6 of an attribute byte: the descriptor privilege level. */
  function Dpl(a: nat): nat { a / 0x20 % 4 }

  /** Bit 7 of an attribute byte: the present flag. */
  function PresentBit(a: nat): nat { a / 0x80 % 2 }

  /**
   * The attribute byte of a gate descriptor as section 6.14.1 lays it out:
   * type in bits 0-3, zero in bit 4, privilege level in bits 5-6 and the
   * present flag in bit 7. Each field reads back as packed.
   */
  function PackAttributes(gateType: nat, dpl: nat, present: bool): (a: u8)
    requires gateType < 0x10 && dpl < 4
    ensures GateTypeBits(a) == gateType && Bit4(a) == 0 && Dpl(a) == dpl
    ensures PresentBit(a) == (if present then 1 else 0)
  {
    gateType + dpl * 0x20 + (if present then 0x80 else 0)
  }

  /**
   * The Interrupt and Trap constants are present, privilege-0 gates of type
   * 0xE (64-bit interrupt gate) and 0xF (64-bit trap gate).
   */
  lemma GateConstantsLayout(g: GateType)
    requires g != Task
    ensures GateValue(g) == PackAttributes(if g == Interrupt then 0xE else 0xF, 0, true)
    ensures PresentBit(GateValue(g)) == 1 && Bit4(GateValue(g)) == 0 && Dpl(GateValue(g)) == 0
    ensures GateTypeBits(GateValue(g)) == if g == Interrupt then 0xE else 0xF
  {
  }

  /**
   * Task's implicit discriminant 0x90 has gate type 0, which names no gate in
   * 64-bit mode (task gates do not exist there).
   */
  lemma TaskHasNoGateType()
    ensures GateValue(Task) == 0x90
    ensures GateTypeBits(GateValue(Task)) == 0 && PresentBit(GateValue(Task)) == 1
  {
  }

  // ---------------------------------------------------------------------
  // One descriptor
  // ---------------------------------------------------------------------

  /** The three offset fields of a descriptor put back together into an address. */
  function JoinAddress(offset1: u16, offset2: u16, offset3: u32): u64
  {
    offset1 + offset2 * 0x1_0000 + offset3 * 0x1_0000_0000
  }

  /**
   * The intended split of a 64-bit handler address: bits 0-15, 16-31 and
   * 32-63 (`>> n` is a division by 2^n, `as u16`/`as u32` truncate).
   */
  function SplitAddress(addr: u64): (r: (u16, u16, u32))
    ensures JoinAddress(r.0, r.1, r.2) == addr
  {
    (addr % 0x1_0000, addr / 0x1_0000 % 0x1_0000, addr / 0x1_0000_0000 % 0x1_0000_0000)
  }

  /** Splitting a joined address gives back the fields, so the encoding is a bijection. */
  lemma SplitJoin(offset1: u16, offset2: u16, offset3: u32)
    ensures SplitAddress(JoinAddress(offset1, offset2, offset3)) == (offset1, offset2, offset3)
  {
    var a := JoinAddress(offset1, offset2, offset3);
    var upper := offset2 + offset3 * 0x1_0000;
    QuotientRemainder(a, 0x1_0000, upper, offset1);
    QuotientRemainder(upper, 0x1_0000, offset3, offset2);
    QuotientRemainder(a, 0x1_0000_0000, offset3, offset1 + offset2 * 0x1_0000);
  }

  /** Quotient and remainder are unique for the two divisors the split uses. */
  lemma QuotientRemainder(a: int, n: int, q: int, r: int)
    requires n == 0x1_0000 || n == 0x1_0000_0000
    requires 0 <= r < n && a == q * n + r
    ensures a / n == q && a % n == r
  {
  }

  /**
   * The split as src/cpu_exceptions.rs writes it: the high field shifts by
   * 16, not 32. The low and middle fields agree with the intended split, but
   * the high field holds address bits 16-47: its low half repeats the middle
   * field and only its high half holds bits 32-47.
   */
  function SplitAddressAsWritten(addr: u64): (r: (u16, u16, u32))
    ensures r.0 == SplitAddress(addr).0 && r.1 == SplitAddress(addr).1
    ensures r.2 % 0x1_0000 == r.1
    ensures r.2 / 0x1_0000 == SplitAddress(addr).2 % 0x1_0000
  {
    (addr % 0x1_0000, addr / 0x1_0000 % 0x1_0000, addr / 0x1_0000 % 0x1_0000_0000)
  }

  /**
   * For the handler address 0x1_0000 the written split puts bit 16 into both
   * the middle and the high field, so the descriptor names 0x1_0001_0000.
   */
  lemma SplitAsWrittenLosesAddress()
    ensures SplitAddressAsWritten(0x1_0000) == (0, 1, 1)
    ensures JoinAddress(0, 1, 1) == 0x1_0001_0000 != 0x1_0000
    ensures SplitAddress(0x1_0000) == (0, 1, 0)
  {
  }

  /**
   * The attribute field as src/cpu_exceptions.rs computes it: shifts bind
   * tighter than `&`, so the value is `0x100 & 0 & 0xF`. It is always 0: the
   * present bit is clear, so every gate configured with it is not present.
   */
  function TypeAttributesAsWritten(): (a: bv16)
    ensures a == 0
    ensures PresentBit(a as nat) == 0 && GateTypeBits(a as nat) == 0
  {
    ((1 as bv16) << 8) & ((0 as bv16) << 6) & 0xF
  }

  /** A descriptor as a value: what the table stores and `get` copies out. */
  datatype Descriptor = Descriptor(
    offset1: u16,       // address bits 0-15
    segSelector: u16,   // code-segment selector
    ist: u8,            // interrupt stack table index
    typeAttributes: u16,
    offset2: u16,       // address bits 16-31
    offset3: u32,       // address bits 32-63
    zero: u32)          // reserved
  {
    /** The handler address the offset fields encode. */
    function HandlerAddress(): u64 { JoinAddress(offset1, offset2, offset3) }

    predicate Present() { PresentBit(typeAttributes) == 1 }
  }

  /** The all-zero descriptor `InterruptDescriptor::new` produces. */
  const EMPTY_DESCRIPTOR := Descriptor(0, 0, 0, 0, 0, 0, 0)

  /** The empty descriptor is not present and names address 0. */
  lemma EmptyDescriptorNotPresent()
    ensures !EMPTY_DESCRIPTOR.Present() && EMPTY_DESCRIPTOR.HandlerAddress() == 0
  {
  }

  /** A descriptor being configured in place through `&mut self`. */
  class InterruptDescriptor {
    var offset1: u16
    var segSelector: u16
    var ist: u8
    var typeAttributes: u16
    var offset2: u16
    var offset3: u32
    var zero: u32

    /** The descriptor's current contents, copied out as a value. */
    function Value(): Descriptor
      reads this
    {
      Descriptor(offset1, segSelector, ist, typeAttributes, offset2, offset3, zero)
    }

    /** `new`: the empty descriptor. */
    constructor ()
      ensures Value() == EMPTY_DESCRIPTOR && !Value().Present()
    {
      offset1, segSelector, ist, typeAttributes := 0, 0, 0, 0;
      offset2, offset3, zero := 0, 0, 0;
    }

    /**
     * `set_options` with its intended encoding: the stack-table index becomes
     * 0 and the attribute field the gate's constant, which marks the
     * descriptor present. Task is not accepted: its constant has no
     * 64-bit gate type (see TaskHasNoGateType).
     */
    method SetOptions(gate: GateType)
      requires gate != Task
      modifies this
      ensures ist == 0 && ist < 8
      ensures typeAttributes == GateValue(gate) && Value().Present()
      ensures GateTypeBits(typeAttributes) == if gate == Interrupt then 0xE else 0xF
      ensures offset1 == old(offset1) && offset2 == old(offset2) && offset3 == old(offset3)
      ensures segSelector == old(segSelector) && zero == old(zero)
    {
      ist := 0;
      typeAttributes := GateValue(gate);
      GateConstantsLayout(gate);
    }

    /**
     * `set_address` with the intended split: the descriptor then names
     * exactly `addr`, and only the three offset fields change.
     */
    method SetAddress(addr: u64)
      modifies this
      ensures (offset1, offset2, offset3) == SplitAddress(addr)
      ensures Value().HandlerAddress() == addr
      ensures segSelector == old(segSelector) && ist == old(ist)
      ensures typeAttributes == old(typeAttributes) && zero == old(zero)
    {
      offset1 := addr % 0x1_0000;
      offset2 := addr / 0x1_0000 % 0x1_0000;
      offset3 := addr / 0x1_0000_0000 % 0x1_0000_0000;
    }
  }

  // ---------------------------------------------------------------------
  // The table
  // ---------------------------------------------------------------------

  const MAX_IDT_ENTRY := 256

  /** The interrupt descriptor table: one descriptor per vector. */
  class InterruptDescriptorTable {
    const entries: array<Descriptor>

    ghost predicate Valid()
      reads this
    {
      entries.Length == MAX_IDT_ENTRY
    }

    /** `new`: 256 copies of the empty descriptor, none of them present. */
    constructor ()
      ensures Valid() && fresh(entries)
      ensures forall i :: 0 <= i < entries.Length ==> entries[i] == EMPTY_DESCRIPTOR
      ensures forall i :: 0 <= i < entries.Length ==> !entries[i].Present()
    {
      var empty := new InterruptDescriptor();
      var e := empty.Value();
      entries := new Descriptor[MAX_IDT_ENTRY](_ => e);
    }

    /**
     * `get`: the descriptor stored for vector `idx`; an index past the table
     * is the bounds failure of the source's array index, modelled as None.
     */
    function Get(idx: nat): (r: Option<Descriptor>)
      requires Valid()
      reads this, entries
      ensures r.Some? <==> idx < MAX_IDT_ENTRY
      ensures r.Some? ==> r.value == entries[idx]
    {
      if idx < MAX_IDT_ENTRY then Some(entries[idx]) else None
    }

    /**
     * `set`: store `desc` for vector `idx`. A later `get(idx)` returns it and
     * every other vector keeps its descriptor; an index past the table is a
     * bounds failure (`ok` false) that stores nothing.
     */
    method Set(idx: nat, desc: Descriptor) returns (ok: bool)
      requires Valid()
      modifies entries
      ensures Valid()
      ensures ok <==> idx < MAX_IDT_ENTRY
      ensures ok ==> Get(idx) == Some(desc)
      ensures forall j: nat :: j != idx ==> Get(j) == old(Get(j))
      ensures !ok ==> entries[..] == old(entries[..])
    {
      ok := idx < MAX_IDT_ENTRY;
      if ok {
        entries[idx] := desc;
      }
    }
  }
}
