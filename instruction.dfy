/**
 * The processor identification instruction, seen from the engine:
 * a leaf and a sub-leaf go in, four 32-bit registers come out.
 * The instruction itself is a parameter `hw: Cpu`, a total and
 * deterministic function of the leaf/sub-leaf pair.
 *
 * Leaves, sub-leaves and registers are C `unsigned` values, modelled as
 * integers in [0, 2^32). The two bitwise operations the engine applies to
 * them are written as the comparisons they amount to, and the lemmas at the
 * end of this module prove that on 32-bit vectors the two agree.
 */
module Instruction {

  /** A 32-bit unsigned value. */
  newtype u32 = x: int | 0 <= x < 0x1_0000_0000

  /** Which of the four result registers holds a feature bit (enum cpuid_reg_e). */
  datatype Reg = EAX | EBX | ECX | EDX

  /** Position of a register in the cache's `reg[4]` array. */
  function Index(r: Reg): (i: nat)
    ensures i < 4
    ensures r == EAX <==> i == 0
  {
    match r
    case EAX => 0
    case EBX => 1
    case ECX => 2
    case EDX => 3
  }

  /** The four registers one invocation produces. */
  datatype Regs = Regs(eax: u32, ebx: u32, ecx: u32, edx: u32)
  {
    function Get(r: Reg): u32 {
      match r
      case EAX => eax
      case EBX => ebx
      case ECX => ecx
      case EDX => edx
    }

    /** The validity heuristic of the engine: an all-zero answer means "unsupported". */
    predicate AllZero() {
      eax == 0 && ebx == 0 && ecx == 0 && edx == 0
    }
  }

  const Zero := Regs(0, 0, 0, 0)

  /** The machine: the answer of the identification instruction for (leaf, sub-leaf). */
  type Cpu = (u32, u32) -> Regs

  const Basic: u32 := 0x0
  const Ext: u32 := 0x8000_0000
  const SubLeafUnspec: u32 := 0
  /** Sentinel marking an empty or invalidated cache: `(unsigned) -1`. */
  const Invalid: u32 := 0xFFFF_FFFF

  /**
   * `Ext & leaf`: the leaf whose EAX answer is the highest leaf of `leaf`'s range,
   * so leaf 0 for basic leaves and 0x8000_0000 for extended ones.
   */
  function ProbeLeaf(leaf: u32): (base: u32)
    ensures base == Basic || base == Ext
    ensures base <= leaf
    ensures leaf < Ext <==> base == Basic
  {
    if leaf >= Ext then Ext else Basic
  }

  /** The engine's validity test `eax | ebx | ecx | edx`, read as a truth value. */
  function AnyNonZero(eax: u32, ebx: u32, ecx: u32, edx: u32): (r: bool)
    ensures r <==> !Regs(eax, ebx, ecx, edx).AllZero()
    ensures r <==> (eax as bv32 | ebx as bv32 | ecx as bv32 | edx as bv32) != 0
  {
    eax != 0 || ebx != 0 || ecx != 0 || edx != 0
  }

  /** On 32-bit vectors, masking with 0x8000_0000 keeps exactly the range bit, as ProbeLeaf does. */
  lemma ProbeMaskIsRangeBit(leaf: bv32)
    ensures leaf & 0x8000_0000 == (if leaf >= 0x8000_0000 then 0x8000_0000 else 0)
  {
  }

  /** On 32-bit vectors, the OR of four registers is zero exactly when all four are, as AnyNonZero says. */
  lemma OrIsZeroIffAllZero(eax: bv32, ebx: bv32, ecx: bv32, edx: bv32)
    ensures (eax | ebx | ecx | edx) == 0 <==> eax == 0 && ebx == 0 && ecx == 0 && edx == 0
  {
  }

  /** A probe leaf is its own probe leaf: probing leaf 0 or 0x8000_0000 probes itself. */
  lemma ProbeLeafIdempotent(leaf: u32)
    ensures ProbeLeaf(ProbeLeaf(leaf)) == ProbeLeaf(leaf)
  {
  }
}
