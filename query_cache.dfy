/**
 * The one-entry cache (struct cpuid_s), the invoker that fills it (cpuid_exec)
 * and the leaf-bounded register reader that consults it (cpuid_reg_read).
 */
module QueryCache {
  import opened Instruction

  /** One issue of the identification instruction, as recorded in the ghost log. */
  datatype Query = Query(leaf: u32, subLeaf: u32)

  /**
   * The highest-leaf probe for `leaf`'s range succeeds: its answer is not all-zero
   * and its EAX, the highest leaf of the range, is at least `leaf`.
   */
  predicate InRange(hw: Cpu, leaf: u32) {
    var max := hw(ProbeLeaf(leaf), 0);
    !max.AllZero() && max.eax >= leaf
  }

  /** `leaf` is in range and the invocation of `(leaf, subLeaf)` itself is not all-zero. */
  predicate Supported(hw: Cpu, leaf: u32, subLeaf: u32) {
    InRange(hw, leaf) && !hw(leaf, subLeaf).AllZero()
  }

  /** What a register read from a cold cache yields: the register if supported, otherwise 0. */
  function ReadSpec(hw: Cpu, leaf: u32, subLeaf: u32, id: Reg): u32 {
    if Supported(hw, leaf, subLeaf) then hw(leaf, subLeaf).Get(id) else 0
  }

  /** The instructions a read that misses the cache issues, in order. */
  function Invocations(hw: Cpu, leaf: u32, subLeaf: u32): (q: seq<Query>)
    ensures 1 <= |q| <= 2 && q[0] == Query(ProbeLeaf(leaf), 0)
    ensures |q| == 2 <==> InRange(hw, leaf)
    ensures |q| == 2 ==> q[1] == Query(leaf, subLeaf)
  {
    [Query(ProbeLeaf(leaf), 0)] + if InRange(hw, leaf) then [Query(leaf, subLeaf)] else []
  }

  /** The sentinel pair of an empty or invalidated cache. */
  predicate IsSentinel(leaf: u32, subLeaf: u32) {
    leaf == Invalid && subLeaf == Invalid
  }

  /** The pair a max-leaf probe issues: leaf 0 or 0x8000_0000, sub-leaf 0. */
  predicate IsRangeBase(leaf: u32, subLeaf: u32) {
    ProbeLeaf(leaf) == leaf && subLeaf == 0
  }

  /**
   * Requests on which a cache hit answers as a cold read would. The two left out
   * are the sentinel pair itself and the extended range base, which a probe can
   * leave in the cache without its own max-leaf check having passed.
   */
  predicate Regular(leaf: u32, subLeaf: u32) {
    !IsSentinel(leaf, subLeaf) && !(leaf == Ext && subLeaf == 0)
  }

  /**
   * The cache invariant: either the sentinel with zero registers, or the registers
   * are the machine's non-zero answer for the recorded pair.
   */
  predicate Coherent(hw: Cpu, leaf: u32, subLeaf: u32, regs: Regs) {
    (IsSentinel(leaf, subLeaf) && regs == Zero) || (regs == hw(leaf, subLeaf) && !regs.AllZero())
  }

  /** How a pair got into the cache: as the sentinel, a probe, or a target that passed the probe. */
  predicate Vetted(hw: Cpu, leaf: u32, subLeaf: u32) {
    IsSentinel(leaf, subLeaf) || IsRangeBase(leaf, subLeaf) || Supported(hw, leaf, subLeaf)
  }

  /** A hit on a regular request returns exactly what a cold read would. */
  lemma HitAgrees(hw: Cpu, leaf: u32, subLeaf: u32, regs: Regs, id: Reg)
    requires Coherent(hw, leaf, subLeaf, regs) && Vetted(hw, leaf, subLeaf)
    requires Regular(leaf, subLeaf)
    ensures regs.Get(id) == ReadSpec(hw, leaf, subLeaf, id)
  {
  }

  /** A read that is not supported yields 0 in every register (the three failure paths). */
  lemma UnsupportedReadsZero(hw: Cpu, leaf: u32, subLeaf: u32, id: Reg)
    requires hw(ProbeLeaf(leaf), 0).AllZero() || hw(ProbeLeaf(leaf), 0).eax < leaf || hw(leaf, subLeaf).AllZero()
    ensures ReadSpec(hw, leaf, subLeaf, id) == 0
  {
  }

  class Cache {
    var leaf: u32
    var subLeaf: u32
    const reg: array<u32>
    /** Every instruction issued through this cache, oldest first. */
    ghost var log: seq<Query>

    /** The registers held in `reg[4]`. */
    ghost function Cached(): Regs
      reads reg
      requires reg.Length == 4
    {
      Regs(reg[0], reg[1], reg[2], reg[3])
    }

    ghost predicate Valid(hw: Cpu)
      reads this, reg
    {
      reg.Length == 4 && Coherent(hw, leaf, subLeaf, Cached()) && Vetted(hw, leaf, subLeaf)
    }

    /** The initialiser in cpuid_flags_read: sentinel pair, registers zero. */
    constructor ()
      ensures leaf == Invalid && subLeaf == Invalid
      ensures reg.Length == 4 && Cached() == Zero && fresh(reg)
      ensures log == []
    {
      leaf, subLeaf := Invalid, Invalid;
      reg := new u32[4](_ => 0);
      log := [];
    }

    /**
     * Issue the instruction for (leaf, subLeaf) and store its registers; record the
     * pair and return 0 unless all four registers are zero, in which case the cache
     * is marked invalid with the sentinel and -1 is returned.
     */
    method Exec(hw: Cpu, leaf: u32, subLeaf: u32) returns (ret: int)
      requires reg.Length == 4
      modifies this, reg
      ensures Cached() == hw(leaf, subLeaf)
      ensures log == old(log) + [Query(leaf, subLeaf)]
      ensures ret == 0 || ret == -1
      ensures ret == 0 <==> !hw(leaf, subLeaf).AllZero()
      ensures ret == 0 ==> this.leaf == leaf && this.subLeaf == subLeaf
      ensures ret == -1 ==> IsSentinel(this.leaf, this.subLeaf)
      ensures Coherent(hw, this.leaf, this.subLeaf, Cached())
    {
      ret := -1;
      var out := hw(leaf, subLeaf);
      reg[Index(EAX)] := out.eax;
      reg[Index(EBX)] := out.ebx;
      reg[Index(ECX)] := out.ecx;
      reg[Index(EDX)] := out.edx;
      log := log + [Query(leaf, subLeaf)];
      // an all-zero answer marks the cache invalid
      if AnyNonZero(reg[Index(EAX)], reg[Index(EBX)], reg[Index(ECX)], reg[Index(EDX)]) {
        this.leaf := leaf;
        this.subLeaf := subLeaf;
        ret := 0;
      } else {
        this.leaf := Invalid;
        this.subLeaf := Invalid;
      }
    }

    /**
     * Read register `id` of (leaf, subLeaf): from the cache on a hit; otherwise
     * probe the range's highest leaf first and invoke the target only if it is in range.
     */
    method ReadReg(hw: Cpu, leaf: u32, subLeaf: u32, id: Reg) returns (ret: u32)
      requires Valid(hw)
      modifies this, reg
      ensures Valid(hw)
      ensures old(this.leaf) == leaf && old(this.subLeaf) == subLeaf ==>
        ret == old(Cached()).Get(id) && this.leaf == leaf && this.subLeaf == subLeaf &&
        Cached() == old(Cached()) && log == old(log)
      ensures !(old(this.leaf) == leaf && old(this.subLeaf) == subLeaf) ==>
        ret == ReadSpec(hw, leaf, subLeaf, id) && log == old(log) + Invocations(hw, leaf, subLeaf) &&
        (var last := log[|log| - 1];
         if hw(last.leaf, last.subLeaf).AllZero() then IsSentinel(this.leaf, this.subLeaf) && Cached() == Zero
         else this.leaf == last.leaf && this.subLeaf == last.subLeaf && Cached() == hw(last.leaf, last.subLeaf))
      ensures Supported(hw, leaf, subLeaf) ==> this.leaf == leaf && this.subLeaf == subLeaf
      ensures Regular(leaf, subLeaf) ==> ret == ReadSpec(hw, leaf, subLeaf, id)
    {
      ret := 0;
      if this.leaf == leaf && this.subLeaf == subLeaf {
        ret := reg[Index(id)];
        if Regular(leaf, subLeaf) {
          HitAgrees(hw, leaf, subLeaf, Cached(), id);
        }
      } else {
        // probe the highest leaf of `leaf`'s range first
        var probe := Exec(hw, ProbeLeaf(leaf), 0);
        ghost var max := Cached();
        assert max == hw(ProbeLeaf(leaf), 0) && reg[Index(EAX)] == max.eax;
        if probe == 0 {
          if reg[Index(EAX)] >= leaf {
            assert InRange(hw, leaf);
            var target := Exec(hw, leaf, subLeaf);
            if target == 0 {
              ret := reg[Index(id)];
              assert Supported(hw, leaf, subLeaf) && ret == Cached().Get(id);
            } else {
              assert !Supported(hw, leaf, subLeaf);
            }
          } else {
            assert !InRange(hw, leaf);
            ProbeLeafIdempotent(leaf);
            assert IsRangeBase(this.leaf, this.subLeaf);
          }
        } else {
          assert !InRange(hw, leaf);
        }
      }
    }

    /**
     * Two reads of the same supported pair in a row: the second is answered from
     * the cache, so the pair costs at most one probe and one target invocation.
     */
    method ReadTwice(hw: Cpu, leaf: u32, subLeaf: u32, a: Reg, b: Reg) returns (x: u32, y: u32)
      requires Valid(hw) && Supported(hw, leaf, subLeaf)
      modifies this, reg
      ensures Valid(hw)
      ensures log == old(log) || log == old(log) + Invocations(hw, leaf, subLeaf)
      ensures Regular(leaf, subLeaf) ==>
        x == hw(leaf, subLeaf).Get(a) && y == hw(leaf, subLeaf).Get(b)
    {
      x := ReadReg(hw, leaf, subLeaf, a);
      y := ReadReg(hw, leaf, subLeaf, b);
    }
  }
}
