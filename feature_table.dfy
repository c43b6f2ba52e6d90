/**
 * The static catalogue of known features: for each, the leaf and sub-leaf
 * to query, the result register and the bit position within it.
 */
module FeatureTable {
  import opened Instruction

  /** One descriptor (struct cpuid_attr). */
  datatype Attr = Attr(name: string, bit: nat, reg: Reg, leaf: u32, subLeaf: u32)

  /**
   * The table in source order, in the five groups the source separates by blank
   * lines. Every leaf is written `CPUID_BASIC | 0x01` or `CPUID_BASIC | 0x07` in the
   * source; CPUID_BASIC is 0, so these are 0x01 and 0x07. The entry with a NULL
   * name that terminates the source's array is the end of the sequence.
   */
  const Table: seq<Attr> := Leaf1Edx + Leaf1Ecx + Leaf7Ebx + Leaf7Ecx + Leaf7Edx

  /** Descriptors for leaf 0x01, register EDX. */
  const Leaf1Edx: seq<Attr> := [
      Attr("fpu", 0, EDX, 0x01, SubLeafUnspec),
      Attr("vme", 1, EDX, 0x01, SubLeafUnspec),
      Attr("de", 2, EDX, 0x01, SubLeafUnspec),
      Attr("pse", 3, EDX, 0x01, SubLeafUnspec),
      Attr("tsc", 4, EDX, 0x01, SubLeafUnspec),
      Attr("msr", 5, EDX, 0x01, SubLeafUnspec),
      Attr("pae", 6, EDX, 0x01, SubLeafUnspec),
      Attr("mce", 7, EDX, 0x01, SubLeafUnspec),
      Attr("cx8", 8, EDX, 0x01, SubLeafUnspec),
      Attr("apic", 9, EDX, 0x01, SubLeafUnspec),
      Attr("sep", 11, EDX, 0x01, SubLeafUnspec),
      Attr("mtrr", 12, EDX, 0x01, SubLeafUnspec),
      Attr("pge", 13, EDX, 0x01, SubLeafUnspec),
      Attr("mca", 14, EDX, 0x01, SubLeafUnspec),
      Attr("cmov", 15, EDX, 0x01, SubLeafUnspec),
      Attr("pat", 16, EDX, 0x01, SubLeafUnspec),
      Attr("pse-36", 17, EDX, 0x01, SubLeafUnspec),
      Attr("psn", 18, EDX, 0x01, SubLeafUnspec),
      Attr("clfsh", 19, EDX, 0x01, SubLeafUnspec),
      Attr("ds", 21, EDX, 0x01, SubLeafUnspec),
      Attr("acpi", 22, EDX, 0x01, SubLeafUnspec),
      Attr("mmx", 23, EDX, 0x01, SubLeafUnspec),
      Attr("fxsr", 24, EDX, 0x01, SubLeafUnspec),
      Attr("sse", 25, EDX, 0x01, SubLeafUnspec),
      Attr("sse2", 26, EDX, 0x01, SubLeafUnspec),
      Attr("ss", 27, EDX, 0x01, SubLeafUnspec),
      Attr("htt", 28, EDX, 0x01, SubLeafUnspec),
      Attr("tm", 29, EDX, 0x01, SubLeafUnspec),
      Attr("ia64", 30, EDX, 0x01, SubLeafUnspec),
      Attr("pbe", 31, EDX, 0x01, SubLeafUnspec)
    ]

  /** Descriptors for leaf 0x01, register ECX. */
  const Leaf1Ecx: seq<Attr> := [
      Attr("sse3", 0, ECX, 0x01, SubLeafUnspec),
      Attr("pclmulqdq", 1, ECX, 0x01, SubLeafUnspec),
      Attr("dtes64", 2, ECX, 0x01, SubLeafUnspec),
      Attr("monitor", 3, ECX, 0x01, SubLeafUnspec),
      Attr("ds-cpl", 4, ECX, 0x01, SubLeafUnspec),
      Attr("vmx", 5, ECX, 0x01, SubLeafUnspec),
      Attr("smx", 6, ECX, 0x01, SubLeafUnspec),
      Attr("est", 7, ECX, 0x01, SubLeafUnspec),
      Attr("tm2", 8, ECX, 0x01, SubLeafUnspec),
      Attr("ssse3", 9, ECX, 0x01, SubLeafUnspec),
      Attr("cnxt-id", 10, ECX, 0x01, SubLeafUnspec),
      Attr("sdbg", 11, ECX, 0x01, SubLeafUnspec),
      Attr("fma", 12, ECX, 0x01, SubLeafUnspec),
      Attr("cx16", 13, ECX, 0x01, SubLeafUnspec),
      Attr("xtpr", 14, ECX, 0x01, SubLeafUnspec),
      Attr("pdcm", 15, ECX, 0x01, SubLeafUnspec),
      Attr("pcid", 17, ECX, 0x01, SubLeafUnspec),
      Attr("dca", 18, ECX, 0x01, SubLeafUnspec),
      Attr("sse4.1", 19, ECX, 0x01, SubLeafUnspec),
      Attr("sse4.2", 20, ECX, 0x01, SubLeafUnspec),
      Attr("x2apic", 21, ECX, 0x01, SubLeafUnspec),
      Attr("movbe", 22, ECX, 0x01, SubLeafUnspec),
      Attr("popcnt", 23, ECX, 0x01, SubLeafUnspec),
      Attr("tsc-deadline", 24, ECX, 0x01, SubLeafUnspec),
      Attr("aes", 25, ECX, 0x01, SubLeafUnspec),
      Attr("xsave", 26, ECX, 0x01, SubLeafUnspec),
      Attr("osxsave", 27, ECX, 0x01, SubLeafUnspec),
      Attr("avx", 28, ECX, 0x01, SubLeafUnspec),
      Attr("f16c", 29, ECX, 0x01, SubLeafUnspec),
      Attr("rdrnd", 30, ECX, 0x01, SubLeafUnspec),
      Attr("hypervisor", 31, ECX, 0x01, SubLeafUnspec)
    ]

  /** Descriptors for leaf 0x07, register EBX. */
  const Leaf7Ebx: seq<Attr> := [
      Attr("fsgsbase", 0, EBX, 0x07, SubLeafUnspec),
      Attr("sgx", 2, EBX, 0x07, SubLeafUnspec),
      Attr("bmi1", 3, EBX, 0x07, SubLeafUnspec),
      Attr("hle", 4, EBX, 0x07, SubLeafUnspec),
      Attr("avx2", 5, EBX, 0x07, SubLeafUnspec),
      Attr("smep", 7, EBX, 0x07, SubLeafUnspec),
      Attr("bmi2", 8, EBX, 0x07, SubLeafUnspec),
      Attr("erms", 9, EBX, 0x07, SubLeafUnspec),
      Attr("invpcid", 10, EBX, 0x07, SubLeafUnspec),
      Attr("rtm", 11, EBX, 0x07, SubLeafUnspec),
      Attr("pqm", 12, EBX, 0x07, SubLeafUnspec),
      Attr("mpx", 14, EBX, 0x07, SubLeafUnspec),
      Attr("pq", 15, EBX, 0x07, SubLeafUnspec),
      Attr("avx512f", 16, EBX, 0x07, SubLeafUnspec),
      Attr("avx512dq", 17, EBX, 0x07, SubLeafUnspec),
      Attr("rdseed", 18, EBX, 0x07, SubLeafUnspec),
      Attr("adx", 19, EBX, 0x07, SubLeafUnspec),
      Attr("smap", 20, EBX, 0x07, SubLeafUnspec),
      Attr("avx512ifma", 21, EBX, 0x07, SubLeafUnspec),
      Attr("pcommit", 22, EBX, 0x07, SubLeafUnspec),
      Attr("clfushopt", 23, EBX, 0x07, SubLeafUnspec),
      Attr("clwb", 24, EBX, 0x07, SubLeafUnspec),
      Attr("intel_pt", 25, EBX, 0x07, SubLeafUnspec),
      Attr("avx512pf", 26, EBX, 0x07, SubLeafUnspec),
      Attr("avx512er", 27, EBX, 0x07, SubLeafUnspec),
      Attr("avx512cd", 28, EBX, 0x07, SubLeafUnspec),
      Attr("sha", 29, EBX, 0x07, SubLeafUnspec),
      Attr("avx512bw", 30, EBX, 0x07, SubLeafUnspec),
      Attr("avx512vl", 31, EBX, 0x07, SubLeafUnspec)
    ]

  /** Descriptors for leaf 0x07, register ECX. */
  const Leaf7Ecx: seq<Attr> := [
      Attr("prefetchwt1", 0, ECX, 0x07, SubLeafUnspec),
      Attr("avx512vbmi", 1, ECX, 0x07, SubLeafUnspec),
      Attr("umip", 2, ECX, 0x07, SubLeafUnspec),
      Attr("pku", 3, ECX, 0x07, SubLeafUnspec),
      Attr("ospke", 4, ECX, 0x07, SubLeafUnspec),
      Attr("avx512vpopvntdq", 14, ECX, 0x07, SubLeafUnspec),
      Attr("rdpid", 22, ECX, 0x07, SubLeafUnspec),
      Attr("sgx_lc", 30, ECX, 0x07, SubLeafUnspec)
    ]

  /** Descriptors for leaf 0x07, register EDX. */
  const Leaf7Edx: seq<Attr> := [
      Attr("avx512_4vnniw", 2, EDX, 0x07, SubLeafUnspec),
      Attr("avx512_4fmaps", 3, EDX, 0x07, SubLeafUnspec)
    ]

  /** What every descriptor satisfies: a bit inside a 32-bit register, a basic leaf 1 or 7, sub-leaf 0. */
  predicate WellFormed(a: Attr) {
    a.bit < 32 && a.subLeaf == SubLeafUnspec && (a.leaf == 0x01 || a.leaf == 0x07)
  }

  lemma Leaf1EdxWellFormed()
    ensures forall i :: 0 <= i < |Leaf1Edx| ==> WellFormed(Leaf1Edx[i])
  {
  }

  lemma Leaf1EcxWellFormed()
    ensures forall i :: 0 <= i < |Leaf1Ecx| ==> WellFormed(Leaf1Ecx[i])
  {
  }

  lemma Leaf7EbxWellFormed()
    ensures forall i :: 0 <= i < |Leaf7Ebx| ==> WellFormed(Leaf7Ebx[i])
  {
  }

  lemma Leaf7EcxWellFormed()
    ensures forall i :: 0 <= i < |Leaf7Ecx| ==> WellFormed(Leaf7Ecx[i])
  {
  }

  lemma Leaf7EdxWellFormed()
    ensures forall i :: 0 <= i < |Leaf7Edx| ==> WellFormed(Leaf7Edx[i])
  {
  }

  lemma TableWellFormed()
    ensures |Table| == 100
    ensures forall i :: 0 <= i < |Table| ==> WellFormed(Table[i])
  {
    Leaf1EdxWellFormed();
    Leaf1EcxWellFormed();
    Leaf7EbxWellFormed();
    Leaf7EcxWellFormed();
    Leaf7EdxWellFormed();
    forall i | 0 <= i < |Table|
      ensures WellFormed(Table[i])
    {
      var a := |Leaf1Edx|;
      var b := a + |Leaf1Ecx|;
      var c := b + |Leaf7Ebx|;
      var d := c + |Leaf7Ecx|;
      if i < a {
        assert Table[i] == Leaf1Edx[i];
      } else if i < b {
        assert Table[i] == Leaf1Ecx[i - a];
      } else if i < c {
        assert Table[i] == Leaf7Ebx[i - b];
      } else if i < d {
        assert Table[i] == Leaf7Ecx[i - c];
      } else {
        assert Table[i] == Leaf7Edx[i - d];
      }
    }
  }

  /**
   * No descriptor's leaf or sub-leaf is the sentinel, so a freshly initialised cache
   * always misses on the first lookup; and every descriptor lies in the basic range,
   * so the max-leaf probe for any of them is leaf 0.
   */
  lemma TableAvoidsSentinel(i: nat)
    requires i < |Table|
    ensures Table[i].leaf != Invalid && Table[i].subLeaf != Invalid
    ensures ProbeLeaf(Table[i].leaf) == Basic
  {
    TableWellFormed();
  }
}
