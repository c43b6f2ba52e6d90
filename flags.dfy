/**
 * The query by name list (cpuid_flags_read): bit n of the result says whether
 * the n-th requested feature is present.
 */
module FlagQuery {
  import opened Instruction
  import opened FeatureTable
  import opened QueryCache
  import opened Bits

  /** Table entry i carries `name` and its bit is set in what a cold read of its register yields. */
  predicate Matches(hw: Cpu, name: string, i: int) {
    0 <= i < |Table| && Table[i].name == name &&
    BitAt(ReadSpec(hw, Table[i].leaf, Table[i].subLeaf, Table[i].reg) as nat, Table[i].bit)
  }

  /** Some entry before position k of the table matches `name`. */
  predicate MatchedBefore(hw: Cpu, name: string, k: int) {
    exists i :: 0 <= i < k && Matches(hw, name, i)
  }

  /** The feature called `name` is present on `hw`: some table entry of that name has its bit set. */
  predicate Detected(hw: Cpu, name: string) {
    MatchedBefore(hw, name, |Table|)
  }

  /** For each requested name, in order, whether it is detected. */
  function Detections(hw: Cpu, names: seq<string>): (d: seq<bool>)
    ensures |d| == |names|
    ensures forall m :: 0 <= m < |names| ==> d[m] == Detected(hw, names[m])
  {
    seq(|names|, m requires 0 <= m < |names| => Detected(hw, names[m]))
  }

  /** The result for a name list: bit n set when name n is detected. */
  function FlagsSpec(hw: Cpu, names: seq<string>): (r: nat)
    requires |names| <= 32
    ensures r < Pow2(|names|)
  {
    Pack(Detections(hw, names))
  }

  /** Adding a name to the list adds its bit, when detected, and changes nothing else. */
  lemma FlagsSpecStep(hw: Cpu, names: seq<string>, n: nat)
    requires n < |names| <= 32
    ensures FlagsSpec(hw, names[..n + 1]) ==
      if Detected(hw, names[n]) then SetBit(FlagsSpec(hw, names[..n]), n) else FlagsSpec(hw, names[..n])
  {
    assert Detections(hw, names[..n + 1])[..n] == Detections(hw, names[..n]);
  }

  lemma MatchedBeforeStep(hw: Cpu, name: string, k: nat)
    ensures MatchedBefore(hw, name, k + 1) <==> MatchedBefore(hw, name, k) || Matches(hw, name, k)
  {
  }

  /** Bit m of the reference result is set exactly when name m exists and is detected. */
  lemma FlagsSpecBits(hw: Cpu, names: seq<string>, m: nat)
    requires |names| <= 32
    ensures BitAt(FlagsSpec(hw, names), m) <==> m < |names| && Detected(hw, names[m])
  {
    PackBits(Detections(hw, names), m);
  }

  /** A name that no table entry carries is never reported, whatever the machine. */
  lemma UnknownNameNotReported(hw: Cpu, names: seq<string>, m: nat)
    requires |names| <= 32 && m < |names|
    requires forall i :: 0 <= i < |Table| ==> Table[i].name != names[m]
    ensures !BitAt(FlagsSpec(hw, names), m)
  {
    FlagsSpecBits(hw, names, m);
  }

  /**
   * When the basic max-leaf probe comes back all-zero, no feature is reported:
   * every table entry lies in the basic range, so every read of its register fails.
   */
  lemma NothingWithoutBasicRange(hw: Cpu, names: seq<string>)
    requires |names| <= 32
    requires hw(Basic, 0).AllZero()
    ensures FlagsSpec(hw, names) == 0
  {
    forall i | 0 <= i < |Table|
      ensures ReadSpec(hw, Table[i].leaf, Table[i].subLeaf, Table[i].reg) == 0
    {
      TableAvoidsSentinel(i);
    }
    forall m | 0 <= m < |names|
      ensures !Detected(hw, names[m])
    {
      forall i | 0 <= i < |Table|
        ensures !Matches(hw, names[m], i)
      {
        NoBitInZero(Table[i].bit);
      }
    }
    PackNone(Detections(hw, names));
  }

  /**
   * One pass of the inner loop of the query: walk the whole table and, for every
   * entry called `name` whose bit is set in its register (read through `cpuid`),
   * set bit n of the result.
   */
  method ScanTable(cpuid: Cache, hw: Cpu, name: string, n: nat, bits: u32) returns (r: u32)
    requires n < 32 && cpuid.Valid(hw)
    modifies cpuid, cpuid.reg
    ensures cpuid.Valid(hw)
    ensures r as int == if Detected(hw, name) then SetBit(bits as nat, n) else bits as int
  {
    Pow2Word();
    r := bits;
    ghost var found := false;
    var i := 0;
    while i < |Table|
      invariant 0 <= i <= |Table|
      invariant cpuid.Valid(hw)
      invariant found == MatchedBefore(hw, name, i)
      invariant r as int == if found then SetBit(bits as nat, n) else bits as int
    {
      MatchedBeforeStep(hw, name, i);
      TableAvoidsSentinel(i);
      if name == Table[i].name {
        var reg := cpuid.ReadReg(hw, Table[i].leaf, Table[i].subLeaf, Table[i].reg);
        if BitAt(reg as nat, Table[i].bit) {
          if found {
            SetBitTwice(bits as nat, n);
          }
          SetBitBelow(r as nat, n, 32);
          r := SetBit(r as nat, n) as u32;
          found := true;
        }
      }
      i := i + 1;
    }
  }

  /**
   * The query: for each name (at most 32), scan the table and set bit n of the
   * result when the feature is present, all reads going through one cache that
   * lives for the whole call.
   */
  method FlagsRead(hw: Cpu, names: seq<string>) returns (bits: u32)
    requires |names| <= 32
    ensures bits as int == FlagsSpec(hw, names)
    ensures forall m :: 0 <= m < |names| ==> (BitAt(bits as nat, m) <==> Detected(hw, names[m]))
    ensures bits as int < Pow2(|names|)
  {
    bits := 0;
    var cpuid := new Cache();
    var n := 0;
    while n < |names|
      invariant 0 <= n <= |names|
      invariant fresh(cpuid) && fresh(cpuid.reg) && cpuid.Valid(hw)
      invariant bits as int == FlagsSpec(hw, names[..n])
    {
      bits := ScanTable(cpuid, hw, names[n], n, bits);
      FlagsSpecStep(hw, names, n);
      n := n + 1;
    }
    assert names[..n] == names;
    forall m | 0 <= m < |names|
      ensures BitAt(bits as nat, m) <==> Detected(hw, names[m])
    {
      FlagsSpecBits(hw, names, m);
    }
  }
}
