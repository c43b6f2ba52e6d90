# cpuid feature detection, modelled in Dafny

This project models the feature-detection engine of `cpuid.c`. The engine has
four parts:

- **The descriptor table** `cpuid_attr`. It holds 100 named features. Each one
  gives a bit position, a result register, a leaf and a sub-leaf.
- **The invoker** `cpuid_exec`. It issues the identification instruction for a
  (leaf, sub-leaf) pair and stores the four result registers in a one-entry
  cache (`struct cpuid_s`). An answer whose registers are all zero counts as
  "unsupported": the cache is then marked with the sentinel pair
  `0xFFFFFFFF / 0xFFFFFFFF`.
- **The register reader** `cpuid_reg_read`. On a hit it answers from the cache.
  On a miss it first probes the highest leaf of the requested leaf's range
  (leaf 0 or `0x80000000`, sub-leaf 0). It invokes the target only when the
  target is in range, and it returns 0 on any failure.
- **The query by name list** `cpuid_flags_read`. For each name `n` (at most 32),
  it scans the table for entries of that name. It sets bit `n` of the result when
  the entry's bit is set in its register. All reads go through one cache, and
  that cache lives for the whole call.

Modules, one per file:

- `Instruction` (`instruction.dfy`) holds:
  - the register names and the four-register answer;
  - the machine, which is a parameter `hw: Cpu`, a total deterministic function
    from (leaf, sub-leaf) to four registers;
  - the leaf constants and sentinel;
  - the two bitwise tests the invoker and the reader apply.
- `FeatureTable` (`feature_table.dfy`) holds the table in source order, in the
  five groups the source separates with blank lines, and the facts every entry
  satisfies.
- `QueryCache` (`query_cache.dfy`) holds the cache as a class, `Cache`. Its
  fields are `leaf`, `subLeaf`, a length-4 `reg` array, and a ghost `log` of
  every invocation issued through it. `Exec` and `ReadReg` are its methods.
  `Valid(hw)` is the cache invariant that `ReadReg` preserves:
  - either the cache holds the sentinel with zero registers, or it holds the
    machine's non-zero answer for the recorded pair;
  - the recorded pair got there as the sentinel, as a max-leaf probe, or as a
    target that passed its probe.

  The specification of a read is `ReadSpec`, which gives what a read from a cold
  cache returns.
- `Bits` (`bits.dfy`) covers single bits of unsigned values:
  - testing a bit (`x & 1u << m`);
  - setting a bit (`x | 1u << n`);
  - packing a sequence of truth values into a word, bit n for value n.
- `FlagQuery` (`flags.dfy`) holds the query. `FlagsSpec` is the reference result:
  it packs whether each name is `Detected`. A name is detected when some table
  entry of that name has its bit set in what a cold read of its register returns.
  `ScanTable` is one pass of the inner loop over the table. `FlagsRead` is the
  whole call, proved equal to `FlagsSpec`.

Leaves, sub-leaves and register values are C `unsigned` values. They are modelled
as integers in [0, 2^32), the newtype `u32`. The source applies four bitwise
operations, and each is written as what it amounts to:

| source operation | modelled as | justified by |
|---|---|---|
| `CPUID_EXT & leaf` | `ProbeLeaf`: a comparison with `0x80000000` | `ProbeMaskIsRangeBit` (32-bit vectors) |
| `eax \| ebx \| ecx \| edx`, as a truth value | `AnyNonZero` | `OrIsZeroIffAllZero` (32-bit vectors) |
| `reg & (1u << bit)` | `BitAt`, by halving | `AndLowBit` and `AndHigherBit` (32-bit vectors) |
| `bits \|= 1u << n` | `SetBit`, by halving | `OrLowBit` and `OrHigherBit` (32-bit vectors) |

The bitvector lemmas show that the 32-bit operations satisfy the same recursion
that `BitAt` and `SetBit` are defined by: bit 0 is the remainder mod 2, and bit
m + 1 is bit m of the halved value.

On a cache hit, `ReadReg` returns the cached register, issues nothing and changes
nothing. For every request except two, that answer is what a cold read would
return (`HitAgrees`). The two exceptions are:

- **The extended range base (`0x80000000`, 0).** A probe can leave this pair in
  the cache without its own max-leaf check having passed. A later hit then
  returns the probe's raw registers. A cold read would return 0 if that probe's
  EAX is below `0x80000000`.
- **The sentinel pair itself.** On an invalidated cache this pair hits and
  returns 0.

Neither case arises in `cpuid_flags_read`, because every table leaf is the basic
leaf 1 or 7. The contract of `ReadReg` states the hit behaviour for every request
and the cold-read agreement only for the others (`Regular`).

`cpuid.h:25-26` also declares a bitmask-keyed `cpuid_flags_read(unsigned)` and
`cpuid_name`. Neither is defined, so only the name-list query is modelled.

## Model

| member | source | states |
|---|---|---|
| Instruction.Index | cpuid.c:35-42 | Each register names one of the four slots of `reg[4]`, and EAX is slot 0. |
| Instruction.AnyNonZero | cpuid.c:801-805 | The validity test is the truth value of the 32-bit OR `eax \| ebx \| ecx \| edx`, and it holds exactly when the four registers are not all zero. |
| Instruction.OrIsZeroIffAllZero | cpuid.c:801-805 | On 32-bit values, the OR of the four registers is zero exactly when each of them is zero. |
| Instruction.ProbeMaskIsRangeBit | cpuid.c:830-831 | On 32-bit values, `0x80000000 & leaf` is `0x80000000` for an extended leaf and 0 for a basic one, which is what `ProbeLeaf` returns. |
| Instruction.ProbeLeaf | cpuid.c:831 | `CPUID_EXT & leaf` is the base of `leaf`'s range: 0 for a basic leaf and `0x80000000` for an extended one. It is never above `leaf`. |
| Instruction.ProbeLeafIdempotent | cpuid.c:830-831 | Probing the highest leaf of a range issues that range base itself. |
| FeatureTable.TableWellFormed | cpuid.c:71-783 | The table has 100 entries. Each has a bit below 32, sub-leaf 0 and leaf 0x01 or 0x07, so `1u << bit` is defined. |
| FeatureTable.TableAvoidsSentinel | cpuid.c:71-783 | No entry's leaf or sub-leaf is the sentinel, so a freshly initialised cache misses on its first lookup. Every entry's max-leaf probe is leaf 0. |
| QueryCache.Invocations | cpuid.c:829-838 | A miss issues the probe `(leaf & 0x80000000, 0)` first. It issues the target second, and only when the probe's answer is non-zero with EAX at least `leaf`. |
| QueryCache.HitAgrees | cpuid.c:827-828 | A hit on any request other than the sentinel pair or the extended range base returns what a cold read returns. |
| QueryCache.UnsupportedReadsZero | cpuid.c:825-840 | A read returns 0 when the probe is all-zero, when the probe's EAX is below `leaf`, or when the target is all-zero. |
| QueryCache.Cache.constructor | cpuid.c:850-853 | The cache starts with the sentinel pair, zero registers and an empty log. |
| QueryCache.Cache.Exec | cpuid.c:785-814 | It stores the machine's four registers and logs one invocation. It returns 0 and records the pair exactly when some register is non-zero. Otherwise it returns -1 and records the sentinel pair. Either way the cache is coherent. |
| QueryCache.Cache.ReadReg | cpuid.c:819-841 | The cache invariant is preserved. A hit returns the cached register and leaves registers, pair and log unchanged. A miss logs exactly the probe and then, if in range, the target, and returns the cold-read value. After a miss the cache holds the last invoked pair with its registers when that answer was non-zero, and the sentinel with zero registers otherwise. A supported request is left in the cache. A regular request always returns the cold-read value. |
| QueryCache.Cache.ReadTwice | cpuid.c:827-835 | Two reads of the same supported pair in a row issue at most one probe and one target invocation: the second read hits. A regular pair yields the machine's registers both times. |
| Bits.BitAt | cpuid.c:866 | Bit m of a value, the truth value of `reg & (1u << m)`. A value with bit m set is at least 2^m. |
| Bits.SetBit | cpuid.c:867 | Setting bit n makes bit n set and never decreases the value. |
| Bits.SetBitKeeps | cpuid.c:867 | Setting bit n leaves every other bit as it was. |
| Bits.SetBitTwice | cpuid.c:867 | Setting the same bit again changes nothing. |
| Bits.SetBitBelow | cpuid.c:867 | Setting a bit below position w keeps a value below 2^w, so the result stays an `unsigned`. |
| Bits.NoBitAbove | cpuid.c:866-867 | A value below 2^w has no bit at position w or above. |
| Bits.Pack | cpuid.c:849-867 | A word packed from k truth values is below 2^k. |
| Bits.PackBits | cpuid.c:849-867 | Bit m of a packed word is set exactly when m is a position of the sequence and its value is true. |
| Bits.PackNone | cpuid.c:849-867 | With no value true, the packed word is 0. |
| Bits.AndLowBit | cpuid.c:866 | On 32-bit values, `x & 1u << 0` is non-zero exactly when x is odd. |
| Bits.AndHigherBit | cpuid.c:866 | On 32-bit values, bit m + 1 of x is bit m of x / 2. |
| Bits.OrLowBit | cpuid.c:867 | On 32-bit values, setting bit 0 with an OR adds 1 to an even x and leaves an odd x unchanged. |
| Bits.OrHigherBit | cpuid.c:867 | On 32-bit values, setting bit m + 1 of x sets bit m of x / 2 and then doubles it, keeping the low bit. |
| FlagQuery.Detections | cpuid.c:855-868 | There is one truth value per requested name, in order: whether that name is detected. |
| FlagQuery.FlagsSpec | cpuid.c:846-871 | The reference result for a list of names has no bit at or above the list's length. |
| FlagQuery.FlagsSpecStep | cpuid.c:855-868 | Handling one more name sets that name's bit if the name is detected and leaves the result otherwise unchanged. |
| FlagQuery.FlagsSpecBits | cpuid.c:846-871 | Bit m of the reference result is set exactly when m is a position of the list and that name is detected. |
| FlagQuery.UnknownNameNotReported | cpuid.c:856-860 | On any machine, a name that no table entry carries leaves its bit at 0. |
| FlagQuery.NothingWithoutBasicRange | cpuid.c:831-838 | If the basic max-leaf probe is all-zero, the result is 0. |
| FlagQuery.ScanTable | cpuid.c:856-868 | One pass over the table sets bit n exactly when the name is detected and leaves the result otherwise unchanged. The cache invariant is kept. |
| FlagQuery.FlagsRead | cpuid.c:846-871 | The result equals the reference result. Bit m, for m a position of the list, is set exactly when name m is detected. No bit at or above the list's length is set. |

## Left out

- The `cpuid` instruction itself (inline assembly) becomes the parameter `hw`: a deterministic function of leaf and sub-leaf. Whatever a real processor answers is whatever `hw` returns.
- `main.c` is the demonstration program, which prints "enabled" or "disabled" per name. It is I/O only and is not part of this model.
- `cpuid_flags_read(unsigned)` and `cpuid_name` are declared in `cpuid.h:25-26` but defined nowhere, and the first conflicts with the definition at `cpuid.c:847`. Neither is modelled. The `CPUID_BIT_*`/`CPUID_FLAGS_*` constants of `cpuid.h` are plain data.
- `strcmp` is modelled as string equality; its byte-level internals are not modelled.
- FlagQuery.FlagsRead: requires at most 32 names. With more, `1u << n` shifts by 32 or more, which C leaves undefined.
- FlagQuery.FlagsRead: the NULL-terminated name array is a sequence, and the NULL entry that terminates the table is the end of `Table`.
- FlagQuery.ScanTable: the inner loop of `cpuid_flags_read` is a method of its own here. In the source it sits inline in the outer loop.
- QueryCache.Cache.ReadReg: its agreement with a cold read is stated only for `Regular` requests. The two exceptions are described above.
- Concurrency is not modelled: the cache is a local of `cpuid_flags_read`, so no two calls share it.
