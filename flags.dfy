/**
 * The link-flag bitset of a link rule (`link_flags`), an unsigned 32-bit
 * integer on the native side. Each named property of a rule reads or
 * writes one bit of it.
 *
 * The native header that defines the four masks is not part of this
 * model. Their values below are an assumption. The lemmas about writing
 * flags use them only through MasksAreDistinctBits: that they are four
 * distinct single bits.
 */
module LinkFlags {

  /** `LINKFLAG_FAILIFEXISTS`: behind the `link_fail_if_exists` property. */
  const FAIL_IF_EXISTS: bv32 := 0x1
  /** `LINKFLAG_MONITORCHANGES`: behind the `monitor_changes` property of directory rules. */
  const MONITOR_CHANGES: bv32 := 0x2
  /** `LINKFLAG_CREATETARGET`: behind the `redirect_create` property. */
  const CREATE_TARGET: bv32 := 0x4
  /** `LINKFLAG_RECURSIVE`: behind the `link_recursively` property of directory rules. */
  const RECURSIVE: bv32 := 0x8

  /** The four masks a flag property is built on. */
  predicate IsFlag(m: bv32) {
    m == FAIL_IF_EXISTS || m == MONITOR_CHANGES || m == CREATE_TARGET || m == RECURSIVE
  }

  /** The masks whose properties only directory rules have. */
  predicate DirectoryOnly(m: bv32) {
    m == MONITOR_CHANGES || m == RECURSIVE
  }

  /** `m` has exactly one bit set. */
  predicate SingleBit(m: bv32) {
    m != 0 && m & (m - 1) == 0
  }

  /**
   * The stated assumption: every mask is a single bit and no two masks
   * share one. This is the only place the masks' values are used.
   */
  lemma MasksAreDistinctBits(m: bv32, n: bv32)
    requires IsFlag(m) && IsFlag(n)
    ensures SingleBit(m)
    ensures m != n ==> m & n == 0
  {
  }

  /** Against a single bit, a bitset has either none of it or all of it. */
  lemma SingleBitTest(flags: bv32, m: bv32)
    requires SingleBit(m)
    ensures flags & m == 0 || flags & m == m
  {
  }

  /**
   * The getter of a flag property, `(link_flags & MASK) != 0`: for a flag
   * mask it holds exactly when the mask's bit is present in the bitset.
   */
  function IsSet(flags: bv32, m: bv32): (r: bool)
    ensures IsFlag(m) ==> (r <==> flags & m == m)
  {
    if IsFlag(m) then
      MasksAreDistinctBits(m, m);
      SingleBitTest(flags, m);
      flags & m != 0
    else
      flags & m != 0
  }

  /**
   * The bitset after the flag `m` is written with `value`: the bit of `m`
   * is cleared, then set when `value` holds; every other bit is kept.
   */
  function Assign(flags: bv32, m: bv32, value: bool): (r: bv32)
    requires IsFlag(m)
    ensures IsSet(r, m) == value
    ensures r & !m == flags & !m
  {
    MasksAreDistinctBits(m, m);
    AssignReadsBack(flags, m, value);
    AssignKeepsOtherBits(flags, m, value);
    Write(flags, m, value)
  }

  /** The bit-level definition behind Assign. */
  function Write(flags: bv32, m: bv32, value: bool): bv32 {
    (flags & !m) | (if value then m else 0)
  }

  /** After a write of a single bit, the bit reads back as the value written. */
  lemma AssignReadsBack(flags: bv32, m: bv32, value: bool)
    requires SingleBit(m)
    ensures Write(flags, m, value) & m != 0 <==> value
  {
  }

  /** A write leaves every bit outside the mask as it was. */
  lemma AssignKeepsOtherBits(flags: bv32, m: bv32, value: bool)
    ensures Write(flags, m, value) & !m == flags & !m
  {
  }

  /** Writing one flag does not change what any other flag reads. */
  lemma AssignKeepsOtherFlags(flags: bv32, m: bv32, n: bv32, value: bool)
    requires IsFlag(m) && IsFlag(n) && m != n
    ensures IsSet(Assign(flags, m, value), n) == IsSet(flags, n)
  {
    MasksAreDistinctBits(m, n);
    DisjointWriteKeeps(flags, m, n, value);
  }

  /** A write of `m` does not touch the bits of a mask disjoint from it. */
  lemma DisjointWriteKeeps(flags: bv32, m: bv32, n: bv32, value: bool)
    requires m & n == 0
    ensures Write(flags, m, value) & n == flags & n
  {
  }

  /** Writing a flag its current value gives back the same bitset, bit for bit. */
  lemma AssignCurrentValue(flags: bv32, m: bv32)
    requires IsFlag(m)
    ensures Assign(flags, m, IsSet(flags, m)) == flags
  {
    MasksAreDistinctBits(m, m);
    SingleBitTest(flags, m);
    if flags & m == 0 {
      ClearAbsentBit(flags, m);
    } else {
      SetPresentBit(flags, m);
    }
  }

  /** Clearing a bit that is absent changes nothing. */
  lemma ClearAbsentBit(flags: bv32, m: bv32)
    requires flags & m == 0
    ensures Write(flags, m, false) == flags
  {
  }

  /** Setting a bit that is present changes nothing. */
  lemma SetPresentBit(flags: bv32, m: bv32)
    requires flags & m == m
    ensures Write(flags, m, true) == flags
  {
  }

  /** The setter's `link_flags |= MASK` is the write of true. */
  lemma OrIsAssignTrue(flags: bv32, m: bv32)
    requires IsFlag(m)
    ensures flags | m == Assign(flags, m, true)
  {
  }

  /** The setter's `link_flags &= ~MASK` is the write of false. */
  lemma AndNotIsAssignFalse(flags: bv32, m: bv32)
    requires IsFlag(m)
    ensures flags & !m == Assign(flags, m, false)
  {
  }

  /**
   * The flags of a new directory rule: the constructor sets
   * `link_recursively` on the empty bitset, giving the recursive mask
   * exactly, so no other flag is set.
   */
  lemma DirectoryDefaults(n: bv32)
    requires IsFlag(n)
    ensures Assign(0, RECURSIVE, true) == RECURSIVE
    ensures IsSet(RECURSIVE, n) <==> n == RECURSIVE
  {
    MasksAreDistinctBits(RECURSIVE, n);
    OrIsAssignTrue(0, RECURSIVE);
  }

  /** A new file rule has the empty bitset: no flag reads as set. */
  lemma FileDefaults(n: bv32)
    requires IsFlag(n)
    ensures !IsSet(0, n)
  {
  }
}
