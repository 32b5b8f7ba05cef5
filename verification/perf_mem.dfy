/**
 * The bit layout of the Linux `union perf_mem_data_src` (linux/perf_event.h).
 * One 64-bit word is split into fixed sub-fields; this module reads and writes
 * them with explicit shifts and masks instead of overlaying the C bitfield
 * struct, and names the constant patterns the kernel defines for each of them.
 */
module PerfMem {

  /** The sub-fields of the word, from bit 0 upwards. */
  datatype Field =
    | MemOp | MemLvl | MemSnoop | MemLock | MemDtlb | MemLvlNum
    | MemRemote | MemSnoopx | MemBlk | MemHops | MemRsvd

  // Bit offsets of the sub-fields (the kernel's PERF_MEM_*_SHIFT).
  const PERF_MEM_OP_SHIFT: bv64 := 0
  const PERF_MEM_LVL_SHIFT: bv64 := 5
  const PERF_MEM_SNOOP_SHIFT: bv64 := 19
  const PERF_MEM_LOCK_SHIFT: bv64 := 24
  const PERF_MEM_TLB_SHIFT: bv64 := 26
  const PERF_MEM_LVLNUM_SHIFT: bv64 := 33
  const PERF_MEM_REMOTE_SHIFT: bv64 := 37
  const PERF_MEM_SNOOPX_SHIFT: bv64 := 38
  const PERF_MEM_BLK_SHIFT: bv64 := 40
  const PERF_MEM_HOPS_SHIFT: bv64 := 43
  /** The reserved tail has no kernel name for its offset. */
  const MEM_RSVD_SHIFT: bv64 := 46

  // Type of opcode.
  const PERF_MEM_OP_NA: bv64 := 0x01
  const PERF_MEM_OP_LOAD: bv64 := 0x02
  const PERF_MEM_OP_STORE: bv64 := 0x04
  const PERF_MEM_OP_PFETCH: bv64 := 0x08
  const PERF_MEM_OP_EXEC: bv64 := 0x10

  // Memory hierarchy level and hit or miss (the older, deprecated encoding).
  const PERF_MEM_LVL_NA: bv64 := 0x01
  const PERF_MEM_LVL_HIT: bv64 := 0x02
  const PERF_MEM_LVL_MISS: bv64 := 0x04
  const PERF_MEM_LVL_L1: bv64 := 0x08
  const PERF_MEM_LVL_LFB: bv64 := 0x10
  const PERF_MEM_LVL_L2: bv64 := 0x20
  const PERF_MEM_LVL_L3: bv64 := 0x40
  const PERF_MEM_LVL_LOC_RAM: bv64 := 0x80
  const PERF_MEM_LVL_REM_RAM1: bv64 := 0x100
  const PERF_MEM_LVL_REM_RAM2: bv64 := 0x200
  const PERF_MEM_LVL_REM_CCE1: bv64 := 0x400
  const PERF_MEM_LVL_REM_CCE2: bv64 := 0x800
  const PERF_MEM_LVL_IO: bv64 := 0x1000
  const PERF_MEM_LVL_UNC: bv64 := 0x2000

  // Remote flag.
  const PERF_MEM_REMOTE_REMOTE: bv64 := 0x01

  // Memory hierarchy level number (the newer encoding).
  const PERF_MEM_LVLNUM_L1: bv64 := 0x01
  const PERF_MEM_LVLNUM_L2: bv64 := 0x02
  const PERF_MEM_LVLNUM_L3: bv64 := 0x03
  const PERF_MEM_LVLNUM_L4: bv64 := 0x04
  const PERF_MEM_LVLNUM_CXL: bv64 := 0x09
  const PERF_MEM_LVLNUM_IO: bv64 := 0x0a
  const PERF_MEM_LVLNUM_ANY_CACHE: bv64 := 0x0b
  const PERF_MEM_LVLNUM_LFB: bv64 := 0x0c
  const PERF_MEM_LVLNUM_RAM: bv64 := 0x0d
  const PERF_MEM_LVLNUM_PMEM: bv64 := 0x0e
  const PERF_MEM_LVLNUM_NA: bv64 := 0x0f

  // Snoop mode.
  const PERF_MEM_SNOOP_NA: bv64 := 0x01
  const PERF_MEM_SNOOP_NONE: bv64 := 0x02
  const PERF_MEM_SNOOP_HIT: bv64 := 0x04
  const PERF_MEM_SNOOP_MISS: bv64 := 0x08
  const PERF_MEM_SNOOP_HITM: bv64 := 0x10

  // Extended snoop mode.
  const PERF_MEM_SNOOPX_FWD: bv64 := 0x01
  const PERF_MEM_SNOOPX_PEER: bv64 := 0x02

  // Locked instruction.
  const PERF_MEM_LOCK_NA: bv64 := 0x01
  const PERF_MEM_LOCK_LOCKED: bv64 := 0x02

  // TLB access.
  const PERF_MEM_TLB_NA: bv64 := 0x01
  const PERF_MEM_TLB_HIT: bv64 := 0x02
  const PERF_MEM_TLB_MISS: bv64 := 0x04
  const PERF_MEM_TLB_L1: bv64 := 0x08
  const PERF_MEM_TLB_L2: bv64 := 0x10
  const PERF_MEM_TLB_WK: bv64 := 0x20
  const PERF_MEM_TLB_OS: bv64 := 0x40

  // Access blocked.
  const PERF_MEM_BLK_NA: bv64 := 0x01
  const PERF_MEM_BLK_DATA: bv64 := 0x02
  const PERF_MEM_BLK_ADDR: bv64 := 0x04

  // Hop level.
  const PERF_MEM_HOPS_0: bv64 := 0x01
  const PERF_MEM_HOPS_1: bv64 := 0x02
  const PERF_MEM_HOPS_2: bv64 := 0x03
  const PERF_MEM_HOPS_3: bv64 := 0x04

  /** Number of bits of each sub-field. */
  function Width(f: Field): bv64 {
    match f
    case MemOp => 5
    case MemLvl => 14
    case MemSnoop => 5
    case MemLock => 2
    case MemDtlb => 7
    case MemLvlNum => 4
    case MemRemote => 1
    case MemSnoopx => 2
    case MemBlk => 3
    case MemHops => 3
    case MemRsvd => 18
  }

  /** Offset of the lowest bit of each sub-field; every field lies inside the word. */
  function Shift(f: Field): bv64
  {
    match f
    case MemOp => PERF_MEM_OP_SHIFT
    case MemLvl => PERF_MEM_LVL_SHIFT
    case MemSnoop => PERF_MEM_SNOOP_SHIFT
    case MemLock => PERF_MEM_LOCK_SHIFT
    case MemDtlb => PERF_MEM_TLB_SHIFT
    case MemLvlNum => PERF_MEM_LVLNUM_SHIFT
    case MemRemote => PERF_MEM_REMOTE_SHIFT
    case MemSnoopx => PERF_MEM_SNOOPX_SHIFT
    case MemBlk => PERF_MEM_BLK_SHIFT
    case MemHops => PERF_MEM_HOPS_SHIFT
    case MemRsvd => MEM_RSVD_SHIFT
  }

  /** The sub-field directly above `f`, if any. */
  function Next(f: Field): Field
    requires f != MemRsvd
  {
    match f
    case MemOp => MemLvl
    case MemLvl => MemSnoop
    case MemSnoop => MemLock
    case MemLock => MemDtlb
    case MemDtlb => MemLvlNum
    case MemLvlNum => MemRemote
    case MemRemote => MemSnoopx
    case MemSnoopx => MemBlk
    case MemBlk => MemHops
    case MemHops => MemRsvd
  }

  /** The largest value a sub-field holds: its low `Width(f)` bits set. */
  function Mask(f: Field): bv64
  {
    match f
    case MemOp => 0x1f
    case MemLvl => 0x3fff
    case MemSnoop => 0x1f
    case MemLock => 0x3
    case MemDtlb => 0x7f
    case MemLvlNum => 0xf
    case MemRemote => 0x1
    case MemSnoopx => 0x3
    case MemBlk => 0x7
    case MemHops => 0x7
    case MemRsvd => 0x3ffff
  }

  /** Each mask has exactly the field's width: it is 2^Width(f) - 1. */
  lemma MaskMatchesWidth(f: Field)
    ensures Mask(f) == (1 << Width(f)) - 1
  {
  }

  /** The bits of the word that belong to sub-field `f`. */
  function FieldBits(f: Field): bv64 {
    Mask(f) << Shift(f)
  }

  /**
   * The fields follow one another without gaps from bit 0 and end exactly at
   * bit 64, so their bit ranges are pairwise disjoint and cover the word.
   */
  lemma FieldsTileTheWord(f: Field)
    ensures Shift(MemOp) == 0
    ensures f != MemRsvd ==> Shift(Next(f)) == Shift(f) + Width(f)
    ensures Shift(MemRsvd) + Width(MemRsvd) == 64
  {
  }

  /** Together the sub-fields cover every bit of the word. */
  lemma FieldBitsCoverWord()
    ensures FieldBits(MemOp) | FieldBits(MemLvl) | FieldBits(MemSnoop) | FieldBits(MemLock)
          | FieldBits(MemDtlb) | FieldBits(MemLvlNum) | FieldBits(MemRemote) | FieldBits(MemSnoopx)
          | FieldBits(MemBlk) | FieldBits(MemHops) | FieldBits(MemRsvd) == 0xffff_ffff_ffff_ffff
  {
  }
}
