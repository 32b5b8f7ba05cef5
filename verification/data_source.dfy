/**
 * The `DataSource` view of a sampled memory access: a 64-bit
 * `perf_mem_data_src` word and the classification predicates read from it.
 * Every predicate is a pure function of the word: a test of one flag of a
 * sub-field, an equality test of a sub-field against one kernel constant, or a
 * conjunction of other predicates. A level number or hop level that the
 * source does not test for makes every equality test on that sub-field false.
 */
module DataSources {
  import opened PerfMem

  /** An immutable descriptor, constructed from the raw 64-bit word. */
  datatype DataSource = DataSource(raw: bv64)

  // ---------------------------------------------------------------------------
  // Sub-field accessors. Each result fits in its field's width and, moved back
  // to the field's offset, is exactly the part of the word in that bit range.
  // ---------------------------------------------------------------------------

  /** The type of opcode (`mem_op`, bits 0-4). */
  function Op(d: DataSource): (r: bv64)
    ensures r <= Mask(MemOp)
    ensures r << Shift(MemOp) == d.raw & FieldBits(MemOp)
  {
    (d.raw >> PERF_MEM_OP_SHIFT) & 0x1f
  }

  /** The memory hierarchy level and hit or miss (`mem_lvl`, bits 5-18; deprecated by the kernel). */
  function Lvl(d: DataSource): (r: bv64)
    ensures r <= Mask(MemLvl)
    ensures r << Shift(MemLvl) == d.raw & FieldBits(MemLvl)
  {
    (d.raw >> PERF_MEM_LVL_SHIFT) & 0x3fff
  }

  /** The remote flag (`mem_remote`, bit 37). */
  function Remote(d: DataSource): (r: bv64)
    ensures r <= Mask(MemRemote)
    ensures r << Shift(MemRemote) == d.raw & FieldBits(MemRemote)
  {
    (d.raw >> PERF_MEM_REMOTE_SHIFT) & 0x1
  }

  /** The memory hierarchy level number (`mem_lvl_num`, bits 33-36). */
  function LvlNum(d: DataSource): (r: bv64)
    ensures r <= Mask(MemLvlNum)
    ensures r << Shift(MemLvlNum) == d.raw & FieldBits(MemLvlNum)
  {
    (d.raw >> PERF_MEM_LVLNUM_SHIFT) & 0xf
  }

  /** The snoop mode (`mem_snoop`, bits 19-23). */
  function Snoop(d: DataSource): (r: bv64)
    ensures r <= Mask(MemSnoop)
    ensures r << Shift(MemSnoop) == d.raw & FieldBits(MemSnoop)
  {
    (d.raw >> PERF_MEM_SNOOP_SHIFT) & 0x1f
  }

  /** The extended snoop mode (`mem_snoopx`, bits 38-39). */
  function Snoopx(d: DataSource): (r: bv64)
    ensures r <= Mask(MemSnoopx)
    ensures r << Shift(MemSnoopx) == d.raw & FieldBits(MemSnoopx)
  {
    (d.raw >> PERF_MEM_SNOOPX_SHIFT) & 0x3
  }

  /** The lock state (`mem_lock`, bits 24-25). */
  function Lock(d: DataSource): (r: bv64)
    ensures r <= Mask(MemLock)
    ensures r << Shift(MemLock) == d.raw & FieldBits(MemLock)
  {
    (d.raw >> PERF_MEM_LOCK_SHIFT) & 0x3
  }

  /** The TLB access (`mem_dtlb`, bits 26-32). */
  function Tlb(d: DataSource): (r: bv64)
    ensures r <= Mask(MemDtlb)
    ensures r << Shift(MemDtlb) == d.raw & FieldBits(MemDtlb)
  {
    (d.raw >> PERF_MEM_TLB_SHIFT) & 0x7f
  }

  /** The access-blocked state (`mem_blk`, bits 40-42). */
  function Blk(d: DataSource): (r: bv64)
    ensures r <= Mask(MemBlk)
    ensures r << Shift(MemBlk) == d.raw & FieldBits(MemBlk)
  {
    (d.raw >> PERF_MEM_BLK_SHIFT) & 0x7
  }

  /** The hop level (`mem_hops`, bits 43-45). */
  function Hops(d: DataSource): (r: bv64)
    ensures r <= Mask(MemHops)
    ensures r << Shift(MemHops) == d.raw & FieldBits(MemHops)
  {
    (d.raw >> PERF_MEM_HOPS_SHIFT) & 0x7
  }

  /**
   * The reserved tail (`mem_rsvd`, bits 46-63). The C++ class has no accessor
   * for it; it is here so that the struct view of the word is complete.
   */
  function Reserved(d: DataSource): (r: bv64)
    ensures r <= Mask(MemRsvd)
    ensures r << Shift(MemRsvd) == d.raw & FieldBits(MemRsvd)
  {
    (d.raw >> MEM_RSVD_SHIFT) & 0x3ffff
  }

  // ---------------------------------------------------------------------------
  // Classification predicates. Each contract states the predicate directly on
  // the raw word, as the test of the corresponding bits in place.
  // ---------------------------------------------------------------------------

  /** True if the memory operation is a load. */
  function IsLoad(d: DataSource): (r: bool)
    ensures r <==> d.raw & (PERF_MEM_OP_LOAD << PERF_MEM_OP_SHIFT) != 0
  {
    Op(d) & PERF_MEM_OP_LOAD != 0
  }

  /** True if the memory operation is a store. */
  function IsStore(d: DataSource): (r: bool)
    ensures r <==> d.raw & (PERF_MEM_OP_STORE << PERF_MEM_OP_SHIFT) != 0
  {
    Op(d) & PERF_MEM_OP_STORE != 0
  }

  /** True if the memory operation is a prefetch. */
  function IsPrefetch(d: DataSource): (r: bool)
    ensures r <==> d.raw & (PERF_MEM_OP_PFETCH << PERF_MEM_OP_SHIFT) != 0
  {
    Op(d) & PERF_MEM_OP_PFETCH != 0
  }

  /** True if the memory operation is an instruction fetch. */
  function IsExec(d: DataSource): (r: bool)
    ensures r <==> d.raw & (PERF_MEM_OP_EXEC << PERF_MEM_OP_SHIFT) != 0
  {
    Op(d) & PERF_MEM_OP_EXEC != 0
  }

  /** True if the operation type is not available. */
  function IsNa(d: DataSource): (r: bool)
    ensures r <==> d.raw & (PERF_MEM_OP_NA << PERF_MEM_OP_SHIFT) != 0
  {
    Op(d) & PERF_MEM_OP_NA != 0
  }

  /** True if the access hit at its level. */
  function IsMemHit(d: DataSource): (r: bool)
    ensures r <==> d.raw & (PERF_MEM_LVL_HIT << PERF_MEM_LVL_SHIFT) != 0
  {
    Lvl(d) & PERF_MEM_LVL_HIT != 0
  }

  /** True if the access missed at its level. */
  function IsMemMiss(d: DataSource): (r: bool)
    ensures r <==> d.raw & (PERF_MEM_LVL_MISS << PERF_MEM_LVL_SHIFT) != 0
  {
    Lvl(d) & PERF_MEM_LVL_MISS != 0
  }

  /** True if the data was found in the L1 cache. */
  function IsMemL1(d: DataSource): (r: bool)
    ensures r <==> d.raw & FieldBits(MemLvlNum) == PERF_MEM_LVLNUM_L1 << PERF_MEM_LVLNUM_SHIFT
  {
    LvlNum(d) == PERF_MEM_LVLNUM_L1
  }

  /** True if the data was found in the line fill buffer (miss address buffer on AMD). */
  function IsMemLfb(d: DataSource): (r: bool)
    ensures r <==> d.raw & FieldBits(MemLvlNum) == PERF_MEM_LVLNUM_LFB << PERF_MEM_LVLNUM_SHIFT
  {
    LvlNum(d) == PERF_MEM_LVLNUM_LFB
  }

  /** True if the data was found in the L2 cache. */
  function IsMemL2(d: DataSource): (r: bool)
    ensures r <==> d.raw & FieldBits(MemLvlNum) == PERF_MEM_LVLNUM_L2 << PERF_MEM_LVLNUM_SHIFT
  {
    LvlNum(d) == PERF_MEM_LVLNUM_L2
  }

  /** True if the data was found in the L3 cache. */
  function IsMemL3(d: DataSource): (r: bool)
    ensures r <==> d.raw & FieldBits(MemLvlNum) == PERF_MEM_LVLNUM_L3 << PERF_MEM_LVLNUM_SHIFT
  {
    LvlNum(d) == PERF_MEM_LVLNUM_L3
  }

  /** True if the data was found in the L4 cache. */
  function IsMemL4(d: DataSource): (r: bool)
    ensures r <==> d.raw & FieldBits(MemLvlNum) == PERF_MEM_LVLNUM_L4 << PERF_MEM_LVLNUM_SHIFT
  {
    LvlNum(d) == PERF_MEM_LVLNUM_L4
  }

  /** True if the data was found in RAM. */
  function IsMemRam(d: DataSource): (r: bool)
    ensures r <==> d.raw & FieldBits(MemLvlNum) == PERF_MEM_LVLNUM_RAM << PERF_MEM_LVLNUM_SHIFT
  {
    LvlNum(d) == PERF_MEM_LVLNUM_RAM
  }

  /** True if the data was found in local RAM: RAM level without the remote flag. */
  function IsMemLocalRam(d: DataSource): (r: bool)
    ensures r <==> d.raw & FieldBits(MemLvlNum) == PERF_MEM_LVLNUM_RAM << PERF_MEM_LVLNUM_SHIFT
                   && d.raw & (PERF_MEM_REMOTE_REMOTE << PERF_MEM_REMOTE_SHIFT) == 0
  {
    LvlNum(d) == PERF_MEM_LVLNUM_RAM && Remote(d) != PERF_MEM_REMOTE_REMOTE
  }

  /** True if the data was found in remote RAM: RAM level with the remote flag. */
  function IsMemRemoteRam(d: DataSource): (r: bool)
    ensures r <==> d.raw & FieldBits(MemLvlNum) == PERF_MEM_LVLNUM_RAM << PERF_MEM_LVLNUM_SHIFT
                   && d.raw & (PERF_MEM_REMOTE_REMOTE << PERF_MEM_REMOTE_SHIFT) != 0
  {
    LvlNum(d) == PERF_MEM_LVLNUM_RAM && Remote(d) == PERF_MEM_REMOTE_REMOTE
  }

  /** True if the hop level is 0. */
  function IsMemHops0(d: DataSource): (r: bool)
    ensures r <==> d.raw & FieldBits(MemHops) == PERF_MEM_HOPS_0 << PERF_MEM_HOPS_SHIFT
  {
    Hops(d) == PERF_MEM_HOPS_0
  }

  /** True if the hop level is 1. */
  function IsMemHops1(d: DataSource): (r: bool)
    ensures r <==> d.raw & FieldBits(MemHops) == PERF_MEM_HOPS_1 << PERF_MEM_HOPS_SHIFT
  {
    Hops(d) == PERF_MEM_HOPS_1
  }

  /** True if the hop level is 2 (remote socket, same board). */
  function IsMemHops2(d: DataSource): (r: bool)
    ensures r <==> d.raw & FieldBits(MemHops) == PERF_MEM_HOPS_2 << PERF_MEM_HOPS_SHIFT
  {
    Hops(d) == PERF_MEM_HOPS_2
  }

  /** True if the hop level is 3 (remote board). */
  function IsMemHops3(d: DataSource): (r: bool)
    ensures r <==> d.raw & FieldBits(MemHops) == PERF_MEM_HOPS_3 << PERF_MEM_HOPS_SHIFT
  {
    Hops(d) == PERF_MEM_HOPS_3
  }

  /** True if the data was found in remote RAM at hop level 1. */
  function IsMemRemoteRam1(d: DataSource): (r: bool)
    ensures r <==> d.raw & FieldBits(MemLvlNum) == PERF_MEM_LVLNUM_RAM << PERF_MEM_LVLNUM_SHIFT
                   && d.raw & (PERF_MEM_REMOTE_REMOTE << PERF_MEM_REMOTE_SHIFT) != 0
                   && d.raw & FieldBits(MemHops) == PERF_MEM_HOPS_1 << PERF_MEM_HOPS_SHIFT
  {
    IsMemRemoteRam(d) && IsMemHops1(d)
  }

  /** True if the data was found in remote RAM at hop level 2. */
  function IsMemRemoteRam2(d: DataSource): (r: bool)
    ensures r <==> d.raw & FieldBits(MemLvlNum) == PERF_MEM_LVLNUM_RAM << PERF_MEM_LVLNUM_SHIFT
                   && d.raw & (PERF_MEM_REMOTE_REMOTE << PERF_MEM_REMOTE_SHIFT) != 0
                   && d.raw & FieldBits(MemHops) == PERF_MEM_HOPS_2 << PERF_MEM_HOPS_SHIFT
  {
    IsMemRemoteRam(d) && IsMemHops2(d)
  }

  /** True if the data was found in remote RAM at hop level 3. */
  function IsMemRemoteRam3(d: DataSource): (r: bool)
    ensures r <==> d.raw & FieldBits(MemLvlNum) == PERF_MEM_LVLNUM_RAM << PERF_MEM_LVLNUM_SHIFT
                   && d.raw & (PERF_MEM_REMOTE_REMOTE << PERF_MEM_REMOTE_SHIFT) != 0
                   && d.raw & FieldBits(MemHops) == PERF_MEM_HOPS_3 << PERF_MEM_HOPS_SHIFT
  {
    IsMemRemoteRam(d) && IsMemHops3(d)
  }

  /** True if the data was found in a remote cache one hop away. */
  function IsMemRemoteCce1(d: DataSource): (r: bool)
    ensures r <==> d.raw & (PERF_MEM_LVL_REM_CCE1 << PERF_MEM_LVL_SHIFT) != 0
  {
    Lvl(d) & PERF_MEM_LVL_REM_CCE1 != 0
  }

  /** True if the data was found in a remote cache two hops away. */
  function IsMemRemoteCce2(d: DataSource): (r: bool)
    ensures r <==> d.raw & (PERF_MEM_LVL_REM_CCE2 << PERF_MEM_LVL_SHIFT) != 0
  {
    Lvl(d) & PERF_MEM_LVL_REM_CCE2 != 0
  }

  /** True if the data is stored in persistent memory. */
  function IsPmem(d: DataSource): (r: bool)
    ensures r <==> d.raw & FieldBits(MemLvlNum) == PERF_MEM_LVLNUM_PMEM << PERF_MEM_LVLNUM_SHIFT
  {
    LvlNum(d) == PERF_MEM_LVLNUM_PMEM
  }

  /** True if the data was transferred over Compute Express Link. */
  function IsCxl(d: DataSource): (r: bool)
    ensures r <==> d.raw & FieldBits(MemLvlNum) == PERF_MEM_LVLNUM_CXL << PERF_MEM_LVLNUM_SHIFT
  {
    LvlNum(d) == PERF_MEM_LVLNUM_CXL
  }

  /** True if the address is I/O memory. */
  function IsIo(d: DataSource): (r: bool)
    ensures r <==> d.raw & FieldBits(MemLvlNum) == PERF_MEM_LVLNUM_IO << PERF_MEM_LVLNUM_SHIFT
  {
    LvlNum(d) == PERF_MEM_LVLNUM_IO
  }

  /** True if the TLB lookup hit. */
  function IsTlbHit(d: DataSource): (r: bool)
    ensures r <==> d.raw & (PERF_MEM_TLB_HIT << PERF_MEM_TLB_SHIFT) != 0
  {
    Tlb(d) & PERF_MEM_TLB_HIT != 0
  }

  /** True if the TLB lookup missed. */
  function IsTlbMiss(d: DataSource): (r: bool)
    ensures r <==> d.raw & (PERF_MEM_TLB_MISS << PERF_MEM_TLB_SHIFT) != 0
  {
    Tlb(d) & PERF_MEM_TLB_MISS != 0
  }

  /** True if the access is associated with the dTLB. */
  function IsTlbL1(d: DataSource): (r: bool)
    ensures r <==> d.raw & (PERF_MEM_TLB_L1 << PERF_MEM_TLB_SHIFT) != 0
  {
    Tlb(d) & PERF_MEM_TLB_L1 != 0
  }

  /** True if the access is associated with the STLB. */
  function IsTlbL2(d: DataSource): (r: bool)
    ensures r <==> d.raw & (PERF_MEM_TLB_L2 << PERF_MEM_TLB_SHIFT) != 0
  {
    Tlb(d) & PERF_MEM_TLB_L2 != 0
  }

  /** True if the access is associated with the hardware page walker. */
  function IsTlbWalk(d: DataSource): (r: bool)
    ensures r <==> d.raw & (PERF_MEM_TLB_WK << PERF_MEM_TLB_SHIFT) != 0
  {
    Tlb(d) & PERF_MEM_TLB_WK != 0
  }

  /** True if the address was accessed by a locked instruction. */
  function IsLocked(d: DataSource): (r: bool)
    ensures r <==> d.raw & (PERF_MEM_LOCK_LOCKED << PERF_MEM_LOCK_SHIFT) != 0
  {
    Lock(d) & PERF_MEM_LOCK_LOCKED != 0
  }

  /** True if the data could not be forwarded. */
  function IsDataBlocked(d: DataSource): (r: bool)
    ensures r <==> d.raw & (PERF_MEM_BLK_DATA << PERF_MEM_BLK_SHIFT) != 0
  {
    Blk(d) & PERF_MEM_BLK_DATA != 0
  }

  /** True if the access was blocked by an address conflict. */
  function IsAddressBlocked(d: DataSource): (r: bool)
    ensures r <==> d.raw & (PERF_MEM_BLK_ADDR << PERF_MEM_BLK_SHIFT) != 0
  {
    Blk(d) & PERF_MEM_BLK_ADDR != 0
  }

  /** True if the snoop hit. */
  function IsSnoopHit(d: DataSource): (r: bool)
    ensures r <==> d.raw & (PERF_MEM_SNOOP_HIT << PERF_MEM_SNOOP_SHIFT) != 0
  {
    Snoop(d) & PERF_MEM_SNOOP_HIT != 0
  }

  /** True if the snoop missed. */
  function IsSnoopMiss(d: DataSource): (r: bool)
    ensures r <==> d.raw & (PERF_MEM_SNOOP_MISS << PERF_MEM_SNOOP_SHIFT) != 0
  {
    Snoop(d) & PERF_MEM_SNOOP_MISS != 0
  }

  /** True if the snoop hit a modified line. */
  function IsSnoopHitModified(d: DataSource): (r: bool)
    ensures r <==> d.raw & (PERF_MEM_SNOOP_HITM << PERF_MEM_SNOOP_SHIFT) != 0
  {
    Snoop(d) & PERF_MEM_SNOOP_HITM != 0
  }

}
