/**
 * Properties of the `DataSource` decoder: the struct view of the word agrees
 * with the word, each sub-field reads only its own bits, and the predicates
 * that compare one sub-field against distinct constants exclude one another.
 */
module DataSourceFacts {
  import opened PerfMem
  import opened DataSources

  // ---------------------------------------------------------------------------
  // The struct view of the union.
  // ---------------------------------------------------------------------------

  /** The bitfield struct of `perf_mem_data_src`: every sub-field as its own value. */
  datatype MemDataSrc = MemDataSrc(
    memOp: bv64, memLvl: bv64, memSnoop: bv64, memLock: bv64, memDtlb: bv64,
    memLvlNum: bv64, memRemote: bv64, memSnoopx: bv64, memBlk: bv64,
    memHops: bv64, memRsvd: bv64)
  {
    /** Every sub-field fits in its width, as in the C bitfield struct. */
    predicate WellFormed() {
      && memOp <= Mask(MemOp) && memLvl <= Mask(MemLvl) && memSnoop <= Mask(MemSnoop)
      && memLock <= Mask(MemLock) && memDtlb <= Mask(MemDtlb) && memLvlNum <= Mask(MemLvlNum)
      && memRemote <= Mask(MemRemote) && memSnoopx <= Mask(MemSnoopx) && memBlk <= Mask(MemBlk)
      && memHops <= Mask(MemHops) && memRsvd <= Mask(MemRsvd)
    }
  }

  /** The descriptor seen through the struct (what the source's `reinterpret_cast` yields). */
  function Fields(d: DataSource): (s: MemDataSrc)
    ensures s.WellFormed()
  {
    MemDataSrc(Op(d), Lvl(d), Snoop(d), Lock(d), Tlb(d), LvlNum(d), Remote(d),
               Snoopx(d), Blk(d), Hops(d), Reserved(d))
  }

  /** Packs a struct back into the word. */
  function FromFields(s: MemDataSrc): DataSource
    requires s.WellFormed()
  {
    DataSource(
      (s.memOp << PERF_MEM_OP_SHIFT)
      | (s.memLvl << PERF_MEM_LVL_SHIFT)
      | (s.memSnoop << PERF_MEM_SNOOP_SHIFT)
      | (s.memLock << PERF_MEM_LOCK_SHIFT)
      | (s.memDtlb << PERF_MEM_TLB_SHIFT)
      | (s.memLvlNum << PERF_MEM_LVLNUM_SHIFT)
      | (s.memRemote << PERF_MEM_REMOTE_SHIFT)
      | (s.memSnoopx << PERF_MEM_SNOOPX_SHIFT)
      | (s.memBlk << PERF_MEM_BLK_SHIFT)
      | (s.memHops << PERF_MEM_HOPS_SHIFT)
      | (s.memRsvd << MEM_RSVD_SHIFT))
  }

  /** Packing a struct and reading it back returns every sub-field unchanged. */
  lemma FieldsFromFields(s: MemDataSrc)
    requires s.WellFormed()
    ensures Fields(FromFields(s)) == s
  {
  }

  /** Reading the struct and packing it again returns the original word. */
  lemma FromFieldsFields(d: DataSource)
    ensures FromFields(Fields(d)) == d
  {
  }

  // ---------------------------------------------------------------------------
  // Equality tests against distinct constants exclude one another.
  // ---------------------------------------------------------------------------

  /** Number of true entries. */
  function CountTrue(bs: seq<bool>): nat {
    if |bs| == 0 then 0 else (if bs[0] then 1 else 0) + CountTrue(bs[1..])
  }

  /** The outcome of comparing `v` with each constant of `ks`, in order. */
  function Matches(v: bv64, ks: seq<bv64>): (bs: seq<bool>)
    ensures |bs| == |ks|
    ensures forall i :: 0 <= i < |ks| ==> (bs[i] <==> v == ks[i])
  {
    if |ks| == 0 then [] else [v == ks[0]] + Matches(v, ks[1..])
  }

  predicate Distinct(ks: seq<bv64>) {
    forall i, j :: 0 <= i < j < |ks| ==> ks[i] != ks[j]
  }

  /** A value that is none of the constants matches none of them. */
  lemma {:induction false} NoMatch(v: bv64, ks: seq<bv64>)
    requires v !in ks
    ensures CountTrue(Matches(v, ks)) == 0
  {
    if |ks| > 0 {
      assert v != ks[0];
      NoMatch(v, ks[1..]);
    }
  }

  /** Against pairwise distinct constants, a value matches at most one. */
  lemma {:induction false} AtMostOneMatch(v: bv64, ks: seq<bv64>)
    requires Distinct(ks)
    ensures CountTrue(Matches(v, ks)) <= 1
  {
    if |ks| > 0 {
      if v == ks[0] {
        assert v !in ks[1..] by {
          forall i | 0 <= i < |ks[1..]|
            ensures ks[1..][i] != v
          {
            assert ks[1..][i] == ks[i + 1];
          }
        }
        NoMatch(v, ks[1..]);
      } else {
        AtMostOneMatch(v, ks[1..]);
      }
    }
  }

  /** The level-number constants the source tests for. */
  const LevelNumbers: seq<bv64> := [
    PERF_MEM_LVLNUM_L1, PERF_MEM_LVLNUM_LFB, PERF_MEM_LVLNUM_L2, PERF_MEM_LVLNUM_L3,
    PERF_MEM_LVLNUM_L4, PERF_MEM_LVLNUM_RAM, PERF_MEM_LVLNUM_PMEM, PERF_MEM_LVLNUM_CXL,
    PERF_MEM_LVLNUM_IO]

  /** The nine level-number predicates, in the order of `LevelNumbers`. */
  function LevelNumTests(d: DataSource): seq<bool> {
    [IsMemL1(d), IsMemLfb(d), IsMemL2(d), IsMemL3(d), IsMemL4(d),
     IsMemRam(d), IsPmem(d), IsCxl(d), IsIo(d)]
  }

  lemma LevelNumTestsAreMatches(d: DataSource)
    ensures LevelNumTests(d) == Matches(LvlNum(d), LevelNumbers)
  {
  }

  /** The nine constants are pairwise distinct. */
  lemma LevelNumbersDistinct()
    ensures Distinct(LevelNumbers)
  {
  }

  /** At most one of the level-number predicates holds for any descriptor. */
  lemma LevelNumTestsExclusive(d: DataSource)
    ensures CountTrue(LevelNumTests(d)) <= 1
  {
    LevelNumTestsAreMatches(d);
    LevelNumbersDistinct();
    AtMostOneMatch(LvlNum(d), LevelNumbers);
  }

  /** A level number the source does not test for (e.g. any-cache, N/A) makes all nine false. */
  lemma UnnamedLevelNumMatchesNothing(d: DataSource)
    requires LvlNum(d) !in LevelNumbers
    ensures CountTrue(LevelNumTests(d)) == 0
  {
    LevelNumTestsAreMatches(d);
    NoMatch(LvlNum(d), LevelNumbers);
  }

  /** The hop-level constants the source tests for. */
  const HopLevels: seq<bv64> := [PERF_MEM_HOPS_0, PERF_MEM_HOPS_1, PERF_MEM_HOPS_2, PERF_MEM_HOPS_3]

  function HopsTests(d: DataSource): seq<bool> {
    [IsMemHops0(d), IsMemHops1(d), IsMemHops2(d), IsMemHops3(d)]
  }

  /** At most one of the hop predicates holds for any descriptor. */
  lemma HopsTestsExclusive(d: DataSource)
    ensures CountTrue(HopsTests(d)) <= 1
  {
    assert HopsTests(d) == Matches(Hops(d), HopLevels);
    AtMostOneMatch(Hops(d), HopLevels);
  }

  /** A hop level the source does not test for (e.g. 0, meaning not available) makes all four false. */
  lemma UnnamedHopsMatchesNothing(d: DataSource)
    requires Hops(d) !in HopLevels
    ensures CountTrue(HopsTests(d)) == 0
  {
    assert HopsTests(d) == Matches(Hops(d), HopLevels);
    NoMatch(Hops(d), HopLevels);
  }

  // ---------------------------------------------------------------------------
  // RAM: local versus remote, and remote RAM by hop level.
  // ---------------------------------------------------------------------------

  /** Local and remote RAM never both hold, and together they are exactly RAM. */
  lemma RamIsLocalOrRemote(d: DataSource)
    ensures !(IsMemLocalRam(d) && IsMemRemoteRam(d))
    ensures IsMemLocalRam(d) || IsMemRemoteRam(d) <==> IsMemRam(d)
  {
  }

  /** Remote RAM at hop level N is remote RAM together with hop level N. */
  lemma RemoteRamByHops(d: DataSource)
    ensures IsMemRemoteRam1(d) <==> IsMemRemoteRam(d) && IsMemHops1(d)
    ensures IsMemRemoteRam2(d) <==> IsMemRemoteRam(d) && IsMemHops2(d)
    ensures IsMemRemoteRam3(d) <==> IsMemRemoteRam(d) && IsMemHops3(d)
    ensures !(IsMemLocalRam(d) && (IsMemRemoteRam1(d) || IsMemRemoteRam2(d) || IsMemRemoteRam3(d)))
  {
  }

  // ---------------------------------------------------------------------------
  // A literal truth-table row.
  // ---------------------------------------------------------------------------

  /**
   * 0x1004_0800_0442 is the word of a load that hit in L2, with a TLB hit and
   * hop level 1: it is the one the struct view of those facts packs to.
   */
  lemma L2LoadTlbHitHops1Layout()
    ensures var s := MemDataSrc(
      PERF_MEM_OP_LOAD, PERF_MEM_LVL_HIT | PERF_MEM_LVL_L2, 0, 0, PERF_MEM_TLB_HIT,
      PERF_MEM_LVLNUM_L2, 0, 0, 0, PERF_MEM_HOPS_1, 0);
      s.WellFormed() && FromFields(s) == DataSource(0x1004_0800_0442)
  {
  }

  /** Exactly the predicates for those facts hold; the unrelated ones do not. */
  lemma L2LoadTlbHitHops1Example()
    ensures var d := DataSource(0x1004_0800_0442);
      && IsLoad(d) && IsMemHit(d) && IsMemL2(d) && IsTlbHit(d) && IsMemHops1(d)
      && !IsStore(d) && !IsPrefetch(d) && !IsExec(d) && !IsNa(d) && !IsMemMiss(d)
      && !IsMemL1(d) && !IsMemLfb(d) && !IsMemL3(d) && !IsMemL4(d) && !IsMemRam(d)
      && !IsPmem(d) && !IsCxl(d) && !IsIo(d) && !IsMemLocalRam(d) && !IsMemRemoteRam(d)
      && !IsMemHops0(d) && !IsMemHops2(d) && !IsMemHops3(d)
      && !IsMemRemoteRam1(d) && !IsMemRemoteRam2(d) && !IsMemRemoteRam3(d)
      && !IsMemRemoteCce1(d) && !IsMemRemoteCce2(d) && !IsTlbMiss(d) && !IsTlbL1(d)
      && !IsTlbL2(d) && !IsTlbWalk(d) && !IsLocked(d) && !IsDataBlocked(d)
      && !IsAddressBlocked(d) && !IsSnoopHit(d) && !IsSnoopMiss(d) && !IsSnoopHitModified(d)
  {
  }
}
