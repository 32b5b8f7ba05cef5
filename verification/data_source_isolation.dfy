/**
 * Each sub-field of a `DataSource` reads only its own bit range, so the
 * predicates built on a sub-field ignore every other bit of the word.
 */
module DataSourceIsolation {
  import opened PerfMem
  import opened DataSources

  /** Flipping any bits outside `mem_op` leaves the operation type unchanged. */
  lemma OpReadsOnlyItsBits(d: DataSource, flip: bv64)
    requires flip & FieldBits(MemOp) == 0
    ensures Op(DataSource(d.raw ^ flip)) == Op(d)
  {
  }

  /** So no bit outside `mem_op` changes what the operation-type predicates say. */
  lemma OpPredicatesReadOnlyOpBits(d: DataSource, flip: bv64)
    requires flip & FieldBits(MemOp) == 0
    ensures var e := DataSource(d.raw ^ flip);
      && IsLoad(e) == IsLoad(d)
      && IsStore(e) == IsStore(d)
      && IsPrefetch(e) == IsPrefetch(d)
      && IsExec(e) == IsExec(d)
      && IsNa(e) == IsNa(d)
  {
  }
}
