/** One entry of a sampled branch stack. */
module BranchEntries {
  import opened Ints

  /** An immutable record of one taken branch. */
  datatype Branch = Branch(
    instructionPointerFrom: u64,
    instructionPointerTo: u64,
    isMispredicted: bool,
    isPredicted: bool,
    isInTransaction: bool,
    isTransactionAbort: bool,
    cycles: u16)

  /** The accessors return exactly the seven constructor arguments. */
  lemma BranchAccessors(
    from: u64, to: u64, mispredicted: bool, predicted: bool,
    inTransaction: bool, transactionAbort: bool, cycles: u16)
    ensures var b := Branch(from, to, mispredicted, predicted, inTransaction, transactionAbort, cycles);
      && b.instructionPointerFrom == from
      && b.instructionPointerTo == to
      && b.isMispredicted == mispredicted
      && b.isPredicted == predicted
      && b.isInTransaction == inTransaction
      && b.isTransactionAbort == transactionAbort
      && b.cycles == cycles
  {
  }
}
