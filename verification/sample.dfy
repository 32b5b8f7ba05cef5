/**
 * One decoded sample: an always-present execution mode and a fixed set of
 * independently optional fields. A fresh sample has only its mode; setters
 * make one field present each; getters are the datatype's destructors and
 * return the option. The branch stack, both register snapshots and the call
 * chain can also be replaced or cleared through a mutable reference.
 * The counter values are of a type this model does not look into (`C`).
 */
module Samples {
  import opened Ints
  import opened Optional
  import DataSources
  import Weights
  import BranchEntries

  type DataSource = DataSources.DataSource
  type Weight = Weights.Weight
  type Branch = BranchEntries.Branch

  /** The execution level the sample was taken in. */
  datatype Mode = Unknown | Kernel | User | Hypervisor | GuestKernel | GuestUser

  /** The optional fields of a sample, one per setter and getter pair. */
  datatype Field =
    | SampleId
    | InstructionPointer
    | ProcessId
    | ThreadId
    | Time
    | LogicalMemoryAddress
    | PhysicalMemoryAddress
    | Id
    | CpuId
    | Period
    | CounterResult
    | DataSrc
    | Weight
    | Branches
    | UserRegistersAbi
    | UserRegisters
    | KernelRegisters
    | KernelRegistersAbi
    | Callchain
    | DataPageSize
    | CodePageSize

  datatype Sample<C> = Sample(
    mode: Mode,
    sampleId: Option<u64>,
    instructionPointer: Option<u64>,
    processId: Option<u32>,
    threadId: Option<u32>,
    time: Option<u64>,
    logicalMemoryAddress: Option<u64>,
    physicalMemoryAddress: Option<u64>,
    id: Option<u64>,
    cpuId: Option<u32>,
    period: Option<u64>,
    counterResult: Option<C>,
    dataSrc: Option<DataSource>,
    weight: Option<Weight>,
    branches: Option<seq<Branch>>,
    userRegistersAbi: Option<u64>,
    userRegisters: Option<seq<u64>>,
    kernelRegisters: Option<seq<u64>>,
    kernelRegistersAbi: Option<u64>,
    callchain: Option<seq<u64>>,
    dataPageSize: Option<u64>,
    codePageSize: Option<u64>)

  /** Whether field `f` of `s` is present. */
  predicate Present<C(==)>(s: Sample<C>, f: Field) {
    match f
    case SampleId => s.sampleId.Some?
    case InstructionPointer => s.instructionPointer.Some?
    case ProcessId => s.processId.Some?
    case ThreadId => s.threadId.Some?
    case Time => s.time.Some?
    case LogicalMemoryAddress => s.logicalMemoryAddress.Some?
    case PhysicalMemoryAddress => s.physicalMemoryAddress.Some?
    case Id => s.id.Some?
    case CpuId => s.cpuId.Some?
    case Period => s.period.Some?
    case CounterResult => s.counterResult.Some?
    case DataSrc => s.dataSrc.Some?
    case Weight => s.weight.Some?
    case Branches => s.branches.Some?
    case UserRegistersAbi => s.userRegistersAbi.Some?
    case UserRegisters => s.userRegisters.Some?
    case KernelRegisters => s.kernelRegisters.Some?
    case KernelRegistersAbi => s.kernelRegistersAbi.Some?
    case Callchain => s.callchain.Some?
    case DataPageSize => s.dataPageSize.Some?
    case CodePageSize => s.codePageSize.Some?
  }

  /** Whether `s` and `t` hold the same option in field `f`. */
  predicate SameField<C(==)>(s: Sample<C>, t: Sample<C>, f: Field) {
    match f
    case SampleId => s.sampleId == t.sampleId
    case InstructionPointer => s.instructionPointer == t.instructionPointer
    case ProcessId => s.processId == t.processId
    case ThreadId => s.threadId == t.threadId
    case Time => s.time == t.time
    case LogicalMemoryAddress => s.logicalMemoryAddress == t.logicalMemoryAddress
    case PhysicalMemoryAddress => s.physicalMemoryAddress == t.physicalMemoryAddress
    case Id => s.id == t.id
    case CpuId => s.cpuId == t.cpuId
    case Period => s.period == t.period
    case CounterResult => s.counterResult == t.counterResult
    case DataSrc => s.dataSrc == t.dataSrc
    case Weight => s.weight == t.weight
    case Branches => s.branches == t.branches
    case UserRegistersAbi => s.userRegistersAbi == t.userRegistersAbi
    case UserRegisters => s.userRegisters == t.userRegisters
    case KernelRegisters => s.kernelRegisters == t.kernelRegisters
    case KernelRegistersAbi => s.kernelRegistersAbi == t.kernelRegistersAbi
    case Callchain => s.callchain == t.callchain
    case DataPageSize => s.dataPageSize == t.dataPageSize
    case CodePageSize => s.codePageSize == t.codePageSize
  }

  /** `t` differs from `s` in field `f` at most: same mode, every other field the same. */
  predicate OnlyChanged<C(==)>(s: Sample<C>, t: Sample<C>, f: Field) {
    s.mode == t.mode && forall g: Field :: g != f ==> SameField(s, t, g)
  }

  /** The fields the source also exposes by mutable reference, which can be cleared again. */
  predicate Reassignable(f: Field) {
    f.Branches? || f.UserRegisters? || f.KernelRegisters? || f.Callchain?
  }

  /** Samples that agree on a field agree on whether it is present. */
  lemma SameFieldSamePresence<C>(s: Sample<C>, t: Sample<C>, f: Field)
    requires SameField(s, t, f)
    ensures Present(s, f) == Present(t, f)
  {
  }

  /** Agreement on a field is symmetric and transitive. */
  lemma SameFieldTransitive<C>(s: Sample<C>, t: Sample<C>, r: Sample<C>, f: Field)
    requires SameField(s, t, f) || SameField(t, s, f)
    requires SameField(t, r, f) || SameField(r, t, f)
    ensures SameField(s, r, f) && SameField(r, s, f)
  {
  }

  /** Two samples that agree on the mode and on every field are the same sample. */
  lemma Extensionality<C>(s: Sample<C>, t: Sample<C>)
    requires s.mode == t.mode
    requires forall f: Field :: SameField(s, t, f)
    ensures s == t
  {
    FieldsAgree1(s, t);
    FieldsAgree2(s, t);
    FieldsAgree3(s, t);
  }

  lemma FieldsAgree1<C>(s: Sample<C>, t: Sample<C>)
    requires SameField(s, t, SampleId)
      && SameField(s, t, InstructionPointer)
      && SameField(s, t, ProcessId)
      && SameField(s, t, ThreadId)
      && SameField(s, t, Time)
      && SameField(s, t, LogicalMemoryAddress)
      && SameField(s, t, PhysicalMemoryAddress)
    ensures s.sampleId == t.sampleId
      && s.instructionPointer == t.instructionPointer
      && s.processId == t.processId
      && s.threadId == t.threadId
      && s.time == t.time
      && s.logicalMemoryAddress == t.logicalMemoryAddress
      && s.physicalMemoryAddress == t.physicalMemoryAddress
  {
  }

  lemma FieldsAgree2<C>(s: Sample<C>, t: Sample<C>)
    requires SameField(s, t, Id)
      && SameField(s, t, CpuId)
      && SameField(s, t, Period)
      && SameField(s, t, CounterResult)
      && SameField(s, t, DataSrc)
      && SameField(s, t, Weight)
      && SameField(s, t, Branches)
    ensures s.id == t.id
      && s.cpuId == t.cpuId
      && s.period == t.period
      && s.counterResult == t.counterResult
      && s.dataSrc == t.dataSrc
      && s.weight == t.weight
      && s.branches == t.branches
  {
  }

  lemma FieldsAgree3<C>(s: Sample<C>, t: Sample<C>)
    requires SameField(s, t, UserRegistersAbi)
      && SameField(s, t, UserRegisters)
      && SameField(s, t, KernelRegisters)
      && SameField(s, t, KernelRegistersAbi)
      && SameField(s, t, Callchain)
      && SameField(s, t, DataPageSize)
      && SameField(s, t, CodePageSize)
    ensures s.userRegistersAbi == t.userRegistersAbi
      && s.userRegisters == t.userRegisters
      && s.kernelRegisters == t.kernelRegisters
      && s.kernelRegistersAbi == t.kernelRegistersAbi
      && s.callchain == t.callchain
      && s.dataPageSize == t.dataPageSize
      && s.codePageSize == t.codePageSize
  {
  }


  /** A fresh sample: the given mode and every optional field absent. */
  function NewSample<C(==)>(mode: Mode): (s: Sample<C>)
    ensures s.mode == mode
    ensures forall f: Field :: !Present(s, f)
  {
    Sample(mode, None, None, None, None, None, None, None, None, None, None, None, None, None, None, None, None, None, None, None, None, None)
  }

  /** Sets the sample identifier; nothing else changes. */
  function SetSampleId<C(==)>(s: Sample<C>, v: u64): (r: Sample<C>)
    ensures r.sampleId == Some(v)
    ensures OnlyChanged(s, r, SampleId)
  {
    s.(sampleId := Some(v))
  }

  /** Sets the instruction pointer; nothing else changes. */
  function SetInstructionPointer<C(==)>(s: Sample<C>, v: u64): (r: Sample<C>)
    ensures r.instructionPointer == Some(v)
    ensures OnlyChanged(s, r, InstructionPointer)
  {
    s.(instructionPointer := Some(v))
  }

  /** Sets the process id; nothing else changes. */
  function SetProcessId<C(==)>(s: Sample<C>, v: u32): (r: Sample<C>)
    ensures r.processId == Some(v)
    ensures OnlyChanged(s, r, ProcessId)
  {
    s.(processId := Some(v))
  }

  /** Sets the thread id; nothing else changes. */
  function SetThreadId<C(==)>(s: Sample<C>, v: u32): (r: Sample<C>)
    ensures r.threadId == Some(v)
    ensures OnlyChanged(s, r, ThreadId)
  {
    s.(threadId := Some(v))
  }

  /** Sets the timestamp; nothing else changes. */
  function SetTimestamp<C(==)>(s: Sample<C>, v: u64): (r: Sample<C>)
    ensures r.time == Some(v)
    ensures OnlyChanged(s, r, Time)
  {
    s.(time := Some(v))
  }

  /** Sets the logical (virtual) memory address; nothing else changes. */
  function SetLogicalMemoryAddress<C(==)>(s: Sample<C>, v: u64): (r: Sample<C>)
    ensures r.logicalMemoryAddress == Some(v)
    ensures OnlyChanged(s, r, LogicalMemoryAddress)
  {
    s.(logicalMemoryAddress := Some(v))
  }

  /** Sets the physical memory address; nothing else changes. */
  function SetPhysicalMemoryAddress<C(==)>(s: Sample<C>, v: u64): (r: Sample<C>)
    ensures r.physicalMemoryAddress == Some(v)
    ensures OnlyChanged(s, r, PhysicalMemoryAddress)
  {
    s.(physicalMemoryAddress := Some(v))
  }

  /** Sets the event id; nothing else changes. */
  function SetId<C(==)>(s: Sample<C>, v: u64): (r: Sample<C>)
    ensures r.id == Some(v)
    ensures OnlyChanged(s, r, Id)
  {
    s.(id := Some(v))
  }

  /** Sets the CPU id; nothing else changes. */
  function SetCpuId<C(==)>(s: Sample<C>, v: u32): (r: Sample<C>)
    ensures r.cpuId == Some(v)
    ensures OnlyChanged(s, r, CpuId)
  {
    s.(cpuId := Some(v))
  }

  /** Sets the sampling period; nothing else changes. */
  function SetPeriod<C(==)>(s: Sample<C>, v: u64): (r: Sample<C>)
    ensures r.period == Some(v)
    ensures OnlyChanged(s, r, Period)
  {
    s.(period := Some(v))
  }

  /** Sets the counter values; nothing else changes. */
  function SetCounterResult<C(==)>(s: Sample<C>, v: C): (r: Sample<C>)
    ensures r.counterResult == Some(v)
    ensures OnlyChanged(s, r, CounterResult)
  {
    s.(counterResult := Some(v))
  }

  /** Sets the data source descriptor; nothing else changes. */
  function SetDataSrc<C(==)>(s: Sample<C>, v: DataSource): (r: Sample<C>)
    ensures r.dataSrc == Some(v)
    ensures OnlyChanged(s, r, DataSrc)
  {
    s.(dataSrc := Some(v))
  }

  /** Sets the weight; nothing else changes. */
  function SetWeight<C(==)>(s: Sample<C>, v: Weight): (r: Sample<C>)
    ensures r.weight == Some(v)
    ensures OnlyChanged(s, r, Weight)
  {
    s.(weight := Some(v))
  }

  /** Sets the branch stack; nothing else changes. */
  function SetBranches<C(==)>(s: Sample<C>, v: seq<Branch>): (r: Sample<C>)
    ensures r.branches == Some(v)
    ensures OnlyChanged(s, r, Branches)
  {
    s.(branches := Some(v))
  }

  /** Sets the ABI of the user register snapshot; nothing else changes. */
  function SetUserRegistersAbi<C(==)>(s: Sample<C>, v: u64): (r: Sample<C>)
    ensures r.userRegistersAbi == Some(v)
    ensures OnlyChanged(s, r, UserRegistersAbi)
  {
    s.(userRegistersAbi := Some(v))
  }

  /** Sets the user register snapshot; nothing else changes. */
  function SetUserRegisters<C(==)>(s: Sample<C>, v: seq<u64>): (r: Sample<C>)
    ensures r.userRegisters == Some(v)
    ensures OnlyChanged(s, r, UserRegisters)
  {
    s.(userRegisters := Some(v))
  }

  /** Sets the kernel register snapshot; nothing else changes. */
  function SetKernelRegisters<C(==)>(s: Sample<C>, v: seq<u64>): (r: Sample<C>)
    ensures r.kernelRegisters == Some(v)
    ensures OnlyChanged(s, r, KernelRegisters)
  {
    s.(kernelRegisters := Some(v))
  }

  /** Sets the ABI of the kernel register snapshot; nothing else changes. */
  function SetKernelRegistersAbi<C(==)>(s: Sample<C>, v: u64): (r: Sample<C>)
    ensures r.kernelRegistersAbi == Some(v)
    ensures OnlyChanged(s, r, KernelRegistersAbi)
  {
    s.(kernelRegistersAbi := Some(v))
  }

  /** Sets the call chain; nothing else changes. */
  function SetCallchain<C(==)>(s: Sample<C>, v: seq<u64>): (r: Sample<C>)
    ensures r.callchain == Some(v)
    ensures OnlyChanged(s, r, Callchain)
  {
    s.(callchain := Some(v))
  }

  /** Sets the data page size; nothing else changes. */
  function SetDataPageSize<C(==)>(s: Sample<C>, v: u64): (r: Sample<C>)
    ensures r.dataPageSize == Some(v)
    ensures OnlyChanged(s, r, DataPageSize)
  {
    s.(dataPageSize := Some(v))
  }

  /** Sets the code page size; nothing else changes. */
  function SetCodePageSize<C(==)>(s: Sample<C>, v: u64): (r: Sample<C>)
    ensures r.codePageSize == Some(v)
    ensures OnlyChanged(s, r, CodePageSize)
  {
    s.(codePageSize := Some(v))
  }

  /** Assigns through the mutable reference to the branch stack: may replace or clear it; nothing else changes. */
  function AssignBranches<C(==)>(s: Sample<C>, o: Option<seq<Branch>>): (r: Sample<C>)
    ensures r.branches == o
    ensures OnlyChanged(s, r, Branches)
  {
    s.(branches := o)
  }

  /** Assigns through the mutable reference to the user register snapshot: may replace or clear it; nothing else changes. */
  function AssignUserRegisters<C(==)>(s: Sample<C>, o: Option<seq<u64>>): (r: Sample<C>)
    ensures r.userRegisters == o
    ensures OnlyChanged(s, r, UserRegisters)
  {
    s.(userRegisters := o)
  }

  /** Assigns through the mutable reference to the kernel register snapshot: may replace or clear it; nothing else changes. */
  function AssignKernelRegisters<C(==)>(s: Sample<C>, o: Option<seq<u64>>): (r: Sample<C>)
    ensures r.kernelRegisters == o
    ensures OnlyChanged(s, r, KernelRegisters)
  {
    s.(kernelRegisters := o)
  }

  /** Assigns through the mutable reference to the call chain: may replace or clear it; nothing else changes. */
  function AssignCallchain<C(==)>(s: Sample<C>, o: Option<seq<u64>>): (r: Sample<C>)
    ensures r.callchain == o
    ensures OnlyChanged(s, r, Callchain)
  {
    s.(callchain := o)
  }

}
