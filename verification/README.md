# perf-cpp sample records in Dafny

A model of the value types in `include/perfcpp/sample.h` of perf-cpp, the C++
library that records hardware-counter samples through Linux `perf_event_open`.
One `Sample` is what the library decodes from one kernel sample record.

- **`DataSource`** wraps the kernel's 64-bit `union perf_mem_data_src`, defined in
  the Linux UAPI header `linux/perf_event.h`. It classifies a sampled memory
  access with predicates such as `is_load`, `is_mem_l2`, `is_tlb_miss` and
  `is_mem_remote_ram2`. Each predicate is one of three things:
  - a flag test on a sub-field;
  - an equality test of a sub-field against a kernel constant;
  - a conjunction of other predicates.
- **`Branch`** is one entry of a sampled branch stack.
- **`Weight`** is a sample's latency, plus two extra 16-bit values in the
  kernel's extended weight format.
- **`Sample`** holds an always-present execution `Mode` and 21 independently
  optional fields.
  - Each field has a setter and a getter that returns an `std::optional`.
  - The branch stack, both register snapshots and the call chain also have
    mutable references, so they can be replaced or cleared later.

Modules, from the bottom up:

- `Ints` (`ints.dfy`): the fixed-width unsigned types, as ranges of `int`.
  `std::uintptr_t` is taken to be 64 bits wide.
- `Optional` (`optional.dfy`): `Option`, standing in for `std::optional`.
- `PerfMem` (`perf_mem.dfy`): the bit layout of `perf_mem_data_src` and the
  kernel's constants, with lemmas that the sub-fields tile the 64-bit word.
- `DataSources` (`data_source.dfy`): the descriptor and every accessor and
  predicate of the C++ class.
  - The C++ class reads sub-fields through the kernel's bitfield struct.
    The model uses explicit shifts and masks instead.
  - Each predicate's contract states its meaning directly on the raw word's
    bits. Its body is written the way the source computes it, through the
    accessor.
  - The module also reads the reserved tail `mem_rsvd` (bits 46-63), which the
    C++ class has no accessor for. Only the struct view below uses it.
- `DataSourceFacts` (`data_source_facts.dfy`):
  - the struct view of the word and its round trip with the word;
  - exclusivity of the equality-test predicates, through a general lemma about
    comparing one value with distinct constants;
  - the local/remote RAM and hop-level relations;
  - a worked truth-table example.
- `DataSourceIsolation` (`data_source_isolation.dfy`): bits outside `mem_op`
  do not affect the operation-type predicates.
- `BranchEntries` (`branch.dfy`) and `Weights` (`weight.dfy`): the two small
  value types.
- `Samples` (`sample.dfy`): the record, its constructor, one update function
  per setter, and one per mutable-reference assignment. Getters are the
  datatype's destructors. The counter values come from a class this model
  does not look into, so they are a type parameter `C`.
- `SampleUpdates` (`sample_updates.dfy`): calls on a sample as data (`Update`),
  and what sequences of them do:
  - each call touches only its own field, and calls on different fields commute;
  - the last write to a field wins;
  - the mode never changes;
  - fields without a mutable reference, once present, stay present.

Three points about the C++ code that the model makes explicit:

- **Fields can be cleared.** `branches()`, `user_registers()`,
  `kernel_registers()` and `callchain()` return mutable references to their
  optionals (lines 441, 447, 453, 455). A caller can replace or clear those four
  fields through them. The model has an assignment for each, and its "stays
  present" properties leave out exactly those four fields.
- **Weight has no tag.** The latency-only constructor leaves `var2` and `var3`
  at 0. So a weight whose format carried no extra values cannot be told apart
  from one whose extra values are 0; `Weights.LatencyOnlyIsIndistinguishable`
  states this.
- **Hop-level doc comments.** The comments on `is_mem_hops0` ("local RAM") and
  `is_mem_hops1` ("same node") do not match the meanings `linux/perf_event.h`
  gives `PERF_MEM_HOPS_0` (remote core, same node) and `PERF_MEM_HOPS_1`
  (remote node, same socket). The model follows the constants the code
  compares against.

## Model

| member | source | states |
|---|---|---|
| PerfMem.MaskMatchesWidth | include/perfcpp/sample.h:217-292 | each sub-field's mask is the all-ones value of the width the kernel's bitfield struct gives that field |
| PerfMem.FieldsTileTheWord | include/perfcpp/sample.h:217-292 | the kernel layout's sub-fields sit end to end from bit 0: each starts where the previous one ends, and the reserved tail ends at bit 64 |
| PerfMem.FieldBitsCoverWord | include/perfcpp/sample.h:217-292 | the sub-fields together cover every one of the 64 bits of the descriptor |
| DataSources.Op | include/perfcpp/sample.h:217-220 | the `mem_op` value is below 2^width of that sub-field, and shifted back to its offset it is exactly the descriptor's bits in that range |
| DataSources.Lvl | include/perfcpp/sample.h:225-228 | the `mem_lvl` value is below 2^width of that sub-field, and shifted back to its offset it is exactly the descriptor's bits in that range |
| DataSources.Remote | include/perfcpp/sample.h:233-236 | the `mem_remote` value is below 2^width of that sub-field, and shifted back to its offset it is exactly the descriptor's bits in that range |
| DataSources.LvlNum | include/perfcpp/sample.h:241-244 | the `mem_lvl_num` value is below 2^width of that sub-field, and shifted back to its offset it is exactly the descriptor's bits in that range |
| DataSources.Snoop | include/perfcpp/sample.h:249-252 | the `mem_snoop` value is below 2^width of that sub-field, and shifted back to its offset it is exactly the descriptor's bits in that range |
| DataSources.Snoopx | include/perfcpp/sample.h:257-260 | the `mem_snoopx` value is below 2^width of that sub-field, and shifted back to its offset it is exactly the descriptor's bits in that range |
| DataSources.Lock | include/perfcpp/sample.h:265-268 | the `mem_lock` value is below 2^width of that sub-field, and shifted back to its offset it is exactly the descriptor's bits in that range |
| DataSources.Tlb | include/perfcpp/sample.h:273-276 | the `mem_dtlb` value is below 2^width of that sub-field, and shifted back to its offset it is exactly the descriptor's bits in that range |
| DataSources.Blk | include/perfcpp/sample.h:281-284 | the `mem_blk` value is below 2^width of that sub-field, and shifted back to its offset it is exactly the descriptor's bits in that range |
| DataSources.Hops | include/perfcpp/sample.h:289-292 | the `mem_hops` value is below 2^width of that sub-field, and shifted back to its offset it is exactly the descriptor's bits in that range |
| DataSources.IsLoad | include/perfcpp/sample.h:21 | true exactly when the descriptor word has the `PERF_MEM_OP_LOAD` flag set at the `mem_op` offset |
| DataSources.IsStore | include/perfcpp/sample.h:26 | true exactly when the descriptor word has the `PERF_MEM_OP_STORE` flag set at the `mem_op` offset |
| DataSources.IsPrefetch | include/perfcpp/sample.h:31 | true exactly when the descriptor word has the `PERF_MEM_OP_PFETCH` flag set at the `mem_op` offset |
| DataSources.IsExec | include/perfcpp/sample.h:36 | true exactly when the descriptor word has the `PERF_MEM_OP_EXEC` flag set at the `mem_op` offset |
| DataSources.IsNa | include/perfcpp/sample.h:41 | true exactly when the descriptor word has the `PERF_MEM_OP_NA` flag set at the `mem_op` offset |
| DataSources.IsMemHit | include/perfcpp/sample.h:46 | true exactly when the descriptor word has the `PERF_MEM_LVL_HIT` flag set at the `mem_lvl` offset |
| DataSources.IsMemMiss | include/perfcpp/sample.h:51 | true exactly when the descriptor word has the `PERF_MEM_LVL_MISS` flag set at the `mem_lvl` offset |
| DataSources.IsMemL1 | include/perfcpp/sample.h:56 | true exactly when the descriptor's `mem_lvl_num` bit range holds the value `PERF_MEM_LVLNUM_L1` and nothing else |
| DataSources.IsMemLfb | include/perfcpp/sample.h:61 | true exactly when the descriptor's `mem_lvl_num` bit range holds the value `PERF_MEM_LVLNUM_LFB` and nothing else |
| DataSources.IsMemL2 | include/perfcpp/sample.h:66 | true exactly when the descriptor's `mem_lvl_num` bit range holds the value `PERF_MEM_LVLNUM_L2` and nothing else |
| DataSources.IsMemL3 | include/perfcpp/sample.h:71 | true exactly when the descriptor's `mem_lvl_num` bit range holds the value `PERF_MEM_LVLNUM_L3` and nothing else |
| DataSources.IsMemL4 | include/perfcpp/sample.h:76 | true exactly when the descriptor's `mem_lvl_num` bit range holds the value `PERF_MEM_LVLNUM_L4` and nothing else |
| DataSources.IsMemRam | include/perfcpp/sample.h:81 | true exactly when the descriptor's `mem_lvl_num` bit range holds the value `PERF_MEM_LVLNUM_RAM` and nothing else |
| DataSources.IsMemLocalRam | include/perfcpp/sample.h:86-89 | true exactly when the level number in the word is RAM and the remote bit is clear |
| DataSources.IsMemRemoteRam | include/perfcpp/sample.h:94-97 | true exactly when the level number in the word is RAM and the remote bit is set |
| DataSources.IsMemHops0 | include/perfcpp/sample.h:102 | true exactly when the descriptor's `mem_hops` bit range holds the value `PERF_MEM_HOPS_0` and nothing else |
| DataSources.IsMemHops1 | include/perfcpp/sample.h:107 | true exactly when the descriptor's `mem_hops` bit range holds the value `PERF_MEM_HOPS_1` and nothing else |
| DataSources.IsMemHops2 | include/perfcpp/sample.h:112 | true exactly when the descriptor's `mem_hops` bit range holds the value `PERF_MEM_HOPS_2` and nothing else |
| DataSources.IsMemHops3 | include/perfcpp/sample.h:117 | true exactly when the descriptor's `mem_hops` bit range holds the value `PERF_MEM_HOPS_3` and nothing else |
| DataSources.IsMemRemoteRam1 | include/perfcpp/sample.h:122 | true exactly when the word says RAM, remote, and hop level 1 (`PERF_MEM_HOPS_1`) |
| DataSources.IsMemRemoteRam2 | include/perfcpp/sample.h:127 | true exactly when the word says RAM, remote, and hop level 2 (`PERF_MEM_HOPS_2`) |
| DataSources.IsMemRemoteRam3 | include/perfcpp/sample.h:132 | true exactly when the word says RAM, remote, and hop level 3 (`PERF_MEM_HOPS_3`) |
| DataSources.IsMemRemoteCce1 | include/perfcpp/sample.h:137 | true exactly when the descriptor word has the `PERF_MEM_LVL_REM_CCE1` flag set at the `mem_lvl` offset |
| DataSources.IsMemRemoteCce2 | include/perfcpp/sample.h:142 | true exactly when the descriptor word has the `PERF_MEM_LVL_REM_CCE2` flag set at the `mem_lvl` offset |
| DataSources.IsPmem | include/perfcpp/sample.h:147 | true exactly when the descriptor's `mem_lvl_num` bit range holds the value `PERF_MEM_LVLNUM_PMEM` and nothing else |
| DataSources.IsCxl | include/perfcpp/sample.h:152 | true exactly when the descriptor's `mem_lvl_num` bit range holds the value `PERF_MEM_LVLNUM_CXL` and nothing else |
| DataSources.IsIo | include/perfcpp/sample.h:157 | true exactly when the descriptor's `mem_lvl_num` bit range holds the value `PERF_MEM_LVLNUM_IO` and nothing else |
| DataSources.IsTlbHit | include/perfcpp/sample.h:162 | true exactly when the descriptor word has the `PERF_MEM_TLB_HIT` flag set at the `mem_dtlb` offset |
| DataSources.IsTlbMiss | include/perfcpp/sample.h:167 | true exactly when the descriptor word has the `PERF_MEM_TLB_MISS` flag set at the `mem_dtlb` offset |
| DataSources.IsTlbL1 | include/perfcpp/sample.h:172 | true exactly when the descriptor word has the `PERF_MEM_TLB_L1` flag set at the `mem_dtlb` offset |
| DataSources.IsTlbL2 | include/perfcpp/sample.h:177 | true exactly when the descriptor word has the `PERF_MEM_TLB_L2` flag set at the `mem_dtlb` offset |
| DataSources.IsTlbWalk | include/perfcpp/sample.h:182 | true exactly when the descriptor word has the `PERF_MEM_TLB_WK` flag set at the `mem_dtlb` offset |
| DataSources.IsLocked | include/perfcpp/sample.h:187 | true exactly when the descriptor word has the `PERF_MEM_LOCK_LOCKED` flag set at the `mem_lock` offset |
| DataSources.IsDataBlocked | include/perfcpp/sample.h:192 | true exactly when the descriptor word has the `PERF_MEM_BLK_DATA` flag set at the `mem_blk` offset |
| DataSources.IsAddressBlocked | include/perfcpp/sample.h:197 | true exactly when the descriptor word has the `PERF_MEM_BLK_ADDR` flag set at the `mem_blk` offset |
| DataSources.IsSnoopHit | include/perfcpp/sample.h:202 | true exactly when the descriptor word has the `PERF_MEM_SNOOP_HIT` flag set at the `mem_snoop` offset |
| DataSources.IsSnoopMiss | include/perfcpp/sample.h:207 | true exactly when the descriptor word has the `PERF_MEM_SNOOP_MISS` flag set at the `mem_snoop` offset |
| DataSources.IsSnoopHitModified | include/perfcpp/sample.h:212 | true exactly when the descriptor word has the `PERF_MEM_SNOOP_HITM` flag set at the `mem_snoop` offset |
| DataSourceFacts.Fields | include/perfcpp/sample.h:217-292 | reading the descriptor through the kernel's bitfield struct gives a struct whose every member fits its width; the struct includes the reserved tail `mem_rsvd` (bits 46-63), for which the C++ class has no accessor |
| DataSourceFacts.FieldsFromFields | include/perfcpp/sample.h:217-292 | any well-formed struct packed into a word reads back member for member unchanged |
| DataSourceFacts.FromFieldsFields | include/perfcpp/sample.h:217-292 | any word read as a struct and packed again is the original word: the struct view loses no bit |
| DataSourceFacts.AtMostOneMatch | include/perfcpp/sample.h:56-81 | a value compared with pairwise distinct constants equals at most one of them (the shape shared by the level-number and hop predicates) |
| DataSourceFacts.LevelNumTestsAreMatches | include/perfcpp/sample.h:56-81 | the nine level-number predicates are precisely the comparisons of `lvl_num()` with L1, LFB, L2, L3, L4, RAM, PMEM, CXL and IO |
| DataSourceFacts.LevelNumbersDistinct | include/perfcpp/sample.h:147-157 | those nine kernel constants are pairwise distinct |
| DataSourceFacts.LevelNumTestsExclusive | include/perfcpp/sample.h:56-81 | for every descriptor at most one of `is_mem_l1`, `is_mem_lfb`, `is_mem_l2`, `is_mem_l3`, `is_mem_l4`, `is_mem_ram`, `is_pmem`, `is_cxl`, `is_io` holds |
| DataSourceFacts.UnnamedLevelNumMatchesNothing | include/perfcpp/sample.h:56-81 | a level number none of them names (any-cache, N/A, or any other code the source does not test) makes all nine false |
| DataSourceFacts.HopsTestsExclusive | include/perfcpp/sample.h:102-117 | for every descriptor at most one of `is_mem_hops0`..`is_mem_hops3` holds |
| DataSourceFacts.UnnamedHopsMatchesNothing | include/perfcpp/sample.h:102-117 | a hop level none of them tests (0, meaning not available, or 5-7) makes all four false |
| DataSourceFacts.RamIsLocalOrRemote | include/perfcpp/sample.h:81-97 | `is_mem_local_ram` and `is_mem_remote_ram` never both hold, and one of them holds exactly when `is_mem_ram` does |
| DataSourceFacts.RemoteRamByHops | include/perfcpp/sample.h:122-132 | `is_mem_remote_ramN` is `is_mem_remote_ram() && is_mem_hopsN()` for N = 1..3, and none of them holds together with `is_mem_local_ram` |
| DataSourceFacts.L2LoadTlbHitHops1Layout | include/perfcpp/sample.h:21-212 | the struct {load, L2 hit, TLB hit, level L2, hop level 1} packs to the word 0x1004_0800_0442 |
| DataSourceFacts.L2LoadTlbHitHops1Example | include/perfcpp/sample.h:21-212 | on that word exactly the load, hit, L2, TLB-hit and hops1 predicates hold and all other 33 of the 38 predicates are false |
| DataSourceIsolation.OpReadsOnlyItsBits | include/perfcpp/sample.h:217-220 | flipping any bits outside `mem_op` leaves `op()` unchanged |
| DataSourceIsolation.OpPredicatesReadOnlyOpBits | include/perfcpp/sample.h:21-41 | flipping any bits outside `mem_op` changes none of `is_load`, `is_store`, `is_prefetch`, `is_exec`, `is_na` |
| BranchEntries.BranchAccessors | include/perfcpp/sample.h:301-325 | each of the seven accessors returns exactly the matching constructor argument |
| Weights.Var2 | include/perfcpp/sample.h:355 | `var2()` is returned as 32 bits but is always below 2^16, the width it is stored in |
| Weights.Var3 | include/perfcpp/sample.h:356 | `var3()` is returned as 32 bits but is always below 2^16, the width it is stored in |
| Weights.LatencyOnly | include/perfcpp/sample.h:347-350 | the latency-only constructor reports the given latency and 0 for `var2` and `var3` |
| Weights.WeightAccessors | include/perfcpp/sample.h:340-356 | the three-value constructor's accessors `latency()`, `var2()` and `var3()` return the latency, `var2_w` and `var3_w` it was given |
| Weights.LatencyOnlyIsIndistinguishable | include/perfcpp/sample.h:347-361 | a latency-only weight equals a three-value weight with `var2_w = var3_w = 0`: no caller can tell them apart |
| Samples.SameFieldSamePresence | include/perfcpp/sample.h:421-457 | samples whose getter for a field agrees also agree on whether that field is present |
| Samples.SameFieldTransitive | include/perfcpp/sample.h:421-457 | agreement of one getter between samples is symmetric and transitive |
| Samples.Extensionality | include/perfcpp/sample.h:460-481 | two samples with the same mode and the same value in every getter are the same sample: the 21 optional members and the mode are all its state |
| Samples.NewSample | include/perfcpp/sample.h:377-381 | a freshly constructed sample reports the given mode and every optional field absent |
| Samples.SetSampleId | include/perfcpp/sample.h:383 | afterwards the getter `sample_id()` returns the value passed, and the mode and every other getter return what they did before |
| Samples.SetInstructionPointer | include/perfcpp/sample.h:384-387 | afterwards the getter `instruction_pointer()` returns the value passed, and the mode and every other getter return what they did before |
| Samples.SetProcessId | include/perfcpp/sample.h:388 | afterwards the getter `process_id()` returns the value passed, and the mode and every other getter return what they did before |
| Samples.SetThreadId | include/perfcpp/sample.h:389 | afterwards the getter `thread_id()` returns the value passed, and the mode and every other getter return what they did before |
| Samples.SetTimestamp | include/perfcpp/sample.h:390 | afterwards the getter `time()` returns the value passed, and the mode and every other getter return what they did before |
| Samples.SetLogicalMemoryAddress | include/perfcpp/sample.h:391-394 | afterwards the getter `logical_memory_address()` returns the value passed, and the mode and every other getter return what they did before |
| Samples.SetPhysicalMemoryAddress | include/perfcpp/sample.h:395-398 | afterwards the getter `physical_memory_address()` returns the value passed, and the mode and every other getter return what they did before |
| Samples.SetId | include/perfcpp/sample.h:399 | afterwards the getter `id()` returns the value passed, and the mode and every other getter return what they did before |
| Samples.SetCpuId | include/perfcpp/sample.h:400 | afterwards the getter `cpu_id()` returns the value passed, and the mode and every other getter return what they did before |
| Samples.SetPeriod | include/perfcpp/sample.h:401 | afterwards the getter `period()` returns the value passed, and the mode and every other getter return what they did before |
| Samples.SetCounterResult | include/perfcpp/sample.h:402 | afterwards the getter `counter_result()` returns the value passed, and the mode and every other getter return what they did before |
| Samples.SetDataSrc | include/perfcpp/sample.h:403 | afterwards the getter `data_src()` returns the value passed, and the mode and every other getter return what they did before |
| Samples.SetWeight | include/perfcpp/sample.h:404 | afterwards the getter `weight()` returns the value passed, and the mode and every other getter return what they did before |
| Samples.SetBranches | include/perfcpp/sample.h:405 | afterwards the getter `branches()` returns the value passed, and the mode and every other getter return what they did before |
| Samples.SetUserRegistersAbi | include/perfcpp/sample.h:406 | afterwards the getter `user_registers_abi()` returns the value passed, and the mode and every other getter return what they did before |
| Samples.SetUserRegisters | include/perfcpp/sample.h:407-410 | afterwards the getter `user_registers()` returns the value passed, and the mode and every other getter return what they did before |
| Samples.SetKernelRegistersAbi | include/perfcpp/sample.h:411 | afterwards the getter `kernel_registers_abi()` returns the value passed, and the mode and every other getter return what they did before |
| Samples.SetKernelRegisters | include/perfcpp/sample.h:412-415 | afterwards the getter `kernel_registers()` returns the value passed, and the mode and every other getter return what they did before |
| Samples.SetCallchain | include/perfcpp/sample.h:416 | afterwards the getter `callchain()` returns the value passed, and the mode and every other getter return what they did before |
| Samples.SetDataPageSize | include/perfcpp/sample.h:417 | afterwards the getter `data_page_size()` returns the value passed, and the mode and every other getter return what they did before |
| Samples.SetCodePageSize | include/perfcpp/sample.h:418 | afterwards the getter `code_page_size()` returns the value passed, and the mode and every other getter return what they did before |
| Samples.AssignBranches | include/perfcpp/sample.h:441 | assigning through the mutable `branches()` reference leaves exactly the assigned option there (present or absent) and changes no other field and not the mode |
| Samples.AssignUserRegisters | include/perfcpp/sample.h:447 | assigning through the mutable `user_registers()` reference leaves exactly the assigned option there (present or absent) and changes no other field and not the mode |
| Samples.AssignKernelRegisters | include/perfcpp/sample.h:453 | assigning through the mutable `kernel_registers()` reference leaves exactly the assigned option there (present or absent) and changes no other field and not the mode |
| Samples.AssignCallchain | include/perfcpp/sample.h:455 | assigning through the mutable `callchain()` reference leaves exactly the assigned option there (present or absent) and changes no other field and not the mode |
| SampleUpdates.ApplyContract | include/perfcpp/sample.h:383-418 | any single setter or reference assignment changes at most its own field and not the mode; a setter leaves its field present; only the four reference fields can be cleared |
| SampleUpdates.ApplyWritesOwnValue | include/perfcpp/sample.h:383-418 | what a call leaves in its field depends only on the call, not on the sample it is made on |
| SampleUpdates.ApplyKeepsPresence | include/perfcpp/sample.h:383-418 | a present field that has no mutable reference stays present through any call |
| SampleUpdates.LaterCallOverrides | include/perfcpp/sample.h:383-418 | two calls on the same field in a row have the effect of the second alone |
| SampleUpdates.CallsOnDifferentFieldsCommute | include/perfcpp/sample.h:383-418 | calls on different fields give the same sample in either order |
| SampleUpdates.ApplyAll | include/perfcpp/sample.h:383-420 | after any sequence of calls the mode is the constructed one, and a field without a mutable reference that was present is still present |
| SampleUpdates.ApplyAllAppend | include/perfcpp/sample.h:383-418 | making calls `a` then `b` is the same as making the calls `a + b` |
| SampleUpdates.ApplyAllFrame | include/perfcpp/sample.h:383-418 | a field that no call in a sequence targets keeps its value |
| SampleUpdates.LastWriteWins | include/perfcpp/sample.h:383-457 | after `pre`, a call `u` and then calls on other fields, `u`'s field holds exactly what `u` wrote, whatever `pre` did |
| SampleUpdates.SetterMakesPresent | include/perfcpp/sample.h:377-418 | from a fresh sample, after any calls including a setter on a field with no mutable reference, that field is present and the mode is the constructed one |

## Left out

- The sampler lifecycle, ring-buffer draining, raw record parsing and
  lost-sample accounting are not part of this model. Their source is outside
  `sample.h`, and they rest on `mmap`, system calls and atomics shared with a
  concurrent kernel producer.
- `examples/address_sampling.cpp` is not modelled. It is a demonstration
  program: a benchmark loop, console output, and start/stop calls against
  kernel resources.
- `CounterResult` (from `counter.h`) is not part of this model. Its values are
  an opaque type parameter `C`, and only stored and compared.
- The `reinterpret_cast` onto the kernel bitfield struct, and its dependence on
  the host's bitfield layout and endianness, are not modelled. Explicit
  shifts and masks in the layout of `linux/perf_event.h` stand in for them.
- Move semantics, `noexcept`, `[[nodiscard]]` and the C++ destructor are not
  modelled, because they carry no behaviour beyond ownership. Moving a vector
  into a setter is modelled as passing a value.
- The `const` and non-`const` overloads of the four reference getters are not
  separate members. Reading is the datatype destructor; writing through the
  reference is the `Assign*` update.
