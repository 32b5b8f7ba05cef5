/**
 * Sequences of calls on one sample, as the code that fills a sample makes
 * them: every setter, and every assignment through a mutable reference.
 * No call changes the mode, a call touches only its own field, the last
 * call on a field decides its value, and a field made present by a setter
 * stays present unless it is one the source exposes by mutable reference.
 */
module SampleUpdates {
  import opened Ints
  import opened Optional
  import opened Samples

  /** One call on a sample. */
  datatype Update<C> =
    | SetSampleIdTo(u64)
    | SetInstructionPointerTo(u64)
    | SetProcessIdTo(u32)
    | SetThreadIdTo(u32)
    | SetTimeTo(u64)
    | SetLogicalMemoryAddressTo(u64)
    | SetPhysicalMemoryAddressTo(u64)
    | SetIdTo(u64)
    | SetCpuIdTo(u32)
    | SetPeriodTo(u64)
    | SetCounterResultTo(C)
    | SetDataSrcTo(DataSource)
    | SetWeightTo(Weight)
    | SetBranchesTo(seq<Branch>)
    | SetUserRegistersAbiTo(u64)
    | SetUserRegistersTo(seq<u64>)
    | SetKernelRegistersTo(seq<u64>)
    | SetKernelRegistersAbiTo(u64)
    | SetCallchainTo(seq<u64>)
    | SetDataPageSizeTo(u64)
    | SetCodePageSizeTo(u64)
    | AssignBranchesTo(Option<seq<Branch>>)
    | AssignUserRegistersTo(Option<seq<u64>>)
    | AssignKernelRegistersTo(Option<seq<u64>>)
    | AssignCallchainTo(Option<seq<u64>>)

  /** The field a call writes. */
  function Target<C>(u: Update<C>): Field {
    match u
    case SetSampleIdTo(_) => SampleId
    case SetInstructionPointerTo(_) => InstructionPointer
    case SetProcessIdTo(_) => ProcessId
    case SetThreadIdTo(_) => ThreadId
    case SetTimeTo(_) => Time
    case SetLogicalMemoryAddressTo(_) => LogicalMemoryAddress
    case SetPhysicalMemoryAddressTo(_) => PhysicalMemoryAddress
    case SetIdTo(_) => Id
    case SetCpuIdTo(_) => CpuId
    case SetPeriodTo(_) => Period
    case SetCounterResultTo(_) => CounterResult
    case SetDataSrcTo(_) => DataSrc
    case SetWeightTo(_) => Weight
    case SetBranchesTo(_) => Branches
    case SetUserRegistersAbiTo(_) => UserRegistersAbi
    case SetUserRegistersTo(_) => UserRegisters
    case SetKernelRegistersTo(_) => KernelRegisters
    case SetKernelRegistersAbiTo(_) => KernelRegistersAbi
    case SetCallchainTo(_) => Callchain
    case SetDataPageSizeTo(_) => DataPageSize
    case SetCodePageSizeTo(_) => CodePageSize
    case AssignBranchesTo(_) => Branches
    case AssignUserRegistersTo(_) => UserRegisters
    case AssignKernelRegistersTo(_) => KernelRegisters
    case AssignCallchainTo(_) => Callchain
  }

  /** Whether the call is a setter (as opposed to an assignment through a reference). */
  predicate IsSetter<C>(u: Update<C>) {
    !u.AssignBranchesTo?
    && !u.AssignUserRegistersTo?
    && !u.AssignKernelRegistersTo?
    && !u.AssignCallchainTo?
  }

  /** Performs one call. Its contract is `ApplyContract`. */
  function Apply<C(==)>(s: Sample<C>, u: Update<C>): Sample<C> {
    match u
    case SetSampleIdTo(v) => SetSampleId(s, v)
    case SetInstructionPointerTo(v) => SetInstructionPointer(s, v)
    case SetProcessIdTo(v) => SetProcessId(s, v)
    case SetThreadIdTo(v) => SetThreadId(s, v)
    case SetTimeTo(v) => SetTimestamp(s, v)
    case SetLogicalMemoryAddressTo(v) => SetLogicalMemoryAddress(s, v)
    case SetPhysicalMemoryAddressTo(v) => SetPhysicalMemoryAddress(s, v)
    case SetIdTo(v) => SetId(s, v)
    case SetCpuIdTo(v) => SetCpuId(s, v)
    case SetPeriodTo(v) => SetPeriod(s, v)
    case SetCounterResultTo(v) => SetCounterResult(s, v)
    case SetDataSrcTo(v) => SetDataSrc(s, v)
    case SetWeightTo(v) => SetWeight(s, v)
    case SetBranchesTo(v) => SetBranches(s, v)
    case SetUserRegistersAbiTo(v) => SetUserRegistersAbi(s, v)
    case SetUserRegistersTo(v) => SetUserRegisters(s, v)
    case SetKernelRegistersTo(v) => SetKernelRegisters(s, v)
    case SetKernelRegistersAbiTo(v) => SetKernelRegistersAbi(s, v)
    case SetCallchainTo(v) => SetCallchain(s, v)
    case SetDataPageSizeTo(v) => SetDataPageSize(s, v)
    case SetCodePageSizeTo(v) => SetCodePageSize(s, v)
    case AssignBranchesTo(o) => AssignBranches(s, o)
    case AssignUserRegistersTo(o) => AssignUserRegisters(s, o)
    case AssignKernelRegistersTo(o) => AssignKernelRegisters(s, o)
    case AssignCallchainTo(o) => AssignCallchain(s, o)
  }

  /**
   * One call changes only its target, and a setter makes its target present.
   * The proof is split over groups of calls to keep each obligation small.
   */
  lemma ApplyContract<C>(s: Sample<C>, u: Update<C>)
    ensures OnlyChanged(s, Apply(s, u), Target(u))
    ensures IsSetter(u) ==> Present(Apply(s, u), Target(u))
    ensures !IsSetter(u) ==> Reassignable(Target(u))
  {
    if u.SetSampleIdTo?
        || u.SetInstructionPointerTo?
        || u.SetProcessIdTo?
        || u.SetThreadIdTo?
        || u.SetTimeTo?
        || u.SetLogicalMemoryAddressTo? {
      ApplyContractPart1(s, u);
    } else if u.SetPhysicalMemoryAddressTo?
        || u.SetIdTo?
        || u.SetCpuIdTo?
        || u.SetPeriodTo?
        || u.SetCounterResultTo?
        || u.SetDataSrcTo? {
      ApplyContractPart2(s, u);
    } else if u.SetWeightTo?
        || u.SetBranchesTo?
        || u.SetUserRegistersAbiTo?
        || u.SetUserRegistersTo?
        || u.SetKernelRegistersTo?
        || u.SetKernelRegistersAbiTo? {
      ApplyContractPart3(s, u);
    } else {
      ApplyContractPart4(s, u);
    }
  }

  lemma ApplyContractPart1<C>(s: Sample<C>, u: Update<C>)
    requires u.SetSampleIdTo?
      || u.SetInstructionPointerTo?
      || u.SetProcessIdTo?
      || u.SetThreadIdTo?
      || u.SetTimeTo?
      || u.SetLogicalMemoryAddressTo?
    ensures OnlyChanged(s, Apply(s, u), Target(u))
    ensures IsSetter(u) ==> Present(Apply(s, u), Target(u))
    ensures !IsSetter(u) ==> Reassignable(Target(u))
  {
  }

  lemma ApplyContractPart2<C>(s: Sample<C>, u: Update<C>)
    requires u.SetPhysicalMemoryAddressTo?
      || u.SetIdTo?
      || u.SetCpuIdTo?
      || u.SetPeriodTo?
      || u.SetCounterResultTo?
      || u.SetDataSrcTo?
    ensures OnlyChanged(s, Apply(s, u), Target(u))
    ensures IsSetter(u) ==> Present(Apply(s, u), Target(u))
    ensures !IsSetter(u) ==> Reassignable(Target(u))
  {
  }

  lemma ApplyContractPart3<C>(s: Sample<C>, u: Update<C>)
    requires u.SetWeightTo?
      || u.SetBranchesTo?
      || u.SetUserRegistersAbiTo?
      || u.SetUserRegistersTo?
      || u.SetKernelRegistersTo?
      || u.SetKernelRegistersAbiTo?
    ensures OnlyChanged(s, Apply(s, u), Target(u))
    ensures IsSetter(u) ==> Present(Apply(s, u), Target(u))
    ensures !IsSetter(u) ==> Reassignable(Target(u))
  {
  }

  lemma ApplyContractPart4<C>(s: Sample<C>, u: Update<C>)
    requires u.SetCallchainTo?
      || u.SetDataPageSizeTo?
      || u.SetCodePageSizeTo?
      || u.AssignBranchesTo?
      || u.AssignUserRegistersTo?
      || u.AssignKernelRegistersTo?
      || u.AssignCallchainTo?
    ensures OnlyChanged(s, Apply(s, u), Target(u))
    ensures IsSetter(u) ==> Present(Apply(s, u), Target(u))
    ensures !IsSetter(u) ==> Reassignable(Target(u))
  {
  }

  /** What a call leaves in its target does not depend on the sample it is applied to. */
  lemma ApplyWritesOwnValue<C>(s: Sample<C>, t: Sample<C>, u: Update<C>)
    ensures SameField(Apply(s, u), Apply(t, u), Target(u))
  {
  }

  /** A field made present stays present through a call, unless the call may clear it. */
  lemma ApplyKeepsPresence<C>(s: Sample<C>, u: Update<C>, f: Field)
    requires Present(s, f) && !Reassignable(f)
    ensures Present(Apply(s, u), f)
  {
    ApplyContract(s, u);
    if f != Target(u) {
      SameFieldSamePresence(s, Apply(s, u), f);
    }
  }

  /** A second call on the same field overrides the first entirely. */
  lemma LaterCallOverrides<C>(s: Sample<C>, u: Update<C>, v: Update<C>)
    requires Target(u) == Target(v)
    ensures Apply(Apply(s, u), v) == Apply(s, v)
  {
    var a, b := Apply(Apply(s, u), v), Apply(s, v);
    ApplyContract(s, u);
    ApplyContract(Apply(s, u), v);
    ApplyContract(s, v);
    ApplyWritesOwnValue(Apply(s, u), s, v);
    Extensionality(a, b);
  }

  /** Calls on different fields commute. */
  lemma CallsOnDifferentFieldsCommute<C>(s: Sample<C>, u: Update<C>, v: Update<C>)
    requires Target(u) != Target(v)
    ensures Apply(Apply(s, u), v) == Apply(Apply(s, v), u)
  {
    var su, sv := Apply(s, u), Apply(s, v);
    var a, b := Apply(su, v), Apply(sv, u);
    ApplyContract(s, u);
    ApplyContract(su, v);
    ApplyContract(s, v);
    ApplyContract(sv, u);
    ApplyWritesOwnValue(s, sv, u);
    ApplyWritesOwnValue(su, s, v);
    forall f: Field
      ensures SameField(a, b, f)
    {
      CommuteAt(s, su, sv, a, b, Target(u), Target(v), f);
    }
    Extensionality(a, b);
  }

  /**
   * The field-by-field step of `CallsOnDifferentFieldsCommute`: `a` is `s`
   * changed at `tu` then at `tv`, `b` is `s` changed at `tv` then at `tu`,
   * and each order writes the same values.
   */
  lemma CommuteAt<C>(s: Sample<C>, su: Sample<C>, sv: Sample<C>, a: Sample<C>, b: Sample<C>,
                     tu: Field, tv: Field, f: Field)
    requires tu != tv
    requires OnlyChanged(s, su, tu) && OnlyChanged(su, a, tv)
    requires OnlyChanged(s, sv, tv) && OnlyChanged(sv, b, tu)
    requires SameField(su, b, tu) && SameField(a, sv, tv)
    ensures SameField(a, b, f)
  {
    if f == tu {
      SameFieldTransitive(a, su, b, f);
    } else if f == tv {
      SameFieldTransitive(a, sv, b, f);
    } else {
      SameFieldTransitive(a, su, s, f);
      SameFieldTransitive(a, s, sv, f);
      SameFieldTransitive(a, sv, b, f);
    }
  }

  /** Performs a sequence of calls in order. Whatever the calls, the mode stays the same. */
  function ApplyAll<C(==)>(s: Sample<C>, us: seq<Update<C>>): (r: Sample<C>)
    ensures r.mode == s.mode
    ensures forall f: Field :: Present(s, f) && !Reassignable(f) ==> Present(r, f)
    decreases |us|
  {
    if |us| == 0 then s
    else
      ApplyContract(s, us[0]);
      assert forall f: Field :: Present(s, f) && !Reassignable(f) ==> Present(Apply(s, us[0]), f) by {
        forall f: Field | Present(s, f) && !Reassignable(f) {
          ApplyKeepsPresence(s, us[0], f);
        }
      }
      ApplyAll(Apply(s, us[0]), us[1..])
  }

  /** Performing `a` then `b` is performing `a + b`. */
  lemma {:induction false} ApplyAllAppend<C>(s: Sample<C>, a: seq<Update<C>>, b: seq<Update<C>>)
    ensures ApplyAll(s, a + b) == ApplyAll(ApplyAll(s, a), b)
    decreases |a|
  {
    if |a| == 0 {
      assert a + b == b;
    } else {
      assert (a + b)[0] == a[0];
      assert (a + b)[1..] == a[1..] + b;
      ApplyAllAppend(Apply(s, a[0]), a[1..], b);
    }
  }

  /** A field no call targets keeps its value. */
  lemma {:induction false} ApplyAllFrame<C>(s: Sample<C>, us: seq<Update<C>>, f: Field)
    requires forall i :: 0 <= i < |us| ==> Target(us[i]) != f
    ensures SameField(s, ApplyAll(s, us), f)
    decreases |us|
  {
    if |us| > 0 {
      var t := Apply(s, us[0]);
      ApplyContract(s, us[0]);
      assert SameField(s, t, f);
      ApplyAllFrame(t, us[1..], f);
      SameFieldTransitive(s, t, ApplyAll(t, us[1..]), f);
    }
  }

  /**
   * Last write wins: after `pre`, then `u`, then calls that leave `u`'s field
   * alone, that field holds exactly what `u` writes, whatever came before.
   */
  lemma LastWriteWins<C>(s: Sample<C>, pre: seq<Update<C>>, u: Update<C>, post: seq<Update<C>>)
    requires forall i :: 0 <= i < |post| ==> Target(post[i]) != Target(u)
    ensures SameField(ApplyAll(s, pre + [u] + post), Apply(s, u), Target(u))
  {
    var mid := ApplyAll(s, pre);
    ApplyAllAppend(s, pre + [u], post);
    ApplyAllAppend(s, pre, [u]);
    assert ApplyAll(mid, [u]) == Apply(mid, u);
    ApplyAllFrame(Apply(mid, u), post, Target(u));
    ApplyWritesOwnValue(mid, s, u);
  }

  /** From a fresh sample, after any calls the mode is the original one, and a setter's field is present. */
  lemma SetterMakesPresent<C>(mode: Mode, pre: seq<Update<C>>, u: Update<C>, post: seq<Update<C>>)
    requires IsSetter(u) && !Reassignable(Target(u))
    ensures var r := ApplyAll(NewSample(mode), pre + [u] + post);
      r.mode == mode && Present(r, Target(u))
  {
    var s: Sample<C> := NewSample(mode);
    var mid := ApplyAll(s, pre);
    ApplyAllAppend(s, pre + [u], post);
    ApplyAllAppend(s, pre, [u]);
    assert ApplyAll(mid, [u]) == Apply(mid, u);
    ApplyContract(mid, u);
  }
}
