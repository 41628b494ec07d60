/**
 * The code-dump bridge of the tracer: `loadKernelCode` asks a BPF program, hooked to the
 * `sys_enter_bpf` tracepoint, to copy the first bytes of a kernel function into a map, and
 * reads them back. Kernel-side state is modelled by `KernelState`: slot 0 of the two maps
 * (`codedump_addr` and `codedump_code`) and the three objects the call creates and releases
 * (the raised memlock limit, the loaded program, the tracepoint attachment).
 */
module Codedump {
  import opened Base

  /** The kernel interactions of `loadKernelCode`, in the order it performs them. */
  datatype Step =
    | WriteAddr         // codedump_addr[0] := address
    | RaiseMemlock      // raise RLIMIT_MEMLOCK
    | LoadProgram       // load tracepoint__sys_enter_bpf
    | AttachTracepoint  // attach it to syscalls/sys_enter_bpf
    | LookupCode        // read codedump_code[0]
    | ClearCode         // codedump_code[0] := 0

  /** The error `loadKernelCode` returns: which kernel interaction failed. */
  datatype CodedumpError = CodedumpError(failed: Step)

  /**
   * What the kernel does that the tracer cannot see: the contents of kernel memory, and
   * which of the interactions the kernel refuses (a step fails exactly when it is in `failing`).
   */
  datatype Environment = Environment(memory: int -> uint8, failing: set<Step>)

  /** The observable effects of one extraction, in the order they happen. */
  datatype Event =
    | AddrWritten(address: uint64)
    | MemlockRaised
    | ProgramLoaded
    | ProbeAttached
    | ProbeFired(from: uint64)
    | CodeRead
    | CodeCleared
    | ProbeDetached
    | ProgramClosed
    | MemlockRestored

  /** The `n` bytes of kernel memory starting at `address`: what one firing of the probe copies. */
  function KernelBytes(memory: int -> uint8, address: uint64, n: nat): seq<uint8>
  {
    seq(n, i requires 0 <= i < n => memory(address as int + i))
  }

  /** A code slot holding only zero bytes. */
  function Zeros(n: nat): seq<uint8>
  {
    seq(n, _ => 0)
  }

  /** Position of a step in the order `loadKernelCode` attempts them. */
  function Rank(s: Step): nat
  {
    match s
    case WriteAddr => 0
    case RaiseMemlock => 1
    case LoadProgram => 2
    case AttachTracepoint => 3
    case LookupCode => 4
    case ClearCode => 5
  }

  /** True when every step up to and including the tracepoint attachment succeeds, so the probe runs. */
  predicate ProbeRuns(env: Environment)
  {
    WriteAddr !in env.failing && RaiseMemlock !in env.failing &&
    LoadProgram !in env.failing && AttachTracepoint !in env.failing
  }

  /**
   * What `loadKernelCode` returns for `address` when the code slot is `n` bytes wide:
   * the error of the first interaction that fails, or the `n` bytes at `address`.
   */
  function KernelCode(env: Environment, address: uint64, n: nat): (r: Result<seq<uint8>, CodedumpError>)
    ensures r.Ok? <==> forall s :: s !in env.failing
    ensures r.Ok? ==> |r.value| == n && r.value == KernelBytes(env.memory, address, n)
    ensures r.Err? ==> r.error.failed in env.failing
    ensures r.Err? ==> forall s :: Rank(s) < Rank(r.error.failed) ==> s !in env.failing
  {
    if WriteAddr in env.failing then Err(CodedumpError(WriteAddr))
    else if RaiseMemlock in env.failing then Err(CodedumpError(RaiseMemlock))
    else if LoadProgram in env.failing then Err(CodedumpError(LoadProgram))
    else if AttachTracepoint in env.failing then Err(CodedumpError(AttachTracepoint))
    else if LookupCode in env.failing then Err(CodedumpError(LookupCode))
    else if ClearCode in env.failing then Err(CodedumpError(ClearCode))
    else
      NoStepFails(env);
      Ok(KernelBytes(env.memory, address, n))
  }

  lemma NoStepFails(env: Environment)
    requires WriteAddr !in env.failing && RaiseMemlock !in env.failing && LoadProgram !in env.failing
    requires AttachTracepoint !in env.failing && LookupCode !in env.failing && ClearCode !in env.failing
    ensures forall s :: s !in env.failing
  {
    forall s ensures s !in env.failing {
      match s
      case WriteAddr =>
      case RaiseMemlock =>
      case LoadProgram =>
      case AttachTracepoint =>
      case LookupCode =>
      case ClearCode =>
    }
  }

  /** The address slot after `loadKernelCode(address)`: written unless the write itself failed. */
  function AddrSlotAfter(env: Environment, address: uint64, before: uint64): uint64
  {
    if WriteAddr in env.failing then before else address
  }

  /**
   * The code slot after `loadKernelCode(address)`: untouched when the probe never ran,
   * zero after a full success, and holding the dump when the lookup or the clear failed.
   */
  function CodeSlotAfter(env: Environment, address: uint64, before: seq<uint8>, n: nat): seq<uint8>
  {
    if !ProbeRuns(env) then before
    else if LookupCode in env.failing || ClearCode in env.failing then KernelBytes(env.memory, address, n)
    else Zeros(n)
  }

  /**
   * The events of one `loadKernelCode(address)`. Each acquisition opens a scope that its
   * deferred release closes, so the trace nests exactly as the defers do.
   */
  function ExtractionTrace(env: Environment, a: uint64): seq<Event>
  {
    if WriteAddr in env.failing then []
    else if RaiseMemlock in env.failing then [AddrWritten(a)]
    else [AddrWritten(a), MemlockRaised] + ProgramTrace(env, a) + [MemlockRestored]
  }

  /** The events while the memlock limit is raised: program load up to its close. */
  function ProgramTrace(env: Environment, a: uint64): seq<Event>
  {
    if LoadProgram in env.failing then []
    else [ProgramLoaded] + AttachedTrace(env, a) + [ProgramClosed]
  }

  /** The events while the program is loaded: attachment up to detachment. */
  function AttachedTrace(env: Environment, a: uint64): seq<Event>
  {
    if AttachTracepoint in env.failing then []
    else if LookupCode in env.failing then [ProbeAttached, ProbeFired(a), ProbeDetached]
    else if ClearCode in env.failing then [ProbeAttached, ProbeFired(a), CodeRead, ProbeFired(a), ProbeDetached]
    else [ProbeAttached, ProbeFired(a), CodeRead, ProbeFired(a), CodeCleared, ProbeDetached]
  }

  class KernelState {
    /** Value size of `codedump_code`: the dump length. */
    const codeSize: nat
    /** Slot 0 of `codedump_addr`. */
    var addrSlot: uint64
    /** Slot 0 of `codedump_code`. */
    var codeSlot: seq<uint8>
    var memlockRaised: bool
    var programLoaded: bool
    var probeAttached: bool
    /** Everything that happened to this state, oldest first. */
    ghost var log: seq<Event>

    ghost predicate Valid()
      reads this
    {
      |codeSlot| == codeSize
    }

    /** No extraction is in progress: nothing is raised, loaded or attached. */
    ghost predicate Idle()
      reads this
    {
      !memlockRaised && !programLoaded && !probeAttached
    }

    /**
     * A fresh pair of maps with a `codeSize`-byte code slot. Both slots start at zero (a choice
     * of this model), and nothing is raised, loaded or attached.
     */
    constructor (codeSize: nat)
      ensures Valid() && Idle()
      ensures this.codeSize == codeSize && addrSlot == 0 && codeSlot == Zeros(codeSize) && log == []
    {
      this.codeSize := codeSize;
      addrSlot := 0;
      codeSlot := Zeros(codeSize);
      memlockRaised, programLoaded, probeAttached := false, false, false;
      log := [];
    }

    /**
     * The entry of a bpf() syscall. While the program is attached to `sys_enter_bpf` it runs
     * here, before the syscall's own work, copying `codeSize` bytes from the address in the
     * address slot into the code slot. Any number of extra firings leave the same bytes.
     */
    method EnterBpfSyscall(env: Environment)
      requires Valid()
      modifies this`codeSlot, this`log
      ensures Valid()
      ensures codeSlot == if probeAttached then KernelBytes(env.memory, addrSlot, codeSize) else old(codeSlot)
      ensures log == if probeAttached then old(log) + [ProbeFired(addrSlot)] else old(log)
    {
      if probeAttached {
        codeSlot := KernelBytes(env.memory, addrSlot, codeSize);
        log := log + [ProbeFired(addrSlot)];
      }
    }
  }

  /**
   * `loadKernelCode`: dump the first `k.codeSize` bytes of kernel memory at `functionAddress`.
   * The address is written before anything else; the raised memlock limit is restored on
   * every path out once it was raised (the first deferred cleanup).
   */
  method LoadKernelCode(k: KernelState, env: Environment, functionAddress: uint64)
    returns (r: Result<seq<uint8>, CodedumpError>)
    requires k.Valid() && k.Idle()
    modifies k
    ensures k.Valid() && k.Idle()
    ensures r == KernelCode(env, functionAddress, k.codeSize)
    ensures k.addrSlot == AddrSlotAfter(env, functionAddress, old(k.addrSlot))
    ensures k.codeSlot == CodeSlotAfter(env, functionAddress, old(k.codeSlot), k.codeSize)
    ensures k.log == old(k.log) + ExtractionTrace(env, functionAddress)
  {
    k.EnterBpfSyscall(env);
    if WriteAddr in env.failing {
      return Err(CodedumpError(WriteAddr));
    }
    k.addrSlot, k.log := functionAddress, k.log + [AddrWritten(functionAddress)];

    if RaiseMemlock in env.failing {
      return Err(CodedumpError(RaiseMemlock));
    }
    k.memlockRaised, k.log := true, k.log + [MemlockRaised];
    ghost var before := k.log;
    r := LoadProgramAndDump(k, env);
    k.memlockRaised, k.log := false, k.log + [MemlockRestored];
    assert k.log == before + ProgramTrace(env, functionAddress) + [MemlockRestored];
  }

  /**
   * The part of `loadKernelCode` that runs with the memlock limit raised: load the program,
   * dump through it, and close it on every path out once it was loaded.
   */
  method LoadProgramAndDump(k: KernelState, env: Environment) returns (r: Result<seq<uint8>, CodedumpError>)
    requires k.Valid() && k.memlockRaised && !k.programLoaded && !k.probeAttached
    requires WriteAddr !in env.failing && RaiseMemlock !in env.failing
    modifies k`codeSlot, k`programLoaded, k`probeAttached, k`log
    ensures k.Valid() && !k.programLoaded && !k.probeAttached
    ensures r == KernelCode(env, k.addrSlot, k.codeSize)
    ensures k.codeSlot == CodeSlotAfter(env, k.addrSlot, old(k.codeSlot), k.codeSize)
    ensures k.log == old(k.log) + ProgramTrace(env, k.addrSlot)
  {
    k.EnterBpfSyscall(env);
    if LoadProgram in env.failing {
      return Err(CodedumpError(LoadProgram));
    }
    k.programLoaded, k.log := true, k.log + [ProgramLoaded];
    ghost var before := k.log;
    r := AttachAndDump(k, env);
    k.programLoaded, k.log := false, k.log + [ProgramClosed];
    assert k.log == before + AttachedTrace(env, k.addrSlot) + [ProgramClosed];
  }

  /**
   * The part of `loadKernelCode` that runs with the program loaded: attach it to
   * `sys_enter_bpf`, read the code slot, clear it, and detach on every path out once attached.
   * The lookup and the clear are bpf() syscalls, so the probe fires at the entry of each.
   */
  method AttachAndDump(k: KernelState, env: Environment) returns (r: Result<seq<uint8>, CodedumpError>)
    requires k.Valid() && k.programLoaded && !k.probeAttached
    requires WriteAddr !in env.failing && RaiseMemlock !in env.failing && LoadProgram !in env.failing
    modifies k`codeSlot, k`probeAttached, k`log
    ensures k.Valid() && !k.probeAttached
    ensures r == KernelCode(env, k.addrSlot, k.codeSize)
    ensures k.codeSlot == CodeSlotAfter(env, k.addrSlot, old(k.codeSlot), k.codeSize)
    ensures k.log == old(k.log) + AttachedTrace(env, k.addrSlot)
  {
    if AttachTracepoint in env.failing {
      return Err(CodedumpError(AttachTracepoint));
    }
    k.probeAttached, k.log := true, k.log + [ProbeAttached];

    k.EnterBpfSyscall(env);
    if LookupCode in env.failing {
      k.probeAttached, k.log := false, k.log + [ProbeDetached];
      return Err(CodedumpError(LookupCode));
    }
    var codeDump := k.codeSlot;
    k.log := k.log + [CodeRead];

    k.EnterBpfSyscall(env);
    if ClearCode in env.failing {
      k.probeAttached, k.log := false, k.log + [ProbeDetached];
      return Err(CodedumpError(ClearCode));
    }
    k.codeSlot, k.log := Zeros(k.codeSize), k.log + [CodeCleared];

    k.probeAttached, k.log := false, k.log + [ProbeDetached];
    return Ok(codeDump);
  }

  /**
   * Two extractions in a row from the same maps: each returns what the kernel held at its
   * own time, so bytes left by the first attempt never reach the second.
   */
  method ExtractTwice(k: KernelState, first: Environment, second: Environment, address: uint64)
    returns (r1: Result<seq<uint8>, CodedumpError>, r2: Result<seq<uint8>, CodedumpError>)
    requires k.Valid() && k.Idle()
    modifies k
    ensures k.Valid() && k.Idle()
    ensures r1 == KernelCode(first, address, k.codeSize) && r2 == KernelCode(second, address, k.codeSize)
    ensures r2.Ok? ==> r2.value == KernelBytes(second.memory, address, k.codeSize)
    ensures first == second ==> r1 == r2
  {
    r1 := LoadKernelCode(k, first, address);
    r2 := LoadKernelCode(k, second, address);
  }

  /**
   * Ordering of one extraction: the address is written first and only once, before the
   * program is loaded and attached, and every read of the code slot directly follows a
   * firing of the probe from that address.
   */
  lemma AddressWrittenBeforeRead(env: Environment, a: uint64)
    ensures var t := ExtractionTrace(env, a);
      && (t != [] ==> t[0] == AddrWritten(a))
      && (forall j :: 0 < j < |t| ==> !t[j].AddrWritten?)
      && (forall i, j :: 0 <= i < |t| && 0 <= j < |t| && t[i] == AddrWritten(a) && t[j] == ProgramLoaded ==> i < j)
      && (forall i, j :: 0 <= i < |t| && 0 <= j < |t| && t[i] == AddrWritten(a) && t[j] == ProbeAttached ==> i < j)
      && (forall j :: 0 <= j < |t| && t[j] == CodeRead ==> 0 < j && t[j - 1] == ProbeFired(a))
      && (forall j :: 0 <= j < |t| ==> (t[j].ProbeFired? ==> t[j].from == a))
  {
  }

  /**
   * Scoped release: every resource acquired is also released, on every path,
   * and once the memlock limit was raised, restoring it is the last thing that happens.
   */
  lemma ResourcesReleased(env: Environment, a: uint64)
    ensures var t := ExtractionTrace(env, a);
      && (MemlockRaised in t <==> MemlockRestored in t)
      && (ProgramLoaded in t <==> ProgramClosed in t)
      && (ProbeAttached in t <==> ProbeDetached in t)
    ensures var t := ExtractionTrace(env, a);
      MemlockRaised in t ==> t[|t| - 1] == MemlockRestored
  {
  }

  /** The probe is detached, and the program closed, only after the code slot was read. */
  lemma ReleasedAfterRead(env: Environment, a: uint64)
    ensures var t := ExtractionTrace(env, a);
      forall i, j :: 0 <= i < |t| && 0 <= j < |t| && t[i] == CodeRead && t[j] == ProbeDetached ==> i < j
    ensures var t := ExtractionTrace(env, a);
      forall i, j :: 0 <= i < |t| && 0 <= j < |t| && t[i] == CodeRead && t[j] == ProgramClosed ==> i < j
  {
  }

  /**
   * No partial result: a successful extraction returns exactly the dump and leaves the code
   * slot zeroed and the address slot holding the address; a failed one returns nothing.
   */
  lemma SuccessClearsCodeSlot(env: Environment, a: uint64, addrBefore: uint64, codeBefore: seq<uint8>, n: nat)
    requires KernelCode(env, a, n).Ok?
    ensures CodeSlotAfter(env, a, codeBefore, n) == Zeros(n)
    ensures AddrSlotAfter(env, a, addrBefore) == a
    ensures CodeCleared in ExtractionTrace(env, a)
  {
  }
}
