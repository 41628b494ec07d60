# Thread-pointer-base offset discovery

A model of how the profiling agent's tracer finds the offset of the thread pointer base
inside the kernel's `task_struct` (`tracer/tpbase.go`). It walks a list of analyzers in
priority order. Each analyzer names a kernel function. The first function that the kernel
symbol table resolves has its code dumped by a BPF program hooked to `sys_enter_bpf`
(`loadKernelCode`). That analyzer decodes the offset from the code, and the offset is
accepted only in [500, 20000].

- `base.dfy` (module `Base`): Go's `byte`, `uint32` and `uint64` as newtypes, plus `Option`
  and `Result`. `Result` stands for a Go `(value, error)` pair.
- `codedump.dfy` (module `Codedump`): `loadKernelCode`. The class `KernelState` holds slot 0
  of the two maps (`codedump_addr`, `codedump_code`) and flags for the raised memlock limit,
  the loaded program and the tracepoint attachment. A ghost `log` records events in order.
  `KernelCode` is the function the method is proved against. `ExtractionTrace` gives the
  events one call produces.
- `tpbase.dfy` (module `TPBase`): `loadTPBaseOffset`. `LoadTPBaseOffset` is the loop and is
  proved equal to the specification function `Discover`. The lemmas state the skip, abort,
  break, sentinel and bounds rules.

Parameters of the model (the parts the Go code cannot see or does not show):

- The symbol table is a `map<string, uint64>`. A missing name is a failed `LookupSymbol`.
- The analyzer list is a sequence of `Analyzer(functionName, analyze)`. `analyze` is an
  uninterpreted total function `seq<uint8> -> Result<uint32, string>`.
- The kernel is an `Environment`. `memory` gives the bytes of kernel memory. `failing` is the
  set of kernel interactions that fail: the address write, the memlock raise, the program
  load, the attach, the lookup and the clear.
- The dump length (the value size of `codedump_code`) is `KernelState.codeSize`.
- The probe is modelled as described in the comment of `tpbase.go` at lines 64-66. At the
  entry of every bpf() syscall, while the program is attached, the probe copies `codeSize`
  bytes from the address in the address slot into the code slot. Both map updates, the
  program load and the lookup are bpf() syscalls. So the probe runs before the lookup reads
  the slot, and again before the clear. Extra firings from unrelated syscalls copy the same
  bytes.

Two behaviours of the code worth noting:

- A zero offset decoded without an error is reported as "no supported symbol", the same
  error as "no analyzer resolves" (tracer/tpbase.go:100-122). This happens because 0 is the
  initial value of the offset.
- `loadKernelCode` writes whatever address it is given, without checking that it is non-zero
  (tracer/tpbase.go:44-52). The model does not require a non-zero address either.

## Model

| member | source | states |
|---|---|---|
| `TPBase.LoadTPBaseOffset` | tracer/tpbase.go:98-131 | The loop returns exactly `Discover`. It changes the maps only through the one extraction of the chosen analyzer, leaves nothing loaded or attached, and records the events of `DiscoveryTrace` |
| `TPBase.FirstResolved` | tracer/tpbase.go:101-105 | The index it returns is an analyzer whose function resolves, and every earlier one does not resolve. It returns none exactly when no analyzer resolves |
| `TPBase.FirstResolvedAt` | tracer/tpbase.go:101-105 | The first resolvable analyzer is fixed by its position: it resolves and all analyzers before it do not |
| `TPBase.FirstResolvedAfterSkipped` | tracer/tpbase.go:101-105 | Listing unresolvable analyzers in front only shifts the position of the first resolvable one |
| `TPBase.UnresolvedSkipped` | tracer/tpbase.go:102-105 | A failed lookup alone is never an error. Unresolvable analyzers in front leave both the result and the map events unchanged |
| `TPBase.LaterAnalyzersIgnored` | tracer/tpbase.go:116-117 | Once an analyzer resolves, analyzers listed after it affect neither the result nor the map events |
| `TPBase.NothingResolvedIsNotFound` | tracer/tpbase.go:100-122 | If no analyzer resolves, the result is "no supported symbol" and the maps are never touched |
| `TPBase.ExtractionFailureIsFatal` | tracer/tpbase.go:107-110 | An extraction error for the first resolvable analyzer is the result, whatever analyzers follow |
| `TPBase.DecodeFailureIsFatal` | tracer/tpbase.go:112-115 | A decode error after a successful dump is the result, together with the dumped code, whatever analyzers follow. There is no fallback |
| `TPBase.NotFoundExactly` | tracer/tpbase.go:120-122 | "No supported symbol" holds if and only if no analyzer resolves or the chosen analyzer decodes 0 without error |
| `TPBase.SuccessExactly` | tracer/tpbase.go:126-130 | Success holds if and only if the chosen analyzer's code is dumped and decodes to an offset in [500, 20000]. The value is that decoded uint32, widened |
| `TPBase.Validate` | tracer/tpbase.go:120-130 | Accepts exactly the offsets in [500, 20000] and keeps the value. Rejects 0 as "no supported symbol" and any other out-of-range value as not sane, keeping that value |
| `TPBase.OffsetBoundaries` | tracer/tpbase.go:126-128 | The bounds are inclusive: 499, 20001 and 50 are rejected, while 500 and 20000 are accepted |
| `TPBase.AtMostOneExtraction` | tracer/tpbase.go:101-118 | A discovery writes the address slot at most once. The write is its first event and uses the chosen analyzer's address |
| `TPBase.OnlyThirdResolves` | tracer/tpbase.go:101-118 | When only the third analyzer's function exists and its code decodes to 3344, the result is 3344 |
| `Codedump.KernelCode` | tracer/tpbase.go:44-93 | The code comes back if and only if no kernel interaction fails. It is exactly `codeSize` bytes of memory at the address. Otherwise the error names the earliest failing interaction, and there is no partial dump |
| `Codedump.LoadKernelCode` | tracer/tpbase.go:44-93 | Returns `KernelCode`. The address slot is written unless that write fails. The code slot is zero after success, untouched if the probe never ran, and holds the dump if the lookup or the clear failed. Everything acquired is released |
| `Codedump.LoadProgramAndDump` | tracer/tpbase.go:64-92 | The memlock-raised part of the call: load the program, dump through it, and close it on every path once loaded |
| `Codedump.AttachAndDump` | tracer/tpbase.go:73-92 | The program-loaded part: attach, read the code slot after the probe fired from the address slot, clear it, and detach on every path once attached |
| `Codedump.KernelState.EnterBpfSyscall` | tracer/tpbase.go:64-66 | The `sys_enter_bpf` probe copies the bytes at the address-slot address into the code slot while it is attached. Otherwise nothing changes |
| `Codedump.KernelState.constructor` | tracer/tpbase.go:46-47 | A fresh pair of the two maps that lines 46-47 fetch. It has a `codeSize`-byte code slot and nothing raised, loaded or attached. Both slots start at zero, which is a choice of the model: the maps are created outside the code shown |
| `Codedump.ExtractTwice` | tracer/tpbase.go:64-83 | Two calls in a row on the same maps each return what the kernel held at their own time, so no bytes leak from the first to the second. In the model this holds because the probe overwrites the whole code slot at the entry of each lookup's own bpf() syscall (lines 64-66, 81). It does not depend on the clear at lines 85-90; the clear shows only in the slot state (`SuccessClearsCodeSlot`) |
| `Codedump.AddressWrittenBeforeRead` | tracer/tpbase.go:52-83 | The address slot is written first and only once, before the program is loaded and before the probe is attached. Every read of the code slot directly follows a probe firing from that address |
| `Codedump.ResourcesReleased` | tracer/tpbase.go:58-77 | The memlock limit, the program and the attachment are each released if and only if acquired. Restoring the memlock limit is the last event |
| `Codedump.ReleasedAfterRead` | tracer/tpbase.go:67-83 | The probe is detached, and the program closed, only after the code slot was read |
| `Codedump.SuccessClearsCodeSlot` | tracer/tpbase.go:85-92 | After a successful call the code slot is zero and the address slot holds the address |

## Left out

- The real kernel work in `loadKernelCode` is not modelled: creating the program, attaching
  the tracepoint, the map updates and lookups, and the memlock raise. Each becomes one
  outcome in `Environment.failing`. Its effect on the two slots and on the three resource
  flags is modelled. The releases deferred in the code are modelled as the nested scopes of
  `LoadKernelCode`, `LoadProgramAndDump` and `AttachAndDump`.
- The claim that the probe fires at least once before the lookup is an assumption about
  kernel timing. The model assumes it by letting the probe run synchronously at bpf() syscall
  entry. Concurrent firings from other processes are not modelled.
- The kernel-side BPF program is not part of this model. This model assumes it copies
  `codeSize` bytes from the address in `codedump_addr`, and it does not model a failing read
  inside the BPF program.
- SuccessClearsCodeSlot, LoadKernelCode: the clear (tracer/tpbase.go:86-88) passes a pointer to
  a 4-byte zero into a slot `codeSize` bytes wide. If the map library hands that pointer to
  the kernel as it is, the kernel copies `codeSize` bytes starting there. Only bytes 0-3
  would then be zero; bytes 4 and up would be whatever memory follows the variable. The map
  library is not part of this model. Both members model the slot after a successful call as
  all zeros, so their "zero after success" rests on that choice.
- The analyzers (`tpbase.GetAnalyzers` and `Analyze`) are not part of this model. They are
  parameters.
- The text of the error messages is not modelled: `hex.Dump` of the code and the message
  formatting. The errors keep the failing step, the analyzer's reason with the dumped bytes,
  or the rejected offset.
- The `log.Infof` diagnostic is left out.
- `interpreter/loaderinfo.go` is not part of this model. It is a set of getters, plus calls
  into an ELF reader that is not shown.
