/**
 * Discovery of the thread-pointer-base offset inside the kernel's `task_struct`
 * (`loadTPBaseOffset`): walk the analyzers in priority order, dump the code of the first one
 * whose kernel function exists, decode the offset from it, and check that it is plausible.
 */
module TPBase {
  import opened Base
  import opened Codedump

  /** Smallest and largest offset accepted as plausible. */
  const MinOffset: uint32 := 500
  const MaxOffset: uint32 := 20000

  /**
   * One entry of the analyzer list: the kernel function whose machine code holds the offset,
   * and the (uninterpreted) decoder that extracts it from that code or reports a mismatch.
   */
  datatype Analyzer = Analyzer(functionName: string, analyze: seq<uint8> -> Result<uint32, string>)

  /** The errors `loadTPBaseOffset` returns. */
  datatype Error =
    | KernelCodeFailed(cause: CodedumpError)      // loadKernelCode's error, returned as is
    | DecodeFailed(reason: string, code: seq<uint8>) // the analyzer's error, with the dumped code
    | NoSupportedSymbol
    | NotSane(offset: uint32)

  /** The kernel symbol table: function name to address; a missing name is a failed lookup. */
  type SymbolMap = map<string, uint64>

  /** Index of the first analyzer whose function the symbol table knows. */
  function FirstResolved(analyzers: seq<Analyzer>, symbols: SymbolMap): (r: Option<nat>)
    ensures r.Some? ==> r.value < |analyzers| && analyzers[r.value].functionName in symbols
    ensures r.Some? ==> forall j :: 0 <= j < r.value ==> analyzers[j].functionName !in symbols
    ensures r.None? <==> forall j :: 0 <= j < |analyzers| ==> analyzers[j].functionName !in symbols
  {
    if |analyzers| == 0 then None
    else if analyzers[0].functionName in symbols then Some(0)
    else match FirstResolved(analyzers[1..], symbols)
      case None => None
      case Some(i) => Some(i + 1)
  }

  /** The address whose code is dumped: that of the first analyzer the symbol table resolves. */
  function ChosenAddress(analyzers: seq<Analyzer>, symbols: SymbolMap): Option<uint64>
  {
    match FirstResolved(analyzers, symbols)
    case None => None
    case Some(i) => Some(symbols[analyzers[i].functionName])
  }

  /**
   * The checks after the loop. An offset of 0 is the "nothing found" sentinel; any other
   * offset is accepted exactly when it lies in [MinOffset, MaxOffset], widened to 64 bits.
   */
  function Validate(offset: uint32): (r: Result<uint64, Error>)
    ensures r.Ok? <==> MinOffset <= offset <= MaxOffset
    ensures r.Ok? ==> r.value as int == offset as int
    ensures offset == 0 ==> r == Err(NoSupportedSymbol)
    ensures offset != 0 && r.Err? ==> r == Err(NotSane(offset))
  {
    if offset == 0 then Err(NoSupportedSymbol)
    else if offset < MinOffset || offset > MaxOffset then Err(NotSane(offset))
    else Ok(offset as uint64)
  }

  /**
   * The decision `loadTPBaseOffset` takes, given the analyzers, the symbol table, the kernel
   * and the dump length. With no resolvable analyzer the offset stays 0.
   */
  function Discover(analyzers: seq<Analyzer>, symbols: SymbolMap, env: Environment, n: nat): Result<uint64, Error>
  {
    match FirstResolved(analyzers, symbols)
    case None => Validate(0)
    case Some(i) =>
      var analyzer := analyzers[i];
      match KernelCode(env, symbols[analyzer.functionName], n)
      case Err(e) => Err(KernelCodeFailed(e))
      case Ok(code) =>
        match analyzer.analyze(code)
        case Err(m) => Err(DecodeFailed(m, code))
        case Ok(offset) => Validate(offset)
  }

  /** The events a discovery causes on the kernel maps: those of at most one extraction. */
  function DiscoveryTrace(analyzers: seq<Analyzer>, symbols: SymbolMap, env: Environment): seq<Event>
  {
    match ChosenAddress(analyzers, symbols)
    case None => []
    case Some(a) => ExtractionTrace(env, a)
  }

  /**
   * `loadTPBaseOffset`: the loop over the analyzers. A failed symbol lookup moves on to the
   * next analyzer; an extraction or a decode error returns at once; a decoded offset ends the
   * loop. The maps change only through the one extraction of the chosen analyzer.
   */
  method LoadTPBaseOffset(k: KernelState, env: Environment, analyzers: seq<Analyzer>, symbols: SymbolMap)
    returns (r: Result<uint64, Error>)
    requires k.Valid() && k.Idle()
    modifies k
    ensures k.Valid() && k.Idle()
    ensures r == Discover(analyzers, symbols, env, k.codeSize)
    ensures k.log == old(k.log) + DiscoveryTrace(analyzers, symbols, env)
    ensures match ChosenAddress(analyzers, symbols)
      case None => k.addrSlot == old(k.addrSlot) && k.codeSlot == old(k.codeSlot)
      case Some(a) =>
        && k.addrSlot == AddrSlotAfter(env, a, old(k.addrSlot))
        && k.codeSlot == CodeSlotAfter(env, a, old(k.codeSlot), k.codeSize)
  {
    var tpbaseOffset: uint32 := 0;
    var i := 0;
    while i < |analyzers|
      invariant 0 <= i <= |analyzers|
      invariant forall j :: 0 <= j < i ==> analyzers[j].functionName !in symbols
      invariant tpbaseOffset == 0
      invariant k.Valid() && k.Idle()
      invariant k.addrSlot == old(k.addrSlot) && k.codeSlot == old(k.codeSlot) && k.log == old(k.log)
    {
      var analyzer := analyzers[i];
      if analyzer.functionName !in symbols {
        i := i + 1;
        continue;
      }
      assert FirstResolved(analyzers, symbols) == Some(i);

      var code := LoadKernelCode(k, env, symbols[analyzer.functionName]);
      if code.Err? {
        return Err(KernelCodeFailed(code.error));
      }

      var decoded := analyzer.analyze(code.value);
      if decoded.Err? {
        return Err(DecodeFailed(decoded.error, code.value));
      }
      tpbaseOffset := decoded.value;
      break;
    }

    if tpbaseOffset == 0 {
      return Err(NoSupportedSymbol);
    }
    if tpbaseOffset < MinOffset || tpbaseOffset > MaxOffset {
      return Err(NotSane(tpbaseOffset));
    }
    return Ok(tpbaseOffset as uint64);
  }

  /** The first resolvable analyzer is determined by its position alone. */
  lemma FirstResolvedAt(analyzers: seq<Analyzer>, symbols: SymbolMap, i: nat)
    requires i < |analyzers| && analyzers[i].functionName in symbols
    requires forall j :: 0 <= j < i ==> analyzers[j].functionName !in symbols
    ensures FirstResolved(analyzers, symbols) == Some(i)
  {
  }

  /** Analyzers whose function is absent only shift the position of the first resolvable one. */
  lemma {:induction false} FirstResolvedAfterSkipped(skipped: seq<Analyzer>, rest: seq<Analyzer>, symbols: SymbolMap)
    requires forall j :: 0 <= j < |skipped| ==> skipped[j].functionName !in symbols
    ensures FirstResolved(skipped + rest, symbols) ==
      match FirstResolved(rest, symbols)
      case None => None
      case Some(i) => Some(|skipped| + i)
  {
    if skipped == [] {
      assert skipped + rest == rest;
    } else {
      assert (skipped + rest)[0] == skipped[0];
      assert (skipped + rest)[1..] == skipped[1..] + rest;
      FirstResolvedAfterSkipped(skipped[1..], rest, symbols);
    }
  }

  /**
   * A failed symbol lookup on its own is never an error: analyzers whose function is absent
   * are skipped, leaving the result and the effect on the maps as if they were not listed.
   */
  lemma UnresolvedSkipped(skipped: seq<Analyzer>, rest: seq<Analyzer>, symbols: SymbolMap, env: Environment, n: nat)
    requires forall j :: 0 <= j < |skipped| ==> skipped[j].functionName !in symbols
    ensures Discover(skipped + rest, symbols, env, n) == Discover(rest, symbols, env, n)
    ensures DiscoveryTrace(skipped + rest, symbols, env) == DiscoveryTrace(rest, symbols, env)
  {
    FirstResolvedAfterSkipped(skipped, rest, symbols);
    match FirstResolved(rest, symbols)
    case None =>
    case Some(i) =>
      assert (skipped + rest)[|skipped| + i] == rest[i];
  }

  /**
   * The loop stops at the first resolvable analyzer: whatever analyzers follow it are never
   * consulted and never cause an extraction.
   */
  lemma LaterAnalyzersIgnored(prefix: seq<Analyzer>, later: seq<Analyzer>, symbols: SymbolMap, env: Environment, n: nat)
    requires FirstResolved(prefix, symbols).Some?
    ensures Discover(prefix + later, symbols, env, n) == Discover(prefix, symbols, env, n)
    ensures DiscoveryTrace(prefix + later, symbols, env) == DiscoveryTrace(prefix, symbols, env)
  {
    var i := FirstResolved(prefix, symbols).value;
    assert (prefix + later)[i] == prefix[i];
    FirstResolvedAt(prefix + later, symbols, i);
  }

  /** With no resolvable analyzer the result is "no supported symbol" and the maps are untouched. */
  lemma NothingResolvedIsNotFound(analyzers: seq<Analyzer>, symbols: SymbolMap, env: Environment, n: nat)
    requires forall j :: 0 <= j < |analyzers| ==> analyzers[j].functionName !in symbols
    ensures Discover(analyzers, symbols, env, n) == Err(NoSupportedSymbol)
    ensures DiscoveryTrace(analyzers, symbols, env) == []
  {
  }

  /**
   * An extraction failure for the first resolvable analyzer is returned as it is, and no
   * analyzer listed after it is tried instead.
   */
  lemma ExtractionFailureIsFatal(analyzers: seq<Analyzer>, symbols: SymbolMap, env: Environment, n: nat, i: nat)
    requires FirstResolved(analyzers, symbols) == Some(i)
    requires KernelCode(env, symbols[analyzers[i].functionName], n).Err?
    ensures forall later ::
              Discover(analyzers + later, symbols, env, n) ==
              Err(KernelCodeFailed(KernelCode(env, symbols[analyzers[i].functionName], n).error))
  {
    forall later ensures Discover(analyzers + later, symbols, env, n) ==
      Err(KernelCodeFailed(KernelCode(env, symbols[analyzers[i].functionName], n).error))
    {
      LaterAnalyzersIgnored(analyzers, later, symbols, env, n);
    }
  }

  /**
   * A decode failure after a successful extraction is returned with the dumped code; it never
   * falls back to an analyzer listed later.
   */
  lemma DecodeFailureIsFatal(analyzers: seq<Analyzer>, symbols: SymbolMap, env: Environment, n: nat, i: nat, code: seq<uint8>)
    requires FirstResolved(analyzers, symbols) == Some(i)
    requires KernelCode(env, symbols[analyzers[i].functionName], n) == Ok(code)
    requires analyzers[i].analyze(code).Err?
    ensures forall later ::
              Discover(analyzers + later, symbols, env, n) ==
              Err(DecodeFailed(analyzers[i].analyze(code).error, code))
  {
    forall later ensures Discover(analyzers + later, symbols, env, n) ==
      Err(DecodeFailed(analyzers[i].analyze(code).error, code))
    {
      LaterAnalyzersIgnored(analyzers, later, symbols, env, n);
    }
  }

  /**
   * "No supported symbol" is returned exactly when no analyzer resolves, or when the chosen
   * analyzer decodes the sentinel 0 without an error.
   */
  lemma NotFoundExactly(analyzers: seq<Analyzer>, symbols: SymbolMap, env: Environment, n: nat)
    ensures Discover(analyzers, symbols, env, n) == Err(NoSupportedSymbol) <==>
      match FirstResolved(analyzers, symbols)
      case None => true
      case Some(i) =>
        var code := KernelCode(env, symbols[analyzers[i].functionName], n);
        code.Ok? && analyzers[i].analyze(code.value) == Ok(0)
  {
  }

  /**
   * Success exactly when the chosen analyzer's code is dumped and decoded to a plausible
   * offset; the result is that 32-bit offset widened to 64 bits.
   */
  lemma SuccessExactly(analyzers: seq<Analyzer>, symbols: SymbolMap, env: Environment, n: nat)
    ensures var r := Discover(analyzers, symbols, env, n);
      r.Ok? <==>
      match FirstResolved(analyzers, symbols)
      case None => false
      case Some(i) =>
        var code := KernelCode(env, symbols[analyzers[i].functionName], n);
        code.Ok? && analyzers[i].analyze(code.value).Ok? &&
        MinOffset <= analyzers[i].analyze(code.value).value <= MaxOffset
    ensures var r := Discover(analyzers, symbols, env, n);
      r.Ok? ==> match FirstResolved(analyzers, symbols)
      case None => false
      case Some(i) =>
        var code := KernelCode(env, symbols[analyzers[i].functionName], n);
        code.Ok? && analyzers[i].analyze(code.value).Ok? &&
        r.value as int == analyzers[i].analyze(code.value).value as int &&
        500 <= r.value as int <= 20000
  {
  }

  /** The plausibility bounds are inclusive: 499 and 20001 are rejected, 500 and 20000 accepted. */
  lemma OffsetBoundaries()
    ensures Validate(499) == Err(NotSane(499)) && Validate(500) == Ok(500)
    ensures Validate(20000) == Ok(20000) && Validate(20001) == Err(NotSane(20001))
    ensures Validate(50) == Err(NotSane(50))
  {
  }

  /**
   * At most one extraction per discovery: the address slot is written at most once, as the
   * first event, and only with the address of the chosen analyzer's function.
   */
  lemma AtMostOneExtraction(analyzers: seq<Analyzer>, symbols: SymbolMap, env: Environment)
    ensures var t := DiscoveryTrace(analyzers, symbols, env);
      && (forall j :: 0 < j < |t| ==> !t[j].AddrWritten?)
      && (t != [] ==> ChosenAddress(analyzers, symbols).Some? && t[0] == AddrWritten(ChosenAddress(analyzers, symbols).value))
  {
  }

  /**
   * Only the third analyzer's function exists and its code decodes to 3344: the discovery
   * returns 3344, whatever the first two analyzers would have decoded.
   */
  lemma OnlyThirdResolves(analyzers: seq<Analyzer>, symbols: SymbolMap, env: Environment, n: nat)
    requires |analyzers| >= 3
    requires analyzers[0].functionName !in symbols && analyzers[1].functionName !in symbols
    requires analyzers[2].functionName in symbols
    requires env.failing == {}
    requires analyzers[2].analyze(KernelBytes(env.memory, symbols[analyzers[2].functionName], n)) == Ok(3344)
    ensures Discover(analyzers, symbols, env, n) == Ok(3344)
  {
  }
}
