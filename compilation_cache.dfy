/** The compile-or-fetch layer: `backend_compile`'s dispatch rule, the cache
    eligibility test, `_cache_read` and `_cache_write` with their admission and
    error policies, and `compile_or_get_cached`, which ties them together.

    The collaborators whose code is not part of this model are stand-ins: the
    persistent cache is an object holding a map from keys to entries and three
    health flags that make key derivation, reads or writes raise; the cache key is the
    tuple of everything it is derived from (a collision-free fingerprint); the
    native compiler accepts or rejects a module according to an opaque property
    of the module, and its executable records the call that produced it. Every
    call the layer makes to a collaborator is appended to an event log. */
module CompilationCache {
  import opened Base
  import opened CompileOptionsBuilder
  import IrDump

  // ---------------------------------------------------------------------------
  // Collaborators
  // ---------------------------------------------------------------------------

  /** A host callback (for instance from `jax.debug.print` or a breakpoint). */
  datatype HostCallback = HostCallback(id: nat)

  /** An MLIR module: its `sym_name` attribute when it has one, its printed
      text (`_module_to_string`), and whether the native compiler accepts it. */
  datatype IrModule = IrModule(symName: Option<string>, text: string, compiles: bool)

  /** A backend client: its platform name and its `needs_str_ir` attribute
      (None when the client does not have one). */
  datatype Backend = Backend(platform: string, needsStrIr: Option<bool>)

  /** What reaches the native compiler: the module serialised to bytecode
      (`_module_to_bytecode`) or the module object itself. */
  datatype CompilerInput = Bytecode(ir: IrModule) | InMemory(ir: IrModule)

  /** One call of `backend.compile`; `hostCallbacks` is None when the
      overload without the `host_callbacks` argument is used. */
  datatype NativeCall = NativeCall(input: CompilerInput, options: CompileOptions, hostCallbacks: Option<seq<HostCallback>>)

  /** A loaded executable, identified by the platform and call that built it. */
  datatype Executable = Executable(platform: string, call: NativeCall)

  /** The native compiler: fails on a module it rejects, with the error passed on unchanged. */
  function NativeCompile(platform: string, call: NativeCall): Result<Executable> {
    if call.input.ir.compiles then Ok(Executable(platform, call)) else Err(CompileError)
  }

  /** `get_cache_key`: the key is the tuple of its inputs, so equal requests get
      equal keys and different requests different ones. */
  datatype CacheKey = CacheKey(ir: IrModule, devices: seq<int>, options: CompileOptions,
                               platform: string, originalScheme: bool)

  /** What the persistent cache stores under a key. */
  datatype CacheEntry = CacheEntry(moduleName: string, executable: Executable, compileTimeSecs: int)

  /** The persistent compilation cache (`compilation_cache`). */
  class PersistentCache {
    var initialized: bool
    var entries: map<CacheKey, CacheEntry>
    var keyFails: bool     // `get_cache_key` raises
    var readFails: bool    // `get_executable_and_time` raises
    var writeFails: bool   // `put_executable_and_time` raises

    constructor (initialized: bool, keyFails: bool, readFails: bool, writeFails: bool)
      ensures this.initialized == initialized && this.keyFails == keyFails
      ensures this.readFails == readFails && this.writeFails == writeFails
      ensures entries == map[]
    {
      this.initialized := initialized;
      this.keyFails := keyFails;
      this.readFails := readFails;
      this.writeFails := writeFails;
      entries := map[];
    }

    /** `get_cache_key`: the key identifying a compilation, made from the module,
        the devices, the options, the platform and the key scheme. */
    method DeriveKey(ir: IrModule, devices: seq<int>, options: CompileOptions,
                     platform: string, originalScheme: bool) returns (r: Result<CacheKey>)
      ensures keyFails ==> r == Err(CacheKeyError)
      ensures !keyFails ==> r == Ok(CacheKey(ir, devices, options, platform, originalScheme))
    {
      if keyFails {
        return Err(CacheKeyError);
      }
      return Ok(CacheKey(ir, devices, options, platform, originalScheme));
    }

    /** `get_executable_and_time`: the entry under `key`, None when there is none. */
    method Get(key: CacheKey) returns (r: Result<Option<CacheEntry>>)
      ensures readFails ==> r == Err(CacheReadError)
      ensures !readFails ==> r == Ok(if key in entries then Some(entries[key]) else None)
    {
      if readFails {
        return Err(CacheReadError);
      }
      if key in entries {
        return Ok(Some(entries[key]));
      }
      return Ok(None);
    }

    /** `put_executable_and_time`. */
    method Put(key: CacheKey, entry: CacheEntry) returns (r: Result<()>)
      modifies this
      ensures initialized == old(initialized) && keyFails == old(keyFails)
      ensures readFails == old(readFails) && writeFails == old(writeFails)
      ensures r.Err? <==> writeFails
      ensures r.Err? ==> r.error == CacheWriteError && entries == old(entries)
      ensures r.Ok? ==> r == Ok(()) && entries == old(entries)[key := entry]
    {
      if writeFails {
        return Err(CacheWriteError);
      }
      entries := entries[key := entry];
      return Ok(());
    }
  }

  // ---------------------------------------------------------------------------
  // Pure decisions
  // ---------------------------------------------------------------------------

  /** `backend_compile`'s dispatch: serialise the module unless the backend says
      it takes module objects, and pass `host_callbacks` only when there are some. */
  function CompilerCall(backend: Backend, ir: IrModule, options: CompileOptions,
                        hostCallbacks: seq<HostCallback>): (c: NativeCall)
    ensures c.input.ir == ir && c.options == options
    ensures c.input.Bytecode? <==> backend.needsStrIr != Some(false)
    ensures c.hostCallbacks.Some? <==> hostCallbacks != []
    ensures c.hostCallbacks.Some? ==> c.hostCallbacks.value == hostCallbacks
  {
    var input := if backend.needsStrIr.GetOr(true) then Bytecode(ir) else InMemory(ir);
    if hostCallbacks != [] then NativeCall(input, options, Some(hostCallbacks))
    else NativeCall(input, options, None)
  }

  /** `needle` occurs in `haystack` starting at index `i`. */
  predicate OccursAt(haystack: string, needle: string, i: int) {
    0 <= i && i + |needle| <= |haystack| && haystack[i..i + |needle|] == needle
  }

  /** An occurrence is at the front or in the tail. */
  lemma OccurrenceFrontOrTail(haystack: string, needle: string)
    requires haystack != []
    ensures (exists i :: OccursAt(haystack, needle, i))
            <==> OccursAt(haystack, needle, 0) || exists j :: OccursAt(haystack[1..], needle, j)
  {
    var tail := haystack[1..];
    if i :| OccursAt(haystack, needle, i) && i != 0 {
      assert tail[i - 1..i - 1 + |needle|] == haystack[i..i + |needle|];
      assert OccursAt(tail, needle, i - 1);
    }
    if j :| OccursAt(tail, needle, j) {
      assert tail[j..j + |needle|] == haystack[j + 1..j + 1 + |needle|];
      assert OccursAt(haystack, needle, j + 1);
    }
  }

  /** Python's `needle in haystack` on strings. */
  function Contains(haystack: string, needle: string): (b: bool)
    ensures b <==> exists i :: OccursAt(haystack, needle, i)
    decreases |haystack|
  {
    if |haystack| < |needle| then false
    else if haystack[..|needle|] == needle then
      assert OccursAt(haystack, needle, 0);
      true
    else
      OccurrenceFrontOrTail(haystack, needle);
      assert !OccursAt(haystack, needle, 0);
      Contains(haystack[1..], needle)
  }

  const CpuRuntimeFlag := "--xla_cpu_use_xla_runtime=true"

  /** The platforms the persistent cache serves: TPU and GPU, and CPU when
      XLA_FLAGS turns the XLA runtime on. */
  function SupportedPlatforms(xlaFlags: string): (p: seq<string>)
    ensures "tpu" in p && "gpu" in p
    ensures "cpu" in p <==> exists i :: OccursAt(xlaFlags, CpuRuntimeFlag, i)
    ensures forall q | q in p :: q == "tpu" || q == "gpu" || q == "cpu"
  {
    ["tpu", "gpu"] + if Contains(xlaFlags, CpuRuntimeFlag) then ["cpu"] else []
  }

  /** `use_compilation_cache`. */
  function UsesCompilationCache(initialized: bool, platform: string, xlaFlags: string): (b: bool)
    ensures b <==> initialized && (platform == "tpu" || platform == "gpu"
                                   || (platform == "cpu" && exists i :: OccursAt(xlaFlags, CpuRuntimeFlag, i)))
  {
    initialized && platform in SupportedPlatforms(xlaFlags)
  }

  /** What `_cache_write` does before calling the cache. */
  datatype WriteDecision = SkipHostCallbacks | SkipBelowMinimum | Write(compileTimeSecs: int)

  /** `_cache_write`'s admission policy: never cache a module with host
      callbacks; when a minimum compile time is set, never cache a compile
      that took less; otherwise store the compile time truncated to seconds. */
  function CacheWriteDecision(hostCallbacks: seq<HostCallback>, minCompileTimeSecs: real,
                              compileTimeSecs: real): (d: WriteDecision)
    requires compileTimeSecs >= 0.0
    ensures d.SkipHostCallbacks? <==> hostCallbacks != []
    ensures d.SkipBelowMinimum? <==> hostCallbacks == [] && minCompileTimeSecs != 0.0 && compileTimeSecs < minCompileTimeSecs
    ensures d.Write? ==> 0 <= d.compileTimeSecs && d.compileTimeSecs as real <= compileTimeSecs < d.compileTimeSecs as real + 1.0
  {
    if hostCallbacks != [] then SkipHostCallbacks
    else if minCompileTimeSecs != 0.0 && compileTimeSecs < minCompileTimeSecs then SkipBelowMinimum
    else Write(compileTimeSecs.Floor)
  }

  /** A compile that is admitted stays admitted when it takes longer. */
  lemma AdmissionMonotone(hostCallbacks: seq<HostCallback>, minCompileTimeSecs: real, fast: real, slow: real)
    requires 0.0 <= fast <= slow
    requires CacheWriteDecision(hostCallbacks, minCompileTimeSecs, fast).Write?
    ensures CacheWriteDecision(hostCallbacks, minCompileTimeSecs, slow).Write?
    ensures CacheWriteDecision(hostCallbacks, minCompileTimeSecs, fast).compileTimeSecs
            <= CacheWriteDecision(hostCallbacks, minCompileTimeSecs, slow).compileTimeSecs
  {
  }

  // ---------------------------------------------------------------------------
  // The orchestrator
  // ---------------------------------------------------------------------------

  /** A call the layer made to a collaborator. */
  datatype Event =
    | DerivedKey(key: CacheKey)                // get_cache_key
    | LookedUp(key: CacheKey)                  // get_executable_and_time
    | Compiled(platform: string, call: NativeCall)  // backend.compile
    | Stored(key: CacheKey, entry: CacheEntry) // put_executable_and_time
    | Recorded(metric: string, secs: real)     // record_event_duration_secs

  const RetrievalTimeMetric := "/jax/compilation_cache/cache_retrieval_time_sec"
  const CompileTimeSavedMetric := "/jax/compilation_cache/original_compile_time_saved_sec"

  /** One process's view of the layer: its configuration, the shared
      persistent cache and IR dumper, and the calls made so far. */
  class CompilationSession {
    const flags: Flags
    const cache: PersistentCache
    const dumper: IrDump.IrDumper
    var events: seq<Event>

    ghost predicate Valid()
      reads this, dumper
    {
      dumper.Valid()
    }

    constructor (flags: Flags, cache: PersistentCache, dumper: IrDump.IrDumper)
      requires dumper.Valid()
      ensures Valid()
      ensures this.flags == flags && this.cache == cache && this.dumper == dumper && events == []
    {
      this.flags := flags;
      this.cache := cache;
      this.dumper := dumper;
      events := [];
    }

    /** `backend_compile`. */
    method BackendCompile(backend: Backend, ir: IrModule, options: CompileOptions,
                          hostCallbacks: seq<HostCallback>) returns (r: Result<Executable>)
      modifies this
      ensures events == old(events) + [Compiled(backend.platform, CompilerCall(backend, ir, options, hostCallbacks))]
      ensures r == NativeCompile(backend.platform, CompilerCall(backend, ir, options, hostCallbacks))
    {
      var input: CompilerInput;
      if backend.needsStrIr.GetOr(true) {
        input := Bytecode(ir);
      } else {
        input := InMemory(ir);
      }
      var call: NativeCall;
      if hostCallbacks != [] {
        call := NativeCall(input, options, Some(hostCallbacks));
      } else {
        // Some backends do not take `host_callbacks` yet.
        call := NativeCall(input, options, None);
      }
      events := events + [Compiled(backend.platform, call)];
      r := NativeCompile(backend.platform, call);
    }

    /** `_cache_read`: a failing read is re-raised in strict mode and is a miss otherwise. */
    method CacheRead(moduleName: string, key: CacheKey) returns (r: Result<Option<CacheEntry>>)
      modifies this
      ensures events == old(events) + [LookedUp(key)]
      ensures r.Err? <==> cache.readFails && flags.raisePersistentCacheErrors
      ensures r.Err? ==> r.error == CacheReadError
      ensures cache.readFails && !flags.raisePersistentCacheErrors ==> r == Ok(None)
      ensures !cache.readFails ==> r == Ok(if key in cache.entries then Some(cache.entries[key]) else None)
    {
      events := events + [LookedUp(key)];
      r := cache.Get(key);
      if r.Err? && !flags.raisePersistentCacheErrors {
        r := Ok(None);
      }
    }

    /** `_cache_write`: store the entry when the admission policy lets it
        through; a failing write is re-raised in strict mode and ignored otherwise. */
    method CacheWrite(key: CacheKey, compileTimeSecs: real, moduleName: string,
                      executable: Executable, hostCallbacks: seq<HostCallback>) returns (r: Result<()>)
      requires compileTimeSecs >= 0.0
      modifies this, cache
      ensures cache.initialized == old(cache.initialized) && cache.keyFails == old(cache.keyFails)
      ensures cache.readFails == old(cache.readFails) && cache.writeFails == old(cache.writeFails)
      ensures var d := CacheWriteDecision(hostCallbacks, flags.persistentCacheMinCompileTimeSecs, compileTimeSecs);
              && (!d.Write? ==> r == Ok(()) && events == old(events) && cache.entries == old(cache.entries))
              && (d.Write? ==>
                    var entry := CacheEntry(moduleName, executable, d.compileTimeSecs);
                    && events == old(events) + [Stored(key, entry)]
                    && (cache.writeFails ==>
                          cache.entries == old(cache.entries)
                          && r == (if flags.raisePersistentCacheErrors then Err(CacheWriteError) else Ok(())))
                    && (!cache.writeFails ==> cache.entries == old(cache.entries)[key := entry] && r == Ok(())))
    {
      if hostCallbacks != [] {
        // Not cached: the module uses host callbacks.
        return Ok(());
      }
      var minCompileTime := flags.persistentCacheMinCompileTimeSecs;
      if minCompileTime != 0.0 {
        if compileTimeSecs < minCompileTime {
          // Not cached: it compiled faster than the minimum.
          return Ok(());
        }
      }
      var entry := CacheEntry(moduleName, executable, compileTimeSecs.Floor);
      events := events + [Stored(key, entry)];
      r := cache.Put(key, entry);
      if r.Err? && !flags.raisePersistentCacheErrors {
        r := Ok(());
      }
    }

    /** The cached path of `compile_or_get_cached`, taken once the cache is
        known to apply: derive the key, look it up, and on a miss compile and
        hand the executable to `_cache_write`. */
    method CompileThroughCache(backend: Backend, computation: IrModule, moduleName: string, devices: seq<int>,
                               options: CompileOptions, hostCallbacks: seq<HostCallback>,
                               lookupSecs: real, compileSecs: real) returns (r: Result<Executable>)
      requires lookupSecs >= 0.0 && compileSecs >= 0.0
      modifies this, cache
      ensures cache.initialized == old(cache.initialized) && cache.keyFails == old(cache.keyFails)
      ensures cache.readFails == old(cache.readFails) && cache.writeFails == old(cache.writeFails)
      // A failure to derive the key is not caught and stops the compile.
      ensures var key := CacheKey(computation, devices, options, backend.platform, flags.useOriginalKeyGeneration);
              old(cache.keyFails) ==>
                r == Err(CacheKeyError) && events == old(events) + [DerivedKey(key)] && cache.entries == old(cache.entries)
      // Then the key is looked up; a strict read failure stops there.
      ensures !old(cache.keyFails) ==>
                var key := CacheKey(computation, devices, options, backend.platform, flags.useOriginalKeyGeneration);
                && |events| >= |old(events)| + 2
                && events[..|old(events)| + 2] == old(events) + [DerivedKey(key), LookedUp(key)]
                && (old(cache.readFails) && flags.raisePersistentCacheErrors ==>
                      r == Err(CacheReadError) && |events| == |old(events)| + 2 && cache.entries == old(cache.entries))
      // A hit returns the stored executable and records the two timings.
      ensures !old(cache.keyFails) ==>
                var key := CacheKey(computation, devices, options, backend.platform, flags.useOriginalKeyGeneration);
                (!old(cache.readFails) && key in old(cache.entries) ==>
                   var entry := old(cache.entries)[key];
                   && r == Ok(entry.executable)
                   && events == old(events) + [DerivedKey(key), LookedUp(key),
                                               Recorded(RetrievalTimeMetric, lookupSecs),
                                               Recorded(CompileTimeSavedMetric, entry.compileTimeSecs as real - lookupSecs)]
                   && cache.entries == old(cache.entries))
      // A miss (or a tolerated read failure) compiles once and follows the write policy.
      ensures !old(cache.keyFails) ==>
                var key := CacheKey(computation, devices, options, backend.platform, flags.useOriginalKeyGeneration);
                var call := CompilerCall(backend, computation, options, hostCallbacks);
                var compiled := NativeCompile(backend.platform, call);
                var d := CacheWriteDecision(hostCallbacks, flags.persistentCacheMinCompileTimeSecs, compileSecs);
                var before := old(events) + [DerivedKey(key), LookedUp(key), Compiled(backend.platform, call)];
                ((old(cache.readFails) && !flags.raisePersistentCacheErrors) || (!old(cache.readFails) && key !in old(cache.entries))) ==>
                  && (compiled.Err? || !d.Write? ==> r == compiled && events == before && cache.entries == old(cache.entries))
                  && (compiled.Ok? && d.Write? ==>
                        var entry := CacheEntry(moduleName, compiled.value, d.compileTimeSecs);
                        && events == before + [Stored(key, entry)]
                        && (old(cache.writeFails) ==>
                              cache.entries == old(cache.entries)
                              && r == (if flags.raisePersistentCacheErrors then Err(CacheWriteError) else compiled))
                        && (!old(cache.writeFails) ==> cache.entries == old(cache.entries)[key := entry] && r == compiled))
    {
      var derived := cache.DeriveKey(computation, devices, options, backend.platform, flags.useOriginalKeyGeneration);
      var key := CacheKey(computation, devices, options, backend.platform, flags.useOriginalKeyGeneration);
      events := events + [DerivedKey(key)];
      if derived.Err? {
        return Err(derived.error);
      }

      var retrieved := CacheRead(moduleName, key);
      if retrieved.Err? {
        return Err(retrieved.error);
      }
      if retrieved.value.Some? {
        var entry := retrieved.value.value;
        events := events + [Recorded(RetrievalTimeMetric, lookupSecs)];
        events := events + [Recorded(CompileTimeSavedMetric, entry.compileTimeSecs as real - lookupSecs)];
        return Ok(entry.executable);
      }

      r := BackendCompile(backend, computation, options, hostCallbacks);
      if r.Err? {
        return;
      }
      var written := CacheWrite(key, compileSecs, moduleName, r.value, hostCallbacks);
      if written.Err? {
        return Err(written.error);
      }
    }

    /** `compile_or_get_cached`. `lookupSecs` and `compileSecs` are what the
        monotonic clock measures around the cache read and the compile. */
    method CompileOrGetCached(backend: Backend, computation: IrModule, devices: seq<int>,
                              options: CompileOptions, hostCallbacks: seq<HostCallback>,
                              lookupSecs: real, compileSecs: real) returns (r: Result<Executable>)
      requires Valid()
      requires lookupSecs >= 0.0 && compileSecs >= 0.0
      modifies this, cache, dumper
      ensures Valid()
      ensures cache.initialized == old(cache.initialized) && cache.keyFails == old(cache.keyFails)
      ensures cache.readFails == old(cache.readFails) && cache.writeFails == old(cache.writeFails)
      // A module without a `sym_name` fails before anything happens.
      ensures computation.symName.None? ==>
                && r == Err(KeyError) && events == old(events) && cache.entries == old(cache.entries)
                && dumper.next == old(dumper.next) && dumper.written == old(dumper.written)
      // The IR is dumped, under the next counter value, exactly when a directory is configured.
      ensures computation.symName.Some? ==>
                var name := computation.symName.value;
                && dumper.next == old(dumper.next) + (if flags.dumpIrTo != "" then 1 else 0)
                && dumper.written == old(dumper.written) +
                     (if flags.dumpIrTo != "" then
                        [IrDump.DumpedFile(flags.dumpIrTo, IrDump.DumpFileName(old(dumper.next), name), name, computation.text)]
                      else [])
      // Without the cache: one compile, its result, and no key, read or write.
      ensures computation.symName.Some? && !UsesCompilationCache(old(cache.initialized), backend.platform, flags.xlaFlags) ==>
                var call := CompilerCall(backend, computation, options, hostCallbacks);
                && r == NativeCompile(backend.platform, call)
                && events == old(events) + [Compiled(backend.platform, call)]
                && cache.entries == old(cache.entries)
      // With the cache, the key is derived first; a failure to derive it is not caught and stops the compile.
      ensures computation.symName.Some? && UsesCompilationCache(old(cache.initialized), backend.platform, flags.xlaFlags) ==>
                var key := CacheKey(computation, devices, options, backend.platform, flags.useOriginalKeyGeneration);
                (old(cache.keyFails) ==>
                   r == Err(CacheKeyError) && events == old(events) + [DerivedKey(key)] && cache.entries == old(cache.entries))
      // Then the key is looked up; a strict read failure stops there.
      ensures computation.symName.Some? && UsesCompilationCache(old(cache.initialized), backend.platform, flags.xlaFlags)
              && !old(cache.keyFails) ==>
                var key := CacheKey(computation, devices, options, backend.platform, flags.useOriginalKeyGeneration);
                && |events| >= |old(events)| + 2
                && events[..|old(events)| + 2] == old(events) + [DerivedKey(key), LookedUp(key)]
                && (old(cache.readFails) && flags.raisePersistentCacheErrors ==>
                      r == Err(CacheReadError) && |events| == |old(events)| + 2 && cache.entries == old(cache.entries))
      // A hit returns the stored executable, records the two timings, and neither compiles nor writes.
      ensures computation.symName.Some? && UsesCompilationCache(old(cache.initialized), backend.platform, flags.xlaFlags)
              && !old(cache.keyFails) ==>
                var key := CacheKey(computation, devices, options, backend.platform, flags.useOriginalKeyGeneration);
                (!old(cache.readFails) && key in old(cache.entries) ==>
                   var entry := old(cache.entries)[key];
                   && r == Ok(entry.executable)
                   && events == old(events) + [DerivedKey(key), LookedUp(key),
                                               Recorded(RetrievalTimeMetric, lookupSecs),
                                               Recorded(CompileTimeSavedMetric, entry.compileTimeSecs as real - lookupSecs)]
                   && cache.entries == old(cache.entries))
      // A miss (or a tolerated read failure) compiles once and hands the result to the write policy.
      ensures computation.symName.Some? && UsesCompilationCache(old(cache.initialized), backend.platform, flags.xlaFlags)
              && !old(cache.keyFails) ==>
                var name := computation.symName.value;
                var key := CacheKey(computation, devices, options, backend.platform, flags.useOriginalKeyGeneration);
                var call := CompilerCall(backend, computation, options, hostCallbacks);
                var compiled := NativeCompile(backend.platform, call);
                var d := CacheWriteDecision(hostCallbacks, flags.persistentCacheMinCompileTimeSecs, compileSecs);
                var before := old(events) + [DerivedKey(key), LookedUp(key), Compiled(backend.platform, call)];
                ((old(cache.readFails) && !flags.raisePersistentCacheErrors) || (!old(cache.readFails) && key !in old(cache.entries))) ==>
                  && (compiled.Err? || !d.Write? ==> r == compiled && events == before && cache.entries == old(cache.entries))
                  && (compiled.Ok? && d.Write? ==>
                        var entry := CacheEntry(name, compiled.value, d.compileTimeSecs);
                        && events == before + [Stored(key, entry)]
                        && (old(cache.writeFails) ==>
                              cache.entries == old(cache.entries)
                              && r == (if flags.raisePersistentCacheErrors then Err(CacheWriteError) else compiled))
                        && (!old(cache.writeFails) ==> cache.entries == old(cache.entries)[key := entry] && r == compiled))
    {
      if computation.symName.None? {
        return Err(KeyError);
      }
      var moduleName := computation.symName.value;

      if flags.dumpIrTo != "" {
        dumper.DumpIrToFile(flags.dumpIrTo, moduleName, computation.text);
      }

      var useCompilationCache := UsesCompilationCache(cache.initialized, backend.platform, flags.xlaFlags);
      if !useCompilationCache {
        r := BackendCompile(backend, computation, options, hostCallbacks);
        return;
      }

      r := CompileThroughCache(backend, computation, moduleName, devices, options, hostCallbacks, lookupSecs, compileSecs);
    }
  }
}
