/** Clients of the compile path: each method runs one request pattern from the
    behaviour the layer promises and asserts what its callers can conclude from
    the contracts alone. */
module Scenarios {
  import opened Base
  import opened CompileOptionsBuilder
  import opened CompilationCache
  import IrDump

  const Defaults := Flags(false, "", 0, false, 0.0, false, "")

  /** A miss compiles and writes; the identical request then hits, returns the
      same executable without compiling again, and records the time saved. */
  method MissThenHit() {
    var cache := new PersistentCache(true, false, false, false);
    var dumper := new IrDump.IrDumper();
    var session := new CompilationSession(Defaults, cache, dumper);
    var m := IrModule(Some("jit_f"), "module @jit_f {}", true);
    var gpu := Backend("gpu", None);
    var key := CacheKey(m, [0], NativeDefaults, "gpu", false);

    var first := session.CompileOrGetCached(gpu, m, [0], NativeDefaults, [], 0.25, 5.5);
    var call := CompilerCall(gpu, m, NativeDefaults, []);
    assert first == Ok(Executable("gpu", call));
    assert cache.entries == map[key := CacheEntry("jit_f", first.value, 5)];
    assert session.events == [DerivedKey(key), LookedUp(key), Compiled("gpu", call),
                              Stored(key, CacheEntry("jit_f", first.value, 5))];

    var second := session.CompileOrGetCached(gpu, m, [0], NativeDefaults, [], 0.5, 9.0);
    assert second == first;
    assert session.events[4..] == [DerivedKey(key), LookedUp(key),
                                   Recorded(RetrievalTimeMetric, 0.5),
                                   Recorded(CompileTimeSavedMetric, 4.5)];
  }

  /** A module with host callbacks is compiled but never written. */
  method HostCallbacksAreNotCached() {
    var cache := new PersistentCache(true, false, false, false);
    var dumper := new IrDump.IrDumper();
    var session := new CompilationSession(Defaults, cache, dumper);
    var m := IrModule(Some("jit_g"), "module @jit_g {}", true);
    var callbacks := [HostCallback(7)];
    var r := session.CompileOrGetCached(Backend("tpu", Some(false)), m, [0, 1], NativeDefaults, callbacks, 0.0, 30.0);
    var call := CompilerCall(Backend("tpu", Some(false)), m, NativeDefaults, callbacks);
    assert call == NativeCall(InMemory(m), NativeDefaults, Some(callbacks));
    assert r == Ok(Executable("tpu", call));
    assert cache.entries == map[];
  }

  /** A compile faster than the configured minimum is not written. */
  method FastCompilesAreNotCached() {
    var cache := new PersistentCache(true, false, false, false);
    var dumper := new IrDump.IrDumper();
    var session := new CompilationSession(Defaults.(persistentCacheMinCompileTimeSecs := 2.0), cache, dumper);
    var m := IrModule(Some("jit_h"), "module @jit_h {}", true);
    var r := session.CompileOrGetCached(Backend("gpu", None), m, [0], NativeDefaults, [], 0.0, 0.5);
    assert r.Ok? && cache.entries == map[];
    assert |session.events| == 3;
  }

  /** On CPU the cache is used only when XLA_FLAGS enables the XLA runtime. */
  method CpuNeedsTheRuntimeFlag() {
    var cache := new PersistentCache(true, false, false, false);
    var dumper := new IrDump.IrDumper();
    var m := IrModule(Some("jit_k"), "module @jit_k {}", true);
    var cpu := Backend("cpu", None);

    var plain := new CompilationSession(Defaults, cache, dumper);
    var r := plain.CompileOrGetCached(cpu, m, [0], NativeDefaults, [], 0.0, 3.0);
    assert plain.events == [Compiled("cpu", CompilerCall(cpu, m, NativeDefaults, []))];
    assert cache.entries == map[];

    var flags := "--xla_dump_to=x " + CpuRuntimeFlag;
    assert flags[16..16 + |CpuRuntimeFlag|] == CpuRuntimeFlag;
    assert OccursAt(flags, CpuRuntimeFlag, 16);
    var enabled := new CompilationSession(Defaults.(xlaFlags := flags), cache, dumper);
    r := enabled.CompileOrGetCached(cpu, m, [0], NativeDefaults, [], 0.0, 3.0);
    assert enabled.events[0] == DerivedKey(CacheKey(m, [0], NativeDefaults, "cpu", false));
    assert |cache.entries| == 1;
  }

  /** A failing read is a miss unless strict mode re-raises it before any compile. */
  method ReadFailures() {
    var cache := new PersistentCache(true, false, true, false);
    var dumper := new IrDump.IrDumper();
    var m := IrModule(Some("jit_r"), "module @jit_r {}", true);
    var tpu := Backend("tpu", None);

    var lenient := new CompilationSession(Defaults, cache, dumper);
    var r := lenient.CompileOrGetCached(tpu, m, [0], NativeDefaults, [], 0.0, 4.0);
    assert r.Ok? && lenient.events[2].Compiled?;

    var strict := new CompilationSession(Defaults.(raisePersistentCacheErrors := true), cache, dumper);
    r := strict.CompileOrGetCached(tpu, m, [0], NativeDefaults, [], 0.0, 4.0);
    assert r == Err(CacheReadError) && |strict.events| == 2;
  }

  /** A failing key derivation is not caught, even outside strict mode, and
      stops the compile. */
  method KeyFailuresBlockCompilation() {
    var cache := new PersistentCache(true, true, false, false);
    var dumper := new IrDump.IrDumper();
    var session := new CompilationSession(Defaults, cache, dumper);
    var m := IrModule(Some("jit_q"), "module @jit_q {}", true);
    var r := session.CompileOrGetCached(Backend("gpu", None), m, [0], NativeDefaults, [], 0.0, 4.0);
    assert r == Err(CacheKeyError) && |session.events| == 1;
  }

  /** A failing compile is passed on and nothing is written. */
  method CompileFailuresPropagate() {
    var cache := new PersistentCache(true, false, false, false);
    var dumper := new IrDump.IrDumper();
    var session := new CompilationSession(Defaults, cache, dumper);
    var m := IrModule(Some("bad"), "module @bad {}", false);
    var r := session.CompileOrGetCached(Backend("gpu", None), m, [0], NativeDefaults, [], 0.0, 4.0);
    assert r == Err(CompileError) && cache.entries == map[];
  }

  /** Two dumps in one process get different files. */
  method DumpsDoNotCollide() {
    var cache := new PersistentCache(false, false, false, false);
    var dumper := new IrDump.IrDumper();
    var session := new CompilationSession(Defaults.(dumpIrTo := "/tmp/ir"), cache, dumper);
    var m := IrModule(Some("jit/f"), "module @jit_f {}", true);
    var r := session.CompileOrGetCached(Backend("gpu", None), m, [0], NativeDefaults, [], 0.0, 1.0);
    r := session.CompileOrGetCached(Backend("gpu", None), m, [0], NativeDefaults, [], 0.0, 1.0);
    assert dumper.next == 2;
    IrDump.DumpedFilesDistinct(dumper.written);
    assert dumper.written[0].fileName != dumper.written[1].fileName;
  }

  /** A one-dimensional assignment with one partition becomes a column. */
  method VectorAssignmentBecomesColumn() {
    var devices := Vector([Device(3), Device(1), Device(2)]);
    var r := GetCompileOptions(Defaults, () => 0, 3, 1, Some(devices), true, false, None, None, None, None);
    assert AssignmentAccepted(devices, 3, 1) by {
      assert !HasRawId(Column(devices.entries));
    }
    assert r.Ok?;
    assert r.value.deviceAssignment.value.ids == [[3], [1], [2]];
    assert r.value.profileVersion == -1;

    r := GetCompileOptions(Defaults, () => 0, 3, 2, Some(devices), true, false, None, None, None, None);
    assert r == Err(IndexError) by {
      assert Length(devices) == 3;
    }
  }

  /** An object array of the right shape that mixes integers with devices has
      no `.id` on its integers. */
  method MixedAssignmentsAreRejected() {
    var mixed := Matrix(2, [[RawId(0), Device(1)]]);
    assert ShapedButMixed(mixed, 1, 2) by {
      assert mixed.rows[0][0].RawId? && mixed.rows[0][1].Device?;
    }
    var r := GetCompileOptions(Defaults, () => 0, 1, 2, Some(mixed), true, false, None, None, None, None);
    assert r == Err(AttributeError);
  }
}
