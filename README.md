# JAX compile-or-fetch layer, modelled in Dafny

This project models the layer of JAX that sits between lowering and the XLA
compiler (`jax/_src/compiler.py`). It covers four parts:

- **Compile options** (`get_compile_options`). The builder starts from the
  native default record. It fills in the replica and partition counts, the SPMD
  flags, the FDO profile and the auto-SPMD mesh. It then validates the device
  assignment: a one-dimensional assignment becomes a column when there is one
  partition, and the shape must match the request. After that it flattens the
  environment overrides into pairs, applies the disable-most-optimisations
  switch and resolves the XLA-AutoFDO profile version.
- **IR dumps** (`_make_string_safe_for_filename`, `_dump_ir_to_file`). The
  sanitiser filters the module name. The dump file is named
  `jax_ir<N>_<name>.mlir`, where `N` comes from a process-wide counter.
- **Cache orchestration** (`compile_or_get_cached`, `backend_compile`). The
  layer decides whether the persistent cache applies. On a hit it returns the
  stored executable. On a miss it compiles once and hands the result to the
  write policy.
- **Cache read and write policy** (`_cache_read`, `_cache_write`). Modules with
  host callbacks are never written, and neither are compiles faster than the
  configured minimum. The compile time is stored truncated to whole seconds. A
  cache error is re-raised in strict mode and otherwise becomes a miss (read)
  or is ignored (write).

Files and modules:

- `base.dfy` (`Base`): `Option`, a `Result` whose `Error` names each exception
  the path can raise, and the process-wide `Flags`. The flags are passed
  explicitly rather than read from globals.
- `compile_options.dfy` (`CompileOptionsBuilder`): the options record. It is
  built by a method that updates a record value step by step, as the source
  assigns fields.
- `ir_dump.dfy` (`IrDump`): the sanitiser and its characterisation, decimal
  rendering of the counter, dump file names, and the `IrDumper` class that
  owns the counter.
- `compilation_cache.dfy` (`CompilationCache`): the collaborators, the pure
  decisions, and the `CompilationSession` class. That class's methods are
  `backend_compile`, `_cache_read`, `_cache_write` and
  `compile_or_get_cached`. Every call they make to a collaborator is appended
  to the session's event log: key derivation, cache lookup, native compile,
  cache write and metric.
- `scenarios.dfy` (`Scenarios`): client methods. Each method calls the layer
  with one request pattern and asserts what follows from the contracts alone.
  The patterns are: a miss then a hit, callbacks, a fast
  compile, CPU with and without the runtime flag, read failures, key-derivation
  failures, compile failures, dump-name collisions, the reshaping of a vector
  assignment and the rejection of a mixed one.

Collaborators whose code lies outside this layer are modelled by stand-ins:

- The persistent cache is a `PersistentCache` object. It holds a map from keys
  to entries, an `initialized` flag, and three health flags. These make key
  derivation, reads or writes raise.
- A cache key is the tuple of its inputs: module, devices, options, platform
  and key scheme. This is a collision-free idealisation of the fingerprint.
- Whether the native compiler accepts a module is an opaque property of the
  module. An executable records the platform and the exact native call that
  produced it.
- Clock readings are inputs. `lookupSecs` is the measured cache lookup time
  and `compileSecs` the measured compile time, both non-negative reals.
- The AutoFDO provider is a function value `() -> int` passed to the builder.

Modelling notes, where the code is more specific than its own comments:

- The comment at `jax/_src/compiler.py:150-156` calls the profile-version
  flag unset when it is 0. The code tests `> 0`, so any value `<= 0` counts
  as unset, and the model follows the code.
- The docstring at `jax/_src/compiler.py:85-88` only says that the device
  assignment must be consistent with the replica and partition counts. The
  code raises `ValueError` for a wrong first or second dimension. For a
  one-dimensional assignment whose length matches the replica count and whose
  partition count is anything other than 1, it raises `IndexError`, because
  `shape[1]` does not exist. Where integers and device objects are mixed, it
  raises `AttributeError`, because an integer has no `.id`.
- `ValueError(dimension, found, expected)` stands for the message the code
  formats. That message quotes the whole assignment array and the expected
  count.

## Model

| member | source | states |
|---|---|---|
| `CompileOptionsBuilder.GetCompileOptions` | jax/_src/compiler.py:69-176 | Fails exactly when a device assignment is given and not accepted. The replica check comes first, then the second dimension, then the ids (`AttributeError` for a correctly shaped mix of integers and devices). A stored assignment has the requested replica and computation counts, `replicas × partitions` ids and the caller's ids. Counts and SPMD flags are copied. `fdo_profile` is attached only when given. Mesh shape and ids are set, to `[]` by default, only with auto-SPMD. The overrides are the dictionary's items in insertion order, and they map back to the dictionary. The optimisation switch sets level 0, disables expensive passes and clears input-layout testing, and otherwise leaves the defaults. The profile version follows the three-tier precedence |
| `CompileOptionsBuilder.CreateDeviceAssignment` | jax/_src/compiler.py:112-136 | A vector with one partition becomes an R×1 column. A mismatched first dimension raises `ValueError(Replicas, found, expected)`. A vector with a matching length and a partition count other than 1 raises `IndexError`. A mismatched column count raises `ValueError(Partitions, …)`. A correctly shaped array that mixes integers with devices raises `AttributeError`, and that is the only source of that error. Success holds exactly for the accepted shapes, and then the result has the requested counts and the entries' ids |
| `CompileOptionsBuilder.Column` | jax/_src/compiler.py:119-120 | `a[:, None]`: a vector of length R becomes an R×1 matrix whose row `i` holds entry `i` |
| `CompileOptionsBuilder.IdRows` | jax/_src/compiler.py:130-132 | The `.id` map: same shape as the entry matrix, with each device replaced by its id |
| `CompileOptionsBuilder.EntryCountOfRectangle` | jax/_src/compiler.py:133-136 | A matrix whose rows all have `columns` ids holds `rows × columns` ids |
| `CompileOptionsBuilder.Items` | jax/_src/compiler.py:138-139 | `list(d.items())`: one pair per key, in insertion order, each pairing a key with its value |
| `CompileOptionsBuilder.ItemsRoundTrip` | jax/_src/compiler.py:138-139 | Rebuilding a dictionary from the flattened overrides gives back the original dictionary |
| `CompileOptionsBuilder.ProfileVersion` | jax/_src/compiler.py:150-174 | The flag value when it is positive. Otherwise the provider's value when non-zero. Otherwise -1. The result is never 0 |
| `CompileOptionsBuilder.DefaultProfileVersion` | jax/_src/compiler.py:63-66 | With the shipped provider (always -1), an unset flag yields -1 and a positive flag yields itself |
| `IrDump.MakeStringSafeForFilename` | jax/_src/compiler.py:218-219 | The result holds only word characters and `.`, `(`, `)`, space and `-`. It is no longer than the input, and a string that is already safe is returned unchanged |
| `IrDump.SanitiseIdempotent` | jax/_src/compiler.py:218-219 | Sanitising twice is the same as sanitising once |
| `IrDump.SanitisedIsSubsequence` | jax/_src/compiler.py:218-219 | The sanitised name is a subsequence of the input: characters are only deleted, never reordered |
| `IrDump.SanitiseKeepsSafeCharacters` | jax/_src/compiler.py:218-219 | Each safe character occurs in the result as often as in the input, and each unsafe one not at all |
| `IrDump.SanitiseConcat` | jax/_src/compiler.py:218-219 | Sanitising a concatenation is the concatenation of the sanitised parts, so the sanitiser acts character by character |
| `IrDump.DecimalString` | jax/_src/compiler.py:222-223 | The counter renders as a non-empty string of digits without a leading zero |
| `IrDump.DecimalRoundTrip` | jax/_src/compiler.py:222-223 | Reading the digits back gives the counter value |
| `IrDump.DumpFileName` | jax/_src/compiler.py:223 | The name starts with `jax_ir` and ends with `.mlir`, and every character is filename-safe, so no path separator can come from the module name. Between them sit `str(id)`, `_` and the sanitised module name |
| `IrDump.DumpIdRoundTrip` | jax/_src/compiler.py:222-223 | The counter value can be read back from `jax_ir<N>_<name>.mlir`, whatever the module name |
| `IrDump.DumpFileNamesDistinct` | jax/_src/compiler.py:216-223 | Dumps with different counter values never share a file name |
| `IrDump.DumpedFilesDistinct` | jax/_src/compiler.py:216-225 | In a sequence of dumps numbered 0, 1, 2, …, no two files have the same name |
| `IrDump.IrDumper.constructor` | jax/_src/compiler.py:216 | The counter starts at 0, with nothing written |
| `IrDump.IrDumper.DumpIrToFile` | jax/_src/compiler.py:221-225 | Takes the current counter value, advances the counter by exactly one, and appends one file named from that value and the sanitised module name, holding the IR text. It keeps the invariant that file `n` is named after counter value `n` |
| `CompilationCache.CompilerCall` | jax/_src/compiler.py:190-213 | The module is serialised unless the backend's `needs_str_ir` is explicitly false. `host_callbacks` is passed exactly when non-empty. The options are passed unchanged |
| `CompilationCache.CompilationSession.BackendCompile` | jax/_src/compiler.py:190-213 | Makes exactly one native compile call, following the dispatch rule, and returns its result or its error unchanged |
| `CompilationCache.Contains` | jax/_src/compiler.py:245 | Python's `in` on strings: true exactly when the needle occurs at some index of the haystack |
| `CompilationCache.SupportedPlatforms` | jax/_src/compiler.py:241-246 | Always `tpu` and `gpu`. `cpu` is included exactly when `--xla_cpu_use_xla_runtime=true` occurs in XLA_FLAGS. No other platform is included |
| `CompilationCache.UsesCompilationCache` | jax/_src/compiler.py:241-248 | The cache is used iff it is initialised and the platform is `tpu` or `gpu`, or is `cpu` with `--xla_cpu_use_xla_runtime=true` occurring in XLA_FLAGS |
| `CompilationCache.CacheWriteDecision` | jax/_src/compiler.py:314-336 | Skip iff there are host callbacks. Otherwise skip iff a non-zero minimum is set and the compile was faster. Otherwise write the compile time truncated to whole seconds (`n ≤ t < n + 1`) |
| `CompilationCache.AdmissionMonotone` | jax/_src/compiler.py:320-336 | If a compile time is admitted, any longer one is admitted too, with a stored time at least as large |
| `CompilationCache.CompilationSession.CacheRead` | jax/_src/compiler.py:287-303 | Makes one lookup. It fails iff the cache read raises in strict mode. A non-strict failure becomes a miss (None). Otherwise it returns the stored entry or None |
| `CompilationCache.CompilationSession.CacheWrite` | jax/_src/compiler.py:306-342 | When the admission policy skips, nothing is called or changed. Otherwise it makes one `put` with the truncated time. A failing `put` leaves the cache unchanged and re-raises only in strict mode. A successful one stores the entry under the key |
| `CompilationCache.CompilationSession.CompileThroughCache` | jax/_src/compiler.py:254-284 | The cached path. It derives the key first, and a failure there propagates whatever the strictness. Otherwise it looks the key up, and a strict read failure stops there. A hit returns the stored executable and records the lookup time and the unclamped time saved, without compiling or writing. A miss compiles exactly once, passes a failure through, and then follows the write policy |
| `CompilationCache.CompilationSession.CompileOrGetCached` | jax/_src/compiler.py:228-284 | A module without `sym_name` fails with no effect. The IR is dumped under the next counter value iff a directory is set. An ineligible request makes exactly one compile, returns its result, and derives no key and makes no read or write. An eligible request first derives the key. A failure there propagates whatever the strictness, so nothing is looked up, compiled or written. Otherwise the key is looked up. A strict read failure stops there. A hit returns the stored executable, records the lookup time and the unclamped time saved (stored time minus lookup time), and neither compiles nor writes. A miss compiles exactly once, passes a failure through, and then follows the write policy |

## Left out

- `CompileOptionsBuilder.CreateDeviceAssignment`: the `ValueError` messages, which print the whole assignment array, are abstracted to the dimension, the offending size and the expected count.
- `CompileOptionsBuilder.CreateDeviceAssignment`: device arrays of zero or three or more dimensions, and numpy's choice of a float dtype for an empty array, are not modelled. The model accepts one- and two-dimensional arrays of integers and device objects.
- `IrDump.MakeStringSafeForFilename`: Python's `\w` also keeps non-ASCII letters and digits. The model keeps only the ASCII word characters, because Unicode character classes are not modelled.
- Setting `xla_gpu_cuda_data_dir` from `lib.cuda_path` is not modelled. It copies a library-installation path into the options.
- Logging, `warnings.warn` and the `logger` messages are not modelled. They are diagnostics only. Metric emission is modelled as `Recorded` events.
- Actual file I/O is not modelled. Joining the dump directory to the file name and `write_text` are recorded as a `DumpedFile` value.
- `_module_to_string`, `_module_to_bytecode` and `backend.compile` are opaque. The printed text is a field of the module, bytecode is a symbolic wrapper, and compilation is the `NativeCompile` stand-in.
- The bodies of `compilation_cache.get_cache_key`, `get_executable_and_time`, `put_executable_and_time` and `is_initialized` are not part of this model. They are the stand-ins described above. A failing key derivation is modelled as a single error, `CacheKeyError`.
- `CompilationCache.CompilationSession.CompileOrGetCached`: `is_initialized` is read as a plain flag. A failure of that query, which would also propagate uncaught, is not modelled, and the query is not logged as an event. A cached entry always carries both the executable and its time, so the non-None assertion on a hit holds by construction.
- `time.monotonic` is replaced by the measured durations passed in as inputs.
- Concurrency between processes, and last-write-wins races on the same key, are not modelled. Each call runs to completion.
- `jax/interpreters/xla.py` only re-exports names and is not part of this model.
