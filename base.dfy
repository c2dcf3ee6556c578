/** Vocabulary shared by the compile path: optional values, results carrying
    the exceptions the path can raise, and the process-wide configuration it
    reads (JAX flags and the XLA_FLAGS environment variable). */
module Base {

  datatype Option<+T> = None | Some(value: T) {
    /** Python's `x or []` on an optional list. */
    function GetOr(default: T): T {
      match this
      case Some(v) => v
      case None => default
    }
  }

  /** Which dimension of a device assignment disagreed with the request. */
  datatype Dimension = Replicas | Partitions

  /** The exceptions that leave the compile path. */
  datatype Error =
    | ValueError(dimension: Dimension, found: int, expected: int)  // device assignment shape mismatch
    | IndexError        // `shape[1]` of a one-dimensional device assignment
    | AttributeError    // a plain integer in an object-typed device assignment has no `.id`
    | KeyError          // the module has no `sym_name` attribute
    | CompileError      // the native compiler rejected the module
    | CacheKeyError     // deriving the persistent cache key failed
    | CacheReadError    // the persistent cache failed while reading
    | CacheWriteError   // the persistent cache failed while writing

  datatype Result<+T> = Ok(value: T) | Err(error: Error)

  /** Process-wide configuration, passed explicitly. */
  datatype Flags = Flags(
    disableMostOptimizations: bool,         // jax_disable_most_optimizations
    dumpIrTo: string,                       // jax_dump_ir_to ("" disables dumping)
    xlaProfileVersion: int,                 // jax_xla_profile_version (a value <= 0 means unset)
    raisePersistentCacheErrors: bool,       // jax_raise_persistent_cache_errors
    persistentCacheMinCompileTimeSecs: real, // jax_persistent_cache_min_compile_time_secs
    useOriginalKeyGeneration: bool,         // jax_use_original_compilation_cache_key_generation
    xlaFlags: string)                       // the XLA_FLAGS environment variable ("" when unset)
}
