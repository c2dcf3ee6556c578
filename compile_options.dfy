/** The compile-options builder (`get_compile_options`): it starts from the
    native default record and fills it in step by step from the request and the
    process-wide flags, normalising and validating the device assignment on the
    way. */
module CompileOptionsBuilder {
  import opened Base

  // ---------------------------------------------------------------------------
  // Device assignments
  // ---------------------------------------------------------------------------

  /** One element of the assignment a caller passes: a plain integer id, or a
      device object whose `.id` is its id. An integer has no `.id`. */
  datatype DeviceEntry = RawId(n: int) | Device(id: int)

  /** The id an element stands for. */
  function IdOf(e: DeviceEntry): int {
    match e
    case RawId(n) => n
    case Device(id) => id
  }

  /** The array `np.array(device_assignment)` yields: one- or two-dimensional.
      A matrix records its column count so that an empty one still has a shape. */
  datatype DeviceArray =
    | Vector(entries: seq<DeviceEntry>)
    | Matrix(columns: nat, rows: seq<seq<DeviceEntry>>)

  /** Every row of a matrix has `columns` entries, as in any numpy array. */
  ghost predicate WellShaped(a: DeviceArray) {
    a.Matrix? ==> forall i | 0 <= i < |a.rows| :: |a.rows[i]| == a.columns
  }

  /** `shape[0]`. */
  function Length(a: DeviceArray): nat {
    match a
    case Vector(es) => |es|
    case Matrix(_, rows) => |rows|
  }

  /** `a[:, None]`: each entry of a vector becomes a one-element row. */
  function Column(es: seq<DeviceEntry>): (m: seq<seq<DeviceEntry>>)
    ensures |m| == |es|
    ensures forall i | 0 <= i < |es| :: m[i] == [es[i]]
  {
    seq(|es|, i requires 0 <= i < |es| => [es[i]])
  }

  /** The array has object dtype: some element is a device object. */
  predicate HasDevice(rows: seq<seq<DeviceEntry>>) {
    exists i, j | 0 <= i < |rows| && 0 <= j < |rows[i]| :: rows[i][j].Device?
  }

  /** Some element is a plain integer. */
  predicate HasRawId(rows: seq<seq<DeviceEntry>>) {
    exists i, j | 0 <= i < |rows| && 0 <= j < |rows[i]| :: rows[i][j].RawId?
  }

  /** An object array holding an integer: `lambda d: d.id` fails on it. */
  predicate MixesIdsAndDevices(rows: seq<seq<DeviceEntry>>) {
    HasDevice(rows) && HasRawId(rows)
  }

  /** The integer matrix handed to `DeviceAssignment.create`. */
  function IdRows(rows: seq<seq<DeviceEntry>>): (ids: seq<seq<int>>)
    ensures |ids| == |rows|
    ensures forall i | 0 <= i < |rows| :: |ids[i]| == |rows[i]|
    ensures forall i, j | 0 <= i < |rows| && 0 <= j < |rows[i]| :: ids[i][j] == IdOf(rows[i][j])
  {
    seq(|rows|, i requires 0 <= i < |rows| => seq(|rows[i]|, j requires 0 <= j < |rows[i]| => IdOf(rows[i][j])))
  }

  /** The assignments `get_compile_options` accepts, stated on the caller's array:
      a vector only with a single partition and one entry per replica, a matrix
      only of shape (replicas, partitions), and in both cases no integer mixed
      in among device objects. */
  predicate AssignmentAccepted(a: DeviceArray, numReplicas: int, numPartitions: int) {
    match a
    case Vector(es) => numPartitions == 1 && |es| == numReplicas && !MixesIdsAndDevices(Column(es))
    case Matrix(columns, rows) => |rows| == numReplicas && columns == numPartitions && !MixesIdsAndDevices(rows)
  }

  /** The shape matches the request but integers and devices are mixed, so
      reading `.id` off every entry fails. */
  predicate ShapedButMixed(a: DeviceArray, numReplicas: int, numPartitions: int) {
    match a
    case Vector(es) => numPartitions == 1 && |es| == numReplicas && MixesIdsAndDevices(Column(es))
    case Matrix(columns, rows) => |rows| == numReplicas && columns == numPartitions && MixesIdsAndDevices(rows)
  }

  /** The native device assignment: replica and computation counts and the ids. */
  datatype DeviceAssignment = DeviceAssignment(replicaCount: nat, computationCount: nat, ids: seq<seq<int>>)

  /** The number of ids in a matrix. */
  function EntryCount(ids: seq<seq<int>>): nat {
    if ids == [] then 0 else EntryCount(ids[..|ids| - 1]) + |ids[|ids| - 1]|
  }

  /** A matrix whose rows all have `columns` entries holds rows × columns ids. */
  lemma {:induction false} EntryCountOfRectangle(ids: seq<seq<int>>, columns: nat)
    requires forall i | 0 <= i < |ids| :: |ids[i]| == columns
    ensures EntryCount(ids) == |ids| * columns
  {
    if ids != [] {
      EntryCountOfRectangle(ids[..|ids| - 1], columns);
    }
  }

  // ---------------------------------------------------------------------------
  // Environment option overrides
  // ---------------------------------------------------------------------------

  /** A Python `dict[str, str]`: its keys in insertion order and its table. */
  datatype StrDict = StrDict(order: seq<string>, table: map<string, string>) {
    ghost predicate Valid() {
      && (forall i, j | 0 <= i < j < |order| :: order[i] != order[j])
      && table.Keys == set k | k in order
    }
  }

  /** `list(d.items())`: one (key, value) pair per key, in insertion order. */
  function Items(order: seq<string>, table: map<string, string>): (ps: seq<(string, string)>)
    requires forall k | k in order :: k in table
    ensures |ps| == |order|
    ensures forall i | 0 <= i < |order| :: ps[i] == (order[i], table[order[i]])
  {
    if order == [] then []
    else Items(order[..|order| - 1], table) + [(order[|order| - 1], table[order[|order| - 1]])]
  }

  /** `dict(pairs)`: a later pair for the same key wins. */
  function PairsToMap(ps: seq<(string, string)>): map<string, string> {
    if ps == [] then map[]
    else PairsToMap(ps[..|ps| - 1])[ps[|ps| - 1].0 := ps[|ps| - 1].1]
  }

  lemma {:induction false} ItemsToMap(order: seq<string>, table: map<string, string>)
    requires forall k | k in order :: k in table
    ensures PairsToMap(Items(order, table)) == map k | k in order :: table[k]
  {
    if order != [] {
      var prefix := order[..|order| - 1];
      ItemsToMap(prefix, table);
      assert Items(order, table)[..|order| - 1] == Items(prefix, table);
    }
  }

  /** The flattened overrides describe the dictionary exactly: `dict(list(d.items())) == d`. */
  lemma ItemsRoundTrip(d: StrDict)
    requires d.Valid()
    ensures PairsToMap(Items(d.order, d.table)) == d.table
  {
    ItemsToMap(d.order, d.table);
  }

  // ---------------------------------------------------------------------------
  // The options record
  // ---------------------------------------------------------------------------

  /** Debug options; None leaves the native default in place. */
  datatype DebugOptions = DebugOptions(
    backendOptimizationLevel: Option<int>,     // xla_backend_optimization_level
    llvmDisableExpensivePasses: Option<bool>,  // xla_llvm_disable_expensive_passes
    testAllInputLayouts: Option<bool>)         // xla_test_all_input_layouts

  /** Executable build options; None leaves the native default in place. */
  datatype BuildOptions = BuildOptions(
    useSpmdPartitioning: bool,
    useAutoSpmdPartitioning: bool,
    fdoProfile: Option<seq<bv8>>,
    autoSpmdMeshShape: Option<seq<int>>,
    autoSpmdMeshIds: Option<seq<int>>,
    debug: DebugOptions)

  datatype CompileOptions = CompileOptions(
    numReplicas: int,
    numPartitions: int,
    deviceAssignment: Option<DeviceAssignment>,
    envOptionOverrides: Option<seq<(string, string)>>,
    profileVersion: int,
    build: BuildOptions)

  /** `xc.CompileOptions()` as the builder finds it. */
  const NativeDefaults := CompileOptions(
    1, 1, None, None, 0,
    BuildOptions(false, false, None, None, None, DebugOptions(None, None, None)))

  /** The XLA-AutoFDO profile version: the flag when it is positive; otherwise
      the replaceable provider's answer when that is non-zero; otherwise -1,
      meaning "do not try to retrieve a profile". Never 0. */
  function ProfileVersion(flagVersion: int, latestProfileVersion: () -> int): (v: int)
    ensures v != 0
    ensures flagVersion > 0 ==> v == flagVersion
    ensures flagVersion <= 0 && latestProfileVersion() != 0 ==> v == latestProfileVersion()
    ensures flagVersion <= 0 && latestProfileVersion() == 0 ==> v == -1
  {
    if flagVersion > 0 then flagVersion
    else
      var latest := latestProfileVersion();
      if latest != 0 then latest else -1
  }

  /** `get_latest_profile_version` as shipped, before anything replaces it. */
  function DefaultLatestProfileVersion(): int {
    -1
  }

  /** With the shipped provider an unset flag always yields -1. */
  lemma DefaultProfileVersion(flagVersion: int)
    ensures ProfileVersion(flagVersion, DefaultLatestProfileVersion) == if flagVersion > 0 then flagVersion else -1
  {
  }

  /** The device-assignment step of `get_compile_options`: normalise a caller's device
      assignment and check it against the requested replica and partition
      counts. */
  method CreateDeviceAssignment(a0: DeviceArray, numReplicas: int, numPartitions: int)
    returns (r: Result<DeviceAssignment>)
    requires WellShaped(a0)
    // Accepted exactly when the shape matches and no integer hides among devices.
    ensures r.Ok? <==> AssignmentAccepted(a0, numReplicas, numPartitions)
    // Which error: the replica count is checked first, then the second dimension, then the ids.
    ensures Length(a0) != numReplicas ==> r == Err(ValueError(Replicas, Length(a0), numReplicas))
    ensures (a0.Vector? && numPartitions != 1 && Length(a0) == numReplicas) ==> r == Err(IndexError)
    ensures (a0.Matrix? && Length(a0) == numReplicas && a0.columns != numPartitions) ==>
              r == Err(ValueError(Partitions, a0.columns, numPartitions))
    ensures ShapedButMixed(a0, numReplicas, numPartitions) ==> r == Err(AttributeError)
    ensures r.Err? && r.error.AttributeError? ==> ShapedButMixed(a0, numReplicas, numPartitions)
    ensures r.Err? ==> r.error.ValueError? || r.error.IndexError? || r.error.AttributeError?
    // What is stored has exactly the requested shape and the caller's ids.
    ensures r.Ok? ==>
              && r.value.replicaCount == numReplicas && r.value.computationCount == numPartitions
              && |r.value.ids| == numReplicas
              && (forall i | 0 <= i < |r.value.ids| :: |r.value.ids[i]| == numPartitions)
              && EntryCount(r.value.ids) == numReplicas * numPartitions
    ensures r.Ok? && a0.Vector? ==>
              r.value.ids == seq(|a0.entries|, i requires 0 <= i < |a0.entries| => [IdOf(a0.entries[i])])
    ensures r.Ok? && a0.Matrix? ==> r.value.ids == IdRows(a0.rows)
  {
    var a := a0;
    // A one-dimensional assignment is allowed when there is a single partition.
    if a.Vector? && numPartitions == 1 {
      a := Matrix(1, Column(a.entries));
    }
    if numReplicas != Length(a) {
      return Err(ValueError(Replicas, Length(a), numReplicas));
    }
    if a.Vector? {
      // `shape[1]` does not exist on a one-dimensional array.
      return Err(IndexError);
    }
    if numPartitions != a.columns {
      return Err(ValueError(Partitions, a.columns, numPartitions));
    }
    if HasDevice(a.rows) && HasRawId(a.rows) {
      return Err(AttributeError);
    }
    var ids := IdRows(a.rows);
    if a0.Vector? {
      var es := a0.entries;
      forall i | 0 <= i < |es| ensures ids[i] == [IdOf(es[i])] {
        assert a.rows[i] == [es[i]];
      }
      assert ids == seq(|es|, i requires 0 <= i < |es| => [IdOf(es[i])]);
    }
    var assignment := DeviceAssignment(|ids|, a.columns, ids);
    assert assignment.replicaCount == numReplicas;
    assert assignment.computationCount == numPartitions;
    EntryCountOfRectangle(ids, a.columns);
    return Ok(assignment);
  }

  /** `get_compile_options`. The Python defaults (`use_spmd_partitioning=True`,
      everything else off or None) are the caller's to pass. */
  method GetCompileOptions(
    flags: Flags,
    latestProfileVersion: () -> int,
    numReplicas: int,
    numPartitions: int,
    deviceAssignment: Option<DeviceArray>,
    useSpmdPartitioning: bool,
    useAutoSpmdPartitioning: bool,
    autoSpmdMeshShape: Option<seq<int>>,
    autoSpmdMeshIds: Option<seq<int>>,
    envOptionsOverrides: Option<StrDict>,
    fdoProfile: Option<seq<bv8>>)
    returns (r: Result<CompileOptions>)
    requires deviceAssignment.Some? ==> WellShaped(deviceAssignment.value)
    requires envOptionsOverrides.Some? ==> envOptionsOverrides.value.Valid()
    // Only the device assignment can make the builder fail, and then nothing is built.
    ensures r.Err? <==> deviceAssignment.Some? && !AssignmentAccepted(deviceAssignment.value, numReplicas, numPartitions)
    ensures deviceAssignment.Some? && Length(deviceAssignment.value) != numReplicas ==>
              r == Err(ValueError(Replicas, Length(deviceAssignment.value), numReplicas))
    ensures (deviceAssignment.Some? && deviceAssignment.value.Vector? && numPartitions != 1
             && Length(deviceAssignment.value) == numReplicas) ==> r == Err(IndexError)
    ensures (deviceAssignment.Some? && deviceAssignment.value.Matrix? && Length(deviceAssignment.value) == numReplicas
             && deviceAssignment.value.columns != numPartitions) ==>
              r == Err(ValueError(Partitions, deviceAssignment.value.columns, numPartitions))
    ensures deviceAssignment.Some? && ShapedButMixed(deviceAssignment.value, numReplicas, numPartitions) ==>
              r == Err(AttributeError)
    ensures r.Err? ==> r.error.ValueError? || r.error.IndexError? || r.error.AttributeError?
    // A stored assignment has exactly the requested shape and holds the caller's ids.
    ensures r.Ok? && deviceAssignment.Some? ==>
              && r.value.deviceAssignment.Some?
              && r.value.deviceAssignment.value.replicaCount == numReplicas
              && r.value.deviceAssignment.value.computationCount == numPartitions
              && EntryCount(r.value.deviceAssignment.value.ids) == numReplicas * numPartitions
    ensures r.Ok? && deviceAssignment.Some? && deviceAssignment.value.Vector? ==>
              var es := deviceAssignment.value.entries;
              r.value.deviceAssignment.value.ids == seq(|es|, i requires 0 <= i < |es| => [IdOf(es[i])])
    ensures r.Ok? && deviceAssignment.Some? && deviceAssignment.value.Matrix? ==>
              r.value.deviceAssignment.value.ids == IdRows(deviceAssignment.value.rows)
    ensures r.Ok? && deviceAssignment.None? ==> r.value.deviceAssignment.None?
    // The remaining fields.
    ensures r.Ok? ==>
              && r.value.numReplicas == numReplicas
              && r.value.numPartitions == numPartitions
              && r.value.build.useSpmdPartitioning == useSpmdPartitioning
              && r.value.build.useAutoSpmdPartitioning == useAutoSpmdPartitioning
              && r.value.build.fdoProfile == fdoProfile
    ensures r.Ok? && useAutoSpmdPartitioning ==>
              && r.value.build.autoSpmdMeshShape == Some(autoSpmdMeshShape.GetOr([]))
              && r.value.build.autoSpmdMeshIds == Some(autoSpmdMeshIds.GetOr([]))
    ensures r.Ok? && !useAutoSpmdPartitioning ==>
              r.value.build.autoSpmdMeshShape.None? && r.value.build.autoSpmdMeshIds.None?
    ensures r.Ok? && envOptionsOverrides.None? ==> r.value.envOptionOverrides.None?
    ensures r.Ok? && envOptionsOverrides.Some? ==>
              && r.value.envOptionOverrides.Some?
              && r.value.envOptionOverrides.value == Items(envOptionsOverrides.value.order, envOptionsOverrides.value.table)
              && PairsToMap(r.value.envOptionOverrides.value) == envOptionsOverrides.value.table
    ensures r.Ok? && flags.disableMostOptimizations ==>
              r.value.build.debug == DebugOptions(Some(0), Some(true), Some(false))
    ensures r.Ok? && !flags.disableMostOptimizations ==> r.value.build.debug == NativeDefaults.build.debug
    ensures r.Ok? ==> r.value.profileVersion == ProfileVersion(flags.xlaProfileVersion, latestProfileVersion)
  {
    var options := NativeDefaults.(numReplicas := numReplicas, numPartitions := numPartitions);
    var build := options.build.(useSpmdPartitioning := useSpmdPartitioning,
                                useAutoSpmdPartitioning := useAutoSpmdPartitioning);
    if fdoProfile.Some? {
      build := build.(fdoProfile := fdoProfile);
    }
    if useAutoSpmdPartitioning {
      build := build.(autoSpmdMeshShape := Some(autoSpmdMeshShape.GetOr([])),
                      autoSpmdMeshIds := Some(autoSpmdMeshIds.GetOr([])));
    }
    options := options.(build := build);

    if deviceAssignment.Some? {
      var assignment := CreateDeviceAssignment(deviceAssignment.value, numReplicas, numPartitions);
      if assignment.Err? {
        return Err(assignment.error);
      }
      options := options.(deviceAssignment := Some(assignment.value));
    }

    if envOptionsOverrides.Some? {
      var d := envOptionsOverrides.value;
      ItemsRoundTrip(d);
      options := options.(envOptionOverrides := Some(Items(d.order, d.table)));
    }

    var debug := options.build.debug;
    if flags.disableMostOptimizations {
      debug := debug.(backendOptimizationLevel := Some(0),
                      llvmDisableExpensivePasses := Some(true),
                      testAllInputLayouts := Some(false));
    }
    options := options.(build := options.build.(debug := debug));

    options := options.(profileVersion := ProfileVersion(flags.xlaProfileVersion, latestProfileVersion));
    return Ok(options);
  }
}
