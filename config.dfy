/** The configuration aggregate (`app/src/config/mod.rs`): defaulting of the
    base configuration, the error mapping of one source, the fail-fast load of
    the three sources, and the device index built once on first demand. */
module Configuration {
  import opened Wrappers
  import opened Machine
  import opened Camera
  import opened Devices
  import opened AabbTrees

  // Defaults of the optional base-configuration fields.
  const DEFAULT_HPE_ADDR: string := "/tmp/hpe.sock"
  const DEFAULT_HEAD_DETECTION_ADDR: string := "/tmp/head.sock"
  const DEFAULT_GESTURE_DETECTION_ADDR: string := "/tmp/gesture.sock"
  const DEFAULT_PICAM_ADDR: string := "/tmp/picam.sock"
  const DEFAULT_POOL_SIZE: Usize := 3

  // The file names `open` joins to the configuration directory.
  const CAMERA1_FILE: string := "camera1-params.json"
  const CAMERA2_FILE: string := "camera2-params.json"
  const BASE_CONFIG_FILE: string := "config.json"

  /** The note attached to a report when a file cannot be read. */
  const READ_FAILURE_NOTE: string := "Couldn't read the config file"

  /** The application's error kind. Only `ConfigError` arises here. */
  datatype GError = ConfigError

  datatype IoError = IoError(message: string)

  /** What the JSON decoder reports: text that is not the expected shape, or a
      required field that is absent. */
  datatype JsonError = InvalidJson(message: string) | MissingField(field: string)

  datatype Cause = Io(ioError: IoError) | Json(jsonError: JsonError)

  /** An `error_stack::Report<GError>`: its current context, the error it
      wraps and the printable attachments. */
  datatype Report = Report(context: GError, cause: Cause, attachments: seq<string>)

  /** What reading and decoding one file produced. The decoding is only done
      when the read succeeded, so an unreadable file carries no decoding. */
  datatype RawSource<T> = Unreadable(ioError: IoError) | Read(decoded: Result<T, JsonError>)

  type Point3 = (real, real, real)

  /** A base configuration file as the decoder sees it: every field may be absent. */
  datatype PartialBaseConfig = PartialBaseConfig(
    camera1Pos: Option<Point3>,
    devices: Option<seq<Device>>,
    hpeAddr: Option<string>,
    headDetectionAddr: Option<string>,
    gestureDetectionAddr: Option<string>,
    picamAddr: Option<string>,
    poolSize: Option<Usize>)

  datatype BaseConfig = BaseConfig(
    camera1Pos: Point3,
    devices: seq<Device>,
    hpeAddr: string,
    headDetectionAddr: string,
    gestureDetectionAddr: string,
    picamAddr: string,
    poolSize: Usize)

  /** `#[derive(Deserialize)]` on `BaseConfig`: the two required fields must be
      present (missing ones are reported in declaration order), the optional
      ones take their default when absent. */
  function FromPartial(p: PartialBaseConfig): (r: Result<BaseConfig, JsonError>)
    ensures r.Success? <==> p.camera1Pos.Some? && p.devices.Some?
    ensures p.camera1Pos.None? ==> r == Failure(MissingField("camera1_pos"))
    ensures p.camera1Pos.Some? && p.devices.None? ==> r == Failure(MissingField("devices"))
    ensures r.Success? ==> r.value.camera1Pos == p.camera1Pos.value && r.value.devices == p.devices.value
    ensures r.Success? ==>
      && (p.hpeAddr.Some? ==> r.value.hpeAddr == p.hpeAddr.value)
      && (p.hpeAddr.None? ==> r.value.hpeAddr == DEFAULT_HPE_ADDR)
      && (p.headDetectionAddr.Some? ==> r.value.headDetectionAddr == p.headDetectionAddr.value)
      && (p.headDetectionAddr.None? ==> r.value.headDetectionAddr == DEFAULT_HEAD_DETECTION_ADDR)
      && (p.gestureDetectionAddr.Some? ==> r.value.gestureDetectionAddr == p.gestureDetectionAddr.value)
      && (p.gestureDetectionAddr.None? ==> r.value.gestureDetectionAddr == DEFAULT_GESTURE_DETECTION_ADDR)
      && (p.picamAddr.Some? ==> r.value.picamAddr == p.picamAddr.value)
      && (p.picamAddr.None? ==> r.value.picamAddr == DEFAULT_PICAM_ADDR)
      && (p.poolSize.Some? ==> r.value.poolSize == p.poolSize.value)
      && (p.poolSize.None? ==> r.value.poolSize == DEFAULT_POOL_SIZE)
  {
    if p.camera1Pos.None? then Failure(MissingField("camera1_pos"))
    else if p.devices.None? then Failure(MissingField("devices"))
    else Success(BaseConfig(
      p.camera1Pos.value,
      p.devices.value,
      p.hpeAddr.GetOr(DEFAULT_HPE_ADDR),
      p.headDetectionAddr.GetOr(DEFAULT_HEAD_DETECTION_ADDR),
      p.gestureDetectionAddr.GetOr(DEFAULT_GESTURE_DETECTION_ADDR),
      p.picamAddr.GetOr(DEFAULT_PICAM_ADDR),
      p.poolSize.GetOr(DEFAULT_POOL_SIZE)))
  }

  /** The file that writes every field of `b` out explicitly. */
  function Complete(b: BaseConfig): PartialBaseConfig {
    PartialBaseConfig(Some(b.camera1Pos), Some(b.devices), Some(b.hpeAddr),
      Some(b.headDetectionAddr), Some(b.gestureDetectionAddr), Some(b.picamAddr), Some(b.poolSize))
  }

  /** A configuration written out in full decodes to itself: present values are
      never replaced by defaults. */
  lemma CompleteRoundTrip(b: BaseConfig)
    ensures FromPartial(Complete(b)) == Success(b)
  {
  }

  /** A file holding only the two required fields yields every default. */
  lemma MinimalFileTakesDefaults(pos: Point3, devices: seq<Device>)
    ensures FromPartial(PartialBaseConfig(Some(pos), Some(devices), None, None, None, None, None))
      == Success(BaseConfig(pos, devices, "/tmp/hpe.sock", "/tmp/head.sock",
                            "/tmp/gesture.sock", "/tmp/picam.sock", 3))
  {
  }

  /** Decoding of the base file: the decoder's partial record is completed by
      `FromPartial`; read and syntax failures pass through unchanged. */
  function DecodeBase(src: RawSource<PartialBaseConfig>): RawSource<BaseConfig> {
    match src
    case Unreadable(e) => Unreadable(e)
    case Read(Failure(e)) => Read(Failure(e))
    case Read(Success(p)) => Read(FromPartial(p))
  }

  /** `read_json_from_file`: both failures become a `ConfigError` report
      wrapping the original error; only the read failure carries a note. */
  function ReadJsonFromFile<T>(src: RawSource<T>): (r: Result<T, Report>)
    ensures r.Success? <==> src.Read? && src.decoded.Success?
    ensures r.Success? ==> r.value == src.decoded.value
    ensures r.Failure? ==> r.error.context == ConfigError
    ensures r.Failure? ==> (r.error.attachments != [] <==> src.Unreadable?)
    ensures src.Unreadable? ==> r.error.cause == Io(src.ioError) && r.error.attachments == [READ_FAILURE_NOTE]
    ensures src.Read? && src.decoded.Failure? ==> r.error.cause == Json(src.decoded.error)
  {
    match src
    case Unreadable(e) => Failure(Report(ConfigError, Io(e), [READ_FAILURE_NOTE]))
    case Read(Failure(e)) => Failure(Report(ConfigError, Json(e), []))
    case Read(Success(v)) => Success(v)
  }

  /** The three parsed parts of a configuration. */
  datatype Loaded = Loaded(camera1: CameraProperties, camera2: CameraProperties, baseConfig: BaseConfig)

  /** The `?`-chain of `Config::open`: camera1, then camera2, then the base
      configuration; the first failure is the result. */
  function Load(camera1: RawSource<CameraProperties>, camera2: RawSource<CameraProperties>,
                base: RawSource<PartialBaseConfig>): (r: Result<Loaded, Report>)
    ensures r.Success? <==>
      ReadJsonFromFile(camera1).Success? && ReadJsonFromFile(camera2).Success?
      && ReadJsonFromFile(DecodeBase(base)).Success?
    ensures ReadJsonFromFile(camera1).Failure? ==> r == Failure(ReadJsonFromFile(camera1).error)
    ensures ReadJsonFromFile(camera1).Success? && ReadJsonFromFile(camera2).Failure? ==>
      r == Failure(ReadJsonFromFile(camera2).error)
    ensures (ReadJsonFromFile(camera1).Success? && ReadJsonFromFile(camera2).Success?
             && ReadJsonFromFile(DecodeBase(base)).Failure?) ==>
      r == Failure(ReadJsonFromFile(DecodeBase(base)).error)
    ensures r.Success? ==>
      && r.value.camera1 == camera1.decoded.value
      && r.value.camera2 == camera2.decoded.value
      && FromPartial(base.decoded.value) == Success(r.value.baseConfig)
  {
    var c1 :- ReadJsonFromFile(camera1);
    var c2 :- ReadJsonFromFile(camera2);
    var b :- ReadJsonFromFile(DecodeBase(base));
    Success(Loaded(c1, c2, b))
  }

  /** With both calibrations read, the load fails exactly when completing the
      base record fails, and then reports that decoding error with no note. */
  lemma LoadDecodesBaseByFromPartial(c1: CameraProperties, c2: CameraProperties, p: PartialBaseConfig)
    ensures Load(Read(Success(c1)), Read(Success(c2)), Read(Success(p))).Failure? <==> FromPartial(p).Failure?
    ensures FromPartial(p).Failure? ==>
      Load(Read(Success(c1)), Read(Success(c2)), Read(Success(p)))
        == Failure(Report(ConfigError, Json(FromPartial(p).error), []))
    ensures FromPartial(p).Success? ==>
      Load(Read(Success(c1)), Read(Success(c2)), Read(Success(p))) == Success(Loaded(c1, c2, FromPartial(p).value))
  {
  }

  /** Once camera1 fails, neither camera2 nor the base file affects the outcome. */
  lemma LoadStopsAtCamera1(camera1: RawSource<CameraProperties>,
                           camera2: RawSource<CameraProperties>, camera2': RawSource<CameraProperties>,
                           base: RawSource<PartialBaseConfig>, base': RawSource<PartialBaseConfig>)
    requires ReadJsonFromFile(camera1).Failure?
    ensures Load(camera1, camera2, base) == Load(camera1, camera2', base')
  {
  }

  /** Once camera2 fails, the base file does not affect the outcome. */
  lemma LoadStopsAtCamera2(camera1: RawSource<CameraProperties>, camera2: RawSource<CameraProperties>,
                           base: RawSource<PartialBaseConfig>, base': RawSource<PartialBaseConfig>)
    requires ReadJsonFromFile(camera2).Failure?
    ensures Load(camera1, camera2, base) == Load(camera1, camera2, base')
  {
  }

  /** A base file missing a required field fails the whole load, even when
      both calibration files are valid. */
  lemma MissingRequiredFieldFailsLoad(c1: CameraProperties, c2: CameraProperties, p: PartialBaseConfig)
    requires p.camera1Pos.None? || p.devices.None?
    ensures Load(Read(Success(c1)), Read(Success(c2)), Read(Success(p))).Failure?
    ensures Load(Read(Success(c1)), Read(Success(c2)), Read(Success(p))).error.cause.Json?
  {
  }

  /** The loader accepts a calibration whose rotation is the default zero
      matrix, which is no rotation at all. */
  lemma LoadAcceptsDegenerateRotation(c2: CameraProperties, pos: Point3, devices: seq<Device>)
    ensures !IsRotation(Default().rotationMatrix)
    ensures Load(Read(Success(Default())), Read(Success(c2)),
                 Read(Success(PartialBaseConfig(Some(pos), Some(devices), None, None, None, None, None)))).Success?
  {
    assert Determinant(Default().rotationMatrix) == 0.0;
  }

  /** The loader accepts every device list as it stands, boxes empty on some
      axis included: no device is checked or dropped. */
  lemma LoadAcceptsAnyDevices(c1: CameraProperties, c2: CameraProperties, pos: Point3, devices: seq<Device>)
    ensures Load(Read(Success(c1)), Read(Success(c2)),
                 Read(Success(PartialBaseConfig(Some(pos), Some(devices), None, None, None, None, None)))).Success?
    ensures Load(Read(Success(c1)), Read(Success(c2)),
                 Read(Success(PartialBaseConfig(Some(pos), Some(devices), None, None, None, None, None)))).value.baseConfig.devices
      == devices
  {
  }

  /** The tree `aabbtree()` builds: all devices, no depth limit, buckets of one. */
  function IndexOf(devices: seq<Device>): AabbTree3D {
    BuildTree(devices, USIZE_MAX, 1)
  }

  /** `OnceLock::get_or_init` with the builder of `aabbtree()`: the new cell
      and the tree handed out. */
  function GetOrInit(cell: Option<AabbTree3D>, devices: seq<Device>): (r: (Option<AabbTree3D>, AabbTree3D))
    ensures r.0 == Some(r.1)
    ensures cell.Some? ==> r.1 == cell.value
    ensures cell.None? ==> r.1 == IndexOf(devices)
  {
    match cell
    case Some(t) => (cell, t)
    case None => (Some(IndexOf(devices)), IndexOf(devices))
  }

  /** One access to a loaded `Config`: a call to `aabbtree()`, or a write of
      the base configuration through `DerefMut`. */
  datatype Access = CallAabbtree | WriteBase(newBase: BaseConfig)

  /** The state after a sequence of accesses, the trees the calls returned, in
      order, and how many times the tree was built. */
  datatype Outcome = Outcome(base: BaseConfig, cell: Option<AabbTree3D>, observed: seq<AabbTree3D>, builds: nat)

  function Replay(base: BaseConfig, cell: Option<AabbTree3D>, accesses: seq<Access>): Outcome
    decreases |accesses|
  {
    if accesses == [] then Outcome(base, cell, [], 0)
    else match accesses[0]
      case CallAabbtree =>
        var (cell', t) := GetOrInit(cell, base.devices);
        var rest := Replay(base, cell', accesses[1..]);
        rest.(observed := [t] + rest.observed, builds := rest.builds + if cell.None? then 1 else 0)
      case WriteBase(b) => Replay(b, cell, accesses[1..])
  }

  function CallCount(accesses: seq<Access>): nat {
    if accesses == [] then 0 else (if accesses[0].CallAabbtree? then 1 else 0) + CallCount(accesses[1..])
  }

  /** Every call returns exactly one tree, in the order of the calls. */
  lemma {:induction false} ReplayObservesEveryCall(base: BaseConfig, cell: Option<AabbTree3D>, accesses: seq<Access>)
    ensures |Replay(base, cell, accesses).observed| == CallCount(accesses)
    decreases |accesses|
  {
    if accesses != [] {
      match accesses[0]
      case CallAabbtree => ReplayObservesEveryCall(base, GetOrInit(cell, base.devices).0, accesses[1..]);
      case WriteBase(b) => ReplayObservesEveryCall(b, cell, accesses[1..]);
    }
  }

  /** A filled cell is never rebuilt nor changed, whatever is written to the
      base configuration, and every call returns the cached tree. */
  lemma {:induction false} FilledCellIsFinal(base: BaseConfig, t: AabbTree3D, accesses: seq<Access>)
    ensures Replay(base, Some(t), accesses).cell == Some(t)
    ensures Replay(base, Some(t), accesses).builds == 0
    ensures forall i :: 0 <= i < |Replay(base, Some(t), accesses).observed| ==>
      Replay(base, Some(t), accesses).observed[i] == t
    decreases |accesses|
  {
    if accesses != [] {
      match accesses[0]
      case CallAabbtree => FilledCellIsFinal(base, t, accesses[1..]);
      case WriteBase(b) => FilledCellIsFinal(b, t, accesses[1..]);
    }
  }

  /** From a fresh configuration the tree is built at most once, exactly when
      some call is made, and all callers observe that one tree, the one left
      in the cell. */
  lemma {:induction false} BuiltAtMostOnce(base: BaseConfig, cell: Option<AabbTree3D>, accesses: seq<Access>)
    ensures Replay(base, cell, accesses).builds <= 1
    ensures Replay(base, cell, accesses).builds == 1 <==> cell.None? && CallCount(accesses) > 0
    ensures forall i :: 0 <= i < |Replay(base, cell, accesses).observed| ==>
      Replay(base, cell, accesses).cell == Some(Replay(base, cell, accesses).observed[i])
    decreases |accesses|
  {
    if accesses != [] {
      match accesses[0]
      case CallAabbtree =>
        var (cell', t) := GetOrInit(cell, base.devices);
        FilledCellIsFinal(base, t, accesses[1..]);
      case WriteBase(b) =>
        BuiltAtMostOnce(b, cell, accesses[1..]);
    }
  }

  /** While no write replaces the device list, every call returns the index of
      the current devices; other base fields may change meanwhile. */
  lemma {:induction false} IndexTracksUnchangedDevices(base: BaseConfig, cell: Option<AabbTree3D>, accesses: seq<Access>)
    requires cell.None? || cell == Some(IndexOf(base.devices))
    requires forall i :: 0 <= i < |accesses| && accesses[i].WriteBase? ==> accesses[i].newBase.devices == base.devices
    ensures Replay(base, cell, accesses).base.devices == base.devices
    ensures forall i :: 0 <= i < |Replay(base, cell, accesses).observed| ==>
      Replay(base, cell, accesses).observed[i] == IndexOf(base.devices)
    decreases |accesses|
  {
    if accesses != [] {
      assert forall i :: 0 <= i < |accesses[1..]| ==> accesses[1..][i] == accesses[i + 1];
      match accesses[0]
      case CallAabbtree =>
        IndexTracksUnchangedDevices(base, GetOrInit(cell, base.devices).0, accesses[1..]);
      case WriteBase(b) =>
        IndexTracksUnchangedDevices(b, cell, accesses[1..]);
    }
  }

  /** The first call fixes the index: whatever follows it, the cell holds the
      index of the devices at that call and every call returns it. */
  lemma {:induction false} FirstCallFixesIndex(base: BaseConfig, rest: seq<Access>)
    ensures Replay(base, None, [CallAabbtree] + rest).cell == Some(IndexOf(base.devices))
    ensures forall i :: 0 <= i < |Replay(base, None, [CallAabbtree] + rest).observed| ==>
      Replay(base, None, [CallAabbtree] + rest).observed[i] == IndexOf(base.devices)
  {
    assert ([CallAabbtree] + rest)[1..] == rest;
    FilledCellIsFinal(base, IndexOf(base.devices), rest);
  }

  /** Replacing the devices after the first call leaves the index stale: every
      later call still returns the tree of the old devices, which differs from
      the devices now configured. */
  lemma {:induction false} StaleAfterDeviceWrite(base: BaseConfig, b: BaseConfig, rest: seq<Access>)
    requires b.devices != base.devices
    ensures forall i :: 0 <= i < |Replay(base, None, [CallAabbtree, WriteBase(b)] + rest).observed| ==>
      && Replay(base, None, [CallAabbtree, WriteBase(b)] + rest).observed[i] == IndexOf(base.devices)
      && Leaves(Replay(base, None, [CallAabbtree, WriteBase(b)] + rest).observed[i]) != b.devices
  {
    assert [CallAabbtree, WriteBase(b)] + rest == [CallAabbtree] + ([WriteBase(b)] + rest);
    FirstCallFixesIndex(base, [WriteBase(b)] + rest);
  }

  /** `Config`: the two calibrations, the base configuration and the
      `OnceLock` cell of the device index. The base configuration's fields are
      reached directly, which is what `Deref`/`DerefMut` give in Rust. */
  class Config {
    var camera1: CameraProperties
    var camera2: CameraProperties
    var baseConfig: BaseConfig
    var aabbtree: Option<AabbTree3D>

    constructor (loaded: Loaded)
      ensures camera1 == loaded.camera1 && camera2 == loaded.camera2
      ensures baseConfig == loaded.baseConfig
      ensures aabbtree == None
    {
      camera1 := loaded.camera1;
      camera2 := loaded.camera2;
      baseConfig := loaded.baseConfig;
      aabbtree := None;
    }

    /** `Config::open`, given what reading and decoding the three files of the
        directory produced: `camera1Source` is the file `CAMERA1_FILE`,
        `camera2Source` the file `CAMERA2_FILE` and `baseSource` the file
        `BASE_CONFIG_FILE`. A failure yields the report and no `Config`. */
    static method Open(camera1Source: RawSource<CameraProperties>, camera2Source: RawSource<CameraProperties>,
                       baseSource: RawSource<PartialBaseConfig>) returns (r: Result<Config, Report>)
      ensures r.Failure? <==> Load(camera1Source, camera2Source, baseSource).Failure?
      ensures r.Failure? ==> r.error == Load(camera1Source, camera2Source, baseSource).error
      ensures r.Success? ==> fresh(r.value)
      ensures r.Success? ==>
        var loaded := Load(camera1Source, camera2Source, baseSource).value;
        && r.value.camera1 == loaded.camera1
        && r.value.camera2 == loaded.camera2
        && r.value.baseConfig == loaded.baseConfig
        && r.value.aabbtree == None
    {
      var loaded :- Load(camera1Source, camera2Source, baseSource);
      var c := new Config(loaded);
      r := Success(c);
    }

    /** `aabbtree()`: the first call builds the index of the current devices
        and stores it; later calls hand out the stored tree. Nothing but the
        cell changes. */
    method Aabbtree() returns (t: AabbTree3D)
      modifies this`aabbtree
      ensures aabbtree == Some(t)
      ensures old(aabbtree).Some? ==> t == old(aabbtree).value
      ensures old(aabbtree).None? ==> t == BuildTree(baseConfig.devices, USIZE_MAX, 1)
      ensures (aabbtree, t) == GetOrInit(old(aabbtree), baseConfig.devices)
    {
      if aabbtree.None? {
        aabbtree := Some(BuildTree(baseConfig.devices, USIZE_MAX, 1));
      }
      t := aabbtree.value;
    }
  }
}
