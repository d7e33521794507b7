/** Start-up (`app/src/main.rs`): the command-line arguments, opening the
    configuration, and the command-line overrides applied on top of it. */
module Startup {
  import opened Wrappers
  import opened Machine
  import opened Camera
  import opened Devices
  import opened AabbTrees
  import opened Configuration

  /** The configuration directory used when none is given. */
  const DEFAULT_CONFIG_DIR: string := "."

  /** The parsed command line: the configuration directory and the five
      optional overrides. */
  datatype Args = Args(
    configDir: string,
    hpe: Option<string>,
    headDetection: Option<string>,
    gestureDetection: Option<string>,
    picam: Option<string>,
    poolSize: Option<Usize>)

  /** The `config_dir` argument with its default value. */
  function ConfigDir(given: Option<string>): (dir: string)
    ensures given.Some? ==> dir == given.value
    ensures given.None? ==> dir == "."
  {
    given.GetOr(DEFAULT_CONFIG_DIR)
  }

  /** The base configuration after the overrides: a given override replaces
      its field, an absent one leaves it as loaded, and the fields that have
      no override never change. */
  function Overridden(b: BaseConfig, args: Args): (r: BaseConfig)
    ensures r.camera1Pos == b.camera1Pos && r.devices == b.devices
    ensures args.hpe.Some? ==> r.hpeAddr == args.hpe.value
    ensures args.hpe.None? ==> r.hpeAddr == b.hpeAddr
    ensures args.headDetection.Some? ==> r.headDetectionAddr == args.headDetection.value
    ensures args.headDetection.None? ==> r.headDetectionAddr == b.headDetectionAddr
    ensures args.gestureDetection.Some? ==> r.gestureDetectionAddr == args.gestureDetection.value
    ensures args.gestureDetection.None? ==> r.gestureDetectionAddr == b.gestureDetectionAddr
    ensures args.picam.Some? ==> r.picamAddr == args.picam.value
    ensures args.picam.None? ==> r.picamAddr == b.picamAddr
    ensures args.poolSize.Some? ==> r.poolSize == args.poolSize.value
    ensures args.poolSize.None? ==> r.poolSize == b.poolSize
  {
    b.(hpeAddr := args.hpe.GetOr(b.hpeAddr),
       headDetectionAddr := args.headDetection.GetOr(b.headDetectionAddr),
       gestureDetectionAddr := args.gestureDetection.GetOr(b.gestureDetectionAddr),
       picamAddr := args.picam.GetOr(b.picamAddr),
       poolSize := args.poolSize.GetOr(b.poolSize))
  }

  /** Applying the same overrides a second time changes nothing. */
  lemma OverridesIdempotent(b: BaseConfig, args: Args)
    ensures Overridden(Overridden(b, args), args) == Overridden(b, args)
  {
  }

  /** Without overrides the loaded configuration is kept as it is. */
  lemma NoOverridesKeepLoaded(b: BaseConfig, dir: string)
    ensures Overridden(b, Args(dir, None, None, None, None, None)) == b
  {
  }

  /** Each override on its own changes exactly its field. */
  lemma EachOverrideTouchesOnlyItsField(b: BaseConfig, dir: string, s: string, n: Usize)
    ensures Overridden(b, Args(dir, Some(s), None, None, None, None)) == b.(hpeAddr := s)
    ensures Overridden(b, Args(dir, None, Some(s), None, None, None)) == b.(headDetectionAddr := s)
    ensures Overridden(b, Args(dir, None, None, Some(s), None, None)) == b.(gestureDetectionAddr := s)
    ensures Overridden(b, Args(dir, None, None, None, Some(s), None)) == b.(picamAddr := s)
    ensures Overridden(b, Args(dir, None, None, None, None, Some(n))) == b.(poolSize := n)
  {
  }

  /** The five `if let Some(v)` assignments of `main`, on the opened `Config`.
      Only the base configuration changes, and in it only the overridden fields. */
  method ApplyOverrides(c: Config, args: Args)
    modifies c
    ensures c.camera1 == old(c.camera1) && c.camera2 == old(c.camera2)
    ensures c.aabbtree == old(c.aabbtree)
    ensures c.baseConfig.camera1Pos == old(c.baseConfig.camera1Pos)
    ensures c.baseConfig.devices == old(c.baseConfig.devices)
    ensures c.baseConfig.hpeAddr == if args.hpe.Some? then args.hpe.value else old(c.baseConfig.hpeAddr)
    ensures c.baseConfig.headDetectionAddr ==
      if args.headDetection.Some? then args.headDetection.value else old(c.baseConfig.headDetectionAddr)
    ensures c.baseConfig.gestureDetectionAddr ==
      if args.gestureDetection.Some? then args.gestureDetection.value else old(c.baseConfig.gestureDetectionAddr)
    ensures c.baseConfig.picamAddr == if args.picam.Some? then args.picam.value else old(c.baseConfig.picamAddr)
    ensures c.baseConfig.poolSize == if args.poolSize.Some? then args.poolSize.value else old(c.baseConfig.poolSize)
    ensures c.baseConfig == Overridden(old(c.baseConfig), args)
  {
    if args.hpe.Some? {
      c.baseConfig := c.baseConfig.(hpeAddr := args.hpe.value);
    }
    if args.headDetection.Some? {
      c.baseConfig := c.baseConfig.(headDetectionAddr := args.headDetection.value);
    }
    if args.gestureDetection.Some? {
      c.baseConfig := c.baseConfig.(gestureDetectionAddr := args.gestureDetection.value);
    }
    if args.picam.Some? {
      c.baseConfig := c.baseConfig.(picamAddr := args.picam.value);
    }
    if args.poolSize.Some? {
      c.baseConfig := c.baseConfig.(poolSize := args.poolSize.value);
    }
  }

  /** The `config` block of `main`, given what reading the three files of
      `args.configDir` produced. A failed open is the `unwrap` that aborts
      start-up: the report is all that remains and no override has run. On
      success the result is the loaded configuration with the overrides
      applied and the index not yet built. */
  method OpenAndOverride(args: Args, camera1Source: RawSource<CameraProperties>,
                         camera2Source: RawSource<CameraProperties>,
                         baseSource: RawSource<PartialBaseConfig>) returns (r: Result<Config, Report>)
    ensures r.Failure? <==> Load(camera1Source, camera2Source, baseSource).Failure?
    ensures r.Failure? ==> r.error == Load(camera1Source, camera2Source, baseSource).error
    ensures r.Success? ==> fresh(r.value)
    ensures r.Success? ==>
      var loaded := Load(camera1Source, camera2Source, baseSource).value;
      && r.value.camera1 == loaded.camera1
      && r.value.camera2 == loaded.camera2
      && r.value.baseConfig == Overridden(loaded.baseConfig, args)
      && r.value.aabbtree == None
  {
    var c :- Config.Open(camera1Source, camera2Source, baseSource);
    ApplyOverrides(c, args);
    r := Success(c);
  }

  /** The end-to-end example: a base file with one device and no optional
      field, no overrides. The pool has 3 workers and the index, once asked
      for, holds exactly that device. */
  lemma SingleDeviceScenario(c1: CameraProperties, c2: CameraProperties)
    ensures
      var d1 := Device("D1", 0.0, 0.0, 0.0, 1.0, 1.0, 1.0);
      var loaded := Load(Read(Success(c1)), Read(Success(c2)),
                         Read(Success(PartialBaseConfig(Some((0.0, 0.0, 0.0)), Some([d1]),
                                                        None, None, None, None, None))));
      && loaded.Success?
      && Overridden(loaded.value.baseConfig, Args(".", None, None, None, None, None)).poolSize == 3
      && Overridden(loaded.value.baseConfig, Args(".", None, None, None, None, None)).devices == [d1]
      && Leaves(GetOrInit(None, loaded.value.baseConfig.devices).1) == [d1]
  {
  }
}
