# Start-up configuration of the gesture-based home-automation backend, in Dafny

This project models the configuration layer of the application's backend.
At start-up it loads two camera calibrations and a base configuration from a
directory. The base configuration holds four service socket addresses, the
worker-pool size, the primary camera's position and the list of devices.
Fields the base file leaves out take fixed defaults. Command-line overrides
are then applied. The `Config` aggregate built this way also holds a spatial
index over the devices, built on the first call to `aabbtree()` and cached.

Modules, one per source file or foreign dependency:

- `Wrappers` (wrappers.dfy): `Option` and `Result`. `Result` supports `:-`, which mirrors Rust's `?`.
- `Machine` (machine.dfy): `u32`, plus `usize` with `usize::MAX` on a 64-bit target.
- `Camera` (camera.dfy, `app/src/config/camera.rs`): `CameraProperties`, its `Default` and `test_new`, and the matrix predicates used to state their properties.
- `Devices` (devices.dfy): the `Device` record, a name and six box coordinates, as the base file's schema gives it.
- `AabbTrees` (aabb_tree.dfy): an opaque stand-in for rust_3d's `AABBTree3D`. It records the device sequence and the construction parameters it was built from.
- `Configuration` (config.dfy, `app/src/config/mod.rs`): the defaults, `BaseConfig` decoding, `read_json_from_file`, `Config::open`, the `Config` class with its `OnceLock` cell, and a trace model of repeated `aabbtree()` calls and `DerefMut` writes.
- `Startup` (startup.dfy, `app/src/main.rs`): the `Args` record, the override merge as a method on `Config`, and the `config` block of `main`.

Reading a file and running the JSON decoder are foreign. Each source is
therefore a given `RawSource<T>`: either `Unreadable(io error)`, or
`Read(decoded)`, where `decoded` is what the decoder produced. For the base
file the decoder's output is a record whose fields are all optional.
`FromPartial` then applies the `#[serde(default = ...)]` rules and the
missing-field failures.

Two things one might expect of this layer are not what the code does; the model follows the code:

- A load failure's report does not say which file failed. The code attaches no path. A read failure carries only the note "Couldn't read the config file"; a decoding failure carries no note.
- The sample calibration's skew entry is zero, not non-zero.

## Model

| member | source | states |
|---|---|---|
| `Configuration.FromPartial` | app/src/config/mod.rs:51-65 | Decoding succeeds iff `camera1_pos` and `devices` are both present. If `camera1_pos` is missing, that field is reported first; otherwise a missing `devices` is reported. Each optional field is its given value when present and its default when absent (`/tmp/hpe.sock`, `/tmp/head.sock`, `/tmp/gesture.sock`, `/tmp/picam.sock`, pool size 3). |
| `Configuration.CompleteRoundTrip` | app/src/config/mod.rs:55-64 | A file giving every field explicitly decodes to exactly that configuration; present values are never replaced by defaults. |
| `Configuration.MinimalFileTakesDefaults` | app/src/config/mod.rs:31-64 | A file with only the two required fields yields the four default addresses and pool size 3. |
| `Configuration.LoadDecodesBaseByFromPartial` | app/src/config/mod.rs:95 | With both calibrations read, the load fails iff completing the base record fails. The failure is a `ConfigError` report wrapping that decoding error, with no note. Otherwise the base part is the completed record. |
| `Configuration.ReadJsonFromFile` | app/src/config/mod.rs:20-29 | Succeeds iff the file was read and decoded, and returns the decoded value. Both failures give a `ConfigError` report wrapping the original error. The report has an attachment iff the read failed, and that attachment is "Couldn't read the config file". |
| `Configuration.Load` | app/src/config/mod.rs:89-103 | Succeeds iff all three sources succeed. The result is the first failure in the order camera1, camera2, base. On success the parts equal the decoded values exactly. |
| `Configuration.LoadStopsAtCamera1` | app/src/config/mod.rs:93-95 | Once camera1 fails, the result does not depend on camera2 or on the base file. |
| `Configuration.LoadStopsAtCamera2` | app/src/config/mod.rs:94-95 | Once camera2 fails, the result does not depend on the base file. |
| `Configuration.MissingRequiredFieldFailsLoad` | app/src/config/mod.rs:53-54 | A base file without `camera1_pos` or `devices` fails the whole load with a decoding cause, even when both calibrations are valid. |
| `Configuration.LoadAcceptsDegenerateRotation` | app/src/config/mod.rs:93-95 | A camera1 calibration whose rotation is the default zero matrix, which is no rotation, still loads; rotations are not validated. |
| `Configuration.LoadAcceptsAnyDevices` | app/src/config/mod.rs:54 | Every device list loads and is kept as given, boxes empty on some axis included; boxes are not validated. |
| `Configuration.GetOrInit` | app/src/config/mod.rs:105-108 | The cell is filled afterwards with the tree handed out. A filled cell hands out its tree; an empty one builds the index of the current devices. |
| `Configuration.ReplayObservesEveryCall` | app/src/config/mod.rs:105-108 | Across any sequence of calls and base-configuration writes, every `aabbtree()` call returns one tree. |
| `Configuration.FilledCellIsFinal` | app/src/config/mod.rs:105-108 | Once the cell is filled, no sequence of calls or `DerefMut` writes rebuilds or changes it, and every call returns the cached tree. |
| `Configuration.BuiltAtMostOnce` | app/src/config/mod.rs:71-108 | For any such sequence, the tree is built at most once. A build happens iff the cell started empty and some call was made. Every call returns the tree left in the cell. |
| `Configuration.IndexTracksUnchangedDevices` | app/src/config/mod.rs:82-108 | While no write replaces the device list, every call returns the index of the current devices, even if other base fields are overwritten. |
| `Configuration.FirstCallFixesIndex` | app/src/config/mod.rs:105-108 | After a first call, whatever accesses follow, the cell holds the index of the devices at that call and every call returns it. |
| `Configuration.StaleAfterDeviceWrite` | app/src/config/mod.rs:82-108 | If the devices are replaced after the first call, every later call still returns the old devices' index, which differs from the current devices. |
| `Configuration.Config.constructor` | app/src/config/mod.rs:97-102 | The aggregate holds the three parsed parts, and its index cell is empty. |
| `Configuration.Config.Open` | app/src/config/mod.rs:89-103 | Fails iff `Load` fails, with the same report and no `Config`. On success it returns a fresh `Config` whose calibrations and base configuration equal the parsed ones, with an empty cell. |
| `Configuration.Config.Aabbtree` | app/src/config/mod.rs:105-108 | On an empty cell, builds the index of the current devices with (`usize::MAX`, 1) and stores it. On a filled cell, returns the stored tree unchanged. It modifies only the cell. |
| `Camera.Default` | app/src/config/camera.rs:16-28 | Position (0,0,0), image 0x0, and zero intrinsic and rotation matrices. |
| `Camera.SampleIntrinsics` | app/src/config/camera.rs:32-36 | The sample intrinsic matrix is upper triangular, its bottom row is (0,0,1), and both focal lengths are non-zero. |
| `Camera.TestNewAsWritten` | app/src/config/camera.rs:30-50 | `test_new` as written: image 720 high and 1280 wide, identity rotation, position inherited from `Default`, and an upper-triangular intrinsic matrix with bottom row (0,0,1) and non-zero focal lengths. |
| `Camera.TestNew` | app/src/config/camera.rs:30-50 | Everything `TestNewAsWritten` states, with the principal point corrected so that it lies on the image. |
| `Camera.TestNewAsWrittenPrincipalPointOffImage` | app/src/config/camera.rs:33 | The written principal-point x lies outside the image, more than 10^18 image widths away. |
| `Camera.TestNewCorrectionIsTheExponent` | app/src/config/camera.rs:33 | The corrected sample differs from the written one in that single entry, by a factor of 10^20. |
| `Camera.SampleRotationsAreProper` | app/src/config/camera.rs:37-41 | The sample rotation is a proper rotation (orthonormal, determinant 1). The default (zero) rotation is not. |
| `Startup.ConfigDir` | app/src/main.rs:10-16 | The configuration directory is the given one, or "." when none is given. |
| `Startup.Overridden` | app/src/main.rs:33-47 | Each of the five overrides, when present, replaces its field; when absent, the loaded value stays. `camera1_pos` and `devices` never change. |
| `Startup.OverridesIdempotent` | app/src/main.rs:33-47 | Applying the same overrides twice gives the same configuration as applying them once. |
| `Startup.NoOverridesKeepLoaded` | app/src/main.rs:33-47 | With no override given, the loaded configuration is kept exactly. |
| `Startup.EachOverrideTouchesOnlyItsField` | app/src/main.rs:33-47 | Each single override changes exactly its own field and nothing else. |
| `Startup.ApplyOverrides` | app/src/main.rs:33-47 | On the `Config` object, each field is the override if one is given, else its old value. The calibrations, the index cell, `camera1_pos` and `devices` are unchanged. |
| `Startup.OpenAndOverride` | app/src/main.rs:31-50 | If opening fails, the result is the report and no configuration exists, so no override has run. Otherwise it is the loaded configuration with the overrides applied and the index not yet built. |
| `Startup.SingleDeviceScenario` | app/src/config/mod.rs:89-108 | A base file with one device `D1` and no optional field loads. With no overrides, the pool size is 3 and the device list is `[D1]`. The first index built holds exactly `D1`. |

## Findings

| source | as written | input that shows it | evidently intended | confidence | as-written member | corrected member |
|---|---|---|---|---|---|---|
| app/src/config/camera.rs:33 | principal point x of the sample intrinsic matrix is `7.255_278_875_079_987e22` | `test_new()` itself: cx = 7.26e22 pixels for an image 1280 wide, so the principal point is far off the image | `7.255_278_875_079_987e2` (725.5 px, near the centre of a 1280-px-wide image, as cy = 400.3 is for 720 px) | high; not executed | `Camera.TestNewAsWritten`, `Camera.TestNewAsWrittenPrincipalPointOffImage` | `Camera.TestNew` |

## Left out

- File reading (`fs::read_to_string`), JSON decoding (`serde_json`) and path joining (`PathBuf::join`) are I/O or foreign. Each source is the given outcome of reading and decoding one of `camera1-params.json`, `camera2-params.json` and `config.json` (the constants `CAMERA1_FILE`, `CAMERA2_FILE` and `BASE_CONFIG_FILE`, named in the doc comment of `Config.Open`).
- What the decoder rejects is abstracted to `InvalidJson`: wrong types, numbers out of range of `u32` or `usize`, matrix shape. This includes nalgebra's own encoding of `Matrix3`.
- `error_stack` frames are reduced to the current context, the wrapped error and the printable attachments. The text of the underlying I/O and JSON errors is carried as given.
- `GError` is defined in the crate root, which is not part of this model; only `ConfigError` arises here.
- `AABBTree3D` internals and queries belong to the rust_3d library. The tree is an opaque value that keeps its devices and parameters.
- `AabbTrees.BuildTree`: the stand-in keeps its input exactly as given. That the built index holds every device, in order, is therefore assumed of rust_3d's `AABBTree3D::new`, not proved; the library splits its data into a hierarchy whose leaves the model does not see.
- `OnceLock` thread safety: the cell is modelled as a sequential memo. The trace lemmas cover sequential callers only; concurrent callers racing a build are not modelled.
- `Deref`/`DerefMut`: field promotion is Rust syntax. The model reads and writes `Config.baseConfig` directly, and the `WriteBase` access of the trace model stands for a write through `DerefMut`.
- `f64` and nalgebra arithmetic are modelled with exact reals. Literals are taken as exact decimals, and rounding, NaN and infinities are not modelled.
- `usize` is modelled as 64 bits wide.
- `Args::parse` (clap), `App::new` and `app.run()` are outside this model. `OpenAndOverride` takes the parsed arguments and the three source outcomes, and models the `unwrap` panic as the failure result.
- app/src/config/devices.rs is not part of this model. `Device` is the record the base file's schema describes, and nothing checks that min <= max.
- The `parse_config` test (app/src/config/mod.rs:115-159) has its assertions commented out and states nothing.
