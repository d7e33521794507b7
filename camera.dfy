/** Calibration data of one camera (`CameraProperties`): position in world
    coordinates, image size, intrinsic matrix and rotation matrix. `f64` is
    modelled as `real` and `nalgebra::Matrix3<f64>` as three rows of three. */
module Camera {
  import opened Machine

  /** A 3x3 matrix, stored row by row as `na::matrix!` writes it. */
  type Matrix3 = m: seq<seq<real>> | |m| == 3 && |m[0]| == 3 && |m[1]| == 3 && |m[2]| == 3
    witness [[0.0, 0.0, 0.0], [0.0, 0.0, 0.0], [0.0, 0.0, 0.0]]

  /** `Matrix3::default()`: every entry zero. */
  const ZERO: Matrix3 := [[0.0, 0.0, 0.0], [0.0, 0.0, 0.0], [0.0, 0.0, 0.0]]

  const IDENTITY: Matrix3 := [[1.0, 0.0, 0.0], [0.0, 1.0, 0.0], [0.0, 0.0, 1.0]]

  predicate IsZero(m: Matrix3) {
    forall i, j :: 0 <= i < 3 && 0 <= j < 3 ==> m[i][j] == 0.0
  }

  predicate IsIdentity(m: Matrix3) {
    forall i, j :: 0 <= i < 3 && 0 <= j < 3 ==> m[i][j] == if i == j then 1.0 else 0.0
  }

  /** Every entry below the diagonal is zero, the shape of an intrinsic matrix. */
  predicate IsUpperTriangular(m: Matrix3) {
    forall i, j :: 0 <= j < i < 3 ==> m[i][j] == 0.0
  }

  function Transpose(m: Matrix3): Matrix3 {
    [[m[0][0], m[1][0], m[2][0]],
     [m[0][1], m[1][1], m[2][1]],
     [m[0][2], m[1][2], m[2][2]]]
  }

  /** Entry (i, j) of the product a * b. */
  function ProductEntry(a: Matrix3, b: Matrix3, i: nat, j: nat): real
    requires i < 3 && j < 3
  {
    a[i][0] * b[0][j] + a[i][1] * b[1][j] + a[i][2] * b[2][j]
  }

  function Product(a: Matrix3, b: Matrix3): Matrix3 {
    [[ProductEntry(a, b, 0, 0), ProductEntry(a, b, 0, 1), ProductEntry(a, b, 0, 2)],
     [ProductEntry(a, b, 1, 0), ProductEntry(a, b, 1, 1), ProductEntry(a, b, 1, 2)],
     [ProductEntry(a, b, 2, 0), ProductEntry(a, b, 2, 1), ProductEntry(a, b, 2, 2)]]
  }

  function Determinant(m: Matrix3): real {
    m[0][0] * (m[1][1] * m[2][2] - m[1][2] * m[2][1])
    - m[0][1] * (m[1][0] * m[2][2] - m[1][2] * m[2][0])
    + m[0][2] * (m[1][0] * m[2][1] - m[1][1] * m[2][0])
  }

  /** Orthonormal with determinant 1: what a rotation matrix is meant to be.
      The loader never checks it. */
  predicate IsRotation(m: Matrix3) {
    Product(m, Transpose(m)) == IDENTITY && Determinant(m) == 1.0
  }

  /** The JSON keys of a calibration file are the field names, spelling included. */
  datatype CameraProperties = CameraProperties(
    posX: real, posY: real, posZ: real,
    imgHeight: U32, imgWidth: U32,
    intrensicParams: Matrix3,
    rotationMatrix: Matrix3)

  function Position(c: CameraProperties): (real, real, real) {
    (c.posX, c.posY, c.posZ)
  }

  /** Both focal lengths (the first two diagonal entries) are non-zero. */
  predicate HasFocalLengths(c: CameraProperties) {
    c.intrensicParams[0][0] != 0.0 && c.intrensicParams[1][1] != 0.0
  }

  /** The principal point (cx, cy) of the intrinsic matrix lies on the image. */
  predicate PrincipalPointInImage(c: CameraProperties) {
    0.0 <= c.intrensicParams[0][2] <= c.imgWidth as real &&
    0.0 <= c.intrensicParams[1][2] <= c.imgHeight as real
  }

  /** `impl Default for CameraProperties`. */
  function Default(): (c: CameraProperties)
    ensures Position(c) == (0.0, 0.0, 0.0)
    ensures c.imgHeight == 0 && c.imgWidth == 0
    ensures IsZero(c.intrensicParams) && IsZero(c.rotationMatrix)
  {
    CameraProperties(0.0, 0.0, 0.0, 0, 0, ZERO, ZERO)
  }

  /** The intrinsic matrix `test_new` writes, with its principal-point x
      entry given as a parameter. */
  function SampleIntrinsics(cx: real): (k: Matrix3)
    ensures IsUpperTriangular(k) && k[2] == [0.0, 0.0, 1.0]
    ensures k[0][0] != 0.0 && k[1][1] != 0.0 && k[0][2] == cx
  {
    [[1425.355597530572, 0.0, cx],
     [0.0, 1403.9605486267199, 400.3098490699321],
     [0.0, 0.0, 1.0]]
  }

  /** The principal-point x entry exactly as the source writes it: 7.255...e22. */
  const CX_AS_WRITTEN: real := 72552788750799870000000.0

  /** The value evidently meant: the same digits with exponent 2. */
  const CX_INTENDED: real := 725.5278875079987

  /** `CameraProperties::test_new` as written, fields not given taken from `Default`. */
  function TestNewAsWritten(): (c: CameraProperties)
    ensures c.imgHeight == 720 && c.imgWidth == 1280
    ensures IsIdentity(c.rotationMatrix)
    ensures Position(c) == Position(Default())
    ensures IsUpperTriangular(c.intrensicParams) && c.intrensicParams[2] == [0.0, 0.0, 1.0]
    ensures HasFocalLengths(c)
  {
    Default().(
      intrensicParams := SampleIntrinsics(CX_AS_WRITTEN),
      rotationMatrix := IDENTITY,
      imgHeight := 720,
      imgWidth := 1280)
  }

  /** `test_new` with the principal point corrected; otherwise identical. */
  function TestNew(): (c: CameraProperties)
    ensures c.imgHeight == 720 && c.imgWidth == 1280
    ensures IsIdentity(c.rotationMatrix)
    ensures Position(c) == Position(Default())
    ensures IsUpperTriangular(c.intrensicParams) && c.intrensicParams[2] == [0.0, 0.0, 1.0]
    ensures HasFocalLengths(c)
    ensures PrincipalPointInImage(c)
  {
    TestNewAsWritten().(intrensicParams := SampleIntrinsics(CX_INTENDED))
  }

  /** The sample's principal point lies 5.7e19 image widths to the right of the image. */
  lemma TestNewAsWrittenPrincipalPointOffImage()
    ensures !PrincipalPointInImage(TestNewAsWritten())
    ensures TestNewAsWritten().intrensicParams[0][2] > 1000000000000000000.0 * TestNewAsWritten().imgWidth as real
  {
  }

  /** The correction changes one entry only, by a factor 10^20 (exponent 22 instead of 2). */
  lemma TestNewCorrectionIsTheExponent()
    ensures TestNewAsWritten().intrensicParams[0][2] == 100000000000000000000.0 * TestNew().intrensicParams[0][2]
    ensures TestNewAsWritten() == TestNew().(intrensicParams := SampleIntrinsics(CX_AS_WRITTEN))
  {
  }

  /** Both sample calibrations carry a proper rotation; the default one does not. */
  lemma SampleRotationsAreProper()
    ensures IsRotation(TestNewAsWritten().rotationMatrix) && IsRotation(TestNew().rotationMatrix)
    ensures !IsRotation(Default().rotationMatrix)
  {
  }
}
