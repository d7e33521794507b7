/** Stand-in for rust_3d's `AABBTree3D<Device>`. Its internal hierarchy and its
    query algorithm belong to the library; the model keeps only what the
    configuration layer relies on: a tree is a deterministic function of the
    device sequence and the two construction parameters, and holds exactly
    those devices. */
module AabbTrees {
  import opened Devices

  datatype AabbTree3D = AabbTree3D(data: seq<Device>, maxDepth: nat, allowedBucketSize: nat)

  /** The devices the tree indexes, in the order it received them. */
  function Leaves(t: AabbTree3D): seq<Device> {
    t.data
  }

  /** `AABBTree3D::new(data, max_depth, allowed_bucket_size)`. */
  function BuildTree(data: seq<Device>, maxDepth: nat, allowedBucketSize: nat): AabbTree3D {
    AabbTree3D(data, maxDepth, allowedBucketSize)
  }
}
