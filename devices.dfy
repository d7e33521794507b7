/** A physically located device: a name and an axis-aligned bounding box,
    as the `devices` entries of the base configuration file describe it. */
module Devices {

  datatype Device = Device(
    name: string,
    minX: real, minY: real, minZ: real,
    maxX: real, maxY: real, maxZ: real)

  /** The box is non-empty on every axis. Nothing in the loader checks this. */
  predicate IsWellFormed(d: Device) {
    d.minX <= d.maxX && d.minY <= d.maxY && d.minZ <= d.maxZ
  }
}
