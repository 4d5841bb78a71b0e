/** Positions of the layout. Vector arithmetic itself (length, normalise,
    trigonometry) is not modelled: positions are only carried and stored. */
module Geometry {

  /** A point in space, as the THREE.Vector3 values the layout produces. */
  datatype Vec3 = Vec3(x: real, y: real, z: real)
}
