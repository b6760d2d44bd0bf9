/**
 * The per-body numeric quantities a node stores in, and reads from, the stage
 * caches. Their arithmetic belongs to the spatial algebra library and is not
 * modelled: here they are plain values that can be stored, read back and
 * compared.
 */
module SpatialTypes {
  import opened Transforms

  /** A symmetric 3x3 inertia matrix, by its six distinct entries. */
  datatype InertiaMat = InertiaMat(xx: real, yy: real, zz: real, xy: real, xz: real, yz: real)

  datatype Mat33 = Mat33(row0: Vec3, row1: Vec3, row2: Vec3)

  /** A spatial vector: an angular part (index 0) and a linear part (index 1). */
  datatype SpatialVec = SpatialVec(angular: Vec3, linear: Vec3)

  /** A 6x6 spatial matrix as a 2x2 block matrix of 3x3 blocks. */
  datatype SpatialMat = SpatialMat(m00: Mat33, m01: Mat33, m10: Mat33, m11: Mat33)

  /** One row of the joint's H matrix. */
  datatype SpatialRow = SpatialRow(angular: Vec3, linear: Vec3)

  /** The body-to-parent shift operator, determined by the shift vector l. */
  datatype PhiMatrix = PhiMatrix(l: Vec3)

  /** Mass, center of mass and inertia about the body origin, all in the body frame. */
  datatype MassProperties = MassProperties(mass: real, com: Vec3, inertia: InertiaMat)
}
