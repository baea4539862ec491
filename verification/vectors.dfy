/**
 * Three-component vectors shared by the matrix library (translation and
 * scale factors), the camera (position and basis vectors) and the meshes.
 * The source keeps them as plain three-element number arrays; floats are
 * read as exact reals.
 */
module Vectors {

  datatype Vec3 = Vec3(x: real, y: real, z: real)

  /** Dot product; used to state orthogonality and squared lengths. */
  function Dot(a: Vec3, b: Vec3): real
  {
    a.x * b.x + a.y * b.y + a.z * b.z
  }

  function Square(v: real): real
  {
    v * v
  }
}
