/**
 A three-component world position. The engine's single-precision floats are
 modelled as mathematical reals, so rounding, NaN, infinities and signed zero
 do not arise here.
 */
module Vectors {

  datatype Vector3 = Vector3(x: real, y: real, z: real)

  /** The attenuated copy used by the two "Reduced" copy modes: only the X axis
      is scaled by the factor, Y and Z are carried over exactly. The factor is
      a plain multiplier, not an interpolation weight towards any other point. */
  function ReduceX(v: Vector3, factor: real): (r: Vector3)
    ensures r.y == v.y && r.z == v.z
    ensures factor == 1.0 ==> r == v
    ensures factor == 0.0 ==> r.x == 0.0
    ensures r.x == v.x <==> (factor == 1.0 || v.x == 0.0)
  {
    Vector3(v.x * factor, v.y, v.z)
  }
}
