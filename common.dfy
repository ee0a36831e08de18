/**
 * Value types shared by every part of the renderer model: the float vectors
 * (`Vector2f`, `Vector3f`), which are modelled with exact `real` arithmetic,
 * and the Option/Outcome wrappers used where the Java code returns null or
 * throws.
 */
module Common {

  /** A `Vector3f` as a value. */
  datatype Vec3 = Vec3(x: real, y: real, z: real)

  /** A `Vector2f` as a value. */
  datatype Vec2 = Vec2(x: real, y: real)

  const Zero3: Vec3 := Vec3(0.0, 0.0, 0.0)

  function Add3(a: Vec3, b: Vec3): Vec3 {
    Vec3(a.x + b.x, a.y + b.y, a.z + b.z)
  }

  function Scale3(a: Vec3, s: real): Vec3 {
    Vec3(a.x * s, a.y * s, a.z * s)
  }

  /** A Java reference that may be null. */
  datatype Option<+T> = None | Some(value: T)

  /** The unchecked Java exceptions the modelled code can raise. */
  datatype JavaError =
    | NullPointer
    | IndexOutOfBounds
    | BufferOverflow
    | NegativeArraySize
    | IllegalArgument

  /** The outcome of a `void` Java method: it returns or it throws. */
  datatype Outcome = Done | Thrown(error: JavaError)

  /** The outcome of a value-returning Java method. */
  datatype Result<+T> = Ok(value: T) | Err(error: JavaError)

  /** Whether `x` fits in a Java `int`. */
  predicate IsJavaInt(x: int) {
    -0x8000_0000 <= x < 0x8000_0000
  }

  /** Java `int` arithmetic, which keeps the low 32 bits of the exact result. */
  function Wrap32(x: int): (r: int)
    ensures IsJavaInt(r)
    ensures (x - r) % 0x1_0000_0000 == 0
    ensures IsJavaInt(x) ==> r == x
  {
    (x + 0x8000_0000) % 0x1_0000_0000 - 0x8000_0000
  }

  /**
   * The `(int)` cast of Java on the values it meets here: truncation toward
   * zero. Saturation at -2^31 and 2^31 - 1 and NaN going to 0 are not modelled.
   */
  function JavaIntCast(r: real): (i: int)
    ensures 0.0 <= r ==> i as real <= r < i as real + 1.0
    ensures r < 0.0 ==> i as real - 1.0 < r <= i as real
  {
    if r >= 0.0 then r.Floor else -((-r).Floor)
  }
}
