/// Value types shared by the window host and the shader program.
module Gl {
  /// An unsigned object name handed out by the driver (GLuint); 0 names no object.
  type Handle = nat

  /// A 32-bit float component (a uniform value or a clear colour), kept as its
  /// bit pattern: nothing in the core computes with it.
  type Float = bv32

  /// Bit patterns of the two float constants the frame loop uses.
  const FloatZero: Float := 0x0000_0000
  const FloatOne: Float := 0x3F80_0000
}
