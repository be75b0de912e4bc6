/**
 * The key and action codes of the GLFW 3 window-system library that the
 * input callbacks of the scene viewer compare against.
 */
module Glfw {
  const KEY_A: int := 65
  const KEY_D: int := 68
  const KEY_S: int := 83
  const KEY_W: int := 87
  const KEY_ESCAPE: int := 256

  const RELEASE: int := 0
  const PRESS: int := 1
  const REPEAT: int := 2
}
