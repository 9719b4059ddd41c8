/**
 * The part of an SDL event the game modes look at: which key went down or
 * up, or how far the mouse moved and whether its left button was held.
 */
module Input {
  /** The keys some mode reacts to; every other key is `OtherKey`. */
  datatype Key = KeyA | KeyD | KeyW | KeyS | KeyUp | KeyDown | KeyLeft | KeyRight | OtherKey

  datatype Event =
    | Press(key: Key)
    | Release(key: Key)
    | MouseMotion(xrel: int, yrel: int, leftHeld: bool)
    | OtherEvent
}
