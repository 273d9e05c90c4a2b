/** The values the game objects pass around: rectangles, velocities,
    colours, and the geometry kernel's answer about which edges of a
    rectangle hold a collision point. */
module Geometry {

  /** A rectangle given by its upper-left corner, its width and its height. */
  datatype Rect = Rect(x: real, y: real, width: real, height: real)
  {
    /** The x coordinate of the lower-right corner. */
    function Right(): real
    {
      x + width
    }
  }

  /** A velocity as a change of position per second along each axis. */
  datatype Velocity = Velocity(dx: real, dy: real)

  /** The square of the speed; equal squares mean equal speeds. */
  function SquaredSpeed(v: Velocity): real
  {
    v.dx * v.dx + v.dy * v.dy
  }

  /** Which of the struck rectangle's four edges hold the collision point,
      as the geometry kernel's point-on-line test decides it. */
  datatype Contact = Contact(upper: bool, lower: bool, left: bool, right: bool)

  /** The named java.awt colours the game uses, and FromSpec(s): whatever
      colour the colour parser reads from the text s. */
  datatype Color = Yellow | Red | Orange | Green | Cyan | Magenta | White | Gray | LightGray | FromSpec(spec: string)
}
