/** The block template a "bdef" line fills in: size, stroke, hit points and
    fill, stamped out at a position on demand (io/BlockFactory.java). */
module BlockFactories {
  import opened JavaText
  import opened Geometry
  import opened Fills
  import opened Blocks

  class BlockFactory {
    var height: int
    var width: int
    /** The frame colour; None is a null stroke. */
    var stroke: Option<Color>
    var hitPoints: int
    var fill: Fill?

    /** Every field starts at Java's default: zero or null. */
    constructor ()
      ensures height == 0 && width == 0 && stroke == None && hitPoints == 0 && fill == null
    {
      height, width, stroke, hitPoints, fill := 0, 0, None, 0, null;
    }

    /** The rectangle a block stamped at (xpos, ypos) gets. */
    function RectAt(xpos: int, ypos: int): (r: Rect)
      reads this
      ensures r.x == xpos as real && r.y == ypos as real
      ensures r.width == width as real && r.height == height as real
    {
      Rect(xpos as real, ypos as real, width as real, height as real)
    }

    /** A new block at (xpos, ypos) with the factory's current size, fill,
        stroke and hit points, and no listeners; the factory is unchanged. */
    method Create(xpos: int, ypos: int) returns (b: Block)
      ensures fresh(b)
      ensures b.Holds(RectAt(xpos, ypos), fill, stroke, hitPoints, [])
    {
      b := new Block.WithHitPoints(Rect(xpos as real, ypos as real, width as real, height as real), fill, stroke, hitPoints);
    }

    method SetHeight(newHeight: int)
      modifies this`height
      ensures height == newHeight
    {
      height := newHeight;
    }

    method SetWidth(newWidth: int)
      modifies this`width
      ensures width == newWidth
    {
      width := newWidth;
    }

    method SetStroke(newStroke: Option<Color>)
      modifies this`stroke
      ensures stroke == newStroke
    {
      stroke := newStroke;
    }

    method SetFill(newFill: Fill?)
      modifies this`fill
      ensures fill == newFill
    {
      fill := newFill;
    }

    method SetHitPoints(newHitPoints: int)
      modifies this`hitPoints
      ensures hitPoints == newHitPoints
    {
      hitPoints := newHitPoints;
    }
  }
}
