/** The paddle: moved by the arrow keys between the side walls, and
    answering a hit on its top edge with an angle that depends on which
    fifth of the edge was struck (collisions/Paddle.java). */
module Paddles {
  import opened Geometry
  import opened Blocks

  /** The inner edges of the left and right walls. */
  const LeftWall: real := 25.0
  const RightWall: real := 775.0

  /** The key names the keyboard sensor reports for the arrow keys. */
  const LeftKey: string := "left"
  const RightKey: string := "right"

  /** A new velocity, or Angled(a, v): the velocity of angle a degrees
      with the speed of v, which the velocity library computes. */
  datatype Response = Reflected(v: Velocity) | Angled(angle: int, incoming: Velocity)

  /** Which fifth (1 to 5) of a top edge of the given length a contact at
      the given distance from the upper-left corner falls in. */
  function Zone(offset: real, length: int): (z: int)
    ensures 1 <= z <= 5
  {
    var l := length as real;
    if offset < l * (1.0 / 5.0) then 1
    else if offset < l * (2.0 / 5.0) then 2
    else if offset < l * (3.0 / 5.0) then 3
    else if offset < l * (4.0 / 5.0) then 4
    else 5
  }

  /** The zones split the edge into five consecutive fifths. */
  lemma ZoneIsFifth(offset: real, length: int, k: int)
    requires length >= 0 && 1 <= k <= 5
    ensures Zone(offset, length) == k <==>
      (k == 1 || (k - 1) as real * length as real / 5.0 <= offset) &&
      (k == 5 || offset < k as real * length as real / 5.0)
  {
    var l := length as real;
    assert l * (1.0 / 5.0) <= l * (2.0 / 5.0) <= l * (3.0 / 5.0) <= l * (4.0 / 5.0);
    if k == 1 {
      assert k as real * l / 5.0 == l * (1.0 / 5.0);
    } else if k == 2 {
      assert (k - 1) as real * l / 5.0 == l * (1.0 / 5.0) && k as real * l / 5.0 == l * (2.0 / 5.0);
    } else if k == 3 {
      assert (k - 1) as real * l / 5.0 == l * (2.0 / 5.0) && k as real * l / 5.0 == l * (3.0 / 5.0);
    } else if k == 4 {
      assert (k - 1) as real * l / 5.0 == l * (3.0 / 5.0) && k as real * l / 5.0 == l * (4.0 / 5.0);
    } else {
      assert (k - 1) as real * l / 5.0 == l * (4.0 / 5.0);
    }
  }

  /** The angle sent back from each fifth of the top edge; the middle
      fifth reflects instead. */
  function ZoneAngle(zone: int): int
  {
    if zone == 1 then 300 else if zone == 2 then 330 else if zone == 4 then 30 else 60
  }

  /** The closed form of moveRight: with the key pressed, one step to the
      right, or flush against the right wall when the step would bring it
      too close. */
  function MovedRight(r: Rect, pressed: bool, step: int): (m: Rect)
    ensures m.y == r.y && m.width == r.width && m.height == r.height
    ensures !pressed ==> m == r
    ensures pressed && step >= 0 ==> m.Right() <= RightWall
    ensures pressed ==> m.x == r.x + step as real || m.Right() == RightWall
    ensures pressed && r.Right() >= RightWall - step as real ==> m.Right() == RightWall
  {
    if !pressed then r
    else if r.Right() < RightWall - step as real && r.Right() + 2.0 * step as real < RightWall then Rect(r.x + step as real, r.y, r.width, r.height)
    else Rect(RightWall - r.width, r.y, r.width, r.height)
  }

  /** The closed form of moveLeft: with the key pressed, one step to the
      left, or flush against the left wall when the step would bring it too
      close. */
  function MovedLeft(r: Rect, pressed: bool, step: int): (m: Rect)
    ensures m.y == r.y && m.width == r.width && m.height == r.height
    ensures !pressed ==> m == r
    ensures pressed && step >= 0 ==> m.x >= LeftWall
    ensures pressed ==> m.x == r.x - step as real || m.x == LeftWall
    ensures pressed && r.x - step as real <= step as real + LeftWall ==> m.x == LeftWall
  {
    if !pressed then r
    else if r.x > step as real + LeftWall && r.x - step as real > step as real + LeftWall then Rect(r.x - step as real, r.y, r.width, r.height)
    else Rect(LeftWall, r.y, r.width, r.height)
  }

  /** The paddle lies between the walls. */
  predicate BetweenWalls(r: Rect)
  {
    LeftWall <= r.x && r.Right() <= RightWall
  }

  /** A paddle that fits between the walls stays between them, whatever
      keys are held, when the step is not negative. */
  lemma MovesStayBetweenWalls(r: Rect, left: bool, right: bool, step: int)
    requires BetweenWalls(r) && step >= 0 && r.width <= RightWall - LeftWall
    ensures BetweenWalls(MovedLeft(r, left, step))
    ensures BetweenWalls(MovedRight(r, right, step))
    ensures BetweenWalls(MovedRight(MovedLeft(r, left, step), right, step))
  {
  }

  /** Holding both keys, a paddle far from the walls ends a frame where it
      started. */
  lemma BothKeysCancel(r: Rect, step: int)
    requires step >= 0
    requires r.x - step as real > step as real + LeftWall && r.Right() + step as real < RightWall
    ensures MovedRight(MovedLeft(r, true, step), true, step) == r
  {
  }

  class Paddle {
    var rect: Rect
    const color: Color
    /** Pixels per second; a frame moves the paddle by speedPaddle * dt
        truncated to an int, which the caller passes as the step. */
    const speedPaddle: int

    constructor (rect: Rect, color: Color, speedPaddle: int)
      ensures this.rect == rect && this.color == color && this.speedPaddle == speedPaddle
    {
      this.rect, this.color, this.speedPaddle := rect, color, speedPaddle;
    }

    /** Two checks one after the other: the second reads the rectangle the
        first one may have just moved. */
    method MoveRight(keys: set<string>, step: int)
      modifies this`rect
      ensures rect == MovedRight(old(rect), RightKey in keys, step)
    {
      if RightKey in keys && rect.Right() < RightWall - step as real {
        rect := Rect(rect.x + step as real, rect.y, rect.width, rect.height);
      }
      if RightKey in keys && rect.Right() >= RightWall - step as real {
        rect := Rect(RightWall - rect.width, rect.y, rect.width, rect.height);
      }
    }

    method MoveLeft(keys: set<string>, step: int)
      modifies this`rect
      ensures rect == MovedLeft(old(rect), LeftKey in keys, step)
    {
      if LeftKey in keys && rect.x > step as real + LeftWall {
        rect := Rect(rect.x - step as real, rect.y, rect.width, rect.height);
      }
      if LeftKey in keys && rect.x <= step as real + LeftWall {
        rect := Rect(LeftWall, rect.y, rect.width, rect.height);
      }
    }

    /** A frame moves the paddle left first, then right. */
    method TimePassed(keys: set<string>, step: int)
      modifies this`rect
      ensures rect == MovedRight(MovedLeft(old(rect), LeftKey in keys, step), RightKey in keys, step)
      ensures old(BetweenWalls(rect)) && step >= 0 && rect.width <= RightWall - LeftWall ==> BetweenWalls(rect)
    {
      ghost var r := rect;
      MoveLeft(keys, step);
      MoveRight(keys, step);
      if BetweenWalls(r) && step >= 0 && rect.width <= RightWall - LeftWall {
        MovesStayBetweenWalls(r, LeftKey in keys, RightKey in keys, step);
      }
    }

    /** The length of the top edge, its distance truncated to an int. */
    function Length(): (n: int)
      reads this
      ensures n >= 0
      ensures n as real <= (if rect.width >= 0.0 then rect.width else -rect.width) < n as real + 1.0
    {
      (if rect.width >= 0.0 then rect.width else -rect.width).Floor
    }

    /** A hit on the top edge, at `offset` from the upper-left corner: the
        outer fifths send the ball off at 300 and 60 degrees, the inner
        ones at 330 and 30, and the middle fifth reflects it. */
    function HitOnUpperLine(offset: real, v: Velocity): (r: Response)
      reads this
      ensures offset < Length() as real / 5.0 ==> r == Angled(300, v)
      ensures Length() as real / 5.0 <= offset < 2.0 * Length() as real / 5.0 ==> r == Angled(330, v)
      ensures 2.0 * Length() as real / 5.0 <= offset < 3.0 * Length() as real / 5.0 ==> r == Reflected(Velocity(v.dx, -v.dy))
      ensures 3.0 * Length() as real / 5.0 <= offset < 4.0 * Length() as real / 5.0 ==> r == Angled(30, v)
      ensures 4.0 * Length() as real / 5.0 <= offset ==> r == Angled(60, v)
    {
      var zone := Zone(offset, Length());
      if zone == 3 then Reflected(Velocity(v.dx, -v.dy)) else Angled(ZoneAngle(zone), v)
    }

    /** The top edge wins over every other, then the bottom edge; only a
        contact on neither edge but on a side reverses dx. */
    function Hit(contact: Contact, offset: real, v: Velocity): (r: Response)
      reads this
      ensures contact.upper ==> r == HitOnUpperLine(offset, v)
      ensures !contact.upper && contact.lower ==> r == Reflected(Velocity(v.dx, -v.dy))
      ensures !contact.upper && !contact.lower && (contact.left || contact.right) ==> r == Reflected(Velocity(-v.dx, v.dy))
      ensures !contact.upper && !contact.lower && !contact.left && !contact.right ==> r == Reflected(v)
    {
      if contact.upper then HitOnUpperLine(offset, v)
      else if contact.lower then Reflected(Velocity(v.dx, -v.dy))
      else if contact.left || contact.right then Reflected(Velocity(-v.dx, v.dy))
      else Reflected(v)
    }
  }

  /** Off the top edge, the paddle answers like a block except at a corner
      of its bottom edge, where it only reverses dy while a block reverses
      both components. */
  lemma PaddleLikeBlockBelowTop(p: Paddle, contact: Contact, offset: real, v: Velocity)
    requires !contact.upper
    ensures !(contact.lower && (contact.left || contact.right)) ==> p.Hit(contact, offset, v) == Reflected(Reflect(contact, v))
    ensures contact.lower && (contact.left || contact.right) && v.dx != 0.0 ==>
      p.Hit(contact, offset, v) != Reflected(Reflect(contact, v))
  {
  }

  /** A ball striking the top edge a tenth of the way along a paddle at
      least one unit wide leaves at 300 degrees, one striking nine tenths
      of the way along at 60. */
  lemma OuterFifthsAngles(p: Paddle, v: Velocity)
    requires p.rect.width >= 1.0
    ensures p.Hit(Contact(true, false, false, false), p.Length() as real / 10.0, v) == Angled(300, v)
    ensures p.Hit(Contact(true, false, false, false), p.Length() as real * 9.0 / 10.0, v) == Angled(60, v)
  {
  }
}
