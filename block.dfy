/** A block: a rectangle with a hit-point count and a list of hit listeners,
    whose contact response reflects the ball by the edge it struck
    (collisions/Block.java). */
module Blocks {
  import opened JavaText
  import opened Geometry
  import opened Fills

  /** The listeners the game attaches to blocks; Listener(id) is any other. */
  datatype HitListener = BallRemover | BlockRemover | ScoreTracker | Listener(id: nat)

  /** Identifies the ball that struck. */
  type BallId = nat

  /** One call hitEvent(block, hitter) made on a listener of the block. */
  datatype HitEvent = HitEvent(listener: HitListener, hitter: BallId)

  /** What one listener's hitEvent does to the block's listener list (for
      instance, removing itself); the listeners' own code is not part of
      this model, so it is a parameter. */
  type Reaction = (HitListener, seq<HitListener>) -> seq<HitListener>

  /** The events of notifying every listener of `ls`, in order. */
  function Events(ls: seq<HitListener>, hitter: BallId): (r: seq<HitEvent>)
    ensures |r| == |ls|
    ensures forall i :: 0 <= i < |ls| ==> r[i] == HitEvent(ls[i], hitter)
  {
    seq(|ls|, i requires 0 <= i < |ls| => HitEvent(ls[i], hitter))
  }

  /** The listener list after each listener of `snapshot`, in order, has
      reacted to the list as it then stands. */
  function ListenersAfter(snapshot: seq<HitListener>, current: seq<HitListener>, react: Reaction): seq<HitListener>
  {
    if |snapshot| == 0 then current
    else ListenersAfter(snapshot[1..], react(snapshot[0], current), react)
  }

  /** The reaction of a listener that unregisters itself when notified. */
  function RemoveSelf(l: HitListener, current: seq<HitListener>): seq<HitListener>
  {
    RemoveFirst(current, l)
  }

  /** ArrayList.remove(Object): drops the first occurrence of x, if any. */
  function RemoveFirst<T(==)>(s: seq<T>, x: T): (r: seq<T>)
    ensures x !in s ==> r == s
    ensures x in s ==> |r| == |s| - 1
    ensures multiset(r) == multiset(s) - multiset{x}
  {
    if |s| == 0 then []
    else
      assert s == [s[0]] + s[1..];
      if s[0] == x then s[1..] else [s[0]] + RemoveFirst(s[1..], x)
  }

  /** The elements before and after the first occurrence stay, in order. */
  lemma {:induction false} RemoveFirstSplits<T>(s: seq<T>, x: T, i: int)
    requires 0 <= i < |s| && s[i] == x && x !in s[..i]
    ensures RemoveFirst(s, x) == s[..i] + s[i + 1..]
  {
    if i > 0 {
      assert s[1..][..i - 1] == s[1..i];
      assert s[0] in s[..i];
      RemoveFirstSplits(s[1..], x, i - 1);
      assert s[1..][i..] == s[i + 1..];
      assert [s[0]] + s[1..i] == s[..i];
    }
  }

  /** Listeners that each unregister themselves all get notified, and the
      block is left with none: iterating over a copy keeps the removals from
      disturbing the notification loop. */
  lemma {:induction false} SelfRemovalEmpties(ls: seq<HitListener>)
    ensures ListenersAfter(ls, ls, RemoveSelf) == []
  {
    if |ls| > 0 {
      assert RemoveSelf(ls[0], ls) == ls[1..];
      SelfRemovalEmpties(ls[1..]);
    }
  }

  /** The standard reflection: a contact on the top or bottom edge negates
      dy, one on the left or right edge negates dx, a corner on both negates
      both, and no edge leaves the velocity as it was. */
  function Reflect(contact: Contact, v: Velocity): (r: Velocity)
    ensures r.dx == v.dx || r.dx == -v.dx
    ensures r.dy == v.dy || r.dy == -v.dy
    ensures SquaredSpeed(r) == SquaredSpeed(v)
  {
    var dy := if contact.upper || contact.lower then -v.dy else v.dy;
    var dx := if contact.left || contact.right then -v.dx else v.dx;
    Velocity(dx, dy)
  }

  /** Reflecting twice at the same contact restores the velocity. */
  lemma ReflectTwice(contact: Contact, v: Velocity)
    ensures Reflect(contact, Reflect(contact, v)) == v
  {
  }

  /** For components that are not zero: dy changes sign exactly when the
      contact is on a horizontal edge, dx exactly when it is on a vertical one. */
  lemma ReflectNegatesPerpendicular(contact: Contact, v: Velocity)
    requires v.dx != 0.0 && v.dy != 0.0
    ensures Reflect(contact, v).dy == -v.dy <==> (contact.upper || contact.lower)
    ensures Reflect(contact, v).dx == -v.dx <==> (contact.left || contact.right)
  {
  }

  class Block {
    const rect: Rect
    const fill: Fill?
    const frameColor: Option<Color>
    var hitPoints: int
    var hitListeners: seq<HitListener>
    /** Every hitEvent call made so far on this block's listeners. */
    ghost var delivered: seq<HitEvent>

    ghost predicate Holds(rect: Rect, fill: Fill?, frameColor: Option<Color>, hitPoints: int, listeners: seq<HitListener>)
      reads this
    {
      this.rect == rect && this.fill == fill && this.frameColor == frameColor &&
      this.hitPoints == hitPoints && this.hitListeners == listeners && delivered == []
    }

    /** A block with no hit points left and no listeners. */
    constructor (rect: Rect, fill: Fill?, frameColor: Option<Color>)
      ensures Holds(rect, fill, frameColor, 0, [])
    {
      this.rect, this.fill, this.frameColor := rect, fill, frameColor;
      this.hitPoints, this.hitListeners, this.delivered := 0, [], [];
    }

    constructor WithHitPoints(rect: Rect, fill: Fill?, frameColor: Option<Color>, hitPoints: int)
      ensures Holds(rect, fill, frameColor, hitPoints, [])
    {
      this.rect, this.fill, this.frameColor := rect, fill, frameColor;
      this.hitPoints, this.hitListeners, this.delivered := hitPoints, [], [];
    }

    constructor WithListener(rect: Rect, fill: Fill?, frameColor: Option<Color>, hitPoints: int, hl: HitListener)
      ensures Holds(rect, fill, frameColor, hitPoints, [hl])
    {
      this.rect, this.fill, this.frameColor := rect, fill, frameColor;
      this.hitPoints, this.hitListeners, this.delivered := hitPoints, [hl], [];
    }

    /** The block keeps its own copy of the given listeners. */
    constructor WithListeners(rect: Rect, fill: Fill?, frameColor: Option<Color>, hitPoints: int, listHL: seq<HitListener>)
      ensures Holds(rect, fill, frameColor, hitPoints, listHL)
    {
      this.rect, this.fill, this.frameColor := rect, fill, frameColor;
      this.hitPoints, this.hitListeners, this.delivered := hitPoints, listHL, [];
    }

    /** Notifies every listener registered when the call starts, once each
        and in list order, however the reactions change the list meanwhile. */
    method NotifyHit(hitter: BallId, react: Reaction)
      modifies this`hitListeners, this`delivered
      ensures delivered == old(delivered) + Events(old(hitListeners), hitter)
      ensures hitListeners == ListenersAfter(old(hitListeners), old(hitListeners), react)
    {
      var listeners := hitListeners;
      var i := 0;
      while i < |listeners|
        invariant 0 <= i <= |listeners|
        invariant delivered == old(delivered) + Events(listeners[..i], hitter)
        invariant ListenersAfter(listeners[i..], hitListeners, react) == ListenersAfter(listeners, listeners, react)
      {
        assert Events(listeners[..i + 1], hitter) == Events(listeners[..i], hitter) + [HitEvent(listeners[i], hitter)];
        delivered := delivered + [HitEvent(listeners[i], hitter)];
        assert listeners[i..][1..] == listeners[i + 1..];
        hitListeners := react(listeners[i], hitListeners);
        i := i + 1;
      }
      assert listeners[..i] == listeners;
    }

    /** The contact response: one hit point fewer, every listener notified,
        and the velocity reflected by the edges that hold the contact point. */
    method Hit(hitter: BallId, contact: Contact, v: Velocity, react: Reaction) returns (r: Velocity)
      modifies this`hitPoints, this`hitListeners, this`delivered
      ensures hitPoints == old(hitPoints) - 1
      ensures delivered == old(delivered) + Events(old(hitListeners), hitter)
      ensures hitListeners == ListenersAfter(old(hitListeners), old(hitListeners), react)
      ensures r == Reflect(contact, v)
    {
      var dx, dy := v.dx, v.dy;
      hitPoints := hitPoints - 1;
      NotifyHit(hitter, react);
      if contact.upper || contact.lower {
        dy := -dy;
      }
      if contact.left || contact.right {
        dx := -dx;
      }
      r := Velocity(dx, dy);
    }

    /** Before painting, a negative hit-point count is reset to 1; the
        result is what the fill paints for the count. */
    method DrawOn() returns (p: Paint)
      requires fill != null
      modifies this`hitPoints
      ensures hitPoints == if old(hitPoints) < 0 then 1 else old(hitPoints)
      ensures p == fill.Paint(hitPoints)
    {
      if hitPoints < 0 {
        hitPoints := 1;
      }
      p := fill.Paint(hitPoints);
    }

    method AddHitListeners(hList: seq<HitListener>)
      modifies this`hitListeners
      ensures hitListeners == old(hitListeners) + hList
    {
      hitListeners := hitListeners + hList;
    }

    method AddHitListener(hl: HitListener)
      modifies this`hitListeners
      ensures hitListeners == old(hitListeners) + [hl]
    {
      hitListeners := hitListeners + [hl];
    }

    /** Removes the first registration of hl, if there is one. */
    method RemoveHitListener(hl: HitListener)
      modifies this`hitListeners
      ensures hitListeners == RemoveFirst(old(hitListeners), hl)
    {
      hitListeners := RemoveFirst(hitListeners, hl);
    }
  }
}
