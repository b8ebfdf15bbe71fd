/**
  The on-screen joystick (components/Joystick.tsx): the `active` flag, the
  stick `position`, and the shared `window.JOYSTICK_VECTOR` it publishes for
  the movement component to read every frame.

  The clamp of the touch offset uses `Math.sqrt`, `Math.atan2`, `Math.cos`
  and `Math.sin`. The test `distance > maxRadius` is the same as comparing
  squared lengths, and is modelled that way; the trigonometric replacement
  offset is an argument `clamped`, and the model takes as a premise that it
  lies on the same ray as the offset and no farther than `maxRadius` from the
  centre. The widget's bounding rectangle, read afresh on every update, is an
  argument of each call (`None` while the base is not attached);
  `stopPropagation` is not modelled.
*/
module Joystick {
  import opened Types

  datatype Vec2 = Vec2(x: real, y: real)

  /** `getBoundingClientRect()` of the widget's base. */
  datatype Rect = Rect(left: real, top: real, width: real, height: real)

  /** `maxRadius`: how far the stick may move from the centre, in pixels. */
  const MAX_RADIUS: real := 50.0
  const ZERO: Vec2 := Vec2(0.0, 0.0)

  function Len2(v: Vec2): real {
    v.x * v.x + v.y * v.y
  }

  /** The touch point's offset from the centre of the widget: the centre moved
      by the offset is the touch point, and a touch on the centre is no offset. */
  function Offset(r: Rect, clientX: real, clientY: real): (d: Vec2)
    ensures r.left + r.width / 2.0 + d.x == clientX
    ensures r.top + r.height / 2.0 + d.y == clientY
    ensures d == ZERO <==> clientX == r.left + r.width / 2.0 && clientY == r.top + r.height / 2.0
  {
    Vec2(clientX - (r.left + r.width / 2.0), clientY - (r.top + r.height / 2.0))
  }

  /** The premise standing for `cos(atan2(dy, dx)) * maxRadius` and
      `sin(atan2(dy, dx)) * maxRadius`: on the ray of `d`, within the radius. */
  predicate IsClampOf(d: Vec2, c: Vec2) {
    && Len2(c) <= MAX_RADIUS * MAX_RADIUS
    && c.x * d.y == c.y * d.x
    && c.x * d.x + c.y * d.y >= 0.0
  }

  /** The stick offset after the clamp of `updateStick`. An offset inside the
      circle is kept; given the premise on the replacement, the result never
      leaves the circle and keeps the direction of the touch offset. */
  function ClampedOffset(d: Vec2, clamped: Vec2): (c: Vec2)
    ensures Len2(d) <= MAX_RADIUS * MAX_RADIUS ==> c == d
    ensures (Len2(d) > MAX_RADIUS * MAX_RADIUS ==> IsClampOf(d, clamped)) ==>
      && Len2(c) <= MAX_RADIUS * MAX_RADIUS
      && c.x * d.y == c.y * d.x
      && c.x * d.x + c.y * d.y >= 0.0
  {
    if Len2(d) > MAX_RADIUS * MAX_RADIUS then clamped else d
  }

  /** The vector written to `JOYSTICK_VECTOR` for a stick offset: both axes
      divided by `maxRadius`, the vertical one inverted so that up is forward. */
  function Normalise(d: Vec2): (v: Vec2)
    ensures v.x * MAX_RADIUS == d.x
    ensures v.y * MAX_RADIUS == -d.y
    ensures d.y < 0.0 <==> v.y > 0.0
  {
    Vec2(d.x / MAX_RADIUS, -(d.y / MAX_RADIUS))
  }

  lemma SquareBound(a: real, b: real)
    requires a * a + b * b <= MAX_RADIUS * MAX_RADIUS
    ensures -MAX_RADIUS <= a <= MAX_RADIUS
  {
  }

  /** An offset within the circle gives a vector with both axes in [-1, 1]. */
  lemma NormaliseBounded(d: Vec2)
    requires Len2(d) <= MAX_RADIUS * MAX_RADIUS
    ensures -1.0 <= Normalise(d).x <= 1.0
    ensures -1.0 <= Normalise(d).y <= 1.0
  {
    SquareBound(d.x, d.y);
    SquareBound(d.y, d.x);
  }

  /** The premise on `clamped` for a touch at (`clientX`, `clientY`), with
      `container` the base's rectangle when it is attached. */
  ghost predicate ClampPremise(container: Option<Rect>, clientX: real, clientY: real, clamped: Vec2) {
    (container.Some? && Len2(Offset(container.value, clientX, clientY)) > MAX_RADIUS * MAX_RADIUS)
    ==> IsClampOf(Offset(container.value, clientX, clientY), clamped)
  }

  /** The stick offset `updateStick` would store for a touch position. */
  ghost function StickFor(rect: Rect, clientX: real, clientY: real, clamped: Vec2): Vec2 {
    ClampedOffset(Offset(rect, clientX, clientY), clamped)
  }

  /** The global `window`, as far as the joystick uses it. */
  class Window {
    var joystickVector: Vec2

    constructor (v: Vec2)
      ensures joystickVector == v
    {
      joystickVector := v;
    }
  }

  class Joystick {
    const window: Window
    var active: bool
    var position: Vec2

    /** The stick stays in the circle and the shared vector always matches it. */
    ghost predicate Valid()
      reads this, window
    {
      && Len2(position) <= MAX_RADIUS * MAX_RADIUS
      && window.joystickVector == Normalise(position)
    }

    /** Mounting: initial state, and the mount effect zeroes the shared vector. */
    constructor (window: Window)
      modifies window
      ensures Valid()
      ensures this.window == window
      ensures !active && position == ZERO && window.joystickVector == ZERO
    {
      this.window := window;
      active := false;
      position := ZERO;
      new;
      window.joystickVector := ZERO;
    }

    /** While mounted, the shared vector has both axes in [-1, 1]. */
    lemma VectorBounded()
      requires Valid()
      ensures -1.0 <= window.joystickVector.x <= 1.0
      ensures -1.0 <= window.joystickVector.y <= 1.0
    {
      NormaliseBounded(position);
    }

    method UpdateStick(container: Option<Rect>, clientX: real, clientY: real, clamped: Vec2)
      requires Valid() && ClampPremise(container, clientX, clientY, clamped)
      modifies this`position, window
      ensures Valid()
      ensures container.None? ==> position == old(position) && window.joystickVector == old(window.joystickVector)
      ensures container.Some? ==> position == StickFor(container.value, clientX, clientY, clamped)
      ensures container.Some? ==> window.joystickVector == Normalise(StickFor(container.value, clientX, clientY, clamped))
    {
      if container.None? {
        return;
      }
      var rect := container.value;
      var centerX := rect.left + rect.width / 2.0;
      var centerY := rect.top + rect.height / 2.0;
      var deltaX := clientX - centerX;
      var deltaY := clientY - centerY;
      if deltaX * deltaX + deltaY * deltaY > MAX_RADIUS * MAX_RADIUS {
        deltaX := clamped.x;
        deltaY := clamped.y;
      }
      position := Vec2(deltaX, deltaY);
      var normX := deltaX / MAX_RADIUS;
      var normY := -(deltaY / MAX_RADIUS);
      window.joystickVector := Vec2(normX, normY);
    }

    method HandleStart(container: Option<Rect>, clientX: real, clientY: real, clamped: Vec2)
      requires Valid() && ClampPremise(container, clientX, clientY, clamped)
      modifies this, window
      ensures Valid() && active
      ensures container.None? ==> position == old(position) && window.joystickVector == old(window.joystickVector)
      ensures container.Some? ==> position == StickFor(container.value, clientX, clientY, clamped)
      ensures container.Some? ==> window.joystickVector == Normalise(StickFor(container.value, clientX, clientY, clamped))
    {
      active := true;
      UpdateStick(container, clientX, clientY, clamped);
    }

    method HandleMove(container: Option<Rect>, clientX: real, clientY: real, clamped: Vec2)
      requires Valid() && ClampPremise(container, clientX, clientY, clamped)
      modifies this, window
      ensures Valid() && active == old(active)
      ensures !old(active) ==> position == old(position) && window.joystickVector == old(window.joystickVector)
      ensures old(active) && container.Some? ==> position == StickFor(container.value, clientX, clientY, clamped)
      ensures old(active) && container.Some? ==> window.joystickVector == Normalise(StickFor(container.value, clientX, clientY, clamped))
      ensures container.None? ==> position == old(position) && window.joystickVector == old(window.joystickVector)
    {
      if !active {
        return;
      }
      UpdateStick(container, clientX, clientY, clamped);
    }

    /** Release: everything back to rest, whatever the state before. */
    method HandleEnd()
      modifies this, window
      ensures Valid()
      ensures !active && position == ZERO && window.joystickVector == ZERO
    {
      active := false;
      position := ZERO;
      window.joystickVector := ZERO;
    }

    /** `onMouseLeave`: a release, but only while the stick is held. */
    method OnMouseLeave()
      requires Valid()
      modifies this, window
      ensures Valid()
      ensures old(active) ==> !active && position == ZERO && window.joystickVector == ZERO
      ensures !old(active) ==> !active && position == old(position) && window.joystickVector == old(window.joystickVector)
    {
      if active {
        HandleEnd();
      }
    }

    /** The unmount clean-up zeroes the shared vector. */
    method Unmount()
      modifies window
      ensures window.joystickVector == ZERO
    {
      window.joystickVector := ZERO;
    }
  }
}
