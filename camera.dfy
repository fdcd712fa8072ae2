/** The main camera's projection between world space and screen space.

    Camera.main.WorldToScreenPoint and ScreenToWorldPoint are engine calls.
    A camera is modelled by two maps between the world's x-y plane and the
    screen's pixel plane, together with the one law BounceCheck relies on: a
    screen point sent into the world and projected back is the same screen
    point. The depth component is carried through unchanged and does not
    affect where a point appears on the screen, as for a 2D scene's
    orthographic camera looking down the z axis. (Unity reads the depth given
    to ScreenToWorldPoint as a distance from the camera; the model carries it
    through as the world z instead, which BounceCheck overwrites with 0.)
    An orthographic camera is given below as an instance that satisfies the law. */
module Viewport {
  import opened Vectors

  /** A point of a plane: world (x, y) or screen pixel (x, y). */
  datatype Point = Point(u: real, v: real)

  datatype Camera = Camera(toScreen: Point -> Point, toWorld: Point -> Point) {
    /** Projecting the world point of a screen point gives back that screen point. */
    ghost predicate Valid() {
      forall q :: toScreen(toWorld(q)) == q
    }
  }

  /** Camera.main.WorldToScreenPoint */
  function WorldToScreenPoint(cam: Camera, p: Vec): Vec {
    var s := cam.toScreen(Point(p.x, p.y));
    Vec(s.u, s.v, p.z)
  }

  /** Camera.main.ScreenToWorldPoint */
  function ScreenToWorldPoint(cam: Camera, s: Vec): Vec {
    var w := cam.toWorld(Point(s.x, s.y));
    Vec(w.u, w.v, s.z)
  }

  /** A screen point sent into the world and projected back is the same screen point. */
  lemma ScreenRoundTrip(cam: Camera, s: Vec)
    requires cam.Valid()
    ensures WorldToScreenPoint(cam, ScreenToWorldPoint(cam, s)) == s
  {
  }

  /** The screen projection of p lies in [0, width] x [0, height]. */
  predicate OnScreen(cam: Camera, width: real, height: real, p: Vec) {
    var s := WorldToScreenPoint(cam, p);
    0.0 <= s.x <= width && 0.0 <= s.y <= height
  }

  /** An orthographic camera whose bottom-left pixel (0, 0) shows the world
      point (originX, originY) and which spans pixelsPerUnit pixels per world
      unit on both axes; screen y grows upwards. */
  function Orthographic(originX: real, originY: real, pixelsPerUnit: real): Camera
    requires pixelsPerUnit > 0.0
  {
    Camera(
      (q: Point) => Point((q.u - originX) * pixelsPerUnit, (q.v - originY) * pixelsPerUnit),
      (q: Point) => Point(q.u / pixelsPerUnit + originX, q.v / pixelsPerUnit + originY))
  }

  /** The orthographic camera satisfies the camera law, and its two maps are
      inverse to each other in both directions. */
  lemma OrthographicValid(originX: real, originY: real, pixelsPerUnit: real)
    requires pixelsPerUnit > 0.0
    ensures Orthographic(originX, originY, pixelsPerUnit).Valid()
    ensures var cam := Orthographic(originX, originY, pixelsPerUnit);
      forall q :: cam.toWorld(cam.toScreen(q)) == q
  {
    var cam := Orthographic(originX, originY, pixelsPerUnit);
    var k := pixelsPerUnit;
    forall q ensures cam.toScreen(cam.toWorld(q)) == q {
      assert (q.u / k + originX - originX) * k == q.u;
      assert (q.v / k + originY - originY) * k == q.v;
    }
    forall q ensures cam.toWorld(cam.toScreen(q)) == q {
      assert (q.u - originX) * k / k == q.u - originX;
      assert (q.v - originY) * k / k == q.v - originY;
    }
  }
}
