/** A point mass that accumulates forces, integrates them once per frame and
    bounces off the edges of the screen (Assets/Scripts/PhysicsObject.cs).

    The first half of the module gives the frame update as functions on
    values; the class PhysicsObject at the end performs the same update in
    place on its fields and is proved against those functions. */
module Physics {
  import opened Vectors
  import opened Viewport

  /** The friction multiplier mu. */
  const Mu: real := 0.01
  /** Inspector defaults of a freshly created component. */
  const DefaultMass: real := 1.0
  const DefaultElasticity: real := 0.9

  /** The kinematic state that the bounce and the integration act on. */
  datatype Motion = Motion(position: Vec, velocity: Vec)

  /** The acceleration accumulator after ApplyForce(force). */
  function Accelerated(acc: Vec, force: Vec, mass: real): (r: Vec)
    requires mass != 0.0
    ensures Scale(Sub(r, acc), mass) == force
  {
    ScaleDiv(force, mass);
    Add(acc, Div(force, mass))
  }

  /** Applying f1 then f2 accumulates the same acceleration as applying f1 + f2 once. */
  lemma Superposition(acc: Vec, f1: Vec, f2: Vec, mass: real)
    requires mass != 0.0
    ensures Accelerated(Accelerated(acc, f1, mass), f2, mass) == Accelerated(acc, Add(f1, f2), mass)
  {
  }

  /** The friction force for a velocity whose normalized direction is `direction`. */
  function Friction(direction: Vec): Vec {
    Scale(direction, -1.0 * Mu)
  }

  /** A body at rest feels no friction when normalizing the zero vector yields the zero vector. */
  lemma FrictionAtRest(normalize: Vec -> Vec)
    requires normalize(Zero) == Zero
    ensures Friction(normalize(Zero)) == Zero
  {
  }

  /** velocity += acceleration, then position += velocity * deltaTime. */
  function Integrate(m: Motion, acc: Vec, deltaTime: real): (r: Motion)
    ensures r.velocity == Add(m.velocity, acc)
    ensures Sub(r.position, m.position) == Scale(r.velocity, deltaTime)
  {
    var v := Add(m.velocity, acc);
    Motion(Add(m.position, Scale(v, deltaTime)), v)
  }

  /** The value BounceCheck moves a screen coordinate to: the crossed edge, or the coordinate itself. */
  function Clamp(c: real, high: real): real {
    if c < 0.0 then 0.0 else if high < c then high else c
  }

  /** The bottom/top check of BounceCheck. */
  function BounceY(cam: Camera, height: real, elasticity: real, m: Motion): (r: Motion)
    requires cam.Valid()
    ensures r.velocity.x == m.velocity.x && r.velocity.z == m.velocity.z
    ensures var s, t := WorldToScreenPoint(cam, m.position), WorldToScreenPoint(cam, r.position);
      if s.y < 0.0 || height < s.y then
        t == Vec(s.x, Clamp(s.y, height), 0.0) && r.velocity.y == -m.velocity.y * elasticity
      else
        r == m
  {
    var s := WorldToScreenPoint(cam, m.position);
    if 0.0 > s.y then
      ScreenRoundTrip(cam, Vec(s.x, 0.0, 0.0));
      Motion(ScreenToWorldPoint(cam, Vec(s.x, 0.0, 0.0)), m.velocity.(y := -m.velocity.y * elasticity))
    else if height < s.y then
      ScreenRoundTrip(cam, Vec(s.x, height, 0.0));
      Motion(ScreenToWorldPoint(cam, Vec(s.x, height, 0.0)), m.velocity.(y := -m.velocity.y * elasticity))
    else
      m
  }

  /** The left/right check of BounceCheck. */
  function BounceX(cam: Camera, width: real, elasticity: real, m: Motion): (r: Motion)
    requires cam.Valid()
    ensures r.velocity.y == m.velocity.y && r.velocity.z == m.velocity.z
    ensures var s, t := WorldToScreenPoint(cam, m.position), WorldToScreenPoint(cam, r.position);
      if s.x < 0.0 || width < s.x then
        t == Vec(Clamp(s.x, width), s.y, 0.0) && r.velocity.x == -m.velocity.x * elasticity
      else
        r == m
  {
    var s := WorldToScreenPoint(cam, m.position);
    if 0.0 > s.x then
      ScreenRoundTrip(cam, Vec(0.0, s.y, 0.0));
      Motion(ScreenToWorldPoint(cam, Vec(0.0, s.y, 0.0)), m.velocity.(x := -m.velocity.x * elasticity))
    else if width < s.x then
      ScreenRoundTrip(cam, Vec(width, s.y, 0.0));
      Motion(ScreenToWorldPoint(cam, Vec(width, s.y, 0.0)), m.velocity.(x := -m.velocity.x * elasticity))
    else
      m
  }

  /** BounceCheck: the y pair, then the x pair on the recomputed screen position, then z := 0. */
  function Bounce(cam: Camera, width: real, height: real, elasticity: real, m: Motion): (r: Motion)
    requires cam.Valid()
    ensures r.position.z == 0.0 && r.velocity.z == m.velocity.z
    ensures 0.0 <= width && 0.0 <= height ==> OnScreen(cam, width, height, r.position)
    ensures OnScreen(cam, width, height, m.position) ==> r == Motion(m.position.(z := 0.0), m.velocity)
  {
    var afterY := BounceY(cam, height, elasticity, m);
    var afterX := BounceX(cam, width, elasticity, afterY);
    Motion(afterX.position.(z := 0.0), afterX.velocity)
  }

  /** Each axis is resolved on its own: its screen coordinate is clamped onto
      the crossed edge and its velocity component is reflected and damped at
      most once, whatever happens on the other axis (so a corner hit is
      clamped on both axes and nothing sinks). */
  lemma BounceAxes(cam: Camera, width: real, height: real, elasticity: real, m: Motion)
    requires cam.Valid()
    ensures var s, r := WorldToScreenPoint(cam, m.position), Bounce(cam, width, height, elasticity, m);
      var t := WorldToScreenPoint(cam, r.position);
      && t.x == Clamp(s.x, width)
      && t.y == Clamp(s.y, height)
      && r.velocity.x == (if s.x < 0.0 || width < s.x then -m.velocity.x * elasticity else m.velocity.x)
      && r.velocity.y == (if s.y < 0.0 || height < s.y then -m.velocity.y * elasticity else m.velocity.y)
  {
  }

  /** A body past both the bottom and the left edge lands exactly on the
      bottom-left corner with both velocity components reflected. */
  lemma CornerBounce(cam: Camera, width: real, height: real, elasticity: real, m: Motion)
    requires cam.Valid()
    requires WorldToScreenPoint(cam, m.position).x < 0.0 && WorldToScreenPoint(cam, m.position).y < 0.0
    ensures var r := Bounce(cam, width, height, elasticity, m);
      && WorldToScreenPoint(cam, r.position) == Vec(0.0, 0.0, 0.0)
      && r.velocity == Vec(-m.velocity.x * elasticity, -m.velocity.y * elasticity, m.velocity.z)
  {
  }

  class PhysicsObject {
    var acceleration: Vec
    var position: Vec
    var velocity: Vec
    var mass: real
    var elasticity: real
    /** transform.position of the game object the component is attached to */
    var transform: Vec

    ghost predicate Valid()
      reads this
    {
      mass != 0.0
    }

    function Kinematics(): Motion
      reads this`position, this`velocity
    {
      Motion(position, velocity)
    }

    /** The component as Instantiate creates it at `at`, before Start runs. */
    constructor (at: Vec)
      ensures Valid()
      ensures transform == at && mass == DefaultMass && elasticity == DefaultElasticity
      ensures acceleration == Zero && position == Zero && velocity == Zero
    {
      acceleration, position, velocity := Zero, Zero, Zero;
      mass, elasticity := DefaultMass, DefaultElasticity;
      transform := at;
    }

    method Start()
      modifies this`position, this`velocity, this`acceleration
      ensures position == Vec(transform.x, transform.y, 0.0)
      ensures velocity == Zero && acceleration == Zero
    {
      position := Vec(transform.x, transform.y, 0.0);
      velocity := Zero;
      acceleration := Zero;
    }

    method ApplyForce(force: Vec)
      requires Valid()
      modifies this`acceleration
      ensures acceleration == Accelerated(old(acceleration), force, mass)
    {
      acceleration := Add(acceleration, Div(force, mass));
    }

    method BounceCheck(cam: Camera, width: nat, height: nat)
      requires cam.Valid()
      modifies this`position, this`velocity
      ensures Kinematics() == Bounce(cam, width as real, height as real, elasticity, old(Kinematics()))
      ensures OnScreen(cam, width as real, height as real, position) && position.z == 0.0
    {
      ghost var before := Kinematics();
      var screenPos := WorldToScreenPoint(cam, position);
      if 0.0 > screenPos.y {
        position := ScreenToWorldPoint(cam, Vec(screenPos.x, 0.0, 0.0));
        velocity := velocity.(y := -velocity.y * elasticity);
      } else if height as real < screenPos.y {
        position := ScreenToWorldPoint(cam, Vec(screenPos.x, height as real, 0.0));
        velocity := velocity.(y := -velocity.y * elasticity);
      }
      ghost var afterY := Kinematics();
      assert afterY == BounceY(cam, height as real, elasticity, before);

      screenPos := WorldToScreenPoint(cam, position);

      if 0.0 > screenPos.x {
        position := ScreenToWorldPoint(cam, Vec(0.0, screenPos.y, 0.0));
        velocity := velocity.(x := -velocity.x * elasticity);
      } else if width as real < screenPos.x {
        position := ScreenToWorldPoint(cam, Vec(width as real, screenPos.y, 0.0));
        velocity := velocity.(x := -velocity.x * elasticity);
      }
      ghost var afterX := Kinematics();
      assert afterX == BounceX(cam, width as real, elasticity, afterY);

      position := position.(z := 0.0);
      assert Kinematics() == Bounce(cam, width as real, height as real, elasticity, before);
    }

    /** One frame of motion; `normalize` is the host's Vector3.normalized. */
    method LateUpdate(deltaTime: real, normalize: Vec -> Vec, cam: Camera, width: nat, height: nat)
      requires Valid() && cam.Valid()
      modifies this`acceleration, this`position, this`velocity, this`transform
      ensures acceleration == Zero
      ensures Kinematics() == Bounce(cam, width as real, height as real, elasticity,
        Integrate(old(Kinematics()), Accelerated(old(acceleration), Friction(normalize(old(velocity))), mass), deltaTime))
      ensures OnScreen(cam, width as real, height as real, position) && position.z == 0.0
      ensures transform == position
    {
      var friction := Scale(normalize(velocity), -1.0 * Mu);
      ApplyForce(friction);

      velocity := Add(velocity, acceleration);
      position := Add(position, Scale(velocity, deltaTime));

      BounceCheck(cam, width, height);

      transform := position;
      acceleration := Zero;
    }
  }
}
