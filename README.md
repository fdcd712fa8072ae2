# Forces, integration and bounces of a Unity point-mass demo

This project models the physics core of a small Unity teaching scene.

A `PhysicsObject` component is a point mass with three vectors:

- an acceleration accumulator that `ApplyForce` adds `force / mass` into;
- a position;
- a velocity.

Once per frame `LateUpdate` does five things in order:

1. folds a friction force opposite the velocity into the accumulator;
2. adds the accumulator to the velocity;
3. advances the position by the velocity times the frame time;
4. runs `BounceCheck`, which clamps the body onto the edge of the screen it crossed and reflects and damps that velocity component;
5. clears the accumulator.

An `ObjectManager` holds constant wind and gravity. It keeps two lists of bodies: those placed in the scene, and three generated at start-up. Each frame it applies wind and mass-scaled gravity to every body in both lists, walking the scene list forwards and the generated list with a count-down index.

The model is written in Dafny over exact real arithmetic:

- `vectors.dfy` (module `Vectors`): the three-component vector `Vec` and its arithmetic.
- `camera.dfy` (module `Viewport`): the camera's world/screen projection.
- `physics_object.dfy` (module `Physics`): the per-frame update as functions on values (`Accelerated`, `Integrate`, `BounceY`, `BounceX`, `Bounce`). The class `PhysicsObject` performs the same update in place on its fields, and each method is proved to produce exactly the state those functions describe.
- `object_manager.dfy` (module `Manager`): the class `ObjectManager`. A ghost field `simulated` records every body handed to `SimulateObject`, in call order. It lets the contracts state which bodies a frame visits and in which order. `Frame` runs one whole frame: the manager's forces first, then the `LateUpdate` of every body the manager tracks.

## Model

| member | source | states |
|---|---|---|
| Viewport.ScreenRoundTrip | Assets/Scripts/PhysicsObject.cs:60-70 | a screen point sent into the world with ScreenToWorldPoint and projected back with WorldToScreenPoint is the same screen point; this is the camera law the clamping relies on |
| Viewport.OrthographicValid | Assets/Scripts/PhysicsObject.cs:55-60 | an orthographic 2D camera (origin and pixels per unit) obeys the camera law, and its two maps are inverse in both directions, so the law can be met |
| Physics.Accelerated | Assets/Scripts/PhysicsObject.cs:41-44 | Newton's second law for the accumulator: the mass times the acceleration added by one ApplyForce equals the applied force |
| Physics.Superposition | Assets/Scripts/PhysicsObject.cs:43 | applying f1 then f2 leaves the same acceleration as applying f1 + f2 once |
| Physics.FrictionAtRest | Assets/Scripts/PhysicsObject.cs:93 | a body at rest feels no friction, given that normalizing the zero vector gives the zero vector |
| Physics.Integrate | Assets/Scripts/PhysicsObject.cs:96-100 | the new velocity is the old velocity plus the acceleration, and the position moves by the new (not the old) velocity times deltaTime |
| Physics.BounceY | Assets/Scripts/PhysicsObject.cs:55-66 | below the bottom or above the top edge, the screen y is clamped onto that edge (x kept, depth 0) and velocity.y becomes -velocity.y * elasticity; otherwise nothing changes; velocity.x and velocity.z are never touched |
| Physics.BounceX | Assets/Scripts/PhysicsObject.cs:70-80 | left of the left or right of the right edge, the screen x is clamped onto that edge (y kept) and velocity.x becomes -velocity.x * elasticity; otherwise nothing changes; velocity.y and velocity.z are never touched |
| Physics.Bounce | Assets/Scripts/PhysicsObject.cs:53-84 | after the bounce the body is on screen inside [0, width] x [0, height] with z = 0; a body that was already on screen only has its z set to 0 |
| Physics.BounceAxes | Assets/Scripts/PhysicsObject.cs:58-80 | each axis is clamped to [0, edge] on its own, and each velocity component is reflected and damped exactly when that axis was crossed, at most once per call |
| Physics.CornerBounce | Assets/Scripts/PhysicsObject.cs:68-80 | a body past the bottom and the left edge at once lands on the corner pixel (0, 0) with both velocity components reflected, so it does not sink into the corner |
| Physics.PhysicsObject.constructor | Assets/Scripts/PhysicsObject.cs:17-26 | a new component sits at the given transform position with mass 1, elasticity 0.9 and zero vectors |
| Physics.PhysicsObject.Start | Assets/Scripts/PhysicsObject.cs:28-35 | position takes x and y from the transform with z = 0; velocity and acceleration become zero; nothing else changes |
| Physics.PhysicsObject.ApplyForce | Assets/Scripts/PhysicsObject.cs:41-44 | the accumulator becomes Accelerated(old accumulator, force, mass); position and velocity are unchanged |
| Physics.PhysicsObject.BounceCheck | Assets/Scripts/PhysicsObject.cs:53-84 | the new position and velocity are exactly Bounce of the old ones, so the body ends on screen with z = 0 |
| Physics.PhysicsObject.LateUpdate | Assets/Scripts/PhysicsObject.cs:91-113 | the body ends in the state Bounce(Integrate(old state, old accumulator plus friction / mass)): on screen, z = 0, transform equal to position, and the accumulator cleared to zero |
| Manager.SpawnPoints | Assets/Scripts/ObjectManager.cs:42 | the three spawn points are (-1.8, -1.8, 0), (0, -1.8, 0) and (1.8, -1.8, 0) |
| Manager.EnvironmentForces | Assets/Scripts/ObjectManager.cs:53-58 | applying wind and then gravity * mass adds wind / mass + gravity to the accumulator, so gravity's contribution does not depend on the mass |
| Manager.AddedTimesScales | Assets/Scripts/ObjectManager.cs:60-76 | a body that one frame visits n times receives n times the environment's contribution |
| Manager.CountDownIndex | Assets/Scripts/ObjectManager.cs:73-75 | the count-down loop makes one visit per index, and its k-th visit is index Count - 1 - k: every index once, in descending order |
| Manager.CountDown | Assets/Scripts/ObjectManager.cs:73 | the count-down loop run down to index lo makes Count - lo visits |
| Manager.CountDownPermutes | Assets/Scripts/ObjectManager.cs:73-75 | the count-down loop visits the same bodies, each as often, as a forward pass over the list |
| Manager.FirstFrameFromRest | Assets/Scripts/ObjectManager.cs:53-58 | a body at rest with mass in [1, 20] leaves its first frame's integration with velocity (0.01 / mass, -0.3, 0) |
| Manager.ListedOnce | Assets/Scripts/ObjectManager.cs:64-75 | a body that appears once in a list without repetitions is counted exactly once among the list's visits |
| Manager.ObjectManager.constructor | Assets/Scripts/ObjectManager.cs:14-23 | the manager starts with the scene's bodies, no generated bodies and zero forces, and with every tracked mass non-zero |
| Manager.ObjectManager.Start | Assets/Scripts/ObjectManager.cs:30-37 | wind becomes (0.01, 0, 0), gravity (0, -0.3, 0), and GeneratePOs appends its three bodies |
| Manager.ObjectManager.GeneratePOs | Assets/Scripts/ObjectManager.cs:39-50 | exactly three new, distinct bodies are appended after the existing ones; the i-th is at (i * 1.8 - 1.8, -1.8, 0), at rest, with the i-th drawn mass from [1, 20] |
| Manager.ObjectManager.SimulateObject | Assets/Scripts/ObjectManager.cs:53-58 | the body's accumulator grows by exactly wind / mass + gravity, and the call is logged |
| Manager.ObjectManager.SimulateStep | Assets/Scripts/ObjectManager.cs:65 | one SimulateObject call gives the visited body one more environment contribution and leaves every other tracked body's count unchanged |
| Manager.ObjectManager.SimulateScene | Assets/Scripts/ObjectManager.cs:64-66 | the foreach visits the scene list front to back, each entry once |
| Manager.ObjectManager.SimulateGenerated | Assets/Scripts/ObjectManager.cs:73-75 | the count-down loop terminates after visiting the generated list back to front, each entry once |
| Manager.ObjectManager.Update | Assets/Scripts/ObjectManager.cs:60-76 | SimulateObject is called on the scene list in order and then on the generated list in reverse; every tracked body ends with its accumulator plus one environment contribution per listing; neither list changes |
| Manager.ObjectManager.ReceivedOnce | Assets/Scripts/ObjectManager.cs:60-76 | when no body is listed twice, Update leaves every body with its old accumulator plus exactly wind / mass + gravity |
| Manager.ObjectManager.Frame | Assets/Scripts/PhysicsObject.cs:10-12 | one frame runs the manager's Update first and then the LateUpdate of every tracked body: each tracked body ends with a zero accumulator and its transform equal to its position, in the state Bounce(Integrate(old motion, old accumulator + wind / mass + gravity + friction / mass)), so all forces are applied before any body moves; masses and lists are unchanged |
| Manager.ObjectManager.LateUpdateAll | Assets/Scripts/PhysicsObject.cs:91-113 | running LateUpdate once on every tracked body moves each from its own motion and accumulator, independently of the others, and leaves each transform equal to its position and each accumulator zero |

## Left out

- Unity's lifecycle dispatch (`MonoBehaviour`) is not modelled. One frame is modelled by `Frame` as the explicit call order the engine guarantees: the manager's `Update`, then the `LateUpdate` of every body in the scene and generated lists. The order in which the engine visits the bodies in `LateUpdate` does not matter, because each body moves independently. The start-up calls (`Start`) are modelled as separate methods.
- Manager.ObjectManager.Frame: covers only the bodies in the manager's two lists. The engine also runs `LateUpdate` on any `PhysicsObject` in the scene that was never put into the scene list (Assets/Scripts/ObjectManager.cs:17-19); such a body would get friction, move and bounce without wind or gravity. Those untracked components are not modelled, and `Frame` leaves every body outside the lists unchanged.
- Manager.ObjectManager.Frame: requires that no body is listed twice in the scene and generated lists together. A body listed twice would get the environment once per listing from `Update` (its contract states that case) but would still run `LateUpdate` once; the combined frame statement is not given for that configuration.
- The lists are sequences of bodies and cannot hold a missing entry. An unassigned inspector slot in the scene list would throw a null reference error at `po.ApplyForce` (Assets/Scripts/ObjectManager.cs:55). That configuration error is not modelled.
- `Instantiate`, `GetComponent`, `Quaternion.identity` and the prefab are engine object plumbing. An instantiated component is modelled by the `PhysicsObject` constructor, which takes the spawn position. The prefab asset is not part of this model: an instantiated prefab is taken to carry the script's default inspector values (elasticity 0.9 among them), and `GeneratePOs` overwrites only its `mass`.
- `Random.Range(1f, 20f)` is replaced by an input `masses`: three draws constrained to [1, 20].
- `Time.deltaTime`, `Screen.width` and `Screen.height` are method parameters.
- The camera (`Camera.main.WorldToScreenPoint` and `ScreenToWorldPoint`) is an engine call. It is modelled by two maps between the world x-y plane and the screen plane. Their one law is that a screen point mapped into the world and back is unchanged. Depth passes through and does not move a point on the screen, as for an orthographic camera looking down z. A perspective camera is not modelled. In Unity the z given to `ScreenToWorldPoint` is a distance from the camera, so a clamped point's intermediate world z is the camera's plane; in the model it is 0. Nothing depends on this value: `BounceCheck` sets z to 0 afterwards and the orthographic screen position ignores depth.
- IEEE float arithmetic and its rounding are replaced by exact real arithmetic. The constants 0.01f, -0.3f, 1.8f, 0.9f become the exact decimals.
- `Vector3.normalized` is a parameter `normalize` of `LateUpdate`. Its definition (a square root, and the zero vector's special case) is library code that is not part of this model. No friction-magnitude property is stated.
- `transform.position` is modelled as the field `transform` of `PhysicsObject`. Only its value is modelled, not the rendering it drives.
- Removal from the lists while iterating is only discussed in the source's comments, and nothing is ever removed. No removal operation is modelled.
- Physics.PhysicsObject.ApplyForce: requires a non-zero mass (every `PhysicsObject` method that divides by the mass does). The source divides by the mass unchecked, so a zero mass would give float infinities or NaN. That case is not modelled. Negative masses are allowed and modelled like any other.
- Physics.PhysicsObject.LateUpdate: requires a non-zero mass, for the same reason as `ApplyForce`.
- Manager.ObjectManager.constructor: requires every scene body to have a non-zero mass, so that the manager's invariant holds from the start; a scene body with mass 0 would divide by zero in its first `ApplyForce`.
- Manager.ObjectManager.SimulateScene, Manager.ObjectManager.SimulateGenerated and Manager.ObjectManager.SimulateStep are the two loops of `Update` and the body they share. They are separated only so that each loop is proved on its own; `Update` runs them in the source's order.
