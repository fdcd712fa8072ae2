/** The scene-wide orchestration of forces (Assets/Scripts/ObjectManager.cs):
    constant wind and gravity, a list of bodies placed in the scene, a list
    of bodies generated at start-up, and a per-frame pass that applies the
    environment to every body in both lists. */
module Manager {
  import opened Vectors
  import opened Viewport
  import opened Physics

  /** The forces Start installs. */
  const Wind := Vec(0.01, 0.0, 0.0)
  const Gravity := Vec(0.0, -0.3, 0.0)

  /** GeneratePOs creates this many bodies, with masses drawn from [MinMass, MaxMass]. */
  const GeneratedCount := 3
  const MinMass := 1.0
  const MaxMass := 20.0

  /** Where GeneratePOs instantiates its i-th body. */
  function SpawnPoint(i: int): Vec {
    Vec(i as real * 1.8 - 1.8, -1.8, 0.0)
  }

  /** The three spawn points, left to right along y = -1.8. */
  lemma SpawnPoints()
    ensures SpawnPoint(0) == Vec(-1.8, -1.8, 0.0)
    ensures SpawnPoint(1) == Vec(0.0, -1.8, 0.0)
    ensures SpawnPoint(2) == Vec(1.8, -1.8, 0.0)
  {
  }

  /** The acceptable draws for the random masses of GeneratePOs. */
  predicate MassDraws(masses: seq<real>) {
    |masses| == GeneratedCount && forall k :: 0 <= k < |masses| ==> MinMass <= masses[k] <= MaxMass
  }

  /** The acceleration that one SimulateObject call adds to a body of the given mass. */
  function EnvironmentAcceleration(wind: Vec, gravity: Vec, mass: real): Vec
    requires mass != 0.0
  {
    Add(Div(wind, mass), gravity)
  }

  /** Applying the wind and then gravity scaled by the mass adds wind / mass + gravity
      to the accumulator: the gravity contribution does not depend on the mass. */
  lemma EnvironmentForces(acc: Vec, wind: Vec, gravity: Vec, mass: real)
    requires mass != 0.0
    ensures Accelerated(Accelerated(acc, wind, mass), Scale(gravity, mass), mass)
         == Add(acc, Add(Div(wind, mass), gravity))
  {
    ScaleDiv(gravity, mass);
  }

  /** acc with `delta` added n times. */
  function AddedTimes(acc: Vec, delta: Vec, n: nat): Vec {
    if n == 0 then acc else Add(AddedTimes(acc, delta, n - 1), delta)
  }

  /** A body listed n times in one frame receives n times the environment's contribution. */
  lemma {:induction false} AddedTimesScales(acc: Vec, delta: Vec, n: nat)
    ensures AddedTimes(acc, delta, n) == Add(acc, Scale(delta, n as real))
  {
    if n > 0 {
      AddedTimesScales(acc, delta, n - 1);
      var k := (n - 1) as real;
      assert delta.x * k + delta.x == delta.x * (k + 1.0);
      assert delta.y * k + delta.y == delta.y * (k + 1.0);
      assert delta.z * k + delta.z == delta.z * (k + 1.0);
    }
  }

  /** The elements s[|s| - 1], s[|s| - 2], ..., s[lo]: the order in which
      Update's count-down loop, run down to index lo, visits a list. That
      loop makes |s| - lo visits. */
  function CountDown<T>(s: seq<T>, lo: nat): (r: seq<T>)
    ensures lo <= |s| ==> |r| == |s| - lo
    decreases |s| - lo
  {
    if lo >= |s| then [] else CountDown(s, lo + 1) + [s[lo]]
  }

  /** The k-th visit of the count-down loop is index |s| - 1 - k: every index
      from |s| - 1 down to lo is visited exactly once, in descending order. */
  lemma {:induction false} CountDownIndex<T>(s: seq<T>, lo: nat, k: nat)
    requires lo <= |s| && k < |s| - lo
    ensures CountDown(s, lo)[k] == s[|s| - 1 - k]
    decreases |s| - lo
  {
    if k < |s| - 1 - lo {
      CountDownIndex(s, lo + 1, k);
    }
  }

  /** The count-down loop visits the same elements, as often, as a forward loop would. */
  lemma {:induction false} CountDownPermutes<T>(s: seq<T>, lo: nat)
    requires lo <= |s|
    ensures multiset(CountDown(s, lo)) == multiset(s[lo..])
    decreases |s| - lo
  {
    if lo < |s| {
      CountDownPermutes(s, lo + 1);
      assert s[lo..] == [s[lo]] + s[lo + 1..];
    }
  }

  lemma AppendAssociates<T>(a: seq<T>, b: seq<T>, x: T)
    ensures a + b + [x] == a + (b + [x])
  {
  }

  /** No element is listed twice. */
  predicate Distinct<T(==)>(s: seq<T>) {
    forall a, b :: 0 <= a < b < |s| ==> s[a] != s[b]
  }

  /** An element of a list without repetitions occurs in it exactly once. */
  lemma {:induction false} ListedOnce<T>(s: seq<T>, j: nat)
    requires Distinct(s) && j < |s|
    ensures multiset(s)[s[j]] == 1
  {
    var n := |s| - 1;
    assert s == s[..n] + [s[n]];
    if j == n {
      assert s[n] !in s[..n];
    } else {
      ListedOnce(s[..n], j);
    }
  }

  /** Every body of s has a non-zero mass. */
  ghost predicate NonZeroMasses(s: seq<PhysicsObject>)
    reads s`mass
  {
    forall j :: 0 <= j < |s| ==> s[j].mass != 0.0
  }

  /** The current motion of every body of s, by index. */
  ghost function Motions(s: seq<PhysicsObject>): seq<Motion>
    reads s
  {
    seq(|s|, j requires 0 <= j < |s| reads s => s[j].Kinematics())
  }

  /** The current acceleration of every body of s, by index. */
  ghost function AccelerationsOf(s: seq<PhysicsObject>): seq<Vec>
    reads s
  {
    seq(|s|, j requires 0 <= j < |s| reads s => s[j].acceleration)
  }

  /** A body that starts its first frame at rest, with an empty accumulator
      and no friction, leaves the integration step with velocity
      (0.01 / mass, -0.3, 0): wind scaled by the mass, gravity unscaled. */
  lemma FirstFrameFromRest(mass: real, start: Vec, normalize: Vec -> Vec, deltaTime: real)
    requires MinMass <= mass <= MaxMass
    requires normalize(Zero) == Zero
    ensures var acc := Accelerated(Add(Zero, EnvironmentAcceleration(Wind, Gravity, mass)), Friction(normalize(Zero)), mass);
      var v := Vec(0.01 / mass, -0.3, 0.0);
      Integrate(Motion(start, Zero), acc, deltaTime) == Motion(Add(start, Scale(v, deltaTime)), v)
  {
  }

  class ObjectManager {
    var wind: Vec
    var gravity: Vec
    /** Bodies placed in the scene beforehand. */
    var scenePO: seq<PhysicsObject>
    /** Bodies created by GeneratePOs. */
    var generatedPO: seq<PhysicsObject>
    /** Every body handed to SimulateObject so far, in call order. */
    ghost var simulated: seq<PhysicsObject>

    /** Every tracked body has a non-zero mass. */
    ghost predicate Valid()
      reads this`scenePO, this`generatedPO, scenePO`mass, generatedPO`mass
    {
      NonZeroMasses(scenePO) && NonZeroMasses(generatedPO)
    }

    /** The manager as the scene sets it up: `scene` holds the bodies placed beforehand. */
    constructor (scene: seq<PhysicsObject>)
      requires NonZeroMasses(scene)
      ensures Valid()
      ensures scenePO == scene && generatedPO == [] && simulated == []
      ensures wind == Zero && gravity == Zero
    {
      wind, gravity := Zero, Zero;
      scenePO, generatedPO := scene, [];
      simulated := [];
    }

    method Start(masses: seq<real>)
      requires Valid() && MassDraws(masses)
      modifies this`wind, this`gravity, this`generatedPO
      ensures Valid()
      ensures wind == Wind && gravity == Gravity
      ensures Generated(old(generatedPO), generatedPO, masses)
      ensures forall k :: |old(generatedPO)| <= k < |generatedPO| ==> fresh(generatedPO[k])
    {
      wind := Wind;
      gravity := Gravity;
      GeneratePOs(masses);
    }

    /** `after` is `before` followed by three distinct bodies, the k-th at
        SpawnPoint(k) with the k-th drawn mass, default elasticity and no motion. */
    ghost predicate Generated(before: seq<PhysicsObject>, after: seq<PhysicsObject>, masses: seq<real>)
      requires |masses| == GeneratedCount
      reads after
    {
      var n := |before|;
      && |after| == n + GeneratedCount
      && after[..n] == before
      && (forall j :: n <= j < |after| ==> Spawned(after[j], SpawnPoint(j - n), masses[j - n]))
      && (forall j, k :: n <= j < k < |after| ==> after[j] != after[k])
    }

    ghost predicate Spawned(po: PhysicsObject, at: Vec, mass: real)
      reads po
    {
      && po.transform == at && po.mass == mass && po.elasticity == DefaultElasticity
      && po.acceleration == Zero && po.position == Zero && po.velocity == Zero
    }

    method GeneratePOs(masses: seq<real>)
      requires Valid() && MassDraws(masses)
      modifies this`generatedPO
      ensures Valid()
      ensures Generated(old(generatedPO), generatedPO, masses)
      ensures forall k :: |old(generatedPO)| <= k < |generatedPO| ==> fresh(generatedPO[k])
    {
      var n := |generatedPO|;
      for i := 0 to 3
        invariant |generatedPO| == n + i
        invariant generatedPO[..n] == old(generatedPO)
        invariant forall j :: n <= j < n + i ==> fresh(generatedPO[j])
        invariant forall j :: n <= j < n + i ==> Spawned(generatedPO[j], SpawnPoint(j - n), masses[j - n])
        invariant forall j, k :: n <= j < k < n + i ==> generatedPO[j] != generatedPO[k]
        invariant Valid()
      {
        var po := new PhysicsObject(SpawnPoint(i));
        po.mass := masses[i];
        generatedPO := generatedPO + [po];
      }
    }

    method SimulateObject(po: PhysicsObject)
      requires po.Valid()
      modifies this`simulated, po`acceleration
      ensures po.acceleration == Add(old(po.acceleration), EnvironmentAcceleration(wind, gravity, po.mass))
      ensures simulated == old(simulated) + [po]
    {
      po.ApplyForce(wind);
      po.ApplyForce(Scale(gravity, po.mass));
      simulated := simulated + [po];
      EnvironmentForces(old(po.acceleration), wind, gravity, po.mass);
    }

    /** Every body all[j] of `all` holds its starting acceleration start[j] plus
        one environment contribution per occurrence of it in `visits`. */
    ghost predicate Received(all: seq<PhysicsObject>, start: seq<Vec>, visits: multiset<PhysicsObject>)
      requires NonZeroMasses(all)
      reads this`wind, this`gravity, all`acceleration, all`mass
    {
      && |start| == |all|
      && forall j :: 0 <= j < |all| ==>
           all[j].acceleration == AddedTimes(start[j], EnvironmentAcceleration(wind, gravity, all[j].mass), visits[all[j]])
    }

    /** SimulateObject(po), seen as one more visit of the bodies in `all`. */
    method SimulateStep(ghost all: seq<PhysicsObject>, ghost start: seq<Vec>,
                        ghost visits: multiset<PhysicsObject>, po: PhysicsObject)
      requires po in all && NonZeroMasses(all) && Received(all, start, visits)
      modifies this`simulated, po`acceleration
      ensures NonZeroMasses(all) && Received(all, start, visits + multiset{po})
      ensures simulated == old(simulated) + [po]
    {
      SimulateObject(po);
      assert NonZeroMasses(all);
      forall j | 0 <= j < |all|
        ensures all[j].acceleration == AddedTimes(start[j], EnvironmentAcceleration(wind, gravity, all[j].mass), (visits + multiset{po})[all[j]])
      {
        if all[j] == po {
          assert (visits + multiset{po})[po] == visits[po] + 1;
        }
      }
      assert Received(all, start, visits + multiset{po});
    }

    /** One frame of force application (Update): every listed body receives
        the environment once per listing, the scene list front to back, then
        the generated list back to front. */
    method Update()
      requires Valid()
      modifies this`simulated, scenePO`acceleration, generatedPO`acceleration
      ensures Valid()
      ensures simulated == old(simulated) + scenePO + CountDown(generatedPO, 0)
      ensures Received(scenePO + generatedPO, old(AccelerationsOf(scenePO + generatedPO)), multiset(scenePO + generatedPO))
    {
      ghost var all := scenePO + generatedPO;
      assert NonZeroMasses(all);
      ghost var start := AccelerationsOf(all);
      SimulateScene(all, start);
      SimulateGenerated(all, start);
      CountDownPermutes(generatedPO, 0);
      assert generatedPO[0..] == generatedPO;
      assert multiset(all) == multiset(scenePO) + multiset(CountDown(generatedPO, 0));
    }

    /** When no body is listed twice, each receives the environment exactly once. */
    lemma ReceivedOnce(all: seq<PhysicsObject>, start: seq<Vec>)
      requires NonZeroMasses(all) && Distinct(all) && Received(all, start, multiset(all))
      ensures forall j :: 0 <= j < |all| ==>
        all[j].acceleration == Add(start[j], EnvironmentAcceleration(wind, gravity, all[j].mass))
    {
      forall j | 0 <= j < |all|
        ensures all[j].acceleration == Add(start[j], EnvironmentAcceleration(wind, gravity, all[j].mass))
      {
        ListedOnce(all, j);
        var delta := EnvironmentAcceleration(wind, gravity, all[j].mass);
        assert AddedTimes(start[j], delta, 1) == Add(AddedTimes(start[j], delta, 0), delta);
      }
    }

    /** `po` is in the state its LateUpdate leaves it in, when it started
        LateUpdate with motion `m` and accumulator `acc`: moved, bounced,
        its transform following its position, its accumulator cleared. */
    ghost predicate Moved(po: PhysicsObject, m: Motion, acc: Vec,
                          deltaTime: real, normalize: Vec -> Vec, cam: Camera, width: nat, height: nat)
      requires cam.Valid()
      reads po
    {
      && po.mass != 0.0
      && po.acceleration == Zero
      && po.transform == po.position
      && po.Kinematics() == Bounce(cam, width as real, height as real, po.elasticity,
           Integrate(m, Accelerated(acc, Friction(normalize(m.velocity)), po.mass), deltaTime))
    }

    /** Every tracked body all[j] has run LateUpdate once, starting from
        motion before[j] and from accumulator start[j] plus one environment
        contribution. */
    ghost predicate FrameDone(before: seq<Motion>, start: seq<Vec>,
                              deltaTime: real, normalize: Vec -> Vec, cam: Camera, width: nat, height: nat)
      requires cam.Valid()
      reads this, scenePO, generatedPO
    {
      var all := scenePO + generatedPO;
      && |before| == |all| && |start| == |all|
      && forall j :: 0 <= j < |all| ==>
           && all[j].mass != 0.0
           && Moved(all[j], before[j], Add(start[j], EnvironmentAcceleration(wind, gravity, all[j].mass)),
                    deltaTime, normalize, cam, width, height)
    }

    /** One frame in the order the engine runs it: the manager's Update
        applies wind and gravity to every tracked body, then every tracked
        body runs its LateUpdate once. */
    method Frame(deltaTime: real, normalize: Vec -> Vec, cam: Camera, width: nat, height: nat)
      requires Valid() && cam.Valid() && Distinct(scenePO + generatedPO)
      modifies this`simulated
      modifies scenePO`acceleration, scenePO`position, scenePO`velocity, scenePO`transform
      modifies generatedPO`acceleration, generatedPO`position, generatedPO`velocity, generatedPO`transform
      ensures Valid()
      ensures FrameDone(old(Motions(scenePO + generatedPO)), old(AccelerationsOf(scenePO + generatedPO)),
                        deltaTime, normalize, cam, width, height)
    {
      ghost var all := scenePO + generatedPO;
      assert NonZeroMasses(all);
      ghost var before, start := Motions(all), AccelerationsOf(all);
      Update();
      ReceivedOnce(all, start);
      ghost var forced := AccelerationsOf(all);
      LateUpdateAll(all, before, start, forced, deltaTime, normalize, cam, width, height);
    }

    /** The LateUpdate pass of Frame over the tracked bodies, whose
        accumulators hold `forced`: `start` plus one environment contribution. */
    method LateUpdateAll(ghost all: seq<PhysicsObject>, ghost before: seq<Motion>, ghost start: seq<Vec>,
                         ghost forced: seq<Vec>,
                         deltaTime: real, normalize: Vec -> Vec, cam: Camera, width: nat, height: nat)
      requires Valid() && all == scenePO + generatedPO && Distinct(all) && NonZeroMasses(all) && cam.Valid()
      requires |before| == |all| && |start| == |all| && |forced| == |all|
      requires forall j :: 0 <= j < |all| ==>
        && all[j].Kinematics() == before[j] && all[j].acceleration == forced[j]
        && forced[j] == Add(start[j], EnvironmentAcceleration(wind, gravity, all[j].mass))
      modifies scenePO`acceleration, scenePO`position, scenePO`velocity, scenePO`transform
      modifies generatedPO`acceleration, generatedPO`position, generatedPO`velocity, generatedPO`transform
      ensures Valid() && FrameDone(before, start, deltaTime, normalize, cam, width, height)
    {
      var bodies := scenePO + generatedPO;
      for i := 0 to |bodies|
        invariant forall j :: 0 <= j < i ==> Moved(all[j], before[j], forced[j], deltaTime, normalize, cam, width, height)
        invariant forall j :: i <= j < |all| ==> all[j].Kinematics() == before[j] && all[j].acceleration == forced[j]
      {
        bodies[i].LateUpdate(deltaTime, normalize, cam, width, height);
      }
    }

    /** The foreach loop of Update over the scene list. */
    method SimulateScene(ghost all: seq<PhysicsObject>, ghost start: seq<Vec>)
      requires all == scenePO + generatedPO && NonZeroMasses(all) && Received(all, start, multiset{})
      modifies this`simulated, scenePO`acceleration
      ensures NonZeroMasses(all) && Received(all, start, multiset(scenePO))
      ensures simulated == old(simulated) + scenePO
    {
      for i := 0 to |scenePO|
        invariant simulated == old(simulated) + scenePO[..i]
        invariant NonZeroMasses(all) && Received(all, start, multiset(scenePO[..i]))
      {
        SimulateStep(all, start, multiset(scenePO[..i]), scenePO[i]);
        assert scenePO[..i + 1] == scenePO[..i] + [scenePO[i]];
      }
      assert scenePO[..|scenePO|] == scenePO;
    }

    /** The count-down loop of Update over the generated list. */
    method SimulateGenerated(ghost all: seq<PhysicsObject>, ghost start: seq<Vec>)
      requires all == scenePO + generatedPO && NonZeroMasses(all) && Received(all, start, multiset(scenePO))
      modifies this`simulated, generatedPO`acceleration
      ensures NonZeroMasses(all) && Received(all, start, multiset(scenePO) + multiset(CountDown(generatedPO, 0)))
      ensures simulated == old(simulated) + CountDown(generatedPO, 0)
    {
      var i := |generatedPO| - 1;
      ghost var counted := multiset(scenePO);
      while i >= 0
        invariant -1 <= i < |generatedPO|
        invariant simulated == old(simulated) + CountDown(generatedPO, i + 1)
        invariant counted == multiset(scenePO) + multiset(CountDown(generatedPO, i + 1))
        invariant NonZeroMasses(all) && Received(all, start, counted)
        decreases i + 1
      {
        SimulateStep(all, start, counted, generatedPO[i]);
        counted := counted + multiset{generatedPO[i]};
        AppendAssociates(old(simulated), CountDown(generatedPO, i + 1), generatedPO[i]);
        i := i - 1;
      }
      assert i + 1 == 0;
    }
  }
}
