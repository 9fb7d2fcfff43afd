/** The per-tick flock update of BoidMovementSystem.OnUpdate.

    Phase 1 reads a snapshot of every boid's position and velocity and
    computes, for each boid, a new velocity from its neighbours (separation,
    alignment, cohesion), a soft boundary-avoidance force and the old
    velocity, renormalised to the cruise speed. Phase 2 moves every boid with
    its new velocity and, on each axis that leaves the cube [-40, 40]^3,
    reflects that velocity component and clamps the position.

    The flock is centred on the origin (`center` is float3(0, 0, 0) in the
    source), so a boid's offset from the centre is its position. */
module BoidMovement {
  import opened Vectors

  const BoundsSize: real := 40.0
  const NeighborRadius: real := 4.0
  /** Lower bound on the distance used to scale the separation term. */
  const MinSeparationDistance: real := 0.01
  const BoundaryThreshold: real := BoundsSize * 0.6
  const BoundaryStrength: real := 50.0
  const SeparationWeight: real := 2.0
  const CohesionWeight: real := 0.5
  const CruiseSpeed: real := 5.0

  // ---------------------------------------------------------------------
  // Scalar helpers: math.abs, math.sign, math.max, math.clamp.

  function Abs(x: real): real {
    if x < 0.0 then -x else x
  }

  function Sign(x: real): real {
    if x > 0.0 then 1.0 else if x < 0.0 then -1.0 else 0.0
  }

  function Max(a: real, b: real): real {
    if a < b then b else a
  }

  function Clamp(x: real, lo: real, hi: real): real {
    Max(lo, if hi < x then hi else x)
  }

  predicate InBounds(p: Vec3) {
    && -BoundsSize <= p.x <= BoundsSize
    && -BoundsSize <= p.y <= BoundsSize
    && -BoundsSize <= p.z <= BoundsSize
  }

  // ---------------------------------------------------------------------
  // Neighbours.

  /** Boid j is a neighbour of boid i: another boid closer than the radius. */
  predicate IsNeighbor(sqrt: real -> real, pos: seq<Vec3>, i: int, j: int)
    requires IsSqrt(sqrt) && 0 <= i < |pos| && 0 <= j < |pos|
  {
    i != j && Distance(sqrt, pos[i], pos[j]) < NeighborRadius
  }

  /** The neighbours of boid i among boids 0 .. k-1, in index order: the
      boids the inner loop of phase 1 accumulates, in the order it does. */
  function Neighbors(sqrt: real -> real, pos: seq<Vec3>, i: int, k: int): (r: seq<int>)
    requires IsSqrt(sqrt) && 0 <= i < |pos| && 0 <= k <= |pos|
    ensures forall m :: 0 <= m < |r| ==> 0 <= r[m] < k
  {
    if k == 0 then []
    else if IsNeighbor(sqrt, pos, i, k - 1) then Neighbors(sqrt, pos, i, k - 1) + [k - 1]
    else Neighbors(sqrt, pos, i, k - 1)
  }

  /** The sum of vs[j] over the indices j in idx. */
  function SumAt(vs: seq<Vec3>, idx: seq<int>): Vec3
    requires forall m :: 0 <= m < |idx| ==> 0 <= idx[m] < |vs|
  {
    if idx == [] then Zero else Add(SumAt(vs, idx[..|idx| - 1]), vs[idx[|idx| - 1]])
  }

  /** The repulsion of boid i from boid j: their difference, divided by
      their distance (but never by less than MinSeparationDistance). */
  function SeparationTerm(sqrt: real -> real, pos: seq<Vec3>, i: int, j: int): Vec3
    requires IsSqrt(sqrt) && 0 <= i < |pos| && 0 <= j < |pos|
  {
    Repulsion(Sub(pos[i], pos[j]), Distance(sqrt, pos[i], pos[j]))
  }

  /** An offset divided by a distance, the distance kept at least
      MinSeparationDistance. */
  function Repulsion(offset: Vec3, dist: real): Vec3 {
    Div(offset, Max(dist, MinSeparationDistance))
  }

  function SumSeparation(sqrt: real -> real, pos: seq<Vec3>, i: int, idx: seq<int>): Vec3
    requires IsSqrt(sqrt) && 0 <= i < |pos|
    requires forall m :: 0 <= m < |idx| ==> 0 <= idx[m] < |pos|
  {
    if idx == [] then Zero
    else Add(SumSeparation(sqrt, pos, i, idx[..|idx| - 1]), SeparationTerm(sqrt, pos, i, idx[|idx| - 1]))
  }

  /** One step of the inner loop of phase 1: boid j joins the neighbours
      of boid i exactly when it is one, at the end. */
  lemma NeighborsStep(sqrt: real -> real, pos: seq<Vec3>, i: int, j: int)
    requires IsSqrt(sqrt) && 0 <= i < |pos| && 0 <= j < |pos|
    ensures Neighbors(sqrt, pos, i, j + 1) ==
      if IsNeighbor(sqrt, pos, i, j) then Neighbors(sqrt, pos, i, j) + [j] else Neighbors(sqrt, pos, i, j)
  {
  }

  lemma SumsStep(sqrt: real -> real, pos: seq<Vec3>, vel: seq<Vec3>, i: int, idx: seq<int>, j: int)
    requires IsSqrt(sqrt) && |vel| == |pos| && 0 <= i < |pos| && 0 <= j < |pos|
    requires forall m :: 0 <= m < |idx| ==> 0 <= idx[m] < |pos|
    ensures SumSeparation(sqrt, pos, i, idx + [j]) == Add(SumSeparation(sqrt, pos, i, idx), SeparationTerm(sqrt, pos, i, j))
    ensures SumAt(vel, idx + [j]) == Add(SumAt(vel, idx), vel[j])
    ensures SumAt(pos, idx + [j]) == Add(SumAt(pos, idx), pos[j])
  {
    assert (idx + [j])[..|idx|] == idx;
  }

  /** The scan finds exactly the neighbours: boid j is listed among the
      first k boids' neighbours of boid i iff it is one and j < k. */
  lemma {:induction false} NeighborsExact(sqrt: real -> real, pos: seq<Vec3>, i: int, k: int, j: int)
    requires IsSqrt(sqrt) && 0 <= i < |pos| && 0 <= k <= |pos|
    ensures j in Neighbors(sqrt, pos, i, k) <==> 0 <= j < k && IsNeighbor(sqrt, pos, i, j)
  {
    if k > 0 {
      NeighborsExact(sqrt, pos, i, k - 1, j);
    }
  }

  /** The neighbours are listed in increasing index order, each once. */
  lemma {:induction false} NeighborsIncreasing(sqrt: real -> real, pos: seq<Vec3>, i: int, k: int)
    requires IsSqrt(sqrt) && 0 <= i < |pos| && 0 <= k <= |pos|
    ensures forall m, n :: 0 <= m < n < |Neighbors(sqrt, pos, i, k)| ==>
      Neighbors(sqrt, pos, i, k)[m] < Neighbors(sqrt, pos, i, k)[n]
  {
    if k > 0 {
      var prev := Neighbors(sqrt, pos, i, k - 1);
      NeighborsIncreasing(sqrt, pos, i, k - 1);
      if IsNeighbor(sqrt, pos, i, k - 1) {
        ExtendIncreasing(prev, k - 1);
      }
    }
  }

  /** Appending an index above every element keeps a list increasing. */
  lemma ExtendIncreasing(xs: seq<int>, x: int)
    requires forall m :: 0 <= m < |xs| ==> xs[m] < x
    requires forall m, n :: 0 <= m < n < |xs| ==> xs[m] < xs[n]
    ensures forall m, n :: 0 <= m < n < |xs + [x]| ==> (xs + [x])[m] < (xs + [x])[n]
  {
  }

  /** A boid is never its own neighbour. */
  lemma NotOwnNeighbor(sqrt: real -> real, pos: seq<Vec3>, i: int)
    requires IsSqrt(sqrt) && 0 <= i < |pos|
    ensures i !in Neighbors(sqrt, pos, i, |pos|)
  {
    NeighborsExact(sqrt, pos, i, |pos|, i);
  }

  /** Neighbourhood is symmetric. */
  lemma NeighborSymmetric(sqrt: real -> real, pos: seq<Vec3>, i: int, j: int)
    requires IsSqrt(sqrt) && 0 <= i < |pos| && 0 <= j < |pos|
    ensures j in Neighbors(sqrt, pos, i, |pos|) <==> i in Neighbors(sqrt, pos, j, |pos|)
  {
    NeighborsExact(sqrt, pos, i, |pos|, j);
    NeighborsExact(sqrt, pos, j, |pos|, i);
    DistanceSymmetric(sqrt, pos[i], pos[j]);
  }

  // ---------------------------------------------------------------------
  // Phase 1: the new velocity of one boid.

  datatype Rules = Rules(separation: Vec3, alignment: Vec3, cohesion: Vec3)

  /** Separation and alignment are the means of the neighbours' repulsions
      and velocities, cohesion points from the boid to its neighbours'
      centroid; all three are zero when the boid has no neighbour. */
  function FlockRules(sqrt: real -> real, pos: seq<Vec3>, vel: seq<Vec3>, i: int): Rules
    requires IsSqrt(sqrt) && |vel| == |pos| && 0 <= i < |pos|
  {
    var nb := Neighbors(sqrt, pos, i, |pos|);
    if |nb| > 0 then Means(sqrt, pos, vel, i, nb) else Rules(Zero, Zero, Zero)
  }

  /** The three rules averaged over a non-empty list of neighbours `nb`. */
  function Means(sqrt: real -> real, pos: seq<Vec3>, vel: seq<Vec3>, i: int, nb: seq<int>): Rules
    requires IsSqrt(sqrt) && |vel| == |pos| && 0 <= i < |pos|
    requires forall m :: 0 <= m < |nb| ==> 0 <= nb[m] < |pos|
    requires |nb| > 0
  {
    var count := |nb| as real;
    Rules(Div(SumSeparation(sqrt, pos, i, nb), count),
          Div(SumAt(vel, nb), count),
          Sub(Div(SumAt(pos, nb), count), pos[i]))
  }

  /** The boundary-avoidance force along one axis, for an offset from the
      centre: zero up to the threshold, then ramping linearly to full
      strength at the edge of the bounds, always pointing back to the centre. */
  function AvoidAxis(offset: real): (r: real)
    ensures Abs(offset) <= BoundaryThreshold ==> r == 0.0
    ensures offset > BoundaryThreshold ==> r < 0.0
    ensures offset < -BoundaryThreshold ==> r > 0.0
    ensures Abs(offset) <= BoundsSize ==> Abs(r) <= BoundaryStrength
    ensures Abs(offset) == BoundsSize ==> Abs(r) == BoundaryStrength
  {
    if Abs(offset) > BoundaryThreshold then
      -Sign(offset) * BoundaryStrength * (Abs(offset) - BoundaryThreshold) / (BoundsSize - BoundaryThreshold)
    else
      0.0
  }

  function BoundaryAvoidance(p: Vec3): Vec3 {
    Vec3(AvoidAxis(p.x), AvoidAxis(p.y), AvoidAxis(p.z))
  }

  function Acceleration(rules: Rules, avoidance: Vec3): Vec3 {
    Add(Add(Add(Scale(rules.separation, SeparationWeight), rules.alignment),
            Scale(rules.cohesion, CohesionWeight)),
        avoidance)
  }

  /** The new velocity of boid i before it is renormalised. */
  function Steered(sqrt: real -> real, pos: seq<Vec3>, vel: seq<Vec3>, i: int, dt: real): Vec3
    requires IsSqrt(sqrt) && |vel| == |pos| && 0 <= i < |pos|
  {
    Add(vel[i], Scale(Acceleration(FlockRules(sqrt, pos, vel, i), BoundaryAvoidance(pos[i])), dt))
  }

  /** math.normalize(v) * 5: a non-zero velocity turned to the cruise speed
      without changing its direction. */
  function Renormalize(sqrt: real -> real, v: Vec3): (r: Vec3)
    requires IsSqrt(sqrt) && v != Zero
    ensures SqNorm(r) == Sq(CruiseSpeed)
    ensures Scale(r, Length(sqrt, v)) == Scale(v, CruiseSpeed)
  {
    var n := Normalize(sqrt, v);
    SqNormScale(n, CruiseSpeed);
    ScaleCommutes(n, CruiseSpeed, Length(sqrt, v));
    Scale(n, CruiseSpeed)
  }

  /** The velocity phase 1 stores for boid i. */
  function NewVelocity(sqrt: real -> real, pos: seq<Vec3>, vel: seq<Vec3>, i: int, dt: real): Vec3
    requires IsSqrt(sqrt) && |vel| == |pos| && 0 <= i < |pos|
    requires Steered(sqrt, pos, vel, i, dt) != Zero
  {
    Renormalize(sqrt, Steered(sqrt, pos, vel, i, dt))
  }

  /** Renormalising a velocity that already has the cruise speed leaves it
      unchanged. */
  lemma RenormalizeCruising(sqrt: real -> real, v: Vec3)
    requires IsSqrt(sqrt) && SqNorm(v) == Sq(CruiseSpeed)
    ensures v != Zero && Renormalize(sqrt, v) == v
  {
    var len := Length(sqrt, v);
    SqMonotonic(len, CruiseSpeed);
    SqMonotonic(CruiseSpeed, len);
    assert len == CruiseSpeed;
  }

  /** A boid with no other boid within the radius has no neighbour. */
  lemma Secluded(sqrt: real -> real, pos: seq<Vec3>, i: int)
    requires IsSqrt(sqrt) && 0 <= i < |pos|
    requires forall j :: 0 <= j < |pos| && j != i ==> NeighborRadius <= Distance(sqrt, pos[i], pos[j])
    ensures Neighbors(sqrt, pos, i, |pos|) == []
  {
    var nb := Neighbors(sqrt, pos, i, |pos|);
    if nb != [] {
      var j := nb[0];
      NeighborsExact(sqrt, pos, i, |pos|, j);
      assert false;
    }
  }

  /** A boid without neighbours feels no flocking rule. */
  lemma NoNeighborsNoRules(sqrt: real -> real, pos: seq<Vec3>, vel: seq<Vec3>, i: int)
    requires IsSqrt(sqrt) && |vel| == |pos| && 0 <= i < |pos|
    requires Neighbors(sqrt, pos, i, |pos|) == []
    ensures FlockRules(sqrt, pos, vel, i) == Rules(Zero, Zero, Zero)
  {
  }

  /** A boid without neighbours is steered by boundary avoidance alone. */
  lemma IsolatedBoid(sqrt: real -> real, pos: seq<Vec3>, vel: seq<Vec3>, i: int, dt: real)
    requires IsSqrt(sqrt) && |vel| == |pos| && 0 <= i < |pos|
    requires Neighbors(sqrt, pos, i, |pos|) == []
    ensures Steered(sqrt, pos, vel, i, dt) == Add(vel[i], Scale(BoundaryAvoidance(pos[i]), dt))
  {
    NoNeighborsNoRules(sqrt, pos, vel, i);
    AccelerationWithoutRules(BoundaryAvoidance(pos[i]));
  }

  lemma AccelerationWithoutRules(avoidance: Vec3)
    ensures Acceleration(Rules(Zero, Zero, Zero), avoidance) == avoidance
  {
  }

  /** Inside the inner cube of half-side BoundaryThreshold there is no
      boundary avoidance. */
  lemma CalmZone(p: Vec3)
    requires Abs(p.x) <= BoundaryThreshold && Abs(p.y) <= BoundaryThreshold && Abs(p.z) <= BoundaryThreshold
    ensures BoundaryAvoidance(p) == Zero
  {
  }

  /** A boid with no neighbour and no boundary avoidance is not steered. */
  lemma Unsteered(sqrt: real -> real, pos: seq<Vec3>, vel: seq<Vec3>, i: int, dt: real)
    requires IsSqrt(sqrt) && |vel| == |pos| && 0 <= i < |pos|
    requires Neighbors(sqrt, pos, i, |pos|) == [] && BoundaryAvoidance(pos[i]) == Zero
    ensures Steered(sqrt, pos, vel, i, dt) == vel[i]
  {
    IsolatedBoid(sqrt, pos, vel, i, dt);
    AddScaledZero(vel[i], dt);
  }

  /** An isolated boid inside the calm inner cube, already at cruise speed,
      keeps its velocity. */
  lemma CalmCruise(sqrt: real -> real, pos: seq<Vec3>, vel: seq<Vec3>, i: int, dt: real)
    requires IsSqrt(sqrt) && |vel| == |pos| && 0 <= i < |pos|
    requires forall j :: 0 <= j < |pos| && j != i ==> NeighborRadius <= Distance(sqrt, pos[i], pos[j])
    requires Abs(pos[i].x) <= BoundaryThreshold && Abs(pos[i].y) <= BoundaryThreshold
    requires Abs(pos[i].z) <= BoundaryThreshold
    requires SqNorm(vel[i]) == Sq(CruiseSpeed)
    ensures Steered(sqrt, pos, vel, i, dt) == vel[i] && NewVelocity(sqrt, pos, vel, i, dt) == vel[i]
  {
    Secluded(sqrt, pos, i);
    CalmZone(pos[i]);
    Unsteered(sqrt, pos, vel, i, dt);
    RenormalizeCruising(sqrt, vel[i]);
  }

  /** The repulsion from an offset never points against that offset. */
  lemma RepulsionAway(offset: Vec3, dist: real)
    ensures 0.0 <= Dot(Repulsion(offset, dist), offset)
    ensures offset != Zero ==> 0.0 < Dot(Repulsion(offset, dist), offset)
  {
    var m := Max(dist, MinSeparationDistance);
    var k := 1.0 / m;
    assert 0.0 < k;
    assert Repulsion(offset, dist) == Scale(offset, k);
    DotScale(offset, offset, k);
    if offset != Zero {
      MulPositive(k, SqNorm(offset));
    } else {
      MulNonNegative(k, SqNorm(offset));
    }
  }

  /** FlockRules for a boid whose neighbour list is known. */
  lemma FlockRulesOf(sqrt: real -> real, pos: seq<Vec3>, vel: seq<Vec3>, i: int, nb: seq<int>)
    requires IsSqrt(sqrt) && |vel| == |pos| && 0 <= i < |pos|
    requires nb == Neighbors(sqrt, pos, i, |pos|) && |nb| > 0
    ensures FlockRules(sqrt, pos, vel, i) ==
      Rules(Div(SumSeparation(sqrt, pos, i, nb), |nb| as real),
            Div(SumAt(vel, nb), |nb| as real),
            Sub(Div(SumAt(pos, nb), |nb| as real), pos[i]))
  {
  }

  lemma SumsOfOne(sqrt: real -> real, pos: seq<Vec3>, vel: seq<Vec3>, i: int, j: int)
    requires IsSqrt(sqrt) && |vel| == |pos| && 0 <= i < |pos| && 0 <= j < |pos|
    ensures Div(SumSeparation(sqrt, pos, i, [j]), 1.0) == Repulsion(Sub(pos[i], pos[j]), Distance(sqrt, pos[i], pos[j]))
    ensures Div(SumAt(vel, [j]), 1.0) == vel[j]
    ensures Sub(Div(SumAt(pos, [j]), 1.0), pos[i]) == Sub(pos[j], pos[i])
  {
  }

  /** With a single neighbour j, separation is the repulsion from j,
      alignment is j's velocity and cohesion points from the boid to j. */
  lemma SoleNeighbor(sqrt: real -> real, pos: seq<Vec3>, vel: seq<Vec3>, i: int, j: int)
    requires IsSqrt(sqrt) && |vel| == |pos| && 0 <= i < |pos| && 0 <= j < |pos|
    requires Neighbors(sqrt, pos, i, |pos|) == [j]
    ensures FlockRules(sqrt, pos, vel, i).separation ==
      Repulsion(Sub(pos[i], pos[j]), Distance(sqrt, pos[i], pos[j]))
    ensures FlockRules(sqrt, pos, vel, i).alignment == vel[j]
    ensures FlockRules(sqrt, pos, vel, i).cohesion == Sub(pos[j], pos[i])
  {
    FlockRulesOf(sqrt, pos, vel, i, [j]);
    SumsOfOne(sqrt, pos, vel, i, j);
  }

  /** With a single neighbour j, separation points away from j. */
  lemma SoleNeighborRepels(sqrt: real -> real, pos: seq<Vec3>, vel: seq<Vec3>, i: int, j: int)
    requires IsSqrt(sqrt) && |vel| == |pos| && 0 <= i < |pos| && 0 <= j < |pos|
    requires Neighbors(sqrt, pos, i, |pos|) == [j]
    ensures 0.0 <= Dot(FlockRules(sqrt, pos, vel, i).separation, Sub(pos[i], pos[j]))
    ensures pos[i] != pos[j] ==> 0.0 < Dot(FlockRules(sqrt, pos, vel, i).separation, Sub(pos[i], pos[j]))
  {
    var offset := Sub(pos[i], pos[j]);
    SoleNeighbor(sqrt, pos, vel, i, j);
    RepulsionAway(offset, Distance(sqrt, pos[i], pos[j]));
    SubZero(pos[i], pos[j]);
  }

  /** The sum over neighbours that all share one value is that value times
      their number. */
  lemma {:induction false} SumAtUniform(vs: seq<Vec3>, idx: seq<int>, u: Vec3)
    requires forall m :: 0 <= m < |idx| ==> 0 <= idx[m] < |vs| && vs[idx[m]] == u
    ensures SumAt(vs, idx) == Scale(u, |idx| as real)
  {
    if idx != [] {
      SumAtUniform(vs, idx[..|idx| - 1], u);
      ScaleSucc(u, (|idx| - 1) as real);
    }
  }

  /** Neighbours all flying with one velocity u align the boid with u. */
  lemma AlignWithUnison(sqrt: real -> real, pos: seq<Vec3>, vel: seq<Vec3>, i: int, u: Vec3)
    requires IsSqrt(sqrt) && |vel| == |pos| && 0 <= i < |pos|
    requires |Neighbors(sqrt, pos, i, |pos|)| > 0
    requires forall j :: 0 <= j < |pos| && IsNeighbor(sqrt, pos, i, j) ==> vel[j] == u
    ensures FlockRules(sqrt, pos, vel, i).alignment == u
  {
    var nb := Neighbors(sqrt, pos, i, |pos|);
    forall m | 0 <= m < |nb|
      ensures vel[nb[m]] == u
    {
      NeighborsExact(sqrt, pos, i, |pos|, nb[m]);
    }
    SumAtUniform(vel, nb, u);
    ScaleThenDiv(u, |nb| as real);
  }

  /** Every boid's steered velocity is non-zero, so that it can be
      renormalised (the source does not guard math.normalize). */
  ghost predicate Normalizable(sqrt: real -> real, pos: seq<Vec3>, vel: seq<Vec3>, dt: real)
    requires IsSqrt(sqrt) && |vel| == |pos|
  {
    forall i :: 0 <= i < |pos| ==> Steered(sqrt, pos, vel, i, dt) != Zero
  }

  // ---------------------------------------------------------------------
  // Phase 2: moving one boid.

  /** The hard boundary on one axis, as a relation between the coordinate
      after moving, the old velocity component, and the final coordinate and
      velocity component: inside the bounds nothing changes; beyond a face the
      coordinate is put on that face and the velocity component reversed. */
  predicate AxisBounced(moved: real, v: real, p: real, w: real) {
    && (Abs(moved) <= BoundsSize ==> p == moved && w == v)
    && (moved > BoundsSize ==> p == BoundsSize && w == -v)
    && (moved < -BoundsSize ==> p == -BoundsSize && w == -v)
  }

  /** One axis of phase 2: reverse and clamp when out of bounds. */
  function ReflectAxis(moved: real, v: real): (r: (real, real))
    ensures AxisBounced(moved, v, r.0, r.1)
    ensures -BoundsSize <= r.0 <= BoundsSize
    ensures Sq(r.1) == Sq(v)
  {
    SqNeg(v);
    if Abs(moved) > BoundsSize then (Clamp(moved, -BoundsSize, BoundsSize), v * -1.0) else (moved, v)
  }

  datatype Moved = Moved(transform: Transform, velocity: Vec3)

  /** A boid at `position` moving with its phase-1 velocity `v` for `dt`:
      each axis is bounced independently, so the boid ends inside the bounds,
      at the same speed, facing along its final velocity (`look` stands for
      quaternion.LookRotationSafe with up (0, 1, 0)). A boid that stays inside
      simply moves on. */
  function MoveBoid(look: Vec3 -> Quat, position: Vec3, v: Vec3, dt: real): (m: Moved)
    ensures var p := Add(position, Scale(v, dt));
      && AxisBounced(p.x, v.x, m.transform.position.x, m.velocity.x)
      && AxisBounced(p.y, v.y, m.transform.position.y, m.velocity.y)
      && AxisBounced(p.z, v.z, m.transform.position.z, m.velocity.z)
    ensures InBounds(m.transform.position)
    ensures SqNorm(m.velocity) == SqNorm(v)
    ensures m.transform.rotation == look(m.velocity)
    ensures InBounds(Add(position, Scale(v, dt))) ==>
      m == Moved(Transform(Add(position, Scale(v, dt)), look(v)), v)
  {
    var p := Add(position, Scale(v, dt));
    var (px, vx) := ReflectAxis(p.x, v.x);
    var (py, vy) := ReflectAxis(p.y, v.y);
    var (pz, vz) := ReflectAxis(p.z, v.z);
    Moved(Transform(Vec3(px, py, pz), look(Vec3(vx, vy, vz))), Vec3(vx, vy, vz))
  }

  /** A boid 0.1 short of the +x face, flying straight at it at cruise speed
      for one second, lands on the face and turns back. */
  lemma BounceOffFace(look: Vec3 -> Quat)
    ensures MoveBoid(look, Vec3(39.9, 0.0, 0.0), Vec3(5.0, 0.0, 0.0), 1.0)
         == Moved(Transform(Vec3(40.0, 0.0, 0.0), look(Vec3(-5.0, 0.0, 0.0))), Vec3(-5.0, 0.0, 0.0))
  {
  }

  function Positions(ts: seq<Transform>): seq<Vec3> {
    seq(|ts|, i requires 0 <= i < |ts| => ts[i].position)
  }

  /** The velocities phase 1 stores, one per boid. */
  function NewVelocities(sqrt: real -> real, pos: seq<Vec3>, vel: seq<Vec3>, dt: real): (r: seq<Vec3>)
    requires IsSqrt(sqrt) && |vel| == |pos| && Normalizable(sqrt, pos, vel, dt)
    ensures |r| == |pos|
    ensures forall i :: 0 <= i < |pos| ==> SqNorm(r[i]) == Sq(CruiseSpeed)
  {
    seq(|pos|, i requires 0 <= i < |pos| => NewVelocity(sqrt, pos, vel, i, dt))
  }

  /** Phase 2 on a whole flock: boid i moves with velocity vs[i]. The flock
      keeps its size and order; every boid ends inside the bounds. */
  function Moves(look: Vec3 -> Quat, ts: seq<Transform>, vs: seq<Vec3>, dt: real): (r: seq<Moved>)
    requires |vs| == |ts|
    ensures |r| == |ts|
    ensures forall i :: 0 <= i < |r| ==> InBounds(r[i].transform.position)
    ensures forall i :: 0 <= i < |r| ==> SqNorm(r[i].velocity) == SqNorm(vs[i])
  {
    seq(|ts|, i requires 0 <= i < |ts| => MoveBoid(look, ts[i].position, vs[i], dt))
  }

  /** One whole tick on a snapshot of the flock: the new velocities are
      computed from the snapshot alone, then every boid is moved with its
      own. Every boid ends inside the bounds and at the cruise speed. */
  function Tick(sqrt: real -> real, look: Vec3 -> Quat, ts: seq<Transform>, vs: seq<Vec3>, dt: real): (r: seq<Moved>)
    requires IsSqrt(sqrt) && |vs| == |ts|
    requires Normalizable(sqrt, Positions(ts), vs, dt)
    ensures |r| == |ts|
    ensures forall i :: 0 <= i < |r| ==> InBounds(r[i].transform.position)
    ensures forall i :: 0 <= i < |r| ==> SqNorm(r[i].velocity) == Sq(CruiseSpeed)
  {
    Moves(look, ts, NewVelocities(sqrt, Positions(ts), vs, dt), dt)
  }

  function TransformsOf(ms: seq<Moved>): (r: seq<Transform>)
    ensures |r| == |ms|
  {
    seq(|ms|, i requires 0 <= i < |ms| => ms[i].transform)
  }

  function VelocitiesOf(ms: seq<Moved>): (r: seq<Vec3>)
    ensures |r| == |ms|
  {
    seq(|ms|, i requires 0 <= i < |ms| => ms[i].velocity)
  }

  // ---------------------------------------------------------------------
  // The system.

  /** The inner loop of phase 1 for boid i: scan every other boid and sum
      the repulsions, velocities and positions of those within the radius. */
  method AccumulateNeighbors(sqrt: real -> real, positions: seq<Vec3>, velocities: seq<Vec3>, i: int)
    returns (separation: Vec3, alignment: Vec3, cohesion: Vec3, neighborCount: int)
    requires IsSqrt(sqrt) && |velocities| == |positions| && 0 <= i < |positions|
    ensures neighborCount == |Neighbors(sqrt, positions, i, |positions|)|
    ensures separation == SumSeparation(sqrt, positions, i, Neighbors(sqrt, positions, i, |positions|))
    ensures alignment == SumAt(velocities, Neighbors(sqrt, positions, i, |positions|))
    ensures cohesion == SumAt(positions, Neighbors(sqrt, positions, i, |positions|))
  {
    var currentPos := positions[i];
    separation, alignment, cohesion := Zero, Zero, Zero;
    neighborCount := 0;
    ghost var nb: seq<int> := [];
    for j := 0 to |positions|
      invariant nb == Neighbors(sqrt, positions, i, j)
      invariant forall m :: 0 <= m < |nb| ==> 0 <= nb[m] < j
      invariant neighborCount == |nb|
      invariant separation == SumSeparation(sqrt, positions, i, nb)
      invariant alignment == SumAt(velocities, nb)
      invariant cohesion == SumAt(positions, nb)
    {
      NeighborsStep(sqrt, positions, i, j);
      if i == j {
        continue;
      }
      var otherPos := positions[j];
      var otherVel := velocities[j];
      var dist := Distance(sqrt, currentPos, otherPos);
      if dist < NeighborRadius {
        SumsStep(sqrt, positions, velocities, i, nb, j);
        separation := Add(separation, Repulsion(Sub(currentPos, otherPos), dist));
        alignment := Add(alignment, otherVel);
        cohesion := Add(cohesion, otherPos);
        neighborCount := neighborCount + 1;
        nb := nb + [j];
      }
    }
  }

  /** The body of phase 1 for boid i: accumulate the three rules over the
      neighbours, average them, add boundary avoidance, integrate and
      renormalise. */
  method SteerBoid(sqrt: real -> real, positions: seq<Vec3>, velocities: seq<Vec3>, i: int, deltaTime: real)
    returns (newVel: Vec3)
    requires IsSqrt(sqrt) && |velocities| == |positions| && 0 <= i < |positions|
    requires Steered(sqrt, positions, velocities, i, deltaTime) != Zero
    ensures newVel == NewVelocity(sqrt, positions, velocities, i, deltaTime)
  {
    var currentPos := positions[i];
    var currentVel := velocities[i];
    var separation, alignment, cohesion, neighborCount := AccumulateNeighbors(sqrt, positions, velocities, i);
    if neighborCount > 0 {
      separation := Div(separation, neighborCount as real);
      alignment := Div(alignment, neighborCount as real);
      cohesion := Sub(Div(cohesion, neighborCount as real), currentPos);
    }
    var boundaryAvoidance := BoundaryAvoidance(currentPos);
    var accel := Acceleration(Rules(separation, alignment, cohesion), boundaryAvoidance);
    var steered := Add(currentVel, Scale(accel, deltaTime));
    newVel := Renormalize(sqrt, steered);
  }

  /** The body of phase 2 for one boid: move it, and on each axis where it
      has left the bounds reverse that velocity component and clamp the
      coordinate; then face along the final velocity. */
  method Bounce(look: Vec3 -> Quat, start: Vec3, newVelocity: Vec3, deltaTime: real)
    returns (transform: Transform, vel: Vec3)
    ensures Moved(transform, vel) == MoveBoid(look, start, newVelocity, deltaTime)
  {
    vel := newVelocity;
    var position := Add(start, Scale(vel, deltaTime));
    if Abs(position.x) > BoundsSize {
      vel := vel.(x := vel.x * -1.0);
      position := position.(x := Clamp(position.x, -BoundsSize, BoundsSize));
    }
    if Abs(position.y) > BoundsSize {
      vel := vel.(y := vel.y * -1.0);
      position := position.(y := Clamp(position.y, -BoundsSize, BoundsSize));
    }
    if Abs(position.z) > BoundsSize {
      vel := vel.(z := vel.z * -1.0);
      position := position.(z := Clamp(position.z, -BoundsSize, BoundsSize));
    }
    transform := Transform(position, look(vel));
  }

  /** Writing the i-th element of a sequence whose first i elements already
      agree with `target` extends the agreement by one. */
  lemma PrefixStep<T>(before: seq<T>, i: int, v: T, target: seq<T>)
    requires 0 <= i < |before| == |target| && before[..i] == target[..i] && v == target[i]
    ensures before[i := v][..i + 1] == target[..i + 1]
  {
    assert forall k :: 0 <= k < i ==> before[k] == target[k] by {
      forall k | 0 <= k < i
        ensures before[k] == target[k]
      {
        assert before[..i][k] == target[..i][k];
      }
    }
  }

  /** Phase 1: the new velocity of every boid, from the snapshot only. */
  method SteerAll(sqrt: real -> real, positions: seq<Vec3>, velocities: seq<Vec3>, deltaTime: real)
    returns (newVelocities: array<Vec3>)
    requires IsSqrt(sqrt) && |velocities| == |positions|
    requires Normalizable(sqrt, positions, velocities, deltaTime)
    ensures fresh(newVelocities)
    ensures newVelocities[..] == NewVelocities(sqrt, positions, velocities, deltaTime)
  {
    ghost var target := NewVelocities(sqrt, positions, velocities, deltaTime);
    newVelocities := new Vec3[|positions|];
    for i := 0 to |positions|
      invariant newVelocities[..i] == target[..i]
    {
      ghost var before := newVelocities[..];
      var newVel := SteerBoid(sqrt, positions, velocities, i, deltaTime);
      newVelocities[i] := newVel;
      PrefixStep(before, i, newVel, target);
      assert newVelocities[..] == before[i := newVel];
    }
    assert newVelocities[..] == newVelocities[..|positions|];
  }

  /** Phase 2: move every boid with its new velocity and write it back. */
  method MoveAll(look: Vec3 -> Quat, transforms: array<Transform>, velocities: array<Vec3>,
                 newVelocities: seq<Vec3>, deltaTime: real)
    requires transforms.Length == velocities.Length == |newVelocities|
    modifies transforms, velocities
    ensures transforms[..] == TransformsOf(Moves(look, old(transforms[..]), newVelocities, deltaTime))
    ensures velocities[..] == VelocitiesOf(Moves(look, old(transforms[..]), newVelocities, deltaTime))
  {
    var n := transforms.Length;
    var boidTransforms := transforms[..];
    ghost var after := Moves(look, boidTransforms, newVelocities, deltaTime);
    ghost var afterTransforms, afterVelocities := TransformsOf(after), VelocitiesOf(after);
    for i := 0 to n
      invariant transforms[..i] == afterTransforms[..i]
      invariant velocities[..i] == afterVelocities[..i]
      invariant transforms[i..] == boidTransforms[i..]
    {
      assert transforms[i] == transforms[i..][0];
      ghost var (beforeTransforms, beforeVelocities) := (transforms[..], velocities[..]);
      var transform, vel := Bounce(look, transforms[i].position, newVelocities[i], deltaTime);
      transforms[i] := transform;
      velocities[i] := vel;
      PrefixStep(beforeTransforms, i, transform, afterTransforms);
      PrefixStep(beforeVelocities, i, vel, afterVelocities);
      assert transforms[..] == beforeTransforms[i := transform];
      assert velocities[..] == beforeVelocities[i := vel];
    }
    assert transforms[..] == transforms[..n];
    assert velocities[..] == velocities[..n];
  }

  /** BoidMovementSystem.OnUpdate over the flock's component arrays: the
      transforms and velocities of all boids, index-aligned. `sqrt` and
      `look` stand for the square root and quaternion.LookRotationSafe.
      The arrays end up holding exactly one Tick of their old contents. */
  method OnUpdate(sqrt: real -> real, look: Vec3 -> Quat,
                  transforms: array<Transform>, velocities: array<Vec3>, deltaTime: real)
    requires IsSqrt(sqrt) && transforms.Length == velocities.Length
    requires Normalizable(sqrt, Positions(transforms[..]), velocities[..], deltaTime)
    modifies transforms, velocities
    ensures transforms[..] == TransformsOf(Tick(sqrt, look, old(transforms[..]), old(velocities[..]), deltaTime))
    ensures velocities[..] == VelocitiesOf(Tick(sqrt, look, old(transforms[..]), old(velocities[..]), deltaTime))
  {
    var boidTransforms := transforms[..];
    var boidVelocities := velocities[..];
    var newVelocities := SteerAll(sqrt, Positions(boidTransforms), boidVelocities, deltaTime);
    MoveAll(look, transforms, velocities, newVelocities[..], deltaTime);
  }
}
