/** BoidSpawnerSystem.OnUpdate: every BoidSpawner entity queues, in an entity
    command buffer, the creation of `count` boids from its prefab, placed in
    groups of ten around random group centres and facing a random yaw per
    group, and then its own destruction; the buffer is played back once at
    the end of the update.

    UnityEngine.Random is replaced by the `Samples` it would have produced,
    indexed by spawner, group and boid, and quaternion.AxisAngle(math.up(),
    math.radians(angle)) by an injected function `yaw` of the angle in
    degrees. */
module BoidSpawning {
  import opened Vectors

  /** How many boids one group holds. */
  const GroupSize: int := 10
  /** Group centres are drawn from the ball of this radius. */
  const GroupRadius: real := 20.0
  /** Boids are drawn from the ball of this radius around their group centre. */
  const GroupSpread: real := 2.0

  /** An entity handle. */
  type Entity = nat

  /** The BoidSpawner component together with the entity that carries it. */
  datatype BoidSpawner = BoidSpawner(entity: Entity, prefab: Entity, count: int)

  datatype Option<T> = None | Some(value: T)

  /** A boid entity created from `prefab`; its LocalTransform once set. */
  datatype Instance = Instance(prefab: Entity, transform: Option<Transform>)

  /** The part of the ECS world the system reads and writes: the live
      spawner entities, in query order, and the boid entities. */
  datatype World = World(spawners: seq<BoidSpawner>, boids: seq<Instance>)

  /** A deferred command. An instance created by the buffer is named by a
      placeholder: the number of Instantiate commands queued before it. */
  datatype Command =
    | Instantiate(prefab: Entity)
    | SetTransform(instance: nat, transform: Transform)
    | DestroyEntity(entity: Entity)

  /** The random draws of one update: for group g of spawner s, the
      insideUnitSphere draw of its centre, center(s, g), and the
      Range(0, 360) draw of its angle, angle(s, g); for boid i of that
      group, the insideUnitSphere draw of its offset, offset(s, g, i). */
  datatype Samples = Samples(center: (nat, nat) -> Vec3, angle: (nat, nat) -> real,
                             offset: (nat, nat, nat) -> Vec3)

  /** Every drawn point lies in the unit ball, as insideUnitSphere promises. */
  ghost predicate InUnitBall(samples: Samples) {
    && (forall s: nat, g: nat :: SqNorm(samples.center(s, g)) <= 1.0)
    && (forall s: nat, g: nat, i: nat :: SqNorm(samples.offset(s, g, i)) <= 1.0)
  }

  // ---------------------------------------------------------------------
  // Groups.

  /** (int)math.ceil(total / 10f): the number of groups, computed exactly. */
  function NumGroups(total: int): (r: int)
    ensures (r - 1) * GroupSize < total <= r * GroupSize
  {
    if total >= 0 then (total + 9) / 10 else -((-total) / 10)
  }

  /** The integer NumGroups is the real ceiling of total / 10. */
  lemma NumGroupsIsCeiling(total: int)
    ensures (NumGroups(total) - 1) as real < total as real / 10.0 <= NumGroups(total) as real
  {
    var r := NumGroups(total);
    assert (r - 1) * 10 < total <= r * 10;
    assert ((r - 1) * 10) as real == (r - 1) as real * 10.0;
    assert (r * 10) as real == r as real * 10.0;
  }

  /** The number of boids a spawner creates: its count, or none when the
      count is not positive. */
  function ToSpawn(count: int): nat {
    if count > 0 then count else 0
  }

  /** The group boid n of a spawner belongs to. */
  function GroupOf(n: int): int {
    n / GroupSize
  }

  /** The slot of boid n within its group. */
  function SlotOf(n: int): int {
    n % GroupSize
  }

  /** The number of boids in group g of a spawner asked for `total`. */
  function GroupLength(total: int, g: int): int {
    if total - g * GroupSize < GroupSize then total - g * GroupSize else GroupSize
  }

  /** The groups split the boids: boid n (n < total) is slot n % 10 of
      group n / 10, which is one of the NumGroups groups; every group holds
      between one and ten boids, and all but the last hold exactly ten. */
  lemma Groups(total: int)
    ensures forall n :: 0 <= n < ToSpawn(total) ==> 0 <= GroupOf(n) < NumGroups(total)
    ensures forall g :: 0 <= g < NumGroups(total) ==> 1 <= GroupLength(total, g) <= GroupSize
    ensures forall g :: 0 <= g < NumGroups(total) - 1 ==> GroupLength(total, g) == GroupSize
    ensures total > 0 ==> GroupLength(total, NumGroups(total) - 1) == total - GroupSize * (NumGroups(total) - 1)
  {
    var r := NumGroups(total);
    forall n | 0 <= n < ToSpawn(total)
      ensures 0 <= GroupOf(n) < r
    {
      assert n / 10 * 10 <= n;
    }
    forall g | 0 <= g < r
      ensures 1 <= GroupLength(total, g) <= GroupSize
    {
      assert g * 10 <= (r - 1) * 10;
    }
    forall g | 0 <= g < r - 1
      ensures GroupLength(total, g) == GroupSize
    {
      assert g * 10 <= (r - 2) * 10;
    }
  }

  /** Group g adds exactly its GroupLength boids to those the groups before
      it queued. */
  lemma GroupQueues(total: int, g: nat)
    requires g < NumGroups(total)
    ensures Done(total, g + 1) - Done(total, g) == GroupLength(total, g)
  {
    DoneBeforeGroup(total, g);
  }

  /** Boid n belongs to group g exactly when it is one of the GroupLength(total, g)
      boids from g * 10 on. */
  lemma GroupMember(total: int, g: int, n: int)
    requires 0 <= g < NumGroups(total) && 0 <= n
    ensures n < ToSpawn(total) && GroupOf(n) == g <==> g * GroupSize <= n < g * GroupSize + GroupLength(total, g)
  {
    DivBetween(n, g);
  }

  lemma DivBetween(n: int, g: int)
    requires 0 <= n && 0 <= g
    ensures GroupOf(n) == g <==> g * 10 <= n < g * 10 + 10
  {
  }

  /** 95 boids make nine groups of ten and a last group of five. */
  lemma NinetyFive()
    ensures NumGroups(95) == 10
    ensures forall g :: 0 <= g < 9 ==> GroupLength(95, g) == 10
    ensures GroupLength(95, 9) == 5
  {
  }

  // ---------------------------------------------------------------------
  // The commands one update queues.

  /** The centre of group g of spawner s: a point of the ball of radius 20. */
  function GroupCenter(samples: Samples, s: nat, g: nat): Vec3 {
    Scale(samples.center(s, g), GroupRadius)
  }

  /** The offset of boid i from its group centre: a point of the ball of
      radius 2. */
  function LocalOffset(samples: Samples, s: nat, g: nat, i: nat): Vec3 {
    Scale(samples.offset(s, g, i), GroupSpread)
  }

  /** The rotation shared by the boids of group g of spawner s: a turn
      about the vertical axis by the group's random angle. */
  function GroupRotation(samples: Samples, yaw: real -> Quat, s: nat, g: nat): Quat {
    yaw(samples.angle(s, g))
  }

  /** Where boid i of group g of spawner s is put: its group centre plus its
      offset, facing the group's yaw. */
  function Placement(samples: Samples, yaw: real -> Quat, s: nat, g: nat, i: nat): Transform {
    Transform(Add(GroupCenter(samples, s, g), LocalOffset(samples, s, g, i)), GroupRotation(samples, yaw, s, g))
  }

  /** A placed boid is within 2 of its group centre and within 22 of the
      origin. */
  lemma PlacementNearCenter(samples: Samples, yaw: real -> Quat, s: nat, g: nat, i: nat)
    requires InUnitBall(samples)
    ensures SqDist(Placement(samples, yaw, s, g, i).position, GroupCenter(samples, s, g))
      <= Sq(GroupSpread)
    ensures SqNorm(Placement(samples, yaw, s, g, i).position) <= Sq(GroupRadius + GroupSpread)
  {
    var c, o := samples.center(s, g), samples.offset(s, g, i);
    WithinSpread(c, o);
    WithinReach(c, o);
  }

  /** A point of the ball of radius 2 around a centre is within 2 of it. */
  lemma WithinSpread(c: Vec3, o: Vec3)
    requires SqNorm(o) <= 1.0
    ensures SqDist(Add(Scale(c, GroupRadius), Scale(o, GroupSpread)), Scale(c, GroupRadius)) <= Sq(GroupSpread)
  {
    var a, b := Scale(c, GroupRadius), Scale(o, GroupSpread);
    assert Sub(Add(a, b), a) == b;
    SqNormScale(o, GroupSpread);
    assert Sq(GroupSpread) == 4.0;
  }

  /** A centre in the ball of radius 20 plus an offset in the ball of
      radius 2 lies in the ball of radius 22. */
  lemma WithinReach(c: Vec3, o: Vec3)
    requires SqNorm(c) <= 1.0 && SqNorm(o) <= 1.0
    ensures SqNorm(Add(Scale(c, GroupRadius), Scale(o, GroupSpread))) <= Sq(GroupRadius + GroupSpread)
  {
    var a, b := Scale(c, GroupRadius), Scale(o, GroupSpread);
    SqNormScale(o, GroupSpread);
    SqNormScale(c, GroupRadius);
    assert Sq(GroupSpread) == 4.0 && Sq(GroupRadius) == 400.0;
    SqNormAdd(a, b);
    DotScale(c, b, GroupRadius);
    DotCommutes(c, b);
    DotScale(o, c, GroupSpread);
    DotBound(o, c);
    assert Dot(a, b) == 40.0 * Dot(o, c);
    assert Sq(GroupRadius + GroupSpread) == 484.0;
  }

  /** The commands for the first n boids of spawner s (index s in query
      order), whose first instance gets placeholder `first`: command 2k
      instantiates boid k and command 2k + 1 places it. */
  function Spawns(sp: BoidSpawner, s: nat, first: nat, n: nat, samples: Samples, yaw: real -> Quat)
    : (r: seq<Command>)
    ensures |r| == 2 * n
  {
    seq(2 * n, j requires 0 <= j < 2 * n =>
      if j % 2 == 0 then Instantiate(sp.prefab)
      else SetTransform(first + j / 2, Placement(samples, yaw, s, GroupOf(j / 2), SlotOf(j / 2))))
  }

  /** Queuing boid n appends its Instantiate and its SetTransform. */
  lemma SpawnsSnoc(sp: BoidSpawner, s: nat, first: nat, n: nat, samples: Samples, yaw: real -> Quat)
    ensures Spawns(sp, s, first, n + 1, samples, yaw) == Spawns(sp, s, first, n, samples, yaw)
      + [Instantiate(sp.prefab), SetTransform(first + n, Placement(samples, yaw, s, GroupOf(n), SlotOf(n)))]
  {
    var a := Spawns(sp, s, first, n + 1, samples, yaw);
    var b := Spawns(sp, s, first, n, samples, yaw)
      + [Instantiate(sp.prefab), SetTransform(first + n, Placement(samples, yaw, s, GroupOf(n), SlotOf(n)))];
    forall j | 0 <= j < |a|
      ensures a[j] == b[j]
    {
      if j == 2 * n + 1 {
        assert j / 2 == n && j % 2 == 1;
      }
    }
  }

  /** All commands of spawner s: its boids, then its own destruction. */
  function SpawnerCommands(sp: BoidSpawner, s: nat, first: nat, samples: Samples, yaw: real -> Quat)
    : seq<Command>
  {
    Spawns(sp, s, first, ToSpawn(sp.count), samples, yaw) + [DestroyEntity(sp.entity)]
  }

  /** The number of boids the first m spawners create. */
  function Queued(spawners: seq<BoidSpawner>, m: nat): nat
    requires m <= |spawners|
  {
    if m == 0 then 0 else Queued(spawners, m - 1) + ToSpawn(spawners[m - 1].count)
  }

  /** The buffer after the first m spawners have queued their commands. */
  function Buffer(spawners: seq<BoidSpawner>, m: nat, samples: Samples, yaw: real -> Quat): seq<Command>
    requires m <= |spawners|
  {
    if m == 0 then []
    else
      var s := m - 1;
      Buffer(spawners, s, samples, yaw) + SpawnerCommands(spawners[s], s, Queued(spawners, s), samples, yaw)
  }

  /** All boids of one group share the group's rotation. */
  lemma GroupShareRotation(sp: BoidSpawner, s: nat, first: nat, n: nat, samples: Samples,
                           yaw: real -> Quat, k1: nat, k2: nat)
    requires k1 < n && k2 < n && GroupOf(k1) == GroupOf(k2)
    ensures var c1, c2 := Spawns(sp, s, first, n, samples, yaw)[2 * k1 + 1], Spawns(sp, s, first, n, samples, yaw)[2 * k2 + 1];
      && c1.SetTransform? && c2.SetTransform?
      && c1.transform.rotation == c2.transform.rotation == yaw(samples.angle(s, GroupOf(k1)))
  {
  }

  /** The number of Instantiate commands in a buffer. */
  function Instantiations(cmds: seq<Command>): nat {
    if cmds == [] then 0
    else Instantiations(cmds[..|cmds| - 1]) + (if cmds[|cmds| - 1].Instantiate? then 1 else 0)
  }

  /** The entities a buffer destroys, in order. */
  function Destroyed(cmds: seq<Command>): seq<Entity> {
    if cmds == [] then []
    else Destroyed(cmds[..|cmds| - 1]) + (if cmds[|cmds| - 1].DestroyEntity? then [cmds[|cmds| - 1].entity] else [])
  }

  lemma {:induction false} CountsAppend(a: seq<Command>, b: seq<Command>)
    ensures Instantiations(a + b) == Instantiations(a) + Instantiations(b)
    ensures Destroyed(a + b) == Destroyed(a) + Destroyed(b)
  {
    if b != [] {
      assert (a + b)[..|a + b| - 1] == a + b[..|b| - 1];
      CountsAppend(a, b[..|b| - 1]);
    } else {
      assert a + b == a;
    }
  }

  lemma OneCommand(c: Command)
    ensures Instantiations([c]) == if c.Instantiate? then 1 else 0
    ensures Destroyed([c]) == if c.DestroyEntity? then [c.entity] else []
  {
    assert [c][..0] == [];
  }

  /** n boids take n Instantiate commands and destroy nothing. */
  lemma {:induction false} SpawnsCounts(sp: BoidSpawner, s: nat, first: nat, n: nat, samples: Samples,
                                        yaw: real -> Quat)
    ensures Instantiations(Spawns(sp, s, first, n, samples, yaw)) == n
    ensures Destroyed(Spawns(sp, s, first, n, samples, yaw)) == []
  {
    if n == 0 {
      assert Spawns(sp, s, first, n, samples, yaw) == [];
    } else {
      var prev := Spawns(sp, s, first, n - 1, samples, yaw);
      var c1 := Instantiate(sp.prefab);
      var c2 := SetTransform(first + (n - 1), Placement(samples, yaw, s, GroupOf(n - 1), SlotOf(n - 1)));
      SpawnsSnoc(sp, s, first, n - 1, samples, yaw);
      assert Spawns(sp, s, first, n, samples, yaw) == prev + [c1] + [c2];
      SpawnsCounts(sp, s, first, n - 1, samples, yaw);
      OneCommand(c1);
      OneCommand(c2);
      CountsAppend(prev, [c1]);
      CountsAppend(prev + [c1], [c2]);
    }
  }

  /** The commands of one spawner instantiate max(count, 0) boids and
      destroy the spawner, once, after all of them. */
  lemma SpawnerCounts(sp: BoidSpawner, s: nat, first: nat, samples: Samples, yaw: real -> Quat)
    ensures Instantiations(SpawnerCommands(sp, s, first, samples, yaw)) == ToSpawn(sp.count)
    ensures Destroyed(SpawnerCommands(sp, s, first, samples, yaw)) == [sp.entity]
    ensures var cmds := SpawnerCommands(sp, s, first, samples, yaw);
      cmds[|cmds| - 1] == DestroyEntity(sp.entity)
  {
    var spawns := Spawns(sp, s, first, ToSpawn(sp.count), samples, yaw);
    SpawnsCounts(sp, s, first, ToSpawn(sp.count), samples, yaw);
    OneCommand(DestroyEntity(sp.entity));
    CountsAppend(spawns, [DestroyEntity(sp.entity)]);
  }

  /** The buffer of the first m spawners instantiates exactly the queued
      number of boids. */
  lemma {:induction false} BufferInstantiations(spawners: seq<BoidSpawner>, m: nat, samples: Samples,
                                                yaw: real -> Quat)
    requires m <= |spawners|
    ensures Instantiations(Buffer(spawners, m, samples, yaw)) == Queued(spawners, m)
  {
    if m > 0 {
      var s := m - 1;
      var prev := Buffer(spawners, s, samples, yaw);
      var last := SpawnerCommands(spawners[s], s, Queued(spawners, s), samples, yaw);
      assert Buffer(spawners, m, samples, yaw) == prev + last;
      BufferInstantiations(spawners, s, samples, yaw);
      SpawnerCounts(spawners[s], s, Queued(spawners, s), samples, yaw);
      CountsAppend(prev, last);
    }
  }

  /** The entities of the first m spawners, in query order. */
  function EntityList(spawners: seq<BoidSpawner>, m: nat): (r: seq<Entity>)
    requires m <= |spawners|
    ensures |r| == m && forall k :: 0 <= k < m ==> r[k] == spawners[k].entity
  {
    if m == 0 then [] else EntityList(spawners, m - 1) + [spawners[m - 1].entity]
  }

  /** The buffer of the first m spawners destroys each of them once, in
      query order. */
  lemma {:induction false} BufferDestroys(spawners: seq<BoidSpawner>, m: nat, samples: Samples,
                                          yaw: real -> Quat)
    requires m <= |spawners|
    ensures Destroyed(Buffer(spawners, m, samples, yaw)) == EntityList(spawners, m)
  {
    if m > 0 {
      var s := m - 1;
      var prev := Buffer(spawners, s, samples, yaw);
      var last := SpawnerCommands(spawners[s], s, Queued(spawners, s), samples, yaw);
      assert Buffer(spawners, m, samples, yaw) == prev + last;
      BufferDestroys(spawners, s, samples, yaw);
      SpawnerCounts(spawners[s], s, Queued(spawners, s), samples, yaw);
      CountsAppend(prev, last);
    }
  }

  // ---------------------------------------------------------------------
  // Playback.

  /** The spawners whose entity is not in `gone`, in order. */
  function Without(ss: seq<BoidSpawner>, gone: set<Entity>): seq<BoidSpawner> {
    if ss == [] then []
    else (if ss[0].entity in gone then [] else [ss[0]]) + Without(ss[1..], gone)
  }

  /** Applies one command; `base` is the number of boids before playback,
      so the instance with placeholder p is boid base + p. */
  function Apply(w: World, base: nat, c: Command): World {
    match c
    case Instantiate(prefab) => w.(boids := w.boids + [Instance(prefab, None)])
    case SetTransform(p, t) =>
      if base + p < |w.boids| then w.(boids := w.boids[base + p := w.boids[base + p].(transform := Some(t))])
      else w
    case DestroyEntity(e) => w.(spawners := Without(w.spawners, {e}))
  }

  /** Applies the commands in order. */
  function Run(w: World, base: nat, cmds: seq<Command>): World {
    if cmds == [] then w else Apply(Run(w, base, cmds[..|cmds| - 1]), base, cmds[|cmds| - 1])
  }

  /** The world after EntityCommandBuffer.Playback: every command, in the
      order queued. */
  function AfterPlayback(w: World, cmds: seq<Command>): World {
    Run(w, |w.boids|, cmds)
  }

  lemma {:induction false} RunAppend(w: World, base: nat, a: seq<Command>, b: seq<Command>)
    ensures Run(w, base, a + b) == Run(Run(w, base, a), base, b)
  {
    if b == [] {
      assert a + b == a;
    } else {
      assert (a + b)[..|a + b| - 1] == a + b[..|b| - 1];
      RunAppend(w, base, a, b[..|b| - 1]);
    }
  }

  /** The boids created for the first n boids of spawner s, placed. */
  function SpawnedBy(sp: BoidSpawner, s: nat, n: nat, samples: Samples, yaw: real -> Quat): (r: seq<Instance>)
    ensures |r| == n
  {
    seq(n, k requires 0 <= k < n => Instance(sp.prefab, Some(Placement(samples, yaw, s, GroupOf(k), SlotOf(k)))))
  }

  lemma SpawnedBySnoc(sp: BoidSpawner, s: nat, n: nat, samples: Samples, yaw: real -> Quat)
    ensures SpawnedBy(sp, s, n + 1, samples, yaw)
         == SpawnedBy(sp, s, n, samples, yaw) + [Instance(sp.prefab, Some(Placement(samples, yaw, s, GroupOf(n), SlotOf(n))))]
  {
  }

  /** The boids created for the first m spawners, in order. */
  function Spawned(spawners: seq<BoidSpawner>, m: nat, samples: Samples, yaw: real -> Quat): (r: seq<Instance>)
    requires m <= |spawners|
    ensures |r| == Queued(spawners, m)
  {
    if m == 0 then []
    else
      var s := m - 1;
      Spawned(spawners, s, samples, yaw) + SpawnedBy(spawners[s], s, ToSpawn(spawners[s].count), samples, yaw)
  }

  /** Playing back the commands of n boids, when their placeholders start
      right after the boids already in the world, appends exactly those n
      boids, each placed, and touches nothing else. */
  lemma {:induction false} RunSpawns(w: World, base: nat, sp: BoidSpawner, s: nat, first: nat, n: nat,
                                     samples: Samples, yaw: real -> Quat)
    requires |w.boids| == base + first
    ensures Run(w, base, Spawns(sp, s, first, n, samples, yaw)) == w.(boids := w.boids + SpawnedBy(sp, s, n, samples, yaw))
  {
    if n == 0 {
      assert Spawns(sp, s, first, n, samples, yaw) == [];
      assert w.boids + SpawnedBy(sp, s, n, samples, yaw) == w.boids;
    } else {
      var k := n - 1;
      var prev := Spawns(sp, s, first, k, samples, yaw);
      var t := Placement(samples, yaw, s, GroupOf(k), SlotOf(k));
      var mid := Run(w, base, prev);
      var before := w.boids + SpawnedBy(sp, s, k, samples, yaw);
      SpawnsSnoc(sp, s, first, k, samples, yaw);
      SpawnedBySnoc(sp, s, k, samples, yaw);
      RunSpawns(w, base, sp, s, first, k, samples, yaw);
      assert mid == w.(boids := before);
      RunAppend(w, base, prev, [Instantiate(sp.prefab), SetTransform(first + k, t)]);
      RunPair(mid, base, Instantiate(sp.prefab), SetTransform(first + k, t));
      assert (before + [Instance(sp.prefab, None)])[base + first + k := Instance(sp.prefab, Some(t))]
          == before + [Instance(sp.prefab, Some(t))];
      assert before + [Instance(sp.prefab, Some(t))] == w.boids + SpawnedBy(sp, s, n, samples, yaw);
    }
  }

  lemma RunPair(w: World, base: nat, c1: Command, c2: Command)
    ensures Run(w, base, [c1, c2]) == Apply(Apply(w, base, c1), base, c2)
  {
    assert Run(w, base, [c1]) == Apply(w, base, c1) by {
      assert [c1][..0] == [];
    }
    assert [c1, c2][..1] == [c1];
  }

  lemma {:induction false} WithoutNothing(ss: seq<BoidSpawner>)
    ensures Without(ss, {}) == ss
  {
    if ss != [] {
      WithoutNothing(ss[1..]);
      assert [ss[0]] + ss[1..] == ss;
    }
  }

  lemma {:induction false} WithoutTwice(ss: seq<BoidSpawner>, a: set<Entity>, b: set<Entity>)
    ensures Without(Without(ss, a), b) == Without(ss, a + b)
  {
    if ss != [] {
      WithoutTwice(ss[1..], a, b);
      WithoutAppend((if ss[0].entity in a then [] else [ss[0]]), Without(ss[1..], a), b);
      if ss[0].entity !in a {
        assert Without([ss[0]], b) == (if ss[0].entity in b then [] else [ss[0]]) by {
          assert [ss[0]][1..] == [];
        }
      }
    }
  }

  lemma {:induction false} WithoutAppend(x: seq<BoidSpawner>, y: seq<BoidSpawner>, gone: set<Entity>)
    ensures Without(x + y, gone) == Without(x, gone) + Without(y, gone)
  {
    if x != [] {
      assert (x + y)[1..] == x[1..] + y;
      WithoutAppend(x[1..], y, gone);
    } else {
      assert x + y == y;
    }
  }

  /** The entities of the first m spawners. */
  function Entities(spawners: seq<BoidSpawner>, m: nat): set<Entity>
    requires m <= |spawners|
  {
    set k | 0 <= k < m :: spawners[k].entity
  }

  /** Playing back one spawner's commands appends its boids and removes it. */
  lemma RunSpawner(w: World, base: nat, sp: BoidSpawner, s: nat, first: nat, samples: Samples,
                   yaw: real -> Quat)
    requires |w.boids| == base + first
    ensures Run(w, base, SpawnerCommands(sp, s, first, samples, yaw))
         == World(Without(w.spawners, {sp.entity}), w.boids + SpawnedBy(sp, s, ToSpawn(sp.count), samples, yaw))
  {
    var spawns := Spawns(sp, s, first, ToSpawn(sp.count), samples, yaw);
    RunAppend(w, base, spawns, [DestroyEntity(sp.entity)]);
    RunSpawns(w, base, sp, s, first, ToSpawn(sp.count), samples, yaw);
    assert [DestroyEntity(sp.entity)][..0] == [];
  }

  /** Playing back the commands of the first m spawners creates all their
      boids, placed, after the boids already there, and destroys exactly
      those spawners. */
  lemma {:induction false} RunBuffer(w: World, m: nat, samples: Samples, yaw: real -> Quat)
    requires m <= |w.spawners|
    ensures Run(w, |w.boids|, Buffer(w.spawners, m, samples, yaw))
         == World(Without(w.spawners, Entities(w.spawners, m)), w.boids + Spawned(w.spawners, m, samples, yaw))
  {
    if m == 0 {
      WithoutNothing(w.spawners);
      assert Entities(w.spawners, 0) == {};
    } else {
      RunBuffer(w, m - 1, samples, yaw);
      RunBufferStep(w, m - 1, samples, yaw);
    }
  }

  /** The inductive step of RunBuffer: the commands of spawner s, played
      after those of the spawners before it. */
  lemma RunBufferStep(w: World, s: nat, samples: Samples, yaw: real -> Quat)
    requires s < |w.spawners|
    requires Run(w, |w.boids|, Buffer(w.spawners, s, samples, yaw))
          == World(Without(w.spawners, Entities(w.spawners, s)), w.boids + Spawned(w.spawners, s, samples, yaw))
    ensures Run(w, |w.boids|, Buffer(w.spawners, s + 1, samples, yaw))
         == World(Without(w.spawners, Entities(w.spawners, s + 1)), w.boids + Spawned(w.spawners, s + 1, samples, yaw))
  {
    var ss := w.spawners;
    var sp := ss[s];
    var base := |w.boids|;
    var prefix := Buffer(ss, s, samples, yaw);
    var last := SpawnerCommands(sp, s, Queued(ss, s), samples, yaw);
    var added := SpawnedBy(sp, s, ToSpawn(sp.count), samples, yaw);
    RunSpawner(Run(w, base, prefix), base, sp, s, Queued(ss, s), samples, yaw);
    RunThenRemove(w, base, prefix, last, Entities(ss, s), Spawned(ss, s, samples, yaw), sp.entity, added);
    EntitiesStep(ss, s);
    assert Buffer(ss, s + 1, samples, yaw) == prefix + last;
    assert Spawned(ss, s + 1, samples, yaw) == Spawned(ss, s, samples, yaw) + added;
  }

  /** Commands that remove the spawners in `gone` and append `spawned`,
      followed by commands that remove `entity` and append `added`, remove
      both and append both, in order. */
  lemma RunThenRemove(w: World, base: nat, prefix: seq<Command>, last: seq<Command>, gone: set<Entity>,
                      spawned: seq<Instance>, entity: Entity, added: seq<Instance>)
    requires Run(w, base, prefix) == World(Without(w.spawners, gone), w.boids + spawned)
    requires Run(Run(w, base, prefix), base, last)
          == World(Without(Without(w.spawners, gone), {entity}), w.boids + spawned + added)
    ensures Run(w, base, prefix + last) == World(Without(w.spawners, gone + {entity}), w.boids + (spawned + added))
  {
    RunAppend(w, base, prefix, last);
    WithoutTwice(w.spawners, gone, {entity});
    assert w.boids + spawned + added == w.boids + (spawned + added);
  }

  lemma EntitiesStep(ss: seq<BoidSpawner>, m: nat)
    requires m < |ss|
    ensures Entities(ss, m) + {ss[m].entity} == Entities(ss, m + 1)
  {
    forall e | e in Entities(ss, m + 1)
      ensures e in Entities(ss, m) + {ss[m].entity}
    {
      var k :| 0 <= k < m + 1 && ss[k].entity == e;
      if k < m {
        assert e in Entities(ss, m);
      }
    }
  }

  /** Removing every spawner's entity leaves no spawner. */
  lemma {:induction false} WithoutAll(ss: seq<BoidSpawner>, gone: set<Entity>)
    requires forall k :: 0 <= k < |ss| ==> ss[k].entity in gone
    ensures Without(ss, gone) == []
  {
    if ss != [] {
      WithoutAll(ss[1..], gone);
    }
  }

  /** After playback of a whole update no spawner is left, and the world
      holds its old boids followed by every spawner's boids, placed. */
  lemma PlaybackSpawnsAll(w: World, samples: Samples, yaw: real -> Quat)
    ensures AfterPlayback(w, Buffer(w.spawners, |w.spawners|, samples, yaw))
         == World([], w.boids + Spawned(w.spawners, |w.spawners|, samples, yaw))
  {
    RunBuffer(w, |w.spawners|, samples, yaw);
    WithoutAll(w.spawners, Entities(w.spawners, |w.spawners|));
  }

  // ---------------------------------------------------------------------
  // The system.

  /** An EntityCommandBuffer: the commands queued so far, and the number of
      instances created so far, which is the next placeholder. */
  class CommandBuffer {
    var commands: seq<Command>
    var instantiated: nat

    ghost predicate Valid()
      reads this
    {
      instantiated == Instantiations(commands)
    }

    constructor ()
      ensures Valid() && commands == []
    {
      commands := [];
      instantiated := 0;
    }

    /** Queues the creation of an instance of `prefab`; returns its placeholder. */
    method Instantiate(prefab: Entity) returns (instance: nat)
      requires Valid()
      modifies this
      ensures Valid()
      ensures commands == old(commands) + [Command.Instantiate(prefab)]
      ensures instance == old(instantiated) == Instantiations(old(commands))
    {
      CountsAppend(commands, [Command.Instantiate(prefab)]);
      assert [Command.Instantiate(prefab)][..0] == [];
      instance := instantiated;
      commands := commands + [Command.Instantiate(prefab)];
      instantiated := instantiated + 1;
    }

    /** Queues setting the LocalTransform of `instance`. */
    method SetComponent(instance: nat, transform: Transform)
      requires Valid()
      modifies this
      ensures Valid()
      ensures commands == old(commands) + [SetTransform(instance, transform)]
    {
      CountsAppend(commands, [SetTransform(instance, transform)]);
      assert [SetTransform(instance, transform)][..0] == [];
      commands := commands + [SetTransform(instance, transform)];
    }

    /** Queues the destruction of `entity`. */
    method DestroyEntity(entity: Entity)
      requires Valid()
      modifies this
      ensures Valid()
      ensures commands == old(commands) + [Command.DestroyEntity(entity)]
    {
      CountsAppend(commands, [Command.DestroyEntity(entity)]);
      assert [Command.DestroyEntity(entity)][..0] == [];
      commands := commands + [Command.DestroyEntity(entity)];
    }

    /** Applies every queued command to `world`, in order. */
    method Playback(world: World) returns (after: World)
      ensures after == AfterPlayback(world, commands)
    {
      after := world;
      for k := 0 to |commands|
        invariant after == Run(world, |world.boids|, commands[..k])
      {
        assert commands[..k + 1][..k] == commands[..k];
        after := Apply(after, |world.boids|, commands[k]);
      }
      assert commands[..|commands|] == commands;
    }
  }

  /** BoidSpawnerSystem.OnUpdate. Every spawner, in query order, queues its
      boids group by group and then its own destruction; the buffer is played
      back once, at the end. Afterwards no spawner is left and the world holds
      every requested boid, placed. */
  method OnUpdate(world: World, samples: Samples, yaw: real -> Quat) returns (after: World)
    ensures after == AfterPlayback(world, Buffer(world.spawners, |world.spawners|, samples, yaw))
    ensures after.spawners == []
    ensures after.boids == world.boids + Spawned(world.spawners, |world.spawners|, samples, yaw)
  {
    var spawners := world.spawners;
    var ecb := new CommandBuffer();
    for s := 0 to |spawners|
      invariant ecb.Valid()
      invariant ecb.commands == Buffer(spawners, s, samples, yaw)
      invariant ecb.instantiated == Queued(spawners, s)
    {
      var spawner := spawners[s];
      var totalToSpawn := spawner.count;
      var numGroups := NumGroups(totalToSpawn);
      ghost var first := ecb.instantiated;
      ghost var before := ecb.commands;
      var groupIndex := 0;
      while groupIndex < numGroups
        invariant 0 <= groupIndex && (groupIndex == 0 || groupIndex <= numGroups)
        invariant ecb.Valid()
        invariant ecb.commands == before + Spawns(spawner, s, first, Done(totalToSpawn, groupIndex), samples, yaw)
        invariant ecb.instantiated == first + Done(totalToSpawn, groupIndex)
      {
        SpawnGroup(ecb, spawner, s, groupIndex, samples, yaw, first, before);
        groupIndex := groupIndex + 1;
      }
      DoneAfterAll(totalToSpawn, groupIndex);
      ecb.DestroyEntity(spawner.entity);
      BufferStep(spawners, s, samples, yaw, before + Spawns(spawner, s, first, ToSpawn(totalToSpawn), samples, yaw));
    }
    after := ecb.Playback(world);
    PlaybackSpawnsAll(world, samples, yaw);
  }

  /** The body of the group loop of OnUpdate: queues the boids of group
      `groupIndex` of spawner s, stopping at the spawner's count. */
  method SpawnGroup(ecb: CommandBuffer, spawner: BoidSpawner, s: nat, groupIndex: nat, samples: Samples,
                    yaw: real -> Quat, ghost first: nat, ghost before: seq<Command>)
    requires groupIndex < NumGroups(spawner.count)
    requires ecb.Valid()
    requires ecb.commands == before + Spawns(spawner, s, first, Done(spawner.count, groupIndex), samples, yaw)
    requires ecb.instantiated == first + Done(spawner.count, groupIndex)
    modifies ecb
    ensures ecb.Valid()
    ensures ecb.commands == before + Spawns(spawner, s, first, Done(spawner.count, groupIndex + 1), samples, yaw)
    ensures ecb.instantiated == first + Done(spawner.count, groupIndex + 1)
    ensures ecb.instantiated == old(ecb.instantiated) + GroupLength(spawner.count, groupIndex)
  {
    var totalToSpawn := spawner.count;
    var groupCenter := GroupCenter(samples, s, groupIndex);
    var groupRotation := GroupRotation(samples, yaw, s, groupIndex);
    DoneBeforeGroup(totalToSpawn, groupIndex);
    var i := 0;
    while i < GroupSize
      invariant 0 <= i <= GroupSize
      invariant groupIndex * GroupSize + i <= ToSpawn(totalToSpawn)
      invariant ecb.Valid()
      invariant ecb.commands == before + Spawns(spawner, s, first, groupIndex * GroupSize + i, samples, yaw)
      invariant ecb.instantiated == first + groupIndex * GroupSize + i
    {
      var spawnIndex := groupIndex * GroupSize + i;
      if spawnIndex >= totalToSpawn {
        break;
      }
      SpawnBoid(ecb, spawner, s, groupIndex, i, groupCenter, groupRotation, samples, yaw, first, before);
      i := i + 1;
    }
    DoneAfterGroup(totalToSpawn, groupIndex, i);
    GroupQueues(totalToSpawn, groupIndex);
  }

  /** The body of the boid loop of OnUpdate: queues boid i of group
      `groupIndex` of spawner s, created from the prefab and then placed. */
  method SpawnBoid(ecb: CommandBuffer, spawner: BoidSpawner, s: nat, groupIndex: nat, i: nat,
                   groupCenter: Vec3, groupRotation: Quat, samples: Samples, yaw: real -> Quat,
                   ghost first: nat, ghost before: seq<Command>)
    requires i < GroupSize
    requires groupCenter == GroupCenter(samples, s, groupIndex)
    requires groupRotation == GroupRotation(samples, yaw, s, groupIndex)
    requires ecb.Valid()
    requires ecb.commands == before + Spawns(spawner, s, first, groupIndex * GroupSize + i, samples, yaw)
    requires ecb.instantiated == first + groupIndex * GroupSize + i
    modifies ecb
    ensures ecb.Valid()
    ensures ecb.commands == before + Spawns(spawner, s, first, groupIndex * GroupSize + i + 1, samples, yaw)
    ensures ecb.instantiated == first + groupIndex * GroupSize + i + 1
  {
    var instance := ecb.Instantiate(spawner.prefab);
    var localOffset := LocalOffset(samples, s, groupIndex, i);
    var position := Add(groupCenter, localOffset);
    ecb.SetComponent(instance, Transform(position, groupRotation));
    SpawnsStep(spawner, s, first, groupIndex, i, samples, yaw, before, Transform(position, groupRotation));
  }

  /** The number of a spawner's boids queued once its first g groups are done. */
  function Done(total: int, g: nat): nat {
    if g * GroupSize < ToSpawn(total) then g * GroupSize else ToSpawn(total)
  }

  /** Boid n + 1 is queued as an Instantiate followed by a SetTransform of
      the placeholder first + n to the boid's placement. */
  lemma SpawnsStep(sp: BoidSpawner, s: nat, first: nat, g: nat, i: nat, samples: Samples, yaw: real -> Quat,
                   before: seq<Command>, t: Transform)
    requires i < GroupSize
    requires t == Placement(samples, yaw, s, g, i)
    ensures before + Spawns(sp, s, first, g * GroupSize + i, samples, yaw)
         + [Instantiate(sp.prefab)] + [SetTransform(first + (g * GroupSize + i), t)]
         == before + Spawns(sp, s, first, g * GroupSize + i + 1, samples, yaw)
  {
    var n := g * GroupSize + i;
    Slot(g, i);
    SpawnsSnoc(sp, s, first, n, samples, yaw);
    var prev := Spawns(sp, s, first, n, samples, yaw);
    assert before + prev + [Instantiate(sp.prefab)] + [SetTransform(first + n, t)]
        == before + (prev + [Instantiate(sp.prefab), SetTransform(first + n, t)]);
  }

  lemma BufferStep(spawners: seq<BoidSpawner>, s: nat, samples: Samples, yaw: real -> Quat, queued: seq<Command>)
    requires s < |spawners|
    requires queued == Buffer(spawners, s, samples, yaw)
      + Spawns(spawners[s], s, Queued(spawners, s), ToSpawn(spawners[s].count), samples, yaw)
    ensures queued + [DestroyEntity(spawners[s].entity)] == Buffer(spawners, s + 1, samples, yaw)
  {
  }

  /** Before group g, which exists, its predecessors hold ten boids each. */
  lemma DoneBeforeGroup(total: int, g: nat)
    requires g < NumGroups(total)
    ensures Done(total, g) == g * GroupSize < ToSpawn(total)
  {
  }

  /** A group ends after ten boids or at the last boid. */
  lemma DoneAfterGroup(total: int, g: nat, i: int)
    requires 0 <= i <= GroupSize && g * GroupSize + i <= ToSpawn(total)
    requires i == GroupSize || g * GroupSize + i >= total
    ensures Done(total, g + 1) == g * GroupSize + i
  {
  }

  /** After the last group every boid of the spawner is queued. */
  lemma DoneAfterAll(total: int, g: nat)
    requires g == 0 || g == NumGroups(total)
    requires g >= NumGroups(total)
    ensures Done(total, g) == ToSpawn(total)
  {
  }

  /** Slot i of group g is boid g * 10 + i. */
  lemma Slot(g: nat, i: nat)
    requires i < GroupSize
    ensures GroupOf(g * GroupSize + i) == g && SlotOf(g * GroupSize + i) == i
  {
  }
}
