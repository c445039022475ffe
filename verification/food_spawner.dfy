/** The food spawner: fruit appears at random points inside the camera view,
    never while the scene already holds `maxFoodCount` fruit, and every spawn
    attempt, capped or not, schedules the next one. */
module FoodSpawning {
  import opened World
  import opened Registry

  /** The rectangle the main camera shows: its centre, half its width
      (`orthographicSize * aspect`) and half its height (`orthographicSize`). */
  datatype View = View(centre: Pos, halfWidth: real, halfHeight: real)

  /** Whether `p` is a point `SpawnFood` can draw inside the view. */
  predicate InView(v: View, p: Pos) {
    v.centre.x - v.halfWidth <= p.x <= v.centre.x + v.halfWidth
    && v.centre.y - v.halfHeight <= p.y <= v.centre.y + v.halfHeight
  }

  function NewFruit(at: Pos): Entity {
    Entity(Fruit, at, None)
  }

  /** A value `Random.Range(lo, hi)` on floats can return: one between the
      two bounds, inclusive, which the engine swaps when `lo > hi`. */
  predicate DelayOk(lo: real, hi: real, delay: real) {
    if lo <= hi then lo <= delay <= hi else hi <= delay <= lo
  }

  /** Every configuration of the spawner has delays to draw, so any spawner
      can be started; with ordered bounds they are exactly [`lo`, `hi`]. */
  lemma EveryConfigurationHasDelays(lo: real, hi: real)
    ensures DelayOk(lo, hi, lo) && DelayOk(lo, hi, hi)
    ensures lo <= hi ==> forall delay :: DelayOk(lo, hi, delay) <==> lo <= delay <= hi
  {
  }

  /** The scene after one `SpawnFood` attempt: one more fruit at `spot` while
      fewer than `maxFoodCount` are present, otherwise the scene unchanged. */
  function WithFood(es: seq<Entity>, maxFoodCount: int, spot: Pos): (r: seq<Entity>)
    ensures es <= r && |r| <= |es| + 1
    ensures Count(es, Fruit) >= maxFoodCount ==> r == es
    ensures Count(es, Fruit) < maxFoodCount ==>
      |r| == |es| + 1 && r[|es|] == NewFruit(spot) && Count(r, Fruit) == Count(es, Fruit) + 1
    ensures Count(es, Fruit) <= maxFoodCount ==> Count(r, Fruit) <= maxFoodCount
    ensures forall k | k != Fruit :: Count(r, k) == Count(es, k)
  {
    forall k {
      CountPush(es, NewFruit(spot), k);
    }
    if Count(es, Fruit) < maxFoodCount then es + [NewFruit(spot)] else es
  }

  /** The scene after one attempt per spot, in order. */
  function FoodAttempts(es: seq<Entity>, maxFoodCount: int, spots: seq<Pos>): (r: seq<Entity>)
    ensures es <= r && |r| <= |es| + |spots|
    ensures Count(r, Fruit) <= Count(es, Fruit) + |spots|
    ensures Count(es, Fruit) <= maxFoodCount ==> Count(r, Fruit) <= maxFoodCount
    ensures forall k | k != Fruit :: Count(r, k) == Count(es, k)
    decreases |spots|
  {
    if spots == [] then es
    else WithFood(FoodAttempts(es, maxFoodCount, spots[..|spots| - 1]), maxFoodCount, spots[|spots| - 1])
  }

  /** The due times of the `SpawnFood` calls scheduled at time `now` with the
      given delays, in order. */
  function Schedule(now: real, delays: seq<real>): (r: seq<real>)
    ensures |r| == |delays|
    ensures forall i | 0 <= i < |r| :: r[i] == now + delays[i]
    decreases |delays|
  {
    if delays == [] then []
    else Schedule(now, delays[..|delays| - 1]) + [now + delays[|delays| - 1]]
  }

  /** One more attempt extends the result of the earlier ones. */
  lemma AttemptStep(es: seq<Entity>, maxFoodCount: int, spots: seq<Pos>, i: nat)
    requires i < |spots|
    ensures FoodAttempts(es, maxFoodCount, spots[..i + 1]) == WithFood(FoodAttempts(es, maxFoodCount, spots[..i]), maxFoodCount, spots[i])
  {
    assert spots[..i + 1][..i] == spots[..i];
  }

  /** One more re-arm extends the scheduled calls by the next due time. */
  lemma ScheduleStep(p: seq<real>, now: real, delays: seq<real>, i: nat)
    requires i < |delays|
    ensures (p + Schedule(now, delays[..i])) + [now + delays[i]] == p + Schedule(now, delays[..i + 1])
  {
    assert delays[..i + 1][..i] == delays[..i];
  }

  /** Every fruit an attempt adds lies inside the camera view. */
  lemma {:induction false} AttemptsStayInView(es: seq<Entity>, maxFoodCount: int, v: View, spots: seq<Pos>)
    requires forall i | 0 <= i < |spots| :: InView(v, spots[i])
    ensures forall i | |es| <= i < |FoodAttempts(es, maxFoodCount, spots)| ::
      FoodAttempts(es, maxFoodCount, spots)[i].kind == Fruit
      && InView(v, FoodAttempts(es, maxFoodCount, spots)[i].pos)
    decreases |spots|
  {
    if spots != [] {
      AttemptsStayInView(es, maxFoodCount, v, spots[..|spots| - 1]);
    }
  }

  /** Whatever the spots drawn, a scene within the cap stays within it across
      any number of attempts, and the number of fruit never decreases. */
  lemma CapIsInvariant(es: seq<Entity>, maxFoodCount: int, spots: seq<Pos>)
    requires Count(es, Fruit) <= maxFoodCount
    ensures Count(es, Fruit) <= Count(FoodAttempts(es, maxFoodCount, spots), Fruit) <= maxFoodCount
  {
    var r := FoodAttempts(es, maxFoodCount, spots);
    CountAppend(es, r[|es|..], Fruit);
    assert es + r[|es|..] == r;
  }

  class FoodSpawner {
    var minSpawnTime: real
    var maxSpawnTime: real
    var maxFoodCount: int
    var initialFoodCount: int
    /** The simulated time of the spawner. */
    var clock: real
    /** The due times of the `SpawnFood` calls scheduled with `Invoke`. */
    var pending: seq<real>

    constructor (minSpawnTime: real, maxSpawnTime: real, maxFoodCount: int, initialFoodCount: int)
      ensures this.minSpawnTime == minSpawnTime && this.maxSpawnTime == maxSpawnTime
      ensures this.maxFoodCount == maxFoodCount && this.initialFoodCount == initialFoodCount
      ensures clock == 0.0 && pending == []
    {
      this.minSpawnTime := minSpawnTime;
      this.maxSpawnTime := maxSpawnTime;
      this.maxFoodCount := maxFoodCount;
      this.initialFoodCount := initialFoodCount;
      clock := 0.0;
      pending := [];
    }

    /** `Start`: `initialFoodCount` spawn attempts (none when the count is
        negative), each of which re-arms, and one more arming of its own. */
    method Start(scene: Scene, view: View, spots: seq<Pos>, delays: seq<real>)
      requires |spots| == Iterations(initialFoodCount) && |delays| == |spots| + 1
      requires forall i | 0 <= i < |spots| :: InView(view, spots[i])
      requires forall i | 0 <= i < |delays| :: DelayOk(minSpawnTime, maxSpawnTime, delays[i])
      modifies this`pending, scene
      ensures scene.entities == FoodAttempts(old(scene.entities), maxFoodCount, spots)
      ensures pending == old(pending) + Schedule(clock, delays)
      ensures |pending| == old(|pending|) + Iterations(initialFoodCount) + 1
    {
      ghost var p0 := pending;
      SpawnInitialFood(scene, view, spots, delays);
      var n := |spots|;
      StartSpawning(delays[n]);
      ScheduleStep(p0, clock, delays, n);
      assert delays[..n + 1] == delays;
    }

    /** The loop of `Start`: one `SpawnFood` per spot, in order. */
    method SpawnInitialFood(scene: Scene, view: View, spots: seq<Pos>, delays: seq<real>)
      requires |spots| == Iterations(initialFoodCount) && |spots| < |delays|
      requires forall i | 0 <= i < |spots| :: InView(view, spots[i])
      requires forall i | 0 <= i < |delays| :: DelayOk(minSpawnTime, maxSpawnTime, delays[i])
      modifies this`pending, scene
      ensures scene.entities == FoodAttempts(old(scene.entities), maxFoodCount, spots)
      ensures pending == old(pending) + Schedule(clock, delays[..|spots|])
    {
      ghost var es0 := scene.entities;
      ghost var p0 := pending;
      var i := 0;
      while i < initialFoodCount
        invariant 0 <= i <= |spots|
        invariant scene.entities == FoodAttempts(es0, maxFoodCount, spots[..i])
        invariant pending == p0 + Schedule(clock, delays[..i])
      {
        SpawnFood(scene, view, spots[i], delays[i]);
        AttemptStep(es0, maxFoodCount, spots, i);
        ScheduleStep(p0, clock, delays, i);
        i := i + 1;
      }
      assert spots[..i] == spots;
    }

    /** `StartSpawning`: schedule one `SpawnFood` after a delay drawn between
        `minSpawnTime` and `maxSpawnTime`. */
    method StartSpawning(delay: real)
      requires DelayOk(minSpawnTime, maxSpawnTime, delay)
      modifies this`pending
      ensures pending == old(pending) + [clock + delay]
      ensures DelayOk(minSpawnTime, maxSpawnTime, pending[|pending| - 1] - clock)
    {
      pending := pending + [clock + delay];
    }

    /** `SpawnFood`: one fruit at a point inside the view unless the cap is
        reached, then re-arm in every case. */
    method SpawnFood(scene: Scene, view: View, spot: Pos, delay: real)
      requires InView(view, spot)
      requires DelayOk(minSpawnTime, maxSpawnTime, delay)
      modifies this`pending, scene
      ensures scene.entities == WithFood(old(scene.entities), maxFoodCount, spot)
      ensures pending == old(pending) + [clock + delay]
    {
      var currentFoodCount := Count(scene.entities, Fruit);
      if currentFoodCount < maxFoodCount {
        scene.Instantiate(NewFruit(spot));
      }
      StartSpawning(delay);
    }

    /** Simulated time passes. */
    method Elapse(dt: real)
      requires dt >= 0.0
      modifies this`clock
      ensures clock == old(clock) + dt
    {
      clock := clock + dt;
    }

    /** The engine fires the `index`-th scheduled `SpawnFood`, which has come
        due: the call is used up, and the attempt schedules its successor, so
        the number of scheduled calls never changes. */
    method FireSpawn(scene: Scene, view: View, index: nat, spot: Pos, delay: real)
      requires index < |pending| && pending[index] <= clock
      requires InView(view, spot)
      requires DelayOk(minSpawnTime, maxSpawnTime, delay)
      modifies this`pending, scene
      ensures scene.entities == WithFood(old(scene.entities), maxFoodCount, spot)
      ensures pending == old(pending[..index] + pending[index + 1..]) + [clock + delay]
      ensures |pending| == old(|pending|)
    {
      pending := pending[..index] + pending[index + 1..];
      SpawnFood(scene, view, spot, delay);
    }
  }
}
