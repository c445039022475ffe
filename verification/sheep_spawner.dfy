/** The sheep spawner: an initial flock scattered around the spawner, and one
    lamb wherever a sheep asks for it after a meal. No spawn path looks at how
    many sheep there already are. */
module SheepSpawning {
  import opened World
  import opened Registry

  /** The `Random.Range` values one `SpawnSheep` call draws: the offset from
      the spawner on each axis and the integer hunger handed to
      `InitializeSheep`. */
  datatype SheepDraw = SheepDraw(offset: Pos, hunger: int)

  /** `Random.Range(80, 101)` on integers excludes 101, so hunger lies in
      [80, 100]. */
  predicate HungerDrawOk(h: int) {
    80 <= h <= 100
  }

  predicate DrawOk(d: SheepDraw, radius: real) {
    OffsetOk(d.offset, radius) && HungerDrawOk(d.hunger)
  }

  /** The sheep one `SpawnSheep` creates around `centre`. */
  function Lamb(centre: Pos, d: SheepDraw): Entity {
    Entity(Sheep, Offset(centre, d.offset), Some(d.hunger))
  }

  /** The sheep `SpawnInitialSheep` creates, in order, one per draw. */
  function InitialFlock(centre: Pos, draws: seq<SheepDraw>): (es: seq<Entity>)
    ensures |es| == |draws|
    ensures Count(es, Sheep) == |draws|
    ensures forall k | k != Sheep :: Count(es, k) == 0
    decreases |draws|
  {
    if draws == [] then []
    else
      var init := InitialFlock(centre, draws[..|draws| - 1]);
      CountPush(init, Lamb(centre, draws[|draws| - 1]), Sheep);
      init + [Lamb(centre, draws[|draws| - 1])]
  }

  /** Every sheep of the initial flock stands within `spawnAreaRadius` of the
      spawner on each axis and carries a hunger in [80, 100]. */
  lemma {:induction false} InitialFlockPlaced(centre: Pos, radius: real, draws: seq<SheepDraw>)
    requires forall i | 0 <= i < |draws| :: DrawOk(draws[i], radius)
    ensures forall e | e in InitialFlock(centre, draws) ::
      e.kind == Sheep && WithinSquare(e.pos, centre, radius) && e.hunger.Some? && HungerDrawOk(e.hunger.value)
    decreases |draws|
  {
    if draws != [] {
      InitialFlockPlaced(centre, radius, draws[..|draws| - 1]);
      OffsetWithinSquare(centre, draws[|draws| - 1].offset, radius);
    }
  }

  /** Growth is uncapped: however many sheep the scene holds, a spawn at a
      position adds one more sheep and changes no other kind's count. */
  lemma LambAddsOneSheep(es: seq<Entity>, at: Pos, hunger: int)
    ensures Count(es + [Entity(Sheep, at, Some(hunger))], Sheep) == Count(es, Sheep) + 1
    ensures forall k | k != Sheep :: Count(es + [Entity(Sheep, at, Some(hunger))], k) == Count(es, k)
  {
    forall k {
      CountPush(es, Entity(Sheep, at, Some(hunger)), k);
    }
  }

  class SheepSpawner {
    /** `transform.position` of the spawner. */
    var position: Pos
    var initialSheepCount: int
    var spawnAreaRadius: real

    constructor (position: Pos, initialSheepCount: int, spawnAreaRadius: real)
      ensures this.position == position && this.initialSheepCount == initialSheepCount
      ensures this.spawnAreaRadius == spawnAreaRadius
    {
      this.position := position;
      this.initialSheepCount := initialSheepCount;
      this.spawnAreaRadius := spawnAreaRadius;
    }

    /** `SpawnInitialSheep`: `initialSheepCount` calls of `SpawnSheep` (none
        when the count is negative). */
    method SpawnInitialSheep(scene: Scene, draws: seq<SheepDraw>)
      requires |draws| == Iterations(initialSheepCount)
      requires forall i | 0 <= i < |draws| :: DrawOk(draws[i], spawnAreaRadius)
      modifies scene
      ensures scene.entities == old(scene.entities) + InitialFlock(position, draws)
      ensures Count(scene.entities, Sheep) == old(Count(scene.entities, Sheep)) + Iterations(initialSheepCount)
    {
      var i := 0;
      while i < initialSheepCount
        invariant 0 <= i <= |draws|
        invariant scene.entities == old(scene.entities) + InitialFlock(position, draws[..i])
      {
        assert draws[..i + 1][..i] == draws[..i];
        SpawnSheep(scene, draws[i]);
        i := i + 1;
      }
      assert draws[..i] == draws;
      CountAppend(old(scene.entities), InitialFlock(position, draws), Sheep);
    }

    /** `SpawnSheep`: one sheep at a random offset from the spawner, initialised
        with a random hunger. */
    method SpawnSheep(scene: Scene, d: SheepDraw)
      requires DrawOk(d, spawnAreaRadius)
      modifies scene
      ensures scene.entities == old(scene.entities) + [Lamb(position, d)]
      ensures WithinSquare(Lamb(position, d).pos, position, spawnAreaRadius)
    {
      OffsetWithinSquare(position, d.offset, spawnAreaRadius);
      scene.Instantiate(Entity(Sheep, Offset(position, d.offset), Some(d.hunger)));
    }

    /** `SpawnSheepAtPosition`: one sheep exactly at `spawnPosition`, with a
        random hunger, and no check of the population. */
    method SpawnSheepAtPosition(scene: Scene, spawnPosition: Pos, hunger: int)
      requires HungerDrawOk(hunger)
      modifies scene
      ensures scene.entities == old(scene.entities) + [Entity(Sheep, spawnPosition, Some(hunger))]
      ensures Count(scene.entities, Sheep) == old(Count(scene.entities, Sheep)) + 1
    {
      scene.Instantiate(Entity(Sheep, spawnPosition, Some(hunger)));
      LambAddsOneSheep(old(scene.entities), spawnPosition, hunger);
    }
  }
}
