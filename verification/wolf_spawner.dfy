/** The wolf spawner: an initial pack scattered around the spawner, and one
    cub wherever a wolf asks for it after a meal. No spawn path looks at how
    many wolves there already are. The hunger it writes into a new wolf is
    drawn again by the wolf's own `Start`. */
module WolfSpawning {
  import opened World
  import opened Registry

  /** The `Random.Range` values one `SpawnWolf` call draws: the offset from
      the spawner on each axis and the integer hunger written into
      the new wolf's `hungryLevel`. */
  datatype WolfDraw = WolfDraw(offset: Pos, hunger: int)

  /** `Random.Range(90, 101)` on integers excludes 101, so hunger lies in
      [90, 100]. */
  predicate HungerDrawOk(h: int) {
    90 <= h <= 100
  }

  predicate DrawOk(d: WolfDraw, radius: real) {
    OffsetOk(d.offset, radius) && HungerDrawOk(d.hunger)
  }

  /** The wolf one `SpawnWolf` creates around `centre`. */
  function Cub(centre: Pos, d: WolfDraw): Entity {
    Entity(Wolf, Offset(centre, d.offset), Some(d.hunger))
  }

  /** The wolves `SpawnInitialWolves` creates, in order, one per draw. */
  function InitialPack(centre: Pos, draws: seq<WolfDraw>): (es: seq<Entity>)
    ensures |es| == |draws|
    ensures Count(es, Wolf) == |draws|
    ensures forall k | k != Wolf :: Count(es, k) == 0
    decreases |draws|
  {
    if draws == [] then []
    else
      var init := InitialPack(centre, draws[..|draws| - 1]);
      CountPush(init, Cub(centre, draws[|draws| - 1]), Wolf);
      init + [Cub(centre, draws[|draws| - 1])]
  }

  /** Every wolf of the initial pack stands within `spawnAreaRadius` of the
      spawner on each axis and carries a hunger in [90, 100]. */
  lemma {:induction false} InitialPackPlaced(centre: Pos, radius: real, draws: seq<WolfDraw>)
    requires forall i | 0 <= i < |draws| :: DrawOk(draws[i], radius)
    ensures forall e | e in InitialPack(centre, draws) ::
      e.kind == Wolf && WithinSquare(e.pos, centre, radius) && e.hunger.Some? && HungerDrawOk(e.hunger.value)
    decreases |draws|
  {
    if draws != [] {
      InitialPackPlaced(centre, radius, draws[..|draws| - 1]);
      OffsetWithinSquare(centre, draws[|draws| - 1].offset, radius);
    }
  }

  /** Growth is uncapped: however many wolves the scene holds, a spawn at a
      position adds one more wolf and changes no other kind's count. */
  lemma CubAddsOneWolf(es: seq<Entity>, at: Pos, hunger: int)
    ensures Count(es + [Entity(Wolf, at, Some(hunger))], Wolf) == Count(es, Wolf) + 1
    ensures forall k | k != Wolf :: Count(es + [Entity(Wolf, at, Some(hunger))], k) == Count(es, k)
  {
    forall k {
      CountPush(es, Entity(Wolf, at, Some(hunger)), k);
    }
  }

  class WolfSpawner {
    /** `transform.position` of the spawner. */
    var position: Pos
    var initialWolfCount: int
    var spawnAreaRadius: real

    constructor (position: Pos, initialWolfCount: int, spawnAreaRadius: real)
      ensures this.position == position && this.initialWolfCount == initialWolfCount
      ensures this.spawnAreaRadius == spawnAreaRadius
    {
      this.position := position;
      this.initialWolfCount := initialWolfCount;
      this.spawnAreaRadius := spawnAreaRadius;
    }

    /** `SpawnInitialWolves`: `initialWolfCount` calls of `SpawnWolf` (none
        when the count is negative). */
    method SpawnInitialWolves(scene: Scene, draws: seq<WolfDraw>)
      requires |draws| == Iterations(initialWolfCount)
      requires forall i | 0 <= i < |draws| :: DrawOk(draws[i], spawnAreaRadius)
      modifies scene
      ensures scene.entities == old(scene.entities) + InitialPack(position, draws)
      ensures Count(scene.entities, Wolf) == old(Count(scene.entities, Wolf)) + Iterations(initialWolfCount)
    {
      var i := 0;
      while i < initialWolfCount
        invariant 0 <= i <= |draws|
        invariant scene.entities == old(scene.entities) + InitialPack(position, draws[..i])
      {
        assert draws[..i + 1][..i] == draws[..i];
        SpawnWolf(scene, draws[i]);
        i := i + 1;
      }
      assert draws[..i] == draws;
      CountAppend(old(scene.entities), InitialPack(position, draws), Wolf);
    }

    /** `SpawnWolf`: one wolf at a random offset from the spawner, with a
        random hunger written into it. */
    method SpawnWolf(scene: Scene, d: WolfDraw)
      requires DrawOk(d, spawnAreaRadius)
      modifies scene
      ensures scene.entities == old(scene.entities) + [Cub(position, d)]
      ensures WithinSquare(Cub(position, d).pos, position, spawnAreaRadius)
    {
      OffsetWithinSquare(position, d.offset, spawnAreaRadius);
      scene.Instantiate(Entity(Wolf, Offset(position, d.offset), Some(d.hunger)));
    }

    /** `SpawnWolfAtPosition`: one wolf exactly at `spawnPosition`, with a
        random hunger, and no check of the population. */
    method SpawnWolfAtPosition(scene: Scene, spawnPosition: Pos, hunger: int)
      requires HungerDrawOk(hunger)
      modifies scene
      ensures scene.entities == old(scene.entities) + [Entity(Wolf, spawnPosition, Some(hunger))]
      ensures Count(scene.entities, Wolf) == old(Count(scene.entities, Wolf)) + 1
    {
      scene.Instantiate(Entity(Wolf, spawnPosition, Some(hunger)));
      CubAddsOneWolf(old(scene.entities), spawnPosition, hunger);
    }
  }
}
