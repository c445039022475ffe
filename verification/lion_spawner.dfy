/** The lion spawner: an initial pride scattered around the world origin (not
    around the spawner), and one cub wherever a lion asks for it after a meal.
    It writes no hunger into a new lion (the lion draws its own in `Start`) and
    never looks at how many lions there already are. */
module LionSpawning {
  import opened World
  import opened Registry

  const Origin: Pos := Pos(0.0, 0.0)

  /** The lion one spawn creates at `at`: no hunger is written. */
  function Cub(at: Pos): Entity {
    Entity(Lion, at, None)
  }

  /** The lions `SpawnInitialLions` creates, in order, one per drawn position. */
  function InitialPride(spots: seq<Pos>): (es: seq<Entity>)
    ensures |es| == |spots|
    ensures Count(es, Lion) == |spots|
    ensures forall k | k != Lion :: Count(es, k) == 0
    decreases |spots|
  {
    if spots == [] then []
    else
      var init := InitialPride(spots[..|spots| - 1]);
      CountPush(init, Cub(spots[|spots| - 1]), Lion);
      init + [Cub(spots[|spots| - 1])]
  }

  /** Every lion of the initial pride stands within `spawnAreaRadius` of the
      origin on each axis, wherever the spawner is, and carries no hunger. */
  lemma {:induction false} InitialPridePlaced(radius: real, spots: seq<Pos>)
    requires forall i | 0 <= i < |spots| :: OffsetOk(spots[i], radius)
    ensures forall e | e in InitialPride(spots) ::
      e.kind == Lion && WithinSquare(e.pos, Origin, radius) && e.hunger.None?
    decreases |spots|
  {
    if spots != [] {
      InitialPridePlaced(radius, spots[..|spots| - 1]);
    }
  }

  /** Growth is uncapped: however many lions the scene holds, a spawn adds one
      more lion and changes no other kind's count. */
  lemma CubAddsOneLion(es: seq<Entity>, at: Pos)
    ensures Count(es + [Cub(at)], Lion) == Count(es, Lion) + 1
    ensures forall k | k != Lion :: Count(es + [Cub(at)], k) == Count(es, k)
  {
    forall k {
      CountPush(es, Cub(at), k);
    }
  }

  class LionSpawner {
    var initialLionCount: int
    var spawnAreaRadius: real

    constructor (initialLionCount: int, spawnAreaRadius: real)
      ensures this.initialLionCount == initialLionCount && this.spawnAreaRadius == spawnAreaRadius
    {
      this.initialLionCount := initialLionCount;
      this.spawnAreaRadius := spawnAreaRadius;
    }

    /** `SpawnInitialLions`: `initialLionCount` spawns (none when the count is
        negative), each at a point drawn around the origin. */
    method SpawnInitialLions(scene: Scene, spots: seq<Pos>)
      requires |spots| == Iterations(initialLionCount)
      requires forall i | 0 <= i < |spots| :: OffsetOk(spots[i], spawnAreaRadius)
      modifies scene
      ensures scene.entities == old(scene.entities) + InitialPride(spots)
      ensures Count(scene.entities, Lion) == old(Count(scene.entities, Lion)) + Iterations(initialLionCount)
    {
      var i := 0;
      while i < initialLionCount
        invariant 0 <= i <= |spots|
        invariant scene.entities == old(scene.entities) + InitialPride(spots[..i])
      {
        assert spots[..i + 1][..i] == spots[..i];
        SpawnLionAtPosition(scene, spots[i]);
        i := i + 1;
      }
      assert spots[..i] == spots;
      CountAppend(old(scene.entities), InitialPride(spots), Lion);
    }

    /** `SpawnLionAtPosition`: one lion exactly at `spawnPosition`. */
    method SpawnLionAtPosition(scene: Scene, spawnPosition: Pos)
      modifies scene
      ensures scene.entities == old(scene.entities) + [Cub(spawnPosition)]
      ensures Count(scene.entities, Lion) == old(Count(scene.entities, Lion)) + 1
    {
      scene.Instantiate(Entity(Lion, spawnPosition, None));
      CubAddsOneLion(old(scene.entities), spawnPosition);
    }
  }
}
