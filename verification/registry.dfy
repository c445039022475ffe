/** The scene as the spawners see it: the live objects, each with its tag, its
    position and the hunger written into it at spawn time (if any). The
    engine's `Instantiate` appends to it; `FindGameObjectsWithTag(...).Length`
    is `Count`. */
module Registry {
  import opened World

  /** The tags the source looks objects up by. */
  datatype Kind = Fruit | Sheep | Wolf | Lion

  /** One live object; `hunger` is the value a spawner wrote into it, `None`
      where the spawner writes none. */
  datatype Entity = Entity(kind: Kind, pos: Pos, hunger: Option<int>)

  /** How many objects of kind `k` the scene holds. */
  function Count(es: seq<Entity>, k: Kind): (n: nat)
    ensures n <= |es|
    ensures n == 0 <==> forall i | 0 <= i < |es| :: es[i].kind != k
    decreases |es|
  {
    if es == [] then 0
    else Count(es[..|es| - 1], k) + (if es[|es| - 1].kind == k then 1 else 0)
  }

  /** Counting distributes over the concatenation of two scenes. */
  lemma {:induction false} CountAppend(a: seq<Entity>, b: seq<Entity>, k: Kind)
    ensures Count(a + b, k) == Count(a, k) + Count(b, k)
    decreases |b|
  {
    if b != [] {
      assert (a + b)[..|a + b| - 1] == a + b[..|b| - 1];
      CountAppend(a, b[..|b| - 1], k);
    } else {
      assert a + b == a;
    }
  }

  /** Adding one object raises the count of its kind by one and leaves every
      other kind's count alone, whatever the scene held before. */
  lemma CountPush(es: seq<Entity>, e: Entity, k: Kind)
    ensures Count(es + [e], k) == Count(es, k) + (if e.kind == k then 1 else 0)
  {
    assert (es + [e])[..|es|] == es;
  }

  /** How often `for (int i = 0; i < n; i++)` runs its body. */
  function Iterations(n: int): nat {
    if n < 0 then 0 else n
  }

  /** `centre` moved by `offset` on each axis. */
  function Offset(centre: Pos, offset: Pos): Pos {
    Pos(centre.x + offset.x, centre.y + offset.y)
  }

  /** Whether `p` lies within `radius` of `centre` on each axis, the square
      that `Random.Range(-radius, radius)` per axis covers. */
  predicate WithinSquare(p: Pos, centre: Pos, radius: real) {
    centre.x - radius <= p.x <= centre.x + radius && centre.y - radius <= p.y <= centre.y + radius
  }

  /** An offset drawn with `Random.Range(-radius, radius)` on each axis. */
  predicate OffsetOk(offset: Pos, radius: real) {
    -radius <= offset.x <= radius && -radius <= offset.y <= radius
  }

  lemma OffsetWithinSquare(centre: Pos, offset: Pos, radius: real)
    requires OffsetOk(offset, radius)
    ensures WithinSquare(Offset(centre, offset), centre, radius)
  {
  }

  /** The scene: the objects `Instantiate` has created and nothing has removed. */
  class Scene {
    var entities: seq<Entity>

    constructor ()
      ensures entities == []
    {
      entities := [];
    }

    /** `Instantiate`: the new object joins the scene. */
    method Instantiate(e: Entity)
      modifies this
      ensures entities == old(entities) + [e]
    {
      entities := entities + [e];
    }
  }
}
