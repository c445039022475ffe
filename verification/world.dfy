/** Shared vocabulary of the ecosystem model: positions, the callbacks an agent
    schedules with `Invoke`, the requests an agent makes of the scene, and the
    geometry and random draws that the engine supplies to one step. */
module World {

  datatype Option<T> = None | Some(value: T)

  /** A point of the 2D arena (Unity's `Vector2`, with exact reals). */
  datatype Pos = Pos(x: real, y: real)

  /** The two methods an agent schedules with `Invoke(name, delay)`:
      `CompleteEating` after a meal and `DestroySheep`/`DestroyWolf`/`DestroyLion`
      after entering `Dead`. */
  datatype Callback = CompleteEating | DestroySelf

  /** One pending `Invoke`: the callback fires once, on the first tick whose
      clock has reached `due`. */
  datatype Pending = Pending(callback: Callback, due: real)

  /** A request an agent makes of the scene during a step. */
  datatype Effect =
    | DestroyTarget(index: nat)  // `Destroy(target)` of the index-th entry of the sight
    | SpawnAt(pos: Pos)          // the spawner's `Spawn...AtPosition(pos)`

  /** The geometry of one target scan, supplied by the engine: the distances
      from the agent to every live target of the kind it hunts, in the
      registry's iteration order; where `Vector2.MoveTowards` leaves the agent
      in this step's movement; and whether it then stands within 0.5 units of
      the nearest target. */
  datatype Sight = Sight(distances: seq<real>, moveTo: Pos, close: bool)

  /** The `Random.Range` values one step may draw: the idle time set when Idle
      gives way to Walking, the one set when the eating timer runs out, the one
      set by `CompleteEating`, and a fresh random walk target. */
  datatype Draws = Draws(walkIdle: real, eatIdle: real, completeIdle: real, target: Pos)

  /** The new state of an agent together with the requests it made. */
  datatype Step<T> = Step(after: T, effects: seq<Effect>)

  /** `eatingTime` of all three agents. */
  const EatingTime: real := 3.0
  /** The delay of the `Invoke` that destroys a dead agent. */
  const DestroyDelay: real := 5.0
  /** `changeDirectionTime` of all three agents. */
  const ChangeDirectionTime: real := 5.0

  /** The interval hunger provably stays in: decrements happen only from a
      positive value (so the floor is -9) and meals clamp at 100. */
  predicate HungerInRange(h: int) {
    -10 < h <= 100
  }

  /** Hunger after a meal: 50 more, clamped at 100. */
  function Fed(hunger: int): (r: int)
    ensures r <= 100
    ensures hunger + 50 <= 100 ==> r == hunger + 50
    ensures hunger + 50 >= 100 ==> r == 100
    ensures HungerInRange(hunger) ==> HungerInRange(r) && r >= hunger
  {
    if hunger + 50 >= 100 then 100 else hunger + 50
  }

  /** `after` keeps every callback of `before`, in order, and adds only
      callbacks that are due strictly after `now`. */
  predicate Extends(before: seq<Pending>, after: seq<Pending>, now: real) {
    before <= after && forall i | |before| <= i < |after| :: after[i].due > now
  }

  /** The index the source's scan settles on: it starts from the first entry
      and moves only to a strictly smaller distance, so it is the first entry
      of minimal distance. */
  function FirstNearest(d: seq<real>): (k: nat)
    requires |d| > 0
    ensures k < |d|
    ensures forall j | 0 <= j < |d| :: d[k] <= d[j]
    ensures forall j | 0 <= j < k :: d[k] < d[j]
    decreases |d|
  {
    if |d| == 1 then 0
    else
      var k := FirstNearest(d[..|d| - 1]);
      if d[|d| - 1] < d[k] then |d| - 1 else k
  }

  /** Any index that is minimal and strictly below every earlier entry is the
      one `FirstNearest` picks: a later tie never wins. */
  lemma FirstNearestIsUnique(d: seq<real>, k: nat)
    requires k < |d|
    requires forall j | 0 <= j < |d| :: d[k] <= d[j]
    requires forall j | 0 <= j < k :: d[k] < d[j]
    ensures k == FirstNearest(d)
  {
  }

  /** The nearest-target scan of `FindFood`, `FindSheep` and `FindWolf`: a
      running minimum over the distances, replaced only by a strictly smaller
      one. */
  method Nearest(d: seq<real>) returns (k: nat)
    requires |d| > 0
    ensures k == FirstNearest(d)
    ensures forall j | 0 <= j < |d| :: d[k] <= d[j]
    ensures forall j | 0 <= j < k :: d[k] < d[j]
  {
    k := 0;
    var minDistance := d[0];
    for i := 0 to |d|
      invariant k < |d| && minDistance == d[k]
      invariant 0 < i ==> k == FirstNearest(d[..i])
      invariant i == 0 ==> k == 0
    {
      if d[i] < minDistance {
        minDistance := d[i];
        k := i;
      }
      assert d[..i + 1][..i] == d[..i];
    }
    assert d[..|d|] == d;
  }
}
