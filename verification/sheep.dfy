/** The sheep: a state machine that wanders, loses hunger while it walks or
    looks for food, eats the nearest fruit, asks for a lamb after each meal and
    dies of hunger or old age.

    `SheepData` is the value of a sheep's fields; the functions `After...` say
    what each handler of the source does to them, and the class `Sheep` runs
    the same handlers step by step on its own fields, each method proved equal
    to its function. */
module SheepAgent {
  import opened World

  datatype SheepState = Idle | Walking | Eating | FindFood | Dead

  /** `hungerDecreaseInterval`: seconds of walking or searching per hunger point lost (10 at a time). */
  const HungerDecreaseInterval: real := 2.0
  /** `maxLifeTime` */
  const MaxLifeTime: real := 30.0
  /** A walking sheep whose hunger falls to this or below starts looking for food. */
  const SeekThreshold: int := 60

  /** The ranges of the source's `Random.Range` calls: `Idle` draws in [3,8],
      `Eating()` in [1,5], `CompleteEating` in [1,3]. */
  predicate DrawsOk(d: Draws) {
    3.0 <= d.walkIdle <= 8.0 && 1.0 <= d.eatIdle <= 5.0 && 1.0 <= d.completeIdle <= 3.0
  }

  /** The fields of a sheep. `clock` is the simulated time, `pending` the
      callbacks scheduled with `Invoke`, `destroyed` whether `Destroy` has
      removed the sheep from the scene. */
  datatype SheepData = SheepData(
    state: SheepState,
    hunger: int,
    hungerTimer: real,
    lifeTimer: real,
    idleTimer: real,
    eatingTimer: real,
    timer: real,
    position: Pos,
    target: Pos,
    clock: real,
    pending: seq<Pending>,
    destroyed: bool)

  /** What every handler leaves alone: the clock, the lifetime, the removal
      flag, and the callbacks already scheduled (it only adds future ones). */
  predicate Framed(s: SheepData, r: SheepData) {
    r.clock == s.clock && r.lifeTimer == s.lifeTimer && r.destroyed == s.destroyed
    && Extends(s.pending, r.pending, s.clock)
  }

  /** `StartState(next)`: the entry action (only `Dead` has one that matters:
      it schedules the sheep's destruction 5 seconds later), then the state. */
  function Entered(s: SheepData, next: SheepState): (r: SheepData)
    ensures r.state == next
    ensures r.pending == s.pending + (if next == Dead then [Pending(DestroySelf, s.clock + DestroyDelay)] else [])
    ensures r.(state := s.state, pending := s.pending) == s
  {
    var s' := if next == Dead then s.(pending := s.pending + [Pending(DestroySelf, s.clock + DestroyDelay)]) else s;
    s'.(state := next)
  }

  /** `Idle()`: count the idle time down; once it is used up, walk and draw a new one. */
  function AfterIdle(s: SheepData, dt: real, d: Draws): (r: SheepData)
    ensures s.idleTimer - dt <= 0.0 ==> r.state == Walking && r.idleTimer == d.walkIdle
    ensures s.idleTimer - dt > 0.0 ==> r == s.(idleTimer := s.idleTimer - dt)
    ensures r.hunger == s.hunger && Framed(s, r)
  {
    var t := s.idleTimer - dt;
    if t <= 0.0 then Entered(s.(idleTimer := t), Walking).(idleTimer := d.walkIdle)
    else s.(idleTimer := t)
  }

  /** Whether this step's hunger accumulator reaches the interval while the
      sheep still has hunger to lose: the only case in which hunger drops. */
  predicate DecayDue(s: SheepData, dt: real) {
    s.hungerTimer + dt >= HungerDecreaseInterval && s.hunger > 0
  }

  /** The hunger accounting shared by `Move` and `FindFood`. */
  function Decayed(s: SheepData, dt: real): (r: SheepData)
    ensures r.hunger == (if DecayDue(s, dt) then s.hunger - 10 else s.hunger)
    ensures r.hungerTimer == (if DecayDue(s, dt) then 0.0 else s.hungerTimer + dt)
    ensures r.(hunger := s.hunger, hungerTimer := s.hungerTimer) == s
  {
    if DecayDue(s, dt) then s.(hunger := s.hunger - 10, hungerTimer := 0.0)
    else s.(hungerTimer := s.hungerTimer + dt)
  }

  /** The walking half of `Move()`: step towards the target, and draw a new
      target once more than `changeDirectionTime` seconds have passed. */
  function Walked(s: SheepData, dt: real, sight: Sight, d: Draws): (r: SheepData)
    ensures r.position == sight.moveTo
    ensures s.timer + dt > ChangeDirectionTime ==> r.timer == 0.0 && r.target == d.target
    ensures s.timer + dt <= ChangeDirectionTime ==> r.timer == s.timer + dt && r.target == s.target
    ensures r.(position := s.position, timer := s.timer, target := s.target) == s
  {
    var s1 := s.(position := sight.moveTo, timer := s.timer + dt);
    if s1.timer > ChangeDirectionTime then s1.(target := d.target, timer := 0.0) else s1
  }

  /** `Move()`: walk, pick a new random target every `changeDirectionTime`
      seconds, and lose hunger; a loss to 60 or less starts the search for food
      and a loss to 0 or less kills the sheep. */
  function AfterMove(s: SheepData, dt: real, sight: Sight, d: Draws): (r: SheepData)
    requires s.state == Walking
    ensures r.hunger == (if DecayDue(s, dt) then s.hunger - 10 else s.hunger)
    ensures r.hungerTimer == (if DecayDue(s, dt) then 0.0 else s.hungerTimer + dt)
    ensures DecayDue(s, dt) && r.hunger <= 0 ==> r.state == Dead
    ensures DecayDue(s, dt) && 0 < r.hunger <= SeekThreshold ==> r.state == FindFood
    ensures !DecayDue(s, dt) || r.hunger > SeekThreshold ==> r.state == Walking
    ensures r.position == sight.moveTo && Framed(s, r)
  {
    var s2 := Walked(s, dt, sight, d);
    var s3 := Decayed(s2, dt);
    if DecayDue(s2, dt) then
      var s4 := if s3.hunger <= SeekThreshold && s3.state != FindFood then Entered(s3, FindFood) else s3;
      if s4.hunger <= 0 then Entered(s4, Dead) else s4
    else s3
  }

  /** `Eating()`, the timer-only handler: once `eatingTime` has passed, reset
      the timer, go idle and draw an idle time. */
  function AfterEatingTimer(s: SheepData, dt: real, d: Draws): (r: SheepData)
    ensures s.eatingTimer + dt >= EatingTime ==> r.state == Idle && r.eatingTimer == 0.0 && r.idleTimer == d.eatIdle
    ensures s.eatingTimer + dt < EatingTime ==> r == s.(eatingTimer := s.eatingTimer + dt)
    ensures r.hunger == s.hunger && Framed(s, r)
  {
    var t := s.eatingTimer + dt;
    if t >= EatingTime then Entered(s.(eatingTimer := 0.0), Idle).(idleTimer := d.eatIdle)
    else s.(eatingTimer := t)
  }

  /** `Eating(food)`, the consume edge: a missing food changes nothing;
      otherwise hunger rises by 50 up to 100, the food is destroyed, the sheep
      eats and `CompleteEating` is scheduled `eatingTime` later. A sheep eats
      whatever its state, `Dead` included. */
  function AfterConsume(s: SheepData, food: Option<nat>): (r: Step<SheepData>)
    ensures food.None? ==> r == Step(s, [])
    ensures food.Some? ==> r.after.hunger == Fed(s.hunger) && r.after.state == Eating
    ensures food.Some? ==> r.after.pending == s.pending + [Pending(CompleteEating, s.clock + EatingTime)]
    ensures food.Some? ==> r.effects == [DestroyTarget(food.value)]
    ensures Framed(s, r.after) && r.after.position == s.position
  {
    match food
    case None => Step(s, [])
    case Some(f) =>
      var fed := Entered(s.(hunger := Fed(s.hunger)), Eating);
      Step(fed.(pending := fed.pending + [Pending(CompleteEating, fed.clock + EatingTime)]), [DestroyTarget(f)])
  }

  /** `CompleteEating()`: ask the sheep spawner for one lamb where the sheep
      stands, then go idle with a fresh idle time. */
  function AfterCompleteEating(s: SheepData, d: Draws): (r: Step<SheepData>)
    ensures r.effects == [SpawnAt(s.position)]
    ensures r.after.state == Idle && r.after.idleTimer == d.completeIdle
    ensures r.after.hunger == s.hunger && r.after.pending == s.pending && r.after.position == s.position
    ensures r.after.clock == s.clock && r.after.lifeTimer == s.lifeTimer && r.after.destroyed == s.destroyed
  {
    Step(Entered(s, Idle).(idleTimer := d.completeIdle), [SpawnAt(s.position)])
  }

  /** The end of `FindFood` once the sheep has moved: eat the nearest food if
      it is within reach and the sheep is not already eating. */
  function Arrive(s: SheepData, sight: Sight, nearest: nat): (r: Step<SheepData>)
    ensures sight.close && s.state != Eating ==> r == AfterConsume(s, Some(nearest))
    ensures !(sight.close && s.state != Eating) ==> r == Step(s, [])
  {
    if sight.close && s.state != Eating then AfterConsume(s, Some(nearest)) else Step(s, [])
  }

  /** Whether `FindFood` starves the sheep in this step. */
  predicate StarvesSeeking(s: SheepData, dt: real) {
    DecayDue(s, dt) && s.hunger - 10 <= 0
  }

  /** `FindFood()`: with no fruit in the scene, walk again; otherwise move
      towards the nearest fruit (the first of minimal distance), lose hunger
      (dying at 0 or less) and eat the fruit if it is within 0.5 units. */
  function AfterFindFood(s: SheepData, dt: real, sight: Sight, d: Draws): (r: Step<SheepData>)
    requires s.state == FindFood
    ensures |sight.distances| == 0 ==> r == Step(s.(state := Walking), [])
    ensures |sight.distances| > 0 ==> r.after.position == sight.moveTo
    ensures |sight.distances| > 0 && StarvesSeeking(s, dt) ==> r.after.state == Dead && r.effects == []
    ensures |sight.distances| > 0 && !StarvesSeeking(s, dt) && sight.close ==>
      && r.after.state == Eating
      && r.after.hunger == Fed(Decayed(s, dt).hunger)
      && r.effects == [DestroyTarget(FirstNearest(sight.distances))]
    ensures |sight.distances| > 0 && !StarvesSeeking(s, dt) && !sight.close ==>
      r.after.state == FindFood && r.after.hunger == Decayed(s, dt).hunger && r.effects == []
    ensures Framed(s, r.after)
  {
    if |sight.distances| == 0 then Step(Entered(s, Walking), [])
    else
      var nearest := FirstNearest(sight.distances);
      var s1 := Decayed(s.(position := sight.moveTo), dt);
      if DecayDue(s, dt) && s1.hunger <= 0 then Step(Entered(s1, Dead), [])
      else Arrive(s1, sight, nearest)
  }

  /** `UpdateState()`: run the handler of the current state. Hunger changes
      only while walking or searching; a dead sheep does nothing. */
  function AfterUpdateState(s: SheepData, dt: real, sight: Sight, d: Draws): (r: Step<SheepData>)
    ensures s.state == Dead ==> r == Step(s, [])
    ensures s.state in {Idle, Eating, Dead} ==> r.after.hunger == s.hunger && r.effects == []
    ensures s.state == Walking ==> r.effects == []
    ensures Framed(s, r.after)
  {
    match s.state
    case Idle => Step(AfterIdle(s, dt, d), [])
    case Walking => Step(AfterMove(s, dt, sight, d), [])
    case FindFood => AfterFindFood(s, dt, sight, d)
    case Eating => Step(AfterEatingTimer(s, dt, d), [])
    case Dead => Step(s, [])
  }

  /** `Update()`: the state handler, then the lifetime; a sheep whose lifetime
      has reached `maxLifeTime` ends the update dead, whatever the handler did,
      and schedules its destruction again on every later update. */
  function AfterUpdate(s: SheepData, dt: real, sight: Sight, d: Draws): (r: Step<SheepData>)
    ensures r.after.lifeTimer == s.lifeTimer + dt
    ensures s.lifeTimer + dt >= MaxLifeTime ==> r.after.state == Dead
    ensures s.lifeTimer + dt >= MaxLifeTime ==>
      r.after.pending == AfterUpdateState(s, dt, sight, d).after.pending + [Pending(DestroySelf, s.clock + DestroyDelay)]
    ensures s.lifeTimer + dt < MaxLifeTime ==> r.after.state == AfterUpdateState(s, dt, sight, d).after.state
    ensures r.after.hunger == AfterUpdateState(s, dt, sight, d).after.hunger
    ensures r.effects == AfterUpdateState(s, dt, sight, d).effects
    ensures r.after.clock == s.clock && r.after.destroyed == s.destroyed && Extends(s.pending, r.after.pending, s.clock)
  {
    var u := AfterUpdateState(s, dt, sight, d);
    var a := u.after.(lifeTimer := u.after.lifeTimer + dt);
    Step(if a.lifeTimer >= MaxLifeTime then Entered(a, Dead) else a, u.effects)
  }

  /** Whether none of `evs` is a `CompleteEating` that is due at `now`. */
  predicate NoMealDue(evs: seq<Pending>, now: real) {
    forall i | 0 <= i < |evs| :: evs[i].callback == CompleteEating ==> evs[i].due > now
  }

  /** The callbacks of `evs` that are due fire in order: `CompleteEating` as
      above, `DestroySelf` removes the sheep and with it every other callback.
      Callbacks not yet due are kept, in order, after `kept`. */
  function AfterDueEvents(s: SheepData, evs: seq<Pending>, kept: seq<Pending>, d: Draws): (r: Step<SheepData>)
    ensures r.after.hunger == s.hunger && r.after.clock == s.clock && r.after.lifeTimer == s.lifeTimer
    ensures NoMealDue(evs, s.clock) ==> r.after.state == s.state && r.effects == []
    ensures forall e | e in r.effects :: e == SpawnAt(s.position)
    ensures !r.after.destroyed ==> !s.destroyed
    decreases |evs|
  {
    if evs == [] then Step(s.(pending := kept), [])
    else if evs[0].due > s.clock then AfterDueEvents(s, evs[1..], kept + [evs[0]], d)
    else if evs[0].callback == DestroySelf then Step(s.(destroyed := true, pending := []), [])
    else
      var c := AfterCompleteEating(s, d);
      var rest := AfterDueEvents(c.after, evs[1..], kept, d);
      Step(rest.after, c.effects + rest.effects)
  }

  /** `AfterDueEvents` on the callbacks from index `i` on, one callback at a time. */
  lemma DueEventsStep(s: SheepData, evs: seq<Pending>, i: nat, kept: seq<Pending>, d: Draws)
    requires i < |evs|
    ensures evs[i].due > s.clock ==>
      AfterDueEvents(s, evs[i..], kept, d) == AfterDueEvents(s, evs[i + 1..], kept + [evs[i]], d)
    ensures evs[i].due <= s.clock && evs[i].callback == DestroySelf ==>
      AfterDueEvents(s, evs[i..], kept, d) == Step(s.(destroyed := true, pending := []), [])
    ensures evs[i].due <= s.clock && evs[i].callback != DestroySelf ==>
      var c := AfterCompleteEating(s, d);
      var rest := AfterDueEvents(c.after, evs[i + 1..], kept, d);
      AfterDueEvents(s, evs[i..], kept, d) == Step(rest.after, c.effects + rest.effects)
  {
    assert evs[i..][0] == evs[i] && evs[i..][1..] == evs[i + 1..];
  }

  /** One frame: a removed sheep does nothing; otherwise the clock advances,
      `Update` runs, and then the callbacks that have come due fire. */
  function AfterTick(s: SheepData, dt: real, sight: Sight, d: Draws): (r: Step<SheepData>)
    ensures s.destroyed ==> r == Step(s, [])
    ensures !s.destroyed ==> r.after.clock == s.clock + dt && r.after.lifeTimer == s.lifeTimer + dt
  {
    if s.destroyed then Step(s, [])
    else
      var u := AfterUpdate(s.(clock := s.clock + dt), dt, sight, d);
      var f := AfterDueEvents(u.after, u.after.pending, [], d);
      Step(f.after, u.effects + f.effects)
  }

  /** A frame of a sheep still in the scene, stage by stage. */
  lemma TickStages(s: SheepData, dt: real, sight: Sight, d: Draws)
    requires !s.destroyed
    ensures AfterTick(s, dt, sight, d).after ==
      AfterDueEvents(AfterUpdate(s.(clock := s.clock + dt), dt, sight, d).after,
                     AfterUpdate(s.(clock := s.clock + dt), dt, sight, d).after.pending, [], d).after
    ensures AfterTick(s, dt, sight, d).effects ==
      AfterUpdate(s.(clock := s.clock + dt), dt, sight, d).effects
      + AfterDueEvents(AfterUpdate(s.(clock := s.clock + dt), dt, sight, d).after,
                       AfterUpdate(s.(clock := s.clock + dt), dt, sight, d).after.pending, [], d).effects
  {
  }

  /** `OnTriggerEnter2D` with a fruit: the consume edge, for a sheep still in the scene. */
  function AfterCollide(s: SheepData, food: nat): (r: Step<SheepData>)
    ensures s.destroyed ==> r == Step(s, [])
    ensures !s.destroyed ==> r.after.state == Eating && r.after.hunger == Fed(s.hunger)
    ensures !s.destroyed ==> r.after.pending == s.pending + [Pending(CompleteEating, s.clock + EatingTime)]
    ensures !s.destroyed ==> r.effects == [DestroyTarget(food)]
  {
    if s.destroyed then Step(s, []) else AfterConsume(s, Some(food))
  }

  /** What can happen to a sheep between two observations: a frame, or a
      collision with the index-th fruit. */
  datatype Occurrence = Frame(dt: real, sight: Sight, draws: Draws) | Touch(food: nat)

  function Apply(s: SheepData, o: Occurrence): SheepData {
    match o
    case Frame(dt, sight, d) => AfterTick(s, dt, sight, d).after
    case Touch(food) => AfterCollide(s, food).after
  }

  function Run(s: SheepData, os: seq<Occurrence>): SheepData
    decreases |os|
  {
    if os == [] then s else Run(Apply(s, os[0]), os[1..])
  }

  // ---------------------------------------------------------------------
  // Properties

  /** Hunger stays in (-10, 100] across one frame. */
  lemma TickKeepsHungerInRange(s: SheepData, dt: real, sight: Sight, d: Draws)
    requires HungerInRange(s.hunger)
    ensures HungerInRange(AfterTick(s, dt, sight, d).after.hunger)
  {
  }

  /** Hunger stays in (-10, 100] across any sequence of frames and collisions;
      it can go below 0 (down to -9) but never below -10. */
  lemma {:induction false} RunKeepsHungerInRange(s: SheepData, os: seq<Occurrence>)
    requires HungerInRange(s.hunger)
    ensures HungerInRange(Run(s, os).hunger)
    decreases |os|
  {
    if os != [] {
      if os[0].Frame? {
        TickKeepsHungerInRange(s, os[0].dt, os[0].sight, os[0].draws);
      }
      RunKeepsHungerInRange(Apply(s, os[0]), os[1..]);
    }
  }

  /** A sheep whose lifetime runs out in this frame ends the frame dead unless
      a meal it finished earlier completes in the same frame: `Dead` is not
      absorbing, a due `CompleteEating` turns it Idle again. */
  lemma LifetimeExpiryEndsFrameDead(s: SheepData, dt: real, sight: Sight, d: Draws)
    requires !s.destroyed
    requires s.lifeTimer + dt >= MaxLifeTime
    requires NoMealDue(s.pending, s.clock + dt)
    ensures AfterTick(s, dt, sight, d).after.state == Dead
  {
    var s1 := s.(clock := s.clock + dt);
    var u := AfterUpdate(s1, dt, sight, d);
    assert Extends(s.pending, u.after.pending, s1.clock);
    forall i | 0 <= i < |u.after.pending| && u.after.pending[i].callback == CompleteEating
      ensures u.after.pending[i].due > s1.clock
    {
      if i < |s.pending| {
        assert u.after.pending[i] == s.pending[i];
      }
    }
    assert NoMealDue(u.after.pending, u.after.clock);
  }

  /** A dead sheep that touches a fruit eats it: hunger rises and it is
      `Eating` again. */
  lemma DeadSheepStillEats(s: SheepData, food: nat)
    requires !s.destroyed && s.state == Dead
    ensures AfterCollide(s, food).after.state == Eating
    ensures AfterCollide(s, food).effects == [DestroyTarget(food)]
  {
  }

  /** Starvation: a walking sheep at hunger 10 that walks for one full
      interval drops to 0 and dies in that frame. */
  lemma StarvationScenario(s: SheepData, sight: Sight, d: Draws)
    requires !s.destroyed && s.state == Walking && s.hunger == 10 && s.hungerTimer == 0.0
    requires s.lifeTimer < MaxLifeTime - HungerDecreaseInterval && s.pending == []
    ensures AfterTick(s, HungerDecreaseInterval, sight, d).after.hunger == 0
    ensures AfterTick(s, HungerDecreaseInterval, sight, d).after.state == Dead
  {
  }

  /** Hunger 5 is positive, so it still loses 10 and lands on -5. */
  lemma HungerCanGoNegative(s: SheepData, sight: Sight, d: Draws)
    requires s.state == Walking && s.hunger == 5 && s.hungerTimer == 0.0
    ensures AfterMove(s, HungerDecreaseInterval, sight, d).hunger == -5
  {
  }

  /** Every idle time the sheep draws lies in the range of its `Random.Range` call. */
  lemma IdleTimesInRange(s: SheepData, dt: real, d: Draws)
    requires DrawsOk(d)
    ensures s.idleTimer - dt <= 0.0 ==> 3.0 <= AfterIdle(s, dt, d).idleTimer <= 8.0
    ensures s.eatingTimer + dt >= EatingTime ==> 1.0 <= AfterEatingTimer(s, dt, d).idleTimer <= 5.0
    ensures 1.0 <= AfterCompleteEating(s, d).after.idleTimer <= 3.0
  {
  }

  // ---------------------------------------------------------------------
  // The sheep object

  class Sheep {
    var currentState: SheepState
    var hungryLevel: int
    var hungerTimer: real
    var lifeTimer: real
    var idleTimer: real
    var eatingTimer: real
    var timer: real
    var position: Pos
    var targetPosition: Pos
    var clock: real
    var pending: seq<Pending>
    var destroyed: bool

    ghost function Data(): SheepData
      reads this
    {
      SheepData(currentState, hungryLevel, hungerTimer, lifeTimer, idleTimer, eatingTimer, timer,
                position, targetPosition, clock, pending, destroyed)
    }

    /** `Instantiate` of the sheep prefab: the field initialisers of the class. */
    constructor (spawnAt: Pos)
      ensures Data() == SheepData(Walking, 100, 0.0, 0.0, 0.0, 0.0, 0.0, spawnAt, Pos(0.0, 0.0), 0.0, [], false)
    {
      currentState := Walking;
      hungryLevel := 100;
      hungerTimer, lifeTimer, idleTimer, eatingTimer, timer := 0.0, 0.0, 0.0, 0.0, 0.0;
      position := spawnAt;
      targetPosition := Pos(0.0, 0.0);
      clock := 0.0;
      pending := [];
      destroyed := false;
    }

    /** `InitializeSheep`: the spawner sets the starting hunger. */
    method InitializeSheep(initialHungryLevel: int)
      modifies this
      ensures Data() == old(Data()).(hunger := initialHungryLevel)
    {
      hungryLevel := initialHungryLevel;
    }

    /** `Start`: a random walk target and an idle time in [5,10]; hunger is left as the spawner set it. */
    method Start(idleDraw: real, target: Pos)
      requires 5.0 <= idleDraw <= 10.0
      modifies this
      ensures Data() == old(Data()).(target := target, idleTimer := idleDraw)
      ensures 5.0 <= idleTimer <= 10.0 && hungryLevel == old(hungryLevel)
    {
      targetPosition := target;
      idleTimer := idleDraw;
    }

    method StartState(next: SheepState)
      modifies this
      ensures Data() == Entered(old(Data()), next)
    {
      if next == Dead {
        pending := pending + [Pending(DestroySelf, clock + DestroyDelay)];
      }
      currentState := next;
    }

    /** `Idle()` */
    method IdleStep(dt: real, d: Draws)
      modifies this
      ensures Data() == AfterIdle(old(Data()), dt, d)
    {
      idleTimer := idleTimer - dt;
      if idleTimer <= 0.0 {
        StartState(Walking);
        idleTimer := d.walkIdle;
      }
    }

    /** `Move()`; the clamp to the camera is part of the supplied `sight.moveTo`. */
    method Move(dt: real, sight: Sight, d: Draws)
      requires currentState == Walking
      modifies this
      ensures Data() == AfterMove(old(Data()), dt, sight, d)
    {
      ghost var s0 := Data();
      position := sight.moveTo;
      timer := timer + dt;
      if timer > ChangeDirectionTime {
        targetPosition := d.target;
        timer := 0.0;
      }
      assert Data() == Walked(s0, dt, sight, d);
      ghost var s2 := Data();
      hungerTimer := hungerTimer + dt;
      if hungerTimer >= HungerDecreaseInterval && hungryLevel > 0 {
        hungryLevel := hungryLevel - 10;
        hungerTimer := 0.0;
        assert Data() == Decayed(s2, dt);
        if hungryLevel <= SeekThreshold && currentState != FindFood {
          StartState(FindFood);
        }
        if hungryLevel <= 0 {
          StartState(Dead);
        }
      }
    }

    /** `Eating()`, the timer-only handler. */
    method AdvanceEating(dt: real, d: Draws)
      modifies this
      ensures Data() == AfterEatingTimer(old(Data()), dt, d)
    {
      eatingTimer := eatingTimer + dt;
      if eatingTimer >= EatingTime {
        eatingTimer := 0.0;
        StartState(Idle);
        idleTimer := d.eatIdle;
      }
    }

    /** `Eating(food)`, the consume edge. */
    method Consume(food: Option<nat>) returns (effects: seq<Effect>)
      modifies this
      ensures Data() == AfterConsume(old(Data()), food).after
      ensures effects == AfterConsume(old(Data()), food).effects
    {
      if food.None? {
        return [];
      }
      hungryLevel := hungryLevel + 50;
      if hungryLevel >= 100 {
        hungryLevel := 100;
      }
      effects := [DestroyTarget(food.value)];
      StartState(Eating);
      pending := pending + [Pending(Callback.CompleteEating, clock + EatingTime)];
    }

    method CompleteEating(d: Draws) returns (effects: seq<Effect>)
      modifies this
      ensures Data() == AfterCompleteEating(old(Data()), d).after
      ensures effects == AfterCompleteEating(old(Data()), d).effects
    {
      effects := [SpawnAt(position)];
      StartState(Idle);
      idleTimer := d.completeIdle;
    }

    /** `FindFood()` */
    method SeekFood(dt: real, sight: Sight, d: Draws) returns (effects: seq<Effect>)
      requires currentState == FindFood
      modifies this
      ensures Data() == AfterFindFood(old(Data()), dt, sight, d).after
      ensures effects == AfterFindFood(old(Data()), dt, sight, d).effects
    {
      effects := [];
      if |sight.distances| > 0 {
        var nearestFood := Nearest(sight.distances);
        position := sight.moveTo;
        hungerTimer := hungerTimer + dt;
        if hungerTimer >= HungerDecreaseInterval && hungryLevel > 0 {
          hungryLevel := hungryLevel - 10;
          hungerTimer := 0.0;
          if hungryLevel <= 0 {
            StartState(Dead);
            return;
          }
        }
        if sight.close && currentState != Eating {
          effects := Consume(Some(nearestFood));
        }
      } else {
        StartState(Walking);
      }
    }

    method UpdateState(dt: real, sight: Sight, d: Draws) returns (effects: seq<Effect>)
      modifies this
      ensures Data() == AfterUpdateState(old(Data()), dt, sight, d).after
      ensures effects == AfterUpdateState(old(Data()), dt, sight, d).effects
    {
      effects := [];
      match currentState
      case Idle => IdleStep(dt, d);
      case Walking => Move(dt, sight, d);
      case FindFood => effects := SeekFood(dt, sight, d);
      case Eating => AdvanceEating(dt, d);
      case Dead =>
    }

    method Update(dt: real, sight: Sight, d: Draws) returns (effects: seq<Effect>)
      modifies this
      ensures Data() == AfterUpdate(old(Data()), dt, sight, d).after
      ensures effects == AfterUpdate(old(Data()), dt, sight, d).effects
    {
      effects := UpdateState(dt, sight, d);
      lifeTimer := lifeTimer + dt;
      if lifeTimer >= MaxLifeTime {
        StartState(Dead);
      }
    }

    /** The engine's side of `Invoke`: fire, in order, every callback that is due. */
    method FireDueEvents(d: Draws) returns (effects: seq<Effect>)
      requires !destroyed
      modifies this
      ensures Data() == AfterDueEvents(old(Data()), old(pending), [], d).after
      ensures effects == AfterDueEvents(old(Data()), old(pending), [], d).effects
    {
      var evs := pending;
      var kept: seq<Pending> := [];
      effects := [];
      ghost var goal := AfterDueEvents(Data(), evs, [], d);
      for i := 0 to |evs|
        invariant !destroyed && pending == evs
        invariant AfterDueEvents(Data(), evs[i..], kept, d).after == goal.after
        invariant effects + AfterDueEvents(Data(), evs[i..], kept, d).effects == goal.effects
      {
        ghost var before := Data();
        var e := evs[i];
        if e.due > clock {
          kept := kept + [e];
          assert AfterDueEvents(Data(), evs[i + 1..], kept, d) == AfterDueEvents(before, evs[i..], kept[..|kept| - 1], d) by {
            DueEventsStep(before, evs, i, kept[..|kept| - 1], d);
          }
        } else if e.callback == DestroySelf {
          destroyed := true;
          pending := [];
          assert Data() == AfterDueEvents(before, evs[i..], kept, d).after by {
            DueEventsStep(before, evs, i, kept, d);
          }
          return;
        } else {
          var fired := CompleteEating(d);
          ghost var rest := AfterDueEvents(Data(), evs[i + 1..], kept, d);
          assert rest.after == goal.after && (effects + fired) + rest.effects == goal.effects by {
            DueEventsStep(before, evs, i, kept, d);
            assert (effects + fired) + rest.effects == effects + (fired + rest.effects);
          }
          effects := effects + fired;
        }
      }
      pending := kept;
    }

    /** One frame of the engine: advance the clock, `Update`, then the due callbacks. */
    method Tick(dt: real, sight: Sight, d: Draws) returns (effects: seq<Effect>)
      modifies this
      ensures Data() == AfterTick(old(Data()), dt, sight, d).after
      ensures effects == AfterTick(old(Data()), dt, sight, d).effects
    {
      if destroyed {
        return [];
      }
      ghost var s0 := Data();
      clock := clock + dt;
      assert Data() == s0.(clock := s0.clock + dt);
      var updated := Update(dt, sight, d);
      var fired := FireDueEvents(d);
      effects := updated + fired;
      TickStages(s0, dt, sight, d);
    }

    /** `OnTriggerEnter2D` with a fruit. */
    method Collide(food: nat) returns (effects: seq<Effect>)
      modifies this
      ensures Data() == AfterCollide(old(Data()), food).after
      ensures effects == AfterCollide(old(Data()), food).effects
    {
      if destroyed {
        return [];
      }
      effects := Consume(Some(food));
    }
  }
}
