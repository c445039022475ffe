/** The wolf: a state machine that wanders, loses hunger in every state, hunts
    the nearest sheep once its hunger is below 45, eats only while that hungry,
    asks for a cub after each meal, starves, and dies when its short lifespan
    runs out.

    `WolfData` is the value of a wolf's fields; the functions `After...` say
    what each handler of the source does to them, and the class `Wolf` runs
    the same handlers on its own fields, each method proved equal to its
    function. */
module WolfAgent {
  import opened World

  datatype WolfState = Idle | Walking | Eating | FindSheep | Dead

  /** `hungerDecreaseInterval` */
  const HungerDecreaseInterval: real := 4.0
  /** `lifespan` */
  const Lifespan: real := 5.0
  /** A wolf hunts, and eats, only while its hunger is below this. */
  const HuntThreshold: int := 45

  /** The ranges of the source's `Random.Range` calls: `Idle` draws in [5,10],
      `Eating()` in [1,5], `CompleteEating` in [1,3]. */
  predicate DrawsOk(d: Draws) {
    5.0 <= d.walkIdle <= 10.0 && 1.0 <= d.eatIdle <= 5.0 && 1.0 <= d.completeIdle <= 3.0
  }

  /** The fields of a wolf, with the simulated `clock`, the callbacks
      scheduled with `Invoke`, and whether `Destroy` has removed it. */
  datatype WolfData = WolfData(
    state: WolfState,
    hunger: int,
    hungerTimer: real,
    lifespanTimer: real,
    idleTimer: real,
    eatingTimer: real,
    timer: real,
    position: Pos,
    target: Pos,
    clock: real,
    pending: seq<Pending>,
    destroyed: bool)

  /** What every handler leaves alone: the clock, the lifespan timer, the
      removal flag, and the callbacks already scheduled. */
  predicate Framed(s: WolfData, r: WolfData) {
    r.clock == s.clock && r.lifespanTimer == s.lifespanTimer && r.destroyed == s.destroyed
    && Extends(s.pending, r.pending, s.clock)
  }

  /** `StartState(next)` for every state but `FindSheep`: the entry action of
      `Dead` schedules the destruction 5 seconds later; then the state is set. */
  function Enter(s: WolfData, next: WolfState): (r: WolfData)
    requires next != FindSheep
    ensures r.state == next
    ensures r.pending == s.pending + (if next == Dead then [Pending(DestroySelf, s.clock + DestroyDelay)] else [])
    ensures r.(state := s.state, pending := s.pending) == s
  {
    var s' := if next == Dead then s.(pending := s.pending + [Pending(DestroySelf, s.clock + DestroyDelay)]) else s;
    s'.(state := next)
  }

  /** `Idle()`: count the idle time down; once used up, walk with a new idle time. */
  function AfterIdle(s: WolfData, dt: real, d: Draws): (r: WolfData)
    ensures s.idleTimer - dt <= 0.0 ==> r.state == Walking && r.idleTimer == d.walkIdle
    ensures s.idleTimer - dt > 0.0 ==> r == s.(idleTimer := s.idleTimer - dt)
    ensures r.hunger == s.hunger && Framed(s, r)
  {
    var t := s.idleTimer - dt;
    if t <= 0.0 then Enter(s.(idleTimer := t), Walking).(idleTimer := d.walkIdle)
    else s.(idleTimer := t)
  }

  /** `Move()`: walk, and pick a new random target every `changeDirectionTime` seconds. */
  function AfterMove(s: WolfData, dt: real, sight: Sight, d: Draws): (r: WolfData)
    ensures r.position == sight.moveTo
    ensures s.timer + dt > ChangeDirectionTime ==> r.target == d.target && r.timer == 0.0
    ensures s.timer + dt <= ChangeDirectionTime ==> r.timer == s.timer + dt && r.target == s.target
    ensures r.(position := s.position, target := s.target, timer := s.timer) == s
  {
    var s1 := s.(position := sight.moveTo, timer := s.timer + dt);
    if s1.timer > ChangeDirectionTime then s1.(target := d.target, timer := 0.0) else s1
  }

  /** `Eating()`, the timer-only handler. */
  function AfterEatingTimer(s: WolfData, dt: real, d: Draws): (r: WolfData)
    ensures s.eatingTimer + dt >= EatingTime ==> r.state == Idle && r.eatingTimer == 0.0 && r.idleTimer == d.eatIdle
    ensures s.eatingTimer + dt < EatingTime ==> r == s.(eatingTimer := s.eatingTimer + dt)
    ensures r.hunger == s.hunger && Framed(s, r)
  {
    var t := s.eatingTimer + dt;
    if t >= EatingTime then Enter(s.(eatingTimer := 0.0), Idle).(idleTimer := d.eatIdle)
    else s.(eatingTimer := t)
  }

  /** `Eating(sheep)`, the consume edge: a wolf that is not hungry (hunger of
      45 or more), or a missing sheep, changes nothing; otherwise the sheep is
      destroyed, hunger becomes min(100, hunger + 50), the wolf eats and
      `CompleteEating` is scheduled `eatingTime` later. */
  function AfterConsume(s: WolfData, sheep: Option<nat>): (r: Step<WolfData>)
    ensures s.hunger >= HuntThreshold || sheep.None? ==> r == Step(s, [])
    ensures s.hunger < HuntThreshold && sheep.Some? ==>
      && r.after.hunger == Fed(s.hunger)
      && r.after.state == Eating
      && r.after.pending == s.pending + [Pending(CompleteEating, s.clock + EatingTime)]
      && r.effects == [DestroyTarget(sheep.value)]
    ensures Framed(s, r.after) && r.after.position == s.position
  {
    if s.hunger < HuntThreshold && sheep.Some? then
      var fed := Enter(s.(hunger := Fed(s.hunger)), Eating);
      Step(fed.(pending := fed.pending + [Pending(CompleteEating, fed.clock + EatingTime)]), [DestroyTarget(sheep.value)])
    else Step(s, [])
  }

  /** `CompleteEating()`: go idle with a fresh idle time, and ask the wolf
      spawner for one cub where the wolf stands. */
  function AfterCompleteEating(s: WolfData, d: Draws): (r: Step<WolfData>)
    ensures r.effects == [SpawnAt(s.position)]
    ensures r.after.state == Idle && r.after.idleTimer == d.completeIdle
    ensures r.after.hunger == s.hunger && r.after.pending == s.pending && r.after.position == s.position
    ensures r.after.clock == s.clock && r.after.lifespanTimer == s.lifespanTimer && r.after.destroyed == s.destroyed
  {
    Step(Enter(s, Idle).(idleTimer := d.completeIdle), [SpawnAt(s.position)])
  }

  /** `FindSheep()`: with no sheep in the scene nothing at all happens (the
      wolf stays where and as it is); otherwise it moves towards the nearest
      sheep and tries to eat it once within 0.5 units. */
  function AfterFindSheep(s: WolfData, sight: Sight): (r: Step<WolfData>)
    ensures |sight.distances| == 0 ==> r == Step(s, [])
    ensures |sight.distances| > 0 && !sight.close ==> r == Step(s.(position := sight.moveTo), [])
    ensures |sight.distances| > 0 && sight.close ==>
      r == AfterConsume(s.(position := sight.moveTo), Some(FirstNearest(sight.distances)))
    ensures Framed(s, r.after)
  {
    if |sight.distances| == 0 then Step(s, [])
    else
      var nearest := FirstNearest(sight.distances);
      var s1 := s.(position := sight.moveTo);
      if sight.close then AfterConsume(s1, Some(nearest)) else Step(s1, [])
  }

  /** `StartState(next)`: for `FindSheep` the entry action is a whole
      `FindSheep()`, which may eat and so set the state to `Eating`; the
      assignment that follows sets it back, so the wolf always ends in `next`. */
  function AfterStartState(s: WolfData, next: WolfState, sight: Sight): (r: Step<WolfData>)
    ensures r.after.state == next
    ensures next != FindSheep ==> r == Step(Enter(s, next), [])
    ensures next == FindSheep ==> r.after == AfterFindSheep(s, sight).after.(state := FindSheep)
    ensures next == FindSheep ==> r.effects == AfterFindSheep(s, sight).effects
    ensures Framed(s, r.after)
  {
    if next == FindSheep then
      var f := AfterFindSheep(s, sight);
      Step(f.after.(state := FindSheep), f.effects)
    else Step(Enter(s, next), [])
  }

  /** `UpdateState()`: run the handler of the current state. */
  function AfterUpdateState(s: WolfData, dt: real, sight: Sight, d: Draws): (r: Step<WolfData>)
    ensures s.state == Dead ==> r == Step(s, [])
    ensures s.state != FindSheep ==> r.effects == [] && r.after.hunger == s.hunger
    ensures s.state == FindSheep ==> r == AfterFindSheep(s, sight)
    ensures Framed(s, r.after)
  {
    match s.state
    case Idle => Step(AfterIdle(s, dt, d), [])
    case Walking => Step(AfterMove(s, dt, sight, d), [])
    case Eating => Step(AfterEatingTimer(s, dt, d), [])
    case FindSheep => AfterFindSheep(s, sight)
    case Dead => Step(s, [])
  }

  /** Whether this step's hunger accumulator reaches the interval while the
      wolf still has hunger to lose. */
  predicate DecayDue(s: WolfData, dt: real) {
    s.hungerTimer + dt >= HungerDecreaseInterval && s.hunger > 0
  }

  /** `DecreaseHungerOverTime()`, in every state: every 4 seconds hunger drops
      by exactly 10 if it is still positive, and a drop to 0 or less kills. */
  function AfterDecay(s: WolfData, dt: real): (r: WolfData)
    ensures r.hunger == (if DecayDue(s, dt) then s.hunger - 10 else s.hunger)
    ensures r.hungerTimer == (if DecayDue(s, dt) then 0.0 else s.hungerTimer + dt)
    ensures DecayDue(s, dt) && r.hunger <= 0 ==> r == Enter(s.(hunger := r.hunger, hungerTimer := 0.0), Dead)
    ensures !(DecayDue(s, dt) && r.hunger <= 0) ==> r.state == s.state && r.pending == s.pending
    ensures Framed(s, r)
  {
    var s1 := s.(hungerTimer := s.hungerTimer + dt);
    if s1.hungerTimer >= HungerDecreaseInterval && s1.hunger > 0 then
      var s2 := s1.(hunger := s1.hunger - 10, hungerTimer := 0.0);
      if s2.hunger <= 0 then Enter(s2, Dead) else s2
    else s1
  }

  /** Whether `Update` turns the wolf to the hunt: hungry, and neither dead nor eating. */
  predicate Hunts(s: WolfData) {
    s.hunger < HuntThreshold && s.state != Dead && s.state != Eating
  }

  /** `Update()`: the state handler, the hunger decay, the switch to the hunt
      (which runs a second `FindSheep` with the geometry `relook`), and last
      the lifespan, whose expiry kills the wolf whatever came before. */
  function AfterUpdate(s: WolfData, dt: real, look: Sight, relook: Sight, d: Draws): (r: Step<WolfData>)
    ensures r.after.lifespanTimer == s.lifespanTimer + dt
    ensures s.lifespanTimer + dt >= Lifespan ==> r.after.state == Dead
    ensures r.after.clock == s.clock && r.after.destroyed == s.destroyed && Extends(s.pending, r.after.pending, s.clock)
  {
    var u := AfterUpdateState(s, dt, look, d);
    var a := AfterDecay(u.after, dt);
    var o := if Hunts(a) then AfterStartState(a, FindSheep, relook) else Step(a, []);
    var l := o.after.(lifespanTimer := o.after.lifespanTimer + dt);
    Step(if l.lifespanTimer >= Lifespan then Enter(l, Dead) else l, u.effects + o.effects)
  }

  /** Whether none of `evs` is a `CompleteEating` that is due at `now`. */
  predicate NoMealDue(evs: seq<Pending>, now: real) {
    forall i | 0 <= i < |evs| :: evs[i].callback == CompleteEating ==> evs[i].due > now
  }

  /** The callbacks of `evs` that are due fire in order; `DestroySelf` removes
      the wolf and with it every other callback. */
  function AfterDueEvents(s: WolfData, evs: seq<Pending>, kept: seq<Pending>, d: Draws): (r: Step<WolfData>)
    ensures r.after.hunger == s.hunger && r.after.clock == s.clock && r.after.lifespanTimer == s.lifespanTimer
    ensures NoMealDue(evs, s.clock) ==> r.after.state == s.state && r.effects == []
    ensures forall e | e in r.effects :: e == SpawnAt(s.position)
    decreases |evs|
  {
    if evs == [] then Step(s.(pending := kept), [])
    else if evs[0].due > s.clock then AfterDueEvents(s, evs[1..], kept + [evs[0]], d)
    else if evs[0].callback == DestroySelf then Step(s.(destroyed := true, pending := []), [])
    else
      var c := AfterCompleteEating(s, d);
      var rest := AfterDueEvents(c.after, evs[1..], kept, d);
      Step(rest.after, c.effects + rest.effects)
  }

  /** `AfterDueEvents` on the callbacks from index `i` on, one callback at a time. */
  lemma DueEventsStep(s: WolfData, evs: seq<Pending>, i: nat, kept: seq<Pending>, d: Draws)
    requires i < |evs|
    ensures evs[i].due > s.clock ==>
      AfterDueEvents(s, evs[i..], kept, d) == AfterDueEvents(s, evs[i + 1..], kept + [evs[i]], d)
    ensures evs[i].due <= s.clock && evs[i].callback == DestroySelf ==>
      AfterDueEvents(s, evs[i..], kept, d) == Step(s.(destroyed := true, pending := []), [])
    ensures evs[i].due <= s.clock && evs[i].callback != DestroySelf ==>
      var c := AfterCompleteEating(s, d);
      var rest := AfterDueEvents(c.after, evs[i + 1..], kept, d);
      AfterDueEvents(s, evs[i..], kept, d) == Step(rest.after, c.effects + rest.effects)
  {
    assert evs[i..][0] == evs[i] && evs[i..][1..] == evs[i + 1..];
  }

  /** One frame: a removed wolf does nothing; otherwise the clock advances,
      `Update` runs, and then the callbacks that have come due fire. */
  function AfterTick(s: WolfData, dt: real, look: Sight, relook: Sight, d: Draws): (r: Step<WolfData>)
    ensures s.destroyed ==> r == Step(s, [])
    ensures !s.destroyed ==> r.after.clock == s.clock + dt && r.after.lifespanTimer == s.lifespanTimer + dt
  {
    if s.destroyed then Step(s, [])
    else
      var u := AfterUpdate(s.(clock := s.clock + dt), dt, look, relook, d);
      var f := AfterDueEvents(u.after, u.after.pending, [], d);
      Step(f.after, u.effects + f.effects)
  }

  /** A frame of an animal still in the scene, stage by stage. */
  lemma TickStages(s: WolfData, dt: real, look: Sight, relook: Sight, d: Draws)
    requires !s.destroyed
    ensures AfterTick(s, dt, look, relook, d).after ==
      AfterDueEvents(AfterUpdate(s.(clock := s.clock + dt), dt, look, relook, d).after,
                     AfterUpdate(s.(clock := s.clock + dt), dt, look, relook, d).after.pending, [], d).after
    ensures AfterTick(s, dt, look, relook, d).effects ==
      AfterUpdate(s.(clock := s.clock + dt), dt, look, relook, d).effects
      + AfterDueEvents(AfterUpdate(s.(clock := s.clock + dt), dt, look, relook, d).after,
                       AfterUpdate(s.(clock := s.clock + dt), dt, look, relook, d).after.pending, [], d).effects
  {
  }

  /** `OnTriggerEnter2D` with a sheep: the consume edge, for a wolf still in the scene. */
  function AfterCollide(s: WolfData, sheep: nat): (r: Step<WolfData>)
    ensures s.destroyed || s.hunger >= HuntThreshold ==> r == Step(s, [])
    ensures !s.destroyed && s.hunger < HuntThreshold ==>
      && r.after.state == Eating && r.after.hunger == Fed(s.hunger)
      && r.after.pending == s.pending + [Pending(CompleteEating, s.clock + EatingTime)]
      && r.effects == [DestroyTarget(sheep)]
  {
    if s.destroyed then Step(s, []) else AfterConsume(s, Some(sheep))
  }

  /** What can happen to a wolf between two observations. */
  datatype Occurrence = Frame(dt: real, look: Sight, relook: Sight, draws: Draws) | Touch(sheep: nat)

  function Apply(s: WolfData, o: Occurrence): WolfData {
    match o
    case Frame(dt, look, relook, d) => AfterTick(s, dt, look, relook, d).after
    case Touch(sheep) => AfterCollide(s, sheep).after
  }

  function Run(s: WolfData, os: seq<Occurrence>): WolfData
    decreases |os|
  {
    if os == [] then s else Run(Apply(s, os[0]), os[1..])
  }

  // ---------------------------------------------------------------------
  // Properties

  /** Hunger stays in (-10, 100] across one frame. */
  lemma TickKeepsHungerInRange(s: WolfData, dt: real, look: Sight, relook: Sight, d: Draws)
    requires HungerInRange(s.hunger)
    ensures HungerInRange(AfterTick(s, dt, look, relook, d).after.hunger)
  {
  }

  /** Hunger stays in (-10, 100] across any sequence of frames and collisions. */
  lemma {:induction false} RunKeepsHungerInRange(s: WolfData, os: seq<Occurrence>)
    requires HungerInRange(s.hunger)
    ensures HungerInRange(Run(s, os).hunger)
    decreases |os|
  {
    if os != [] {
      if os[0].Frame? {
        TickKeepsHungerInRange(s, os[0].dt, os[0].look, os[0].relook, os[0].draws);
      }
      RunKeepsHungerInRange(Apply(s, os[0]), os[1..]);
    }
  }

  /** After `Update`, a wolf whose hunger is below 45 is hunting, dead or
      eating: the switch to `FindSheep` fires on every update while it is
      hungry, and eating only raises hunger. */
  lemma HungryWolfEndsUpdateHunting(s: WolfData, dt: real, look: Sight, relook: Sight, d: Draws)
    requires HungerInRange(s.hunger)
    requires AfterUpdate(s, dt, look, relook, d).after.hunger < HuntThreshold
    ensures AfterUpdate(s, dt, look, relook, d).after.state in {FindSheep, Dead, Eating}
  {
    var u := AfterUpdateState(s, dt, look, d);
    var a := AfterDecay(u.after, dt);
    if !Hunts(a) {
      assert a.state in {Dead, Eating} || a.hunger >= HuntThreshold;
    }
  }

  /** The lifespan check comes last, so it overrides the switch to the hunt
      made earlier in the same update. */
  lemma LifespanOverridesHunt(s: WolfData, dt: real, look: Sight, relook: Sight, d: Draws)
    requires s.lifespanTimer + dt >= Lifespan
    requires Hunts(AfterDecay(AfterUpdateState(s, dt, look, d).after, dt))
    ensures AfterUpdate(s, dt, look, relook, d).after.state == Dead
  {
  }

  /** The `StartState` quirk: a hungry wolf that reaches a sheep during the
      entry action of `FindSheep` eats it (the sheep is destroyed, hunger rises,
      `CompleteEating` is scheduled) yet ends in `FindSheep`, not `Eating`. */
  lemma HuntEntryOverwritesEating(s: WolfData, sight: Sight)
    requires s.hunger < HuntThreshold && |sight.distances| > 0 && sight.close
    ensures AfterStartState(s, FindSheep, sight).after.state == FindSheep
    ensures AfterStartState(s, FindSheep, sight).after.hunger == Fed(s.hunger)
    ensures AfterStartState(s, FindSheep, sight).after.pending == s.pending + [Pending(CompleteEating, s.clock + EatingTime)]
    ensures AfterStartState(s, FindSheep, sight).effects == [DestroyTarget(FirstNearest(sight.distances))]
  {
  }

  /** A wolf hunting in a scene without sheep stays in `FindSheep`: there is no
      fall-back to walking. */
  lemma HuntWithoutSheepStays(s: WolfData, dt: real, sight: Sight, d: Draws)
    requires s.state == FindSheep && |sight.distances| == 0
    ensures AfterUpdateState(s, dt, sight, d) == Step(s, [])
  {
  }

  /** Reproduction: a wolf at hunger 20 within 0.5 units of a sheep eats it,
      reaching hunger 70 in state `Eating`. */
  lemma HungryWolfEats(s: WolfData, sheep: nat)
    requires !s.destroyed && s.hunger == 20
    ensures AfterCollide(s, sheep).after.hunger == 70
    ensures AfterCollide(s, sheep).after.state == Eating
    ensures AfterCollide(s, sheep).effects == [DestroyTarget(sheep)]
  {
  }

  /** No reproduction: a wolf at hunger 60 next to a sheep leaves it alone. */
  lemma SatedWolfIgnoresSheep(s: WolfData, sheep: nat)
    requires s.hunger == 60
    ensures AfterCollide(s, sheep) == Step(s, [])
  {
  }

  /** Every idle time the wolf draws lies in the range of its `Random.Range` call. */
  lemma IdleTimesInRange(s: WolfData, dt: real, d: Draws)
    requires DrawsOk(d)
    ensures s.idleTimer - dt <= 0.0 ==> 5.0 <= AfterIdle(s, dt, d).idleTimer <= 10.0
    ensures s.eatingTimer + dt >= EatingTime ==> 1.0 <= AfterEatingTimer(s, dt, d).idleTimer <= 5.0
    ensures 1.0 <= AfterCompleteEating(s, d).after.idleTimer <= 3.0
  {
  }

  // ---------------------------------------------------------------------
  // The wolf object

  class Wolf {
    var currentState: WolfState
    var hungryLevel: int
    var hungerTimer: real
    var lifespanTimer: real
    var idleTimer: real
    var eatingTimer: real
    var timer: real
    var position: Pos
    var targetPosition: Pos
    var clock: real
    var pending: seq<Pending>
    var destroyed: bool

    ghost function Data(): WolfData
      reads this
    {
      WolfData(currentState, hungryLevel, hungerTimer, lifespanTimer, idleTimer, eatingTimer, timer,
               position, targetPosition, clock, pending, destroyed)
    }

    /** `Instantiate` of the wolf prefab followed by the spawner's write of
        `hungryLevel`. */
    constructor (spawnAt: Pos, writtenHunger: int)
      ensures Data() == WolfData(Walking, writtenHunger, 0.0, 0.0, 0.0, 0.0, 0.0, spawnAt, Pos(0.0, 0.0), 0.0, [], false)
    {
      currentState := Walking;
      hungryLevel := writtenHunger;
      hungerTimer, lifespanTimer, idleTimer, eatingTimer, timer := 0.0, 0.0, 0.0, 0.0, 0.0;
      position := spawnAt;
      targetPosition := Pos(0.0, 0.0);
      clock := 0.0;
      pending := [];
      destroyed := false;
    }

    /** `Start`: hunger is drawn again in [80,100], so the spawner's value does
        not survive; plus a random target and an idle time in [5,10]. */
    method Start(hungerDraw: int, idleDraw: real, target: Pos)
      requires 80 <= hungerDraw <= 100 && 5.0 <= idleDraw <= 10.0
      modifies this
      ensures Data() == old(Data()).(hunger := hungerDraw, target := target, idleTimer := idleDraw)
      ensures 80 <= hungryLevel <= 100
    {
      hungryLevel := hungerDraw;
      targetPosition := target;
      idleTimer := idleDraw;
    }

    /** `StartState(next)` for every state but `FindSheep`. */
    method EnterState(next: WolfState)
      requires next != FindSheep
      modifies this
      ensures Data() == Enter(old(Data()), next)
    {
      if next == Dead {
        pending := pending + [Pending(DestroySelf, clock + DestroyDelay)];
      }
      currentState := next;
    }

    method StartState(next: WolfState, sight: Sight) returns (effects: seq<Effect>)
      modifies this
      ensures Data() == AfterStartState(old(Data()), next, sight).after
      ensures effects == AfterStartState(old(Data()), next, sight).effects
    {
      if next == FindSheep {
        effects := SeekSheep(sight);
        currentState := FindSheep;
      } else {
        EnterState(next);
        effects := [];
      }
    }

    /** `Idle()` */
    method IdleStep(dt: real, d: Draws)
      modifies this
      ensures Data() == AfterIdle(old(Data()), dt, d)
    {
      idleTimer := idleTimer - dt;
      if idleTimer <= 0.0 {
        EnterState(Walking);
        idleTimer := d.walkIdle;
      }
    }

    /** `Move()` */
    method Move(dt: real, sight: Sight, d: Draws)
      modifies this
      ensures Data() == AfterMove(old(Data()), dt, sight, d)
    {
      position := sight.moveTo;
      timer := timer + dt;
      if timer > ChangeDirectionTime {
        targetPosition := d.target;
        timer := 0.0;
      }
    }

    /** `Eating()`, the timer-only handler. */
    method AdvanceEating(dt: real, d: Draws)
      modifies this
      ensures Data() == AfterEatingTimer(old(Data()), dt, d)
    {
      eatingTimer := eatingTimer + dt;
      if eatingTimer >= EatingTime {
        eatingTimer := 0.0;
        EnterState(Idle);
        idleTimer := d.eatIdle;
      }
    }

    /** `Eating(sheep)`, the consume edge. */
    method Consume(sheep: Option<nat>) returns (effects: seq<Effect>)
      modifies this
      ensures Data() == AfterConsume(old(Data()), sheep).after
      ensures effects == AfterConsume(old(Data()), sheep).effects
    {
      effects := [];
      if hungryLevel < HuntThreshold {
        if sheep.None? {
          return;
        }
        effects := [DestroyTarget(sheep.value)];
        hungryLevel := if 100 < hungryLevel + 50 then 100 else hungryLevel + 50;
        EnterState(Eating);
        pending := pending + [Pending(Callback.CompleteEating, clock + EatingTime)];
      }
    }

    method CompleteEating(d: Draws) returns (effects: seq<Effect>)
      modifies this
      ensures Data() == AfterCompleteEating(old(Data()), d).after
      ensures effects == AfterCompleteEating(old(Data()), d).effects
    {
      EnterState(Idle);
      idleTimer := d.completeIdle;
      effects := [SpawnAt(position)];
    }

    method DecreaseHungerOverTime(dt: real)
      modifies this
      ensures Data() == AfterDecay(old(Data()), dt)
    {
      hungerTimer := hungerTimer + dt;
      if hungerTimer >= HungerDecreaseInterval && hungryLevel > 0 {
        hungryLevel := hungryLevel - 10;
        hungerTimer := 0.0;
        if hungryLevel <= 0 {
          EnterState(Dead);
        }
      }
    }

    /** `FindSheep()` */
    method SeekSheep(sight: Sight) returns (effects: seq<Effect>)
      modifies this
      ensures Data() == AfterFindSheep(old(Data()), sight).after
      ensures effects == AfterFindSheep(old(Data()), sight).effects
    {
      effects := [];
      if |sight.distances| > 0 {
        var nearestSheep := Nearest(sight.distances);
        position := sight.moveTo;
        if sight.close {
          effects := Consume(Some(nearestSheep));
        }
      }
    }

    method UpdateState(dt: real, sight: Sight, d: Draws) returns (effects: seq<Effect>)
      modifies this
      ensures Data() == AfterUpdateState(old(Data()), dt, sight, d).after
      ensures effects == AfterUpdateState(old(Data()), dt, sight, d).effects
    {
      effects := [];
      match currentState
      case Idle => IdleStep(dt, d);
      case Walking => Move(dt, sight, d);
      case Eating => AdvanceEating(dt, d);
      case FindSheep => effects := SeekSheep(sight);
      case Dead =>
    }

    method Update(dt: real, look: Sight, relook: Sight, d: Draws) returns (effects: seq<Effect>)
      modifies this
      ensures Data() == AfterUpdate(old(Data()), dt, look, relook, d).after
      ensures effects == AfterUpdate(old(Data()), dt, look, relook, d).effects
    {
      effects := UpdateState(dt, look, d);
      DecreaseHungerOverTime(dt);
      if hungryLevel < HuntThreshold && currentState != Dead && currentState != Eating {
        var hunted := StartState(FindSheep, relook);
        effects := effects + hunted;
      }
      lifespanTimer := lifespanTimer + dt;
      if lifespanTimer >= Lifespan {
        EnterState(Dead);
      }
    }

    /** The engine's side of `Invoke`: fire, in order, every callback that is due. */
    method FireDueEvents(d: Draws) returns (effects: seq<Effect>)
      requires !destroyed
      modifies this
      ensures Data() == AfterDueEvents(old(Data()), old(pending), [], d).after
      ensures effects == AfterDueEvents(old(Data()), old(pending), [], d).effects
    {
      var evs := pending;
      var kept: seq<Pending> := [];
      effects := [];
      ghost var goal := AfterDueEvents(Data(), evs, [], d);
      for i := 0 to |evs|
        invariant !destroyed && pending == evs
        invariant AfterDueEvents(Data(), evs[i..], kept, d).after == goal.after
        invariant effects + AfterDueEvents(Data(), evs[i..], kept, d).effects == goal.effects
      {
        ghost var before := Data();
        var e := evs[i];
        if e.due > clock {
          kept := kept + [e];
          assert AfterDueEvents(Data(), evs[i + 1..], kept, d) == AfterDueEvents(before, evs[i..], kept[..|kept| - 1], d) by {
            DueEventsStep(before, evs, i, kept[..|kept| - 1], d);
          }
        } else if e.callback == DestroySelf {
          destroyed := true;
          pending := [];
          assert Data() == AfterDueEvents(before, evs[i..], kept, d).after by {
            DueEventsStep(before, evs, i, kept, d);
          }
          return;
        } else {
          var fired := CompleteEating(d);
          ghost var rest := AfterDueEvents(Data(), evs[i + 1..], kept, d);
          assert rest.after == goal.after && (effects + fired) + rest.effects == goal.effects by {
            DueEventsStep(before, evs, i, kept, d);
            assert (effects + fired) + rest.effects == effects + (fired + rest.effects);
          }
          effects := effects + fired;
        }
      }
      pending := kept;
    }

    /** One frame of the engine: advance the clock, `Update`, then the due callbacks. */
    method Tick(dt: real, look: Sight, relook: Sight, d: Draws) returns (effects: seq<Effect>)
      modifies this
      ensures Data() == AfterTick(old(Data()), dt, look, relook, d).after
      ensures effects == AfterTick(old(Data()), dt, look, relook, d).effects
    {
      if destroyed {
        return [];
      }
      ghost var s0 := Data();
      clock := clock + dt;
      assert Data() == s0.(clock := s0.clock + dt);
      var updated := Update(dt, look, relook, d);
      var fired := FireDueEvents(d);
      effects := updated + fired;
      TickStages(s0, dt, look, relook, d);
    }

    /** `OnTriggerEnter2D` with a sheep. */
    method Collide(sheep: nat) returns (effects: seq<Effect>)
      modifies this
      ensures Data() == AfterCollide(old(Data()), sheep).after
      ensures effects == AfterCollide(old(Data()), sheep).effects
    {
      if destroyed {
        return [];
      }
      effects := Consume(Some(sheep));
    }
  }
}
