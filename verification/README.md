# Ecosystem: a verified model of the agents and spawners

This project models the core of a small Unity predator–prey simulation. Three
kinds of animal roam a 2D arena: sheep eat fruit, wolves eat sheep, lions eat
wolves. Each animal is a state machine (`Idle`, `Walking`, `Eating`, a
seeking state, `Dead`) with an integer `hungryLevel` and several timers. Four
spawners keep the populations going: one per animal kind, plus a food spawner
that drops fruit at random times and respects a cap.

## How the model is built

- `world.dfy` (`module World`) holds the shared vocabulary:
  - positions and scheduled callbacks;
  - the requests an agent makes of the scene (`Effect`);
  - the geometry the engine supplies to one step (`Sight`);
  - the random draws of one step (`Draws`);
  - the meal arithmetic `Fed`;
  - the nearest-target scan. `FirstNearest` defines it and the method
    `Nearest` runs the source's loop.
- `sheep.dfy`, `wolf.dfy` and `lion.dfy` each hold one agent. An agent module
  has four parts:
  - A value `SheepData` / `WolfData` / `LionData` holding the object's fields.
    It also carries a simulated `clock`, the callbacks scheduled with
    `Invoke` (`pending`), and whether the object has been destroyed.
  - One function `After...` per handler of the source, saying what the
    handler does to those fields.
  - A class `Sheep` / `Wolf` / `Lion` with the same fields and methods named
    after the handlers. Each method is proved to leave the object in the
    state its function describes (`Data() == AfterX(old(Data()), ...)`).
  - Lemmas stating the properties of the functions.
- Each agent's `Tick` works as follows:
  1. A destroyed object does nothing.
  2. Otherwise the clock advances and `Update` runs.
  3. The callbacks that have come due then fire in the order they were
     scheduled. `CompleteEating` runs the meal's end. `DestroySelf` removes
     the object and cancels the rest.
- Collisions (`OnTriggerEnter2D`) are a separate operation, `Collide`.
- `registry.dfy` (`module Registry`) models the scene the spawners add to:
  - a sequence of entities, each with a kind, a position and the hunger
    written at spawn time;
  - `Count`, which plays the role of `FindGameObjectsWithTag(...).Length`.
- `sheep_spawner.dfy`, `wolf_spawner.dfy`, `lion_spawner.dfy` and
  `food_spawner.dfy` hold one class per spawner. Its methods append to the
  scene, and pure functions describe what each loop adds.
- Behaviour of the code that the model keeps as written:
  - **Wolf update order.** The wolf's `Update` switches to `FindSheep`
    first and checks its lifespan last. A dying wolf can therefore
    still run a second scan and eat in its last frame; it ends the frame
    `Dead` all the same.
  - **Dead agents.** They keep running `Update`. An expired lifetime or age
    re-enters `Dead`, and schedules the destruction again, on every frame.
  - **Lion spawner hunger.** The lion spawner writes no hunger into a new
    lion. The lion draws its own in `Start`.
  - **Wolf spawner hunger.** The wolf spawner's hunger in [90,100] is
    replaced by the wolf's own `Start` draw in [80,100].

## Model

| member | source | states |
|---|---|---|
| World.Fed | Assets/Scripts/Sheep.cs:194-199 | a meal adds 50 and clamps at 100; from a hunger in (-10,100] the result stays in range and is never lower |
| World.FirstNearest | Assets/Scripts/Sheep.cs:227-238 | the scan's choice: an index whose distance is minimal and strictly below every earlier entry's |
| World.FirstNearestIsUnique | Assets/Scripts/Sheep.cs:230-238 | any index that is minimal and strictly below all earlier entries is the scan's choice, so a later tie never wins |
| World.Nearest | Assets/Scripts/Sheep.cs:225-238 | the running-minimum loop returns exactly `FirstNearest` of the distances |
| SheepAgent.Entered | Assets/Scripts/Sheep.cs:75-99 | `StartState` sets the state last; only entering `Dead` schedules something (destruction 5 s later); nothing else changes |
| SheepAgent.AfterIdle | Assets/Scripts/Sheep.cs:137-145 | an idle time used up switches to `Walking` with the drawn idle time, otherwise the idle timer just counts down; hunger untouched |
| SheepAgent.Decayed | Assets/Scripts/Sheep.cs:158-162 | hunger drops by exactly 10 and the hunger timer resets only when the timer reaches 2 s and hunger is positive |
| SheepAgent.Walked | Assets/Scripts/Sheep.cs:149-156 | the sheep stands where it stepped to; a new target is drawn and the timer reset exactly when more than `changeDirectionTime` has passed; nothing else changes |
| SheepAgent.AfterMove | Assets/Scripts/Sheep.cs:147-176 | walking: hunger decays as above; a drop to 60 or less switches to `FindFood`, a drop to 0 or less ends in `Dead`, otherwise still `Walking` |
| SheepAgent.AfterEatingTimer | Assets/Scripts/Sheep.cs:178-188 | the eating timer reaching 3 s resets it and enters `Idle` with the drawn idle time; otherwise only the timer grows |
| SheepAgent.AfterConsume | Assets/Scripts/Sheep.cs:190-207 | no food: nothing changes; otherwise hunger becomes `Fed(hunger)`, the food is destroyed, the state is `Eating` and `CompleteEating` is due 3 s later, whatever the previous state |
| SheepAgent.AfterCompleteEating | Assets/Scripts/Sheep.cs:209-219 | exactly one lamb requested at the sheep's position, then `Idle` with the drawn idle time; hunger unchanged |
| SheepAgent.AfterFindFood | Assets/Scripts/Sheep.cs:221-272 | no fruit: `Walking`; otherwise the sheep moves, may starve (`Dead`, no meal), eats the first nearest fruit when within reach, else keeps searching |
| SheepAgent.AfterUpdateState | Assets/Scripts/Sheep.cs:101-120 | dispatch on the state; hunger changes only while walking or searching; a dead sheep does nothing |
| SheepAgent.AfterUpdate | Assets/Scripts/Sheep.cs:51-61 | the lifetime grows by the step; reaching 30 s ends the update `Dead` and schedules destruction again, whatever the handler did |
| SheepAgent.AfterDueEvents | Assets/Scripts/Sheep.cs:274-277 | firing due callbacks never changes hunger or the clock; without a due meal the state is kept and nothing is requested; every request is a lamb at the sheep's position |
| SheepAgent.AfterTick | Assets/Scripts/Sheep.cs:51-61 | a destroyed sheep is inert; otherwise clock and lifetime advance by the step |
| SheepAgent.AfterCollide | Assets/Scripts/Sheep.cs:279-286 | a sheep still in the scene that touches a fruit eats it whatever its state: hunger `Fed`, `Eating`, the fruit destroyed, `CompleteEating` due 3 s later |
| SheepAgent.TickKeepsHungerInRange | Assets/Scripts/Sheep.cs:158-162 | one frame keeps hunger in (-10,100] |
| SheepAgent.RunKeepsHungerInRange | Assets/Scripts/Sheep.cs:244-248 | any sequence of frames and collisions keeps hunger in (-10,100] |
| SheepAgent.LifetimeExpiryEndsFrameDead | Assets/Scripts/Sheep.cs:51-61 | a frame in which the lifetime reaches 30 s ends `Dead` unless a meal completes in that same frame |
| SheepAgent.DeadSheepStillEats | Assets/Scripts/Sheep.cs:279-286 | `Dead` is not absorbing: a dead sheep touching a fruit is `Eating` again and destroys the fruit |
| SheepAgent.StarvationScenario | Assets/Scripts/Sheep.cs:164-172 | a walking sheep at hunger 10 walking one full interval drops to 0 and ends the frame `Dead` |
| SheepAgent.HungerCanGoNegative | Assets/Scripts/Sheep.cs:159-161 | hunger 5 is positive, so it still loses 10 and reaches -5 |
| SheepAgent.IdleTimesInRange | Assets/Scripts/Sheep.cs:143-218 | idle times drawn by `Idle`, `Eating()` and `CompleteEating` lie in [3,8], [1,5] and [1,3] |
| SheepAgent.Sheep.constructor | Assets/Scripts/Sheep.cs:7-28 | a new sheep walks with hunger 100 and all timers at 0 |
| SheepAgent.Sheep.InitializeSheep | Assets/Scripts/Sheep.cs:46-49 | the spawner's hunger is written and nothing else changes |
| SheepAgent.Sheep.Start | Assets/Scripts/Sheep.cs:39-44 | a random target and an idle time in [5,10]; hunger kept |
| SheepAgent.Sheep.StartState | Assets/Scripts/Sheep.cs:75-99 | the fields become `Entered(old, next)` |
| SheepAgent.Sheep.IdleStep | Assets/Scripts/Sheep.cs:137-145 | the fields become `AfterIdle` of the old ones |
| SheepAgent.Sheep.Move | Assets/Scripts/Sheep.cs:147-176 | the fields become `AfterMove` of the old ones |
| SheepAgent.Sheep.AdvanceEating | Assets/Scripts/Sheep.cs:178-188 | the fields become `AfterEatingTimer` of the old ones |
| SheepAgent.Sheep.Consume | Assets/Scripts/Sheep.cs:190-207 | fields and requests are those of `AfterConsume` |
| SheepAgent.Sheep.CompleteEating | Assets/Scripts/Sheep.cs:209-219 | fields and requests are those of `AfterCompleteEating` |
| SheepAgent.Sheep.SeekFood | Assets/Scripts/Sheep.cs:221-272 | runs the scan loop `Nearest`; fields and requests are those of `AfterFindFood` |
| SheepAgent.Sheep.UpdateState | Assets/Scripts/Sheep.cs:101-120 | fields and requests are those of `AfterUpdateState` |
| SheepAgent.Sheep.Update | Assets/Scripts/Sheep.cs:51-61 | fields and requests are those of `AfterUpdate` |
| SheepAgent.Sheep.FireDueEvents | Assets/Scripts/Sheep.cs:274-277 | the loop over scheduled callbacks ends in the fields and requests of `AfterDueEvents` |
| SheepAgent.Sheep.Tick | Assets/Scripts/Sheep.cs:51-61 | fields and requests are those of `AfterTick` |
| SheepAgent.Sheep.Collide | Assets/Scripts/Sheep.cs:279-286 | fields and requests are those of `AfterCollide` |
| WolfAgent.Enter | Assets/Scripts/Wolf.cs:77-103 | `StartState` for every state but `FindSheep`: the state is set last; only `Dead` schedules destruction |
| WolfAgent.AfterIdle | Assets/Scripts/Wolf.cs:141-149 | an idle time used up enters `Walking` with an idle time redrawn (in [5,10] by `IdleTimesInRange`) |
| WolfAgent.AfterMove | Assets/Scripts/Wolf.cs:151-161 | the wolf stands where it stepped to; a new target is drawn and the timer reset exactly when more than 5 s have accumulated, otherwise the timer grows and the target is kept; nothing else changes, hunger included |
| WolfAgent.AfterEatingTimer | Assets/Scripts/Wolf.cs:163-173 | the eating timer reaching 3 s resets it and enters `Idle` with the drawn idle time |
| WolfAgent.AfterConsume | Assets/Scripts/Wolf.cs:175-185 | hunger of 45 or more, or no sheep: nothing changes; otherwise hunger becomes min(100, hunger+50), state `Eating`, the sheep destroyed, `CompleteEating` due 3 s later |
| WolfAgent.AfterCompleteEating | Assets/Scripts/Wolf.cs:187-193 | `Idle` with the drawn idle time and exactly one cub requested at the wolf's position |
| WolfAgent.AfterFindSheep | Assets/Scripts/Wolf.cs:211-240 | no sheep: nothing at all changes; otherwise the wolf moves and tries to eat the first nearest sheep when within reach |
| WolfAgent.AfterStartState | Assets/Scripts/Wolf.cs:77-103 | the wolf always ends in the requested state, even when the `FindSheep` entry action ate a sheep |
| WolfAgent.AfterUpdateState | Assets/Scripts/Wolf.cs:105-124 | dispatch on the state; only `FindSheep` changes hunger or requests anything |
| WolfAgent.AfterDecay | Assets/Scripts/Wolf.cs:195-209 | in every state, every 4 s, hunger drops by exactly 10 while positive; a drop to 0 or less enters `Dead` |
| WolfAgent.AfterUpdate | Assets/Scripts/Wolf.cs:45-64 | the lifespan timer grows by the step, and reaching 5 s ends the update `Dead` whatever happened before |
| WolfAgent.AfterDueEvents | Assets/Scripts/Wolf.cs:251-254 | firing due callbacks keeps hunger and clock; without a due meal the state is kept and nothing is requested; requests are cubs at the wolf's position |
| WolfAgent.AfterTick | Assets/Scripts/Wolf.cs:45-64 | a destroyed wolf is inert; otherwise clock and lifespan timer advance by the step |
| WolfAgent.AfterCollide | Assets/Scripts/Wolf.cs:242-249 | a wolf still in the scene and below 45 eats the sheep it touches (hunger `Fed`, `Eating`, the sheep destroyed, `CompleteEating` due 3 s later); otherwise nothing changes |
| WolfAgent.TickKeepsHungerInRange | Assets/Scripts/Wolf.cs:195-209 | one frame keeps hunger in (-10,100] |
| WolfAgent.RunKeepsHungerInRange | Assets/Scripts/Wolf.cs:181 | any sequence of frames and collisions keeps hunger in (-10,100] |
| WolfAgent.HungryWolfEndsUpdateHunting | Assets/Scripts/Wolf.cs:50-54 | a wolf below 45 after `Update` is hunting, dead or eating |
| WolfAgent.LifespanOverridesHunt | Assets/Scripts/Wolf.cs:56-63 | the lifespan check comes last and overrides a switch to `FindSheep` made in the same update |
| WolfAgent.HuntEntryOverwritesEating | Assets/Scripts/Wolf.cs:98-102 | a meal inside `StartState(FindSheep)` raises hunger, destroys the first nearest sheep and schedules `CompleteEating`, yet the wolf ends in `FindSheep` |
| WolfAgent.HuntWithoutSheepStays | Assets/Scripts/Wolf.cs:211-240 | hunting with no sheep in the scene changes nothing: no fallback to `Walking` |
| WolfAgent.HungryWolfEats | Assets/Scripts/Wolf.cs:175-185 | a wolf at hunger 20 touching a sheep eats it: hunger 70, `Eating`, the sheep destroyed |
| WolfAgent.SatedWolfIgnoresSheep | Assets/Scripts/Wolf.cs:177 | a wolf at hunger 60 touching a sheep changes nothing |
| WolfAgent.IdleTimesInRange | Assets/Scripts/Wolf.cs:147-190 | idle times drawn by `Idle`, `Eating()` and `CompleteEating` lie in [5,10], [1,5] and [1,3] |
| WolfAgent.Wolf.constructor | Assets/Scripts/Wolf.cs:20-26 | a new wolf walks with the hunger the spawner writes and all timers at 0 |
| WolfAgent.Wolf.Start | Assets/Scripts/Wolf.cs:37-43 | hunger is redrawn in [80,100], replacing the spawner's value; a random target and an idle time in [5,10] |
| WolfAgent.Wolf.EnterState | Assets/Scripts/Wolf.cs:77-103 | the fields become `Enter(old, next)` |
| WolfAgent.Wolf.StartState | Assets/Scripts/Wolf.cs:77-103 | fields and requests are those of `AfterStartState` |
| WolfAgent.Wolf.IdleStep | Assets/Scripts/Wolf.cs:141-149 | the fields become `AfterIdle` of the old ones |
| WolfAgent.Wolf.Move | Assets/Scripts/Wolf.cs:151-161 | the fields become `AfterMove` of the old ones |
| WolfAgent.Wolf.AdvanceEating | Assets/Scripts/Wolf.cs:163-173 | the fields become `AfterEatingTimer` of the old ones |
| WolfAgent.Wolf.Consume | Assets/Scripts/Wolf.cs:175-185 | fields and requests are those of `AfterConsume` |
| WolfAgent.Wolf.CompleteEating | Assets/Scripts/Wolf.cs:187-193 | fields and requests are those of `AfterCompleteEating` |
| WolfAgent.Wolf.DecreaseHungerOverTime | Assets/Scripts/Wolf.cs:195-209 | the fields become `AfterDecay` of the old ones |
| WolfAgent.Wolf.SeekSheep | Assets/Scripts/Wolf.cs:211-240 | runs the scan loop `Nearest`; fields and requests are those of `AfterFindSheep` |
| WolfAgent.Wolf.UpdateState | Assets/Scripts/Wolf.cs:105-124 | fields and requests are those of `AfterUpdateState` |
| WolfAgent.Wolf.Update | Assets/Scripts/Wolf.cs:45-64 | fields and requests are those of `AfterUpdate` |
| WolfAgent.Wolf.FireDueEvents | Assets/Scripts/Wolf.cs:251-254 | the loop over scheduled callbacks ends in the fields and requests of `AfterDueEvents` |
| WolfAgent.Wolf.Tick | Assets/Scripts/Wolf.cs:45-64 | fields and requests are those of `AfterTick` |
| WolfAgent.Wolf.Collide | Assets/Scripts/Wolf.cs:242-249 | fields and requests are those of `AfterCollide` |
| LionAgent.Enter | Assets/Scripts/Lion.cs:69-95 | `StartState` for every state but `FindWolf`: the state is set last; only `Dead` schedules destruction |
| LionAgent.AfterIdle | Assets/Scripts/Lion.cs:133-141 | an idle time used up enters `Walking` with the drawn idle time |
| LionAgent.AfterMove | Assets/Scripts/Lion.cs:143-153 | the lion stands where it stepped to; a new target is drawn and the timer reset exactly when more than 5 s have accumulated, otherwise the timer grows and the target is kept; nothing else changes, hunger included |
| LionAgent.AfterEatingTimer | Assets/Scripts/Lion.cs:155-165 | the eating timer reaching 3 s resets it to 0 and enters `Idle` with the drawn idle time (in [1,5] by `IdleTimesInRange`) |
| LionAgent.AfterConsume | Assets/Scripts/Lion.cs:167-178 | hunger of 30 or more, or no wolf: nothing changes; otherwise hunger becomes min(100, hunger+50), state `Eating`, the wolf destroyed, `CompleteEating` due 3 s later |
| LionAgent.AfterCompleteEating | Assets/Scripts/Lion.cs:180-188 | `Idle` with the drawn idle time and exactly one cub requested at the lion's position |
| LionAgent.AfterFindWolf | Assets/Scripts/Lion.cs:206-235 | no wolves: neither state nor hunger (nor anything else) changes; otherwise the lion moves and tries to eat the first nearest wolf |
| LionAgent.AfterStartState | Assets/Scripts/Lion.cs:69-95 | the lion always ends in the requested state, even when the `FindWolf` entry action ate a wolf |
| LionAgent.AfterUpdateState | Assets/Scripts/Lion.cs:97-116 | dispatch on the state; only `FindWolf` changes hunger or requests anything |
| LionAgent.AfterDecay | Assets/Scripts/Lion.cs:190-204 | in every state, every 5 s, hunger drops by exactly 10 while positive; a drop to 0 or less enters `Dead` |
| LionAgent.AfterAge | Assets/Scripts/Lion.cs:257-265 | the age timer grows by the step; from 25 s the lion enters `Dead` and destruction is scheduled, otherwise state and schedule are kept |
| LionAgent.AfterUpdate | Assets/Scripts/Lion.cs:45-56 | the age timer grows by the step, and reaching 25 s ends the update `Dead` |
| LionAgent.AfterDueEvents | Assets/Scripts/Lion.cs:246-249 | firing due callbacks keeps hunger and clock; without a due meal the state is kept and nothing is requested; requests are cubs at the lion's position |
| LionAgent.AfterTick | Assets/Scripts/Lion.cs:45-56 | a destroyed lion is inert; otherwise clock and age advance by the step |
| LionAgent.AfterCollide | Assets/Scripts/Lion.cs:237-244 | a lion still in the scene and below 30 eats the wolf it touches (hunger `Fed`, `Eating`, the wolf destroyed, `CompleteEating` due 3 s later); otherwise nothing changes |
| LionAgent.TickKeepsHungerInRange | Assets/Scripts/Lion.cs:190-204 | one frame keeps hunger in (-10,100] |
| LionAgent.RunKeepsHungerInRange | Assets/Scripts/Lion.cs:174 | any sequence of frames and collisions keeps hunger in (-10,100] |
| LionAgent.HungryLionEndsUpdateHunting | Assets/Scripts/Lion.cs:51-55 | a lion below 30 that is neither `Dead` nor `Eating` once decay and ageing have run ends the update in `FindWolf` |
| LionAgent.HungryLionIsHuntingDeadOrEating | Assets/Scripts/Lion.cs:45-56 | a lion below 30 after `Update` is hunting, dead or eating |
| LionAgent.OldAgeComesBeforeHunt | Assets/Scripts/Lion.cs:47-55 | a lion reaching 25 s ends the update `Dead`, and the hunt's second scan is skipped (no requests beyond the handler's) |
| LionAgent.HuntEntryOverwritesEating | Assets/Scripts/Lion.cs:90-94 | a meal inside `StartState(FindWolf)` raises hunger, destroys the first nearest wolf and schedules `CompleteEating`, yet the lion ends in `FindWolf` |
| LionAgent.HuntWithoutWolfStays | Assets/Scripts/Lion.cs:206-235 | hunting with no wolves in the scene changes neither state nor hunger |
| LionAgent.HungryLionEats | Assets/Scripts/Lion.cs:167-178 | a lion at hunger 20 touching a wolf eats it: hunger 70, `Eating`, the wolf destroyed |
| LionAgent.SatedLionIgnoresWolf | Assets/Scripts/Lion.cs:170 | a lion at hunger 60 touching a wolf changes nothing |
| LionAgent.IdleTimesInRange | Assets/Scripts/Lion.cs:139-183 | idle times drawn by `Idle`, `Eating()` and `CompleteEating` lie in [5,10], [1,5] and [1,5] |
| LionAgent.Lion.constructor | Assets/Scripts/Lion.cs:20-26 | a new lion walks with the prefab's hunger and all timers at 0 |
| LionAgent.Lion.Start | Assets/Scripts/Lion.cs:37-43 | hunger drawn in [80,100]; a random target and an idle time in [5,10] |
| LionAgent.Lion.EnterState | Assets/Scripts/Lion.cs:69-95 | the fields become `Enter(old, next)` |
| LionAgent.Lion.StartState | Assets/Scripts/Lion.cs:69-95 | fields and requests are those of `AfterStartState` |
| LionAgent.Lion.IdleStep | Assets/Scripts/Lion.cs:133-141 | the fields become `AfterIdle` of the old ones |
| LionAgent.Lion.Move | Assets/Scripts/Lion.cs:143-153 | the fields become `AfterMove` of the old ones |
| LionAgent.Lion.AdvanceEating | Assets/Scripts/Lion.cs:155-165 | the fields become `AfterEatingTimer` of the old ones |
| LionAgent.Lion.Consume | Assets/Scripts/Lion.cs:167-178 | fields and requests are those of `AfterConsume` |
| LionAgent.Lion.CompleteEating | Assets/Scripts/Lion.cs:180-188 | fields and requests are those of `AfterCompleteEating` |
| LionAgent.Lion.DecreaseHungerOverTime | Assets/Scripts/Lion.cs:190-204 | the fields become `AfterDecay` of the old ones |
| LionAgent.Lion.AgeLion | Assets/Scripts/Lion.cs:257-265 | the fields become `AfterAge` of the old ones |
| LionAgent.Lion.SeekWolf | Assets/Scripts/Lion.cs:206-235 | runs the scan loop `Nearest`; fields and requests are those of `AfterFindWolf` |
| LionAgent.Lion.UpdateState | Assets/Scripts/Lion.cs:97-116 | fields and requests are those of `AfterUpdateState` |
| LionAgent.Lion.Update | Assets/Scripts/Lion.cs:45-56 | fields and requests are those of `AfterUpdate` |
| LionAgent.Lion.FireDueEvents | Assets/Scripts/Lion.cs:246-249 | the loop over scheduled callbacks ends in the fields and requests of `AfterDueEvents` |
| LionAgent.Lion.Tick | Assets/Scripts/Lion.cs:45-56 | fields and requests are those of `AfterTick` |
| LionAgent.Lion.Collide | Assets/Scripts/Lion.cs:237-244 | fields and requests are those of `AfterCollide` |
| Registry.Count | Assets/Scripts/FoodSpawner.cs:29 | the number of objects of a kind is at most the scene's size, and 0 exactly when none has that kind |
| Registry.CountAppend | Assets/Scripts/FoodSpawner.cs:29 | counting a kind distributes over the concatenation of two scenes |
| Registry.CountPush | Assets/Scripts/SheepSpawner.cs:36 | adding one object raises its own kind's count by one and leaves every other kind's count alone |
| Registry.OffsetWithinSquare | Assets/Scripts/SheepSpawner.cs:30-33 | an offset drawn in [-r,r] per axis lands within r of the centre on each axis |
| Registry.Scene.Instantiate | Assets/Scripts/SheepSpawner.cs:36 | the new object is appended to the scene |
| SheepSpawning.InitialFlock | Assets/Scripts/SheepSpawner.cs:19-25 | the initial flock has one sheep per draw and no object of any other kind |
| SheepSpawning.InitialFlockPlaced | Assets/Scripts/SheepSpawner.cs:30-40 | every sheep of the initial flock is within `spawnAreaRadius` of the spawner on each axis, with hunger in [80,100] |
| SheepSpawning.LambAddsOneSheep | Assets/Scripts/SheepSpawner.cs:44-55 | whatever the scene holds, one more sheep and no other count changes: no cap |
| SheepSpawning.SheepSpawner.constructor | Assets/Scripts/SheepSpawner.cs:5-7 | the spawner keeps its position, initial count and radius |
| SheepSpawning.SheepSpawner.SpawnInitialSheep | Assets/Scripts/SheepSpawner.cs:19-25 | the loop appends `InitialFlock`, so exactly `initialSheepCount` sheep are added (none for a negative count) |
| SheepSpawning.SheepSpawner.SpawnSheep | Assets/Scripts/SheepSpawner.cs:28-41 | one sheep at the spawner plus the drawn offset, with the drawn hunger |
| SheepSpawning.SheepSpawner.SpawnSheepAtPosition | Assets/Scripts/SheepSpawner.cs:44-55 | exactly one sheep at exactly the given position, with a hunger in [80,100] |
| WolfSpawning.InitialPack | Assets/Scripts/WolfSpawner.cs:18-24 | the initial pack has one wolf per draw and no object of any other kind |
| WolfSpawning.InitialPackPlaced | Assets/Scripts/WolfSpawner.cs:26-38 | every wolf of the initial pack is within `spawnAreaRadius` of the spawner on each axis, with hunger in [90,100] |
| WolfSpawning.CubAddsOneWolf | Assets/Scripts/WolfSpawner.cs:41-51 | whatever the scene holds, one more wolf and no other count changes: no cap |
| WolfSpawning.WolfSpawner.constructor | Assets/Scripts/WolfSpawner.cs:5-7 | the spawner keeps its position, initial count and radius |
| WolfSpawning.WolfSpawner.SpawnInitialWolves | Assets/Scripts/WolfSpawner.cs:18-24 | the loop appends `InitialPack`, so exactly `initialWolfCount` wolves are added |
| WolfSpawning.WolfSpawner.SpawnWolf | Assets/Scripts/WolfSpawner.cs:26-38 | one wolf at the spawner plus the drawn offset, with the drawn hunger in [90,100] |
| WolfSpawning.WolfSpawner.SpawnWolfAtPosition | Assets/Scripts/WolfSpawner.cs:41-51 | exactly one wolf at the given position, with a hunger in [90,100], and no count check |
| LionSpawning.InitialPride | Assets/Scripts/LionSpawner.cs:18-24 | the initial pride has one lion per drawn position and no object of any other kind |
| LionSpawning.InitialPridePlaced | Assets/Scripts/LionSpawner.cs:22 | every initial lion is within `spawnAreaRadius` of the world origin, not of the spawner, and carries no hunger |
| LionSpawning.CubAddsOneLion | Assets/Scripts/LionSpawner.cs:26-31 | whatever the scene holds, one more lion and no other count changes: no cap |
| LionSpawning.LionSpawner.constructor | Assets/Scripts/LionSpawner.cs:6-7 | the spawner keeps its initial count and radius |
| LionSpawning.LionSpawner.SpawnInitialLions | Assets/Scripts/LionSpawner.cs:18-24 | the loop appends `InitialPride`, so exactly `initialLionCount` lions are added |
| LionSpawning.LionSpawner.SpawnLionAtPosition | Assets/Scripts/LionSpawner.cs:26-31 | exactly one lion at exactly the given position, with no hunger written and no count check |
| FoodSpawning.WithFood | Assets/Scripts/FoodSpawner.cs:29-43 | at most one fruit is added, only below `maxFoodCount`; at the cap the scene is unchanged; a scene within the cap stays within it; other kinds untouched |
| FoodSpawning.FoodAttempts | Assets/Scripts/FoodSpawner.cs:13-16 | repeated attempts only append, add at most one fruit each, keep a scene within the cap, and leave other kinds alone |
| FoodSpawning.Schedule | Assets/Scripts/FoodSpawner.cs:21-25 | one due time per re-arm, each the current time plus its delay |
| FoodSpawning.AttemptsStayInView | Assets/Scripts/FoodSpawner.cs:33-40 | every added fruit lies inside the camera view |
| FoodSpawning.CapIsInvariant | Assets/Scripts/FoodSpawner.cs:29-31 | across any number of attempts the fruit count never decreases and never passes the cap |
| FoodSpawning.FoodSpawner.constructor | Assets/Scripts/FoodSpawner.cs:6-9 | the spawner keeps its tunables and has nothing scheduled |
| FoodSpawning.EveryConfigurationHasDelays | Assets/Scripts/FoodSpawner.cs:23 | whatever the two tunables, a delay can be drawn, so every spawner can start; with ordered bounds the delays are exactly [`minSpawnTime`, `maxSpawnTime`] |
| FoodSpawning.FoodSpawner.Start | Assets/Scripts/FoodSpawner.cs:11-19 | `initialFoodCount` attempts and `initialFoodCount + 1` scheduled spawns, each delayed between `minSpawnTime` and `maxSpawnTime` |
| FoodSpawning.FoodSpawner.SpawnInitialFood | Assets/Scripts/FoodSpawner.cs:13-16 | the loop of `Start`: the scene becomes `FoodAttempts` of the old one and one spawn per attempt is scheduled, in order |
| FoodSpawning.FoodSpawner.StartSpawning | Assets/Scripts/FoodSpawner.cs:21-25 | exactly one more scheduled spawn, its delay between `minSpawnTime` and `maxSpawnTime` (in either order, as `Random.Range` swaps reversed bounds) |
| FoodSpawning.FoodSpawner.SpawnFood | Assets/Scripts/FoodSpawner.cs:27-47 | the scene becomes `WithFood` of the old one and exactly one spawn is scheduled, capped or not |
| FoodSpawning.FoodSpawner.Elapse | Assets/Scripts/FoodSpawner.cs:24 | simulated time advances by the step |
| FoodSpawning.FoodSpawner.FireSpawn | Assets/Scripts/FoodSpawner.cs:24 | a due scheduled spawn is used up and the attempt schedules its successor, so the number of scheduled spawns never changes |

## Left out

- Rendering, logging and audio are not modelled. This covers `ChangeSprite`,
  `Debug.Log` and the spawners' `Play...Sound`. They change no state the
  logic reads.
- `EndState` is not modelled. It has no effect in any agent.
- Vector geometry is not computed: `Vector2.MoveTowards`, `Vector2.Distance`
  and the "closer than 0.5" test. The engine supplies them per step as a
  `Sight`: the distances to every target, the point the agent moves to, and
  whether it is then within reach.
- The sheep's `ClampPosition` (the camera clamp after `Move`) is not
  modelled. The position after a step is the one the `Sight` gives.
- `Random.Range` calls are not modelled. Their values are parameters.
  - The spawners' draws and the agents' `Start` draws carry range
    preconditions.
  - The agents' per-frame draws (`Draws`: idle times and walk targets) are
    unconstrained parameters of the `After...` functions and of the agent
    methods. The ranges the source draws them from are stated as a
    hypothesis of the `IdleTimesInRange` lemmas: under `DrawsOk`, every idle
    time an agent writes lies in its call site's range.
- `SetNewTargetPosition` is not constrained: the new walk target is any
  point, not one inside the camera view.
- The scene-wide driver is not part of this model. It would run every agent
  and spawner each frame, apply the agents' requests (`DestroyTarget`,
  `SpawnAt`) to the scene, feed live positions back into the next `Sight`,
  and remove destroyed objects. Agents and spawners are modelled separately
  and meet only through those requests.
- Unity's deferred `Destroy` is not modelled. A target destroyed in a frame
  may still appear in a later `Sight` of that frame, because the `Sight` is
  a parameter.
- Agents' `AfterDueEvents` fires due callbacks in the order they were
  scheduled, after `Update`, not by due time. When several meals complete
  in one frame, they all use the same drawn idle time.
- Timers are exact reals, not IEEE floats. Hunger is an unbounded integer,
  which is harmless because it provably stays in (-10,100].
- The agents' inspector tunables are fixed at their source defaults:
  intervals, lifespans, thresholds and eating time. The spawners' counts,
  radius and spawn times are constructor parameters.
- `speed` is not modelled; it only affects geometry.
- `Start` ordering between objects is not modelled.
- `FindObjectOfType` lookups of the spawners are not modelled. A
  reproduction is a `SpawnAt` request.
- `Rigidbody2D` is not modelled.
