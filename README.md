# bitter-turnips in Dafny

A model of the two event-driven simulations of the bitter-turnips repository, with proofs
of what they guarantee.

**The villager simulation (`src/bitter.rs`)** is modelled imperatively as the class
`Bitter.World`. Its state is the following:

- an entity arena, modelled as a key counter `nextKey`;
- secondary maps for coordinates, satiation, villagers, farms and graves;
- a tick counter and an id counter;
- a LIFO stack of pending `WorldEvent`s.

`Tick` advances the clock. When the new tick `t` satisfies `(t + 1) % 20 == 0`,
`AdvanceWorld` seeds four batch events and `ProcessEvents` drains the stack. Draining means
popping the top event, running one of the twelve handlers, and pushing what that handler
returns.

- **Termination.** The drain terminates by a ranking on event kinds. The first component is
  the number of batch events. The second is a weight of the fine-grained events.
- **Safe handling.** A ghost *stage* (module `BitterStage`) describes the exact shape of the
  stack at every point of a cascade. Through it, the proof shows three things:
  - every popped event meets its handler's preconditions, which are the Rust panics;
  - the world invariant holds throughout;
  - farms that stood apart stay apart, and positions that were interior stay interior.
- **What runs.** The ghost function `Handle` states on values what each of the twelve
  handlers does: the fields it changes, the follow-ups it returns, or a panic. The ghost
  function `Cascade` drains a stack with it. Every handler method is proved to give
  `Handle`'s outcome, and `ProcessEvents` ends in exactly the fields and the run `Cascade`
  gives for the seeded stack.
- **Order of the run.** The events in the order they ran (a ghost trace, the run `Cascade`
  gives) show three things:
  - `GravesCleared`, `FarmsCultivated`, `VillagersFarmed` and `VillagersMoved` ran in that
    order;
  - phases never go back;
  - each `VillagerAte` sits directly after its villager's `VillagerHarvested` and directly
    before a `FarmHarvested`.

Randomness is an oracle. `Random.Rng` holds a fixed stream of numbers and a draw counter,
so every random choice is stated exactly as a function of the draws made before it.
Slotmap iteration is in ascending key order, which is the order in which keys are issued.

**The ship game (`examples/tangy-turnips/tangy.rs`)** is modelled functionally as the
datatype `Tangy.World`. Every `with_*` operation is a function returning a new world. A Rust
panic becomes `Failure(message)`. `with_events_processed` appears twice:

- as the recursive function `Drain`;
- as the loop method `WithEventsProcessed`, proved equal to `Drain`.

`ticked` is proved to move every enemy ship one cell down before any pending request runs.

Modules:

| module | holds |
|---|---|
| `Wrappers` | `Option` and `Result` |
| `Grid` | directions, coordinates and the villagers' clamped move |
| `Keys` | key iteration order |
| `Random` | the RNG oracle |
| `BitterEntities` | the record types |
| `BitterEvents` | events, ranking and phases |
| `BitterStage` | the stack shapes of a cascade |
| `Bitter` | the world class |
| `Tangy` | the ship game |

## Model

| member | source | states |
|---|---|---|
| Grid.DirectionOf | src/bitter.rs:44-53 | index 0..3 gives Up, Down, Left, Right, in the order of the direction list; any other index gives Right |
| Grid.CoordsAfterMove | src/bitter.rs:344-372 | an interior cell stays interior; the result is the cell itself or the one-cell shift in `dir`, an orthogonal neighbour, so at most one axis changes, by one |
| Grid.CanMoveInDir | src/bitter.rs:374-384 | holds exactly when the move changes the cell |
| Keys.KeysBelow | src/bitter.rs:249-267 | the iteration order of a secondary map: only its keys, strictly ascending |
| Keys.KeysBelowExactly | src/bitter.rs:249-267 | when every key was issued, the iteration lists exactly the map's keys |
| Keys.KeysBelowAll | src/bitter.rs:249-267 | when every key was issued, the iteration has one entry per key |
| Random.Rng.Index | src/bitter.rs:178 | a draw reduced to `gen_range(0, n)` is below `n` |
| Random.Rng.GenRange | src/bitter.rs:178 | returns the next draw as an index below `n` and consumes one draw |
| Random.Rng.RandomDirection | src/bitter.rs:263 | returns the next draw as a direction and consumes one draw |
| Random.Rng.DirectionAt | src/bitter.rs:44-53 | the i-th draw, reduced below 4, picks from the direction list in its order: up, down, left, right |
| BitterEvents.BatchCountAppend | src/bitter.rs:111 | extending the stack adds the batch counts |
| BitterEvents.FineWeightAppend | src/bitter.rs:111 | extending the stack adds the fine weights |
| BitterEvents.StepLowersRank | src/bitter.rs:92-113 | replacing the top event by a handler output with no batch event, and lighter than a fine-grained top, lowers the stack's rank |
| BitterEvents.SeedsSnoc | src/bitter.rs:313-317 | the seeds of a run grow by the event just run, when it is a seed |
| BitterStage.Render | src/bitter.rs:92-113 | the stack of a stage is empty exactly at the cascade's final stage |
| BitterStage.RenderSplit | src/bitter.rs:93 | the stack of a stage is its popped stage's stack plus the top event |
| BitterStage.TopInversion | src/bitter.rs:96-109 | the kind of the top event fixes the shape of the stage |
| BitterStage.HarvestStep | src/bitter.rs:229-240 | a harvest's follow-ups (meal, hunger check or none) take its place on top; they hold no batch event and weigh less |
| BitterStage.GrowthStep | src/bitter.rs:178-182 | a growth's follow-up (a FarmAdded or none) takes its place on top; it holds no batch event and weighs less |
| BitterStage.HungerStep | src/bitter.rs:128-137 | a hunger check's follow-up (a death or none) takes its place on top; it holds no batch event and weighs less |
| BitterStage.FanOutStep | src/bitter.rs:249-267 | a batch event's fan-out becomes the next stage's stack; it holds no batch event |
| BitterStage.PoppedFollows | src/bitter.rs:115-126 | an event with no follow-ups moves the stage to its popped stage |
| BitterStage.TraceStep | src/bitter.rs:93-111 | running the top event keeps the run's phase, meal and seed order facts |
| BitterStage.Finished | src/bitter.rs:313-317 | at the final stage the seeds ran as GravesCleared, FarmsCultivated, VillagersFarmed, VillagersMoved; phases never went back; meals sit between their harvest and a farm removal |
| Bitter.CascadeDue | src/bitter.rs:307 | a cascade is due exactly at ticks 19, 39, 59, and so on |
| Bitter.NeighboursIn | src/bitter.rs:155-160 | the allowed moves' targets: every listed cell is an orthogonal neighbour, interior when the farm is, and every allowed move is listed (their order: `NeighboursInOrder`) |
| Bitter.NeighboursInOrder | src/bitter.rs:153-160 | the candidates come in the order of the direction list: the allowed ones among up, down, left, right, in that order, which is the order the draw indexes |
| Bitter.Without | src/bitter.rs:162-171 | `retain`: only cells of the candidates outside the occupied set remain |
| Bitter.WithoutKeeps | src/bitter.rs:169 | `retain` keeps every candidate outside the occupied set |
| Bitter.WithoutTwice | src/bitter.rs:162-171 | retaining against two sets in turn is retaining against their union |
| Bitter.WithoutNoneLeft | src/bitter.rs:162-165 | once no candidate is left, skipping the remaining farms changes nothing |
| Bitter.FreeCells | src/bitter.rs:151-171 | the growth candidates: neighbours of the farm that no farm occupies |
| Bitter.PossibleCoords | src/bitter.rs:153-160 | the loop over the four directions builds the allowed moves' targets |
| Bitter.VillagerInsertOk | src/bitter.rs:269-284 | placing a villager under a fresh key and the next id keeps the world invariant |
| Bitter.FarmInsertOk | src/bitter.rs:286-302 | placing a farm under a fresh key and the next id keeps the world invariant |
| Bitter.InitialValid | src/bitter.rs:70-90 | the initial world satisfies the invariant |
| Bitter.InitialPlaces | src/bitter.rs:83-87 | in the initial world the farms stand apart and every position is interior |
| Bitter.Growths | src/bitter.rs:249-253 | FarmsCultivated's fan-out: one FarmGrew per farm in iteration order |
| Bitter.Harvests | src/bitter.rs:255-259 | VillagersFarmed's fan-out: one VillagerHarvested per villager in iteration order, no two alike |
| Bitter.Moves | src/bitter.rs:261-267 | definition, no contract of its own: VillagersMoved's fan-out, one VillagerMoved per villager in iteration order, the i-th with the direction of the i-th draw from now (its facts: `MovesDirections`, `VillagersCover`) |
| Bitter.GrowthsCover | src/bitter.rs:249-253 | when every farm key was issued and each farm record names its own key, the growths list every farm and nothing else |
| Bitter.VillagersCover | src/bitter.rs:255-267 | when every villager key was issued, the harvests and the moves list every villager and nothing else, and no villager moves twice |
| Bitter.MovesDirections | src/bitter.rs:261-267 | the i-th move's direction is the one the i-th draw from now picks from the direction list |
| Bitter.GrowFarm | src/bitter.rs:140-183 | farm_grew on values. Its result changes no position, no key and no id, only one farm's growth tick and the draw count; it asks for at most one farm and draws exactly when it does; that farm is on a cell next to the growing farm that no farm holds. It is None (a panic) for a farm without a record, a growth tick in the future (the `usize` underflow), or, outside the cooldown, a farm without a position |
| Bitter.Harvest | src/bitter.rs:220-243 | villager_harvested on values. It changes no field and draws once exactly when it returns a farm's harvest and a meal; it returns anything only for a villager below the maximum satiation. It is None for a villager without a record or a satiation, or with a last meal in the future |
| Bitter.Handle | src/bitter.rs:115-267 | definition, no contract of its own: for each event, the fields its handler changes and the follow-ups it returns. It is None where the handler panics: a move, a death, or a hunger check of a living villager, for a key without a position, record or satiation; a meal at satiation 255 (the `u8` overflow) or without a record; a growth or a harvest as `GrowFarm` and `Harvest` say. It draws only in a growth, a harvest and VillagersMoved (one draw per villager) |
| Bitter.HandleFootprint | src/bitter.rs:115-267 | the batch events, GravesCleared, FarmHarvested and FarmAdded never panic; only a growth, a harvest and the villagers' moves draw, and draws are never given back; only a death and a new farm take a key, and only a new farm takes an id |
| Bitter.Cascade | src/bitter.rs:92-113 | definition, no contract of its own: process_events on values. It pops the top event, handles it and pushes its follow-ups until the stack is empty, and returns the final fields and the events in the order they ran; it is None when some handler panics |
| Bitter.CascadeRuns | src/bitter.rs:92-113 | a drain that does not panic runs every event of the stack (the run holds the stack's events, counted with multiplicity), the top one first, and neither gives back draws nor keys |
| Bitter.GrowFarmIs | src/bitter.rs:140-183 | unfolding step, no property of its own: the outcome farm_grew's handler states is `GrowFarm`'s |
| Bitter.HarvestIs | src/bitter.rs:220-243 | unfolding step, no property of its own: the outcome villager_harvested's handler states is `Harvest`'s |
| Bitter.GrowFarmShape | src/bitter.rs:178-182 | a growth returns nothing or a single FarmAdded |
| Bitter.HarvestShape | src/bitter.rs:229-240 | a harvest returns nothing, its villager's hunger check, or a farm's harvest followed by that villager's meal |
| Bitter.HandleLowersRank | src/bitter.rs:96-111 | every handler that does not panic returns no batch event, and for a fine-grained event returns less weight than the event |
| Bitter.CascadeStep | src/bitter.rs:93-111 | unfolding step, no property of its own: draining a stack handles its top event, then drains the rest with the follow-ups on top |
| Bitter.GrowFarmOk | src/bitter.rs:140-183 | in a valid world, growing a farm does not panic, keeps the world valid, the positions and the farm keys, and asks for at most one farm, on a free cell, interior when every position is |
| Bitter.ClearedAdvances | src/bitter.rs:245-247 | GravesCleared on the seeded stack empties the graves and moves the cascade on, the world staying valid |
| Bitter.CultivatedAdvances | src/bitter.rs:249-253 | FarmsCultivated pushes one growth per farm and moves the cascade on |
| Bitter.FarmedAdvances | src/bitter.rs:255-259 | VillagersFarmed pushes one harvest per villager, each villager once, and moves the cascade on |
| Bitter.MovesAdvances | src/bitter.rs:261-267 | VillagersMoved pushes one move per villager, using one draw each, and moves the cascade on |
| Bitter.GrewAdvances | src/bitter.rs:140-183 | a growth in the cascade does not panic and moves the cascade on; a new farm's cell is free |
| Bitter.AddedAdvances | src/bitter.rs:202-218 | a FarmAdded in the cascade puts a farm under a fresh key on a cell no farm is on, the world staying valid |
| Bitter.HarvestedAdvances | src/bitter.rs:220-243 | a harvest in the cascade does not panic and leaves a meal, a hunger check or nothing for its villager |
| Bitter.AteAdvances | src/bitter.rs:120-126 | a meal in the cascade adds one to a satiation below 5, the world staying valid |
| Bitter.FarmHarvestedAdvances | src/bitter.rs:185-187 | a harvested farm in the cascade loses its record only |
| Bitter.HungeredAdvances | src/bitter.rs:128-138 | a hunger check in the cascade uses one unit of satiation or leaves a death |
| Bitter.DiedAdvances | src/bitter.rs:189-200 | a death in the cascade leaves a grave under a fresh key on the villager's cell and drops the villager |
| Bitter.MovedAdvances | src/bitter.rs:115-118 | a move in the cascade changes its villager's position only, and no farm's |
| Bitter.HandleAdvances | src/bitter.rs:92-113 | in every stage of a cascade, in a valid world, the top event's handler does not panic, keeps the world valid and moves the stack to the next stage |
| Bitter.TopStep | src/bitter.rs:93-111 | one pop in a valid world: the world stays valid, the stack becomes the next stage's (the popped stack plus the follow-ups), and farms apart and interior positions stay so |
| Bitter.RunStep | src/bitter.rs:93-111 | one pop seen from the run: the top event joins the run so far, the run still meets the order facts, what is left is the rest of the cascade, and the stack's rank goes down |
| Bitter.CascadeCompletes | src/bitter.rs:92-113 | from any stage of a cascade in a valid world, the drain finishes without a panic and leaves a valid world; farms apart and interior positions stay so |
| Bitter.World.constructor | src/bitter.rs:70-90 | the initial world: villager key 0 at (4,4) with satiation 1, farms keys 1-3 at (5,4), (5,5), (5,6), ids 1-4; empty stack; valid, farms apart, all positions interior |
| Bitter.World.KeyOrder | src/bitter.rs:249-267 | in a valid world the iteration lists every villager and every farm, each once |
| Bitter.World.ProcessEvents | src/bitter.rs:92-113 | from the seeded stack, the drain ends in exactly the fields and the run `Cascade` gives, with an empty stack and a valid world (ticks kept); the run meets the order facts; farms apart and positions interior stay so |
| Bitter.World.ProcessTop | src/bitter.rs:93-111 | one round: the popped event is the top one; the stack becomes the rest plus the follow-ups; the fields and follow-ups are `Handle`'s for that event; the world stays valid and the stack moves to the next stage |
| Bitter.World.Pop | src/bitter.rs:93-111 | pops the top event, runs its handler with `Handle`'s outcome, and pushes the follow-ups on the rest of the stack |
| Bitter.World.Dispatch | src/bitter.rs:96-109 | the handler of `evt` runs: the new fields and the returned follow-ups are exactly `Handle`'s outcome for `evt` |
| Bitter.World.VillagerMoved | src/bitter.rs:115-118 | only the villager's position changes, to the clamped move; validity, interior positions and farms apart are kept |
| Bitter.World.VillagerAte | src/bitter.rs:120-126 | satiation up by one and last meal at the current tick; valid when satiation was below 5 |
| Bitter.World.VillagerHungered | src/bitter.rs:128-138 | with satiation above 0: one less, fed now, no output; at 0: nothing changes and the output is VillagerDied |
| Bitter.World.FarmGrew | src/bitter.rs:140-183 | inside the 20-tick cooldown, a no-op; otherwise `lastGrew := ticks` and at most one FarmAdded on a free cell chosen by the next draw, orthogonally adjacent and interior when the farm is |
| Bitter.World.MarkGrown | src/bitter.rs:147-148 | restarts the cooldown of one farm only |
| Bitter.World.RetainUnoccupied | src/bitter.rs:162-171 | the candidates not occupied by the listed farms |
| Bitter.World.FarmHarvested | src/bitter.rs:185-187 | removes only the farm record; positions unchanged |
| Bitter.World.VillagerDied | src/bitter.rs:189-200 | a grave under a fresh key on the villager's cell; the villager record goes; its position and satiation stay |
| Bitter.World.FarmAdded | src/bitter.rs:202-218 | a farm under a fresh key and the next id at `c`; farms stay apart when `c` is free |
| Bitter.World.VillagerHarvested | src/bitter.rs:220-243 | in need with farms: FarmHarvested of the farm the draw picks, then VillagerAte; in need without farms: VillagerHungered; otherwise nothing |
| Bitter.World.GravesCleared | src/bitter.rs:245-247 | removes every grave and nothing else |
| Bitter.World.FarmsCultivated | src/bitter.rs:249-253 | one FarmGrew per farm, in key order |
| Bitter.World.VillagersFarmed | src/bitter.rs:255-259 | one VillagerHarvested per villager, in key order |
| Bitter.World.VillagersMoved | src/bitter.rs:261-267 | one VillagerMoved per villager, in key order, the i-th in the direction of the i-th draw |
| Bitter.World.AddVillagerAt | src/bitter.rs:269-284 | returns `lastId + 1` and stores it; a fresh key with that villager, the position and satiation 1 (validity of the result: `VillagerPlaced`) |
| Bitter.World.AddFarmAt | src/bitter.rs:286-302 | returns `lastId + 1` and stores it; a fresh key with that farm and the position (validity of the result: `FarmPlaced`) |
| Bitter.World.VillagerPlaced | src/bitter.rs:269-284 | a villager placed as add_villager_at places it, in a valid world, leaves the world valid |
| Bitter.World.FarmPlaced | src/bitter.rs:286-302 | a farm placed as add_farm_at places it, in a valid world, leaves the world valid |
| Bitter.World.Tick | src/bitter.rs:304-310 | ticks up by exactly one; when due, the fields and the run are exactly `Cascade`'s for the seeded stack, the run meets the order facts, and the stack ends empty; otherwise nothing else changes, no event runs and no draw is used |
| Bitter.World.AdvanceWorld | src/bitter.rs:312-320 | pushes VillagersMoved, VillagersFarmed, FarmsCultivated, GravesCleared and drains them: the fields and the run are `Cascade`'s for that stack; GravesCleared runs first and VillagersMoved last; ends valid with an empty stack |
| Bitter.World.VillagerIdAt | src/bitter.rs:322-331 | Some exactly when a villager stands at (x, y); then the id of the first such villager in key order |
| Bitter.World.VillagerWithId | src/bitter.rs:333-341 | Some exactly when a villager has that id; the answer is that villager, since ids are unique |
| Tangy.NewWorld | examples/tangy-turnips/tangy.rs:53-62 | the empty world at tick 0 is well formed |
| Tangy.ShipCoordsAfterMove | examples/tangy-turnips/tangy.rs:129-154 | x in [1,6] and y in [0,7] are kept; from the field, the ship moves exactly when the target is in the field; at most one axis changes, by one |
| Tangy.PlayerKeysEmpty | examples/tangy-turnips/tangy.rs:124-128 | in a well-formed world the iteration finds a player ship exactly when there is one |
| Tangy.WithEvent | examples/tangy-turnips/tangy.rs:113-118 | pushes exactly one event on top; every other field unchanged; well-formedness kept |
| Tangy.WithPlayerShipAddedAt | examples/tangy-turnips/tangy.rs:87-98 | a fresh key joins the player ships and the positions at `c`; nothing else changes |
| Tangy.WithEnemyShipAddedAt | examples/tangy-turnips/tangy.rs:100-111 | a fresh key joins the enemy ships and the positions at `c`; nothing else changes |
| Tangy.MovedShip | examples/tangy-turnips/tangy.rs:154 | only the moved ship's position changes; well-formedness and the field are kept |
| Tangy.WithPlayerShipMoved | examples/tangy-turnips/tangy.rs:120-157 | fails with "Found no player ship" exactly when there is none; otherwise moves the first player ship in key order |
| Tangy.WithEnemyShipMoved | examples/tangy-turnips/tangy.rs:159-190 | succeeds exactly when the key has a position, and then moves that ship only |
| Tangy.WithPlayerShipMoveRequested | examples/tangy-turnips/tangy.rs:192-194 | only queues PlayerShipMoved(dir) |
| Tangy.RequestedMoveRuns | examples/tangy-turnips/tangy.rs:192-194 | processing a move request runs the player's move |
| Tangy.EnemyMovesFor | examples/tangy-turnips/tangy.rs:205-209 | one downward move per enemy key, in iteration order |
| Tangy.BatchesAppend | examples/tangy-turnips/tangy.rs:202-209 | extending the stack adds the EnemyShipsMoved counts |
| Tangy.Handle | examples/tangy-turnips/tangy.rs:203-214 | running an event keeps the arena, the clock and the ships; only EnemyShipsMoved pushes events; well-formedness and the field are kept |
| Tangy.WithLatestEventProcessed | examples/tangy-turnips/tangy.rs:196-219 | an empty stack leaves the world unchanged; otherwise it runs the top event and lowers the stack's rank |
| Tangy.PushedRunsFirst | examples/tangy-turnips/tangy.rs:113-118 | the event just pushed is the next to run |
| Tangy.Drain | examples/tangy-turnips/tangy.rs:77-85 | a successful drain ends with an empty stack and the same arena, clock and ships; well-formedness and the field are kept |
| Tangy.WithEventsProcessed | examples/tangy-turnips/tangy.rs:77-85 | the while loop computes the drain and ends with an empty stack |
| Tangy.Ticked | examples/tangy-turnips/tangy.rs:64-75 | on success: ticks up by exactly one, empty stack, same ships, well-formedness and the field kept |
| Tangy.TickedFirstStep | examples/tangy-turnips/tangy.rs:73-74 | EnemyShipsMoved, pushed on top, runs first and puts the enemies' moves above the pending events |
| Tangy.DrainMoves | examples/tangy-turnips/tangy.rs:202-212 | moves on top of the stack all run before anything beneath them |
| Tangy.MovedDownOnce | examples/tangy-turnips/tangy.rs:205-212 | moving distinct keys down in turn moves each of them down once |
| Tangy.EnemyKeysExactly | examples/tangy-turnips/tangy.rs:205 | the enemies' iteration lists every enemy ship once |
| Tangy.EnemiesDownInOrder | examples/tangy-turnips/tangy.rs:205-212 | the enemies' moves, run in stack order, move every enemy ship down once |
| Tangy.TickedMovesEnemiesFirst | examples/tangy-turnips/tangy.rs:64-75 | ticked equals draining the pending stack after every enemy ship has moved one cell down and the clock has advanced |
| Tangy.TickedIdle | examples/tangy-turnips/tangy.rs:64-75 | with nothing pending: every enemy one cell down (clamped), nothing else moves, ticks up by one, empty stack |
| Tangy.AddedPlayerCanMove | examples/tangy-turnips/tangy.rs:87-128 | once a player ship is added, a player move cannot fail |

## Left out

- src/renderer.rs and examples/tangy-turnips/render.rs: these only draw glyphs through a sprite grid that is not part of this model.
- The entities and events submodules of both programs are not part of this model. Their records and events are defined from their uses.
- `Farm::new` receives x and y. The modelled `Farm` keeps only id, key and `lastGrew`, because the position lives in `coords`.
- Randomness: `thread_rng`, `random` and the `Distribution` impl become a fixed oracle stream with a draw counter. No distribution is modelled.
- Slotmap generations and slot reuse: keys are a counter that is never reset, because the arena is never removed from. Iteration is in ascending key order.
- Integer widths: `ticks` and `last_id` are unbounded, with no `usize` overflow. Satiation is `u8`. The overflow of `satiation += 1` is the precondition `satiation < 255` of `VillagerAte`; the cascade proves satiation stays in [0, 5]. Tangy's `u8` coordinates cannot overflow within the clamps.
- Cloning and ownership in tangy.rs: each operation is a value-to-value function.
- Bitter.World.ProcessEvents: it requires the stack that advance_world seeds on an empty stack. That is its only caller, and the stage proof is stated for that stack.
- Bitter.World.Tick: it requires an empty stack. Every public operation leaves the stack empty. The constructor ensures the same.
- Bitter.World.AdvanceWorld: it requires an empty stack, for the same reason.
- Bitter.World.FarmGrew: besides the source's own panics, it requires the world invariant. Iteration order is defined over issued keys, and the farm records must name their own keys.
- Bitter.World.VillagerHarvested: it requires the world invariant, for the same reason.
- Bitter.World.FarmsCultivated: it requires the world invariant, for the same reason.
- Bitter.World.VillagersFarmed: it requires the world invariant, for the same reason.
- Bitter.World.VillagersMoved: it requires the world invariant, for the same reason.
- Bitter.World.VillagerIdAt: it requires `Located`, that every villager key was issued and has coordinates. A valid world meets this (`ValidLocated`).
- Bitter.World.VillagerWithId: it requires `Located`, as above.
- Ghost state: the stage, the trace, `Handle` and `Cascade` exist only for the proofs and do not change the program.
- `GrowFarm` panics on any farm without a position, where farm_grew looks the farms' positions up only while a candidate is left (src/bitter.rs:162-171). In a valid world every farm has a position, so inside a cascade the two agree.
- Each handler's Rust panic (a missing key in a secondary map, a `usize` underflow) is a precondition. Inside the cascade, the stage proof discharges it. Tangy's panics are `Failure` results instead, because its operations are public and can be given any event.

## Notes

- `tick` checks `(ticks + 1) % 20 == 0` after incrementing (src/bitter.rs:305-307), so the first cascade runs on the nineteenth call of `tick`, and every twentieth call after it (`Bitter.CascadeDue`).
- The removal handlers drop only the role-map entry: harvesting a farm, and a villager's death. The `coords` and `satiation` entries of the removed entity persist (src/bitter.rs:185-200). The model keeps those entries too.
- In the ship game, the player ship that moves is the first one in iteration order. Any further player ship never moves (examples/tangy-turnips/tangy.rs:123-128).
