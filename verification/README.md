# Ring of the Middle-earth: a verified model of the game engine

Dafny model of the server of a two-sided game: the map graph with its searches,
the 13-step turn machine, order validation, the two concurrent analyses of
routes, and the parts of the Java stream processors that compute the same things
a second time. `dafny verify dfyconfig.toml` checks everything.

How the files fit together:

- `Walks` says what hops, travel time and reachability mean. `BreadthFirst` and
  `Dijkstra` hold what the searches keep, `Graph` the four searches themselves.
- `Config` and `State` are the data; a lookup of a missing key yields Go's zero
  value. `Sums` and `Combat` treat combat power, `Maia` the abilities.
- `Steps` gives each step of a turn as a function, `Turn` the whole turn and the
  state of a node. `Cache`, `Detection` and `TurnProcessor` are the code: classes
  whose loops take the keys of the maps in any order. Each method is proved to
  compute the function of its step, so the outcome of a turn does not depend on
  any order of traversal (`MapLoops` has the common argument).
- `Ingest` is order validation, `Acceptance` says for every kind of order what is
  accepted and with which code the rest is refused; of routes, walks and nothing else.
- `Runs` interleaves submissions, deliveries and ends of turn: validated orders
  go through a log from which they may be delivered late, out of order or more
  than once. `Setup` starts a node and shows that the objects follow these runs.
- `PathMachine`, `OrderEffects`, `Travels`, `Battles` and `Lifecycle` say what the
  steps of a turn do to paths, units and regions, in terms of the state before the
  turn and of the orders and not of the functions in `Steps`.
- `Journey`, `Timetable`, `Openings`, `Timers`, `Endgame` and `Duplicates` prove what
  holds in every game; `FastestGame` constructs games that attain the bounds on
  travel and on the destruction of the Ring.
- `RouteRisk`, `Intercept` and `Ranking` are the analyses, `FanOut` the goroutines
  and channels they run on, as a state machine over single channel operations.
- `JavaConfig` and `JavaStreams` are the Java code, proved equal to Go's.

Assumed of the configuration (predicate `WellFormed`): path costs are not
negative, path ends and unit IDs are not empty, strengths are at least 1, every
unit is on one of the two sides. The theorems on travel times count a cost below
1 as 1, as the engine does.

Where code and comments disagree, the code is modelled: one attacker that ignores
fortresses cancels the terrain bonus, in the mountains too, where the comment at
combat.go:66-68 speaks of all attackers and of fortresses only (`CommentHoldsIf`).
The Ring can be destroyed only by an order validated when the Ring Bearer is at
Mount Doom already, so `NoEarlyDestruction` is one turn stricter than the travel
time alone.

## Model

| member | source | states |
|---|---|---|
| Graph.MapGraph.AddPath | option-b/internal/game/graph.go:34-43 | appends one edge at either end and records endpoints and cost; every other edge keeps its place |
| Graph.WithPathEdges | option-b/internal/game/graph.go:34-43 | after adding a path, the edges of a region are the old ones and exactly the two new ones |
| Graph.WithPathSymmetric | option-b/internal/game/graph.go:34-43 | adding paths keeps the graph undirected, with equal costs both ways |
| Walks.MinHopsSymmetric | option-b/internal/game/graph.go:34-43 | on an undirected graph the least hop count is the same in both directions |
| Walks.MinTurnsSymmetric | option-b/internal/game/graph.go:34-43 | on an undirected graph the least travel time is the same in both directions |
| Graph.MapGraph.BFSDistance | option-b/internal/game/graph.go:70-97 | the result is the least number of edges over all walks from one region to the other, and -1 exactly if there is no walk |
| BreadthFirst.FirstDiscoveryIsMinHops | option-b/internal/game/graph.go:86-92 | the early exit is sound: when a region is first met, one more than the current depth is its least hop count |
| BreadthFirst.ExhaustedMeansUnreachable | option-b/internal/game/graph.go:96 | when the queue runs dry, whatever was not met cannot be reached by any walk |
| Graph.MapGraph.RegionsWithinHops | option-b/internal/game/graph.go:101-129 | lists exactly the regions whose least hop count is between 1 and the bound, each once, nearest first |
| Dijkstra.PopMinimum | option-b/internal/game/graph.go:226-233 | the contract of the heap: removes some entry of least cost |
| Graph.MapGraph.ShortestTurns | option-b/internal/game/graph.go:136-166 | for non-negative costs, terminates and returns the least total cost over all walks, and -1 exactly if there is none |
| Dijkstra.FirstPopIsFinal | option-b/internal/game/graph.go:146-150 | although outdated entries stay in the heap, the first entry popped for a region carries its least cost |
| Dijkstra.EmptyHeapIsComplete | option-b/internal/game/graph.go:145-166 | when the heap runs dry, every region that can be reached has its least cost |
| Graph.MapGraph.ShortestPath | option-b/internal/game/graph.go:170-212 | returns nothing exactly if the target cannot be reached; otherwise the regions, none twice, of a walk along edges of the graph whose cost is the least |
| Graph.MapGraph.Reconstruct | option-b/internal/game/graph.go:202-211 | following the predecessors terminates and yields the route of a cheapest walk |
| Setup.BuildGraph | option-b/cmd/server/main.go:59-62 | in whatever order the configured paths come, the graph has exactly their edges and costs and is undirected |
| Setup.Server.constructor | option-b/cmd/server/main.go:59-65 | a server just started is in the initial state of the run model |
| Setup.Server.Handle | option-b/cmd/server/main.go:225-240 | one submission, delivery or end of turn changes the objects exactly as the corresponding step of the run model |
| Setup.Server.Play | option-b/cmd/server/main.go:225-240 | refinement: after any sequence of actions the objects are in the state of the run model, so all theorems about runs hold of them |
| Combat.EffectiveStrength | option-b/internal/engine/combat.go:107-131 | one unit counts its strength plus the best bonus among the other leaders of its side |
| Combat.TotalPower | option-b/internal/engine/combat.go:52-64 | the summing loop computes the power of the list |
| Combat.ResolveAttack | option-b/internal/engine/combat.go:43-102 | outcome, powers and damage: the attackers win exactly if their power exceeds the defenders' plus terrain and fortification, where one attacker that ignores fortresses cancels the terrain bonus but never the fortification |
| Combat.CommentHoldsIf | option-b/internal/engine/combat.go:66-79 | the terrain bonus the code grants is the one its comment describes exactly if the terrain has none, or nobody ignores fortresses in the mountains, or all or none of the attackers at a fortress do |
| Combat.CommentFails | option-b/internal/engine/combat.go:66-79 | two attackers, one of them ignoring fortresses, at a fortress, and one in the mountains: code and comment differ |
| Combat.ListPowerIsArmyPower | option-b/internal/engine/combat.go:107-131 | what is added up unit by unit depends only on the set of units and their bonuses |
| Combat.CombatPowerClosedForm | option-b/internal/engine/combat.go:52-64 | for n units of one side with distinct IDs: the sum of strengths plus n-1 times the best bonus plus the second best |
| Combat.PowerIgnoresOrder | option-b/internal/engine/combat.go:52-64 | the power is the same for every order in which the units are listed |
| Combat.ReinforcementNeverHurts | option-b/internal/engine/combat.go:107-131 | a further member of non-negative strength and bonus never lowers the power of an army |
| Combat.ReinforcedListIsNoWeaker | option-b/internal/engine/combat.go:52-64 | one more unit of the same side, of non-negative strength, at the end of the list never lowers the power the loop adds up |
| Combat.ApplyDamage | option-b/internal/engine/combat.go:138-162 | an indestructible unit stays active with strength at least 1; any other loses just the damage if it is below its strength and otherwise falls to 0, respawning or destroyed as configured |
| Maia.DispatchMaiaAbility | option-b/internal/engine/maia.go:46-118 | exactly when an ability applies and with which effect, and which of the refusals a Maia gets on cooldown, when disabled or away from the path |
| Detection.IsSauronEyeActive | option-b/internal/engine/detection.go:90-108 | whether the Eye is open does not depend on the order of the scan |
| Detection.RunDetection | option-b/internal/engine/detection.go:35-83 | exposed exactly if the hidden turns are over and some active hunter is within its range in least hops, one more with the Eye open; the reported hunter is one that detects |
| CacheStore.WorldStateCache.constructor | option-b/internal/game/cache_helpers.go:11-80 | the initial cache and hidden record |
| CacheStore.WorldStateCache.TakeSnapshot | option-b/internal/game/cache_helpers.go:145-168 | a snapshot holds the same values as the cache |
| CacheStore.WorldStateCache.Update | option-b/internal/game/cache_helpers.go:145-168 | the snapshot is written back, the turn advanced by one and nothing else changed |
| CacheStore.WorldStateCache.DisableCorruptPathMaias | option-b/internal/game/cache_helpers.go:186-195 | whatever the order of the scan, exactly the Maias with a list of paths become disabled |
| Processor.TurnProcessor.SyncTurn | option-b/internal/engine/turn_processor.go:86-95 | follows the cache's turn; pending orders are dropped exactly if the turn went back |
| Processor.TurnProcessor.BufferOrder | option-b/internal/engine/turn_processor.go:921-939 | an order is kept exactly if it is for the current turn and the unit has none waiting |
| Processor.TurnProcessor.StepRouteOrders | option-b/internal/engine/turn_processor.go:246-282 | the loop computes the function RouteOrders on units and hidden record |
| Processor.TurnProcessor.StepBlockAndSearch | option-b/internal/engine/turn_processor.go:310-355 | the loops compute BlockAndSearch, whatever the order of the paths |
| Processor.TurnProcessor.PathGuardedByEnemy | option-b/internal/engine/turn_processor.go:291-308 | true exactly if an enemy fellowship guard stands at an end of the path |
| Processor.TurnProcessor.StepReinforceAndDeploy | option-b/internal/engine/turn_processor.go:357-389 | the loop computes MoveOrders |
| Processor.TurnProcessor.StepFortify | option-b/internal/engine/turn_processor.go:391-407 | the loop computes FortifyOrders |
| Processor.TurnProcessor.StepMaiaAbilities | option-b/internal/engine/turn_processor.go:409-451 | the loop computes MaiaOrders on units and paths, of which OrderEffects.StepSix says what becomes of a path and Openings.UseExactly which uses succeed |
| Processor.TurnProcessor.StepAutoAdvance | option-b/internal/engine/turn_processor.go:453-568 | every active unit and the hidden Ring Bearer travel as the function Travel says, whatever the order of the units; sightings and moves are published in order |
| Processor.TurnProcessor.GatherArmies | option-b/internal/engine/turn_processor.go:583-600 | the two lists hold exactly the friends and the foes, each once, in some order |
| Processor.PowerOfEnumeration | option-b/internal/engine/combat.go:52-64 | the power of an army gathered in any order is that of the set of its units |
| Processor.TurnProcessor.Attack | option-b/internal/engine/turn_processor.go:570-637 | one attack, for every order of gathering, computes the function AttackOrder; Battles.OneAttack says who moves, who is hurt and by how much, who controls the region and which Maias are disabled |
| Battles.OneAttack | option-b/internal/engine/turn_processor.go:570-637 | one attack by itself: won exactly if the margin is positive; then the region belongs to the attackers' side, all of them stand in it and the defenders have lost the margin or fallen; otherwise control stays and the attackers have lost 1 or fallen; nobody else, no other region, and only the fall of Isengard to the Free Peoples disables Maias |
| Battles.MarginByLists | option-b/internal/engine/combat.go:43-102 | for all lists of the active friends where the attacker stands and of the active foes in the target, the margin is the difference of the powers the code adds up, less the ground (2, 1 or 0, nothing if an attacker ignores it) and 2 for walls |
| Battles.ControlInGames | option-b/internal/engine/turn_processor.go:612-626 | in every turn of every game a region belongs to the side that took it last in it and otherwise to whom it belonged before, and the Maias with a list of paths are disabled exactly if the Free Peoples took Isengard |
| Battles.FirstStrike | option-b/internal/engine/turn_processor.go:570-637 | any attack accepted at the start takes its region in the first turn exactly if the attackers are stronger, so Isengard can fall |
| Processor.TurnProcessor.StepCombat | option-b/internal/engine/turn_processor.go:570-637 | all attacks in order |
| Processor.TurnProcessor.StepTempOpenTimers | option-b/internal/engine/turn_processor.go:639-656 | the loop computes TickPaths, whatever the order of the paths |
| Processor.TurnProcessor.StepFortifyTimers | option-b/internal/engine/turn_processor.go:658-669 | the loop computes TickRegions, whatever the order of the regions |
| Processor.TurnProcessor.StepRespawnAndCooldown | option-b/internal/engine/turn_processor.go:671-696 | the loop computes TickUnits, whatever the order of the units |
| Processor.TurnProcessor.EvaluateWinConditions | option-b/internal/engine/turn_processor.go:700-733 | the winner as a function of units, hidden record and orders, whatever the order of the scans; Endgame.Outcome says in every game who that is |
| Processor.TurnProcessor.ProduceGameOver | option-b/internal/engine/turn_processor.go:855-887 | marks the game as over and publishes the two announcements |
| Processor.TurnProcessor.PlaySteps | option-b/internal/engine/turn_processor.go:119-160 | steps 2 to 12 together compute the function PlayTurn |
| Processor.TurnProcessor.ConcludeTurn | option-b/internal/engine/turn_processor.go:160-209 | win check, clean-up and write-back compute the function EndTurn |
| Processor.TurnProcessor.AdvanceTurn | option-b/internal/engine/turn_processor.go:114-209 | determinism: the whole new state and everything published is one function of the old state, for every order in which any map is visited |
| Ingest.OrderIngest.ValidateRoute | option-b/internal/kafkaclient/order_ingest.go:228-259 | the loop over the path list computes RouteCode |
| Ingest.RouteCodeMeansConnected | option-b/internal/kafkaclient/order_ingest.go:228-259 | accepted exactly if each path starts where the last one ended and, for the Ring Bearer, the first is not blocked |
| Ingest.ConnectedIsWalk | option-b/internal/kafkaclient/order_ingest.go:228-259 | a connected list of paths is the list of paths of a walk on the graph |
| Ingest.WalkIsConnected | option-b/internal/kafkaclient/order_ingest.go:228-259 | the paths of every walk are accepted as connected |
| Acceptance.ProperOrders | option-b/internal/kafkaclient/order_ingest.go:199-226 | the checks for every order: accepted only if everything is named, the unit known, active and the player's own and the turn the current one, and which code each failure gets; the rule for the kind decides the rest |
| Acceptance.RouteAcceptance | option-b/internal/kafkaclient/order_ingest.go:228-259 | a proper route order is accepted exactly if its paths, the new ones of a redirection, are those of a non-empty walk from where the unit is, for the Ring Bearer where his side sees him, and his first path is not blocked, which is the one case of PATH_BLOCKED |
| Acceptance.BlockAcceptance | option-b/internal/kafkaclient/order_ingest.go:260-274 | a proper blocking order is accepted exactly for a known path with the unit at an end and no active enemy fellowship guard at either, with the code of every refusal |
| Acceptance.SearchAcceptance | option-b/internal/kafkaclient/order_ingest.go:260-274 | a proper search order is accepted exactly for a known path with the unit, of the Shadow, at an end, with the codes of the refusals |
| Acceptance.AttackAcceptance | option-b/internal/kafkaclient/order_ingest.go:276-279 | a proper attack order is accepted exactly for a known region that is neither neutral nor the unit's own and that a configured path joins to where it stands |
| Acceptance.UnitAcceptance | option-b/internal/kafkaclient/order_ingest.go:281-312 | proper orders for abilities need a rested unit and a known path, deploying a detecting unit of the Shadow, fortifying one that can; reinforcing is always accepted; with their codes |
| Acceptance.DestroyAcceptance | option-b/internal/kafkaclient/order_ingest.go:299-308 | a proper order to destroy the Ring is accepted exactly from the Ring Bearer, seen at Mount Doom, with no active unit of the Shadow there |
| Ingest.OrderIngest.ValidateRawOrder | option-b/internal/kafkaclient/order_ingest.go:193-315 | the verdict as a function of the cache and the submission, for every order of the scans; the lemmas of module Acceptance say for each kind of order what it is |
| Ingest.OrderIngest.GuardedByEnemyFellowship | option-b/internal/kafkaclient/order_ingest.go:317-336 | true exactly if an active enemy guard stands at an end of the path |
| Ingest.OrderIngest.DarkSideActiveAtRegion | option-b/internal/kafkaclient/order_ingest.go:338-349 | true exactly if an active unit of the Shadow stands in the region |
| Ingest.OrderIngest.RegionIsEnemyAdjacent | option-b/internal/kafkaclient/order_ingest.go:351-368 | true exactly if the target is known, neither neutral nor own, and a neighbour |
| Ingest.OrderIngest.PruneSeenOrders | option-b/internal/kafkaclient/order_ingest.go:114-120 | keeps exactly the turns from the current one on |
| Ingest.OrderIngest.IngestOrder | option-b/internal/kafkaclient/order_ingest.go:52-112 | one event: verdict, memory, log and rejections |
| Duplicates.NoDuplicatesInvariant | option-b/internal/kafkaclient/order_ingest.go:80-108 | in every game no two validated orders have the same unit and turn, and the memory covers the current turn and holds at most one turn |
| Duplicates.DuplicateExactlyIfLogged | option-b/internal/kafkaclient/order_ingest.go:80-108 | in every game a valid submission is turned down as a duplicate exactly if an order of that unit and turn has been validated |
| Runs.BasicInvHolds | option-b/internal/engine/turn_processor.go:86-95 | in every game: pending orders have distinct units and the current turn; validated orders of the current turn were accepted against the current state; no unit and no path appears or disappears |
| Runs.StartOfGame | option-b/internal/game/cache_helpers.go:11-80 | the first turn finds everybody active, whole, rested and at home, all paths open and unwatched and the regions as configured |
| Runs.DeliveryExactly | option-b/internal/engine/turn_processor.go:921-939 | a delivery adds the order exactly if it is for the current turn and its unit has none waiting, and changes nothing else |
| Runs.ClockAfterAdvance | option-b/internal/engine/turn_processor.go:114-209 | each turn played moves the clock by exactly one and empties the buffer; after the end nothing but the synchronisation happens |
| Journey.JourneyInv | option-b/internal/engine/turn_processor.go:508-566 | in every game what is left of the Ring Bearer's route leads on from where he really is, the Light's view is the hidden record, and the distance covered is at most the turns played |
| Journey.RingBearerCrossesEdges | option-b/internal/engine/turn_processor.go:508-566 | in every turn of every game the Ring Bearer stays or crosses one edge of the graph, although the engine does not check routes |
| Journey.SpeedLimit | option-b/internal/engine/turn_processor.go:508-566 | after k turns of any game he is at most k turns of travel from his start, however often he is redirected on the way |
| Journey.NoEarlyDestruction | option-b/internal/engine/turn_processor.go:700-733 | the Ring is destroyed only if Mount Doom can be reached, and never before one turn more than the least travel time there |
| Journey.ClockCountsTurns | option-b/internal/engine/turn_processor.go:114-209 | until the game is over the clock shows exactly the turns played |
| PathMachine.PathInvariant | option-b/internal/engine/turn_processor.go:310-355 | between turns of every game: a path has a blocker exactly if it is blocked or temporarily open, a threatened path is watched, surveillance is between 0 and 3, a temporarily open path has one turn left |
| PathMachine.SurveillanceNeverFalls | option-b/internal/engine/turn_processor.go:409-451 | no action of any game lowers the surveillance of a path |
| PathMachine.BlockersHoldTheirPaths | option-b/internal/engine/turn_processor.go:639-656 | in every turn, after step 3 each blocked path has its blocker at one of its ends, and a path whose time runs out goes back to its blocker: the other branch is never taken |
| PathMachine.TurnFollows | option-b/internal/engine/turn_processor.go:114-209 | turns with only orders in between start from the cache the last one left |
| PathMachine.PathThroughOrders | option-b/internal/engine/turn_processor.go:310-355 | through the orders of step 3 a path ends blocked by somebody at its end exactly if one of them blocks it, and every search raises its surveillance by one up to 3 |
| PathMachine.StepThree | option-b/internal/engine/turn_processor.go:310-355 | all that step 3 does to a path, from the state before the turn: blocked exactly if a waiting order blocks it or its blocker has stayed, open for a time exactly if it was and no order blocks it, threatened exactly if watched or so before; one more surveillance for each search |
| OrderEffects.UnitByItsOrder | option-b/internal/engine/turn_processor.go:246-282 | steps 2 and 4 on a unit: with no order it stays as it is; with one it has the new route from its start, or stands in the region ordered, no longer under way, if that is a neighbour or it can be deployed |
| OrderEffects.StepFive | option-b/internal/engine/turn_processor.go:391-407 | a region is fortified for two turns exactly if an order of a unit that can and stands there waits, and is otherwise left alone |
| OrderEffects.StepSix | option-b/internal/engine/turn_processor.go:409-451 | all that step 6 does to a path: opened for two turns, for its blocker, exactly if it is blocked and an opener waits; surveillance 3 exactly if a corrupter comes upon it while it is not open for a time |
| Openings.UseExactly | option-b/internal/engine/maia.go:46-118 | which waiting uses of an ability succeed, told from the state before the turn: the first of a rested Maia without a list of paths at an end of the blocked path, and those of a rested, not disabled Maia at an end of a path on its list |
| Openings.UseTakesEffect | option-b/internal/engine/turn_processor.go:430-447 | in every game a successful use on a path leaves it, after the later orders of the step too, open for two turns with its old blocker, or with surveillance 3 |
| Openings.PassableExactly | option-b/internal/engine/turn_processor.go:508-566 | a path can be entered in step 7 exactly if it is not blocked in step 3 or somebody opens it in step 6 |
| Openings.StepNine | option-b/internal/engine/turn_processor.go:639-656 | of the paths only those open for a time change after step 6: one turn less, and blocked again after the last |
| Openings.OpenedForTwoTurns | option-b/internal/engine/maia.go:84-98 | in every game, if a path is blocked and an opener waits, it is passable in that turn; in the next exactly if no waiting order blocks it or an opener waits; not blocked, it goes back to its old blocker and is passable in the third turn exactly if he has left and no order blocks it, or an opener waits |
| Lifecycle.UnitInvariant | option-b/internal/engine/combat.go:138-162 | in every game active units have strength between 1 and the configured one, all others 0; indestructible units are active; only those that may respawn do |
| Lifecycle.StepEleven | option-b/internal/engine/turn_processor.go:671-696 | after combat a respawning unit comes one turn nearer to its return or is back, whole and at home, a cooldown runs down by one, and nothing else about a unit changes |
| Lifecycle.DestroyedForGood | option-b/internal/engine/turn_processor.go:671-696 | in every game a destroyed unit stays destroyed |
| Lifecycle.FelledUnit | option-b/internal/engine/turn_processor.go:671-696 | a unit felled in a turn with R respawn turns ends that turn with R-1 to go, or back at home if R is 1 |
| Lifecycle.RespawnSchedule | option-b/internal/engine/turn_processor.go:671-696 | with k turns to go it keeps respawning for k-1 more turns and is active, whole and at home at the end of the k-th |
| Endgame.AnnouncedOnce | option-b/internal/engine/turn_processor.go:855-887 | in every game the end is announced exactly once, when it comes |
| Endgame.EndsInTime | option-b/internal/engine/turn_processor.go:160-209 | every game is over once the maximum number of turns has been played |
| Endgame.OverForGood | option-b/internal/engine/turn_processor.go:114-135 | after the end no action changes the cache, the hidden record or what has been published |
| Endgame.HunterDetects | option-b/internal/engine/detection.go:54-80 | after the hidden turns an active hunter in the Ring Bearer's own region always detects him |
| Endgame.HiddenTurnsExposeNobody | option-b/internal/engine/detection.go:44-52 | during the hidden turns neither travel nor detection exposes him |
| Endgame.Outcome | option-b/internal/engine/turn_processor.go:700-733 | in every turn of every game, told of the units, orders and hidden record: the Light wins exactly if a destroy order waits, the Ring Bearer ends the turn at Mount Doom and no active unit of the Shadow does; otherwise the Shadow exactly if the hidden turns are over and an active hunter ends it in his region, exposed before or not; otherwise a draw exactly if no turn is left; what is announced is the winner and the turn |
| Timers.UsesAreApart | option-b/internal/engine/turn_processor.go:409-451 | in every game two successful uses of an ability with cooldown C are at least C turns apart and never in one turn |
| Timers.RegionInvariant | option-b/internal/engine/turn_processor.go:658-669 | between turns of every game a fortification has one turn left, and no region's threat level ever changes |
| Timers.FortifiedForTwoTurns | option-b/internal/engine/turn_processor.go:658-669 | a region with a fortifying order counts as fortified in the combat of that and the next turn, and in the third exactly if there is such an order in one of the later two |
| Timers.FallInvariant | option-b/internal/game/cache_helpers.go:186-195 | in every game, if the Free Peoples hold Isengard and did not to begin with, every Maia with a list of paths is disabled |
| Timers.NoCorruptionAfterTheFall | option-b/internal/game/cache_helpers.go:198-210 | once Isengard has fallen to the Free Peoples no ability changes the surveillance of a path in any later turn, even if the Shadow takes it back |
| Timetable.ExactTravelTime | option-b/internal/engine/turn_processor.go:516-564 | unhindered and without new orders, the Ring Bearer has the i-th stop behind or under him exactly from the turn on that the costs of the first i paths, each at least 1, add up to, and stands in it in that turn |
| Travels.UnitsTravel | option-b/internal/engine/turn_processor.go:453-507 | in every turn of every game an active unit comes one turn nearer to the end of its route, blocked path or not, and is in the next region exactly when the turns of the path are over; it stays exactly if the route is done, or it has not set out and the next path is blocked or unknown |
| Travels.RingBearerTravels | option-b/internal/engine/turn_processor.go:508-566 | the same of the hidden Ring Bearer |
| Travels.SightingsOfTurn | option-b/internal/engine/turn_processor.go:543-560 | what a turn records and publishes about him: the sighting on a path watched at level 1 or more, the move, the detection, in this order and with turn and region |
| Travels.ExposedExactly | option-b/internal/engine/detection.go:54-80 | in every turn of every game he is exposed exactly if the hidden turns are over and he crosses a watched path or ends within the range of an active hunter, one more with the Eye open |
| Timetable.SpeedLimitIsAttained | option-b/internal/engine/turn_processor.go:516-564 | on a cheapest walk with costs of at least 1 an unhindered Ring Bearer arrives after exactly the least travel time |
| FastestGame.QuietTurn | option-b/internal/engine/turn_processor.go:114-209 | a turn in which only the Ring Bearer has orders leaves everybody else at home and all paths open |
| FastestGame.RouteIsAccepted | option-b/internal/kafkaclient/order_ingest.go:193-315 | at the start the paths of any non-empty walk from his home are accepted as the Ring Bearer's route |
| FastestGame.NothingInTheWay | option-b/internal/engine/turn_processor.go:453-568 | after one order the Ring Bearer departs and travels on unhindered, as long as the game may last and no hunter lives on the route once the hidden turns are over |
| FastestGame.FastestArrival | option-b/internal/engine/turn_processor.go:508-566 | there is a game in which he arrives in exactly the least travel time, under the same conditions, and none in which he arrives sooner |
| FastestGame.EarliestDestruction | option-b/internal/engine/turn_processor.go:700-733 | there is a game in which the Ring is destroyed one turn after the least travel time to a free Mount Doom, and none in which it is destroyed sooner |
| Timetable.RerouteTakesEffect | option-b/internal/engine/turn_processor.go:246-282 | a waiting route order of the one Ring Bearer becomes his route, and it leads on from where he really is |
| RouteRisk.ResolveRouteRegions | option-b/internal/pipeline/route_risk.go:313-336 | the loop computes RouteRegions, for every path list, known or not, connected or not |
| RouteRisk.RegionsOfWalk | option-b/internal/pipeline/route_risk.go:313-336 | on the paths of a walk the regions are exactly the ones the walk visits |
| RouteRisk.RegionsOfAcceptedRoute | option-b/internal/pipeline/route_risk.go:313-336 | on an accepted route order the regions are exactly those of the walk that was accepted |
| RouteRisk.ComputeNazgulProximity | option-b/internal/pipeline/route_risk.go:238-257 | counts exactly the active hunters at most 2 least hops from the route, each once, whatever the order of the units |
| RouteRisk.ComputeRouteRisk | option-b/internal/pipeline/route_risk.go:192-233 | the loops compute the report, which RiskInCache spells out |
| RouteRisk.RiskFormula | option-b/internal/pipeline/route_risk.go:192-233 | the score of a report is the threats of the regions, 3 times the surveillances, 5 for each blocked path, 2 for each threatened one and 2 for each hunter within two hops, and the reported lists have each path as often as it occurs if it has the status, otherwise not at all |
| RouteRisk.RiskInCache | option-b/internal/pipeline/route_risk.go:192-257 | the same in terms of the cache |
| RouteRisk.ComputeRouteRiskForPathIds | option-b/internal/pipeline/route_risk.go:64-78 | the report on a submitted route |
| JavaConfig.StreamsConfig.constructor | kafka/streams/src/main/java/rotr/streams/ConfigModel.java:110-130 | in whatever order the paths come, two regions are adjacent exactly if a configured path joins them |
| JavaConfig.StreamsConfig.AreAdjacent | kafka/streams/src/main/java/rotr/streams/ConfigModel.java:135-137 | on a loaded configuration, exactly if a configured path joins the regions |
| JavaConfig.EdgesJoin | kafka/streams/src/main/java/rotr/streams/ConfigModel.java:135-137 | a configured path joins two regions exactly if the Go graph has an edge between them |
| JavaConfig.StreamsConfig.Distance | kafka/streams/src/main/java/rotr/streams/ConfigModel.java:139-163 | the result is the least hop count over all walks, and half the largest integer exactly if there is no walk |
| JavaConfig.SameDistances | kafka/streams/src/main/java/rotr/streams/ConfigModel.java:139-163 | on the same configuration the least hop counts of the Java and the Go graph are equal |
| JavaStreams.RouteRiskTransformer.ComputeRouteRisk | kafka/streams/src/main/java/rotr/streams/RouteRiskTopology.java:121-172 | the single pass computes the same report function as Go's several passes, on what the stores show; RiskInStores spells it out |
| JavaStreams.RiskInStores | kafka/streams/src/main/java/rotr/streams/RouteRiskTopology.java:121-179 | the score and the two lists in terms of the stores and the configuration, with the weights 3, 5, 2 and 2 |
| JavaStreams.RouteRiskTransformer.Transform | kafka/streams/src/main/java/rotr/streams/RouteRiskTopology.java:86-119 | the report on the route from the unit's starting region |
| JavaStreams.GoAndJavaAgree | kafka/streams/src/main/java/rotr/streams/RouteRiskTopology.java:121-172 | in every state of every game, if the stores are up to date, both implementations report the same score, threatened and blocked paths for every path list |
| JavaStreams.SameView | kafka/streams/src/main/java/rotr/streams/RouteRiskTopology.java:121-179 | both implementations look at the same view exactly if the stores are up to date |
| JavaStreams.EmptyStoresUpToDate | option-b/internal/engine/turn_processor.go:211-242 | stores without unit and path events, which is what the engine's turns leave, are up to date exactly while no path is marked or watched and no hunter has fallen or left home |
| JavaStreams.ValidationTransformer.ValidateRoute | kafka/streams/src/main/java/rotr/streams/ValidationTopology.java:171-198 | the loop computes the same route rule as Go's, on what the stores show |
| JavaStreams.SameRouteVerdict | kafka/streams/src/main/java/rotr/streams/ValidationTopology.java:171-198 | if the stores are up to date, Java gives Go's verdict on every route order that passes the common checks |
| FanOut.InvHolds | option-b/internal/pipeline/route_risk.go:137-172 | in every interleaving undispatched, buffered, held, collected and dropped items together are the work items; nothing is dropped without cancellation; the wait group counts the workers that are left |
| FanOut.NoSendOnClosedChannel | option-b/internal/pipeline/route_risk.go:141-166 | in every interleaving whoever is about to send finds the channel open |
| FanOut.SomethingCanMove | option-b/internal/pipeline/route_risk.go:137-172 | no deadlock: while any goroutine is left one of them can move, without any cancellation |
| FanOut.RunsAreShort | option-b/internal/pipeline/route_risk.go:137-172 | no run has more steps than 4 per work item, 2 per worker and 5 |
| FanOut.RunsCanFinish | option-b/internal/pipeline/route_risk.go:339-360 | every run, cancelled or not, can be continued until all goroutines have returned |
| FanOut.OneScorePerWorkItem | option-b/internal/pipeline/route_risk.go:168-176 | when the aggregator is through: without cancellation exactly the work items were scored and all goroutines have returned; with cancellation a sub-multiset was |
| Ranking.SiftDown | option-b/internal/pipeline/route_risk.go:263-265 | the inner loop puts an element behind everything with the same or a lower risk |
| Ranking.Aggregate | option-b/internal/pipeline/route_risk.go:260-285 | sorts in place to the function Ranked; recommendation and warnings |
| Ranking.RankedIsSorted | option-b/internal/pipeline/route_risk.go:260-265 | the ranking is in order of risk and a permutation of the scores |
| Ranking.RankedIsStable | option-b/internal/pipeline/route_risk.go:260-265 | scores of equal risk stay in the order of arrival |
| Ranking.RecommendedIsBest | option-b/internal/pipeline/route_risk.go:267-270 | the recommended route has the least risk and arrived first among those |
| Ranking.SchedulingDoesNotMatter | option-b/internal/pipeline/route_risk.go:128-181 | two analyses of the same work that are not cancelled score all routes and rank the same risks, however they were scheduled |
| Intercept.ComputeInterceptScore | option-b/internal/pipeline/intercept.go:206-257 | the best score is the maximum over the positions of the route, with its first position, or 0 with none |
| Intercept.InterceptionOptimum | option-b/internal/pipeline/intercept.go:230-254 | the score is positive exactly if some region can be reached by the Ring Bearer's arrival and in fewer turns than the route has regions; the target is then the first such region that takes the fewest turns, and the score the share of the route's length that they leave over |
| Intercept.OneResult | option-b/internal/pipeline/intercept.go:206-257 | each work item has exactly one possible result |
| Intercept.OneScoring | option-b/internal/pipeline/intercept.go:206-257 | there is exactly one assignment of results to work items that the code can make |
| Intercept.ArrivalIsTimetable | option-b/internal/pipeline/intercept.go:219-233 | the accumulated cost is the number of turns the engine takes |
| Intercept.PredictionComesTrue | option-b/internal/pipeline/intercept.go:219-233 | unhindered, the Ring Bearer stands in the i-th region of his route in exactly the turn the analysis expects |
| Intercept.BuildWorks | option-b/internal/pipeline/intercept.go:116-136 | one work item per active hunter and route, whatever the order of the units |
| Intercept.BestByUnit | option-b/internal/pipeline/intercept.go:177-183 | each Nazgul with a result gets one of its best |
| Intercept.ArrivalOrderDoesNotMatter | option-b/internal/pipeline/intercept.go:177-183 | the best scores are the same for every order of arrival |
| Intercept.BestIsOptimal | option-b/internal/pipeline/intercept.go:177-183 | from all results together: an entry for exactly the active hunters, each the result of one of its routes and no position of any route scoring higher |
| Intercept.PlanDependsOnStateOnly | option-b/internal/pipeline/intercept.go:113-196 | two analyses of the same state that are not cancelled have entries for exactly the active hunters and give each the same score, the greatest over all positions of all routes |

## Left out

- Kafka, Avro, HTTP, server-sent events, logging, clocks, leader election and the consumption of offsets: I/O or library code. Published messages are a list of events.
- Reading JSON and the configuration files: orders and configuration are values. A submission without a type is `MissingType`; parsing failures are not modelled.
- Echoes of the node's own messages (cache_updates.go): they can move the turn or a path status backwards. Runs consist of submissions, deliveries and ends of turn.
- Delta events of a turn: the code compares a snapshot with itself, because the copy shares its maps, so it publishes none.
- Reset of a game, and concurrent use of one node: each action of a run is atomic, as under the node's locks.
- The Dark side's view, the names of winner and cause as strings (one `Winner` each), and IDs repeated inside path and region records.
- 64-bit overflow: Go's and Java's integers are unbounded here, except for the value Java's distance gives to unreachable regions. Negative path costs are excluded, the weighted searches need not end on them.
- The heap's array: `PopMinimum` has the contract of heap.Pop, removal of some entry of least cost. The mutex-guarded variables of the package (hidden record, disabled Maias) are fields of the cache.
- Ordinary units moving edge by edge: false in the code, since reinforcing, deploying and combat move a unit and keep its old route. `UnitsTravel` says where they get instead.
- The Ring Bearer's public region: step 7 also moves his public record. Statements about his position are about the hidden one.
- Floating-point rounding: interception scores are real numbers.
- Processor.TurnProcessor.ProduceGameOver: does not model the pause before the message, because it is a wait for tests.
- JavaStreams.SameRouteVerdict: does not compare the rest of the two validators, because their checks differ in order and on Maia orders.
- JavaStreams.GoAndJavaAgree: needs stores that are up to date. The engine's turns, the only Go producer on the unit and path topics, publish nothing there (see delta events), so unless somebody else writes to them the stores stay as at the start, and `EmptyStoresUpToDate` says exactly how long that is right.
- FanOut.SomethingCanMove: needs at least one worker and room for one item; the source has four workers and room for 20 or 30.
- Ranking.SchedulingDoesNotMatter: does not fix the order among routes of equal risk, because that is the order of arrival.
- Intercept.PlanDependsOnStateOnly: does not fix which of several equally good routes is reported, because that is the first to arrive.
- The four canonical routes and the texts of warnings: data.
