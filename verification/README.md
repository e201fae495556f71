# Terminal Army: a verified model of the game world

Terminal Army is a multiplayer space strategy game: players own planets with three resource
pools, order buildings, research, ships and defenses, and send fleets that attack, deliver,
deploy, colonize, spy or recycle.  A scheduler finishes queue rows and moves fleets.  This
project models that world as one transactional state machine and proves what every
transaction, every run and every scheduler tick keeps.  Two independent components are
modelled as well: the token bucket that guards sign-in, and the device sign-in protocol.

## How the model is organised

- `Catalog`, `Formulas`, `Production`, `Accrual`: constant tables, costs and durations, the
  hourly economy, and lazy accrual against an eager simulation.
- `Flight`: ship speeds, flight times and the odds of espionage.
- `Combat`, `CombatProperties`: the damage exchange on mutable slices, its closed form, its
  independence of map order, and what its report means.
- `World`: the tables as values and one function per transition.  `Step` and `Legal` describe
  runs; every transaction reads a monotone clock twice, when it refreshes and when it writes.
- `Ledger`, `Arsenal`, `Settlement`, `Effects`, `QueueSafety`, `TechTree`, `Colonies`, `Runs`:
  invariants and theorems over all runs.  `Windows` lifts lazy accrual to runs of the whole state,
  `Forfeits` accounts for the time that nobody is paid for, `Recalls` follows return times through
  late writes of recalls, and `Backlogs` counts the sweeps that due fleets wait for.
- `Raids`, `Launches`, `Landings`, `Probes`, `Bills`, `Yields`: what an attack, a dispatch, a
  landing, a spy, an order and a look do, stated from the constant tables and the rows alone,
  without the functions that `World` computes it with; `Figures` holds the values that the
  repository's own tests expect.
- `Database`, `Services`, `Scheduler`: the same transitions as statements on mutable tables,
  with loops over maps in arbitrary order, early exits and rollback, each proved equal to its
  transition.  `Services` holds the transactions of the command side, `Scheduler` the sweeps.
  The single-statement writes of `Database.Tables` are their helpers and have no rows below.
- `RateLimiter`, `Sessions`: the two independent components.
- `Wrappers`, `Sums`: optional values, and sums over rows and keys.

The theorems hold for every `Env`, that is, for any production report with non-negative rates,
any non-negative storage capacity and any flight time of at least a second; `World.Universe`
builds the one of the source.  `Windows` also assumes what `UniverseIsFixed` proves of it: rates
and silos do not depend on what is in stock.

## Readings taken

- The comment on the defender pool (internal/game/fleet.go:293-303) says it shares memory with
  the defender slices; `append` copies, so the survivors and the winner are read from unchanged
  slices.  The model follows the code (`AsCoded`), states the intended result beside it
  (`AsDocumented`), and proves exactly when the two agree.
- `fleet_ships` has no unique constraint for the upsert of internal/store/fleets.go:265-270
  (internal/store/migrations/000001_initial_schema.up.sql:162-168); the intended overwrite is
  modelled.
- `applyBuilding` does not refresh resources first, so the new rates and silos cover the
  unsettled window, to the player's gain or loss; the transitions do as the code does,
  `FinishIsHarmlessIff` says exactly when it matters, and `FinishCanCostCrystal` shows a loss.
- A transaction that pays or receives writes its own clock reading as the cursor, although its
  refresh was skipped within a second of the last one or used an earlier reading: the span in
  between is never credited (`PaidInFullIff`, `TwoOrdersLoseTime`).
- Floating point is read as exact arithmetic, growth factors as exact rationals, truncation as
  `Floor` (amounts are never negative on reachable states).
- Cancelling can leave a gap below a later upgrade: exact condition in `CancelIsGaplessIff`,
  input in `CancelLeavesAGap`.
- A recall reads the fleet unlocked and writes later, whatever has become of the row.  Written
  after the arrival it overwrites the return time with an earlier one, so the fleet is home
  sooner than it was out (`ReturnIsSymmetricIff`, `LateRecallReturnsEarly`); written after the
  homecoming it marks the row returning again (`ReturnedStaysOverRunIff`,
  `LateRecallReopensTheRow`), without ever unloading it again (`UnloadedAtMostOnce`).
- A finishing row is the earliest on its planet among active rows; `SweepIsARun` shows that
  this is what the ordered sweep does.

## Model

| member | source | states |
|---|---|---|
| Ledger.ShipsAreConserved | internal/svc/fleet.go:139-241 | over every legal run, for every ship type, ships on planets plus ships in unsettled fleets change by exactly what was built minus what was lost (battle losses of both sides, caught spies, one colony ship per colony, fleets without a home), and every reachable state is sound: no pool, count or cargo is negative |
| Ledger.WealthIsConserved | internal/scheduler/fleet.go:256-849 | over every legal run, pools plus holds change by exactly production and refunds minus clipping, queue costs, fuel and the cargo of destroyed fleets; dispatch, delivery, deployment, loot, colonization and return move resources with zero net change |
| Arsenal.DefensesAreConserved | internal/scheduler/fleet.go:205-219 | over every legal run, for every type, the defenses on all planets change by exactly what was built minus what attacks shot down |
| Arsenal.PlanetDefenses | internal/scheduler/fleet.go:205-219 | a step changes the defenses of the one planet it is about, by what it finishes there minus what it shoots down there, and of no other |
| Arsenal.DefenseLossesBounded | internal/scheduler/fleet.go:205-219 | both flows are non-negative, and an attack shoots down no more than stood on the planet |
| Ledger.StepBalances | internal/scheduler/fleet.go:84-849 | the same for one step of any kind: the state stays sound and both books balance |
| Ledger.AttackBalances | internal/scheduler/fleet.go:113-352 | an attack kills what the battle says and moves loot from the pools into the hold; nothing else appears or disappears, and a wiped-out fleet takes its cargo with it |
| Ledger.TransportBalances | internal/scheduler/fleet.go:372-428 | a delivery moves the whole cargo into the target's pools, or none of it when the slot is empty |
| Ledger.DeployBalances | internal/scheduler/fleet.go:435-490 | a deployment merges ships and cargo into one's own planet, and is a transport on anybody else's |
| Ledger.ColonizeBalances | internal/scheduler/fleet.go:513-637 | founding a colony costs exactly one colony ship and carries everything else over; a refused one costs nothing |
| Ledger.SpyBalances | internal/scheduler/fleet.go:645-768 | caught probes are lost with their cargo, others lose nothing |
| Ledger.ReturnBalances | internal/scheduler/fleet.go:788-849 | a returning fleet's ships and cargo reappear at home, or are lost when home is gone |
| Ledger.SendBalances | internal/svc/fleet.go:179-244 | what leaves the planet is in the fleet, except the fuel |
| Ledger.CancelBalances | internal/svc/build.go:228-274 | a cancelled order is refunded exactly what its row had cost |
| Ledger.FinishBalances | internal/scheduler/scheduler.go:99-157 | a finished batch adds exactly its count of hulls, and no resources |
| Ledger.ClampNeverBites | internal/store/planet_ships.go:43-51 | in every reachable state a dispatch or a battle lowers counts by no more than is there, so the clamp at zero of the upsert hides no loss |
| Ledger.FlowsNonNegative | internal/scheduler/fleet.go:183-270 | each named flow of the books has its sign: nothing negative is produced, spent, burnt, refunded, built or lost |
| Ledger.HoldIsRespected | internal/scheduler/fleet.go:233-262 | after looting, the cargo is at most the larger of what it was and what the survivors can carry |
| World.LootIsMaximal | internal/scheduler/fleet.go:221-255 | loot is at most half of each pool rounded down, fills the free hold as far as the halves go, and takes crystal only when the metal half is exhausted and deuterium only when both are; the pools stay non-negative |
| Ledger.OnlyTheUndefendedAreLooted | internal/scheduler/fleet.go:221-228 | as the winner is judged, a planet is looted only if it had no ship and no defense at all |
| Ledger.BattleLosses | internal/scheduler/fleet.go:183-219 | nobody loses a unit he did not have, or more than he had, in any battle |
| Settlement.UnloadedAtMostOnce | internal/svc/fleet.go:291-345 | with the unlocked read and the later write of recalls interleaved with both sweeps and everything else, no run unloads a fleet's ships twice, nor a non-empty hold twice |
| Settlement.HandledAtMostTwice | internal/store/fleets.go:146-218 | no run handles a fleet more than once outbound and once returning |
| Settlement.NeverOutboundAgain | internal/store/fleets.go:185-218 | no step turns a status back to outbound or clears return_processed |
| Settlement.ReturnedStaysIff | internal/store/fleets.go:185-194 | a returned fleet's row stays marked returned through a step if and only if the step is not the late write of a recall of that fleet |
| Recalls.ReturnedStaysOverRunIff | internal/store/fleets.go:185-194 | over any legal run the row of an unloaded fleet stays marked returned if and only if no pending recall of that fleet is written in it; otherwise it ends marked returning, and is not due again |
| Recalls.LateRecallReopensTheRow | internal/svc/fleet.go:291-321 | in every universe a concrete legal run (dispatch, read of a recall, arrival, homecoming, write of the recall) ends with an unloaded fleet marked returning |
| Recalls.HomecomingIsNotEarly | internal/svc/fleet.go:306-321 | on every legal run a fleet comes home no sooner after the clock reading that last set its return time, its arrival's or a recall's, than it had been out at that reading |
| Recalls.ReturnIsSymmetricIff | internal/scheduler/fleet.go:357-365 | an arrived fleet keeps the return time of its arrival, as long home as it was out, if no recall that had read it is written after the arrival, and only if so once that recall was read before the arrival |
| Recalls.LateRecallReturnsEarly | internal/svc/fleet.go:306-321 | in every universe a concrete legal run (dispatch, read of a recall, arrival, write of the recall) after which the fleet is due home before it arrived |
| Recalls.RunTraced | internal/svc/fleet.go:306-321 | on every run each set return time, and each one still to be written, is symmetric about some earlier clock reading at or after the departure |
| Settlement.StepWinds | internal/scheduler/fleet.go:36-79 | a step rewrites at most one fleet row, never adds work to it, and takes work away from a row it handles; only a dispatch adds a row |
| Settlement.FleetsDrain | internal/scheduler/fleet.go:36-79 | on every run the number of handled fleets is at most 2*outbound + returning at its start plus twice the dispatches in it |
| Backlogs.FleetBacklogDrains | internal/scheduler/fleet.go:36-79 | fleets due before some time are handled within one arrival sweep, or return sweep, per fifty of them, with any legal steps between the sweeps and while more fall due; only recalls already read and not yet written can add to the returns, one each |
| Backlogs.SweepTakesFifty | internal/store/fleets.go:146-182 | one sweep handles fifty of the fleets due before any earlier time, or all of them |
| Settlement.ArrivalSweepIsARun | internal/scheduler/fleet.go:36-56 | handling claimed arrivals one after another, each with its own clock readings, is a legal run: every row is still due when its turn comes |
| Settlement.ReturnSweepIsARun | internal/scheduler/fleet.go:59-79 | the same for claimed returns |
| Effects.DispatchSucceedsIff | internal/svc/fleet.go:45-205 | a fleet leaves if and only if every condition holds: known mission, target in bounds and not the origin, the mission's hull, some ship, valid cargo and speed, ownership, enough ships, room in the holds, and resources for cargo and fuel |
| Effects.OnlyOwnersCommand | internal/svc/fleet.go:120-122 | a command about a planet, fleet or queue row of another user changes nothing at all |
| Effects.OthersUntouched | internal/scheduler/fleet.go:84-849 | every step leaves every planet but the one it is about exactly as it was |
| Effects.OnlyOwnersAndAttackersTake | internal/svc/build.go:125-131 | a planet's pools fall below both what they were and what production makes of them only when its owner spends or a fleet attacks it |
| Effects.AttackStrikes | internal/scheduler/fleet.go:183-270 | both rows of an attack, type by type: ships, defenses and fleet fall by the losses of the battle, and what leaves the pools enters the hold |
| Effects.ArrivedTurns | internal/scheduler/fleet.go:357-365 | a handled arrival is gone, or flagged and on its way home from the same departure, due after as long as it has been out |
| Effects.RunKeepsHolds | internal/svc/fleet.go:174-177 | on every run, fleets on their way out carry no more than their ships can hold |
| Effects.FuelGrows | internal/game/fleet.go:84-110 | flying farther or faster never saves fuel |
| Colonies.LimitsRise | internal/game/colonization.go:24-53 | every second Astrophysics level brings one more planet, starting with the first, and no level closes a position |
| Raids.RaidOutcome | internal/scheduler/fleet.go:221-270 | on every legal arrival of an attack: an undefended planet loses, and the hold gains, the least of the free capacity of the fleet's ships and the halves of the refreshed pools, metal before crystal before deuterium; from a defended planet nothing is taken |
| Raids.HalfIsTaken | internal/scheduler/fleet.go:228-255 | one large cargo ship with an empty hold takes 5000 of 10000 metal from a bare planet |
| Raids.AttackInClosedForm | internal/scheduler/fleet.go:164-219 | on every such arrival each type on each side loses its share, rounded down, of the enemy's fire over the side's hull, both summed from the tables and each owner's own Weapons, Shielding and Armour, a tenth per level |
| Launches.DispatchOutcome | internal/svc/fleet.go:179-241 | a dispatch that may leave adds exactly the requested row, and any other changes nothing: owner, origin, mission, ships, cargo, and as its target planet the one in the requested slot, if and only if there is one; it is due after the flight of its slowest hull, burns the fuel that is charged, and the origin pays and changes in nothing else |
| Launches.RunStaysAimed | internal/svc/fleet.go:188-196 | on every run a fleet that names a target planet names the one at its target coordinates |
| Launches.NoFleetArrivesEarly | internal/store/fleets.go:146-165 | whatever legal steps lie between, the arrival of a fleet that was sent is handled no sooner than its dispatch plus the flight of its slowest hull, and with the very row that was sent |
| Launches.HoldsAdd | internal/game/fleet.go:113-126 | the capacity of a fleet, type by type: its count times the table cargo of the hull |
| Launches.ThirstAdds | internal/game/fleet.go:84-110 | the same of the fuel a fleet burns per unit of the way |
| Launches.DistanceLaws | internal/game/fleet.go:16-27 | distances are symmetric, grow by the fixed step of the farthest differing coordinate, and ignore the nearer ones |
| Flight.ShipSpeedLaw | internal/game/fleet.go:32-50 | in whole numbers: the base speed and one, two or three tenths of it per level of the drive, rounded down |
| Flight.FlightDurationLaw | internal/game/fleet.go:61-77 | the duration without the square root: the greatest whole number of seconds, or one, whose square stays within the scaled way |
| Landings.TransportOutcome | internal/scheduler/fleet.go:372-428 | a transport, or a deployment to another's planet, leaves exactly its cargo there and flies home empty with all its ships; nothing else changes |
| Landings.DeployOutcome | internal/scheduler/fleet.go:435-490 | a deployment to one's own planet leaves exactly its ships and cargo there, and the fleet is gone |
| Landings.HomecomingOutcome | internal/scheduler/fleet.go:788-849 | a returning fleet leaves exactly its ships and cargo at its origin, and its row only records that it is back; without an origin the fleet is lost |
| Landings.BounceOutcome | internal/scheduler/fleet.go:357-365 | with no planet in the target slot, and on every recycling mission, a fleet turns around with everything it has |
| Landings.ColonizeOutcome | internal/scheduler/fleet.go:513-637 | a colony is founded if and only if the slot is free, within reach of the middle slot, and the owner's further planets are fewer than half the level of Astrophysics; it is bare, with the cargo and all ships but one colony ship; otherwise the fleet turns around with everything |
| Landings.RecallOutcome | internal/svc/fleet.go:291-314 | a recall is taken down if and only if the fleet is the user's and on its way out, for as long as it has been gone |
| Probes.SpyOutcome | internal/scheduler/fleet.go:686-768 | a spy is caught, and gone, exactly when its owner's level of Espionage is not above the planet owner's and the roll in percent is below the probes times one plus the lead of the planet's owner; otherwise it turns back with everything |
| Probes.SuperiorSpiesReturn | internal/game/fleet.go:170-173 | a spy whose owner knows more always comes back, whatever is rolled |
| Probes.BetterSpiesEscape | internal/game/fleet.go:170-187 | between any two states and missions with the same roll: more probes, a worse spy or a better watch never turn a capture into an escape |
| Bills.UnitsOutcome | internal/svc/shipyard.go:27-145 | an order of ships or defenses by the owner is accepted if and only if the batch has a legal size, fewer than five rows are open, every line of the tech tree is met and the planet can pay; its row costs the count times the table price, lasts the count times the seconds of one unit, and starts behind all open work |
| Bills.BatchIsManySingles | internal/svc/shipyard.go:83-98 | whenever a batch is accepted so is a single unit at the same moment, and the batch costs and takes its count times as much |
| Bills.UpgradeOutcome | internal/svc/build.go:29-154 | the same of an upgrade: one level above everything built and ordered, at the tariff or, on a planet in need of rescue, at whatever metal is there; timed by the planet's own robots and nanites and the early divisor |
| Bills.ResearchOutcome | internal/svc/research.go:48-148 | the same of research: one at a time for the account, the next level at its tariff, begun at once, timed at the universe's research speed by the best laboratory of the account |
| Bills.BestLabTimesResearch | internal/svc/research.go:90-114 | accepted research takes no longer than the laboratory of any planet of the account would need, and as long as one of them needs, or as none when there is none |
| Bills.AnyPlanetResearchesAlike | internal/svc/research.go:90-114 | the same research costs the same and takes equally long from every planet of the account |
| Bills.RunKeepsPrices | internal/svc/build.go:101-146 | on every run each row of the queue costs what its kind, count and target say, and nothing of a row ever changes but its two flags |
| Bills.NothingFinishesEarly | internal/store/build_queue.go:161-188 | whatever legal steps lie between, a row is finished only while open and no sooner than the finish it was ordered with |
| Bills.CancelOutcome | internal/svc/build.go:228-274 | a row is cancelled if and only if it is the user's and open, and its planet gets back what it cost |
| Bills.ViewOutcome | internal/svc/build.go:182-224 | looking at one's own queue closes exactly the open upgrades of that planet whose level is already there; anybody else's look changes nothing |
| Bills.FinishOutcome | internal/scheduler/scheduler.go:99-157 | a finished row brings its planet one level and one field or exactly the units that were paid for, or its account one level of its technology, and nothing else changes |
| Yields.LookOutcome | internal/svc/resources.go:42-98 | a look a second or more after the last update credits the hours since then at the hourly rates and stops each pool at its own storage; an earlier one changes nothing |
| Yields.RatesOf | internal/game/production.go:31-101 | the hourly rates from levels, slot bonus, temperature, technology and working crawlers: the base income, each mine at the one share that the energy allows, less the reactor's burn |
| Yields.FlightsOf | internal/game/fleet.go:61-77 | flights in the source's own universe obey the law of flight times at its fleet speed |
| Figures.EnergyFigures | internal/game/formulas_test.go:8-74 | the energy, burn, satellite and crawler figures that the unit tests expect |
| Figures.SolarPlantFigures | internal/game/formulas_test.go:76-109 | the price and the times of the solar plant that they expect, early levels included |
| Figures.FlightFigures | internal/game/audit_fixes_test.go:8-35 | the flight time and the fuel of a light fighter one system away |
| Figures.DeuteriumFigures | internal/game/formulas_test.go:29-39 | the deuterium figures, zero at 340 degrees included |
| Figures.AstrophysicsFigures | internal/game/colonization_test.go:5-36 | the planet limits and the bands of positions |
| Figures.RescueFigures | internal/svc/build_test.go:10-75 | the prices of the three cases of the rescue |
| QueueSafety.QueueStaysSafe | internal/svc/build.go:69-123 | on every run: non-cancelled, non-research work on one planet has disjoint intervals; pending upgrades of one building have distinct targets above its level that rise with their finish times; at most 5 active jobs in the yards, 6 in all, 1 research per user; the repair pass removes nothing |
| QueueSafety.RunIsOrderly | internal/store/build_queue.go:125-156 | the invariant behind it is kept by every step of every run |
| QueueSafety.RunIsGapless | internal/svc/build.go:82-90 | on every run that cancels no upgrade from under a later pending one of the same building, the pending targets of a building are exactly the next levels, without gaps |
| QueueSafety.EveryFinishHitsTarget | internal/scheduler/scheduler.go:119-127 | on every such run, and so on every run without cancellations, each upgrade that finishes leaves its building exactly at the target it was ordered with |
| QueueSafety.CancelFreeRunHitsTargets | internal/scheduler/scheduler.go:119-127 | in particular on every run without cancellations, whose pending targets stay gapless |
| QueueSafety.FinishHitsTarget | internal/scheduler/scheduler.go:119-127 | with gapless targets, a finished upgrade leaves the building exactly at its target |
| QueueSafety.FinishNeverOvershoots | internal/scheduler/scheduler.go:119-127 | whatever was cancelled, no upgrade takes a building past its target |
| QueueSafety.CancelIsGaplessIff | internal/svc/build.go:228-246 | cancelling keeps the targets gapless if and only if nothing later is pending for the same building |
| QueueSafety.CancelLeavesAGap | internal/svc/build.go:228-246 | a concrete orderly and gapless queue in which cancelling the first of two upgrades makes the second finish one level short of its target |
| QueueSafety.CancelUndoesOrder | internal/svc/build.go:228-274 | cancelling within a second of ordering restores the refreshed planet to the unit and leaves one cancelled row |
| QueueSafety.SweepIsARun | internal/scheduler/scheduler.go:69-96 | applying a claimed batch is a legal run: each row is the next to finish on its planet when its turn comes |
| QueueSafety.BacklogDrains | internal/scheduler/scheduler.go:20-96 | n rows due at some time are applied within ceil(n/50) ticks, even while more rows fall due |
| QueueSafety.SweepsKeepOrder | internal/store/build_queue.go:161-188 | over any number of ticks rows are applied in nondecreasing order of finish time |
| QueueSafety.SlotsOf | internal/svc/research.go:75-83 | five yard jobs and the owner's one research bound everything active on a planet by six |
| TechTree.RunIsClosed | internal/game/tech_tree.go:23-108 | on every run everything built, researched or pending still meets all its prerequisites, not only when it was ordered |
| TechTree.LabGrows | internal/store/buildings.go:74-83 | when levels do not fall and planets stay, the account-wide laboratory maximum does not fall |
| TechTree.LabIsBest | internal/store/buildings.go:74-83 | the maximum bounds every laboratory of the user and is attained by one, or is zero |
| TechTree.RunKeepsStudies | internal/svc/research.go:102-106 | on every run, cancellations included, pending research aims exactly one above the level it will find |
| TechTree.ResearchHitsTarget | internal/scheduler/scheduler.go:131-133 | finished research leaves the technology exactly at its target |
| World.RescueIsAffordable | internal/svc/build.go:156-178 | the solar rescue never raises a price, lowers it only for an energyless planet's first plant, to exactly its whole metal, and makes it affordable when the full price was not |
| Runs.FreshIsHealthy | internal/svc/universe.go:104-182 | a universe of bare home planets, as joining creates them, satisfies every invariant at once, cursors behind the clock included, and is a place to trace return times from |
| Runs.JoinKeepsHealth | internal/svc/universe.go:104-182 | a player who joins later with a bare planet in a free slot leaves every invariant standing and adds exactly the starting stock to the books |
| Runs.ReachableIsHealthy | internal/scheduler/scheduler.go:56-96 | every reachable state satisfies all of them at once: soundness, order, closure, research targets, unique slots, planet limits, prices of rows, targets of fleets |
| Runs.TickIsARun | internal/scheduler/scheduler.go:56-65 | a scheduler tick, three sweeps over the rows they claim, is a legal run, so it keeps whatever runs keep |
| Colonies.RunKeepsColonies | internal/scheduler/fleet.go:495-553 | on every run no two planets share a slot and nobody owns more planets than Astrophysics allows |
| Colonies.FoundIff | internal/store/planets.go:98-105 | the slot lookup finds a planet exactly when one is there |
| Combat.KilledClosedForm | internal/game/fleet.go:390-414 | the nested floors of the damage loop kill exactly min(count, floor(damage*count/totalHP)) of a type |
| Combat.AllOrNothing | internal/game/fleet.go:390-414 | damage reaching the total hit points leaves no unit of any type, anything less leaves at least one of every type |
| Combat.DamageBound | internal/game/fleet.go:390-414 | hit points shot off a side never exceed the damage dealt to it |
| Combat.ApplyDamage | internal/game/fleet.go:390-414 | the loop decrements the counts in place to those values and returns what it killed |
| Combat.SimulateCombat | internal/game/fleet.go:270-365 | the round on mutable slices computes the specified outcome; the defenders' slices, copied by append, are re-read unchanged |
| Combat.SumAttack | internal/game/fleet.go:367-375 | total attack of the non-empty pools |
| Combat.SumHPPool | internal/game/fleet.go:377-385 | total hit points of the non-empty pools |
| Combat.BuildUnitsFromShips | internal/game/fleet.go:211-228 | one unit with distinct name for each non-empty hull, with technology applied, in arbitrary order |
| Combat.BuildUnitsFromDefenses | internal/game/fleet.go:231-248 | the same for defenses |
| Combat.AddShipDebris | internal/game/fleet.go:416-429 | 30% of the metal and crystal of lost hulls per type, rounded down, independent of the map order |
| Combat.SplitLosses | internal/game/fleet.go:318-338 | destroyed units are sorted to the defender's ships or defenses, positive counts only |
| CombatProperties.OrderIndependent | internal/game/fleet.go:211-365 | whatever order the maps come out in, losses, survivors, totals, winner and debris are the same |
| CombatProperties.WinnerAsDocumented | internal/game/fleet.go:340-358 | the intended winner follows from the two attack totals and the two hit-point totals |
| CombatProperties.WinnerAsCoded | internal/game/fleet.go:340-358 | the winner as computed: the attacker only ever wins against nobody |
| CombatProperties.WinnerIsAsDocumentedIff | internal/game/fleet.go:293-358 | the two agree if and only if the planet is empty or the attacker's volley stays below its hit points |
| CombatProperties.WinnerCanBeMisreported | internal/game/fleet.go:293-358 | ten battleships that wipe out a light fighter are reported a draw, with the fighter still there |
| CombatProperties.RemainingIsAsDocumentedIff | internal/game/fleet.go:300-311 | the reported defender survivors are the real ones if and only if no pool of the defender loses a unit |
| CombatProperties.RoundDebris | internal/game/fleet.go:416-429 | debris is at most 30% of the cost of all hulls lost in the round, and short of it by less than one unit per type and side |
| CombatProperties.DebrisBounds | internal/game/fleet.go:416-429 | the same for the losses of one side |
| Accrual.LazyClosedForm | internal/svc/resources.go:42-98 | after any refreshes, skipped ones included, the pool holds min(cap, stock + rate*(cursor - start)) once one has taken effect, and the cursor lags the last look by under a second |
| Accrual.LazyIsEager | internal/svc/resources.go:42-98 | this equals stepping by ticks with the cap at every tick, for every division into ticks |
| Windows.LookingIsLazy | internal/svc/resources.go:42-98 | on the whole state: however often players look at however many planets, each pool of each planet holds the closed form for its own last refresh |
| Windows.NoInstantIsPaidTwice | internal/svc/resources.go:42-98 | along every legal run, with both clock readings of every transaction, the spans for which a planet is credited follow one another without overlap |
| Windows.CursorFollows | internal/svc/resources.go:42-98 | a step leaves the cursor of a planet at its own write if it pays or receives there, at its reading if it only refreshes, and where it was otherwise |
| Forfeits.EveryInstantIsPaidOrLost | internal/svc/resources.go:54-57 | along every legal run the credited spans and the spans between a refresh and a later write tile all the time the cursor passes: every instant is credited once or lost once |
| Forfeits.TimeIsAccountedFor | internal/svc/resources.go:54-57 | along every legal run the cursor moves by the total width of what was credited plus that of what was lost |
| Forfeits.PaidInFullIff | internal/svc/build.go:122-131 | the credited spans alone tile that time if and only if no step writes the cursor after a skipped refresh or later than its own refresh |
| Forfeits.TwoOrdersLoseTime | internal/svc/build.go:122-131 | a concrete run in every universe: of two orders half a second apart the second forfeits that half second |
| Windows.ProducedInWindow | internal/svc/resources.go:42-98 | what a step produces is what its one span yields at the planet's rates, and nothing without a span |
| Accrual.RetroactiveIsHarmlessIff | internal/scheduler/scheduler.go:119-127 | a level that takes effect without a refresh, with whatever old and new rate and silo, gives what a prompt settlement gives if and only if the stock at that time was the same at either rate or the new silo fills from both; otherwise too much when the new rate pretends more than was kept, too little when less |
| Accrual.SameSiloIsHarmlessIff | internal/scheduler/scheduler.go:119-127 | with the silo unchanged: if and only if the rates are equal, nothing was unsettled, or the silo fills at the lower of the two; a falling rate costs the player, a rising one favours him |
| Accrual.SameRateIsHarmlessIff | internal/scheduler/scheduler.go:119-127 | with the rate unchanged, as for a finished storage: if and only if the old silo had room for the unsettled span or the new one fills anyway |
| Windows.FinishIsHarmlessIff | internal/scheduler/scheduler.go:99-157 | on the whole state, for any finished row and the pools of any planet: finishing then looking equals looking, finishing, looking if and only if the planet was refreshed within the last second or that condition holds of its stock, rates and silos |
| Windows.FinishCanCostCrystal | internal/scheduler/scheduler.go:119-127 | a concrete planet that holds less crystal because its second metal mine finished unseen |
| Production.MineCanStarveCrystal | internal/game/production.go:64-101 | a second metal mine on one solar plant lowers the crystal rate from 37 an hour to less than 29 |
| Production.FactorIsAShare | internal/game/production.go:71-74 | the production factor lies in [0,1] and is 1 exactly when energy suffices |
| Production.SolarNeverHurts | internal/game/production.go:31-101 | raising the solar plant lowers none of the three hourly rates |
| Formulas.LevelCostMonotone | internal/game/formulas.go:138-167 | level costs are non-negative and never fall as levels rise |
| Formulas.BuildTimeFalls | internal/game/formulas.go:203-214 | robot and nanite factories never lengthen a building time |
| Formulas.ResearchTimeFalls | internal/game/formulas.go:226-233 | a better laboratory or a cheaper technology never lengthens research |
| Services.RefreshInTx | internal/svc/resources.go:42-98 | pools and cursor become those of the lazy refresh; nothing else changes |
| Services.Dispatch | internal/svc/fleet.go:45-245 | checks in order, flight time from the slowest hull and the distance; on success planet and fleet rows are those of the transition, whose outcome `Launches.DispatchOutcome` states, on failure everything is rolled back |
| Flight.SlowestShipSpeed | internal/game/fleet.go:131-146 | the speed of the slowest hull that is there, or 5000 for an empty fleet, in whatever order the map yields |
| Flight.FlightDurationGrows | internal/game/fleet.go:61-77 | a longer way, a slower fleet or a lower throttle never shortens the flight |
| Services.RecallBegins | internal/svc/fleet.go:291-314 | the unlocked read of a recall |
| Services.RecallEnds | internal/svc/fleet.go:316-321 | its later write by id, whatever has become of the row |
| Services.RequireMissionShips | internal/svc/fleet.go:350-366 | accepts exactly the fleets with the mission's hull |
| Services.FleetCargoCapacity | internal/game/fleet.go:113-126 | the sum of the holds, in whatever order the map yields |
| Services.FleetFuelConsumption | internal/game/fleet.go:84-110 | the sum of the burns, truncated, at least one, zero for no ships |
| Services.RepairCompletedBuildingQueues | internal/svc/build.go:212-224 | marks exactly the pending upgrades that are already built |
| Services.PlanetQueues | internal/svc/build.go:182-210 | the owner's view also repairs the queue |
| Services.QueueBuilding | internal/svc/build.go:29-154 | the upgrade transition with its checks in order and its rollback |
| Services.QueueUnits | internal/svc/shipyard.go:27-268 | the ship and defense batches, likewise: the statements and loops end in the transition whose outcome `Bills.UnitsOutcome` states |
| Services.QueueResearch | internal/svc/research.go:48-148 | the research order, likewise, with the outcome of `Bills.ResearchOutcome` |
| Services.Cancel | internal/svc/build.go:228-274 | cancellation with refund, likewise |
| TechTree.CheckBuildingPrereqs | internal/game/tech_tree.go:23-43 | lists exactly the unmet prerequisites in table order; accepts if and only if all are met |
| TechTree.CheckResearchPrereqs | internal/game/tech_tree.go:48-66 | the same against the account's laboratory |
| TechTree.CheckUnitPrereqs | internal/game/tech_tree.go:69-108 | the same for ships and defenses against the planet's shipyard |
| Scheduler.Fight | internal/scheduler/fleet.go:164-183 | unit lists built in arbitrary map order fight the one specified battle |
| Scheduler.ApplyAttackerLosses | internal/scheduler/fleet.go:187-203 | fleet rows are overwritten with the survivors, unchanged ones skipped, and the survivors are counted |
| Scheduler.DivideLoot | internal/scheduler/fleet.go:222-255 | the loot of the specification |
| Scheduler.ResolveAttack | internal/scheduler/fleet.go:113-352 | both rows end as the attack transition says, whose outcome `Raids.RaidOutcome` and `Raids.AttackInClosedForm` state |
| Scheduler.MarkAttackReturning | internal/scheduler/fleet.go:357-365 | turns the fleet around for as long as it has been under way |
| Scheduler.ResolveTransport | internal/scheduler/fleet.go:372-428 | the transport transition |
| Scheduler.ResolveDeploy | internal/scheduler/fleet.go:435-490 | the deployment transition |
| Scheduler.ResolveColonize | internal/scheduler/fleet.go:495-637 | the colonization transition |
| Scheduler.ResolveEspionage | internal/scheduler/fleet.go:645-768 | the espionage transition, whose outcome `Probes.SpyOutcome` states, reports aside |
| Flight.CounterEspionageChanceGrows | internal/game/fleet.go:170-187 | the odds of being caught are a probability, zero exactly for a superior attacker or no probes, and never fall with more probes or a better defender |
| Scheduler.HandleArrival | internal/scheduler/fleet.go:84-101 | routes by mission to the arrival transition |
| Scheduler.HandleReturn | internal/scheduler/fleet.go:788-849 | the return transition |
| Scheduler.ApplyOne | internal/scheduler/scheduler.go:99-157 | the effect of a finished row, or failure when its planet is gone |
| Scheduler.QueueSweep | internal/scheduler/scheduler.go:69-96 | claims a batch and applies it in order, from rows read once |
| Scheduler.ArrivalSweep | internal/scheduler/fleet.go:36-56 | claims due arrivals and handles them in order from rows read once |
| Scheduler.ReturnSweep | internal/scheduler/fleet.go:59-79 | claims due returns and handles them in order |
| Scheduler.TickOnce | internal/scheduler/scheduler.go:56-65 | the three sweeps one after another |
| Database.Tables.AddShips | internal/store/planet_ships.go:43-51 | inserts the count or adds to it, clamped at zero |
| Database.Tables.AddDefenses | internal/store/planet_ships.go:75-83 | the same for defenses |
| Database.Tables.CreatePlanet | internal/store/planets.go:56-75 | appends a row under a new id if and only if the slot is free |
| Database.Tables.GetPlanetByCoord | internal/store/planets.go:98-105 | the planet in a slot, if any |
| Database.Tables.CountPlanets | internal/store/planets.go:108-129 | how many planets a user owns |
| Database.Tables.MaxLabAcrossUser | internal/store/buildings.go:74-83 | the highest laboratory among a user's planets |
| Database.Tables.CountActiveQueueForPlanet | internal/store/build_queue.go:125-132 | the number of active rows of a planet |
| Database.Tables.HasActiveResearch | internal/store/build_queue.go:136-144 | whether a user has research pending |
| Database.Tables.LatestActiveQueueFinish | internal/store/build_queue.go:148-156 | the latest finish among active rows, not before now |
| Database.Tables.ListDueQueueItems | internal/store/build_queue.go:161-188 | fifty due rows or all of them, in order of finish, none passed over for a later one |
| Database.Tables.ListDueFleets | internal/store/fleets.go:146-182 | the same for due arrivals and due returns |
| RateLimiter.AdmissionBound | internal/httpapi/ratelimit.go:48-76 | between the first and last of any calls, one key is admitted at most capacity + rate * elapsed times, from any state |
| RateLimiter.WindowBound | internal/httpapi/ratelimit.go:48-76 | the same for any window of any run of a fresh limiter |
| RateLimiter.SweepIsInvisible | internal/httpapi/ratelimit.go:80-97 | when rate * 1800 >= capacity, a limiter that drops idle buckets answers every monotone run exactly like one that never does |
| RateLimiter.MountedSweepIsInvisible | internal/httpapi/ratelimit.go:80-97 | in particular with 10 and 0.2 as mounted |
| RateLimiter.RetryAdmittedIff | internal/httpapi/ratelimit.go:70-75 | a refused caller who waits as told is admitted if and only if the capacity is at least one and the delay was not cut by truncation to nanoseconds |
| RateLimiter.RetryCanBeRefused | internal/httpapi/ratelimit.go:70-75 | parameters with which the truncated hint is too early |
| RateLimiter.MountedRetryIsAdmitted | internal/httpapi/ratelimit.go:70-75 | with the mounted parameters the hint is right after every run |
| RateLimiter.MountedHeaderIsEnoughIff | internal/httpapi/ratelimit.go:128-134 | a caller refused with t tokens on hand who waits the whole seconds of the header is admitted if and only if t is at least 0.8 or a whole number of fifths |
| RateLimiter.MountedHeaderCanBeTooEarly | internal/httpapi/ratelimit.go:128-134 | a refused bucket whose delay of 4.5 seconds is sent as 4, and refused again then |
| RateLimiter.Limiter.Allow | internal/httpapi/ratelimit.go:48-76 | takes a token from the refilled bucket or names the delay |
| RateLimiter.Limiter.Sweep | internal/httpapi/ratelimit.go:80-97 | drops exactly the buckets idle for more than thirty minutes, in whatever order |
| RateLimiter.Itoa | internal/httpapi/ratelimit.go:137-158 | the buffer filled from the back denotes the number, sign included, if and only if it is not the most negative 64-bit integer |
| Sessions.LogoutIsFinal | internal/svc/auth.go:172-177 | once logged out, a token never resolves again on any continuation |
| Sessions.DeliveredAtMostOnce | internal/svc/auth.go:133-153 | a device code delivers a token at most once in any run |
| Sessions.SpentNeverBinds | internal/store/sessions.go:70-85 | an expired or missing code never binds |
| Sessions.RunKeepsCompanions | internal/svc/auth.go:157-167 | when only device codes are polled and tokens are bound for their owners, every bound row has its one session row with the same token, user and expiry |
| Sessions.BindAgreesIff | internal/svc/auth.go:157-167 | binding keeps that agreement if and only if the user is the token's owner |
| Sessions.BindCanDisagree | internal/svc/auth.go:157-167 | a reachable table in which approving a code with another user's id breaks the agreement |
| Sessions.WaitingIsReached | internal/svc/auth.go:115-129 | that table is what four calls leave of a fresh service |
| Sessions.PollAgreesIff | internal/svc/auth.go:133-153 | a poll that takes a row away keeps every other row its session if and only if the row is a device code's, or no other row carries its token |
| Sessions.PollCanStrand | internal/svc/auth.go:133-153 | an approved device code whose session row is taken by polling the session's own code |
| Sessions.SignInWorks | internal/svc/auth.go:182-224 | after any well-behaved run a delivered token resolves to its owner until it expires |
| Sessions.AuthService.IssueSession | internal/svc/auth.go:229-260 | signs a fresh token and adds its session row, or rolls the row back when the user does not exist |
| Sessions.AuthService.StartDeviceAuth | internal/svc/auth.go:115-129 | adds a pending row that lives ten minutes |
| Sessions.AuthService.PollDeviceAuth | internal/svc/auth.go:133-153 | delivers and deletes, reports pending, or deletes an expired row |
| Sessions.AuthService.BindDeviceAuth | internal/svc/auth.go:157-167 | binds a live unbound code, for an existing user, with the expiry of the token's row |
| Sessions.AuthService.FindByToken | internal/store/sessions.go:56-67 | any one of the rows that carry a token, if there is one |
| Sessions.AuthService.Logout | internal/store/sessions.go:94-97 | removes every row of a token |
| Sessions.AuthService.ResolveSession | internal/svc/auth.go:182-224 | verifies the token, finds a row, checks owner and expiry, cleans up, and looks up the user |

## Left out

- HTTP handlers, routing, cookies, HTML, the terminal interface, the installer and the updater: input, output and presentation.
- internal/web/ratelimit.go: a second copy of the same bucket.
- SQL text, connection handling and locks: a transaction is one atomic step, and a failed one leaves no trace.  Several schedulers at once (SKIP LOCKED) and the abort of a whole transaction by one failing statement are not modelled.
- Recall: its read and its write are separate steps; all other transactions are atomic, so interleavings inside Cancel, the research-slot check, BindDeviceAuth and PollDeviceAuth are not modelled.
- Clock readings: all writes of one transaction share one reading, while the source reads the clock again for some of them.
- The square root of the flight time and the exponential of storage capacity: parameters `root` and `silo` of `World.Universe`.
- Normalisation of user-supplied keys (trimming, lower case, repeated keys): requests carry parsed values.
- The roll of counter-espionage and the attributes of new planets: given by `Dice`.  The payload of spy reports, messages, events, statistics, presence and alliances have no rows here.
- Colony codes, signed tokens and random codes are fresh values; of a user only the id is modelled, and no code removes users.
- The search for a free slot when a player joins, and several universes: runs take place in one universe; `JoinKeepsHealth` says what a new home planet changes between them.
- Rows whose planet id is null, and a cursor that was never set.  The slot-taken branch of colonization is proved unreachable when transactions are atomic.
- DeleteExpiredDeviceSessions: no code of the service calls it.
- Combat.SimulateCombat: shares of damage are exact, so a rounding of the floating-point product at an exact tie is not modelled.
- Services.QueueUnits: one method for ships and defenses, which differ only in their tables.
- Probes.SpyOutcome: for rolls from zero up to but not including one, which is what the source draws.
- Scheduler.ResolveEspionage: writes neither spy reports nor messages, which no other transaction reads.
- Windows.FinishIsHarmlessIff: compares the two orders at a look a second or more after the finish, when neither skips it.
- RateLimiter.Limiter.constructor: takes a non-negative capacity and a positive refill rate, as its only caller passes.
- Production.SolarNeverHurts: assumes non-negative bonuses and speed and an average temperature of at most 340, above which the deuterium formula itself turns negative.
