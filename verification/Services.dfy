/** The transactions of internal/svc on the mutable tables, each proved against its
    transition.  A transaction that fails rolls its writes back. */
module Services {
  import opened Wrappers
  import opened Catalog
  import opened Sums
  import opened Formulas
  import opened World
  import opened Database
  import A = Accrual
  import F = Flight
  import T = TechTree

  // ---- loops over ship maps, in whatever order ---------------------------------------------

  /** One more key of the deltas. */
  lemma AddAllNext<K(!new)>(m: map<K, int>, d: map<K, int>, k: K, delta: int)
    requires k !in d
    ensures AddCount(AddAll(m, d), k, delta) == AddAll(m, d[k := delta])
  {
  }

  lemma AddNothing<K(!new)>(m: map<K, int>)
    ensures AddAll(m, map[]) == m
  {
  }

  method KeepPositive(ships: map<ShipType, int>) returns (r: map<ShipType, int>)
    ensures r == Positive(ships)
  {
    r := map[];
    var todo := ships.Keys;
    while todo != {}
      invariant todo <= ships.Keys
      invariant r == map t | t in ships && t !in todo && ships[t] > 0 :: ships[t]
      decreases todo
    {
      var t :| t in todo;
      todo := todo - {t};
      if ships[t] > 0 {
        r := r[t := ships[t]];
      }
    }
  }

  method FleetCargoCapacity(ships: map<ShipType, int>) returns (total: int)
    ensures total == CargoCapacity(ships)
  {
    total := 0;
    var todo := ships.Keys;
    ghost var done: set<ShipType> := {};
    while todo != {}
      invariant done !! todo && done + todo == ships.Keys
      invariant total == SumKeys(done, CargoIn(ships))
      decreases todo
    {
      var t :| t in todo;
      SumKeysAdd(done, t, CargoIn(ships));
      todo, done := todo - {t}, done + {t};
      if ships[t] > 0 {
        total := total + ShipStats(t).cargo * ships[t];
      }
    }
    assert done == ships.Keys;
  }

  lemma ScaledAdds(a: int, b: int, x: real)
    ensures Scaled(a + b, x) == Scaled(a, x) + Scaled(b, x) && Scaled(0, x) == 0.0
  {
  }

  method TotalBurn(ships: map<ShipType, int>, share: real) returns (total: real)
    ensures total == Scaled(SumKeys(ships.Keys, FuelIn(ships)), share)
  {
    hide Scaled, ShipStats;
    total := 0.0;
    ScaledAdds(0, 0, share);
    var todo := ships.Keys;
    ghost var done: set<ShipType> := {};
    while todo != {}
      invariant done !! todo && done + todo == ships.Keys
      invariant total == Scaled(SumKeys(done, FuelIn(ships)), share)
      decreases todo
    {
      var t :| t in todo;
      SumKeysAdd(done, t, FuelIn(ships));
      ScaledAdds(SumKeys(done, FuelIn(ships)), FuelIn(ships)(t), share);
      todo, done := todo - {t}, done + {t};
      if ships[t] > 0 {
        total := total + Scaled(ShipStats(t).fuel * ships[t], share);
      }
    }
    assert done == ships.Keys;
  }

  /** Each hull burns its share; the sum is truncated, and never less than one. */
  method FleetFuelConsumption(ships: map<ShipType, int>, distance: int, speedPercent: int) returns (fuel: int)
    ensures fuel == if ships == map[] then 0 else Fuel(ships, distance, F.Clamp(speedPercent, 10, 100))
  {
    hide Scaled;
    if |ships| == 0 {
      return 0;
    }
    var sp := F.Clamp(speedPercent, 10, 100) as real / 100.0;
    var speedTerm := (1.0 + sp) * (1.0 + sp);
    var share := (distance as real / 35000.0) * speedTerm;
    assert share == Burn(distance, F.Clamp(speedPercent, 10, 100));
    var total := TotalBurn(ships, share);
    fuel := total.Floor;
    if fuel < 1 {
      fuel := 1;
    }
  }

  /** Whether a stockpile covers what is asked of it. */
  method HasShips(stock: map<ShipType, int>, wanted: map<ShipType, int>) returns (ok: bool)
    ensures ok <==> forall t :: t in wanted ==> Level(stock, t) >= wanted[t]
  {
    var todo := wanted.Keys;
    while todo != {}
      invariant todo <= wanted.Keys
      invariant forall t :: t in wanted && t !in todo ==> Level(stock, t) >= wanted[t]
      decreases todo
    {
      var t :| t in todo;
      todo := todo - {t};
      if Level(stock, t) < wanted[t] {
        return false;
      }
    }
    ok := true;
  }

  /** Takes ships off a planet. */
  method TakeShips(db: Tables, pid: int, ships: map<ShipType, int>)
    requires db.Snapshot().HasPlanet(pid)
    modifies db`planets
    ensures var p := old(db.Snapshot().PlanetAt(pid));
            db.Snapshot() == old(db.Snapshot()).WithPlanet(pid, p.(ships := AddAll(p.ships, Negated(ships))))
  {
    hide AddAll, AddCount;
    ghost var s, p := db.Snapshot(), db.Snapshot().PlanetAt(pid);
    ghost var deltas: map<ShipType, int> := map[];
    AddNothing(p.ships);
    var todo := ships.Keys;
    while todo != {}
      invariant todo <= ships.Keys
      invariant deltas == map t | t in ships && t !in todo :: -ships[t]
      invariant db.Snapshot() == s.WithPlanet(pid, p.(ships := AddAll(p.ships, deltas)))
      decreases todo
    {
      var t :| t in todo;
      AddAllNext(p.ships, deltas, t, -ships[t]);
      deltas := deltas[t := -ships[t]];
      db.AddShips(pid, t, -ships[t]);
      todo := todo - {t};
    }
    assert deltas == Negated(ships);
  }

  /** Puts a fleet's ships on a planet. */
  method UnloadShips(db: Tables, pid: int, ships: map<ShipType, int>)
    requires db.Snapshot().HasPlanet(pid)
    modifies db`planets
    ensures var p := old(db.Snapshot().PlanetAt(pid));
            db.Snapshot() == old(db.Snapshot()).WithPlanet(pid, p.(ships := AddAll(p.ships, Positive(ships))))
  {
    hide AddAll, AddCount;
    ghost var s, p := db.Snapshot(), db.Snapshot().PlanetAt(pid);
    ghost var deltas: map<ShipType, int> := map[];
    AddNothing(p.ships);
    var todo := ships.Keys;
    while todo != {}
      invariant todo <= ships.Keys
      invariant deltas == map t | t in ships && t !in todo && ships[t] > 0 :: ships[t]
      invariant db.Snapshot() == s.WithPlanet(pid, p.(ships := AddAll(p.ships, deltas)))
      decreases todo
    {
      var t :| t in todo;
      todo := todo - {t};
      if ships[t] > 0 {
        AddAllNext(p.ships, deltas, t, ships[t]);
        deltas := deltas[t := ships[t]];
        db.AddShips(pid, t, ships[t]);
      }
    }
    assert deltas == Positive(ships);
  }

  /** Adds cargo to a planet's pools, if there is any. */
  method UnloadCargo(db: Tables, pid: int, cargo: Cost, now: real)
    requires db.Snapshot().HasPlanet(pid)
    modifies db`planets
    ensures db.Snapshot() == old(db.Snapshot()).WithPlanet(pid, Credit(old(db.Snapshot().PlanetAt(pid)), cargo, now))
  {
    if cargo.metal > 0 || cargo.crystal > 0 || cargo.deuterium > 0 {
      var p := db.planets[pid].value;
      db.UpdatePlanetResources(pid, Res(p.pools.metal + cargo.metal as real, p.pools.crystal + cargo.crystal as real,
                                        p.pools.deuterium + cargo.deuterium as real), now);
    }
  }

  // ---- lazy production -----------------------------------------------------------------------

  method RefreshInTx(db: Tables, env: Env, pid: int, now: real)
    modifies db`planets
    ensures db.Snapshot() == old(Refresh(env, db.Snapshot(), pid, now))
  {
    hide A.Gain;
    var s := db.Snapshot();
    if !s.HasPlanet(pid) {
      return;
    }
    var planet := s.PlanetAt(pid);
    var elapsed := now - planet.cursor;
    if elapsed < 1.0 {
      return;
    }
    var perHour := env.report(planet, s.TechsOf(planet.owner)).perHour;
    var metal := planet.pools.metal + A.Gain(perHour.metal, elapsed);
    var crystal := planet.pools.crystal + A.Gain(perHour.crystal, elapsed);
    var deuterium := planet.pools.deuterium + A.Gain(perHour.deuterium, elapsed);
    var cap := env.capacity(planet);
    if metal > cap.metal { metal := cap.metal; }
    if crystal > cap.crystal { crystal := cap.crystal; }
    if deuterium > cap.deuterium { deuterium := cap.deuterium; }
    if metal < 0.0 { metal := 0.0; }
    if crystal < 0.0 { crystal := 0.0; }
    if deuterium < 0.0 { deuterium := 0.0; }
    db.UpdatePlanetResources(pid, Res(metal, crystal, deuterium), now);
  }

  // ---- fleets -----------------------------------------------------------------------------------

  /** The minimum hulls of a mission. */
  method RequireMissionShips(mission: Mission, ships: map<ShipType, int>) returns (ok: bool)
    ensures ok <==> HasRequiredHull(mission, ships)
  {
    match mission {
      case Colonize => ok := ColonyShip in ships && ships[ColonyShip] >= 1;
      case Recycle => ok := Recycler in ships && ships[Recycler] >= 1;
      case Spy => ok := EspionageProbe in ships && ships[EspionageProbe] >= 1;
      case _ => ok := true;
    }
  }

  method CheckRequest(r: Request) returns (error: Option<Error>, ships: map<ShipType, int>)
    ensures error == RequestError(r)
    ensures ships == Positive(r.ships)
  {
    ships := KeepPositive(r.ships);
    if r.mission.None? {
      return Some(UnknownMission), ships;
    }
    if r.target.galaxy < 1 || r.target.system < 1 || r.target.position < 1 || r.target.position > 15 {
      return Some(BadTarget), ships;
    }
    if |ships| == 0 {
      return Some(NoShips), ships;
    }
    var fit := RequireMissionShips(r.mission.value, ships);
    if !fit {
      return Some(MissingHull), ships;
    }
    if r.cargo.metal < 0 || r.cargo.crystal < 0 || r.cargo.deuterium < 0 {
      return Some(BadCargo), ships;
    }
    var speed := if r.speedPercent <= 0 then 100 else r.speedPercent;
    if speed < 10 || speed > 100 {
      return Some(BadSpeed), ships;
    }
    error := None;
  }

  method CheckOrigin(env: Env, p: Planet, r: Request, ships: map<ShipType, int>)
    returns (error: Option<Error>, fuel: int)
    requires RequestError(r).None? && ships == Positive(r.ships)
    ensures error == OriginError(env, p, r)
    ensures fuel == FuelFor(p, r)
  {
    hide Fuel, CargoCapacity, HasRequiredHull;
    fuel := FleetFuelConsumption(ships, Distance(p.coord, r.target), SpeedOf(r));
    var ready := HasShips(p.ships, ships);
    if !ready {
      return Some(NotEnoughShips), fuel;
    }
    if r.target.galaxy > env.galaxies || r.target.system > env.systems {
      return Some(OutsideUniverse), fuel;
    }
    var capacity := FleetCargoCapacity(ships);
    if r.cargo.metal + r.cargo.crystal + r.cargo.deuterium > capacity {
      return Some(OverCapacity), fuel;
    }
    if p.pools.metal < r.cargo.metal as real || p.pools.crystal < r.cargo.crystal as real
       || p.pools.deuterium < (r.cargo.deuterium + fuel) as real {
      return Some(InsufficientResources), fuel;
    }
    error := None;
  }

  /** The fleet row and its ships. */
  method InsertFleetWithShips(db: Tables, f: Fleet, ships: map<ShipType, int>)
    requires f.ships == map[]
    modifies db`fleets
    ensures db.Snapshot() == old(db.Snapshot()).(fleets := old(db.fleets) + [Some(f.(ships := ships))])
  {
    ghost var s := db.Snapshot();
    ghost var done: map<ShipType, int> := map[];
    var fid := db.InsertFleet(f);
    var todo := ships.Keys;
    while todo != {}
      invariant todo <= ships.Keys
      invariant done == map t | t in ships && t !in todo :: ships[t]
      invariant db.Snapshot() == s.(fleets := s.fleets + [Some(f.(ships := done))])
      decreases todo
    {
      var t :| t in todo;
      todo := todo - {t};
      db.InsertFleetShip(fid, t, ships[t]);
      done := done[t := ships[t]];
      assert db.fleets == s.fleets + [Some(f.(ships := done))];
    }
    assert done == ships;
  }

  /** How long the slowest ship makes the flight. */
  method TimeFlight(db: Tables, env: Env, r: Request, p: Planet, ships: map<ShipType, int>) returns (seconds: int)
    requires ships == Positive(r.ships)
    ensures seconds == FlightTime(env, db.Snapshot(), r, p)
  {
    var speed := F.SlowestShipSpeed(ships, db.Snapshot().TechsOf(r.user));
    seconds := env.flight(Distance(p.coord, r.target), speed, SpeedOf(r));
  }

  /** Debits the planet, takes the ships off it and launches them. */
  method Launch(db: Tables, env: Env, r: Request, ships: map<ShipType, int>, fuel: int, seconds: int, now: real)
    requires r.mission.Some? && db.Snapshot().HasPlanet(r.origin) && ships == Positive(r.ships)
    requires fuel == FuelFor(db.Snapshot().PlanetAt(r.origin), r)
    requires seconds == FlightTime(env, db.Snapshot(), r, db.Snapshot().PlanetAt(r.origin))
    modifies db
    ensures var s := old(db.Snapshot());
            var p := s.PlanetAt(r.origin);
            db.Snapshot() == s.WithPlanet(r.origin,
                                          LeftBehind(p, r, now)).(fleets := s.fleets
                                                  + [Some(Launched(env, s, r, p, now))])
  {
    hide FuelFor, FlightTime, AddAll, FindByCoord;
    ghost var s := db.Snapshot();
    var p := db.planets[r.origin].value;
    var target := db.GetPlanetByCoord(r.target);
    db.UpdatePlanetResources(r.origin,
                             Res(p.pools.metal - r.cargo.metal as real, p.pools.crystal - r.cargo.crystal as real,
                                           p.pools.deuterium - (r.cargo.deuterium + fuel) as real), now);
    TakeShips(db, r.origin, ships);
    LastWrite(s, r.origin, s.PlanetAt(r.origin).(pools := p.pools.Minus(Needed(p, r)), cursor := now),
              LeftBehind(p, r, now));
    var f := Fleet(r.user, r.origin, r.mission.value, Outbound, r.target, target,
                   now, now + seconds as real, None, r.cargo, fuel, map[], false, false);
    InsertFleetWithShips(db, f, ships);
  }

  method Dispatch(db: Tables, env: Env, r: Request, c: Clock) returns (reply: Reply)
    modifies db
    ensures (db.Snapshot(), reply) == old(World.Dispatch(env, db.Snapshot(), r, c))
  {
    hide RequestError, OriginError, LeftBehind, Launched, Refreshed, FuelFor, FlightTime;
    var error, ships := CheckRequest(r);
    if error.Some? {
      return Failed(error.value);
    }
    var before := db.Snapshot();
    if !before.HasPlanet(r.origin) {
      return Failed(NotFound);
    }
    var planet := before.PlanetAt(r.origin);
    if planet.owner != r.user {
      return Failed(Forbidden);
    }
    if planet.coord == r.target {
      return Failed(SelfTarget);
    }
    RefreshInTx(db, env, r.origin, c.read);
    planet := db.planets[r.origin].value;
    var fuel: int;
    error, fuel := CheckOrigin(env, planet, r, ships);
    if error.Some? {
      db.Rollback(before);
      return Failed(error.value);
    }
    MissionKnown(r);
    var seconds := TimeFlight(db, env, r, planet, ships);
    Launch(db, env, r, ships, fuel, seconds, c.write);
    SameLaunch(env, before, r, c);
    LastWrite(before, r.origin, planet, LeftBehind(planet, r, c.write));
    reply := Ok;
  }

  lemma MissionKnown(r: Request)
    requires RequestError(r).None?
    ensures r.mission.Some?
  {
  }

  /** Refreshing moves no planet, so the fleet aims at the same one. */
  lemma SameLaunch(env: Env, s: State, r: Request, c: Clock)
    requires s.HasPlanet(r.origin) && r.mission.Some?
    ensures var t := Refresh(env, s, r.origin, c.read);
            var p := RefreshedAt(env, s, r.origin, c.read);
            Launched(env, t, r, p, c.write) == Launched(env, s, r, p, c.write)
  {
    hide Refreshed, FuelFor, F.SlowestSpeed;
    RefreshKeepsCoord(env, s.PlanetAt(r.origin), s.TechsOf(s.PlanetAt(r.origin).owner), c.read);
    FindIgnores(s.planets, Refresh(env, s, r.origin, c.read).planets, r.target);
  }

  lemma RefreshKeepsCoord(env: Env, p: Planet, t: Techs, now: real)
    ensures Refreshed(env, p, t, now).coord == p.coord
  {
  }

  lemma {:induction false} FindIgnores(before: seq<Option<Planet>>, after: seq<Option<Planet>>, c: Coord)
    requires |before| == |after|
    requires forall k :: 0 <= k < |before| ==>
               (before[k].Some? == after[k].Some?
                && (before[k].Some? ==> before[k].value.coord == after[k].value.coord))
    ensures FindByCoord(before, c) == FindByCoord(after, c)
  {
    if before != [] {
      var n := |before| - 1;
      FindIgnores(before[..n], after[..n], c);
    }
  }

  /** The read of a recall: checks the row and works out the way home. */
  method RecallBegins(db: Tables, call: int, user: int, fid: int, now: real) returns (reply: Reply)
    modifies db`recalls
    ensures (db.Snapshot(), reply) == old(RecallRead(db.Snapshot(), call, user, fid, now))
  {
    var s := db.Snapshot();
    if !s.HasFleet(fid) {
      return Failed(NotFound);
    }
    var fleet := s.FleetAt(fid);
    if fleet.owner != user {
      return Failed(Forbidden);
    }
    if fleet.status != Outbound {
      return Failed(NotRecallable);
    }
    var elapsed := now - fleet.departure;
    if elapsed < 0.0 {
      elapsed := 0.0;
    }
    db.recalls := db.recalls[call := Recall(fid, now + elapsed)];
    reply := Ok;
  }

  /** The write of a recall: two updates by id, without another look at the row. */
  method RecallEnds(db: Tables, call: int)
    modifies db`recalls, db`fleets
    ensures db.Snapshot() == old(RecallWrite(db.Snapshot(), call))
  {
    if call !in db.recalls {
      return;
    }
    var r := db.recalls[call];
    db.recalls := db.recalls - {call};
    db.SetFleetStatus(r.fleet, Returning);
    db.SetFleetReturn(r.fleet, r.returnAt);
  }

  // ---- the build queue ------------------------------------------------------------------------------

  /** Marks pending upgrades that are already built as applied. */
  method RepairCompletedBuildingQueues(db: Tables, pid: int, buildings: map<BuildingType, int>)
    modifies db`queue
    ensures db.Snapshot() == old(db.Snapshot()).(queue := Repaired(old(db.queue), pid, buildings))
  {
    ghost var before := db.queue;
    for k := 0 to |db.queue|
      invariant |db.queue| == |before|
      invariant forall i :: 0 <= i < k ==> db.queue[i] == Repaired(before, pid, buildings)[i]
      invariant forall i :: k <= i < |before| ==> db.queue[i] == before[i]
      invariant db.Snapshot() == old(db.Snapshot()).(queue := db.queue)
    {
      var row := db.queue[k];
      if row.planet == pid && !row.cancelled && !row.applied && row.key.Build? && row.target > 0
         && Level(buildings, row.key.building) >= row.target {
        db.MarkQueueApplied(k);
      }
    }
    assert db.queue == Repaired(before, pid, buildings);
  }

  method PlanetQueues(db: Tables, user: int, pid: int) returns (reply: Reply)
    modifies db`queue
    ensures (db.Snapshot(), reply) == old(ViewQueue(db.Snapshot(), user, pid))
  {
    var s := db.Snapshot();
    if !s.HasPlanet(pid) {
      return Failed(NotFound);
    }
    if s.PlanetAt(pid).owner != user {
      return Failed(Forbidden);
    }
    RepairCompletedBuildingQueues(db, pid, s.PlanetAt(pid).buildings);
    reply := Ok;
  }

  /** Debits a planet and appends the row. */
  method DebitAndInsert(db: Tables, pid: int, item: Item, now: real)
    requires db.Snapshot().HasPlanet(pid)
    modifies db
    ensures var s := old(db.Snapshot());
            db.Snapshot() == Enqueue(s, pid, s.PlanetAt(pid), s.queue, item, now)
  {
    var p := db.planets[pid].value;
    db.UpdatePlanetResources(pid,
                             Res(p.pools.metal - item.cost.metal as real, p.pools.crystal - item.cost.crystal as real,
                                      p.pools.deuterium - item.cost.deuterium as real), now);
    var qid := db.InsertQueueItem(item);
  }

  /** Whether the planet was written before, and by what, does not matter. */
  lemma SameEnqueue(s: State, pid: int, p: Planet, queue: seq<Item>, item: Item, now: real)
    requires s.HasPlanet(pid)
    ensures Enqueue(s.WithPlanet(pid, p).(queue := queue), pid, p, queue, item, now)
            == Enqueue(s, pid, p, queue, item, now)
  {
    LastWrite(s, pid, p, Paid(p, item.cost, now));
  }

  method CheckUpgrade(db: Tables, pid: int, b: BuildingType, planet: Planet, techs: Techs, cost: Cost)
    returns (error: Option<Error>)
    ensures error == UpgradeError(db.queue, pid, b, planet, techs, cost)
  {
    hide Meets, Sum, BuildingPrerequisites;
    var pending := db.CountActiveQueueForPlanet(pid);
    if pending >= BUILD_QUEUE_MAX_ACTIVE {
      return Some(QueueBusy);
    }
    var ok, missing := T.CheckBuildingPrereqs(b, planet.buildings, techs);
    if !ok {
      return Some(PrerequisiteNotMet);
    }
    if planet.pools.metal.Floor < cost.metal || planet.pools.crystal.Floor < cost.crystal
      || planet.pools.deuterium.Floor < cost.deuterium {
      return Some(InsufficientResources);
    }
    error := None;
  }

  method InsertUpgrade(db: Tables, env: Env, pid: int, planet: Planet, b: BuildingType, target: int, cost: Cost,
                       now: real)
    requires db.Snapshot().HasPlanet(pid) && db.Snapshot().PlanetAt(pid) == planet
    modifies db
    ensures var s := old(db.Snapshot());
            db.Snapshot() == Enqueue(s, pid, planet, s.queue,
                                     UpgradeItem(env, s.queue, pid, planet, b, target, cost, now), now)
  {
    hide StartTime, BuildTime, EarlyDivisor, Enqueue;
    var seconds := BuildTime(cost, Max(0, Level(planet.buildings, RoboticsFactory)),
                             Max(0, Level(planet.buildings, NaniteFactory)),
                             env.speedEconomy, EarlyDivisor(target));
    var start := db.LatestActiveQueueFinish(pid, now);
    DebitAndInsert(db, pid,
                   Item(pid, planet.owner, Build(b), target, 1, cost, start, start + seconds as real, false, false),
                   now);
  }

  method QueueBuilding(db: Tables, env: Env, user: int, pid: int, b: BuildingType, c: Clock) returns (reply: Reply)
    modifies db
    ensures (db.Snapshot(), reply) == old(World.QueueBuilding(env, db.Snapshot(), user, pid, b, c))
  {
    hide Refreshed, Repaired, PendingLevel, UpgradeError, UpgradeCost, UpgradeItem, Enqueue;
    var before := db.Snapshot();
    if !before.HasPlanet(pid) {
      return Failed(NotFound);
    }
    if before.PlanetAt(pid).owner != user {
      return Failed(Forbidden);
    }
    RefreshInTx(db, env, pid, c.read);
    var planet := db.planets[pid].value;
    var techs := before.TechsOf(planet.owner);
    RepairCompletedBuildingQueues(db, pid, planet.buildings);
    var base := db.HighestPending(pid, b, Level(planet.buildings, b));
    var target := base + 1;
    var cost := UpgradeCost(env, b, target, planet, techs);
    var error := CheckUpgrade(db, pid, b, planet, techs, cost);
    if error.Some? {
      db.Rollback(before);
      return Failed(error.value);
    }
    SameEnqueue(before, pid, planet, db.queue, UpgradeItem(env, db.queue, pid, planet, b, target, cost, c.write),
                c.write);
    InsertUpgrade(db, env, pid, planet, b, target, cost, c.write);
    reply := Ok;
  }

  /** A batch of ships (QueueShip) or of defenses (QueueDefense). */
  method QueueUnits(db: Tables, env: Env, user: int, pid: int, key: ItemKey, count: int, c: Clock)
    returns (reply: Reply)
    requires key.Hulls? || key.Turrets?
    modifies db
    ensures (db.Snapshot(), reply) == old(World.QueueUnits(env, db.Snapshot(), user, pid, key, count, c))
  {
    hide Refreshed, StartTime, Meets, Sum, UnitCost, UnitPrereqs, BuildTime, Enqueue;
    if count < 1 || count > MAX_UNIT_BATCH {
      return Failed(BadCount);
    }
    var before := db.Snapshot();
    if !before.HasPlanet(pid) {
      return Failed(NotFound);
    }
    if before.PlanetAt(pid).owner != user {
      return Failed(Forbidden);
    }
    RefreshInTx(db, env, pid, c.read);
    var planet := db.planets[pid].value;
    var active := db.CountActiveQueueForPlanet(pid);
    if active >= BUILD_QUEUE_MAX_ACTIVE {
      db.Rollback(before);
      return Failed(QueueBusy);
    }
    var ok, missing := T.CheckUnitPrereqs(key, planet.buildings, before.TechsOf(user));
    if !ok {
      db.Rollback(before);
      return Failed(PrerequisiteNotMet);
    }
    var unit := UnitCost(key);
    var cost := Cost(unit.metal * count, unit.crystal * count, unit.deuterium * count);
    if planet.pools.metal.Floor < cost.metal || planet.pools.crystal.Floor < cost.crystal
      || planet.pools.deuterium.Floor < cost.deuterium {
      db.Rollback(before);
      return Failed(InsufficientResources);
    }
    var seconds := BuildTime(unit, Max(0, Level(planet.buildings, RoboticsFactory)),
                             Max(0, Level(planet.buildings, NaniteFactory)),
                             env.speedEconomy, 1.0) * count;
    var start := db.LatestActiveQueueFinish(pid, c.write);
    var item := Item(pid, user, key, 0, count, cost, start, start + seconds as real, false, false);
    SameEnqueue(before, pid, planet, db.queue, item, c.write);
    DebitAndInsert(db, pid, item, c.write);
    reply := Ok;
  }

  method CheckStudy(db: Tables, user: int, t: TechType, techs: Techs, lab: int, pools: Res, cost: Cost)
    returns (error: Option<Error>)
    ensures error == StudyError(db.queue, user, t, techs, lab, pools, cost)
  {
    hide Meets, Sum, TechPrerequisites;
    var busy := db.HasActiveResearch(user);
    if busy {
      return Some(QueueBusy);
    }
    var ok, missing := T.CheckResearchPrereqs(t, lab, techs);
    if !ok {
      return Some(PrerequisiteNotMet);
    }
    if pools.metal.Floor < cost.metal || pools.crystal.Floor < cost.crystal || pools.deuterium.Floor < cost.deuterium {
      return Some(InsufficientResources);
    }
    error := None;
  }

  method QueueResearch(db: Tables, env: Env, user: int, pid: int, t: TechType, c: Clock) returns (reply: Reply)
    modifies db
    ensures (db.Snapshot(), reply) == old(World.QueueResearch(env, db.Snapshot(), user, pid, t, c))
  {
    hide Refreshed, StudyError, LabOf, ResearchLevelCost, ResearchTime, Enqueue;
    var before := db.Snapshot();
    if !before.HasPlanet(pid) {
      return Failed(NotFound);
    }
    if before.PlanetAt(pid).owner != user {
      return Failed(Forbidden);
    }
    RefreshInTx(db, env, pid, c.read);
    var planet := db.planets[pid].value;
    var techs := before.TechsOf(user);
    var lab := db.MaxLabAcrossUser(user);
    RefreshKeepsLabs(env, before, pid, c.read, user);
    var target := Level(techs, t) + 1;
    var cost := ResearchLevelCost(t, target);
    var error := CheckStudy(db, user, t, techs, lab, planet.pools, cost);
    if error.Some? {
      db.Rollback(before);
      return Failed(error.value);
    }
    var seconds := ResearchTime(cost, Max(0, lab), env.speedResearch);
    var item := Item(pid, user, Study(t), target, 1, cost, c.write, c.write + seconds as real, false, false);
    SameEnqueue(before, pid, planet, db.queue, item, c.write);
    DebitAndInsert(db, pid, item, c.write);
    reply := Ok;
  }

  lemma RefreshKeepsLabs(env: Env, s: State, pid: int, now: real, user: int)
    requires s.HasPlanet(pid)
    ensures LabOf(Refresh(env, s, pid, now).planets, user) == LabOf(s.planets, user)
  {
    SameLabs(s.planets, Refresh(env, s, pid, now).planets, user);
  }

  lemma {:induction false} SameLabs(before: seq<Option<Planet>>, after: seq<Option<Planet>>, user: int)
    requires |before| == |after|
    requires forall k :: 0 <= k < |before| ==> before[k].Some? == after[k].Some?
    requires forall k :: 0 <= k < |before| ==>
               (before[k].Some? && after[k].Some? ==>
                  before[k].value.owner == after[k].value.owner
                  && before[k].value.buildings == after[k].value.buildings)
    ensures LabOf(before, user) == LabOf(after, user)
  {
    if before != [] {
      var n := |before| - 1;
      SameLabs(before[..n], after[..n], user);
    }
  }

  method Cancel(db: Tables, env: Env, user: int, qid: int, c: Clock) returns (reply: Reply)
    modifies db
    ensures (db.Snapshot(), reply) == old(World.Cancel(env, db.Snapshot(), user, qid, c))
  {
    hide Refreshed;
    var before := db.Snapshot();
    if !(0 <= qid < |db.queue|) {
      return Failed(NotFound);
    }
    var item := db.queue[qid];
    if item.user != user {
      return Failed(Forbidden);
    }
    if item.cancelled || item.applied {
      return Failed(AlreadyResolved);
    }
    db.CancelQueueItem(qid);
    if !before.HasPlanet(item.planet) {
      db.Rollback(before);
      return Failed(NoPlanet);
    }
    RefreshInTx(db, env, item.planet, c.read);
    var p := db.planets[item.planet].value;
    db.UpdatePlanetResources(item.planet,
                             Res(p.pools.metal + item.cost.metal as real, p.pools.crystal + item.cost.crystal as real,
                                              p.pools.deuterium + item.cost.deuterium as real), c.write);
    LastWrite(before, item.planet, p, p.(pools := p.pools.Plus(Units(item.cost)), cursor := c.write));
    reply := Ok;
  }
}
