/** The periodic sweeps (internal/scheduler) on the mutable tables.  The rows of a sweep are
    read once, as values, and handled one after another. */
module Scheduler {
  import opened Wrappers
  import opened Catalog
  import opened Sums
  import opened Formulas
  import opened World
  import opened Database
  import opened Services
  import C = Combat
  import CP = CombatProperties
  import F = Flight
  import L = Ledger
  import Q = QueueSafety
  import R = Runs
  import S = Settlement

  // ---- battles ------------------------------------------------------------------------------

  /** Builds the three unit lists, in whatever order the maps yield, and lets them fight. */
  method Fight(ships: map<ShipType, int>, atk: Techs, target: Planet, def: Techs) returns (result: C.CombatResult)
    ensures result == Battle(ships, atk, target, def)
  {
    hide C.Outcome, CP.AsCoded, CP.AsDocumented, CP.AnyShipList, CP.AnyDefenseList, C.ListsShips, C.ListsDefenses;
    var a := C.BuildUnitsFromShips(ships, CombatTechs(atk));
    var s := C.BuildUnitsFromShips(target.ships, CombatTechs(def));
    var d := C.BuildUnitsFromDefenses(target.defenses, CombatTechs(def));
    result := Exchange(a, s, d);
    CP.OrderIndependent(ships, target.ships, target.defenses, CombatTechs(atk), CombatTechs(def), a, s, d,
                        CP.AnyShipList(ships, CombatTechs(atk)), CP.AnyShipList(target.ships, CombatTechs(def)),
                        CP.AnyDefenseList(target.defenses, CombatTechs(def)));
  }

  method Exchange(a: seq<C.CombatUnit>, s: seq<C.CombatUnit>, d: seq<C.CombatUnit>) returns (result: C.CombatResult)
    ensures result == CP.AsCoded(a, s, d)
  {
    hide C.Outcome;
    var attackers := new C.CombatUnit[|a|](i requires 0 <= i < |a| => a[i]);
    var ships := new C.CombatUnit[|s|](i requires 0 <= i < |s| => s[i]);
    var defenses := new C.CombatUnit[|d|](i requires 0 <= i < |d| => d[i]);
    assert attackers[..] == a && ships[..] == s && defenses[..] == d;
    result := C.SimulateCombat(attackers, ships, defenses);
  }

  /** Writes the attackers' losses; rows that lost nothing are left alone. */
  method ApplyAttackerLosses(db: Tables, fid: int, ships: map<ShipType, int>, lost: C.Losses)
    returns (surviving: map<ShipType, int>, total: int)
    requires db.Snapshot().HasFleet(fid) && db.Snapshot().FleetAt(fid).ships == ships
    modifies db`fleets
    ensures surviving == Survivors(ships, lost) && total == HeadCount(surviving)
    ensures var s := old(db.Snapshot());
            db.Snapshot() == s.WithFleet(fid, Some(s.FleetAt(fid).(ships := surviving)))
  {
    hide Survivors, Written, Overwritten;
    ghost var s, f := db.Snapshot(), db.Snapshot().FleetAt(fid);
    surviving, total := map[], 0;
    AllRows(ships, lost);
    assert s.fleets[fid := Some(f.(ships := ships))] == s.fleets;
    var todo := ships.Keys;
    while todo != {}
      invariant todo <= ships.Keys
      invariant surviving == Written(ships, lost, todo)
      invariant db.Snapshot() == s.WithFleet(fid, Some(f.(ships := Overwritten(ships, surviving))))
      decreases todo
    {
      var t :| t in todo;
      assert todo - {t} + {t} == todo;
      todo := todo - {t};
      var before := ships[t];
      var remaining := before - Level(lost, C.Hull(t));
      if remaining < 0 {
        remaining := 0;
      }
      OneRow(ships, lost, todo, surviving, t);
      LastFleetWrite(s, fid, f.(ships := Overwritten(ships, surviving)),
                     Some(f.(ships := Overwritten(ships, surviving)[t := remaining])));
      surviving := surviving[t := remaining];
      if remaining != before {
        db.SetFleetShipCount(fid, t, remaining);
      }
    }
    total := CountHeads(surviving);
  }

  /** The survivors worked out so far. */
  function Written(ships: map<ShipType, int>, lost: C.Losses, todo: set<ShipType>): map<ShipType, int> {
    map t | t in ships && t !in todo :: Max(0, ships[t] - Level(lost, C.Hull(t)))
  }

  lemma OneRow(ships: map<ShipType, int>, lost: C.Losses, todo: set<ShipType>, surviving: map<ShipType, int>,
               t: ShipType)
    requires t in ships && t !in todo && surviving == Written(ships, lost, todo + {t})
    ensures var left := Max(0, ships[t] - Level(lost, C.Hull(t)));
            && surviving[t := left] == Written(ships, lost, todo)
            && Overwritten(ships, surviving)[t := left] == Overwritten(ships, surviving[t := left])
            && (left == ships[t] ==> Overwritten(ships, surviving[t := left]) == Overwritten(ships, surviving))
            && left == if ships[t] - Level(lost, C.Hull(t)) < 0 then 0 else ships[t] - Level(lost, C.Hull(t))
  {
  }

  lemma AllRows(ships: map<ShipType, int>, lost: C.Losses)
    ensures Written(ships, lost, {}) == Survivors(ships, lost) == Overwritten(ships, Survivors(ships, lost))
    ensures Written(ships, lost, ships.Keys) == map[] && Overwritten(ships, map[]) == ships
  {
  }

  function Overwritten(ships: map<ShipType, int>, rows: map<ShipType, int>): map<ShipType, int> {
    map t | t in ships.Keys :: if t in rows then rows[t] else ships[t]
  }

  method CountHeads(ships: map<ShipType, int>) returns (total: int)
    ensures total == HeadCount(ships)
  {
    total := 0;
    var todo := ships.Keys;
    ghost var done: set<ShipType> := {};
    while todo != {}
      invariant done !! todo && done + todo == ships.Keys
      invariant total == SumKeys(done, CountIn(ships))
      decreases todo
    {
      var t :| t in todo;
      SumKeysAdd(done, t, CountIn(ships));
      todo, done := todo - {t}, done + {t};
      total := total + ships[t];
    }
    assert done == ships.Keys;
  }

  method ApplyShipLosses(db: Tables, pid: int, lost: C.Losses)
    requires db.Snapshot().HasPlanet(pid) && forall n :: n in lost ==> n.Hull?
    modifies db`planets
    ensures var p := old(db.Snapshot().PlanetAt(pid));
            db.Snapshot() == old(db.Snapshot()).WithPlanet(pid, p.(ships := AddAll(p.ships, ShipLosses(lost))))
  {
    hide AddAll, AddCount;
    ghost var s, p := db.Snapshot(), db.Snapshot().PlanetAt(pid);
    ghost var deltas: map<ShipType, int> := map[];
    AddNothing(p.ships);
    var todo := lost.Keys;
    while todo != {}
      invariant todo <= lost.Keys
      invariant deltas == map t: ShipType | C.Hull(t) in lost && C.Hull(t) !in todo && lost[C.Hull(t)] > 0 ::
                -lost[C.Hull(t)]
      invariant db.Snapshot() == s.WithPlanet(pid, p.(ships := AddAll(p.ships, deltas)))
      decreases todo
    {
      var n :| n in todo;
      todo := todo - {n};
      var killed := lost[n];
      if killed > 0 {
        AddAllNext(p.ships, deltas, n.ship, -killed);
        deltas := deltas[n.ship := -killed];
        db.AddShips(pid, n.ship, -killed);
        LastWrite(s, pid, p.(ships := AddAll(p.ships, deltas - {n.ship})), p.(ships := AddAll(p.ships, deltas)));
      }
    }
    assert deltas == ShipLosses(lost);
  }

  method ApplyDefenseLosses(db: Tables, pid: int, lost: C.Losses)
    requires db.Snapshot().HasPlanet(pid) && forall n :: n in lost ==> n.Turret?
    modifies db`planets
    ensures var p := old(db.Snapshot().PlanetAt(pid));
            db.Snapshot() == old(db.Snapshot()).WithPlanet(pid, p.(defenses := AddAll(p.defenses, DefenseLosses(lost))))
  {
    hide AddAll, AddCount;
    ghost var s, p := db.Snapshot(), db.Snapshot().PlanetAt(pid);
    ghost var deltas: map<DefenseType, int> := map[];
    AddNothing(p.defenses);
    var todo := lost.Keys;
    while todo != {}
      invariant todo <= lost.Keys
      invariant deltas == map t: DefenseType | C.Turret(t) in lost && C.Turret(t) !in todo && lost[C.Turret(t)] > 0 ::
                -lost[C.Turret(t)]
      invariant db.Snapshot() == s.WithPlanet(pid, p.(defenses := AddAll(p.defenses, deltas)))
      decreases todo
    {
      var n :| n in todo;
      todo := todo - {n};
      var killed := lost[n];
      if killed > 0 {
        AddAllNext(p.defenses, deltas, n.defense, -killed);
        deltas := deltas[n.defense := -killed];
        db.AddDefenses(pid, n.defense, -killed);
        LastWrite(s, pid, p.(defenses := AddAll(p.defenses, deltas - {n.defense})),
                  p.(defenses := AddAll(p.defenses, deltas)));
      }
    }
    assert deltas == DefenseLosses(lost);
  }

  /** Half of every pool may go, metal first, until the free hold is full. */
  method DivideLoot(pools: Res, surviving: map<ShipType, int>, cargo: Cost) returns (loot: Cost)
    ensures loot == Loot(pools, CargoCapacity(surviving) - cargo.Sum())
  {
    var lootMetal, lootCrystal, lootDeut := (pools.metal / 2.0).Floor, (pools.crystal / 2.0).Floor,
                                            (pools.deuterium / 2.0).Floor;
    var capacity := FleetCargoCapacity(surviving);
    var take := capacity - (cargo.metal + cargo.crystal + cargo.deuterium);
    if take < 0 {
      take := 0;
    }
    var takeMetal := Least(lootMetal, take);
    take := take - takeMetal;
    var takeCrystal := Least(lootCrystal, take);
    take := take - takeCrystal;
    var takeDeut := Least(lootDeut, take);
    loot := Cost(takeMetal, takeCrystal, takeDeut);
  }

  // ---- arrivals --------------------------------------------------------------------------------

  /** The return leg takes as long as the outbound leg took.  `f` is the row as it was claimed. */
  method MarkAttackReturning(db: Tables, fid: int, f: Fleet, now: real)
    requires db.Snapshot().HasFleet(fid) && db.Snapshot().FleetAt(fid).departure == f.departure
    modifies db`fleets
    ensures var s := old(db.Snapshot());
            db.Snapshot() == s.WithFleet(fid, Some(TurnedBack(s.FleetAt(fid), now)))
  {
    var elapsed := now - f.departure;
    if elapsed < 0.0 {
      elapsed := 0.0;
    }
    db.MarkArrivalProcessed(fid, Returning, Some(now + elapsed));
  }

  /** Takes the loot off the planet and into the hold. */
  method Plunder(db: Tables, fid: int, f: Fleet, pid: int, target: Planet, surviving: map<ShipType, int>, now: real)
    returns (loot: Cost)
    requires db.Snapshot().HasFleet(fid) && db.Snapshot().HasPlanet(pid)
    modifies db`planets, db`fleets
    ensures loot == Loot(target.pools, CargoCapacity(surviving) - f.cargo.Sum())
    ensures var s := old(db.Snapshot());
            db.Snapshot() == s.WithPlanet(pid,
                                          s.PlanetAt(pid).(pools := target.pools.Minus(Units(loot)), cursor := now))
                              .WithFleet(fid, Some(s.FleetAt(fid).(cargo := PlusCost(f.cargo, loot))))
  {
    loot := DivideLoot(target.pools, surviving, f.cargo);
    db.UpdatePlanetResources(pid,
                             Res(target.pools.metal - loot.metal as real, target.pools.crystal - loot.crystal as real,
                                      target.pools.deuterium - loot.deuterium as real), now);
    db.UpdateFleetCargo(fid,
                        Cost(f.cargo.metal + loot.metal, f.cargo.crystal + loot.crystal,
                             f.cargo.deuterium + loot.deuterium));
  }

  method ApplyLosses(db: Tables, fid: int, f: Fleet, pid: int, target: Planet, result: C.CombatResult)
    returns (surviving: map<ShipType, int>, survivors: int)
    requires db.Snapshot().HasFleet(fid) && db.Snapshot().FleetAt(fid) == f
    requires db.Snapshot().HasPlanet(pid) && db.Snapshot().PlanetAt(pid) == target && L.LossesFit(f, target, result)
    modifies db`planets, db`fleets
    ensures surviving == Remains(f, result) && survivors == HeadCount(surviving)
    ensures db.Snapshot()
            == old(db.Snapshot()).WithPlanet(pid, Hit(target, result)).WithFleet(fid, Some(f.(ships := surviving)))
  {
    hide HeadCount, AddAll, ShipLosses, DefenseLosses, Survivors;
    ghost var s := db.Snapshot();
    surviving, survivors := ApplyAttackerLosses(db, fid, f.ships, result.attackerDestroyed);
    ApplyShipLosses(db, pid, result.defenderShipsDestroyed);
    LastWrite(s, pid, target.(ships := AddAll(target.ships, ShipLosses(result.defenderShipsDestroyed))),
              Hit(target, result));
    ApplyDefenseLosses(db, pid, result.defenderDefensesDestroyed);
  }

  /** Writes what the battle did to both rows. */
  method SettleBattle(db: Tables, fid: int, f: Fleet, pid: int, target: Planet, result: C.CombatResult, now: real)
    requires db.Snapshot().HasFleet(fid) && db.Snapshot().FleetAt(fid) == f
    requires db.Snapshot().HasPlanet(pid) && db.Snapshot().PlanetAt(pid) == target && L.LossesFit(f, target, result)
    modifies db
    ensures var loot := Spoils(f, target, result);
            db.Snapshot() == old(db.Snapshot()).WithPlanet(pid, Plundered(f, target, result, loot, now))
                                               .WithFleet(fid, Victorious(f, result, loot, now))
  {
    hide HeadCount, CargoCapacity, Hit, Remains, Loot, L.LossesFit;
    ghost var s := db.Snapshot();
    var surviving, survivors := ApplyLosses(db, fid, f, pid, target, result);
    ghost var loot, f' := Spoils(f, target, result), f.(ships := surviving);
    ghost var t := s.WithPlanet(pid, Plundered(f, target, result, loot, now));
    HitKeepsRest(target, result);
    LastWrite(s, pid, Hit(target, result), Plundered(f, target, result, loot, now));
    LastFleetWrite(t, fid, f', Some(f'.(cargo := PlusCost(f.cargo, loot))));
    LastFleetWrite(t, fid, f', Victorious(f, result, loot, now));
    LastFleetWrite(t, fid, f'.(cargo := PlusCost(f.cargo, loot)), Victorious(f, result, loot, now));
    if result.winner == C.Attacker && survivors > 0 {
      var taken := Plunder(db, fid, f, pid, target, surviving, now);
    }
    if survivors == 0 {
      db.DeleteFleet(fid);
    } else {
      MarkAttackReturning(db, fid, f, now);
    }
  }

  lemma HitKeepsRest(p: Planet, result: C.CombatResult)
    ensures Hit(p, result) == p.(ships := Hit(p, result).ships, defenses := Hit(p, result).defenses)
  {
  }

  method ResolveAttack(db: Tables, env: Env, fid: int, f: Fleet, c: Clock)
    requires db.Snapshot().HasFleet(fid) && db.Snapshot().FleetAt(fid) == f
    modifies db
    ensures db.Snapshot() == old(World.ResolveAttack(env, db.Snapshot(), fid, c))
  {
    hide Refreshed, Battle, Spoils, Plundered, Victorious;
    ghost var s := db.Snapshot();
    if |f.ships| == 0 {
      MarkAttackReturning(db, fid, f, c.write);
      return;
    }
    var attackerTech := db.Snapshot().TechsOf(f.owner);
    if f.targetPlanet.None? || !db.Snapshot().HasPlanet(f.targetPlanet.value) {
      MarkAttackReturning(db, fid, f, c.write);
      return;
    }
    var pid := f.targetPlanet.value;
    RefreshInTx(db, env, pid, c.read);
    var target := db.planets[pid].value;
    var defTech := db.Snapshot().TechsOf(target.owner);
    var result := Fight(f.ships, attackerTech, target, defTech);
    L.BattleLosses(f.ships, attackerTech, target, defTech);
    LastWrite(s, pid, target, Plundered(f, target, result, Spoils(f, target, result), c.write));
    SettleBattle(db, fid, f, pid, target, result, c.write);
  }

  method ResolveTransport(db: Tables, env: Env, fid: int, f: Fleet, c: Clock)
    requires db.Snapshot().HasFleet(fid) && db.Snapshot().FleetAt(fid) == f
    modifies db
    ensures db.Snapshot() == old(World.ResolveTransport(env, db.Snapshot(), fid, c))
  {
    hide Refreshed;
    ghost var s := db.Snapshot();
    if f.targetPlanet.None? || !db.Snapshot().HasPlanet(f.targetPlanet.value) {
      MarkAttackReturning(db, fid, f, c.write);
      return;
    }
    var pid := f.targetPlanet.value;
    RefreshInTx(db, env, pid, c.read);
    ghost var p := db.Snapshot().PlanetAt(pid);
    UnloadCargo(db, pid, f.cargo, c.write);
    LastWrite(s, pid, p, Credit(p, f.cargo, c.write));
    ghost var emptied := if f.cargo.metal > 0 || f.cargo.crystal > 0
      || f.cargo.deuterium > 0 then f.(cargo := Cost(0, 0, 0)) else f;
    if f.cargo.metal > 0 || f.cargo.crystal > 0 || f.cargo.deuterium > 0 {
      db.UpdateFleetCargo(fid, Cost(0, 0, 0));
    }
    MarkAttackReturning(db, fid, f, c.write);
    assert db.fleets == s.fleets[fid := Some(TurnedBack(emptied, c.write))];
  }

  /** Refreshes a planet and leaves a fleet's ships and cargo there. */
  method MergeInto(db: Tables, env: Env, pid: int, f: Fleet, c: Clock)
    requires db.Snapshot().HasPlanet(pid)
    modifies db`planets
    ensures var s := old(db.Snapshot());
            db.Snapshot() == s.WithPlanet(pid, Merged(RefreshedAt(env, s, pid, c.read), f, c.write))
  {
    hide Refreshed, AddAll, Credit;
    ghost var s := db.Snapshot();
    RefreshInTx(db, env, pid, c.read);
    ghost var p := db.Snapshot().PlanetAt(pid);
    ghost var q := p.(ships := AddAll(p.ships, Positive(f.ships)));
    UnloadShips(db, pid, f.ships);
    LastWrite(s, pid, p, q);
    UnloadCargo(db, pid, f.cargo, c.write);
    LastWrite(s, pid, q, Merged(p, f, c.write));
  }

  method ResolveDeploy(db: Tables, env: Env, fid: int, f: Fleet, c: Clock)
    requires db.Snapshot().HasFleet(fid) && db.Snapshot().FleetAt(fid) == f
    modifies db
    ensures db.Snapshot() == old(World.ResolveDeploy(env, db.Snapshot(), fid, c))
  {
    hide RefreshedAt, Merged, World.ResolveTransport;
    if f.targetPlanet.None? || !db.Snapshot().HasPlanet(f.targetPlanet.value) {
      MarkAttackReturning(db, fid, f, c.write);
      return;
    }
    var pid := f.targetPlanet.value;
    if db.planets[pid].value.owner != f.owner {
      ResolveTransport(db, env, fid, f, c);
      return;
    }
    MergeInto(db, env, pid, f, c);
    db.DeleteFleet(fid);
  }

  method ResolveColonize(db: Tables, env: Env, fid: int, f: Fleet, d: Dice, c: Clock)
    requires db.Snapshot().HasFleet(fid) && db.Snapshot().FleetAt(fid) == f
    modifies db
    ensures db.Snapshot() == old(World.ResolveColonize(db.Snapshot(), fid, d, c))
  {
    hide AddAll, FindByCoord, Sum;
    ghost var s := db.Snapshot();
    var occupied := db.GetPlanetByCoord(f.target);
    if occupied.Some? {
      MarkAttackReturning(db, fid, f, c.write);
      return;
    }
    var astro := Level(db.Snapshot().TechsOf(f.owner), Astrophysics);
    var owned := db.CountPlanets(f.owner);
    if !CanColonizePosition(astro, f.target.position) || owned >= MaxPlanets(astro) {
      MarkAttackReturning(db, fid, f, c.write);
      return;
    }
    var bare := Planet(f.owner, f.target,
                       Res(f.cargo.metal as real, f.cargo.crystal as real, f.cargo.deuterium as real), c.write,
                       map[], map[], map[], 0, d.fieldsTotal, d.tempMin, d.tempMax);
    var created := db.CreatePlanet(bare);
    if created.None? {
      assert false;
    }
    var pid := created.value;
    var ships := f.ships;
    if ColonyShip in ships && ships[ColonyShip] > 0 {
      ships := ships[ColonyShip := ships[ColonyShip] - 1];
    }
    UnloadShips(db, pid, ships);
    assert db.planets == s.planets + [Some(Colony(f, d, c.write))];
    db.DeleteFleet(fid);
  }

  /** Reports and messages are not modelled; `d.roll` is the random number of the source. */
  method ResolveEspionage(db: Tables, env: Env, fid: int, f: Fleet, d: Dice, c: Clock)
    requires db.Snapshot().HasFleet(fid) && db.Snapshot().FleetAt(fid) == f
    modifies db
    ensures db.Snapshot() == old(World.ResolveSpy(env, db.Snapshot(), fid, d, c))
  {
    hide Refreshed, F.CounterEspionageChance;
    ghost var s := db.Snapshot();
    var atkSpy := Level(db.Snapshot().TechsOf(f.owner), Espionage);
    var probes := Level(f.ships, EspionageProbe);
    if f.targetPlanet.None? || !db.Snapshot().HasPlanet(f.targetPlanet.value) {
      MarkAttackReturning(db, fid, f, c.write);
      return;
    }
    RefreshInTx(db, env, f.targetPlanet.value, c.read);
    var target := db.planets[f.targetPlanet.value].value;
    Q.RefreshKeepsEstate(env, s.PlanetAt(f.targetPlanet.value), s.TechsOf(s.PlanetAt(f.targetPlanet.value).owner),
                         c.read);
    var defSpy := Level(db.Snapshot().TechsOf(target.owner), Espionage);
    var counter := F.CounterEspionageChance(probes, defSpy, atkSpy);
    if d.roll < counter {
      db.DeleteFleet(fid);
      return;
    }
    MarkAttackReturning(db, fid, f, c.write);
  }

  method HandleArrival(db: Tables, env: Env, fid: int, f: Fleet, d: Dice, c: Clock)
    requires db.Snapshot().HasFleet(fid) && db.Snapshot().FleetAt(fid) == f
    modifies db
    ensures db.Snapshot() == old(Arrive(env, db.Snapshot(), fid, d, c))
  {
    hide World.ResolveAttack, World.ResolveTransport, World.ResolveDeploy, World.ResolveColonize, ResolveSpy;
    match f.mission {
      case Attack => ResolveAttack(db, env, fid, f, c);
      case Transport => ResolveTransport(db, env, fid, f, c);
      case Deploy => ResolveDeploy(db, env, fid, f, c);
      case Colonize => ResolveColonize(db, env, fid, f, d, c);
      case Spy => ResolveEspionage(db, env, fid, f, d, c);
      case Recycle => MarkAttackReturning(db, fid, f, c.write);
    }
  }

  method HandleReturn(db: Tables, env: Env, fid: int, f: Fleet, c: Clock)
    requires db.Snapshot().HasFleet(fid) && db.Snapshot().FleetAt(fid) == f
    modifies db
    ensures db.Snapshot() == old(Return(env, db.Snapshot(), fid, c))
  {
    hide RefreshedAt, Merged;
    if !db.Snapshot().HasPlanet(f.origin) {
      db.DeleteFleet(fid);
      return;
    }
    MergeInto(db, env, f.origin, f, c);
    db.MarkReturnProcessed(fid);
  }

  // ---- the queue sweep -----------------------------------------------------------------------------

  /** Applies one finished row; a row whose planet is gone fails and is left for later. */
  method ApplyOne(db: Tables, item: Item) returns (ok: bool)
    modifies db
    ensures var applied := old(Applied(db.Snapshot(), item));
            ok == applied.Some? && db.Snapshot() == if ok then applied.value else old(db.Snapshot())
  {
    hide AddCount;
    if item.key.Study? {
      db.IncrementResearchLevel(item.user, item.key.tech, 1);
      return true;
    }
    if !db.Snapshot().HasPlanet(item.planet) {
      return false;
    }
    ghost var s, p := db.Snapshot(), db.Snapshot().PlanetAt(item.planet);
    match item.key {
      case Build(b) =>
        db.IncrementBuildingLevel(item.planet, b, 1);
        LastWrite(s, item.planet, db.Snapshot().PlanetAt(item.planet),
                  db.Snapshot().PlanetAt(item.planet).(fieldsUsed := p.fieldsUsed + 1));
        db.IncrementPlanetFields(item.planet, 1);
      case Hulls(t) =>
        var delta := item.count;
        if delta <= 0 {
          delta := 1;
        }
        db.AddShips(item.planet, t, delta);
      case Turrets(t) =>
        var delta := item.count;
        if delta <= 0 {
          delta := 1;
        }
        db.AddDefenses(item.planet, t, delta);
      case Study(_) =>
        assert false;
    }
    ok := true;
  }

  /** One transaction of the sweep: the row is flagged if it could be applied. */
  method ApplyRow(db: Tables, qid: int, item: Item)
    requires 0 <= qid < |db.queue| && db.queue[qid] == item
    modifies db
    ensures db.Snapshot() == ApplyItem(old(db.Snapshot()), qid)
    ensures |db.queue| == |old(db.queue)|
            && forall k :: 0 <= k < |db.queue| && k != qid ==> db.queue[k] == old(db.queue[k])
  {
    hide Applied;
    AppliedKeepsQueue(db.Snapshot(), item);
    var ok := ApplyOne(db, item);
    if ok {
      db.MarkQueueApplied(qid);
    }
  }

  /** Claims a batch and applies it in order.  The rows are values from the claim: they do
      not change while the others are applied. */
  method QueueSweep(db: Tables, now: real) returns (ghost ids: seq<int>)
    modifies db
    ensures Q.IsBatch(old(db.queue), now, ids)
    ensures db.Snapshot() == Q.Sweep(old(db.Snapshot()), ids)
  {
    hide ApplyItem, Q.IsBatch;
    ghost var s := db.Snapshot();
    var due := db.ListDueQueueItems(now);
    ids := due;
    BatchRows(s.queue, now, ids);
    var table := db.queue;
    var rows := seq(|due|, k requires 0 <= k < |due| => table[due[k]]);
    for i := 0 to |due|
      invariant |db.queue| == |s.queue|
      invariant forall k :: i <= k < |due| ==> db.queue[due[k]] == rows[k]
      invariant Q.Sweep(db.Snapshot(), due[i..]) == Q.Sweep(s, due)
    {
      assert due[i..][1..] == due[i + 1..];
      ApplyRow(db, due[i], rows[i]);
    }
    assert due[|due|..] == [];
  }

  lemma BatchRows(queue: seq<Item>, now: real, ids: seq<int>)
    requires Q.IsBatch(queue, now, ids)
    ensures Distinct(ids) && forall k :: 0 <= k < |ids| ==> 0 <= ids[k] < |queue|
  {
  }

  lemma AppliedKeepsQueue(s: State, i: Item)
    ensures Applied(s, i).Some? ==> Applied(s, i).value.queue == s.queue
  {
  }

  // ---- the fleet sweeps -------------------------------------------------------------------------------

  lemma ArrivingBatch(s: State, now: real, ids: seq<int>)
    requires IsFleetBatch(s.fleets, ArrivesBy(now), ArrivalTime, ids)
    ensures S.AllArriving(s, now, ids) && |ids| <= Q.BATCH_SIZE
  {
  }

  lemma ReturningBatch(s: State, now: real, ids: seq<int>)
    requires IsFleetBatch(s.fleets, ReturnsBy(now), ReturnTime, ids)
    ensures S.AllReturning(s, now, ids) && |ids| <= Q.BATCH_SIZE
  {
  }

  /** Claims the fleets that have arrived and handles them one after another, from their rows
      as claimed.  Every handler has its own clock readings and its own luck. */
  method ArrivalSweep(db: Tables, env: Env, now: real, dice: seq<Dice>, clocks: seq<Clock>)
    returns (ghost ids: seq<int>)
    requires |dice| == |clocks| == Q.BATCH_SIZE
    modifies db
    ensures S.AllArriving(old(db.Snapshot()), now, ids)
            && IsFleetBatch(old(db.fleets), ArrivesBy(now), ArrivalTime, ids)
    ensures db.Snapshot() == S.ArriveAll(env, old(db.Snapshot()), ids, dice, clocks)
  {
    hide Arrive, IsFleetBatch;
    ghost var s := db.Snapshot();
    var due := db.ListDueFleets(ArrivesBy(now), ArrivalTime);
    ids := due;
    ArrivingBatch(s, now, due);
    var table := db.fleets;
    var rows := seq(|due|, k requires 0 <= k < |due| => table[due[k]].value);
    for i := 0 to |due|
      invariant |db.fleets| == |s.fleets|
      invariant forall k :: i <= k < |due| ==> db.fleets[due[k]] == Some(rows[k])
      invariant S.ArriveAll(env, db.Snapshot(), due[i..], dice[i..], clocks[i..])
                == S.ArriveAll(env, s, due, dice, clocks)
    {
      S.TouchesOne(env, db.Snapshot(), due[i], dice[i], clocks[i]);
      assert due[i..][1..] == due[i + 1..] && dice[i..][1..] == dice[i + 1..] && clocks[i..][1..] == clocks[i + 1..];
      HandleArrival(db, env, due[i], rows[i], dice[i], clocks[i]);
    }
    assert due[|due|..] == [];
  }

  method ReturnSweep(db: Tables, env: Env, now: real, clocks: seq<Clock>) returns (ghost ids: seq<int>)
    requires |clocks| == Q.BATCH_SIZE
    modifies db
    ensures S.AllReturning(old(db.Snapshot()), now, ids)
            && IsFleetBatch(old(db.fleets), ReturnsBy(now), ReturnTime, ids)
    ensures db.Snapshot() == S.ReturnAll(env, old(db.Snapshot()), ids, clocks)
  {
    hide Return, IsFleetBatch;
    ghost var s := db.Snapshot();
    var due := db.ListDueFleets(ReturnsBy(now), ReturnTime);
    ids := due;
    ReturningBatch(s, now, due);
    var table := db.fleets;
    var rows := seq(|due|, k requires 0 <= k < |due| => table[due[k]].value);
    for i := 0 to |due|
      invariant |db.fleets| == |s.fleets|
      invariant forall k :: i <= k < |due| ==> db.fleets[due[k]] == Some(rows[k])
      invariant S.ReturnAll(env, db.Snapshot(), due[i..], clocks[i..]) == S.ReturnAll(env, s, due, clocks)
    {
      S.TouchesOne(env, db.Snapshot(), due[i], Dice(0.0, 0, 0, 0), clocks[i]);
      assert due[i..][1..] == due[i + 1..] && clocks[i..][1..] == clocks[i + 1..];
      HandleReturn(db, env, due[i], rows[i], clocks[i]);
    }
    assert due[|due|..] == [];
  }

  /** One tick: the queue, the arrivals, the returns. */
  method TickOnce(db: Tables, env: Env, k: R.TickClocks, dice: seq<Dice>)
    returns (ghost q: seq<int>, ghost a: seq<int>, ghost h: seq<int>)
    requires |dice| == |k.arrival| == |k.homecoming| == Q.BATCH_SIZE
    modifies db
    ensures Q.IsBatch(old(db.queue), k.queue, q) && |a| <= Q.BATCH_SIZE && |h| <= Q.BATCH_SIZE
    ensures S.AllArriving(Q.Sweep(old(db.Snapshot()), q), k.arrivals, a)
    ensures S.AllReturning(S.ArriveAll(env, Q.Sweep(old(db.Snapshot()), q), a, dice, k.arrival), k.homecomings, h)
    ensures db.Snapshot() == R.AfterTick(env, old(db.Snapshot()), k, dice, q, a, h)
  {
    hide Q.Sweep, S.ArriveAll, S.ReturnAll, S.AllArriving, S.AllReturning;
    q := QueueSweep(db, k.queue);
    a := ArrivalSweep(db, env, k.arrivals, dice, k.arrival);
    h := ReturnSweep(db, env, k.homecomings, k.homecoming);
  }
}
