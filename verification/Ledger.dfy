/** Conservation: what every transaction keeps, and the books over whole runs. */
module Ledger {
  import opened Wrappers
  import opened Catalog
  import opened Sums
  import opened Formulas
  import opened World
  import A = Accrual
  import C = Combat
  import CP = CombatProperties

  // ---- the invariant --------------------------------------------------------------------

  ghost predicate CountsSound<K>(m: map<K, int>) { forall k :: k in m ==> m[k] >= 0 }

  ghost predicate PlanetSound(p: Planet) {
    p.pools.NonNegative() && CountsSound(p.ships) && CountsSound(p.defenses)
  }

  /** In particular a colonizing fleet still on its way out carries its colony ship. */
  ghost predicate FleetSound(f: Fleet) {
    && f.cargo.NonNegative() && CountsSound(f.ships)
    && (f.status == Outbound ==> !f.arrivalProcessed && !f.returnProcessed)
    && (f.status == Outbound && f.mission == Colonize ==> Level(f.ships, ColonyShip) >= 1)
  }

  ghost predicate Sound(s: State) {
    && (forall i :: 0 <= i < |s.planets| && s.planets[i].Some? ==> PlanetSound(s.planets[i].value))
    && (forall i :: 0 <= i < |s.fleets| && s.fleets[i].Some? ==> FleetSound(s.fleets[i].value))
    && (forall i :: 0 <= i < |s.queue| ==> s.queue[i].cost.NonNegative())
  }

  // ---- refresh ---------------------------------------------------------------------------

  datatype Kind = Metal | Crystal | Deuterium

  function Of(r: Res, k: Kind): real {
    match k
    case Metal => r.metal
    case Crystal => r.crystal
    case Deuterium => r.deuterium
  }

  /** What one refresh credits, and what of that (or of an overfull pool) the silo cannot keep. */
  function ProducedBy(env: Env, p: Planet, t: Techs, now: real, k: Kind): real {
    if A.Skips(p.cursor, now) then 0.0 else Of(Gains(env, p, t, now), k)
  }

  function ClippedBy(env: Env, p: Planet, t: Techs, now: real, k: Kind): real {
    if A.Skips(p.cursor, now) then 0.0
    else
      var over := Of(p.pools, k) + Of(Gains(env, p, t, now), k) - Of(env.capacity(p), k);
      if over > 0.0 then over else 0.0
  }

  lemma GainsNonNegative(env: Env, p: Planet, t: Techs, now: real)
    requires p.cursor <= now
    ensures Gains(env, p, t, now).NonNegative()
  {
    var r, seconds := env.report(p, t).perHour, now - p.cursor;
    A.GainAdds(r.metal, seconds, 0.0);
    A.GainAdds(r.crystal, seconds, 0.0);
    A.GainAdds(r.deuterium, seconds, 0.0);
  }

  lemma RefreshBalances(env: Env, p: Planet, t: Techs, now: real)
    requires PlanetSound(p)
    ensures var q := Refreshed(env, p, t, now);
            && q == p.(pools := q.pools, cursor := q.cursor) && PlanetSound(q)
            && forall k :: Of(q.pools, k)
                 == Of(p.pools, k) + ProducedBy(env, p, t, now, k) - ClippedBy(env, p, t, now, k)
                             && 0.0 <= ProducedBy(env, p, t, now, k) && 0.0 <= ClippedBy(env, p, t, now, k)
  {
    if !A.Skips(p.cursor, now) {
      GainsNonNegative(env, p, t, now);
    }
  }

  // ---- unit counts ---------------------------------------------------------------------------

  /** No delta takes a count below zero: the clamp of the upsert is never reached. */
  ghost predicate ClampIdle<K(!new)>(m: map<K, int>, d: map<K, int>) {
    forall k :: k in d && d[k] < 0 ==> k in m && m[k] + d[k] >= 0
  }

  lemma AddAllAdds<K(!new)>(m: map<K, int>, d: map<K, int>)
    requires CountsSound(m) && ClampIdle(m, d)
    ensures CountsSound(AddAll(m, d))
    ensures forall k :: Level(AddAll(m, d), k) == Level(m, k) + Level(d, k)
  {
  }

  lemma MergedCounts(p: Planet, f: Fleet, now: real)
    requires PlanetSound(p) && FleetSound(f)
    ensures PlanetSound(Merged(p, f, now))
    ensures forall t :: Level(Merged(p, f, now).ships, t) == Level(p.ships, t) + Level(f.ships, t)
    ensures forall k :: Of(Merged(p, f, now).pools, k) == Of(p.pools, k) + Of(Units(f.cargo), k)
  {
    AddAllAdds(p.ships, Positive(f.ships));
  }

  // ---- battles ------------------------------------------------------------------------------

  /** Nobody loses what he did not have. */
  ghost predicate LossesWithin(lost: C.Losses, ships: map<ShipType, int>) {
    forall n :: n in lost ==> n.Hull? && n.ship in ships && 0 < lost[n] <= ships[n.ship]
  }

  ghost predicate DefenseLossesWithin(lost: C.Losses, defenses: map<DefenseType, int>) {
    forall n :: n in lost ==> n.Turret? && n.defense in defenses && 0 < lost[n] <= defenses[n.defense]
  }

  lemma DestroyedFrom(s: seq<C.CombatUnit>, damage: nat, hp: int, n: C.UnitName) returns (u: C.CombatUnit)
    requires C.DistinctNames(s) && n in C.Destroyed(s, damage, hp)
    ensures u in s && u.name == n && C.Destroyed(s, damage, hp)[n] <= u.count
  {
    assert hp > 0;
    CP.DestroyedLookup(s, damage, hp);
    assert CP.Pooled(s, n);
    u :| u in s && u.count > 0 && u.name == n;
    C.KilledBounds(u, damage, hp);
  }

  lemma FleetLosses(a: seq<C.CombatUnit>, ships: map<ShipType, int>, tech: C.CombatTech, damage: nat, hp: int)
    requires C.ListsShips(a, ships, tech)
    ensures LossesWithin(C.Positive(C.Destroyed(a, damage, hp)), ships)
  {
    forall n | n in C.Positive(C.Destroyed(a, damage, hp))
      ensures n.Hull? && n.ship in ships && C.Destroyed(a, damage, hp)[n] <= ships[n.ship]
    {
      var u := DestroyedFrom(a, damage, hp, n);
    }
  }

  lemma GarrisonLosses(s: seq<C.CombatUnit>, d: seq<C.CombatUnit>, ships: map<ShipType, int>,
                       defenses: map<DefenseType, int>,
                       tech: C.CombatTech, damage: nat, hp: int)
    requires C.ListsShips(s, ships, tech) && C.ListsDefenses(d, defenses, tech)
    ensures var down := C.Positive(C.Destroyed(s + d, damage, hp));
            && LossesWithin(C.Among(down, C.Names(s)), ships)
            && DefenseLossesWithin(C.Among(C.Outside(down, C.Names(s)), C.Names(d)), defenses)
  {
    assert C.Names(s) !! C.Names(d);
    CP.DistinctConcat(s, d);
    CP.InEither(s, d);
    var down := C.Positive(C.Destroyed(s + d, damage, hp));
    forall n | n in down
      ensures if n.Hull? then n.ship in ships && down[n] <= ships[n.ship] && n in C.Names(s)
              else n.defense in defenses && down[n] <= defenses[n.defense] && n !in C.Names(s)
    {
      var u := DestroyedFrom(s + d, damage, hp, n);
    }
    forall n | n in C.Names(d) ensures n.Turret? {
    }
    forall n | n in C.Names(s) ensures n.Hull? {
    }
  }

  lemma BattleFields(a: seq<C.CombatUnit>, s: seq<C.CombatUnit>, d: seq<C.CombatUnit>)
    ensures var r, t := CP.AsCoded(a, s, d), C.TotalsOf(a, s, d);
            var down := C.Positive(C.Destroyed(s + d, t.atkAttack, t.defHP));
            && r.attackerDestroyed == C.Positive(C.Destroyed(a, t.defAttack, t.atkHP))
            && r.defenderShipsDestroyed == C.Among(down, C.Names(s))
            && r.defenderDefensesDestroyed == C.Among(C.Outside(down, C.Names(s)), C.Names(d))
  {
  }

  lemma BattleLosses(fleetShips: map<ShipType, int>, atk: Techs, p: Planet, def: Techs)
    ensures var r := Battle(fleetShips, atk, p, def);
            && LossesWithin(r.attackerDestroyed, fleetShips)
            && LossesWithin(r.defenderShipsDestroyed, p.ships)
            && DefenseLossesWithin(r.defenderDefensesDestroyed, p.defenses)
  {
    var a := CP.AnyShipList(fleetShips, CombatTechs(atk));
    var s := CP.AnyShipList(p.ships, CombatTechs(def));
    var d := CP.AnyDefenseList(p.defenses, CombatTechs(def));
    var t := C.TotalsOf(a, s, d);
    BattleFields(a, s, d);
    FleetLosses(a, fleetShips, CombatTechs(atk), t.defAttack, t.atkHP);
    GarrisonLosses(s, d, p.ships, p.defenses, CombatTechs(def), t.atkAttack, t.defHP);
  }

  lemma NoSurvivors(survivors: map<ShipType, int>)
    requires CountsSound(survivors) && HeadCount(survivors) == 0
    ensures forall t :: Level(survivors, t) == 0
  {
    SumKeysNonNegative(survivors.Keys, CountIn(survivors));
    forall t ensures Level(survivors, t) == 0 {
      assert t in survivors.Keys ==> CountIn(survivors)(t) == 0;
    }
  }

  lemma SurvivorCounts(ships: map<ShipType, int>, lost: C.Losses)
    requires CountsSound(ships) && LossesWithin(lost, ships)
    ensures CountsSound(Survivors(ships, lost))
    ensures forall t :: Level(Survivors(ships, lost), t) == Level(ships, t) - Level(lost, C.Hull(t))
  {
    forall t ensures Level(Survivors(ships, lost), t) == Level(ships, t) - Level(lost, C.Hull(t)) {
      if C.Hull(t) in lost {
        assert t in ships;
      }
    }
  }

  lemma ShipLossesFit(ships: map<ShipType, int>, lost: C.Losses)
    requires CountsSound(ships) && LossesWithin(lost, ships)
    ensures ClampIdle(ships, ShipLosses(lost))
    ensures forall t :: Level(ShipLosses(lost), t) == -Level(lost, C.Hull(t))
  {
    var d := ShipLosses(lost);
    forall t | t in d ensures t in ships && ships[t] + d[t] >= 0 {
      assert C.Hull(t) in lost;
    }
    forall t ensures Level(d, t) == -Level(lost, C.Hull(t)) {
      if C.Hull(t) in lost {
        assert t in d;
      }
    }
  }

  lemma ShipsAfterLosses(ships: map<ShipType, int>, lost: C.Losses)
    requires CountsSound(ships) && LossesWithin(lost, ships)
    ensures CountsSound(AddAll(ships, ShipLosses(lost)))
    ensures forall t :: Level(AddAll(ships, ShipLosses(lost)), t) == Level(ships, t) - Level(lost, C.Hull(t))
  {
    ShipLossesFit(ships, lost);
    AddAllAdds(ships, ShipLosses(lost));
  }

  lemma DefenseLossesFit(defenses: map<DefenseType, int>, lost: C.Losses)
    requires CountsSound(defenses) && DefenseLossesWithin(lost, defenses)
    ensures ClampIdle(defenses, DefenseLosses(lost)) && CountsSound(AddAll(defenses, DefenseLosses(lost)))
    ensures forall t :: Level(AddAll(defenses, DefenseLosses(lost)), t) == Level(defenses, t) - Level(lost, C.Turret(t))
  {
    var d := DefenseLosses(lost);
    forall t | t in d ensures t in defenses && defenses[t] + d[t] >= 0 {
      assert C.Turret(t) in lost;
    }
    forall t ensures Level(d, t) == -Level(lost, C.Turret(t)) {
      if C.Turret(t) in lost {
        assert t in d;
      }
    }
    AddAllAdds(defenses, d);
  }

  /** Ships and cargo of a fleet row that may be gone. */
  function FleetShips(f: Option<Fleet>, t: ShipType): int { if f.Some? then Level(f.value.ships, t) else 0 }
  function FleetCargo(f: Option<Fleet>, k: Kind): real { if f.Some? then Of(Units(f.value.cargo), k) else 0.0 }

  ghost predicate LossesFit(f: Fleet, p: Planet, r: C.CombatResult) {
    && LossesWithin(r.attackerDestroyed, f.ships) && LossesWithin(r.defenderShipsDestroyed, p.ships)
    && DefenseLossesWithin(r.defenderDefensesDestroyed, p.defenses)
  }

  /** The loot is taken from what is there, and only by a winner. */
  ghost predicate LootFits(f: Fleet, p: Planet, r: C.CombatResult, loot: Cost) {
    loot.NonNegative() && p.pools.Minus(Units(loot)).NonNegative() && (!Loots(f, r) ==> loot == Cost(0, 0, 0))
  }

  lemma SpoilsFit(f: Fleet, p: Planet, r: C.CombatResult)
    requires p.pools.NonNegative()
    ensures LootFits(f, p, r, Spoils(f, p, r))
  {
  }

  lemma BattlePlanet(f: Fleet, p: Planet, r: C.CombatResult, loot: Cost, now: real)
    requires PlanetSound(p) && LossesFit(f, p, r) && LootFits(f, p, r, loot)
    ensures var p' := Plundered(f, p, r, loot, now);
            && PlanetSound(p')
            && (forall t :: Level(p'.ships, t) == Level(p.ships, t) - Level(r.defenderShipsDestroyed, C.Hull(t)))
            && forall t :: Level(p'.defenses, t)
                 == Level(p.defenses, t) - Level(r.defenderDefensesDestroyed, C.Turret(t))
  {
    ShipsAfterLosses(p.ships, r.defenderShipsDestroyed);
    DefenseLossesFit(p.defenses, r.defenderDefensesDestroyed);
  }

  lemma BattleFleet(f: Fleet, p: Planet, r: C.CombatResult, loot: Cost, now: real)
    requires FleetSound(f) && LossesFit(f, p, r) && LootFits(f, p, r, loot)
    ensures var f' := Victorious(f, r, loot, now);
            && (f'.Some? ==> FleetSound(f'.value) && f'.value.returnProcessed == f.returnProcessed)
            && forall t :: FleetShips(f', t) == Level(f.ships, t) - Level(r.attackerDestroyed, C.Hull(t))
  {
    SurvivorCounts(f.ships, r.attackerDestroyed);
    if HeadCount(Remains(f, r)) == 0 {
      NoSurvivors(Remains(f, r));
    }
  }

  lemma LootMoves(pools: Res, cargo: Cost, loot: Cost, k: Kind)
    ensures Of(pools.Minus(Units(loot)), k) + Of(Units(PlusCost(cargo, loot)), k) == Of(pools, k) + Of(Units(cargo), k)
  {
  }

  lemma BattleWealth(f: Fleet, p: Planet, r: C.CombatResult, loot: Cost, now: real, k: Kind)
    requires LootFits(f, p, r, loot)
    ensures var p', f' := Plundered(f, p, r, loot, now), Victorious(f, r, loot, now);
            Of(p'.pools, k) + FleetCargo(f', k) == Of(p.pools, k) + if f'.Some? then Of(Units(f.cargo), k) else 0.0
  {
    if Loots(f, r) {
      LootMoves(p.pools, f.cargo, loot, k);
    } else {
      assert PlusCost(f.cargo, loot) == f.cargo;
    }
  }

  lemma BattleFits(f: Fleet, p: Planet, atk: Techs, def: Techs)
    requires PlanetSound(p)
    ensures var r := Battle(f.ships, atk, p, def);
            LossesFit(f, p, r) && LootFits(f, p, r, Spoils(f, p, r))
  {
    hide Battle, Spoils, LootFits;
    BattleLosses(f.ships, atk, p, def);
    SpoilsFit(f, p, Battle(f.ships, atk, p, def));
  }

  /** Both rows after a battle: counts fall by the losses, and loot only changes hands. */
  lemma BattleResult(f: Fleet, p: Planet, atk: Techs, def: Techs, now: real)
    requires PlanetSound(p) && FleetSound(f) && !f.returnProcessed
    ensures var r := Battle(f.ships, atk, p, def);
            var loot := Spoils(f, p, r);
            var p', f' := Plundered(f, p, r, loot, now), Victorious(f, r, loot, now);
            && PlanetSound(p') && (f'.Some? ==> FleetSound(f'.value) && !f'.value.returnProcessed)
            && (f'.None? <==> HeadCount(Remains(f, r)) == 0)
            && (forall t :: Level(p'.ships, t) == Level(p.ships, t) - Level(r.defenderShipsDestroyed, C.Hull(t)))
            && (forall t :: Level(p'.defenses, t)
                  == Level(p.defenses, t) - Level(r.defenderDefensesDestroyed, C.Turret(t)))
            && (forall t :: FleetShips(f', t) == Level(f.ships, t) - Level(r.attackerDestroyed, C.Hull(t)))
            && (forall k :: Of(p'.pools, k) + FleetCargo(f', k)
                  == Of(p.pools, k) + if f'.Some? then Of(Units(f.cargo), k) else 0.0)
  {
    hide Battle, Spoils, Plundered, PlanetSound, FleetSound, LootFits, LossesFit, HeadCount, Units, AddAll, Survivors;
    var r := Battle(f.ships, atk, p, def);
    var loot := Spoils(f, p, r);
    BattleFits(f, p, atk, def);
    BattlePlanet(f, p, r, loot, now);
    BattleFleet(f, p, r, loot, now);
    forall k {
      BattleWealth(f, p, r, loot, now, k);
    }
  }

  // ---- totals over the tables -------------------------------------------------------------------

  function ShipsOn(t: ShipType): Option<Planet> -> int {
    (p: Option<Planet>) => if p.Some? then Level(p.value.ships, t) else 0
  }

  /** A returned fleet keeps its rows, but its ships and cargo have been unloaded. */
  predicate Live(f: Option<Fleet>) { f.Some? && !f.value.returnProcessed }
  function ShipsIn(t: ShipType): Option<Fleet> -> int {
    (f: Option<Fleet>) => if Live(f) then Level(f.value.ships, t) else 0
  }

  function PoolsOf(k: Kind): Option<Planet> -> real {
    (p: Option<Planet>) => if p.Some? then Of(p.value.pools, k) else 0.0
  }
  function CargoOf(k: Kind): Option<Fleet> -> real {
    (f: Option<Fleet>) => if Live(f) then Of(Units(f.value.cargo), k) else 0.0
  }

  /** Ships of one type, on planets and in flight. */
  function ShipTotal(s: State, t: ShipType): int { Sum(s.planets, ShipsOn(t)) + Sum(s.fleets, ShipsIn(t)) }

  /** One resource, in pools and in holds. */
  function Wealth(s: State, k: Kind): real { SumReal(s.planets, PoolsOf(k)) + SumReal(s.fleets, CargoOf(k)) }

  lemma PlanetRow(s: State, pid: int, p: Planet)
    requires s.HasPlanet(pid)
    ensures forall t ::
            ShipTotal(s.WithPlanet(pid, p), t) == ShipTotal(s, t) - Level(s.PlanetAt(pid).ships, t) + Level(p.ships, t)
    ensures forall k :: Wealth(s.WithPlanet(pid, p), k) == Wealth(s, k) - Of(s.PlanetAt(pid).pools, k) + Of(p.pools, k)
  {
    forall t
      ensures ShipTotal(s.WithPlanet(pid, p), t)
              == ShipTotal(s, t) - Level(s.PlanetAt(pid).ships, t) + Level(p.ships, t)
    {
      SumUpdate(s.planets, pid, Some(p), ShipsOn(t));
    }
    forall k ensures Wealth(s.WithPlanet(pid, p), k) == Wealth(s, k) - Of(s.PlanetAt(pid).pools, k) + Of(p.pools, k) {
      SumRealUpdate(s.planets, pid, Some(p), PoolsOf(k));
    }
  }

  lemma FleetRow(s: State, fid: int, f: Option<Fleet>)
    requires s.HasFleet(fid)
    ensures forall t :: ShipTotal(s.WithFleet(fid, f), t) == ShipTotal(s, t) - ShipsIn(t)(s.fleets[fid]) + ShipsIn(t)(f)
    ensures forall k :: Wealth(s.WithFleet(fid, f), k) == Wealth(s, k) - CargoOf(k)(s.fleets[fid]) + CargoOf(k)(f)
  {
    forall t ensures ShipTotal(s.WithFleet(fid, f), t) == ShipTotal(s, t) - ShipsIn(t)(s.fleets[fid]) + ShipsIn(t)(f) {
      SumUpdate(s.fleets, fid, f, ShipsIn(t));
    }
    forall k ensures Wealth(s.WithFleet(fid, f), k) == Wealth(s, k) - CargoOf(k)(s.fleets[fid]) + CargoOf(k)(f) {
      SumRealUpdate(s.fleets, fid, f, CargoOf(k));
    }
  }

  lemma NewFleet(s: State, f: Fleet)
    ensures var s' := s.(fleets := s.fleets + [Some(f)]);
            && (forall t :: ShipTotal(s', t) == ShipTotal(s, t) + ShipsIn(t)(Some(f)))
            && (forall k :: Wealth(s', k) == Wealth(s, k) + CargoOf(k)(Some(f)))
  {
    forall t ensures ShipTotal(s.(fleets := s.fleets + [Some(f)]), t) == ShipTotal(s, t) + ShipsIn(t)(Some(f)) {
      SumAppend(s.fleets, Some(f), ShipsIn(t));
    }
    forall k ensures Wealth(s.(fleets := s.fleets + [Some(f)]), k) == Wealth(s, k) + CargoOf(k)(Some(f)) {
      SumRealAppend(s.fleets, Some(f), CargoOf(k));
    }
  }

  lemma NewPlanet(s: State, p: Planet)
    ensures var s' := s.(planets := s.planets + [Some(p)]);
            && (forall t :: ShipTotal(s', t) == ShipTotal(s, t) + Level(p.ships, t))
            && (forall k :: Wealth(s', k) == Wealth(s, k) + Of(p.pools, k))
  {
    forall t ensures ShipTotal(s.(planets := s.planets + [Some(p)]), t) == ShipTotal(s, t) + Level(p.ships, t) {
      SumAppend(s.planets, Some(p), ShipsOn(t));
    }
    forall k ensures Wealth(s.(planets := s.planets + [Some(p)]), k) == Wealth(s, k) + Of(p.pools, k) {
      SumRealAppend(s.planets, Some(p), PoolsOf(k));
    }
  }

  // ---- the books of one step ----------------------------------------------------------------------

  /** The battle an arriving fleet fights, if it does. */
  predicate Fights(s: State, f: Fleet) { f.mission == Attack && f.ships != map[] && !TargetGone(s, f) }

  ghost function BattleAt(env: Env, s: State, f: Fleet, c: Clock): C.CombatResult
    requires Fights(s, f)
  {
    var p := RefreshedAt(env, s, f.targetPlanet.value, c.read);
    Battle(f.ships, s.TechsOf(f.owner), p, s.TechsOf(p.owner))
  }

  ghost predicate Succeeds(env: Env, s: State, a: Step) {
    match a
    case Send(r, c) => DispatchError(env, s, r, c).None?
    case OrderBuilding(user, pid, b, c) => QueueBuilding(env, s, user, pid, b, c).1.Ok?
    case OrderUnits(user, pid, key, count, c) => QueueUnits(env, s, user, pid, key, count, c).1.Ok?
    case OrderResearch(user, pid, t, c) => QueueResearch(env, s, user, pid, t, c).1.Ok?
    case CancelOrder(user, qid, c) => CancelError(s, user, qid).None?
    case _ => true
  }

  /** The planet whose pools the step brings up to date. */
  ghost function Touched(env: Env, s: State, a: Step): Option<int>
    requires a.Arrival? || a.Homecoming? ==> s.HasFleet(a.fid)
  {
    if !Succeeds(env, s, a) then None
    else
      match a
      case LookAt(pid, _) => if s.HasPlanet(pid) then Some(pid) else None
      case Send(r, _) => Some(r.origin)
      case Arrival(fid, _, _) =>
        var f := s.FleetAt(fid);
        (match f.mission
         case Attack => if Fights(s, f) then f.targetPlanet else None
         case Transport => if TargetGone(s, f) then None else f.targetPlanet
         case Deploy => if TargetGone(s, f) then None else f.targetPlanet
         case Spy => if TargetGone(s, f) then None else f.targetPlanet
         case Colonize => None
         case Recycle => None)
      case Homecoming(fid, _) => if s.HasPlanet(s.FleetAt(fid).origin) then Some(s.FleetAt(fid).origin) else None
      case OrderBuilding(_, pid, _, _) => Some(pid)
      case OrderUnits(_, pid, _, _, _) => Some(pid)
      case OrderResearch(_, pid, _, _) => Some(pid)
      case CancelOrder(_, qid, _) => Some(s.queue[qid].planet)
      case _ => None
  }

  ghost function Produced(env: Env, s: State, a: Step, k: Kind): real
    requires Enabled(s, a)
  {
    var pid := Touched(env, s, a);
    if pid.None? || !s.HasPlanet(pid.value) then 0.0
    else ProducedBy(env, s.PlanetAt(pid.value), s.TechsOf(s.PlanetAt(pid.value).owner), a.c.read, k)
  }

  ghost function Clipped(env: Env, s: State, a: Step, k: Kind): real
    requires Enabled(s, a)
  {
    var pid := Touched(env, s, a);
    if pid.None? || !s.HasPlanet(pid.value) then 0.0
    else ClippedBy(env, s.PlanetAt(pid.value), s.TechsOf(s.PlanetAt(pid.value).owner), a.c.read, k)
  }

  /** The cost written on the new queue row. */
  ghost function Spent(env: Env, s: State, a: Step, k: Kind): real
    requires Enabled(s, a)
  {
    var queue := Effect(env, s, a).queue;
    if (a.OrderBuilding? || a.OrderUnits? || a.OrderResearch?) && Succeeds(env, s, a) && queue != []
    then Of(Units(queue[|queue|-1].cost), k) else 0.0
  }

  ghost function Refunded(env: Env, s: State, a: Step, k: Kind): real {
    if a.CancelOrder? && Succeeds(env, s, a) then Of(Units(s.queue[a.qid].cost), k) else 0.0
  }

  /** The fuel written on the new fleet row. */
  ghost function Burnt(env: Env, s: State, a: Step, k: Kind): real
    requires Enabled(s, a)
  {
    if a.Send? && Succeeds(env, s, a) && k == Deuterium
    then FuelFor(RefreshedAt(env, s, a.r.origin, a.c.read), a.r) as real else 0.0
  }

  /** Fleets that go down with everything: shot down, caught spying, or without a home. */
  ghost predicate Wrecked(env: Env, s: State, a: Step)
    requires Enabled(s, a)
  {
    match a
    case Arrival(fid, d, c) =>
      var f := s.FleetAt(fid);
      || (Fights(s, f) && HeadCount(Remains(f, BattleAt(env, s, f, c))) == 0)
      || (f.mission == Spy && !TargetGone(s, f) && Caught(s, f, d))
    case Homecoming(fid, _) => !s.HasPlanet(s.FleetAt(fid).origin)
    case _ => false
  }

  ghost function CargoLost(env: Env, s: State, a: Step, k: Kind): real
    requires Enabled(s, a)
  {
    if Wrecked(env, s, a) then Of(Units(s.FleetAt(a.fid).cargo), k) else 0.0
  }

  ghost function ShipsBuilt(s: State, a: Step, t: ShipType): int
    requires Enabled(s, a)
  {
    if a.Finish? && s.queue[a.qid].key == Hulls(t) && s.HasPlanet(s.queue[a.qid].planet) then Batch(s.queue[a.qid])
    else 0
  }

  /** Ships that leave the game: shot down on either side, caught spying, spent on a
      colony, or in a fleet whose home is gone. */
  ghost function ShipsLost(env: Env, s: State, a: Step, t: ShipType): int
    requires Enabled(s, a)
  {
    match a
    case Arrival(fid, d, c) =>
      var f := s.FleetAt(fid);
      if Fights(s, f) then
        var r := BattleAt(env, s, f, c);
        Level(r.attackerDestroyed, C.Hull(t)) + Level(r.defenderShipsDestroyed, C.Hull(t))
      else if f.mission == Colonize && Founds(s, f) then (if t == ColonyShip then 1 else 0)
      else if f.mission == Spy && !TargetGone(s, f) && Caught(s, f, d) then Level(f.ships, t)
      else 0
    case Homecoming(fid, _) => if s.HasPlanet(s.FleetAt(fid).origin) then 0 else Level(s.FleetAt(fid).ships, t)
    case _ => 0
  }

  ghost predicate ShipsBalance(env: Env, s: State, a: Step)
    requires Enabled(s, a)
  {
    forall t :: ShipTotal(Effect(env, s, a), t) == ShipTotal(s, t) + ShipsBuilt(s, a, t) - ShipsLost(env, s, a, t)
  }

  ghost predicate WealthBalances(env: Env, s: State, a: Step)
    requires Enabled(s, a)
  {
    forall k :: Wealth(Effect(env, s, a), k)
      == Wealth(s, k) + Produced(env, s, a, k) - Clipped(env, s, a, k) - Spent(env, s, a, k) + Refunded(env, s, a, k)
         - Burnt(env, s, a, k) - CargoLost(env, s, a, k)
  }

  ghost predicate Balances(env: Env, s: State, a: Step)
    requires Enabled(s, a)
  {
    Sound(Effect(env, s, a)) && ShipsBalance(env, s, a) && WealthBalances(env, s, a)
  }

  lemma LookBalances(env: Env, s: State, a: Step)
    requires Sound(s) && Enabled(s, a) && a.LookAt?
    ensures Balances(env, s, a)
  {
    if s.HasPlanet(a.pid) {
      var p := s.PlanetAt(a.pid);
      RefreshBalances(env, p, s.TechsOf(p.owner), a.c.read);
      PlanetRow(s, a.pid, RefreshedAt(env, s, a.pid, a.c.read));
    }
  }

  lemma DispatchRows(env: Env, s: State, p: Planet, r: Request, now: real)
    requires PlanetSound(p) && RequestError(r).None? && OriginError(env, p, r).None?
    ensures var left, f := LeftBehind(p, r, now), Launched(env, s, r, p, now);
            && ClampIdle(p.ships, Negated(Positive(r.ships))) && PlanetSound(left) && FleetSound(f)
            && !f.returnProcessed
            && (forall t :: Level(left.ships, t) + Level(f.ships, t) == Level(p.ships, t))
            && (forall k :: Of(left.pools, k) + Of(Units(f.cargo), k)
                            == Of(p.pools, k) - if k == Deuterium then FuelFor(p, r) as real else 0.0)
  {
    hide FlightTime, FindByCoord, CargoCapacity, Fuel, Distance;
    var wanted := Positive(r.ships);
    assert ClampIdle(p.ships, Negated(wanted));
    AddAllAdds(p.ships, Negated(wanted));
  }

  lemma PlanetPays(s: State, pid: int, p: Planet, f: Fleet)
    requires Sound(s) && s.HasPlanet(pid) && PlanetSound(p) && FleetSound(f) && !f.returnProcessed
    ensures var t := s.WithPlanet(pid, p).(fleets := s.fleets + [Some(f)]);
            && Sound(t)
            && (forall x :: ShipTotal(t, x)
                  == ShipTotal(s, x) - Level(s.PlanetAt(pid).ships, x) + Level(p.ships, x) + Level(f.ships, x))
            && (forall k :: Wealth(t, k)
                  == Wealth(s, k) - Of(s.PlanetAt(pid).pools, k) + Of(p.pools, k) + Of(Units(f.cargo), k))
  {
    PlanetRow(s, pid, p);
    NewFleet(s.WithPlanet(pid, p), f);
  }

  lemma SendBalances(env: Env, s: State, a: Step)
    requires Sound(s) && Enabled(s, a) && a.Send?
    ensures Balances(env, s, a)
  {
    hide Refreshed, FuelFor, OriginError, AddAll, LeftBehind, Launched, ProducedBy, ClippedBy, Wealth, ShipTotal,
         PlanetSound, FleetSound, Units;
    if Succeeds(env, s, a) {
      var r, c := a.r, a.c;
      var p0 := s.PlanetAt(r.origin);
      RefreshBalances(env, p0, s.TechsOf(p0.owner), c.read);
      var p := RefreshedAt(env, s, r.origin, c.read);
      DispatchRows(env, s, p, r, c.write);
      PlanetPays(s, r.origin, LeftBehind(p, r, c.write), Launched(env, s, r, p, c.write));
    }
  }

  // ---- arrivals and homecomings ------------------------------------------------------------------

  lemma TwoRows(s: State, pid: int, p: Planet, fid: int, f: Option<Fleet>)
    requires Sound(s) && s.HasPlanet(pid) && s.HasFleet(fid) && PlanetSound(p) && (f.Some? ==> FleetSound(f.value))
    ensures var t := s.WithPlanet(pid, p).WithFleet(fid, f);
            && Sound(t)
            && (forall x :: ShipTotal(t, x) == ShipTotal(s, x) - Level(s.PlanetAt(pid).ships, x) + Level(p.ships, x)
                                               - ShipsIn(x)(s.fleets[fid]) + ShipsIn(x)(f))
            && (forall k :: Wealth(t, k) == Wealth(s, k) - Of(s.PlanetAt(pid).pools, k) + Of(p.pools, k)
                                            - CargoOf(k)(s.fleets[fid]) + CargoOf(k)(f))
  {
    PlanetRow(s, pid, p);
    FleetRow(s.WithPlanet(pid, p), fid, f);
  }

  lemma OneFleet(s: State, fid: int, f: Option<Fleet>)
    requires Sound(s) && s.HasFleet(fid) && (f.Some? ==> FleetSound(f.value))
    ensures Sound(s.WithFleet(fid, f))
    ensures forall x :: ShipTotal(s.WithFleet(fid, f), x) == ShipTotal(s, x) - ShipsIn(x)(s.fleets[fid]) + ShipsIn(x)(f)
    ensures forall k :: Wealth(s.WithFleet(fid, f), k) == Wealth(s, k) - CargoOf(k)(s.fleets[fid]) + CargoOf(k)(f)
  {
    FleetRow(s, fid, f);
  }

  /** Turning a fleet around moves nothing. */
  lemma BounceBalances(s: State, fid: int, now: real)
    requires Sound(s) && s.HasFleet(fid)
    ensures var t := Bounce(s, fid, now);
            Sound(t) && (forall x :: ShipTotal(t, x) == ShipTotal(s, x)) && (forall k :: Wealth(t, k) == Wealth(s, k))
  {
    OneFleet(s, fid, Some(TurnedBack(s.FleetAt(fid), now)));
  }

  lemma OnItsWay(s: State, fid: int, now: real)
    requires Sound(s) && s.HasFleet(fid) && DueArrival(s.FleetAt(fid), now)
    ensures FleetSound(s.FleetAt(fid)) && !s.FleetAt(fid).returnProcessed
  {
  }

  lemma AttackBalances(env: Env, s: State, a: Step)
    requires Sound(s) && Enabled(s, a) && a.Arrival? && s.FleetAt(a.fid).mission == Attack
    ensures Balances(env, s, a)
  {
    hide Refreshed, Battle, Spoils, Plundered, Victorious, HeadCount, Remains, ProducedBy, ClippedBy, Wealth,
         ShipTotal, PlanetSound, FleetSound, Units, LootFits, LossesFit;
    var f, c := s.FleetAt(a.fid), a.c;
    if Fights(s, f) {
      var pid := f.targetPlanet.value;
      var p0 := s.PlanetAt(pid);
      RefreshBalances(env, p0, s.TechsOf(p0.owner), c.read);
      var p := RefreshedAt(env, s, pid, c.read);
      var r := BattleAt(env, s, f, c);
      var loot := Spoils(f, p, r);
      OnItsWay(s, a.fid, c.read);
      BattleResult(f, p, s.TechsOf(f.owner), s.TechsOf(p.owner), c.write);
      TwoRows(s, pid, Plundered(f, p, r, loot, c.write), a.fid, Victorious(f, r, loot, c.write));
    } else {
      BounceBalances(s, a.fid, c.write);
    }
  }

  lemma CreditAdds(p: Planet, cargo: Cost, now: real)
    requires PlanetSound(p) && cargo.NonNegative()
    ensures var q := Credit(p, cargo, now);
            PlanetSound(q) && q.ships == p.ships && forall k :: Of(q.pools, k) == Of(p.pools, k) + Of(Units(cargo), k)
  {
  }

  /** The wealth of the state once one planet has been brought up to date. */
  ghost function Accrued(env: Env, s: State, pid: int, now: real, k: Kind): real
    requires s.HasPlanet(pid)
  {
    var p := s.PlanetAt(pid);
    Wealth(s, k) + ProducedBy(env, p, s.TechsOf(p.owner), now, k) - ClippedBy(env, p, s.TechsOf(p.owner), now, k)
  }

  lemma TransportRows(env: Env, s: State, fid: int, c: Clock)
    requires Sound(s) && s.HasFleet(fid) && DueArrival(s.FleetAt(fid), c.read) && !TargetGone(s, s.FleetAt(fid))
    ensures var t := ResolveTransport(env, s, fid, c);
            && Sound(t) && (forall x :: ShipTotal(t, x) == ShipTotal(s, x))
            && (forall k :: Wealth(t, k) == Accrued(env, s, s.FleetAt(fid).targetPlanet.value, c.read, k))
  {
    hide Refreshed, Credit, ProducedBy, ClippedBy, Wealth, ShipTotal, PlanetSound;
    var f := s.FleetAt(fid);
    var pid := f.targetPlanet.value;
    var p0 := s.PlanetAt(pid);
    RefreshBalances(env, p0, s.TechsOf(p0.owner), c.read);
    var p := RefreshedAt(env, s, pid, c.read);
    CreditAdds(p, f.cargo, c.write);
    var emptied := if f.cargo.metal > 0 || f.cargo.crystal > 0 || f.cargo.deuterium > 0 then f.(cargo := Cost(0, 0, 0))
      else f;
    assert emptied.cargo == Cost(0, 0, 0);
    TwoRows(s, pid, Credit(p, f.cargo, c.write), fid, Some(TurnedBack(emptied, c.write)));
  }

  lemma TransportBalances(env: Env, s: State, a: Step)
    requires Sound(s) && Enabled(s, a) && a.Arrival? && s.FleetAt(a.fid).mission == Transport
    ensures Balances(env, s, a)
  {
    hide ResolveTransport, Bounce, ProducedBy, ClippedBy, Wealth, ShipTotal, Sound;
    if TargetGone(s, s.FleetAt(a.fid)) {
      BounceBalances(s, a.fid, a.c.write);
      BounceIsTransport(env, s, a.fid, a.c);
    } else {
      TransportRows(env, s, a.fid, a.c);
    }
  }

  lemma BounceIsTransport(env: Env, s: State, fid: int, c: Clock)
    requires s.HasFleet(fid) && TargetGone(s, s.FleetAt(fid))
    ensures ResolveTransport(env, s, fid, c) == Bounce(s, fid, c.write)
  {
  }

  lemma DeployRows(env: Env, s: State, fid: int, c: Clock)
    requires Sound(s) && s.HasFleet(fid) && DueArrival(s.FleetAt(fid), c.read) && !TargetGone(s, s.FleetAt(fid))
    ensures var f := s.FleetAt(fid);
            var pid := f.targetPlanet.value;
            var t := s.WithPlanet(pid, Merged(RefreshedAt(env, s, pid, c.read), f, c.write)).WithFleet(fid, None);
            && Sound(t) && (forall x :: ShipTotal(t, x) == ShipTotal(s, x))
            && (forall k :: Wealth(t, k) == Accrued(env, s, pid, c.read, k))
  {
    hide Refreshed, Merged, ProducedBy, ClippedBy, Wealth, ShipTotal, PlanetSound;
    var f := s.FleetAt(fid);
    var pid := f.targetPlanet.value;
    var p0 := s.PlanetAt(pid);
    RefreshBalances(env, p0, s.TechsOf(p0.owner), c.read);
    var p := RefreshedAt(env, s, pid, c.read);
    MergedCounts(p, f, c.write);
    TwoRows(s, pid, Merged(p, f, c.write), fid, None);
  }

  lemma DeployBalances(env: Env, s: State, a: Step)
    requires Sound(s) && Enabled(s, a) && a.Arrival? && s.FleetAt(a.fid).mission == Deploy
    ensures Balances(env, s, a)
  {
    hide ResolveTransport, Bounce, Merged, RefreshedAt, ProducedBy, ClippedBy, Wealth, ShipTotal, Sound;
    var f := s.FleetAt(a.fid);
    if TargetGone(s, f) {
      BounceBalances(s, a.fid, a.c.write);
    } else if s.PlanetAt(f.targetPlanet.value).owner != f.owner {
      TransportRows(env, s, a.fid, a.c);
    } else {
      DeployRows(env, s, a.fid, a.c);
    }
  }

  lemma ColonyCounts(f: Fleet, d: Dice, now: real)
    requires FleetSound(f) && Level(f.ships, ColonyShip) >= 1
    ensures PlanetSound(Colony(f, d, now))
    ensures forall t :: Level(Colony(f, d, now).ships, t) == Level(f.ships, t) - if t == ColonyShip then 1 else 0
  {
    var rest := Positive(LessOneColonyShip(f.ships));
    AddAllAdds(map[], rest);
  }

  lemma ColonizeBalances(env: Env, s: State, a: Step)
    requires Sound(s) && Enabled(s, a) && a.Arrival? && s.FleetAt(a.fid).mission == Colonize
    ensures Balances(env, s, a)
  {
    hide Bounce, Colony, ProducedBy, ClippedBy, Wealth, ShipTotal, PlanetSound, Founds;
    var f := s.FleetAt(a.fid);
    if Founds(s, f) {
      ColonyRows(s, a.fid, a.d, a.c.write);
    } else {
      BounceBalances(s, a.fid, a.c.write);
    }
  }

  lemma ColonyRows(s: State, fid: int, d: Dice, now: real)
    requires Sound(s) && s.HasFleet(fid) && FleetSound(s.FleetAt(fid)) && !s.FleetAt(fid).returnProcessed
    requires Level(s.FleetAt(fid).ships, ColonyShip) >= 1
    ensures var t := s.WithFleet(fid, None).(planets := s.planets + [Some(Colony(s.FleetAt(fid), d, now))]);
            && Sound(t) && (forall x :: ShipTotal(t, x) == ShipTotal(s, x) - if x == ColonyShip then 1 else 0)
            && (forall k :: Wealth(t, k) == Wealth(s, k))
  {
    hide Colony, Wealth, ShipTotal, PlanetSound;
    var f := s.FleetAt(fid);
    ColonyCounts(f, d, now);
    ColonyPools(f, d, now);
    OneFleet(s, fid, None);
    NewPlanet(s.WithFleet(fid, None), Colony(f, d, now));
  }

  lemma ColonyPools(f: Fleet, d: Dice, now: real)
    ensures Colony(f, d, now).pools == Units(f.cargo)
  {
  }

  lemma SpyRows(env: Env, s: State, fid: int, d: Dice, c: Clock)
    requires Sound(s) && s.HasFleet(fid) && DueArrival(s.FleetAt(fid), c.read) && !TargetGone(s, s.FleetAt(fid))
    ensures var f := s.FleetAt(fid);
            var t := ResolveSpy(env, s, fid, d, c);
            && Sound(t) && (forall x ::
                            ShipTotal(t, x) == ShipTotal(s, x) - if Caught(s, f, d) then Level(f.ships, x) else 0)
            && (forall k :: Wealth(t, k) == Accrued(env, s, f.targetPlanet.value, c.read, k)
                                            - if Caught(s, f, d) then Of(Units(f.cargo), k) else 0.0)
  {
    hide Refreshed, ProducedBy, ClippedBy, Wealth, ShipTotal, PlanetSound;
    var f := s.FleetAt(fid);
    var pid := f.targetPlanet.value;
    var p0 := s.PlanetAt(pid);
    RefreshBalances(env, p0, s.TechsOf(p0.owner), c.read);
    TwoRows(s, pid, RefreshedAt(env, s, pid, c.read), fid,
            if Caught(s, f, d) then None else Some(TurnedBack(f, c.write)));
  }

  lemma SpyBalances(env: Env, s: State, a: Step)
    requires Sound(s) && Enabled(s, a) && a.Arrival? && s.FleetAt(a.fid).mission == Spy
    ensures Balances(env, s, a)
  {
    hide Bounce, ResolveSpy, ProducedBy, ClippedBy, Wealth, ShipTotal, Sound;
    if TargetGone(s, s.FleetAt(a.fid)) {
      BounceBalances(s, a.fid, a.c.write);
      BounceIsSpy(env, s, a.fid, a.d, a.c);
    } else {
      SpyRows(env, s, a.fid, a.d, a.c);
    }
  }

  lemma BounceIsSpy(env: Env, s: State, fid: int, d: Dice, c: Clock)
    requires s.HasFleet(fid) && TargetGone(s, s.FleetAt(fid))
    ensures ResolveSpy(env, s, fid, d, c) == Bounce(s, fid, c.write)
  {
  }

  lemma RecycleBalances(env: Env, s: State, a: Step)
    requires Sound(s) && Enabled(s, a) && a.Arrival? && s.FleetAt(a.fid).mission == Recycle
    ensures Balances(env, s, a)
  {
    hide Bounce, ProducedBy, ClippedBy, Wealth, ShipTotal, Sound;
    BounceBalances(s, a.fid, a.c.write);
  }

  lemma ReturnBalances(env: Env, s: State, a: Step)
    requires Sound(s) && Enabled(s, a) && a.Homecoming?
    ensures Balances(env, s, a)
  {
    hide Refreshed, Merged, ProducedBy, ClippedBy, Wealth, ShipTotal, PlanetSound;
    var f, c := s.FleetAt(a.fid), a.c;
    if s.HasPlanet(f.origin) {
      var p0 := s.PlanetAt(f.origin);
      RefreshBalances(env, p0, s.TechsOf(p0.owner), c.read);
      var p := RefreshedAt(env, s, f.origin, c.read);
      MergedCounts(p, f, c.write);
      TwoRows(s, f.origin, Merged(p, f, c.write), a.fid, Some(f.(returnProcessed := true, status := Returned)));
    } else {
      OneFleet(s, a.fid, None);
    }
  }

  // ---- the build queue ----------------------------------------------------------------------------

  lemma PaidPlanet(p: Planet, cost: Cost, now: real)
    requires PlanetSound(p) && p.pools.Affords(cost)
    ensures PlanetSound(Paid(p, cost, now)) && Paid(p, cost, now).ships == p.ships
    ensures forall k :: Of(Paid(p, cost, now).pools, k) == Of(p.pools, k) - Of(Units(cost), k)
  {
  }

  ghost predicate CostsSound(queue: seq<Item>) { forall i :: 0 <= i < |queue| ==> queue[i].cost.NonNegative() }

  /** A refreshed planet pays for a row that joins the queue. */
  lemma EnqueueRows(env: Env, s: State, pid: int, queue: seq<Item>, item: Item, c: Clock)
    requires Sound(s) && s.HasPlanet(pid) && CostsSound(queue) && item.cost.NonNegative()
    requires RefreshedAt(env, s, pid, c.read).pools.Affords(item.cost)
    ensures var t := Enqueue(s, pid, RefreshedAt(env, s, pid, c.read), queue, item, c.write);
            && Sound(t) && t.queue == queue + [item] && (forall x :: ShipTotal(t, x) == ShipTotal(s, x))
            && (forall k :: Wealth(t, k) == Accrued(env, s, pid, c.read, k) - Of(Units(item.cost), k))
  {
    hide Refreshed, Paid, ProducedBy, ClippedBy, Wealth, ShipTotal, PlanetSound, FleetSound, Units;
    var p0 := s.PlanetAt(pid);
    RefreshBalances(env, p0, s.TechsOf(p0.owner), c.read);
    var p := RefreshedAt(env, s, pid, c.read);
    PaidPlanet(p, item.cost, c.write);
    OnePlanet(s, pid, Paid(p, item.cost, c.write));
    SameRows(s.WithPlanet(pid, Paid(p, item.cost, c.write)), queue + [item]);
  }

  lemma OnePlanet(s: State, pid: int, p: Planet)
    requires Sound(s) && s.HasPlanet(pid) && PlanetSound(p)
    ensures Sound(s.WithPlanet(pid, p))
    ensures forall t ::
            ShipTotal(s.WithPlanet(pid, p), t) == ShipTotal(s, t) - Level(s.PlanetAt(pid).ships, t) + Level(p.ships, t)
    ensures forall k :: Wealth(s.WithPlanet(pid, p), k) == Wealth(s, k) - Of(s.PlanetAt(pid).pools, k) + Of(p.pools, k)
  {
    PlanetRow(s, pid, p);
  }

  lemma SameRows(s: State, queue: seq<Item>)
    requires Sound(s) && CostsSound(queue)
    ensures Sound(s.(queue := queue))
    ensures forall x :: ShipTotal(s.(queue := queue), x) == ShipTotal(s, x)
    ensures forall k :: Wealth(s.(queue := queue), k) == Wealth(s, k)
  {
  }

  lemma UpgradeCostNonNegative(env: Env, b: BuildingType, target: int, p: Planet, techs: Techs)
    ensures UpgradeCost(env, b, target, p, techs).NonNegative()
  {
    CostsNonNegative(b, Energy, target);
  }

  lemma UnitCostNonNegative(key: ItemKey, count: int)
    requires count >= 0
    ensures UnitCost(key).Times(count).NonNegative()
  {
    var c := UnitCost(key);
    C.MulMonotone(0, c.metal, count);
    C.MulMonotone(0, c.crystal, count);
    C.MulMonotone(0, c.deuterium, count);
  }

  lemma BuildingBalances(env: Env, s: State, a: Step)
    requires Sound(s) && Enabled(s, a) && a.OrderBuilding?
    ensures Balances(env, s, a)
  {
    hide Refreshed, UpgradeCost, Repaired, PendingLevel, StartTime, BuildTime, EarlyDivisor, ProducedBy, ClippedBy,
         Wealth, ShipTotal, PlanetSound, FleetSound, Meets, Sum, Units;
    if Succeeds(env, s, a) {
      var pid := a.pid;
      var p := RefreshedAt(env, s, pid, a.c.read);
      var queue := Repaired(s.queue, pid, p.buildings);
      var target := PendingLevel(queue, pid, a.b, Level(p.buildings, a.b)) + 1;
      UpgradeCostNonNegative(env, a.b, target, p, s.TechsOf(p.owner));
      RepairedCosts(s.queue, pid, p.buildings);
      var t := QueueBuilding(env, s, a.user, pid, a.b, a.c).0;
      EnqueueRows(env, s, pid, queue, t.queue[|t.queue|-1], a.c);
    }
  }

  lemma RepairedCosts(queue: seq<Item>, pid: int, buildings: map<BuildingType, int>)
    requires CostsSound(queue)
    ensures CostsSound(Repaired(queue, pid, buildings))
  {
  }

  lemma UnitsBalance(env: Env, s: State, a: Step)
    requires Sound(s) && Enabled(s, a) && a.OrderUnits?
    ensures Balances(env, s, a)
  {
    hide Refreshed, UnitCost, StartTime, BuildTime, ProducedBy, ClippedBy, Wealth, ShipTotal, PlanetSound,
         FleetSound, Meets, Sum, Units;
    if Succeeds(env, s, a) {
      UnitCostNonNegative(a.key, a.count);
      var t := QueueUnits(env, s, a.user, a.pid, a.key, a.count, a.c).0;
      EnqueueRows(env, s, a.pid, s.queue, t.queue[|t.queue|-1], a.c);
    }
  }

  lemma ResearchBalances(env: Env, s: State, a: Step)
    requires Sound(s) && Enabled(s, a) && a.OrderResearch?
    ensures Balances(env, s, a)
  {
    hide Refreshed, ResearchLevelCost, ResearchTime, ProducedBy, ClippedBy, Wealth, ShipTotal, PlanetSound,
         FleetSound, Meets, Sum, LabOf, Units;
    if Succeeds(env, s, a) {
      CostsNonNegative(SolarPlant, a.t, Level(s.TechsOf(a.user), a.t) + 1);
      var t := QueueResearch(env, s, a.user, a.pid, a.t, a.c).0;
      EnqueueRows(env, s, a.pid, s.queue, t.queue[|t.queue|-1], a.c);
    }
  }

  lemma CancelBalances(env: Env, s: State, a: Step)
    requires Sound(s) && Enabled(s, a) && a.CancelOrder?
    ensures Balances(env, s, a)
  {
    hide Refreshed, ProducedBy, ClippedBy, Wealth, ShipTotal, PlanetSound, FleetSound, Units;
    if Succeeds(env, s, a) {
      var item := s.queue[a.qid];
      var p0 := s.PlanetAt(item.planet);
      RefreshBalances(env, p0, s.TechsOf(p0.owner), a.c.read);
      var p := RefreshedAt(env, s, item.planet, a.c.read);
      var q := p.(pools := p.pools.Plus(Units(item.cost)), cursor := a.c.write);
      RefundedPlanet(p, item.cost, a.c.write);
      OnePlanet(s, item.planet, q);
      SameRows(s.WithPlanet(item.planet, q), s.queue[a.qid := item.(cancelled := true)]);
    }
  }

  lemma RefundedPlanet(p: Planet, cost: Cost, now: real)
    requires PlanetSound(p) && cost.NonNegative()
    ensures var q := p.(pools := p.pools.Plus(Units(cost)), cursor := now);
            PlanetSound(q) && forall k :: Of(q.pools, k) == Of(p.pools, k) + Of(Units(cost), k)
  {
  }

  /** The planet that a finished item leaves behind. */
  function Finished(p: Planet, i: Item): Planet {
    match i.key
    case Build(b) => p.(buildings := p.buildings[b := Level(p.buildings, b) + 1], fieldsUsed := p.fieldsUsed + 1)
    case Hulls(t) => p.(ships := AddCount(p.ships, t, Batch(i)))
    case Turrets(t) => p.(defenses := AddCount(p.defenses, t, Batch(i)))
    case Study(_) => p
  }

  lemma FinishedPlanet(p: Planet, i: Item)
    requires PlanetSound(p)
    ensures PlanetSound(Finished(p, i)) && Finished(p, i).pools == p.pools
    ensures forall t :: Level(Finished(p, i).ships, t) == Level(p.ships, t) + if i.key == Hulls(t) then Batch(i) else 0
    ensures forall t ::
            Level(Finished(p, i).defenses, t) == Level(p.defenses, t) + if i.key == Turrets(t) then Batch(i) else 0
  {
  }

  lemma ApplyShape(s: State, qid: int)
    requires 0 <= qid < |s.queue|
    ensures var i, queue := s.queue[qid], s.queue[qid := s.queue[qid].(applied := true)];
            ApplyItem(s, qid) ==
              if i.key.Study? then s.(queue := queue, techs := ApplyItem(s, qid).techs)
              else if s.HasPlanet(i.planet)
                then s.WithPlanet(i.planet, Finished(s.PlanetAt(i.planet), i)).(queue := queue)
              else s
  {
    hide AddCount;
  }

  lemma FinishBalances(env: Env, s: State, a: Step)
    requires Sound(s) && Enabled(s, a) && a.Finish?
    ensures Balances(env, s, a)
  {
    hide Wealth, ShipTotal, FleetSound, PlanetSound, NextOnPlanet, ApplyItem, Finished;
    var i := s.queue[a.qid];
    var queue := s.queue[a.qid := i.(applied := true)];
    ApplyShape(s, a.qid);
    if i.key.Study? {
      SameRows(s, queue);
      SameTables(s.(queue := queue), ApplyItem(s, a.qid));
    } else if s.HasPlanet(i.planet) {
      var p := s.PlanetAt(i.planet);
      FinishedPlanet(p, i);
      OnePlanet(s, i.planet, Finished(p, i));
      SameRows(s.WithPlanet(i.planet, Finished(p, i)), queue);
    }
  }

  lemma SameTables(s: State, t: State)
    requires s.planets == t.planets && s.fleets == t.fleets && s.queue == t.queue
    ensures Sound(s) <==> Sound(t)
    ensures forall x :: ShipTotal(t, x) == ShipTotal(s, x)
    ensures forall k :: Wealth(t, k) == Wealth(s, k)
  {
  }

  lemma RecallBalances(env: Env, s: State, a: Step)
    requires Sound(s) && Enabled(s, a) && (a.BeginRecall? || a.EndRecall?)
    ensures Balances(env, s, a)
  {
    hide Wealth, ShipTotal, PlanetSound;
    if a.BeginRecall? {
      SameTables(s, RecallRead(s, a.call, a.user, a.fid, a.c.read).0);
    } else if a.call in s.recalls {
      var r := s.recalls[a.call];
      var t := s.(recalls := s.recalls - {a.call});
      SameTables(s, t);
      if s.HasFleet(r.fleet) {
        OneFleet(t, r.fleet, Some(s.FleetAt(r.fleet).(status := Returning, returnAt := Some(r.returnAt))));
      }
    }
  }

  lemma OpenBalances(env: Env, s: State, a: Step)
    requires Sound(s) && Enabled(s, a) && a.OpenQueue?
    ensures Balances(env, s, a)
  {
    hide Wealth, ShipTotal, FleetSound, PlanetSound, Repaired;
    if s.HasPlanet(a.pid) {
      var queue := Repaired(s.queue, a.pid, s.PlanetAt(a.pid).buildings);
      RepairedCosts(s.queue, a.pid, s.PlanetAt(a.pid).buildings);
      SameRows(s, queue);
    }
  }

  // ---- every step, every run ------------------------------------------------------------------------

  /** Whatever happens, the books balance: ships and resources only move, except for the
      named flows, and no pool and no count goes below zero. */
  lemma StepBalances(env: Env, s: State, a: Step)
    requires Sound(s) && Enabled(s, a)
    ensures Balances(env, s, a)
  {
    hide Balances, Sound;
    match a
    case LookAt(_, _) => LookBalances(env, s, a);
    case Send(_, _) => SendBalances(env, s, a);
    case BeginRecall(_, _, _, _) => RecallBalances(env, s, a);
    case EndRecall(_, _) => RecallBalances(env, s, a);
    case Homecoming(_, _) => ReturnBalances(env, s, a);
    case OrderBuilding(_, _, _, _) => BuildingBalances(env, s, a);
    case OrderUnits(_, _, _, _, _) => UnitsBalance(env, s, a);
    case OrderResearch(_, _, _, _) => ResearchBalances(env, s, a);
    case CancelOrder(_, _, _) => CancelBalances(env, s, a);
    case OpenQueue(_, _, _) => OpenBalances(env, s, a);
    case Finish(_, _) => FinishBalances(env, s, a);
    case Arrival(fid, _, _) =>
      match s.FleetAt(fid).mission
      case Attack => AttackBalances(env, s, a);
      case Transport => TransportBalances(env, s, a);
      case Deploy => DeployBalances(env, s, a);
      case Colonize => ColonizeBalances(env, s, a);
      case Spy => SpyBalances(env, s, a);
      case Recycle => RecycleBalances(env, s, a);
  }

  lemma NextBalances(env: Env, s: State, a: Step)
    requires Sound(s) && Enabled(s, a)
    ensures Sound(Next(env, s, a))
    ensures forall t :: ShipTotal(Next(env, s, a), t) == ShipTotal(s, t) + ShipsBuilt(s, a, t) - ShipsLost(env, s, a, t)
    ensures forall k :: Wealth(Next(env, s, a), k) == Wealth(s, k) + Credits(env, s, a, k) - Debits(env, s, a, k)
  {
    hide Effect, NextOnPlanet, Wealth, ShipTotal, Sound, ShipsBuilt, ShipsLost, Produced, Clipped, Spent, Refunded,
         Burnt, CargoLost;
    StepBalances(env, s, a);
    SameTables(Effect(env, s, a), Next(env, s, a));
  }

  ghost function Credits(env: Env, s: State, a: Step, k: Kind): real
    requires Enabled(s, a)
  {
    Produced(env, s, a, k) + Refunded(env, s, a, k)
  }

  ghost function Debits(env: Env, s: State, a: Step, k: Kind): real
    requires Enabled(s, a)
  {
    Clipped(env, s, a, k) + Spent(env, s, a, k) + Burnt(env, s, a, k) + CargoLost(env, s, a, k)
  }

  ghost function AllBuilt(env: Env, s: State, run: seq<Step>, t: ShipType): int
    requires Legal(env, s, run)
    decreases |run|
  {
    if run == [] then 0 else ShipsBuilt(s, run[0], t) + AllBuilt(env, Next(env, s, run[0]), run[1..], t)
  }

  ghost function AllLost(env: Env, s: State, run: seq<Step>, t: ShipType): int
    requires Legal(env, s, run)
    decreases |run|
  {
    if run == [] then 0 else ShipsLost(env, s, run[0], t) + AllLost(env, Next(env, s, run[0]), run[1..], t)
  }

  ghost function AllCredits(env: Env, s: State, run: seq<Step>, k: Kind): real
    requires Legal(env, s, run)
    decreases |run|
  {
    if run == [] then 0.0 else Credits(env, s, run[0], k) + AllCredits(env, Next(env, s, run[0]), run[1..], k)
  }

  ghost function AllDebits(env: Env, s: State, run: seq<Step>, k: Kind): real
    requires Legal(env, s, run)
    decreases |run|
  {
    if run == [] then 0.0 else Debits(env, s, run[0], k) + AllDebits(env, Next(env, s, run[0]), run[1..], k)
  }

  /** Over every run, ships are only ever built or lost, never duplicated or mislaid. */
  lemma {:induction false} ShipsAreConserved(env: Env, s: State, run: seq<Step>, t: ShipType)
    requires Sound(s) && Legal(env, s, run)
    ensures Sound(Final(env, s, run))
    ensures ShipTotal(Final(env, s, run), t) == ShipTotal(s, t) + AllBuilt(env, s, run, t) - AllLost(env, s, run, t)
    decreases |run|
  {
    hide Next, Enabled, Wealth, ShipTotal, Sound, ShipsBuilt, ShipsLost;
    if run != [] {
      NextBalances(env, s, run[0]);
      ShipsAreConserved(env, Next(env, s, run[0]), run[1..], t);
    }
  }

  /** Over every run, pools and holds change only by production and refunds on one side, and
      clipping, costs, fuel and the cargo of destroyed fleets on the other. */
  lemma {:induction false} WealthIsConserved(env: Env, s: State, run: seq<Step>, k: Kind)
    requires Sound(s) && Legal(env, s, run)
    ensures Wealth(Final(env, s, run), k) == Wealth(s, k) + AllCredits(env, s, run, k) - AllDebits(env, s, run, k)
    decreases |run|
  {
    hide Next, Enabled, Wealth, ShipTotal, Sound, Credits, Debits;
    if run != [] {
      NextBalances(env, s, run[0]);
      WealthIsConserved(env, Next(env, s, run[0]), run[1..], k);
    }
  }

  /** Each of the named flows has its sign. */
  lemma FlowsNonNegative(env: Env, s: State, a: Step, t: ShipType, k: Kind)
    requires Sound(s) && Enabled(s, a)
    ensures ShipsBuilt(s, a, t) >= 0 && ShipsLost(env, s, a, t) >= 0
    ensures Produced(env, s, a, k) >= 0.0 && Clipped(env, s, a, k) >= 0.0 && Spent(env, s, a, k) >= 0.0
    ensures Refunded(env, s, a, k) >= 0.0 && Burnt(env, s, a, k) >= 0.0 && CargoLost(env, s, a, k) >= 0.0
  {
    ShipFlowsNonNegative(env, s, a, t);
    AccrualNonNegative(env, s, a, k);
    SpendingNonNegative(env, s, a, k);
  }

  lemma ShipFlowsNonNegative(env: Env, s: State, a: Step, t: ShipType)
    requires Sound(s) && Enabled(s, a)
    ensures ShipsBuilt(s, a, t) >= 0 && ShipsLost(env, s, a, t) >= 0
  {
    hide Battle, Refreshed, NextOnPlanet, Founds;
    if a.Arrival? && Fights(s, s.FleetAt(a.fid)) {
      var f := s.FleetAt(a.fid);
      var p := RefreshedAt(env, s, f.targetPlanet.value, a.c.read);
      BattleLosses(f.ships, s.TechsOf(f.owner), p, s.TechsOf(p.owner));
    }
  }

  lemma AccrualNonNegative(env: Env, s: State, a: Step, k: Kind)
    requires Sound(s) && Enabled(s, a)
    ensures Produced(env, s, a, k) >= 0.0 && Clipped(env, s, a, k) >= 0.0
  {
    hide Touched, ProducedBy, ClippedBy, Refreshed, FleetSound;
    var pid := Touched(env, s, a);
    if pid.Some? && s.HasPlanet(pid.value) {
      var p := s.PlanetAt(pid.value);
      RefreshBalances(env, p, s.TechsOf(p.owner), a.c.read);
    }
  }

  lemma SpendingNonNegative(env: Env, s: State, a: Step, k: Kind)
    requires Sound(s) && Enabled(s, a)
    ensures Spent(env, s, a, k) >= 0.0 && Refunded(env, s, a, k) >= 0.0
    ensures Burnt(env, s, a, k) >= 0.0 && CargoLost(env, s, a, k) >= 0.0
  {
    hide Effect, NextOnPlanet, DispatchError, QueueBuilding, QueueUnits, QueueResearch, RefreshedAt, PlanetSound,
         Fights, HeadCount;
    StepBalances(env, s, a);
  }

  /** Where counts are lowered they are lowered by no more than is there, so the upsert's
      clamp at zero never hides a loss. */
  lemma ClampNeverBites(env: Env, s: State, a: Step)
    requires Sound(s) && Enabled(s, a)
    ensures a.Send? && Succeeds(env, s, a) ==>
              ClampIdle(RefreshedAt(env, s, a.r.origin, a.c.read).ships, Negated(Positive(a.r.ships)))
    ensures a.Arrival? && Fights(s, s.FleetAt(a.fid)) ==>
              var f := s.FleetAt(a.fid);
              var p, r := RefreshedAt(env, s, f.targetPlanet.value, a.c.read), BattleAt(env, s, f, a.c);
              ClampIdle(p.ships, ShipLosses(r.defenderShipsDestroyed))
                && ClampIdle(p.defenses, DefenseLosses(r.defenderDefensesDestroyed))
  {
    hide Battle, ClampIdle, Refreshed, OriginError, FuelFor;
    if a.Send? && Succeeds(env, s, a) {
      var p0 := s.PlanetAt(a.r.origin);
      RefreshBalances(env, p0, s.TechsOf(p0.owner), a.c.read);
      DispatchRows(env, s, RefreshedAt(env, s, a.r.origin, a.c.read), a.r, a.c.write);
    } else if a.Arrival? && Fights(s, s.FleetAt(a.fid)) {
      var f := s.FleetAt(a.fid);
      var p0 := s.PlanetAt(f.targetPlanet.value);
      RefreshBalances(env, p0, s.TechsOf(p0.owner), a.c.read);
      var p := RefreshedAt(env, s, f.targetPlanet.value, a.c.read);
      var r := BattleAt(env, s, f, a.c);
      BattleLosses(f.ships, s.TechsOf(f.owner), p, s.TechsOf(p.owner));
      ShipLossesFit(p.ships, r.defenderShipsDestroyed);
      DefenseLossesFit(p.defenses, r.defenderDefensesDestroyed);
    }
  }

  /** Loot never overfills the surviving holds: the cargo ends at most at what it was or
      at what the survivors can carry. */
  lemma HoldIsRespected(f: Fleet, p: Planet, r: C.CombatResult, now: real)
    requires p.pools.NonNegative()
    ensures var f' := Victorious(f, r, Spoils(f, p, r), now);
            f'.Some? ==> f.cargo.Sum() <= f'.value.cargo.Sum() <= Max(f.cargo.Sum(), CargoCapacity(Remains(f, r)))
  {
    hide CargoCapacity, HeadCount, Remains;
    if Loots(f, r) {
      LootIsMaximal(p.pools, CargoCapacity(Remains(f, r)) - f.cargo.Sum());
    }
  }

  /** Since the winner is judged from the defenders as they came, only a planet without a
      single ship or defense is ever looted. */
  lemma OnlyTheUndefendedAreLooted(f: Fleet, p: Planet, atk: Techs, def: Techs)
    ensures Loots(f, Battle(f.ships, atk, p, def)) ==>
              && (forall t :: t in p.ships ==> p.ships[t] <= 0) && (forall t :: t in p.defenses ==> p.defenses[t] <= 0)
  {
    hide CP.AsCoded;
    var a := CP.AnyShipList(f.ships, CombatTechs(atk));
    var s := CP.AnyShipList(p.ships, CombatTechs(def));
    var d := CP.AnyDefenseList(p.defenses, CombatTechs(def));
    CP.ListedShipsAreSound(a, f.ships, CombatTechs(atk));
    CP.ListedShipsAreSound(s, p.ships, CombatTechs(def));
    CP.ListedDefensesAreSound(d, p.defenses, CombatTechs(def));
    CP.WinnerAsCoded(a, s, d);
    if Loots(f, Battle(f.ships, atk, p, def)) {
      NoUnits(p.ships, p.defenses, CombatTechs(def), s, d);
    }
  }

  lemma NoUnits(ships: map<ShipType, int>, defenses: map<DefenseType, int>, tech: C.CombatTech, s: seq<C.CombatUnit>,
                d: seq<C.CombatUnit>)
    requires C.ListsShips(s, ships, tech) && C.ListsDefenses(d, defenses, tech) && s == [] && d == []
    ensures (forall t :: t in ships ==> ships[t] <= 0) && (forall t :: t in defenses ==> defenses[t] <= 0)
  {
  }
}
