/** What an attack does, from the tables alone: how many of each type fall on either side, and
    what is carried away. */
module Raids {
  import opened Wrappers
  import opened Catalog
  import opened Sums
  import opened Formulas
  import opened World
  import C = Combat
  import CP = CombatProperties
  import E = Effects
  import L = Ledger

  // ---- the two sides ---------------------------------------------------------------------------

  /** Ten percent more per level, rounded down; no level counts as less than none. */
  function Boosted(stat: nat, level: int): int { (stat as real * (1.0 + 0.1 * Max(0, level) as real)).Floor }

  function ShipFire(ships: map<ShipType, int>, techs: Techs): ShipType -> int {
    t => if Level(ships, t) > 0 then ships[t] * Boosted(ShipStats(t).weapon, Level(techs, Weapons)) else 0
  }

  function ShipHull(ships: map<ShipType, int>, techs: Techs): ShipType -> int {
    t => if Level(ships, t) > 0
         then ships[t] * (Boosted(ShipStats(t).shield, Level(techs, Shielding))
                          + Boosted(ShipStats(t).armor, Level(techs, Armour)))
         else 0
  }

  function TurretFire(defenses: map<DefenseType, int>, techs: Techs): DefenseType -> int {
    t => if Level(defenses, t) > 0 then defenses[t] * Boosted(DefenseStats(t).weapon, Level(techs, Weapons)) else 0
  }

  function TurretHull(defenses: map<DefenseType, int>, techs: Techs): DefenseType -> int {
    t => if Level(defenses, t) > 0
         then defenses[t] * (Boosted(DefenseStats(t).shield, Level(techs, Shielding))
                             + Boosted(DefenseStats(t).armor, Level(techs, Armour)))
         else 0
  }

  /** What a fleet and what a planet can shoot, and what they can take. */
  ghost function FleetFire(f: Fleet, techs: Techs): int { SumKeys(f.ships.Keys, ShipFire(f.ships, techs)) }
  ghost function FleetHull(f: Fleet, techs: Techs): int { SumKeys(f.ships.Keys, ShipHull(f.ships, techs)) }

  ghost function PlanetFire(p: Planet, techs: Techs): int {
    SumKeys(p.ships.Keys, ShipFire(p.ships, techs)) + SumKeys(p.defenses.Keys, TurretFire(p.defenses, techs))
  }

  ghost function PlanetHull(p: Planet, techs: Techs): int {
    SumKeys(p.ships.Keys, ShipHull(p.ships, techs)) + SumKeys(p.defenses.Keys, TurretHull(p.defenses, techs))
  }

  /** How many of `count` fall when `fire` hits a side that can take `hull`: their share, rounded down. */
  function Toll(count: int, fire: int, hull: int): int {
    if count <= 0 || hull <= 0 then 0
    else if (fire * count) / hull > count then count else (fire * count) / hull
  }

  // ---- the lists of the battle are those sums ------------------------------------------------------

  lemma BoostedIs(stat: nat, level: int)
    ensures C.Modified(stat, Max(0, level)) == Boosted(stat, level)
  {
    var n := stat * (10 + Max(0, level));
    assert stat as real * (1.0 + 0.1 * Max(0, level) as real) == n as real / 10.0;
    assert n == 10 * (n / 10) + n % 10;
  }

  lemma ShipUnitIs(t: ShipType, ships: map<ShipType, int>, techs: Techs)
    requires t in ships && ships[t] > 0
    ensures var u := C.ShipUnit(t, ships[t], CombatTechs(techs));
            C.AttackOf(u) == ShipFire(ships, techs)(t) && C.HPOf(u) == ShipHull(ships, techs)(t)
  {
    hide C.Modified, Boosted, ShipStats;
    BoostedIs(ShipStats(t).weapon, Level(techs, Weapons));
    BoostedIs(ShipStats(t).shield, Level(techs, Shielding));
    BoostedIs(ShipStats(t).armor, Level(techs, Armour));
  }

  lemma TurretUnitIs(t: DefenseType, defenses: map<DefenseType, int>, techs: Techs)
    requires t in defenses && defenses[t] > 0
    ensures var u := C.DefenseUnit(t, defenses[t], CombatTechs(techs));
            C.AttackOf(u) == TurretFire(defenses, techs)(t) && C.HPOf(u) == TurretHull(defenses, techs)(t)
  {
    hide C.Modified, Boosted, DefenseStats;
    BoostedIs(DefenseStats(t).weapon, Level(techs, Weapons));
    BoostedIs(DefenseStats(t).shield, Level(techs, Shielding));
    BoostedIs(DefenseStats(t).armor, Level(techs, Armour));
  }

  /** `part` is what is left of `ships` to be listed. */
  lemma {:induction false} ShipTotals(part: map<ShipType, int>, ships: map<ShipType, int>, techs: Techs)
    requires forall t :: t in part ==> t in ships && ships[t] == part[t]
    ensures var units := CP.AnyShipList(part, CombatTechs(techs));
            && C.TotalAttack(units) == SumKeys(part.Keys, ShipFire(ships, techs))
            && C.TotalHP(units) == SumKeys(part.Keys, ShipHull(ships, techs))
    decreases |part.Keys|
  {
    hide CombatTechs, ShipFire, ShipHull, C.ShipUnit, C.AttackOf, C.HPOf, C.ListsShips;
    if part == map[] {
      assert part.Keys == {};
    } else {
      var tech := CombatTechs(techs);
      var t :| t in part && CP.AnyShipList(part, tech)
                            == CP.AnyShipList(part - {t}, tech)
                               + if part[t] > 0 then [C.ShipUnit(t, part[t], tech)] else [];
      ShipTotals(part - {t}, ships, techs);
      assert (part - {t}).Keys == part.Keys - {t};
      SumKeysTake(part.Keys, t, ShipFire(ships, techs));
      SumKeysTake(part.Keys, t, ShipHull(ships, techs));
      var rest := CP.AnyShipList(part - {t}, tech);
      if part[t] > 0 {
        SumAppend(rest, C.ShipUnit(t, part[t], tech), C.AttackOf);
        SumAppend(rest, C.ShipUnit(t, part[t], tech), C.HPOf);
        ShipUnitIs(t, ships, techs);
      } else {
        NoShips(t, ships, techs);
        assert rest + [] == rest;
      }
    }
  }

  lemma NoShips(t: ShipType, ships: map<ShipType, int>, techs: Techs)
    requires Level(ships, t) <= 0
    ensures ShipFire(ships, techs)(t) == 0 && ShipHull(ships, techs)(t) == 0
  {
  }

  lemma NoTurrets(t: DefenseType, defenses: map<DefenseType, int>, techs: Techs)
    requires Level(defenses, t) <= 0
    ensures TurretFire(defenses, techs)(t) == 0 && TurretHull(defenses, techs)(t) == 0
  {
  }

  lemma {:induction false} TurretTotals(part: map<DefenseType, int>, defenses: map<DefenseType, int>, techs: Techs)
    requires forall t :: t in part ==> t in defenses && defenses[t] == part[t]
    ensures var units := CP.AnyDefenseList(part, CombatTechs(techs));
            && C.TotalAttack(units) == SumKeys(part.Keys, TurretFire(defenses, techs))
            && C.TotalHP(units) == SumKeys(part.Keys, TurretHull(defenses, techs))
    decreases |part.Keys|
  {
    hide CombatTechs, TurretFire, TurretHull, C.DefenseUnit, C.AttackOf, C.HPOf, C.ListsDefenses;
    if part == map[] {
      assert part.Keys == {};
    } else {
      var tech := CombatTechs(techs);
      var t :| t in part && CP.AnyDefenseList(part, tech)
                            == CP.AnyDefenseList(part - {t}, tech)
                               + if part[t] > 0 then [C.DefenseUnit(t, part[t], tech)] else [];
      TurretTotals(part - {t}, defenses, techs);
      assert (part - {t}).Keys == part.Keys - {t};
      SumKeysTake(part.Keys, t, TurretFire(defenses, techs));
      SumKeysTake(part.Keys, t, TurretHull(defenses, techs));
      var rest := CP.AnyDefenseList(part - {t}, tech);
      if part[t] > 0 {
        SumAppend(rest, C.DefenseUnit(t, part[t], tech), C.AttackOf);
        SumAppend(rest, C.DefenseUnit(t, part[t], tech), C.HPOf);
        TurretUnitIs(t, defenses, techs);
      } else {
        NoTurrets(t, defenses, techs);
        assert rest + [] == rest;
      }
    }
  }

  // ---- losses in closed form -------------------------------------------------------------------------

  lemma KilledIsToll(u: C.CombatUnit, damage: nat, hp: int)
    requires u.count > 0 && hp > 0
    ensures C.KilledOf(u, damage, hp) == Toll(u.count, damage, hp) && C.KilledOf(u, damage, hp) >= 0
  {
    hide C.KilledOf;
    C.KilledClosedForm(u, damage, hp);
    C.KilledBounds(u, damage, hp);
  }

  /** Every listed pool loses its toll, and nothing else is lost. */
  lemma PoolTolls(units: seq<C.CombatUnit>, damage: nat, hp: int, n: C.UnitName)
    requires C.DistinctNames(units) && C.AllSound(units)
    ensures var lost := Level(C.Positive(C.Destroyed(units, damage, hp)), n);
            && (forall u :: u in units && u.name == n ==> lost == Toll(u.count, damage, hp))
            && ((forall u :: u in units ==> u.name != n) ==> lost == 0)
  {
    hide C.KilledOf;
    if hp > 0 {
      CP.DestroyedLookup(units, damage, hp);
      forall u | u in units && u.name == n
        ensures Level(C.Positive(C.Destroyed(units, damage, hp)), n) == Toll(u.count, damage, hp)
      {
        assert u.Sound();
        KilledIsToll(u, damage, hp);
      }
    }
  }

  lemma FleetTolls(ships: map<ShipType, int>, units: seq<C.CombatUnit>, tech: C.CombatTech, damage: nat, hp: int,
                   x: ShipType)
    requires C.ListsShips(units, ships, tech)
    ensures Level(C.Positive(C.Destroyed(units, damage, hp)), C.Hull(x)) == Toll(Level(ships, x), damage, hp)
  {
    hide C.Destroyed, C.Positive;
    CP.ListedShipsAreSound(units, ships, tech);
    PoolTolls(units, damage, hp, C.Hull(x));
    if Level(ships, x) > 0 { assert C.ShipUnit(x, ships[x], tech) in units; }
  }

  /** The same of the two lists of a planet, fought as one side. */
  lemma GarrisonTolls(p: Planet, s: seq<C.CombatUnit>, d: seq<C.CombatUnit>, tech: C.CombatTech, damage: nat, hp: int,
                      n: C.UnitName)
    requires C.ListsShips(s, p.ships, tech) && C.ListsDefenses(d, p.defenses, tech)
    ensures Level(C.Positive(C.Destroyed(s + d, damage, hp)), n)
            == Toll(if n.Hull? then Level(p.ships, n.ship) else Level(p.defenses, n.defense), damage, hp)
  {
    hide C.Destroyed, C.Positive;
    CP.ListedShipsAreSound(s, p.ships, tech);
    CP.ListedDefensesAreSound(d, p.defenses, tech);
    assert C.Names(s) !! C.Names(d);
    CP.DistinctConcat(s, d);
    CP.InEither(s, d);
    PoolTolls(s + d, damage, hp, n);
    if n.Hull? && Level(p.ships, n.ship) > 0 {
      assert C.ShipUnit(n.ship, p.ships[n.ship], tech) in s;
    } else if n.Turret? && Level(p.defenses, n.defense) > 0 {
      assert C.DefenseUnit(n.defense, p.defenses[n.defense], tech) in d;
    }
  }

  /** Positive losses of a hull are losses of the listed ships, those of a turret of the listed defenses. */
  lemma SplitTolls(p: Planet, s: seq<C.CombatUnit>, d: seq<C.CombatUnit>, tech: C.CombatTech, down: C.Losses)
    requires C.ListsShips(s, p.ships, tech) && C.ListsDefenses(d, p.defenses, tech)
    requires forall n :: n in down ==> 0 < if n.Hull? then Level(p.ships, n.ship) else Level(p.defenses, n.defense)
    ensures forall x :: Level(C.Among(down, C.Names(s)), C.Hull(x)) == Level(down, C.Hull(x))
    ensures forall x :: Level(C.Among(C.Outside(down, C.Names(s)), C.Names(d)), C.Turret(x)) == Level(down, C.Turret(x))
  {
    forall x | C.Hull(x) in down ensures C.Hull(x) in C.Names(s) {
      assert C.ShipUnit(x, p.ships[x], tech) in s;
    }
    forall x | C.Turret(x) in down ensures C.Turret(x) in C.Names(d) && C.Turret(x) !in C.Names(s) {
      assert C.DefenseUnit(x, p.defenses[x], tech) in d;
    }
  }

  ghost predicate TakesTolls(f: Fleet, p: Planet, atk: Techs, def: Techs, r: C.CombatResult) {
    && (forall x :: Level(r.attackerDestroyed, C.Hull(x))
          == Toll(Level(f.ships, x), PlanetFire(p, def), FleetHull(f, atk)))
    && (forall x :: Level(r.defenderShipsDestroyed, C.Hull(x))
          == Toll(Level(p.ships, x), FleetFire(f, atk), PlanetHull(p, def)))
    && (forall x :: Level(r.defenderDefensesDestroyed, C.Turret(x))
          == Toll(Level(p.defenses, x), FleetFire(f, atk), PlanetHull(p, def)))
  }

  lemma SidesTotal(f: Fleet, p: Planet, atk: Techs, def: Techs)
    ensures var t := C.TotalsOf(CP.AnyShipList(f.ships, CombatTechs(atk)), CP.AnyShipList(p.ships, CombatTechs(def)),
                                CP.AnyDefenseList(p.defenses, CombatTechs(def)));
            && t.atkAttack == FleetFire(f, atk) && t.atkHP == FleetHull(f, atk)
            && t.defAttack == PlanetFire(p, def) && t.defHP == PlanetHull(p, def)
  {
    hide CombatTechs, C.TotalAttack, C.TotalHP, ShipFire, ShipHull, TurretFire, TurretHull, C.ListsShips,
         C.ListsDefenses;
    ShipTotals(f.ships, f.ships, atk);
    ShipTotals(p.ships, p.ships, def);
    TurretTotals(p.defenses, p.defenses, def);
  }

  lemma BattleTolls(f: Fleet, p: Planet, atk: Techs, def: Techs)
    ensures TakesTolls(f, p, atk, def, Battle(f.ships, atk, p, def))
  {
    hide CP.AsCoded, CombatTechs, C.Destroyed, C.Positive, C.Among, C.Outside, C.Names, C.ListsShips, C.ListsDefenses,
         C.TotalAttack, C.TotalHP, C.TotalsOf, FleetFire, FleetHull, PlanetFire, PlanetHull, Toll;
    var a := CP.AnyShipList(f.ships, CombatTechs(atk));
    var s, d := CP.AnyShipList(p.ships, CombatTechs(def)), CP.AnyDefenseList(p.defenses, CombatTechs(def));
    L.BattleFields(a, s, d);
    SidesTotal(f, p, atk, def);
    var t := C.TotalsOf(a, s, d);
    forall x ensures Level(C.Positive(C.Destroyed(a, t.defAttack, t.atkHP)), C.Hull(x))
                     == Toll(Level(f.ships, x), PlanetFire(p, def), FleetHull(f, atk))
    {
      FleetTolls(f.ships, a, CombatTechs(atk), t.defAttack, t.atkHP, x);
    }
    GarrisonLosses(p, s, d, CombatTechs(def), t.atkAttack, t.defHP);
  }

  /** What a planet's two lists lose, split by what they name. */
  lemma GarrisonLosses(p: Planet, s: seq<C.CombatUnit>, d: seq<C.CombatUnit>, tech: C.CombatTech, damage: nat, hp: int)
    requires C.ListsShips(s, p.ships, tech) && C.ListsDefenses(d, p.defenses, tech)
    ensures var down := C.Positive(C.Destroyed(s + d, damage, hp));
            && (forall x :: Level(C.Among(down, C.Names(s)), C.Hull(x)) == Toll(Level(p.ships, x), damage, hp))
            && (forall x :: Level(C.Among(C.Outside(down, C.Names(s)), C.Names(d)), C.Turret(x))
                            == Toll(Level(p.defenses, x), damage, hp))
  {
    hide C.Destroyed, C.Positive, C.Among, C.Outside, C.Names, C.ListsShips, C.ListsDefenses, Toll;
    var down := C.Positive(C.Destroyed(s + d, damage, hp));
    forall n ensures Level(down, n) == Toll(if n.Hull? then Level(p.ships, n.ship) else Level(p.defenses, n.defense),
                                            damage, hp)
    {
      GarrisonTolls(p, s, d, tech, damage, hp, n);
    }
    forall n | n in down ensures 0 < if n.Hull? then Level(p.ships, n.ship) else Level(p.defenses, n.defense) {
      DownIsPositive(s + d, damage, hp, n);
      if n.Hull? {
        TollNeedsSome(Level(p.ships, n.ship), damage, hp);
      } else {
        TollNeedsSome(Level(p.defenses, n.defense), damage, hp);
      }
    }
    SplitTolls(p, s, d, tech, down);
  }

  lemma DownIsPositive(units: seq<C.CombatUnit>, damage: nat, hp: int, n: C.UnitName)
    requires n in C.Positive(C.Destroyed(units, damage, hp))
    ensures Level(C.Positive(C.Destroyed(units, damage, hp)), n) > 0
  {
    hide C.Destroyed;
  }

  lemma TollNeedsSome(count: int, fire: int, hull: int)
    ensures Toll(count, fire, hull) > 0 ==> count > 0
  {
  }

  // ---- the arrival ------------------------------------------------------------------------------------

  /** The target as the attack finds it. */
  ghost function Found(env: Env, s: State, a: Step): Planet
    requires a.Arrival? && s.HasFleet(a.fid) && !TargetGone(s, s.FleetAt(a.fid))
  {
    RefreshedAt(env, s, s.FleetAt(a.fid).targetPlanet.value, a.c.read)
  }

  ghost predicate IsAttack(s: State, a: Step) {
    a.Arrival? && s.HasFleet(a.fid) && s.FleetAt(a.fid).mission == Attack && !TargetGone(s, s.FleetAt(a.fid))
  }

  /** Each side fights with its owner's technologies, and every type loses its share of the
      other side's fire, rounded down. */
  lemma AttackInClosedForm(env: Env, s: State, a: Step)
    requires L.Sound(s) && Enabled(s, a) && IsAttack(s, a) && s.FleetAt(a.fid).ships != map[]
    ensures var f, t, p := s.FleetAt(a.fid), Next(env, s, a), Found(env, s, a);
            var pid, atk, def := f.targetPlanet.value, s.TechsOf(f.owner), s.TechsOf(p.owner);
            && t.HasPlanet(pid) && a.fid < |t.fleets|
            && (forall x :: Level(t.PlanetAt(pid).ships, x)
                  == Level(p.ships, x) - Toll(Level(p.ships, x), FleetFire(f, atk), PlanetHull(p, def)))
            && (forall x :: Level(t.PlanetAt(pid).defenses, x)
                  == Level(p.defenses, x) - Toll(Level(p.defenses, x), FleetFire(f, atk), PlanetHull(p, def)))
            && (forall x :: L.FleetShips(t.fleets[a.fid], x)
                  == Level(f.ships, x) - Toll(Level(f.ships, x), PlanetFire(p, def), FleetHull(f, atk)))
  {
    hide Effect, Battle, L.Sound, RefreshedAt, Toll, FleetFire, FleetHull, PlanetFire, PlanetHull, NextOnPlanet;
    var f, p := s.FleetAt(a.fid), Found(env, s, a);
    BattleTolls(f, p, s.TechsOf(f.owner), s.TechsOf(p.owner));
    E.AttackStrikes(env, s, a);
  }

  // ---- the loot -----------------------------------------------------------------------------------------

  ghost predicate Undefended(p: Planet) {
    (forall x :: Level(p.ships, x) <= 0) && (forall x :: Level(p.defenses, x) <= 0)
  }

  ghost predicate HasShip(f: Fleet) { exists x :: Level(f.ships, x) > 0 }

  /** Half of a pool, rounded down. */
  function Half(pool: real): int { (pool / 2.0).Floor }

  /** What changes hands: the free hold as far as the halves go, metal before crystal before deuterium. */
  ghost predicate IsLoot(loot: Cost, pools: Res, hold: int) {
    && 0 <= loot.metal <= Half(pools.metal) && 0 <= loot.crystal <= Half(pools.crystal)
    && 0 <= loot.deuterium <= Half(pools.deuterium)
    && loot.metal + loot.crystal + loot.deuterium
       == Least(Max(0, hold), Half(pools.metal) + Half(pools.crystal) + Half(pools.deuterium))
    && (loot.crystal > 0 ==> loot.metal == Half(pools.metal))
    && (loot.deuterium > 0 ==> loot.metal == Half(pools.metal) && loot.crystal == Half(pools.crystal))
  }

  lemma LootForIsLoot(pools: Res, hold: int)
    requires pools.NonNegative()
    ensures IsLoot(LootFor(pools, hold), pools, hold)
  {
    LootIsMaximal(pools, hold);
  }

  lemma NobodyIsListed(p: Planet, tech: C.CombatTech)
    requires Undefended(p)
    ensures CP.AnyShipList(p.ships, tech) == [] && CP.AnyDefenseList(p.defenses, tech) == []
  {
    hide C.ShipUnit, C.DefenseUnit;
    var s, d := CP.AnyShipList(p.ships, tech), CP.AnyDefenseList(p.defenses, tech);
    assert forall u :: u in s ==> Level(p.ships, u.name.ship) > 0;
    assert forall u :: u in d ==> Level(p.defenses, u.name.defense) > 0;
    SomeElement(s);
    SomeElement(d);
  }

  lemma SomeElement<T>(s: seq<T>)
    ensures s != [] ==> exists u :: u in s
  {
    if s != [] { assert s[0] in s; }
  }

  lemma UndefendedIsBeaten(f: Fleet, p: Planet, atk: Techs, def: Techs)
    requires Undefended(p) && HasShip(f)
    ensures Battle(f.ships, atk, p, def).winner == C.Attacker
  {
    hide CP.AsCoded, C.ShipUnit, C.TotalAttack, C.TotalHP;
    var a := CP.AnyShipList(f.ships, CombatTechs(atk));
    NobodyIsListed(p, CombatTechs(def));
    CP.ListedShipsAreSound(a, f.ships, CombatTechs(atk));
    CP.WinnerAsCoded(a, [], []);
    var x :| Level(f.ships, x) > 0;
    assert C.ShipUnit(x, f.ships[x], CombatTechs(atk)) in a;
  }

  lemma NoFire(p: Planet, techs: Techs)
    requires Undefended(p)
    ensures PlanetFire(p, techs) == 0
  {
    hide ShipFire, TurretFire;
    forall t | t in p.ships.Keys ensures ShipFire(p.ships, techs)(t) == 0 { NoShips(t, p.ships, techs); }
    forall t | t in p.defenses.Keys ensures TurretFire(p.defenses, techs)(t) == 0 { NoTurrets(t, p.defenses, techs); }
    SumKeysZero(p.ships.Keys, ShipFire(p.ships, techs));
    SumKeysZero(p.defenses.Keys, TurretFire(p.defenses, techs));
  }

  lemma NobodyFalls(f: Fleet, p: Planet, atk: Techs, def: Techs)
    requires L.FleetSound(f) && Undefended(p)
    ensures Remains(f, Battle(f.ships, atk, p, def)) == f.ships
  {
    hide Battle, PlanetFire, FleetHull, FleetFire, PlanetHull;
    var r := Battle(f.ships, atk, p, def);
    BattleTolls(f, p, atk, def);
    NoFire(p, def);
    forall t | t in f.ships ensures Remains(f, r)[t] == f.ships[t] {
      assert Level(r.attackerDestroyed, C.Hull(t)) == Toll(Level(f.ships, t), 0, FleetHull(f, atk)) == 0;
    }
  }

  lemma SomebodyCounts(ships: map<ShipType, int>, x: ShipType)
    requires L.CountsSound(ships) && Level(ships, x) > 0
    ensures HeadCount(ships) > 0
  {
    SumKeysNonNegative(ships.Keys, CountIn(ships));
    assert x in ships.Keys && CountIn(ships)(x) > 0;
  }

  lemma WonSpoils(f: Fleet, p: Planet, atk: Techs, def: Techs)
    requires L.FleetSound(f) && p.pools.NonNegative() && Undefended(p) && HasShip(f)
    ensures var r := Battle(f.ships, atk, p, def);
            IsLoot(Spoils(f, p, r), p.pools, CargoCapacity(f.ships) - f.cargo.Sum())
  {
    hide Battle, HeadCount, CargoCapacity, LootFor, IsLoot;
    var x :| Level(f.ships, x) > 0;
    NobodyFalls(f, p, atk, def);
    SomebodyCounts(f.ships, x);
    UndefendedIsBeaten(f, p, atk, def);
    LootForIsLoot(p.pools, CargoCapacity(f.ships) - f.cargo.Sum());
  }

  lemma NoSpoils(f: Fleet, p: Planet, atk: Techs, def: Techs)
    requires !Undefended(p)
    ensures Spoils(f, p, Battle(f.ships, atk, p, def)) == Cost(0, 0, 0)
  {
    hide Battle, HeadCount, CargoCapacity, LootFor;
    L.OnlyTheUndefendedAreLooted(f, p, atk, def);
  }

  lemma EmptySpoils(f: Fleet, p: Planet, atk: Techs, def: Techs)
    requires L.FleetSound(f) && Undefended(p) && !HasShip(f)
    ensures Spoils(f, p, Battle(f.ships, atk, p, def)) == Cost(0, 0, 0)
  {
    hide Battle, CargoCapacity, LootFor;
    NobodyFalls(f, p, atk, def);
    forall x | x in f.ships.Keys ensures CountIn(f.ships)(x) == 0 {
      assert Level(f.ships, x) <= 0;
    }
    SumKeysZero(f.ships.Keys, CountIn(f.ships));
  }

  function Gained(before: Cost, after: Cost): Cost {
    Cost(after.metal - before.metal, after.crystal - before.crystal, after.deuterium - before.deuterium)
  }

  /** What a raid brings home: against nobody, the loot that the hold of all ships can take, out
      of the planet's pools and into the hold; against anybody, nothing. */
  lemma RaidOutcome(env: Env, s: State, a: Step)
    requires L.Sound(s) && Enabled(s, a) && IsAttack(s, a) && s.FleetAt(a.fid).ships != map[]
    ensures var f, t, p := s.FleetAt(a.fid), Next(env, s, a), Found(env, s, a);
            var pid := f.targetPlanet.value;
            && t.HasPlanet(pid) && a.fid < |t.fleets|
            && (if Undefended(p) && HasShip(f) then
                  && t.HasFleet(a.fid) && (forall x :: Level(t.FleetAt(a.fid).ships, x) == Level(f.ships, x))
                  && var loot := Gained(f.cargo, t.FleetAt(a.fid).cargo);
                  && IsLoot(loot, p.pools, CargoCapacity(f.ships) - f.cargo.Sum())
                  && t.PlanetAt(pid).pools == p.pools.Minus(Units(loot))
                else
                  t.PlanetAt(pid).pools == p.pools && (t.HasFleet(a.fid) ==> t.FleetAt(a.fid).cargo == f.cargo))
  {
    hide Effect, Battle, Spoils, L.PlanetSound, RefreshedAt, Toll, FleetFire, FleetHull, PlanetFire, PlanetHull,
         CargoCapacity, IsLoot, NextOnPlanet;
    var f, p := s.FleetAt(a.fid), Found(env, s, a);
    var atk, def := s.TechsOf(f.owner), s.TechsOf(p.owner);
    var t := Next(env, s, a);
    E.AttackStrikes(env, s, a);
    AttackInClosedForm(env, s, a);
    FoundIsSound(env, s, a);
    if !Undefended(p) {
      NoSpoils(f, p, atk, def);
    } else if !HasShip(f) {
      EmptySpoils(f, p, atk, def);
    } else {
      WonSpoils(f, p, atk, def);
      NoFire(p, def);
      forall x ensures L.FleetShips(t.fleets[a.fid], x) == Level(f.ships, x) {
        HarmlessFire(Level(f.ships, x), FleetHull(f, atk));
      }
      var x :| Level(f.ships, x) > 0;
      assert L.FleetShips(t.fleets[a.fid], x) > 0;
      assert Gained(f.cargo, t.FleetAt(a.fid).cargo) == Spoils(f, p, L.BattleAt(env, s, f, a.c));
    }
  }

  lemma HarmlessFire(count: int, hull: int)
    ensures Toll(count, 0, hull) == 0
  {
  }

  lemma FoundIsSound(env: Env, s: State, a: Step)
    requires L.Sound(s) && Enabled(s, a) && IsAttack(s, a)
    ensures L.FleetSound(s.FleetAt(a.fid)) && Found(env, s, a).pools.NonNegative()
  {
    hide Refreshed;
    var p := s.PlanetAt(s.FleetAt(a.fid).targetPlanet.value);
    L.RefreshBalances(env, p, s.TechsOf(p.owner), a.c.read);
  }

  /** One large cargo ship with an empty hold takes half of ten thousand metal from a bare planet. */
  lemma HalfIsTaken(loot: Cost, pools: Res)
    requires IsLoot(loot, pools, CargoCapacity(map[LargeCargo := 1])) && pools == Res(10000.0, 0.0, 0.0)
    ensures loot == Cost(5000, 0, 0)
  {
    var m := map[LargeCargo := 1];
    assert m.Keys == {LargeCargo};
    SumKeysTake(m.Keys, LargeCargo, CargoIn(m));
    assert m.Keys - {LargeCargo} == {};
  }
}
