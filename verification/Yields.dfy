/** What a look at a planet credits in one universe, from levels, slot and temperature alone, and
    what a shortage of energy leaves of it. */
module Yields {
  import opened Wrappers
  import opened Catalog
  import opened Formulas
  import opened World
  import A = Accrual
  import F = Flight
  import P = Production

  /** A universe whose formulas are those of the source. */
  ghost predicate IsUniverse(env: Env, silo: nat -> nat) {
    exists research: Speed, fleet, galaxies, systems, root ::
      env == Universe(env.speedEconomy, research, fleet, galaxies, systems, silo, root)
  }

  function Built(p: Planet, b: BuildingType): nat { Max(0, Level(p.buildings, b)) }

  /** Every level yields its share, and compounds by a tenth. */
  function Compound(level: nat): real { level as real * Pow(1.1, level) }

  function MeanTemp(p: Planet): int { (p.tempMin + p.tempMax) / 2 }

  /** Eight crawlers work per level of the three mines. */
  function CrawlersAtWork(p: Planet): int {
    Least(Built(p, Crawler),
          8 * Max(0, Level(p.buildings, MetalMine) + Level(p.buildings, CrystalMine)
                     + Level(p.buildings, DeuteriumSynthesizer)))
  }

  /** What the mines would bring in an hour with all the energy they ask for. */
  function FullMetal(p: Planet, t: Techs, speed: real): real {
    30.0 * Compound(Built(p, MetalMine)) * speed * (1.0 + Level(t, Plasma) as real / 100.0)
    * (1.0 + match p.coord.position case 6 => 0.17 case 7 => 0.23 case 8 => 0.35 case 9 => 0.23 case 10 => 0.17
                                    case _ => 0.0)
  }

  function FullCrystal(p: Planet, t: Techs, speed: real): real {
    20.0 * Compound(Built(p, CrystalMine)) * speed * (1.0 + Level(t, Plasma) as real * 66.0 / 10000.0)
    * (1.0 + match p.coord.position case 1 => 0.40 case 2 => 0.30 case 3 => 0.20 case _ => 0.0)
  }

  function FullDeuterium(p: Planet, t: Techs, speed: real): real {
    10.0 * Compound(Built(p, DeuteriumSynthesizer)) * (1.36 - MeanTemp(p) as real / 250.0) * speed
    * (1.0 + Level(t, Plasma) as real * 33.0 / 10000.0)
  }

  /** What the fusion reactor burns in an hour, rounded up. */
  function Burnt(p: Planet, speed: real): int { Ceil(10.0 * speed * Compound(Built(p, FusionReactor))) }

  function Solar(level: nat): int { (20.0 * Compound(level)).Floor }
  function Satellites(count: nat, temp: int): int { Max(0, (temp + 160) / 6) * count }
  function Fusion(level: nat, energy: int): int {
    (30.0 * level as real * Pow(1.05 + energy as real / 100.0, level)).Floor
  }

  function Supply(p: Planet, t: Techs): int {
    Solar(Built(p, SolarPlant)) + Satellites(Built(p, SolarSatellite), MeanTemp(p))
    + Fusion(Built(p, FusionReactor), Level(t, Energy))
  }

  function Demand(p: Planet): int {
    Ceil(10.0 * Compound(Built(p, MetalMine))) + Ceil(10.0 * Compound(Built(p, CrystalMine)))
    + Ceil(20.0 * Compound(Built(p, DeuteriumSynthesizer))) + 50 * CrawlersAtWork(p)
  }

  /** The share of its output that a mine delivers, with two percent of a percent more per crawler. */
  ghost predicate IsShare(p: Planet, t: Techs, x: real) {
    var supply, demand := Supply(p, t), Demand(p);
    if supply >= demand || demand <= 0 then x == 1.0 else x * demand as real == supply as real
  }

  function Drawn(full: real, x: real, crawlers: int): real { full * x * (1.0 + crawlers as real / 5000.0) }

  /** What a pool holds after so many hours at a rate. */
  function Kept(stock: real, rate: real, hours: real, cap: int): real {
    var x := stock + rate * hours;
    if x > cap as real then cap as real else if x < 0.0 then 0.0 else x
  }

  function Cap(level: int, silo: nat -> nat): nat { if level <= 0 then 10000 else 5000 * silo(level) }

  lemma CompoundIs(level: int)
    ensures level <= 0 ==> Compound(Max(0, level)) == 0.0
    ensures level > 0 ==> P.LevelPower(level) == Compound(Max(0, level))
  {
  }

  lemma MetalIs(p: Planet, t: Techs, speed: real)
    ensures P.MetalMine(Level(p.buildings, MetalMine), speed, MetalBonus(p.coord.position), Level(t, Plasma))
            == FullMetal(p, t, speed)
  {
    hide Compound, Pow, P.LevelPower;
    CompoundIs(Level(p.buildings, MetalMine));
  }

  lemma CrystalIs(p: Planet, t: Techs, speed: real)
    ensures P.CrystalMine(Level(p.buildings, CrystalMine), speed, CrystalBonus(p.coord.position), Level(t, Plasma))
            == FullCrystal(p, t, speed)
  {
    hide Compound, Pow, P.LevelPower;
    CompoundIs(Level(p.buildings, CrystalMine));
    assert Level(t, Plasma) as real * 0.0066 == Level(t, Plasma) as real * 66.0 / 10000.0;
  }

  lemma DeuteriumIs(p: Planet, t: Techs, speed: real)
    ensures P.DeuteriumSynthesizer(Level(p.buildings, DeuteriumSynthesizer), MeanTemp(p), speed, Level(t, Plasma))
            == FullDeuterium(p, t, speed)
  {
    hide Compound, Pow, P.LevelPower;
    CompoundIs(Level(p.buildings, DeuteriumSynthesizer));
    assert Level(t, Plasma) as real * 0.0033 == Level(t, Plasma) as real * 33.0 / 10000.0;
  }

  lemma CrawlersAre(p: Planet)
    ensures P.Crawlers(p.buildings) == CrawlersAtWork(p)
    ensures CrawlersAtWork(p) >= 0
  {
  }

  lemma SupplyIs(p: Planet, t: Techs)
    ensures P.EnergyProduced(p.buildings, t, MeanTemp(p)) == Supply(p, t)
  {
    hide Solar, Satellites, Fusion, P.SolarPlantOutput, P.SolarSatelliteOutput, P.FusionReactorOutput;
    PlantIs(Level(p.buildings, SolarPlant));
    SatellitesAre(Level(p.buildings, SolarSatellite), MeanTemp(p));
    ReactorIs(Level(p.buildings, FusionReactor), Level(t, Energy));
  }

  lemma PlantIs(level: int)
    ensures P.SolarPlantOutput(level) == Solar(Max(0, level))
  {
    hide Compound, P.LevelPower;
    CompoundIs(level);
  }

  lemma SatellitesAre(count: int, temp: int)
    ensures P.SolarSatelliteOutput(count, temp) == Satellites(Max(0, count), temp)
  {
  }

  lemma ReactorIs(level: int, energy: int)
    ensures P.FusionReactorOutput(level, energy) == Fusion(Max(0, level), energy)
  {
    hide Pow;
    assert energy as real * 0.01 == energy as real / 100.0;
    if level <= 0 { assert 30.0 * 0.0 * Pow(1.05 + energy as real / 100.0, 0) == 0.0; }
  }

  lemma DemandIs(p: Planet)
    ensures P.EnergyConsumed(p.buildings) == Demand(p)
  {
    hide Compound, Pow, P.LevelPower, P.ActiveCrawlers, CrawlersAtWork;
    CompoundIs(Level(p.buildings, MetalMine));
    CompoundIs(Level(p.buildings, CrystalMine));
    CompoundIs(Level(p.buildings, DeuteriumSynthesizer));
    CrawlersAre(p);
  }

  lemma BurnIs(p: Planet, speed: real)
    ensures P.FusionDeutConsumption(Level(p.buildings, FusionReactor), speed) == Burnt(p, speed)
  {
    hide Compound, Pow, P.LevelPower;
    CompoundIs(Level(p.buildings, FusionReactor));
  }

  lemma ShareIs(produced: int, consumed: int)
    ensures var x := P.Factor(produced, consumed);
            if produced >= consumed || consumed <= 0 then x == 1.0 else x * consumed as real == produced as real
  {
    if consumed > 0 {
      var q := produced as real / consumed as real;
      assert q * consumed as real == produced as real;
      if produced >= consumed && q < 1.0 { assert false; }
      if produced < consumed && q > 1.0 { assert false; }
    }
  }

  lemma DrawnIs(full: real, x: real, crawlers: nat)
    ensures P.Mined(full, x, crawlers) == Drawn(full, x, crawlers)
  {
    assert crawlers as real * 0.0002 == crawlers as real / 5000.0;
  }

  /** The hourly rates of a planet: a small income of metal and crystal that needs no energy, what the
      mines deliver at the share that the energy allows, less what the reactor burns. */
  lemma RatesOf(env: Env, silo: nat -> nat, p: Planet, t: Techs)
    requires IsUniverse(env, silo)
    ensures exists x :: IsShare(p, t, x)
              && var r, v, n := env.report(p, t).perHour, env.speedEconomy, CrawlersAtWork(p);
                 && r.metal == P.AtLeastZero(30.0 * v + Drawn(FullMetal(p, t, v), x, n))
                 && r.crystal == P.AtLeastZero(15.0 * v + Drawn(FullCrystal(p, t, v), x, n))
                 && r.deuterium == P.AtLeastZero(Drawn(FullDeuterium(p, t, v), x, n) - Burnt(p, v) as real)
  {
    hide P.MetalMine, P.CrystalMine, P.DeuteriumSynthesizer, P.EnergyProduced, P.EnergyConsumed,
         P.FusionDeutConsumption, P.Crawlers, P.Factor, P.Mined, Drawn, FullMetal, FullCrystal, FullDeuterium,
         CrawlersAtWork, Supply, Demand, Burnt;
    var v := env.speedEconomy;
    MetalIs(p, t, v);
    CrystalIs(p, t, v);
    DeuteriumIs(p, t, v);
    CrawlersAre(p);
    SupplyIs(p, t);
    DemandIs(p);
    BurnIs(p, v);
    var x := P.Factor(Supply(p, t), Demand(p));
    ShareIs(Supply(p, t), Demand(p));
    DrawnIs(FullMetal(p, t, v), x, CrawlersAtWork(p));
    DrawnIs(FullCrystal(p, t, v), x, CrawlersAtWork(p));
    DrawnIs(FullDeuterium(p, t, v), x, CrawlersAtWork(p));
    assert IsShare(p, t, x);
  }

  lemma LookedAt(env: Env, silo: nat -> nat, p: Planet, t: Techs, now: real)
    requires IsUniverse(env, silo) && now - p.cursor >= 1.0
    ensures var r, hours := env.report(p, t).perHour, (now - p.cursor) / 3600.0;
            Refreshed(env, p, t, now)
            == p.(pools := Res(Kept(p.pools.metal, r.metal, hours, Cap(Level(p.buildings, MetalStorage), silo)),
                               Kept(p.pools.crystal, r.crystal, hours, Cap(Level(p.buildings, CrystalStorage), silo)),
                               Kept(p.pools.deuterium, r.deuterium, hours,
                                    Cap(Level(p.buildings, DeuteriumTank), silo))),
                  cursor := now)
  {
    hide IsUniverse, Cap, Kept, A.Settle, A.Gain;
    SilosAre(env, silo, p);
    var r, hours := env.report(p, t).perHour, (now - p.cursor) / 3600.0;
    KeptIs(p.pools.metal, r.metal, now - p.cursor, hours, Cap(Level(p.buildings, MetalStorage), silo));
    KeptIs(p.pools.crystal, r.crystal, now - p.cursor, hours, Cap(Level(p.buildings, CrystalStorage), silo));
    KeptIs(p.pools.deuterium, r.deuterium, now - p.cursor, hours, Cap(Level(p.buildings, DeuteriumTank), silo));
  }

  lemma KeptIs(stock: real, rate: real, seconds: real, hours: real, cap: nat)
    requires hours == seconds / 3600.0
    ensures A.Settle(stock, A.Gain(rate, seconds), cap as real) == Kept(stock, rate, hours, cap)
  {
    hide A.Gain;
    SameGain(rate, seconds, hours);
  }

  lemma SameGain(rate: real, seconds: real, hours: real)
    requires hours == seconds / 3600.0
    ensures A.Gain(rate, seconds) == rate * hours
  {
  }

  /** A look at a planet a second or more after its last update credits the hours since then at those
      rates, and stops each pool at its own storage: metal at the metal storage, crystal at the
      crystal storage, deuterium at the tank.  A look within the second changes nothing. */
  lemma LookOutcome(env: Env, silo: nat -> nat, s: State, a: Step)
    requires IsUniverse(env, silo) && Enabled(s, a) && a.LookAt? && s.HasPlanet(a.pid)
    ensures var p := s.PlanetAt(a.pid);
            var r, hours := env.report(p, s.TechsOf(p.owner)).perHour, (a.c.read - p.cursor) / 3600.0;
            Next(env, s, a) ==
              if a.c.read - p.cursor < 1.0 then s.(clock := a.c.write)
              else s.(planets := s.planets[a.pid := Some(p.(
                        pools := Res(Kept(p.pools.metal, r.metal, hours, Cap(Level(p.buildings, MetalStorage), silo)),
                                     Kept(p.pools.crystal, r.crystal, hours,
                                          Cap(Level(p.buildings, CrystalStorage), silo)),
                                     Kept(p.pools.deuterium, r.deuterium, hours,
                                          Cap(Level(p.buildings, DeuteriumTank), silo))),
                        cursor := a.c.read))], clock := a.c.write)
  {
    hide NextOnPlanet, P.ComputePlanetProduction, IsUniverse, Cap;
    var p := s.PlanetAt(a.pid);
    SilosAre(env, silo, p);
    var q := RefreshedAt(env, s, a.pid, a.c.read);
    assert Next(env, s, a) == s.(planets := s.planets[a.pid := Some(q)], clock := a.c.write);
    if a.c.read - p.cursor < 1.0 {
      assert s.planets[a.pid := Some(q)] == s.planets;
    } else {
      LookedAt(env, silo, p, s.TechsOf(p.owner), a.c.read);
    }
  }

  lemma SilosAre(env: Env, silo: nat -> nat, p: Planet)
    requires IsUniverse(env, silo)
    ensures env.capacity(p) == Res(Cap(Level(p.buildings, MetalStorage), silo) as real,
                                   Cap(Level(p.buildings, CrystalStorage), silo) as real,
                                   Cap(Level(p.buildings, DeuteriumTank), silo) as real)
  {
    hide P.ComputePlanetProduction;
  }

  /** Flights in such a universe: for a way, a hull's speed and a throttle they take what the law of
      flight times says at the universe's own fleet speed. */
  lemma FlightsOf(economy: Speed, research: Speed, fleet: int, galaxies: int, systems: int, silo: nat -> nat,
                  root: real -> real, way: nat, v: int, percent: int)
    requires v > 0 && 10 <= percent <= 100 && fleet >= 1 && F.RootOf(root, 10.0 * way as real / v as real)
    ensures var env := Universe(economy, research, fleet, galaxies, systems, silo, root);
            && F.Covers(env.flight(way, v, percent), fleet as real, percent as real,
                        1_225_000_000_000.0 * way as real / v as real)
            && env.speedEconomy == economy && env.speedResearch == research
            && env.galaxies == galaxies && env.systems == systems
  {
    hide F.Covers, F.FlightDuration, F.RootOf, P.ComputePlanetProduction;
    F.FlightDurationLaw(way, v, fleet, percent, root);
  }
}
