/** The figures that the unit tests of the repository expect of its formulas
    (internal/game/formulas_test.go, audit_fixes_test.go and colonization_test.go,
    internal/svc/build_test.go). */
module Figures {
  import opened Wrappers
  import opened Catalog
  import opened Sums
  import opened Formulas
  import opened World
  import F = Flight
  import P = Production
  import U = Launches

  lemma PowersOfElevenTenths()
    ensures Pow(1.1, 1) == 1.1 && Pow(1.1, 2) == 1.21 && Pow(1.1, 4) == 1.4641
  {
    assert Pow(1.1, 1) == 1.1 * Pow(1.1, 0);
    assert Pow(1.1, 2) == 1.1 * Pow(1.1, 1);
    assert Pow(1.1, 3) == 1.1 * Pow(1.1, 2);
    assert Pow(1.1, 4) == 1.1 * Pow(1.1, 3);
  }

  /** Energy is rounded up against the player, fuel of the reactor as well. */
  lemma EnergyFigures()
    ensures P.MineEnergy(10, 2) == 25 && P.MineEnergy(10, 4) == 59 && P.MineEnergy(20, 2) == 49
    ensures P.FusionDeutConsumption(2, 1.0) == 25 && P.FusionDeutConsumption(2, 2.0) == 49
    ensures P.ActiveCrawlers(999, 21, 20, 19) == 480 && P.CrawlerEnergy(480) == 24000
    ensures P.SolarSatelliteOutput(1, 100) == 43 && P.SolarSatelliteOutput(1, 0) == 26
            && P.SolarSatelliteOutput(1, -40) == 20
  {
    hide Pow;
    PowersOfElevenTenths();
    assert P.LevelPower(2) == 2.42 && P.LevelPower(4) == 5.8564;
    assert Ceil(24.2) == 25 && Ceil(58.564) == 59 && Ceil(48.4) == 49;
  }

  /** Warm planets make less deuterium, and from 340 degrees on none. */
  lemma DeuteriumFigures()
    ensures P.DeuteriumSynthesizer(1, 20, 1.0, 0) == 10.0 * 1.1 * (1.36 - 0.004 * 20.0)
    ensures P.DeuteriumSynthesizer(5, 340, 1.0, 0) == 0.0
  {
    hide Pow;
    PowersOfElevenTenths();
    assert 1.36 - 0.004 * 340.0 == 0.0;
  }

  lemma PowersOfThreeHalves()
    ensures Pow(1.5, 0) == 1.0 && Pow(1.5, 4) == 5.0625 && Pow(1.5, 5) == 7.59375
  {
    assert Pow(1.5, 1) == 1.5 * Pow(1.5, 0);
    assert Pow(1.5, 2) == 1.5 * Pow(1.5, 1);
    assert Pow(1.5, 3) == 1.5 * Pow(1.5, 2);
    assert Pow(1.5, 4) == 1.5 * Pow(1.5, 3);
    assert Pow(1.5, 5) == 1.5 * Pow(1.5, 4);
  }

  /** What an upgrade takes without any robots at single speed, by its cost. */
  lemma UnaidedTime(cost: Cost, target: int)
    ensures BuildTime(cost, 0, 0, 1.0, EarlyDivisor(target))
            == AtLeastOneSecond((cost.metal + cost.crystal) as real / (2500.0 * EarlyDivisor(target)))
  {
    hide AtLeastOneSecond, EarlyDivisor;
    assert Pow(2.0, 0) == 1.0;
  }

  /** The solar plant: its first level by the plain rate, and the first, fifth and sixth level with
      the early levels sped up. */
  lemma SolarPlantFigures()
    ensures BuildingLevelCost(SolarPlant, 1) == Cost(75, 30, 0)
    ensures BuildTime(Cost(75, 30, 0), 0, 0, 1.0, 1.0) == 151
    ensures BuildTime(BuildingLevelCost(SolarPlant, 1), 0, 0, 1.0, EarlyDivisor(1)) == 43
    ensures BuildTime(BuildingLevelCost(SolarPlant, 5), 0, 0, 1.0, EarlyDivisor(5)) == 508
    ensures BuildTime(BuildingLevelCost(SolarPlant, 6), 0, 0, 1.0, EarlyDivisor(6)) == 1146
  {
    hide Pow, BuildTime;
    PowersOfThreeHalves();
    UnaidedTime(Cost(75, 30, 0), 0);
    UnaidedTime(BuildingLevelCost(SolarPlant, 1), 1);
    UnaidedTime(BuildingLevelCost(SolarPlant, 5), 5);
    UnaidedTime(BuildingLevelCost(SolarPlant, 6), 6);
    assert (75.0 * 5.0625).Floor == 379 && (30.0 * 5.0625).Floor == 151;
    assert (75.0 * 7.59375).Floor == 569 && (30.0 * 7.59375).Floor == 227;
  }

  /** A light fighter one system away: how long it flies, and what it burns. */
  lemma FlightFigures(root: real -> real)
    requires F.RootOf(root, 10.0 * 2795.0 / 12500.0)
    ensures F.FlightDuration(2795, 12500, 1, 100, root) == 5243
    ensures Fuel(map[LightFighter := 1], 2795, 100) == 6
  {
    hide F.FlightDuration;
    var d := F.FlightDuration(2795, 12500, 1, 100, root);
    F.FlightDurationLaw(2795, 12500, 1, 100, root);
    if d <= 5242 {
      F.Squares((d as real + 1.0 - 10.0) * 100.0, 523300.0);
    } else if d >= 5244 {
      F.Squares(523400.0, (d as real - 10.0) * 100.0);
    }
    LightFighterFuel();
  }

  lemma LightFighterFuel()
    ensures Fuel(map[LightFighter := 1], 2795, 100) == 6
  {
    hide ShipStats, FuelIn;
    var none: map<ShipType, int> := map[];
    U.ThirstAdds(none, LightFighter, 1);
    assert none[LightFighter := 1] == map[LightFighter := 1];
    U.FuelIs(map[LightFighter := 1], 2795, 100);
    FighterBill();
  }

  lemma FighterBill()
    ensures ShipStats(LightFighter).fuel == 20 && (20.0 * U.UnitBill(2795, 100)).Floor == 6
  {
  }

  /** A planet with four levels of a metal mine, no energy and 61.5 metal gets its first solar plant
      for 61; one without the mine pays 75, and the mine itself is not reduced. */
  lemma RescueFigures(env: Env, p: Planet, q: Planet)
    requires p.pools == q.pools == Res(61.5, 404.0, 0.0) && Level(p.buildings, SolarPlant) == 0
             && Level(q.buildings, SolarPlant) == 0
    requires env.report(p, map[]).energyProduced == 0 && env.report(p, map[]).energyConsumed == 59
    requires env.report(q, map[]).energyConsumed == 0
    ensures UpgradeCost(env, SolarPlant, 1, p, map[]).metal == 61
    ensures UpgradeCost(env, SolarPlant, 1, q, map[]).metal == 75
    ensures UpgradeCost(env, MetalMine, 5, p, map[]) == BuildingLevelCost(MetalMine, 5)
  {
    assert BuildingLevelCost(SolarPlant, 1) == Cost(75, 30, 0);
    assert (61.5).Floor == 61;
  }

  /** How many planets Astrophysics allows, and how far from the middle. */
  lemma AstrophysicsFigures()
    ensures MaxPlanets(0) == 1 && MaxPlanets(1) == 2 && MaxPlanets(2) == 2 && MaxPlanets(3) == 3 && MaxPlanets(8) == 5
    ensures forall position ::
              && (CanColonizePosition(3, position) <==> 4 <= position <= 12)
              && (CanColonizePosition(5, position) <==> 3 <= position <= 13)
              && (CanColonizePosition(7, position) <==> 2 <= position <= 14)
              && (CanColonizePosition(12, position) <==> 1 <= position <= 15)
  {
  }
}
