/** The hourly economy of one planet (internal/game/production.go). */
module Production {
  import opened Catalog
  import opened Formulas

  function LevelPower(level: nat): real { level as real * Pow(1.1, level) }

  function MetalMine(level: int, speed: real, bonus: real, plasma: int): real {
    if level <= 0 then 0.0 else 30.0 * LevelPower(level) * speed * (1.0 + plasma as real * 0.01) * (1.0 + bonus)
  }

  function CrystalMine(level: int, speed: real, bonus: real, plasma: int): real {
    if level <= 0 then 0.0 else 20.0 * LevelPower(level) * speed * (1.0 + plasma as real * 0.0066) * (1.0 + bonus)
  }

  function DeuteriumSynthesizer(level: int, avgTemp: int, speed: real, plasma: int): real {
    if level <= 0 then 0.0
    else 10.0 * LevelPower(level) * (1.36 - 0.004 * avgTemp as real) * speed * (1.0 + plasma as real * 0.0033)
  }

  function SolarPlantOutput(level: int): int {
    if level <= 0 then 0 else (20.0 * LevelPower(level)).Floor
  }

  function SolarSatelliteOutput(count: int, avgTemp: int): int {
    if count <= 0 then 0 else Max(0, (avgTemp + 160) / 6) * count
  }

  function FusionReactorOutput(level: int, energyTech: int): int {
    if level <= 0 then 0 else (30.0 * level as real * Pow(1.05 + energyTech as real * 0.01, level)).Floor
  }

  function FusionDeutConsumption(level: int, speed: real): int {
    if level <= 0 then 0 else Ceil(10.0 * speed * LevelPower(level))
  }

  function MineEnergy(coeff: int, level: int): int {
    if level <= 0 then 0 else Ceil(coeff as real * LevelPower(level))
  }

  function ActiveCrawlers(count: int, metal: int, crystal: int, deuterium: int): int {
    var limit := (metal + crystal + deuterium) * 8;
    if count <= 0 then 0 else if limit < 0 then 0 else if count > limit then limit else count
  }

  function CrawlerEnergy(active: int): int { if active <= 0 then 0 else active * 50 }

  function AvgTemp(tempMin: int, tempMax: int): int { (tempMin + tempMax) / 2 }

  datatype Rates = Rates(metal: real, crystal: real, deuterium: real) {
    predicate NonNegative() { metal >= 0.0 && crystal >= 0.0 && deuterium >= 0.0 }
    predicate AtMost(o: Rates) { metal <= o.metal && crystal <= o.crystal && deuterium <= o.deuterium }
  }

  datatype Report = Report(perHour: Rates, energyProduced: int, energyConsumed: int, factor: real)

  function EnergyConsumed(b: map<BuildingType, int>): int {
    var m, c, d := Level(b, BuildingType.MetalMine), Level(b, BuildingType.CrystalMine),
                   Level(b, BuildingType.DeuteriumSynthesizer);
    MineEnergy(10, m) + MineEnergy(10, c) + MineEnergy(20, d)
    + CrawlerEnergy(ActiveCrawlers(Level(b, Crawler), m, c, d))
  }

  function EnergyProduced(b: map<BuildingType, int>, techs: map<TechType, int>, avgTemp: int): int {
    SolarPlantOutput(Level(b, SolarPlant)) + SolarSatelliteOutput(Level(b, SolarSatellite), avgTemp)
    + FusionReactorOutput(Level(b, FusionReactor), Level(techs, Energy))
  }

  function Factor(produced: int, consumed: int): real {
    if consumed <= 0 then 1.0
    else if produced as real / consumed as real > 1.0 then 1.0
    else produced as real / consumed as real
  }

  /** Working crawlers add 0.02% each to what the mines deliver. */
  function Mined(raw: real, factor: real, crawlers: int): real {
    var net := raw * factor;
    var bonus := crawlers as real * 0.0002;
    if bonus > 0.0 then net * (1.0 + bonus) else net
  }

  function AtLeastZero(x: real): real { if x < 0.0 then 0.0 else x }

  datatype Site = Site(tempMin: int, tempMax: int, metalBonus: real, crystalBonus: real, speed: real)

  /** The mine output before energy, bonus and burn: what the factor scales. */
  function RawMines(b: map<BuildingType, int>, techs: map<TechType, int>, site: Site): Rates {
    var plasma := Level(techs, Plasma);
    Rates(MetalMine(Level(b, BuildingType.MetalMine), site.speed, site.metalBonus, plasma),
          CrystalMine(Level(b, BuildingType.CrystalMine), site.speed, site.crystalBonus, plasma),
          DeuteriumSynthesizer(Level(b, BuildingType.DeuteriumSynthesizer), AvgTemp(site.tempMin, site.tempMax),
                               site.speed, plasma))
  }

  function Crawlers(b: map<BuildingType, int>): int {
    ActiveCrawlers(Level(b, Crawler), Level(b, BuildingType.MetalMine), Level(b, BuildingType.CrystalMine),
                   Level(b, BuildingType.DeuteriumSynthesizer))
  }

  function PerHour(raw: Rates, factor: real, crawlers: int, burn: int, speed: real): (r: Rates)
    ensures r.NonNegative()
  {
    Rates(AtLeastZero(30.0 * speed + Mined(raw.metal, factor, crawlers)),
          AtLeastZero(15.0 * speed + Mined(raw.crystal, factor, crawlers)),
          AtLeastZero(0.0 + Mined(raw.deuterium, factor, crawlers) - burn as real))
  }

  function ComputePlanetProduction(b: map<BuildingType, int>, techs: map<TechType, int>, site: Site): (r: Report)
    ensures r.perHour.NonNegative()
  {
    var consumed := EnergyConsumed(b);
    var produced := EnergyProduced(b, techs, AvgTemp(site.tempMin, site.tempMax));
    var factor := Factor(produced, consumed);
    Report(PerHour(RawMines(b, techs, site), factor, Crawlers(b),
                   FusionDeutConsumption(Level(b, FusionReactor), site.speed), site.speed),
           produced, consumed, factor)
  }

  // ---- properties ----------------------------------------------------------------

  ghost predicate NonNegativeLevels<K>(m: map<K, int>) { forall k :: k in m ==> m[k] >= 0 }

  ghost predicate Habitable(site: Site) {
    site.speed >= 0.0 && site.metalBonus >= 0.0 && site.crystalBonus >= 0.0
    && AvgTemp(site.tempMin, site.tempMax) <= 340
  }

  lemma Product(a: real, b: real)
    requires a >= 0.0 && b >= 0.0
    ensures a * b >= 0.0
  {
  }

  lemma LevelPowerMonotone(m: nat, n: nat)
    requires m <= n
    ensures 0.0 <= LevelPower(m) <= LevelPower(n)
  {
    PowMonotone(1.1, m, n);
    PowAtLeastOne(1.1, m);
    ScaledMonotone(m as real, Pow(1.1, m), Pow(1.1, n));
    ScaledMonotone(Pow(1.1, n), m as real, n as real);
    Product(m as real, Pow(1.1, m));
  }

  lemma MineEnergyNonNegative(coeff: nat, level: int)
    ensures MineEnergy(coeff, level) >= 0
  {
    if level > 0 {
      LevelPowerMonotone(0, level);
      Product(coeff as real, LevelPower(level));
    }
  }

  lemma EnergyNonNegative(b: map<BuildingType, int>, techs: map<TechType, int>, avgTemp: int)
    requires NonNegativeLevels(techs)
    ensures EnergyConsumed(b) >= 0 && EnergyProduced(b, techs, avgTemp) >= 0
  {
    MineEnergyNonNegative(10, Level(b, BuildingType.MetalMine));
    MineEnergyNonNegative(10, Level(b, BuildingType.CrystalMine));
    MineEnergyNonNegative(20, Level(b, BuildingType.DeuteriumSynthesizer));
    var solar := Level(b, SolarPlant);
    if solar > 0 {
      LevelPowerMonotone(0, solar);
    }
    var sats := Level(b, SolarSatellite);
    if sats > 0 {
      assert Max(0, (avgTemp + 160) / 6) * sats >= 0;
    }
    var fusion, tech := Level(b, FusionReactor), Level(techs, Energy);
    if fusion > 0 {
      PowAtLeastOne(1.05 + tech as real * 0.01, fusion);
      Product(30.0 * fusion as real, Pow(1.05 + tech as real * 0.01, fusion));
    }
  }

  /** The share of full output that the energy balance allows. */
  lemma FactorIsAShare(b: map<BuildingType, int>, techs: map<TechType, int>, site: Site)
    requires NonNegativeLevels(techs)
    ensures var r := ComputePlanetProduction(b, techs, site);
            0.0 <= r.factor <= 1.0 && (r.factor == 1.0 <==> r.energyProduced >= r.energyConsumed)
  {
    EnergyNonNegative(b, techs, AvgTemp(site.tempMin, site.tempMax));
    var r := ComputePlanetProduction(b, techs, site);
    FactorBounds(r.energyProduced, r.energyConsumed);
  }

  lemma FactorBounds(produced: int, consumed: int)
    requires produced >= 0 && consumed >= 0
    ensures 0.0 <= Factor(produced, consumed) <= 1.0
    ensures Factor(produced, consumed) == 1.0 <==> produced >= consumed
  {
    if consumed > 0 {
      var q := produced as real / consumed as real;
      assert q * consumed as real == produced as real;
      if produced >= consumed {
        assert q >= 1.0;
      } else {
        assert q < 1.0;
      }
    }
  }

  lemma FactorMonotone(produced: int, more: int, consumed: int)
    requires produced <= more
    ensures Factor(produced, consumed) <= Factor(more, consumed)
  {
    if consumed > 0 {
      ScaledMonotone(1.0 / consumed as real, produced as real, more as real);
      assert produced as real / consumed as real == (1.0 / consumed as real) * produced as real;
      assert more as real / consumed as real == (1.0 / consumed as real) * more as real;
    }
  }

  lemma RawMinesNonNegative(b: map<BuildingType, int>, techs: map<TechType, int>, site: Site)
    requires NonNegativeLevels(techs) && Habitable(site)
    ensures RawMines(b, techs, site).NonNegative()
  {
    var plasma := Level(techs, Plasma);
    var m, c, d := Level(b, BuildingType.MetalMine), Level(b, BuildingType.CrystalMine),
                   Level(b, BuildingType.DeuteriumSynthesizer);
    if m > 0 {
      LevelPowerMonotone(0, m);
      Chain(30.0 * LevelPower(m), site.speed, 1.0 + plasma as real * 0.01, 1.0 + site.metalBonus);
    }
    if c > 0 {
      LevelPowerMonotone(0, c);
      Chain(20.0 * LevelPower(c), site.speed, 1.0 + plasma as real * 0.0066, 1.0 + site.crystalBonus);
    }
    if d > 0 {
      LevelPowerMonotone(0, d);
      Chain(10.0 * LevelPower(d), 1.36 - 0.004 * AvgTemp(site.tempMin, site.tempMax) as real, site.speed,
            1.0 + plasma as real * 0.0033);
    }
  }

  lemma Chain(a: real, b: real, c: real, d: real)
    requires a >= 0.0 && b >= 0.0 && c >= 0.0 && d >= 0.0
    ensures a * b * c * d >= 0.0
  {
    Product(a, b);
    Product(a * b, c);
    Product(a * b * c, d);
  }

  lemma MinedMonotone(raw: real, f: real, g: real, crawlers: int)
    requires raw >= 0.0 && f <= g && crawlers >= 0
    ensures Mined(raw, f, crawlers) <= Mined(raw, g, crawlers)
  {
    ScaledMonotone(raw, f, g);
    ScaledMonotone(1.0 + crawlers as real * 0.0002, raw * f, raw * g);
    assert (raw * f) * (1.0 + crawlers as real * 0.0002) == (1.0 + crawlers as real * 0.0002) * (raw * f);
    assert (raw * g) * (1.0 + crawlers as real * 0.0002) == (1.0 + crawlers as real * 0.0002) * (raw * g);
  }

  /** A higher solar plant never lowers any of the three rates: more energy, a higher
      factor, more from every mine. */
  lemma SolarNeverHurts(b: map<BuildingType, int>, techs: map<TechType, int>, site: Site, level: int)
    requires NonNegativeLevels(techs) && Habitable(site) && Level(b, SolarPlant) <= level
    ensures ComputePlanetProduction(b, techs, site).perHour.AtMost(
              ComputePlanetProduction(b[SolarPlant := level], techs, site).perHour)
  {
    var b' := b[SolarPlant := level];
    var avg := AvgTemp(site.tempMin, site.tempMax);
    SolarMonotone(Level(b, SolarPlant), level);
    assert EnergyConsumed(b') == EnergyConsumed(b);
    assert EnergyProduced(b, techs, avg) <= EnergyProduced(b', techs, avg);
    FactorMonotone(EnergyProduced(b, techs, avg), EnergyProduced(b', techs, avg), EnergyConsumed(b));
    RawMinesNonNegative(b, techs, site);
    var raw, crawlers := RawMines(b, techs, site), Crawlers(b);
    assert RawMines(b', techs, site) == raw && Crawlers(b') == crawlers;
    var f := Factor(EnergyProduced(b, techs, avg), EnergyConsumed(b));
    var g := Factor(EnergyProduced(b', techs, avg), EnergyConsumed(b));
    MinedMonotone(raw.metal, f, g, crawlers);
    MinedMonotone(raw.crystal, f, g, crawlers);
    MinedMonotone(raw.deuterium, f, g, crawlers);
  }

  lemma SolarMonotone(low: int, high: int)
    requires low <= high
    ensures SolarPlantOutput(low) <= SolarPlantOutput(high)
  {
    if low > 0 {
      LevelPowerMonotone(low, high);
    } else if high > 0 {
      LevelPowerMonotone(0, high);
    }
  }

  // ---- a mine that starves another -------------------------------------------------------

  lemma FirstPowers()
    ensures LevelPower(1) == 1.1 && LevelPower(2) == 2.42
  {
    assert Pow(1.1, 1) == 1.1 * Pow(1.1, 0);
    assert Pow(1.1, 2) == 1.1 * Pow(1.1, 1);
  }

  lemma FirstMines()
    ensures MineEnergy(10, 1) == 11 && MineEnergy(10, 2) == 25 && SolarPlantOutput(1) == 22
  {
    FirstPowers();
    assert Ceil(10.0 * 1.1) == 11 && Ceil(10.0 * 2.42) == 25;
  }

  /** A second metal mine level outgrows the one solar plant, and the crystal rate falls from
      37 an hour by more than eight. */
  lemma MineCanStarveCrystal(site: Site)
    requires site.speed == 1.0 && site.metalBonus == 0.0 && site.crystalBonus == 0.0
    ensures var b := map[BuildingType.MetalMine := 1, BuildingType.CrystalMine := 1, SolarPlant := 1];
            && ComputePlanetProduction(b, map[], site).perHour.crystal == 37.0
            && ComputePlanetProduction(b[BuildingType.MetalMine := 2], map[], site).perHour.crystal < 29.0
  {
    hide Pow, LevelPower, MineEnergy, SolarPlantOutput;
    FirstPowers();
    FirstMines();
    var b := map[BuildingType.MetalMine := 1, BuildingType.CrystalMine := 1, SolarPlant := 1];
    var b2 := b[BuildingType.MetalMine := 2];
    NoOtherEnergy(b, site);
    NoOtherEnergy(b2, site);
    assert Factor(22, 22) == 1.0;
    assert Factor(22, 36) == 22.0 / 36.0;
    assert CrystalMine(1, 1.0, 0.0, 0) == 22.0;
    assert Mined(22.0, 1.0, 0) == 22.0;
    assert Mined(22.0, 22.0 / 36.0, 0) < 14.0;
  }

  lemma NoOtherEnergy(b: map<BuildingType, int>, site: Site)
    requires b.Keys == {BuildingType.MetalMine, BuildingType.CrystalMine, SolarPlant}
    ensures EnergyConsumed(b) == MineEnergy(10, b[BuildingType.MetalMine]) + MineEnergy(10, b[BuildingType.CrystalMine])
    ensures EnergyProduced(b, map[], AvgTemp(site.tempMin, site.tempMax)) == SolarPlantOutput(b[SolarPlant])
    ensures Crawlers(b) == 0
            && RawMines(b, map[], site).crystal
               == CrystalMine(b[BuildingType.CrystalMine], site.speed, site.crystalBonus, 0)
  {
    hide SolarPlantOutput, CrystalMine, MetalMine;
    assert MineEnergy(20, 0) == 0;
  }
}
