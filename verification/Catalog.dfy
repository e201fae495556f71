/** The constant tables of internal/game/constants.go.  Growth factors are exact rationals. */
module Catalog {
  datatype BuildingType =
    | MetalMine | CrystalMine | DeuteriumSynthesizer | SolarPlant | FusionReactor
    | SolarSatellite | Crawler | MetalStorage | CrystalStorage | DeuteriumTank
    | RoboticsFactory | Shipyard | ResearchLab | AllianceDepot | MissileSilo
    | NaniteFactory | Terraformer

  datatype TechType =
    | Energy | Laser | Ion | Hyperspace | Plasma
    | Computer | Astrophysics | Espionage | CombustionDrive | ImpulseDrive
    | HyperspaceDrive | Weapons | Shielding | Armour

  datatype ShipType =
    | SmallCargo | LargeCargo | LightFighter | HeavyFighter | Cruiser
    | Battleship | ColonyShip | Recycler | EspionageProbe | Bomber
    | Destroyer | Battlecruiser

  datatype DefenseType =
    | RocketLauncher | LightLaser | HeavyLaser | GaussCannon
    | IonCannon | PlasmaTurret | SmallShieldDome | LargeShieldDome

  /** Amounts of metal, crystal and deuterium in whole units. */
  datatype Cost = Cost(metal: int, crystal: int, deuterium: int) {
    predicate NonNegative() { metal >= 0 && crystal >= 0 && deuterium >= 0 }
    function Sum(): int { metal + crystal + deuterium }
    function Times(n: int): Cost { Cost(metal * n, crystal * n, deuterium * n) }
  }

  const BUILD_QUEUE_MAX_ACTIVE: int := 5
  const MAX_UNIT_BATCH: int := 1_000_000

  datatype Growth = Growth(base: Cost, factor: real)

  function BuildingCosts(x: BuildingType): Growth {
    match x
    case MetalMine => Growth(Cost(60, 15, 0), 1.5)
    case CrystalMine => Growth(Cost(48, 24, 0), 1.6)
    case DeuteriumSynthesizer => Growth(Cost(225, 75, 0), 1.5)
    case SolarPlant => Growth(Cost(75, 30, 0), 1.5)
    case FusionReactor => Growth(Cost(900, 360, 180), 1.8)
    case SolarSatellite => Growth(Cost(0, 2000, 500), 1.0)
    case Crawler => Growth(Cost(2000, 2000, 1000), 1.0)
    case RoboticsFactory => Growth(Cost(400, 120, 200), 2.0)
    case Shipyard => Growth(Cost(400, 200, 100), 2.0)
    case ResearchLab => Growth(Cost(200, 400, 200), 2.0)
    case MetalStorage => Growth(Cost(1000, 0, 0), 2.0)
    case CrystalStorage => Growth(Cost(1000, 500, 0), 2.0)
    case DeuteriumTank => Growth(Cost(1000, 1000, 0), 2.0)
    case NaniteFactory => Growth(Cost(1_000_000, 500_000, 100_000), 2.0)
    case MissileSilo => Growth(Cost(20_000, 20_000, 1_000), 2.0)
    case AllianceDepot => Growth(Cost(20_000, 40_000, 0), 2.0)
    case Terraformer => Growth(Cost(0, 50_000, 100_000), 2.0)
  }

  function ResearchCosts(x: TechType): Growth {
    match x
    case Energy => Growth(Cost(0, 800, 400), 2.0)
    case Laser => Growth(Cost(200, 100, 0), 2.0)
    case Ion => Growth(Cost(1000, 300, 100), 2.0)
    case Hyperspace => Growth(Cost(0, 4000, 2000), 2.0)
    case Plasma => Growth(Cost(2000, 4000, 1000), 2.0)
    case Computer => Growth(Cost(0, 400, 600), 2.0)
    case Astrophysics => Growth(Cost(4000, 8000, 4000), 1.75)
    case Espionage => Growth(Cost(200, 1000, 200), 2.0)
    case CombustionDrive => Growth(Cost(400, 0, 600), 2.0)
    case ImpulseDrive => Growth(Cost(2000, 4000, 600), 2.0)
    case HyperspaceDrive => Growth(Cost(10000, 20000, 6000), 2.0)
    case Weapons => Growth(Cost(800, 200, 0), 2.0)
    case Shielding => Growth(Cost(200, 600, 0), 2.0)
    case Armour => Growth(Cost(1000, 0, 0), 2.0)
  }

  datatype ShipStat = ShipStat(cost: Cost, armor: nat, shield: nat, weapon: nat, speed: nat, cargo: nat, fuel: nat)

  function ShipStats(x: ShipType): ShipStat {
    match x
    case SmallCargo => ShipStat(Cost(2000, 2000, 0), 4000, 10, 5, 5000, 5000, 10)
    case LargeCargo => ShipStat(Cost(6000, 6000, 0), 12000, 25, 5, 7500, 25000, 50)
    case LightFighter => ShipStat(Cost(3000, 1000, 0), 4000, 10, 50, 12500, 50, 20)
    case HeavyFighter => ShipStat(Cost(6000, 4000, 0), 10000, 25, 150, 10000, 100, 75)
    case Cruiser => ShipStat(Cost(20000, 7000, 2000), 27000, 50, 400, 15000, 800, 300)
    case Battleship => ShipStat(Cost(45000, 15000, 0), 60000, 200, 1000, 10000, 1500, 500)
    case ColonyShip => ShipStat(Cost(10000, 20000, 10000), 30000, 100, 50, 2500, 7500, 1000)
    case Recycler => ShipStat(Cost(10000, 6000, 2000), 16000, 10, 1, 2000, 20000, 300)
    case EspionageProbe => ShipStat(Cost(0, 1000, 0), 1000, 0, 0, 100_000_000, 5, 1)
    case Bomber => ShipStat(Cost(50000, 25000, 15000), 75000, 500, 1000, 4000, 500, 700)
    case Destroyer => ShipStat(Cost(60000, 50000, 15000), 110000, 500, 2000, 5000, 2000, 1000)
    case Battlecruiser => ShipStat(Cost(30000, 40000, 15000), 70000, 400, 700, 10000, 750, 250)
  }

  /** The drive that speeds a hull up. */
  function Drive(x: ShipType): TechType {
    match x
    case SmallCargo | LargeCargo | LightFighter | Recycler | EspionageProbe => CombustionDrive
    case HeavyFighter | Cruiser | ColonyShip | Bomber => ImpulseDrive
    case Battleship | Destroyer | Battlecruiser => HyperspaceDrive
  }

  datatype DefenseStat = DefenseStat(cost: Cost, armor: nat, shield: nat, weapon: nat)

  function DefenseStats(x: DefenseType): DefenseStat {
    match x
    case RocketLauncher => DefenseStat(Cost(2000, 0, 0), 2000, 20, 80)
    case LightLaser => DefenseStat(Cost(1500, 500, 0), 2000, 25, 100)
    case HeavyLaser => DefenseStat(Cost(6000, 2000, 0), 8000, 100, 250)
    case GaussCannon => DefenseStat(Cost(20000, 15000, 2000), 35000, 200, 1100)
    case IonCannon => DefenseStat(Cost(5000, 3000, 0), 8000, 500, 150)
    case PlasmaTurret => DefenseStat(Cost(50000, 50000, 30000), 100000, 300, 3000)
    case SmallShieldDome => DefenseStat(Cost(10000, 10000, 0), 20000, 2000, 1)
    case LargeShieldDome => DefenseStat(Cost(50000, 50000, 0), 100000, 10000, 1)
  }

  /** One prerequisite line: a building, a technology, the account-wide laboratory or the shipyard
      at a minimum level. */
  datatype Prereq =
    | NeedsBuilding(building: BuildingType, level: nat)
    | NeedsTech(tech: TechType, level: nat)
    | NeedsLab(level: nat)
    | NeedsShipyard(level: nat)

  function BuildingPrerequisites(x: BuildingType): seq<Prereq> {
    match x
    case FusionReactor => [NeedsBuilding(DeuteriumSynthesizer, 5), NeedsTech(Energy, 3)]
    case Shipyard => [NeedsBuilding(RoboticsFactory, 2)]
    case MissileSilo => [NeedsBuilding(Shipyard, 1)]
    case NaniteFactory => [NeedsBuilding(RoboticsFactory, 10), NeedsTech(Computer, 10)]
    case Terraformer => [NeedsBuilding(NaniteFactory, 1), NeedsTech(Energy, 12)]
    case _ => []
  }

  function TechPrerequisites(x: TechType): seq<Prereq> {
    match x
    case Energy => [NeedsLab(1)]
    case Laser => [NeedsLab(1), NeedsTech(Energy, 2)]
    case Ion => [NeedsLab(4), NeedsTech(Energy, 4), NeedsTech(Laser, 5)]
    case Hyperspace => [NeedsLab(7), NeedsTech(Energy, 5), NeedsTech(Shielding, 5)]
    case Plasma => [NeedsLab(4), NeedsTech(Energy, 8), NeedsTech(Laser, 10), NeedsTech(Ion, 5)]
    case Computer => [NeedsLab(1)]
    case Astrophysics => [NeedsLab(3), NeedsTech(Espionage, 4)]
    case Espionage => [NeedsLab(3)]
    case CombustionDrive => [NeedsLab(1), NeedsTech(Energy, 1)]
    case ImpulseDrive => [NeedsLab(2), NeedsTech(Energy, 1)]
    case HyperspaceDrive => [NeedsLab(7), NeedsTech(Energy, 5), NeedsTech(Shielding, 5), NeedsTech(Hyperspace, 3)]
    case Weapons => [NeedsLab(4)]
    case Shielding => [NeedsLab(6), NeedsTech(Energy, 3)]
    case Armour => [NeedsLab(2)]
  }

  function ShipPrerequisites(x: ShipType): seq<Prereq> {
    match x
    case SmallCargo => [NeedsShipyard(2), NeedsTech(CombustionDrive, 2)]
    case LargeCargo => [NeedsShipyard(4), NeedsTech(CombustionDrive, 6)]
    case LightFighter => [NeedsShipyard(1), NeedsTech(CombustionDrive, 1)]
    case HeavyFighter => [NeedsShipyard(3), NeedsTech(Armour, 2), NeedsTech(ImpulseDrive, 2)]
    case Cruiser => [NeedsShipyard(5), NeedsTech(ImpulseDrive, 4), NeedsTech(Ion, 2)]
    case Battleship => [NeedsShipyard(7), NeedsTech(HyperspaceDrive, 4)]
    case ColonyShip => [NeedsShipyard(4), NeedsTech(ImpulseDrive, 3)]
    case Recycler => [NeedsShipyard(4), NeedsTech(CombustionDrive, 6), NeedsTech(Shielding, 2)]
    case EspionageProbe => [NeedsShipyard(3), NeedsTech(CombustionDrive, 3), NeedsTech(Espionage, 2)]
    case Bomber => [NeedsShipyard(8), NeedsTech(ImpulseDrive, 6), NeedsTech(Plasma, 5)]
    case Destroyer => [NeedsShipyard(9), NeedsTech(HyperspaceDrive, 6), NeedsTech(Hyperspace, 5)]
    case Battlecruiser => [NeedsShipyard(8), NeedsTech(HyperspaceDrive, 5), NeedsTech(Laser, 12),
                           NeedsTech(Hyperspace, 5)]
  }

  function DefensePrerequisites(x: DefenseType): seq<Prereq> {
    match x
    case RocketLauncher => [NeedsShipyard(1)]
    case LightLaser => [NeedsShipyard(2), NeedsTech(Energy, 1), NeedsTech(Laser, 3)]
    case HeavyLaser => [NeedsShipyard(4), NeedsTech(Energy, 3), NeedsTech(Laser, 6)]
    case GaussCannon => [NeedsShipyard(6), NeedsTech(Weapons, 3), NeedsTech(Shielding, 1), NeedsTech(Energy, 6)]
    case IonCannon => [NeedsShipyard(4), NeedsTech(Ion, 4)]
    case PlasmaTurret => [NeedsShipyard(8), NeedsTech(Plasma, 7)]
    case SmallShieldDome => [NeedsShipyard(1), NeedsTech(Shielding, 2)]
    case LargeShieldDome => [NeedsShipyard(6), NeedsTech(Shielding, 6)]
  }
}
