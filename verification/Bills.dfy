/** What an order costs, how long it takes and when it is accepted, from the tables alone: the row
    that joins the queue, and the prices of all rows over whole runs. */
module Bills {
  import opened Wrappers
  import opened Catalog
  import opened Sums
  import opened Formulas
  import opened World
  import E = Effects
  import L = Ledger
  import Q = QueueSafety
  import T = TechTree

  // ---- time ------------------------------------------------------------------------------------

  /** The whole seconds that work worth `amount` takes at `rate` an hour; what takes less takes one. */
  ghost predicate Lasts(seconds: int, amount: int, rate: real) {
    && seconds >= 1 && 3600.0 * amount as real < (seconds as real + 1.0) * rate
    && (seconds == 1 || seconds as real * rate <= 3600.0 * amount as real)
  }

  /** The row lasts `n` times the whole seconds of one such piece of work. */
  ghost predicate TakesTime(i: Item, n: int, amount: int, rate: real) {
    exists u :: Lasts(u, amount, rate) && i.finished == i.started + (n * u) as real
  }

  /** Robots add, nanites double. */
  function YardRate(p: Planet, speed: real): real {
    2500.0 * (1.0 + Max(0, Level(p.buildings, RoboticsFactory)) as real)
    * speed * Pow(2.0, Max(0, Level(p.buildings, NaniteFactory)))
  }

  /** The first five levels go faster: three and a half times, three times, and so on. */
  function Early(target: int): real { if 1 <= target <= 5 then (8 - target) as real / 2.0 else 1.0 }

  function UpgradeRate(p: Planet, speed: real, target: int): real { YardRate(p, speed) * Early(target) }

  function LabRate(lab: int, speed: real): real { 1000.0 * speed * (1.0 + Max(0, lab) as real) }

  lemma LastsIs(amount: int, rate: real)
    requires rate > 0.0
    ensures Lasts(AtLeastOneSecond(amount as real / rate), amount, rate)
  {
    var hours := amount as real / rate;
    assert hours * rate == amount as real;
    Whole(3600.0 * amount as real, hours * 3600.0, rate);
  }

  /** There is only one such number, and a better rate or less work never raises it. */
  lemma LastsFalls(seconds: int, amount: int, rate: real, other: int, less: int, faster: real)
    requires Lasts(seconds, amount, rate) && Lasts(other, less, faster) && less <= amount && 0.0 < rate <= faster
    ensures other <= seconds
  {
    if other > seconds {
      ScaledMonotone(rate, seconds as real + 1.0, other as real);
      ScaledMonotone(other as real, rate, faster);
      calc {
        3600.0 * amount as real;
        < rate * (seconds as real + 1.0);
        <= rate * other as real;
        == other as real * rate;
        <= other as real * faster;
        <= 3600.0 * less as real;
      }
    }
  }

  lemma SameDivisor(target: int)
    ensures EarlyDivisor(target) == Early(target)
  {
  }

  lemma SameRate(p: Planet, speed: real, divisor: real)
    requires speed > 0.0 && divisor > 0.0
    ensures BuildRate(Max(0, Level(p.buildings, RoboticsFactory)), Max(0, Level(p.buildings, NaniteFactory)), speed,
                      divisor)
            == YardRate(p, speed) * divisor > 0.0
  {
    hide Pow;
  }

  lemma YardTime(p: Planet, cost: Cost, speed: real, target: int)
    requires speed > 0.0
    ensures YardRate(p, speed) > 0.0
    ensures var robots, nanites := Max(0, Level(p.buildings, RoboticsFactory)),
                                   Max(0, Level(p.buildings, NaniteFactory));
            && Lasts(BuildTime(cost, robots, nanites, speed, 1.0), cost.metal + cost.crystal, YardRate(p, speed))
            && Lasts(BuildTime(cost, robots, nanites, speed, EarlyDivisor(target)), cost.metal + cost.crystal,
                     UpgradeRate(p, speed, target))
  {
    hide Lasts, Pow, AtLeastOneSecond, YardRate, BuildRate, EarlyDivisor;
    var robots, nanites := Max(0, Level(p.buildings, RoboticsFactory)), Max(0, Level(p.buildings, NaniteFactory));
    LastsIs(cost.metal + cost.crystal, BuildRate(robots, nanites, speed, 1.0));
    LastsIs(cost.metal + cost.crystal, BuildRate(robots, nanites, speed, EarlyDivisor(target)));
    SameDivisor(target);
    SameRate(p, speed, 1.0);
    SameRate(p, speed, Early(target));
    assert YardRate(p, speed) * 1.0 == YardRate(p, speed);
    assert BuildRate(robots, nanites, speed, EarlyDivisor(target)) == YardRate(p, speed) * Early(target);
  }

  lemma LabTime(cost: Cost, lab: int, speed: real)
    requires speed > 0.0
    ensures Lasts(ResearchTime(cost, Max(0, lab), speed), cost.metal + cost.crystal, LabRate(lab, speed))
  {
    hide Lasts, AtLeastOneSecond;
    assert LabRate(lab, speed) > 0.0;
    LastsIs(cost.metal + cost.crystal, LabRate(lab, speed));
  }

  // ---- prices ------------------------------------------------------------------------------------

  /** The price of a level: the base for the first, and each further one dearer by the factor. */
  function Tariff(g: Growth, target: int): Cost {
    if target < 1 then Cost(0, 0, 0)
    else
      var growth := Pow(g.factor, target - 1);
      Cost((g.base.metal as real * growth).Floor, (g.base.crystal as real * growth).Floor,
           (g.base.deuterium as real * growth).Floor)
  }

  /** What one unit costs. */
  function Price(key: ItemKey): Cost {
    match key
    case Hulls(t) => ShipStats(t).cost
    case Turrets(t) => DefenseStats(t).cost
    case _ => Cost(0, 0, 0)
  }

  ghost predicate CostsTimes(cost: Cost, n: int, unit: Cost) {
    cost.metal == n * unit.metal && cost.crystal == n * unit.crystal && cost.deuterium == n * unit.deuterium
  }

  /** What a row of the queue costs, by what it is for. */
  ghost predicate Priced(i: Item) {
    match i.key
    case Hulls(_) => i.count >= 1 && CostsTimes(i.cost, i.count, Price(i.key))
    case Turrets(_) => i.count >= 1 && CostsTimes(i.cost, i.count, Price(i.key))
    case Study(t) => i.cost == Tariff(ResearchCosts(t), i.target)
    case Build(b) =>
      var full := Tariff(BuildingCosts(b), i.target);
      && 0 <= i.cost.metal <= full.metal && i.cost.crystal == full.crystal && i.cost.deuterium == full.deuterium
      && (i.cost.metal < full.metal ==> b == SolarPlant && i.target == 1)
  }

  lemma TariffIs(g: Growth, target: int)
    ensures LevelCost(g, target) == Tariff(g, target)
  {
  }

  // ---- who may order ---------------------------------------------------------------------------------

  /** The rows that wait or are worked on at a planet. */
  function OpenOn(queue: seq<Item>, pid: int): set<int> {
    set k | 0 <= k < |queue| && queue[k].planet == pid && !queue[k].cancelled && !queue[k].applied
  }

  predicate Studying(queue: seq<Item>, user: int) {
    exists k :: 0 <= k < |queue| && queue[k].user == user && queue[k].key.Study?
                && !queue[k].cancelled && !queue[k].applied
  }

  ghost predicate OwnLab(s: State, user: int, level: int) {
    exists k :: s.HasPlanet(k) && s.PlanetAt(k).owner == user && Level(s.PlanetAt(k).buildings, ResearchLab) == level
  }

  /** The highest laboratory of the account; none counts as level zero. */
  ghost predicate IsBestLab(s: State, user: int, lab: int) {
    && lab >= 0 && (lab == 0 || OwnLab(s, user, lab))
    && forall level :: OwnLab(s, user, level) ==> level <= lab
  }

  /** What a line of the tech tree asks of a planet and its owner. */
  ghost predicate Has(s: State, p: Planet, r: Prereq) {
    match r
    case NeedsBuilding(b, level) => Level(p.buildings, b) >= level
    case NeedsShipyard(level) => Level(p.buildings, Shipyard) >= level
    case NeedsTech(t, level) => Level(s.TechsOf(p.owner), t) >= level
    case NeedsLab(level) => level <= 0 || exists lab :: lab >= level && OwnLab(s, p.owner, lab)
  }

  ghost predicate HasAll(s: State, p: Planet, reqs: seq<Prereq>) { forall r :: r in reqs ==> Has(s, p, r) }

  predicate Covers(pools: Res, cost: Cost) {
    pools.metal.Floor >= cost.metal && pools.crystal.Floor >= cost.crystal && pools.deuterium.Floor >= cost.deuterium
  }

  lemma SlotsAre(queue: seq<Item>, pid: int)
    ensures Sum(queue, ActiveOn(pid)) == |OpenOn(queue, pid)|
  {
    SumCounts(queue, ActiveOn(pid), OpenOn(queue, pid));
  }

  lemma StudyingIff(queue: seq<Item>, user: int)
    ensures Sum(queue, ActiveResearch(user)) > 0 <==> Studying(queue, user)
  {
    SumNonNegative(queue, ActiveResearch(user));
    if !Studying(queue, user) {
      forall i | i in queue ensures ActiveResearch(user)(i) == 0 {
        var k :| 0 <= k < |queue| && queue[k] == i;
      }
      SumZero(queue, ActiveResearch(user));
    } else {
      var k :| 0 <= k < |queue| && queue[k].user == user && queue[k].key.Study?
               && !queue[k].cancelled && !queue[k].applied;
      assert ActiveResearch(user)(queue[k]) == 1;
    }
  }

  /** The tables of buildings and units never ask for the account's laboratory, and those of
      technologies for nothing else on a planet. */
  lemma TablesAsk(b: BuildingType, key: ItemKey, t: TechType)
    ensures forall r :: r in BuildingPrerequisites(b) ==> !r.NeedsLab?
    ensures forall r :: r in UnitPrereqs(key) ==> !r.NeedsLab?
    ensures forall r :: r in TechPrerequisites(t) ==> r.NeedsLab? || r.NeedsTech?
  {
  }

  lemma MetOnPlanet(s: State, p: Planet, reqs: seq<Prereq>)
    requires forall r :: r in reqs ==> !r.NeedsLab?
    ensures Meets(reqs, p.buildings, s.TechsOf(p.owner), 0) <==> HasAll(s, p, reqs)
  {
    forall r | r in reqs ensures Satisfied(r, p.buildings, s.TechsOf(p.owner), 0) <==> Has(s, p, r) {
    }
  }

  lemma BestLab(s: State, user: int)
    ensures IsBestLab(s, user, LabOf(s.planets, user))
  {
    T.LabIsBest(s.planets, user);
    var lab := LabOf(s.planets, user);
    if lab > 0 {
      var k :| 0 <= k < |s.planets| && s.planets[k].Some? && s.planets[k].value.owner == user
               && Level(s.planets[k].value.buildings, ResearchLab) == lab;
      assert s.HasPlanet(k);
    }
  }

  lemma MetInAccount(s: State, p: Planet, reqs: seq<Prereq>, lab: int)
    requires IsBestLab(s, p.owner, lab) && forall r :: r in reqs ==> r.NeedsLab? || r.NeedsTech?
    ensures Meets(reqs, map[], s.TechsOf(p.owner), lab) <==> HasAll(s, p, reqs)
  {
    hide OwnLab;
    forall r | r in reqs ensures Satisfied(r, map[], s.TechsOf(p.owner), lab) <==> Has(s, p, r) {
    }
  }

  // ---- the row that joins --------------------------------------------------------------------------

  /** The refreshed planet pays the price of the row, the row joins the queue, and nothing else
      happens. */
  ghost predicate Booked(s: State, t: State, p: Planet, i: Item, c: Clock)
    requires s.HasPlanet(i.planet)
  {
    && t == s.(planets := s.planets[i.planet := Some(
                   p.(pools := Res(p.pools.metal - i.cost.metal as real, p.pools.crystal - i.cost.crystal as real,
                                   p.pools.deuterium - i.cost.deuterium as real), cursor := c.write))],
               queue := s.queue + [i], clock := c.write)
    && !i.cancelled && !i.applied && i.user == s.PlanetAt(i.planet).owner
  }

  /** Work begins when all that is open on the planet is done, or at once. */
  ghost predicate BehindAll(queue: seq<Item>, pid: int, start: real, now: real) {
    && start >= now && (forall k :: k in OpenOn(queue, pid) ==> queue[k].finished <= start)
    && (start == now || exists k :: k in OpenOn(queue, pid) && queue[k].finished == start)
  }

  lemma {:induction false} StartsBehind(queue: seq<Item>, pid: int, now: real)
    ensures BehindAll(queue, pid, StartTime(queue, pid, now), now)
  {
    if queue != [] {
      var n := |queue| - 1;
      StartsBehind(queue[..n], pid, now);
      var start := StartTime(queue[..n], pid, now);
      forall k | k in OpenOn(queue, pid) ensures queue[k].finished <= StartTime(queue, pid, now) {
        if k < n { assert k in OpenOn(queue[..n], pid); }
      }
      if StartTime(queue, pid, now) == start && start != now {
        var k :| k in OpenOn(queue[..n], pid) && queue[..n][k].finished == start;
        assert k in OpenOn(queue, pid) && queue[k].finished == start;
      } else if start != StartTime(queue, pid, now) {
        assert n in OpenOn(queue, pid);
      }
    }
  }

  // ---- batches of ships and defenses -------------------------------------------------------------------

  ghost predicate MayOrderUnits(env: Env, s: State, a: Step)
    requires a.OrderUnits? && s.HasPlanet(a.pid)
  {
    var p := RefreshedAt(env, s, a.pid, a.c.read);
    && 1 <= a.count <= 1_000_000 && |OpenOn(s.queue, a.pid)| < 5
    && HasAll(s, p, match a.key case Hulls(t) => ShipPrerequisites(t) case Turrets(t) => DefensePrerequisites(t)
                                case _ => [])
    && Covers(p.pools, Cost(a.count * Price(a.key).metal, a.count * Price(a.key).crystal,
                            a.count * Price(a.key).deuterium))
  }

  /** A batch of `n` costs `n` times the table price and takes `n` times as long as one unit. */
  ghost predicate IsBatch(env: Env, s: State, a: Step, i: Item)
    requires a.OrderUnits? && s.HasPlanet(a.pid)
  {
    var p := RefreshedAt(env, s, a.pid, a.c.read);
    && i.planet == a.pid && i.key == a.key && i.target == 0 && i.count == a.count
    && CostsTimes(i.cost, a.count, Price(a.key)) && BehindAll(s.queue, a.pid, i.started, a.c.write)
    && TakesTime(i, a.count, Price(a.key).metal + Price(a.key).crystal, YardRate(p, env.speedEconomy))
  }

  lemma OwnerStays(env: Env, s: State, pid: int, now: real)
    requires s.HasPlanet(pid)
    ensures RefreshedAt(env, s, pid, now).owner == s.PlanetAt(pid).owner
    ensures RefreshedAt(env, s, pid, now).buildings == s.PlanetAt(pid).buildings
  {
  }

  lemma UnitCheck(env: Env, s: State, a: Step)
    requires a.OrderUnits? && s.HasPlanet(a.pid) && s.PlanetAt(a.pid).owner == a.user
    ensures QueueUnits(env, s, a.user, a.pid, a.key, a.count, a.c).1.Ok? <==> MayOrderUnits(env, s, a)
  {
    hide RefreshedAt, StartTime, BuildTime, Meets, HasAll, Sum, OpenOn, Enqueue, ShipStats, DefenseStats,
         ShipPrerequisites, DefensePrerequisites;
    OwnerStays(env, s, a.pid, a.c.read);
    SlotsAre(s.queue, a.pid);
    TablesAsk(SolarPlant, a.key, Energy);
    MetOnPlanet(s, RefreshedAt(env, s, a.pid, a.c.read), UnitPrereqs(a.key));
  }

  lemma UnitRow(env: Env, s: State, a: Step)
    requires a.OrderUnits? && s.HasPlanet(a.pid) && QueueUnits(env, s, a.user, a.pid, a.key, a.count, a.c).1.Ok?
    ensures var t := QueueUnits(env, s, a.user, a.pid, a.key, a.count, a.c).0;
            |t.queue| == |s.queue| + 1
            && var i := t.queue[|s.queue|];
               i.planet == a.pid && IsBatch(env, s, a, i)
               && Booked(s, t.(clock := a.c.write), RefreshedAt(env, s, a.pid, a.c.read), i, a.c)
  {
    hide RefreshedAt, BehindAll, StartTime, BuildTime, OrderError, Meets, Sum, Lasts, YardRate, ShipStats, DefenseStats;
    var p := RefreshedAt(env, s, a.pid, a.c.read);
    OwnerStays(env, s, a.pid, a.c.read);
    StartsBehind(s.queue, a.pid, a.c.write);
    YardTime(p, UnitCost(a.key), env.speedEconomy, 1);
    var u := BuildTime(UnitCost(a.key), Max(0, Level(p.buildings, RoboticsFactory)),
                       Max(0, Level(p.buildings, NaniteFactory)), env.speedEconomy, 1.0);
    var i := QueueUnits(env, s, a.user, a.pid, a.key, a.count, a.c).0.queue[|s.queue|];
    assert i.finished == i.started + (a.count * u) as real;
  }

  /** An order of units by the owner of the planet: accepted if and only if the batch has a legal
      size, a slot is free, the tech tree allows it and the refreshed planet can pay; then it
      joins as the row described above, and otherwise nothing happens. */
  lemma UnitsOutcome(env: Env, s: State, a: Step)
    requires Enabled(s, a) && a.OrderUnits? && s.HasPlanet(a.pid) && s.PlanetAt(a.pid).owner == a.user
    ensures var t := Next(env, s, a);
            if MayOrderUnits(env, s, a) then
              |t.queue| == |s.queue| + 1 && var i := t.queue[|s.queue|];
              IsBatch(env, s, a, i) && Booked(s, t, RefreshedAt(env, s, a.pid, a.c.read), i, a.c)
            else t == s.(clock := a.c.write)
  {
    hide QueueUnits, MayOrderUnits, Booked, IsBatch, NextOnPlanet, RefreshedAt;
    UnitCheck(env, s, a);
    if MayOrderUnits(env, s, a) {
      UnitRow(env, s, a);
    } else {
      UnitsRefused(env, s, a);
    }
  }

  lemma UnitsRefused(env: Env, s: State, a: Step)
    requires a.OrderUnits? && !QueueUnits(env, s, a.user, a.pid, a.key, a.count, a.c).1.Ok?
    ensures QueueUnits(env, s, a.user, a.pid, a.key, a.count, a.c).0 == s
  {
    hide RefreshedAt, StartTime, BuildTime, OrderError, Meets, Sum, Enqueue, UnitCost;
  }

  /** The same order for a single unit goes through as well; the batch costs that many times as
      much and takes that many times as long. */
  lemma BatchIsManySingles(env: Env, s: State, a: Step)
    requires L.Sound(s) && Enabled(s, a) && a.OrderUnits? && s.HasPlanet(a.pid) && s.PlanetAt(a.pid).owner == a.user
    requires MayOrderUnits(env, s, a)
    ensures var n, one := |s.queue|, a.(count := 1);
            && Enabled(s, one) && MayOrderUnits(env, s, one)
            && |Next(env, s, a).queue| == |Next(env, s, one).queue| == n + 1
            && var i, j := Next(env, s, a).queue[n], Next(env, s, one).queue[n];
            && CostsTimes(i.cost, a.count, j.cost)
            && i.finished - i.started == a.count as real * (j.finished - j.started)
  {
    hide Next, RefreshedAt, NextOnPlanet, L.Sound, Lasts, BehindAll, YardRate, HasAll, OpenOn, Booked, Price;
    var p, one, n := RefreshedAt(env, s, a.pid, a.c.read), a.(count := 1), |s.queue|;
    PriceIsNonNegative(a.key);
    SingleIsCovered(p.pools, a.count, Price(a.key));
    UnitsOutcome(env, s, a);
    UnitsOutcome(env, s, one);
    var work, rate := Price(a.key).metal + Price(a.key).crystal, YardRate(p, env.speedEconomy);
    var i, j := Next(env, s, a).queue[n], Next(env, s, one).queue[n];
    var u :| Lasts(u, work, rate) && i.finished == i.started + (a.count * u) as real;
    var v :| Lasts(v, work, rate) && j.finished == j.started + (1 * v) as real;
    YardTime(p, Price(a.key), env.speedEconomy, 1);
    LastsFalls(u, work, rate, v, work, rate);
    LastsFalls(v, work, rate, u, work, rate);
  }

  lemma PriceIsNonNegative(key: ItemKey)
    ensures Price(key).NonNegative()
  {
  }

  lemma SingleIsCovered(pools: Res, n: int, unit: Cost)
    requires n >= 1 && unit.NonNegative()
    requires Covers(pools, Cost(n * unit.metal, n * unit.crystal, n * unit.deuterium))
    ensures Covers(pools, Cost(1 * unit.metal, 1 * unit.crystal, 1 * unit.deuterium))
  {
  }

  // ---- upgrades --------------------------------------------------------------------------------------

  /** One level above what the planet has and what is already ordered there. */
  ghost predicate IsNextLevel(s: State, pid: int, b: BuildingType, target: int)
    requires s.HasPlanet(pid)
  {
    var level := Level(s.PlanetAt(pid).buildings, b);
    && target > level
    && (forall k :: k in OpenOn(s.queue, pid) && s.queue[k].key == Build(b) ==> target > s.queue[k].target)
    && (target == level + 1
        || exists k :: k in OpenOn(s.queue, pid) && s.queue[k].key == Build(b) && target == s.queue[k].target + 1)
  }

  /** A first solar plant on a planet that has everything but the metal, and consumers without any
      energy. */
  ghost predicate NeedsRescue(env: Env, p: Planet, techs: Techs, b: BuildingType, target: int) {
    var full, r := Tariff(BuildingCosts(b), target), env.report(p, techs);
    && b == SolarPlant && target == 1 && Level(p.buildings, SolarPlant) <= 0
    && p.pools.metal.Floor < full.metal && p.pools.crystal.Floor >= full.crystal
    && p.pools.deuterium.Floor >= full.deuterium && r.energyProduced <= 0 && r.energyConsumed != 0
  }

  /** The tariff; a planet in need of rescue pays with whatever metal it has. */
  ghost function UpgradePrice(env: Env, p: Planet, techs: Techs, b: BuildingType, target: int): Cost {
    var full := Tariff(BuildingCosts(b), target);
    if NeedsRescue(env, p, techs, b, target) then full.(metal := p.pools.metal.Floor) else full
  }

  ghost predicate MayUpgrade(env: Env, s: State, a: Step, target: int)
    requires a.OrderBuilding? && s.HasPlanet(a.pid)
  {
    var p := RefreshedAt(env, s, a.pid, a.c.read);
    && |OpenOn(s.queue, a.pid)| < 5 && HasAll(s, p, BuildingPrerequisites(a.b))
    && Covers(p.pools, UpgradePrice(env, p, s.TechsOf(p.owner), a.b, target))
  }

  ghost predicate IsUpgrade(env: Env, s: State, a: Step, target: int, i: Item)
    requires a.OrderBuilding? && s.HasPlanet(a.pid)
  {
    var p := RefreshedAt(env, s, a.pid, a.c.read);
    && i.planet == a.pid && i.key == Build(a.b) && i.target == target && i.count == 1
    && i.cost == UpgradePrice(env, p, s.TechsOf(p.owner), a.b, target)
    && BehindAll(s.queue, a.pid, i.started, a.c.write)
    && TakesTime(i, 1, i.cost.metal + i.cost.crystal, UpgradeRate(p, env.speedEconomy, target))
  }

  lemma {:induction false} NextLevelIs(queue: seq<Item>, pid: int, b: BuildingType, level: int)
    ensures var top := PendingLevel(queue, pid, b, level);
            && top >= level
            && (forall k :: k in OpenOn(queue, pid) && queue[k].key == Build(b) ==> top >= queue[k].target)
            && (top == level
                || exists k :: k in OpenOn(queue, pid) && queue[k].key == Build(b) && top == queue[k].target)
  {
    if queue != [] {
      var n := |queue| - 1;
      NextLevelIs(queue[..n], pid, b, level);
      var top, rest := PendingLevel(queue, pid, b, level), PendingLevel(queue[..n], pid, b, level);
      forall k | k in OpenOn(queue, pid) && queue[k].key == Build(b) ensures top >= queue[k].target {
        if k < n { assert k in OpenOn(queue[..n], pid); }
      }
      if top == rest && top != level {
        var k :| k in OpenOn(queue[..n], pid) && queue[..n][k].key == Build(b) && top == queue[..n][k].target;
        assert k in OpenOn(queue, pid) && queue[k].key == Build(b) && top == queue[k].target;
      } else if top != rest {
        assert n in OpenOn(queue, pid);
      }
    }
  }

  lemma RescueIs(env: Env, p: Planet, techs: Techs, b: BuildingType, target: int)
    requires p.pools.NonNegative()
    ensures UpgradeCost(env, b, target, p, techs) == UpgradePrice(env, p, techs, b, target)
  {
    hide LevelCost, Tariff;
    TariffIs(BuildingCosts(b), target);
  }

  /** The level that an order of `b` aims at on an orderly queue. */
  ghost function Aim(env: Env, s: State, pid: int, b: BuildingType): int
    requires s.HasPlanet(pid)
  {
    PendingLevel(s.queue, pid, b, Level(s.PlanetAt(pid).buildings, b)) + 1
  }

  lemma AimIsNext(env: Env, s: State, pid: int, b: BuildingType)
    requires s.HasPlanet(pid)
    ensures IsNextLevel(s, pid, b, Aim(env, s, pid, b))
  {
    hide OpenOn;
    NextLevelIs(s.queue, pid, b, Level(s.PlanetAt(pid).buildings, b));
  }

  lemma PoolsStay(env: Env, s: State, pid: int, now: real)
    requires L.Sound(s) && s.HasPlanet(pid)
    ensures RefreshedAt(env, s, pid, now).pools.NonNegative()
  {
    hide Refreshed;
    L.RefreshBalances(env, s.PlanetAt(pid), s.TechsOf(s.PlanetAt(pid).owner), now);
  }

  lemma UpgradeCheck(env: Env, s: State, a: Step)
    requires L.Sound(s) && Q.Orderly(s) && a.OrderBuilding? && s.HasPlanet(a.pid) && s.PlanetAt(a.pid).owner == a.user
    ensures QueueBuilding(env, s, a.user, a.pid, a.b, a.c).1.Ok? <==> MayUpgrade(env, s, a, Aim(env, s, a.pid, a.b))
  {
    hide RefreshedAt, UpgradeCost, UpgradePrice, Repaired, PendingLevel, UpgradeItem, Meets, HasAll, Sum, OpenOn,
         Enqueue, BuildingPrerequisites, L.Sound, Q.Orderly;
    var p := RefreshedAt(env, s, a.pid, a.c.read);
    OwnerStays(env, s, a.pid, a.c.read);
    PoolsStay(env, s, a.pid, a.c.read);
    Q.RepairIsIdle(s, a.pid, p.buildings);
    SlotsAre(s.queue, a.pid);
    TablesAsk(a.b, Hulls(SmallCargo), Energy);
    MetOnPlanet(s, p, BuildingPrerequisites(a.b));
    var cost := UpgradeCost(env, a.b, Aim(env, s, a.pid, a.b), p, s.TechsOf(p.owner));
    RescueIs(env, p, s.TechsOf(p.owner), a.b, Aim(env, s, a.pid, a.b));
    assert UpgradeError(s.queue, a.pid, a.b, p, s.TechsOf(p.owner), cost).None?
           <==> MayUpgrade(env, s, a, Aim(env, s, a.pid, a.b));
  }

  lemma UpgradeRow(env: Env, s: State, a: Step)
    requires L.Sound(s) && Q.Orderly(s) && a.OrderBuilding? && s.HasPlanet(a.pid)
             && QueueBuilding(env, s, a.user, a.pid, a.b, a.c).1.Ok?
    ensures var t := QueueBuilding(env, s, a.user, a.pid, a.b, a.c).0;
            |t.queue| == |s.queue| + 1
            && var i := t.queue[|s.queue|];
               i.planet == a.pid && IsUpgrade(env, s, a, Aim(env, s, a.pid, a.b), i)
               && Booked(s, t.(clock := a.c.write), RefreshedAt(env, s, a.pid, a.c.read), i, a.c)
  {
    hide RefreshedAt, UpgradeCost, UpgradePrice, Repaired, PendingLevel, UpgradeError, BehindAll, StartTime, BuildTime,
         Lasts, UpgradeRate, EarlyDivisor, L.Sound, Q.Orderly;
    var p := RefreshedAt(env, s, a.pid, a.c.read);
    OwnerStays(env, s, a.pid, a.c.read);
    PoolsStay(env, s, a.pid, a.c.read);
    Q.RepairIsIdle(s, a.pid, p.buildings);
    var target := Aim(env, s, a.pid, a.b);
    RescueIs(env, p, s.TechsOf(p.owner), a.b, target);
    StartsBehind(s.queue, a.pid, a.c.write);
    var cost := UpgradeCost(env, a.b, target, p, s.TechsOf(p.owner));
    YardTime(p, cost, env.speedEconomy, target);
    var i := UpgradeItem(env, s.queue, a.pid, p, a.b, target, cost, a.c.write);
    var u := BuildTime(cost, Max(0, Level(p.buildings, RoboticsFactory)), Max(0, Level(p.buildings, NaniteFactory)),
                       env.speedEconomy, EarlyDivisor(target));
    assert i.finished == i.started + (1 * u) as real;
    assert i.finished == i.started + (1 * u) as real;
  }

  lemma UpgradeRefused(env: Env, s: State, a: Step)
    requires a.OrderBuilding? && !QueueBuilding(env, s, a.user, a.pid, a.b, a.c).1.Ok?
    ensures QueueBuilding(env, s, a.user, a.pid, a.b, a.c).0 == s
  {
    hide RefreshedAt, UpgradeCost, Repaired, PendingLevel, UpgradeItem, UpgradeError, Enqueue;
  }

  /** An order of the next level of a building by the owner of the planet: accepted if and only if
      a slot is free, the tech tree allows it and the refreshed planet can pay the price of the
      next level; then it joins as the row described above, and otherwise nothing happens. */
  lemma UpgradeOutcome(env: Env, s: State, a: Step)
    requires L.Sound(s) && Q.Orderly(s) && Enabled(s, a) && a.OrderBuilding? && s.HasPlanet(a.pid)
    requires s.PlanetAt(a.pid).owner == a.user
    ensures exists target :: IsNextLevel(s, a.pid, a.b, target)
                             && var t := Next(env, s, a);
                                if MayUpgrade(env, s, a, target) then
                                  |t.queue| == |s.queue| + 1 && var i := t.queue[|s.queue|];
                                  IsUpgrade(env, s, a, target, i)
                                  && Booked(s, t, RefreshedAt(env, s, a.pid, a.c.read), i, a.c)
                                else t == s.(clock := a.c.write)
  {
    hide QueueBuilding, MayUpgrade, Booked, IsUpgrade, IsNextLevel, NextOnPlanet, RefreshedAt, Aim, L.Sound, Q.Orderly;
    AimIsNext(env, s, a.pid, a.b);
    UpgradeCheck(env, s, a);
    if MayUpgrade(env, s, a, Aim(env, s, a.pid, a.b)) {
      UpgradeRow(env, s, a);
    } else {
      UpgradeRefused(env, s, a);
    }
  }

  // ---- research --------------------------------------------------------------------------------------

  ghost predicate MayStudy(env: Env, s: State, a: Step)
    requires a.OrderResearch? && s.HasPlanet(a.pid)
  {
    var p := RefreshedAt(env, s, a.pid, a.c.read);
    && !Studying(s.queue, a.user) && HasAll(s, p, TechPrerequisites(a.t))
    && Covers(p.pools, Tariff(ResearchCosts(a.t), Level(s.TechsOf(a.user), a.t) + 1))
  }

  /** The next level at its tariff, begun at once and timed by the best laboratory of the account. */
  ghost predicate IsResearch(env: Env, s: State, a: Step, i: Item)
    requires a.OrderResearch? && s.HasPlanet(a.pid)
  {
    && i.planet == a.pid && i.key == Study(a.t) && i.target == Level(s.TechsOf(a.user), a.t) + 1 && i.count == 1
    && i.cost == Tariff(ResearchCosts(a.t), i.target) && i.started == a.c.write
    && exists lab :: IsBestLab(s, a.user, lab)
                     && TakesTime(i, 1, i.cost.metal + i.cost.crystal, LabRate(lab, env.speedResearch))
  }

  lemma StudyCheck(env: Env, s: State, a: Step)
    requires a.OrderResearch? && s.HasPlanet(a.pid) && s.PlanetAt(a.pid).owner == a.user
    ensures QueueResearch(env, s, a.user, a.pid, a.t, a.c).1.Ok? <==> MayStudy(env, s, a)
  {
    hide RefreshedAt, Tariff, LevelCost, ResearchTime, Meets, HasAll, Sum, Studying, LabOf, IsBestLab, Enqueue,
         TechPrerequisites, ResearchCosts;
    var p := RefreshedAt(env, s, a.pid, a.c.read);
    OwnerStays(env, s, a.pid, a.c.read);
    BestLab(s, a.user);
    StudyingIff(s.queue, a.user);
    TablesAsk(SolarPlant, Hulls(SmallCargo), a.t);
    MetInAccount(s, p, TechPrerequisites(a.t), LabOf(s.planets, a.user));
    TariffIs(ResearchCosts(a.t), Level(s.TechsOf(a.user), a.t) + 1);
  }

  lemma StudyRow(env: Env, s: State, a: Step)
    requires a.OrderResearch? && s.HasPlanet(a.pid) && QueueResearch(env, s, a.user, a.pid, a.t, a.c).1.Ok?
    ensures var t := QueueResearch(env, s, a.user, a.pid, a.t, a.c).0;
            |t.queue| == |s.queue| + 1
            && var i := t.queue[|s.queue|];
               i.planet == a.pid && IsResearch(env, s, a, i)
               && Booked(s, t.(clock := a.c.write), RefreshedAt(env, s, a.pid, a.c.read), i, a.c)
  {
    hide RefreshedAt, Tariff, LevelCost, ResearchTime, StudyError, LabOf, IsBestLab, Lasts, LabRate, ResearchCosts;
    BestLab(s, a.user);
    TariffIs(ResearchCosts(a.t), Level(s.TechsOf(a.user), a.t) + 1);
    LabTime(ResearchLevelCost(a.t, Level(s.TechsOf(a.user), a.t) + 1), LabOf(s.planets, a.user), env.speedResearch);
  }

  lemma StudyRefused(env: Env, s: State, a: Step)
    requires a.OrderResearch? && !QueueResearch(env, s, a.user, a.pid, a.t, a.c).1.Ok?
    ensures QueueResearch(env, s, a.user, a.pid, a.t, a.c).0 == s
  {
    hide RefreshedAt, ResearchLevelCost, ResearchTime, StudyError, LabOf, Enqueue;
  }

  /** An order of research by the owner of the planet: accepted if and only if the account has no
      research open, the tech tree allows it and the refreshed planet can pay; then it joins as the
      row described above, and otherwise nothing happens. */
  lemma ResearchOutcome(env: Env, s: State, a: Step)
    requires Enabled(s, a) && a.OrderResearch? && s.HasPlanet(a.pid) && s.PlanetAt(a.pid).owner == a.user
    ensures var t := Next(env, s, a);
            if MayStudy(env, s, a) then
              |t.queue| == |s.queue| + 1 && var i := t.queue[|s.queue|];
              IsResearch(env, s, a, i) && Booked(s, t, RefreshedAt(env, s, a.pid, a.c.read), i, a.c)
            else t == s.(clock := a.c.write)
  {
    hide QueueResearch, MayStudy, Booked, IsResearch, NextOnPlanet, RefreshedAt;
    StudyCheck(env, s, a);
    if MayStudy(env, s, a) {
      StudyRow(env, s, a);
    } else {
      StudyRefused(env, s, a);
    }
  }

  /** Accepted research takes no longer than the laboratory of any planet of the account would need
      for it, and exactly as long as one of them needs, or as none at all when there is none. */
  lemma BestLabTimesResearch(env: Env, s: State, a: Step, seconds: int, k: int)
    requires Enabled(s, a) && a.OrderResearch? && s.HasPlanet(a.pid) && s.PlanetAt(a.pid).owner == a.user
    requires MayStudy(env, s, a) && s.HasPlanet(k) && s.PlanetAt(k).owner == a.user
    requires var cost := Tariff(ResearchCosts(a.t), Level(s.TechsOf(a.user), a.t) + 1);
             Lasts(seconds, cost.metal + cost.crystal,
                   LabRate(Level(s.PlanetAt(k).buildings, ResearchLab), env.speedResearch))
    ensures |Next(env, s, a).queue| == |s.queue| + 1
    ensures var i := Next(env, s, a).queue[|s.queue|];
            && i.finished - i.started <= seconds as real
            && exists lab :: (lab == 0 || OwnLab(s, a.user, lab))
                             && TakesTime(i, 1, i.cost.metal + i.cost.crystal, LabRate(lab, env.speedResearch))
  {
    hide Next, MayStudy, Booked, Tariff, Lasts, OwnLab, NextOnPlanet, ResearchCosts;
    ResearchOutcome(env, s, a);
    var i := Next(env, s, a).queue[|s.queue|];
    var lab :| IsBestLab(s, a.user, lab)
               && TakesTime(i, 1, i.cost.metal + i.cost.crystal, LabRate(lab, env.speedResearch));
    var u :| Lasts(u, i.cost.metal + i.cost.crystal, LabRate(lab, env.speedResearch))
             && i.finished == i.started + (1 * u) as real;
    var own := Level(s.PlanetAt(k).buildings, ResearchLab);
    OwnsLab(s, k);
    LabRateGrows(own, lab, env.speedResearch);
    LastsFalls(seconds, i.cost.metal + i.cost.crystal, LabRate(own, env.speedResearch), u,
               i.cost.metal + i.cost.crystal, LabRate(lab, env.speedResearch));
  }

  lemma OwnsLab(s: State, k: int)
    requires s.HasPlanet(k)
    ensures OwnLab(s, s.PlanetAt(k).owner, Level(s.PlanetAt(k).buildings, ResearchLab))
  {
  }

  lemma LabRateGrows(lab: int, better: int, speed: real)
    requires lab <= better && speed > 0.0
    ensures 0.0 < LabRate(lab, speed) <= LabRate(better, speed)
  {
    ScaledMonotone(1000.0 * speed, 1.0 + Max(0, lab) as real, 1.0 + Max(0, better) as real);
    assert 1000.0 * speed * (1.0 + Max(0, lab) as real) > 0.0;
  }

  /** The same research costs the same and takes equally long from every planet of the account. */
  lemma AnyPlanetResearchesAlike(env: Env, s: State, a: Step, b: Step)
    requires Enabled(s, a) && a.OrderResearch? && s.HasPlanet(a.pid) && s.PlanetAt(a.pid).owner == a.user
    requires Enabled(s, b) && b.OrderResearch? && s.HasPlanet(b.pid) && s.PlanetAt(b.pid).owner == b.user
    requires a.user == b.user && a.t == b.t && MayStudy(env, s, a) && MayStudy(env, s, b)
    ensures |Next(env, s, a).queue| == |Next(env, s, b).queue| == |s.queue| + 1
    ensures var i, j := Next(env, s, a).queue[|s.queue|], Next(env, s, b).queue[|s.queue|];
            i.cost == j.cost && i.finished - i.started == j.finished - j.started
  {
    hide Next, MayStudy, Booked, Tariff, Lasts, OwnLab, LabRate, NextOnPlanet, ResearchCosts;
    ResearchOutcome(env, s, a);
    ResearchOutcome(env, s, b);
    var i, j := Next(env, s, a).queue[|s.queue|], Next(env, s, b).queue[|s.queue|];
    var work := i.cost.metal + i.cost.crystal;
    var lab :| IsBestLab(s, a.user, lab) && TakesTime(i, 1, work, LabRate(lab, env.speedResearch));
    var u :| Lasts(u, work, LabRate(lab, env.speedResearch)) && i.finished == i.started + (1 * u) as real;
    var other :| IsBestLab(s, a.user, other) && TakesTime(j, 1, work, LabRate(other, env.speedResearch));
    var v :| Lasts(v, work, LabRate(other, env.speedResearch)) && j.finished == j.started + (1 * v) as real;
    LabRateGrows(lab, other, env.speedResearch);
    LastsFalls(u, work, LabRate(lab, env.speedResearch), v, work, LabRate(other, env.speedResearch));
    LastsFalls(v, work, LabRate(lab, env.speedResearch), u, work, LabRate(other, env.speedResearch));
  }

  // ---- prices over whole runs ------------------------------------------------------------------------

  /** Nothing of a row ever changes but its two flags. */
  predicate SameBill(i: Item, j: Item) { j == i.(cancelled := j.cancelled, applied := j.applied) }

  ghost predicate SameBills(queue: seq<Item>, after: seq<Item>) {
    |queue| <= |after| && forall k :: 0 <= k < |queue| ==> SameBill(queue[k], after[k])
  }

  ghost predicate AllPriced(s: State) { forall k :: 0 <= k < |s.queue| ==> Priced(s.queue[k]) }

  /** No step rewrites a row, and only an accepted order adds one. */
  lemma StepKeepsBills(env: Env, s: State, a: Step)
    requires L.Sound(s) && Q.Orderly(s) && Enabled(s, a)
    ensures var t := Next(env, s, a);
            && SameBills(s.queue, t.queue)
            && (t.queue == s.queue || |t.queue| == |s.queue|
                || (|t.queue| == |s.queue| + 1 && Priced(t.queue[|s.queue|])))
  {
    hide QueueBuilding, QueueUnits, QueueResearch, Cancel, ApplyItem, Repaired, NextOnPlanet, L.Sound, Q.Orderly,
         Priced;
    if !Q.TouchesQueue(a) {
      hide Effect;
      Q.OthersKeepEstate(env, s, a);
    } else {
      match a
      case CancelOrder(_, _, _) => CancelKeepsBills(env, s, a);
      case OpenQueue(_, pid, _) =>
        if s.HasPlanet(pid) { Q.RepairIsIdle(s, pid, s.PlanetAt(pid).buildings); }
      case Finish(qid, _) => FinishKeepsBills(s, qid);
      case _ => OrderKeepsBills(env, s, a);
    }
  }

  lemma CancelKeepsBills(env: Env, s: State, a: Step)
    requires a.CancelOrder?
    ensures var t := Cancel(env, s, a.user, a.qid, a.c).0;
            SameBills(s.queue, t.queue) && |t.queue| == |s.queue|
  {
    hide RefreshedAt;
  }

  lemma FinishKeepsBills(s: State, qid: int)
    requires 0 <= qid < |s.queue|
    ensures SameBills(s.queue, ApplyItem(s, qid).queue) && |ApplyItem(s, qid).queue| == |s.queue|
  {
    hide AddCount;
  }

  lemma StrangerOrders(env: Env, s: State, a: Step)
    requires Enabled(s, a) && (a.OrderBuilding? || a.OrderUnits? || a.OrderResearch?)
    requires !s.HasPlanet(a.pid) || s.PlanetAt(a.pid).owner != a.user
    ensures Next(env, s, a) == s.(clock := a.c.write)
  {
    hide Effect, NextOnPlanet;
    E.OnlyOwnersCommand(env, s, a);
  }

  lemma PriceIsPositive(env: Env, p: Planet, techs: Techs, b: BuildingType, target: int)
    requires p.pools.NonNegative()
    ensures var full, cost := Tariff(BuildingCosts(b), target), UpgradePrice(env, p, techs, b, target);
            && 0 <= cost.metal <= full.metal && cost == full.(metal := cost.metal)
            && (cost.metal < full.metal ==> b == SolarPlant && target == 1)
  {
    hide Tariff, LevelCost;
    TariffIs(BuildingCosts(b), target);
    CostsNonNegative(b, Energy, target);
  }

  lemma UpgradeIsPriced(env: Env, s: State, a: Step, target: int, i: Item)
    requires L.Sound(s) && a.OrderBuilding? && s.HasPlanet(a.pid) && IsUpgrade(env, s, a, target, i)
    ensures Priced(i)
  {
    hide L.Sound, RefreshedAt, BehindAll, Lasts, Tariff, UpgradePrice, YardRate;
    var p := RefreshedAt(env, s, a.pid, a.c.read);
    PoolsStay(env, s, a.pid, a.c.read);
    PriceIsPositive(env, p, s.TechsOf(p.owner), a.b, target);
  }

  lemma OrderKeepsBills(env: Env, s: State, a: Step)
    requires L.Sound(s) && Q.Orderly(s) && Enabled(s, a) && (a.OrderBuilding? || a.OrderUnits? || a.OrderResearch?)
    ensures var t := Next(env, s, a);
            t.queue == s.queue
            || (|t.queue| == |s.queue| + 1 && SameBills(s.queue, t.queue) && Priced(t.queue[|s.queue|]))
  {
    hide Effect, MayUpgrade, MayStudy, NextOnPlanet, L.Sound, Q.Orderly, BehindAll, Lasts, Tariff, IsNextLevel,
         RefreshedAt, IsUpgrade;
    if !s.HasPlanet(a.pid) || s.PlanetAt(a.pid).owner != a.user {
      StrangerOrders(env, s, a);
    } else if a.OrderBuilding? {
      var t := Next(env, s, a);
      UpgradeOutcome(env, s, a);
      if |t.queue| == |s.queue| + 1 {
        var i := t.queue[|s.queue|];
        if target :| IsUpgrade(env, s, a, target, i) { UpgradeIsPriced(env, s, a, target, i); }
      }
    } else if a.OrderUnits? {
      UnitsOutcome(env, s, a);
    } else {
      ResearchOutcome(env, s, a);
    }
  }

  lemma StepKeepsPrices(env: Env, s: State, a: Step)
    requires L.Sound(s) && Q.Orderly(s) && AllPriced(s) && Enabled(s, a)
    ensures AllPriced(Next(env, s, a)) && SameBills(s.queue, Next(env, s, a).queue)
  {
    hide Next, L.Sound, Q.Orderly, Enabled, Priced;
    var t := Next(env, s, a);
    StepKeepsBills(env, s, a);
    forall k | 0 <= k < |s.queue| ensures Priced(t.queue[k]) {
      assert SameBill(s.queue[k], t.queue[k]);
      FlagsCostNothing(s.queue[k], t.queue[k]);
    }
  }

  lemma SameBillsJoin(q: seq<Item>, r: seq<Item>, t: seq<Item>)
    requires SameBills(q, r) && SameBills(r, t)
    ensures SameBills(q, t)
  {
    forall k | 0 <= k < |q| ensures SameBill(q[k], t[k]) {
      assert SameBill(q[k], r[k]) && SameBill(r[k], t[k]);
    }
  }

  /** On every run each row keeps its price: a batch costs its count times the table, research its
      tariff, and an upgrade its tariff or, for a rescued first solar plant, less metal. */
  lemma {:induction false} RunKeepsPrices(env: Env, s: State, run: seq<Step>)
    requires L.Sound(s) && Q.Orderly(s) && AllPriced(s) && Legal(env, s, run)
    ensures AllPriced(Final(env, s, run)) && SameBills(s.queue, Final(env, s, run).queue)
    decreases |run|
  {
    hide Next, L.Sound, Q.Orderly, Enabled, AllPriced, SameBills;
    if run == [] {
      NothingBilled(s.queue);
    } else {
      StepKeepsPrices(env, s, run[0]);
      L.NextBalances(env, s, run[0]);
      Q.StepIsOrderly(env, s, run[0]);
      RunKeepsPrices(env, Next(env, s, run[0]), run[1..]);
      SameBillsJoin(s.queue, Next(env, s, run[0]).queue, Final(env, s, run).queue);
    }
  }

  lemma NothingBilled(queue: seq<Item>)
    ensures SameBills(queue, queue)
  {
  }

  lemma FlagsCostNothing(i: Item, j: Item)
    requires SameBill(i, j)
    ensures Priced(i) <==> Priced(j)
  {
    hide Tariff;
  }

  /** Whatever happens in between, a row is finished only while it is open, and no sooner than it was
      to finish when it was ordered. */
  lemma NothingFinishesEarly(env: Env, s: State, run: seq<Step>, a: Step)
    requires L.Sound(s) && Q.Orderly(s) && AllPriced(s) && Legal(env, s, run)
    requires a.Finish? && 0 <= a.qid < |s.queue| && Enabled(Final(env, s, run), a)
    ensures a.qid < |Final(env, s, run).queue| && a.c.read >= s.queue[a.qid].finished
    ensures var i := Final(env, s, run).queue[a.qid];
            SameBill(s.queue[a.qid], i) && !i.cancelled && !i.applied
  {
    hide L.Sound, Q.Orderly, AllPriced, Legal, Final, NextOnPlanet;
    RunKeepsPrices(env, s, run);
    assert SameBill(s.queue[a.qid], Final(env, s, run).queue[a.qid]);
  }

  // ---- what is paid back, and what is delivered ------------------------------------------------------

  /** A row is cancelled exactly when it is the user's own and still open; its planet then gets back
      what the row cost. */
  lemma CancelOutcome(env: Env, s: State, a: Step)
    requires Enabled(s, a) && a.CancelOrder?
    ensures var t := Next(env, s, a);
            if 0 <= a.qid < |s.queue| && s.queue[a.qid].user == a.user && !s.queue[a.qid].cancelled
               && !s.queue[a.qid].applied && s.HasPlanet(s.queue[a.qid].planet)
            then
              var i := s.queue[a.qid];
              var p := RefreshedAt(env, s, i.planet, a.c.read);
              t == s.(planets := s.planets[i.planet := Some(
                          p.(pools := Res(p.pools.metal + i.cost.metal as real,
                                          p.pools.crystal + i.cost.crystal as real,
                                          p.pools.deuterium + i.cost.deuterium as real), cursor := a.c.write))],
                      queue := s.queue[a.qid := i.(cancelled := true)], clock := a.c.write)
            else t == s.(clock := a.c.write)
  {
    hide RefreshedAt, NextOnPlanet;
  }

  /** What finished work brings its planet: one level and one field, or as many units as were ordered. */
  ghost predicate Delivers(i: Item, p: Planet, q: Planet) {
    match i.key
    case Build(b) =>
      && (forall x :: Level(q.buildings, x) == Level(p.buildings, x) + if x == b then 1 else 0)
      && q == p.(buildings := q.buildings, fieldsUsed := p.fieldsUsed + 1)
    case Hulls(t) =>
      (forall x :: Level(q.ships, x) == Level(p.ships, x) + if x == t then i.count else 0) && q == p.(ships := q.ships)
    case Turrets(t) =>
      && (forall x :: Level(q.defenses, x) == Level(p.defenses, x) + if x == t then i.count else 0)
      && q == p.(defenses := q.defenses)
    case Study(_) => q == p
  }

  /** What finished research brings its account: one level. */
  ghost predicate Teaches(i: Item, before: map<int, Techs>, after: map<int, Techs>) {
    forall user, x :: Known(after, user, x) == Known(before, user, x)
                                               + if user == i.user && i.key == Study(x) then 1 else 0
  }

  function Known(techs: map<int, Techs>, user: int, x: TechType): int {
    if user in techs then Level(techs[user], x) else 0
  }

  lemma FinishedDelivers(p: Planet, i: Item)
    requires L.PlanetSound(p) && Priced(i)
    ensures Delivers(i, p, L.Finished(p, i))
  {
    hide Tariff, Price;
  }

  /** Finished research raises its technology by one level for the whole account; everything else
      delivers to its planet what was paid for; and the row is closed. */
  lemma FinishOutcome(env: Env, s: State, a: Step)
    requires L.Sound(s) && AllPriced(s) && Enabled(s, a) && a.Finish? && s.HasPlanet(s.queue[a.qid].planet)
    ensures var i, t := s.queue[a.qid], Next(env, s, a);
            && t.HasPlanet(i.planet) && Delivers(i, s.PlanetAt(i.planet), t.PlanetAt(i.planet))
            && Teaches(i, s.techs, t.techs)
            && t == s.(planets := s.planets[i.planet := t.planets[i.planet]], techs := t.techs,
                       queue := s.queue[a.qid := i.(applied := true)], clock := a.c.write)
  {
    hide Priced, Delivers, Teaches, L.Finished, NextOnPlanet, L.PlanetSound, ApplyItem;
    var i := s.queue[a.qid];
    L.ApplyShape(s, a.qid);
    FinishedDelivers(s.PlanetAt(i.planet), i);
    StudyTeaches(s, a.qid);
    if i.key.Study? {
      StudyStays(s, a.qid);
      assert s.planets[i.planet := s.planets[i.planet]] == s.planets;
    }
  }

  lemma StudyTeaches(s: State, qid: int)
    requires 0 <= qid < |s.queue| && s.HasPlanet(s.queue[qid].planet)
    ensures Teaches(s.queue[qid], s.techs, ApplyItem(s, qid).techs)
  {
    hide ApplyItem;
    Q.FinishShape(s, qid);
  }

  lemma StudyStays(s: State, qid: int)
    requires 0 <= qid < |s.queue| && s.queue[qid].key.Study? && s.HasPlanet(s.queue[qid].planet)
    ensures Delivers(s.queue[qid], s.PlanetAt(s.queue[qid].planet), s.PlanetAt(s.queue[qid].planet))
  {
  }

  /** Looking at one's queue closes exactly the open upgrades of that planet whose level is already
      there; nobody else's look does anything. */
  lemma ViewOutcome(env: Env, s: State, a: Step)
    requires Enabled(s, a) && a.OpenQueue?
    ensures var t := Next(env, s, a);
            if s.HasPlanet(a.pid) && s.PlanetAt(a.pid).owner == a.user then
              && |t.queue| == |s.queue|
              && (forall k :: 0 <= k < |s.queue| ==>
                    var i := s.queue[k];
                    t.queue[k] ==
                      if k in OpenOn(s.queue, a.pid) && i.key.Build? && i.target > 0
                         && Level(s.PlanetAt(a.pid).buildings, i.key.building) >= i.target
                      then i.(applied := true) else i)
              && t == s.(queue := t.queue, clock := a.c.write)
            else t == s.(clock := a.c.write)
  {
    hide NextOnPlanet;
  }
}
