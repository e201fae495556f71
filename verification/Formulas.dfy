/** Costs, energy, storage and durations (internal/game/formulas.go) in exact arithmetic. */
module Formulas {
  import opened Catalog

  function Pow(x: real, n: nat): real {
    if n == 0 then 1.0 else x * Pow(x, n - 1)
  }

  function Ceil(x: real): int { -((-x).Floor) }

  function Max(a: int, b: int): int { if a < b then b else a }

  /** Counts and levels without a row are zero. */
  function Level<K>(m: map<K, int>, k: K): int { if k in m then m[k] else 0 }

  // ---- costs ------------------------------------------------------------------

  function Grown(base: int, factor: real, level: nat): int { (base as real * Pow(factor, level)).Floor }

  function LevelCost(g: Growth, target: int): Cost {
    if target <= 0 then Cost(0, 0, 0)
    else Cost(Grown(g.base.metal, g.factor, target - 1), Grown(g.base.crystal, g.factor, target - 1),
              Grown(g.base.deuterium, g.factor, target - 1))
  }

  function BuildingLevelCost(b: BuildingType, target: int): Cost { LevelCost(BuildingCosts(b), target) }
  function ResearchLevelCost(t: TechType, target: int): Cost { LevelCost(ResearchCosts(t), target) }

  lemma {:induction false} PowAtLeastOne(x: real, n: nat)
    requires x >= 1.0
    ensures Pow(x, n) >= 1.0
  {
    if n > 0 {
      PowAtLeastOne(x, n - 1);
      assert x * Pow(x, n - 1) >= 1.0 * Pow(x, n - 1);
    }
  }

  lemma {:induction false} PowMonotone(x: real, m: nat, n: nat)
    requires x >= 1.0 && m <= n
    ensures Pow(x, m) <= Pow(x, n)
    decreases n
  {
    if m < n {
      PowMonotone(x, m, n - 1);
      PowAtLeastOne(x, n - 1);
      assert x * Pow(x, n - 1) >= 1.0 * Pow(x, n - 1);
    }
  }

  lemma ScaledMonotone(k: real, a: real, b: real)
    requires k >= 0.0 && a <= b
    ensures k * a <= k * b
  {
    assert k * (b - a) >= 0.0;
  }

  lemma GrownMonotone(base: int, factor: real, m: nat, n: nat)
    requires base >= 0 && factor >= 1.0 && m <= n
    ensures base <= Grown(base, factor, m) <= Grown(base, factor, n)
  {
    PowAtLeastOne(factor, m);
    PowMonotone(factor, m, n);
    ScaledMonotone(base as real, 1.0, Pow(factor, m));
    ScaledMonotone(base as real, Pow(factor, m), Pow(factor, n));
  }

  /** Costs are never negative and never fall as levels rise. */
  lemma LevelCostMonotone(g: Growth, target: int, higher: int)
    requires g.base.NonNegative() && g.factor >= 1.0 && target <= higher
    ensures LevelCost(g, target).NonNegative()
    ensures var a, b := LevelCost(g, target), LevelCost(g, higher);
            a.metal <= b.metal && a.crystal <= b.crystal && a.deuterium <= b.deuterium
  {
    if higher > 0 {
      var m, n := if target <= 0 then 0 else target - 1, higher - 1;
      GrownMonotone(g.base.metal, g.factor, m, n);
      GrownMonotone(g.base.crystal, g.factor, m, n);
      GrownMonotone(g.base.deuterium, g.factor, m, n);
    }
  }

  lemma CostsNonNegative(b: BuildingType, t: TechType, target: int)
    ensures BuildingLevelCost(b, target).NonNegative() && ResearchLevelCost(t, target).NonNegative()
  {
    LevelCostMonotone(BuildingCosts(b), target, target);
    LevelCostMonotone(ResearchCosts(t), target, target);
  }

  // ---- storage ----------------------------------------------------------------

  const BASE_STORAGE_CAPACITY: int := 10000

  /** `silo` is floor(2.5 * e^(20 level / 33)). */
  function StorageCapacity(level: int, silo: nat -> nat): (r: int)
    ensures r >= 0
  {
    if level <= 0 then BASE_STORAGE_CAPACITY else 5000 * silo(level)
  }

  // ---- durations, in whole seconds, never less than one -------------------------------

  function AtLeastOneSecond(hours: real): (s: int)
    ensures s >= 1
  {
    Max(1, (hours * 3600.0).Floor)
  }

  /** Rounding down a quotient. */
  lemma Whole(work: real, x: real, rate: real)
    requires rate > 0.0 && x * rate == work
    ensures var seconds := Max(1, x.Floor);
            work < (seconds as real + 1.0) * rate && (seconds == 1 || seconds as real * rate <= work)
  {
    var whole, seconds := x.Floor, Max(1, x.Floor);
    ScaledMonotone(rate, whole as real, x);
    var over := seconds as real + 1.0;
    assert (over - x) * rate > 0.0;
    assert (over - x) * rate == over * rate - x * rate;
    assert over * rate > work;
    assert whole as real * rate <= work;
  }

  /** Resource units built per hour. */
  function BuildRate(robotics: nat, nanite: nat, speed: real, divisor: real): (r: real)
    requires speed > 0.0 && divisor > 0.0
    ensures r > 0.0
  {
    PowAtLeastOne(2.0, nanite);
    assert 2500.0 * (1.0 + robotics as real) * speed > 0.0;
    assert 2500.0 * (1.0 + robotics as real) * speed * Pow(2.0, nanite) > 0.0;
    2500.0 * (1.0 + robotics as real) * speed * Pow(2.0, nanite) * divisor
  }

  function BuildTime(cost: Cost, robotics: nat, nanite: nat, speed: real, divisor: real): (s: int)
    requires speed > 0.0 && divisor > 0.0
    ensures s >= 1
  {
    AtLeastOneSecond((cost.metal + cost.crystal) as real / BuildRate(robotics, nanite, speed, divisor))
  }

  /** Redesigned universes speed the first levels up. */
  function EarlyDivisor(target: int): (d: real)
    ensures d > 0.0
  {
    var current := target - 1;
    if current < 0 || current >= 5 then 1.0 else (7 - current) as real / 2.0
  }

  function ResearchTime(cost: Cost, lab: nat, speed: real): (s: int)
    requires speed > 0.0
    ensures s >= 1
  {
    assert 1000.0 * speed * (1.0 + lab as real) > 0.0;
    AtLeastOneSecond((cost.metal + cost.crystal) as real / (1000.0 * speed * (1.0 + lab as real)))
  }

  lemma QuotientFalls(amount: real, rate: real, faster: real)
    requires amount >= 0.0 && 0.0 < rate <= faster
    ensures amount / faster <= amount / rate
  {
    var q := amount / rate;
    assert q * rate == amount && q >= 0.0;
    ScaledMonotone(q, rate, faster);
    assert q * faster >= amount;
    if amount / faster > q {
      assert (amount / faster) * faster == amount;
      assert (amount / faster - q) * faster > 0.0;
    }
  }

  lemma ShorterIsNoLonger(hours: real, more: real)
    requires hours <= more
    ensures AtLeastOneSecond(hours) <= AtLeastOneSecond(more)
  {
  }

  /** Better labs never slow research down, and dearer research is never faster. */
  lemma ResearchTimeFalls(cost: Cost, dearer: Cost, lab: nat, better: nat, speed: real)
    requires cost.NonNegative() && dearer.NonNegative() && lab <= better && speed > 0.0
    requires cost.metal + cost.crystal <= dearer.metal + dearer.crystal
    ensures ResearchTime(cost, better, speed) <= ResearchTime(dearer, lab, speed)
  {
    var rate, faster := 1000.0 * speed * (1.0 + lab as real), 1000.0 * speed * (1.0 + better as real);
    assert rate > 0.0;
    ScaledMonotone(1000.0 * speed, 1.0 + lab as real, 1.0 + better as real);
    Quicker((cost.metal + cost.crystal) as real, (dearer.metal + dearer.crystal) as real, rate, faster);
    ShorterIsNoLonger((cost.metal + cost.crystal) as real / faster, (dearer.metal + dearer.crystal) as real / rate);
  }

  lemma Quicker(amount: real, more: real, rate: real, faster: real)
    requires 0.0 <= amount <= more && 0.0 < rate <= faster
    ensures amount / faster <= more / rate
  {
    QuotientFalls(amount, rate, faster);
    ScaledMonotone(1.0 / rate, amount, more);
    assert amount / rate == (1.0 / rate) * amount && more / rate == (1.0 / rate) * more;
  }

  lemma BuildRateGrows(robotics: nat, moreRobotics: nat, nanite: nat, moreNanite: nat, speed: real, divisor: real)
    requires robotics <= moreRobotics && nanite <= moreNanite && speed > 0.0 && divisor > 0.0
    ensures BuildRate(robotics, nanite, speed, divisor) <= BuildRate(moreRobotics, moreNanite, speed, divisor)
  {
    hide Pow;
    PowAtLeastOne(2.0, nanite);
    PowMonotone(2.0, nanite, moreNanite);
    var a, b := 2500.0 * (1.0 + robotics as real), 2500.0 * (1.0 + moreRobotics as real);
    FactorsGrow(a, b, 1.0, 1.0, speed);
    FactorsGrow(a * speed, b * speed, Pow(2.0, nanite), Pow(2.0, moreNanite), divisor);
  }

  /** Robot and nanite factories never slow building down. */
  lemma BuildTimeFalls(cost: Cost, robotics: nat, moreRobotics: nat, nanite: nat, moreNanite: nat, speed: real,
                       divisor: real)
    requires cost.NonNegative() && robotics <= moreRobotics && nanite <= moreNanite && speed > 0.0 && divisor > 0.0
    ensures BuildTime(cost, moreRobotics, moreNanite, speed, divisor)
            <= BuildTime(cost, robotics, nanite, speed, divisor)
  {
    hide BuildRate, AtLeastOneSecond;
    BuildRateGrows(robotics, moreRobotics, nanite, moreNanite, speed, divisor);
    var amount := (cost.metal + cost.crystal) as real;
    var rate, faster := BuildRate(robotics, nanite, speed, divisor),
                        BuildRate(moreRobotics, moreNanite, speed, divisor);
    Quicker(amount, amount, rate, faster);
    ShorterIsNoLonger(amount / faster, amount / rate);
  }

  lemma FactorsGrow(a: real, b: real, x: real, y: real, d: real)
    requires 0.0 < a <= b && 0.0 < x <= y && d > 0.0
    ensures 0.0 < a * x * d <= b * y * d
  {
    ScaledMonotone(a, x, y);
    ScaledMonotone(y, a, b);
    assert a * x > 0.0;
    ScaledMonotone(d, a * x, b * y);
    assert a * x * d > 0.0;
  }
}
