/** The book of planetary defenses: they never move, so they only change on their own planet. */
module Arsenal {
  import opened Wrappers
  import opened Catalog
  import opened Sums
  import opened Formulas
  import opened World
  import C = Combat
  import E = Effects
  import K = Colonies
  import L = Ledger

  function TurretsOn(t: DefenseType): Option<Planet> -> int {
    (p: Option<Planet>) => if p.Some? then Level(p.value.defenses, t) else 0
  }

  function DefenseTotal(s: State, t: DefenseType): int { Sum(s.planets, TurretsOn(t)) }

  ghost function DefensesBuilt(s: State, a: Step, t: DefenseType): int
    requires Enabled(s, a)
  {
    if a.Finish? && s.queue[a.qid].key == Turrets(t) && s.HasPlanet(s.queue[a.qid].planet) then Batch(s.queue[a.qid])
    else 0
  }

  /** Defenses that an attack shoots down. */
  ghost function DefensesLost(env: Env, s: State, a: Step, t: DefenseType): int
    requires Enabled(s, a)
  {
    if a.Arrival? && L.Fights(s, s.FleetAt(a.fid))
    then Level(L.BattleAt(env, s, s.FleetAt(a.fid), a.c).defenderDefensesDestroyed, C.Turret(t)) else 0
  }

  // ---- one planet ------------------------------------------------------------------------------

  ghost predicate KeepsDefenses(s: State, t: State, pid: int)
    requires s.HasPlanet(pid)
  {
    t.HasPlanet(pid) && t.PlanetAt(pid).defenses == s.PlanetAt(pid).defenses
  }

  lemma RefreshKeepsDefenses(env: Env, p: Planet, t: Techs, now: real)
    ensures Refreshed(env, p, t, now).defenses == p.defenses
  {
  }

  lemma DeliveryKeepsDefenses(p: Planet, f: Fleet, now: real)
    ensures Credit(p, f.cargo, now).defenses == p.defenses && Merged(p, f, now).defenses == p.defenses
  {
    hide AddAll;
  }

  lemma DeliveriesKeepDefenses(env: Env, s: State, fid: int, c: Clock, pid: int)
    requires s.HasFleet(fid) && s.HasPlanet(pid) && s.FleetAt(fid).targetPlanet == Some(pid)
    ensures KeepsDefenses(s, ResolveTransport(env, s, fid, c), pid)
            && KeepsDefenses(s, ResolveDeploy(env, s, fid, c), pid)
  {
    hide Refreshed, Merged, Credit;
    var p0 := s.PlanetAt(pid);
    RefreshKeepsDefenses(env, p0, s.TechsOf(p0.owner), c.read);
    DeliveryKeepsDefenses(RefreshedAt(env, s, pid, c.read), s.FleetAt(fid), c.write);
  }

  lemma PeaceKeepsDefenses(env: Env, s: State, a: Step, pid: int)
    requires Enabled(s, a) && a.Arrival? && s.HasPlanet(pid) && E.Site(s, a) == Some(pid)
             && !L.Fights(s, s.FleetAt(a.fid))
    ensures KeepsDefenses(s, Effect(env, s, a), pid)
  {
    hide Refreshed, ResolveTransport, ResolveDeploy, Colony, Founds, Caught, NextOnPlanet;
    var p0 := s.PlanetAt(pid);
    RefreshKeepsDefenses(env, p0, s.TechsOf(p0.owner), a.c.read);
    DeliveriesKeepDefenses(env, s, a.fid, a.c, pid);
  }

  lemma BattleTakesDefenses(env: Env, s: State, a: Step, pid: int)
    requires L.Sound(s) && Enabled(s, a) && a.Arrival? && L.Fights(s, s.FleetAt(a.fid))
             && s.FleetAt(a.fid).targetPlanet == Some(pid)
    ensures var t := Effect(env, s, a);
            t.HasPlanet(pid)
              && forall x :: Level(t.PlanetAt(pid).defenses, x)
                   == Level(s.PlanetAt(pid).defenses, x) - DefensesLost(env, s, a, x)
  {
    hide Refreshed, Battle, Spoils, Plundered, Victorious, L.PlanetSound, L.FleetSound, NextOnPlanet;
    var f, p0 := s.FleetAt(a.fid), s.PlanetAt(pid);
    RefreshKeepsDefenses(env, p0, s.TechsOf(p0.owner), a.c.read);
    L.RefreshBalances(env, p0, s.TechsOf(p0.owner), a.c.read);
    var p := RefreshedAt(env, s, pid, a.c.read);
    L.OnItsWay(s, a.fid, a.c.read);
    L.BattleResult(f, p, s.TechsOf(f.owner), s.TechsOf(p.owner), a.c.write);
  }

  lemma OrderKeepsDefenses(env: Env, s: State, a: Step, pid: int)
    requires (a.OrderBuilding? || a.OrderUnits? || a.OrderResearch?) && s.HasPlanet(pid) && a.pid == pid
    ensures KeepsDefenses(s, Effect(env, s, a), pid)
  {
    hide Refreshed, QueueBuilding, QueueUnits, QueueResearch;
    var p0 := s.PlanetAt(pid);
    RefreshKeepsDefenses(env, p0, s.TechsOf(p0.owner), a.c.read);
    K.OrderPaysOrNothing(env, s, a);
  }

  lemma RestKeepsDefenses(env: Env, s: State, a: Step, pid: int)
    requires Enabled(s, a) && s.HasPlanet(pid) && E.Site(s, a) == Some(pid) && !a.Arrival? && !a.Finish?
    ensures KeepsDefenses(s, Effect(env, s, a), pid)
  {
    hide Refreshed, Merged, AddAll, OriginError, RequestError, FuelFor, Launched, QueueBuilding, QueueUnits,
         QueueResearch, NextOnPlanet;
    var p0 := s.PlanetAt(pid);
    RefreshKeepsDefenses(env, p0, s.TechsOf(p0.owner), a.c.read);
    if a.Homecoming? {
      DeliveryKeepsDefenses(RefreshedAt(env, s, pid, a.c.read), s.FleetAt(a.fid), a.c.write);
    } else if a.OrderBuilding? || a.OrderUnits? || a.OrderResearch? {
      OrderKeepsDefenses(env, s, a, pid);
    }
  }

  lemma FinishAddsDefenses(env: Env, s: State, a: Step, pid: int)
    requires L.Sound(s) && Enabled(s, a) && a.Finish? && s.HasPlanet(pid) && E.Site(s, a) == Some(pid)
    ensures var t := Effect(env, s, a);
            t.HasPlanet(pid)
              && forall x :: Level(t.PlanetAt(pid).defenses, x)
                   == Level(s.PlanetAt(pid).defenses, x) + DefensesBuilt(s, a, x)
  {
    hide ApplyItem, L.Finished, L.PlanetSound, NextOnPlanet;
    L.ApplyShape(s, a.qid);
    L.FinishedPlanet(s.PlanetAt(pid), s.queue[a.qid]);
    if s.queue[a.qid].key.Study? {
      StudyKeepsPlanets(s, a.qid);
    }
  }

  lemma StudyKeepsPlanets(s: State, qid: int)
    requires 0 <= qid < |s.queue| && s.queue[qid].key.Study?
    ensures ApplyItem(s, qid).planets == s.planets
  {
  }

  /** Whatever a step does, a planet's defenses change by what is built on it and shot down on it. */
  lemma PlanetDefenses(env: Env, s: State, a: Step, pid: int, x: DefenseType)
    requires L.Sound(s) && Enabled(s, a) && s.HasPlanet(pid)
    ensures var t := Effect(env, s, a);
            && t.HasPlanet(pid)
            && Level(t.PlanetAt(pid).defenses, x)
               == Level(s.PlanetAt(pid).defenses, x)
                  + if E.Site(s, a) == Some(pid) then DefensesBuilt(s, a, x) - DefensesLost(env, s, a, x) else 0
  {
    hide Effect, L.Sound, L.Fights, L.BattleAt, NextOnPlanet;
    if E.Site(s, a) != Some(pid) {
      E.OthersUntouched(env, s, a, pid);
      assert Next(env, s, a).planets == Effect(env, s, a).planets;
    } else if a.Finish? {
      FinishAddsDefenses(env, s, a, pid);
    } else if a.Arrival? && L.Fights(s, s.FleetAt(a.fid)) {
      BattleTakesDefenses(env, s, a, pid);
    } else if a.Arrival? {
      PeaceKeepsDefenses(env, s, a, pid);
    } else {
      RestKeepsDefenses(env, s, a, pid);
    }
  }

  // ---- all planets -----------------------------------------------------------------------------

  /** Without a site on the map nothing is built or shot down. */
  lemma NoSiteNoChange(env: Env, s: State, a: Step, x: DefenseType)
    requires Enabled(s, a) && !(E.Site(s, a).Some? && s.HasPlanet(E.Site(s, a).value))
    ensures DefensesBuilt(s, a, x) == 0 && DefensesLost(env, s, a, x) == 0
  {
    hide NextOnPlanet, L.BattleAt;
  }

  lemma SettledTotal(env: Env, s: State, a: Step, x: DefenseType)
    requires L.Sound(s) && Enabled(s, a) && K.SamePlots(s.planets, Effect(env, s, a).planets)
    ensures DefenseTotal(Effect(env, s, a), x)
            == DefenseTotal(s, x) + DefensesBuilt(s, a, x) - DefensesLost(env, s, a, x)
  {
    hide Effect, L.Sound, L.BattleAt, L.Fights, NextOnPlanet, DefensesBuilt, DefensesLost;
    var after, site := Effect(env, s, a).planets, E.Site(s, a);
    forall k | 0 <= k < |s.planets| && s.planets[k].Some? && site != Some(k)
      ensures TurretsOn(x)(after[k]) == TurretsOn(x)(s.planets[k])
    {
      PlanetDefenses(env, s, a, k, x);
    }
    if site.Some? && s.HasPlanet(site.value) {
      PlanetDefenses(env, s, a, site.value, x);
      SumUpdate(s.planets, site.value, after[site.value], TurretsOn(x));
      SumSame(s.planets[site.value := after[site.value]], after, TurretsOn(x));
    } else {
      NoSiteNoChange(env, s, a, x);
      SumSame(s.planets, after, TurretsOn(x));
    }
  }

  lemma FoundingIsBare(env: Env, s: State, a: Step, x: DefenseType)
    requires Enabled(s, a) && K.IsFounding(s, a)
    ensures var t := Effect(env, s, a);
            && t.planets == s.planets + [t.planets[|s.planets|]] && TurretsOn(x)(t.planets[|s.planets|]) == 0
            && DefensesBuilt(s, a, x) == 0 && DefensesLost(env, s, a, x) == 0
  {
    hide Founds, AddAll, L.BattleAt;
  }

  lemma StepKeepsBook(env: Env, s: State, a: Step, x: DefenseType)
    requires L.Sound(s) && Enabled(s, a)
    ensures L.Sound(Next(env, s, a))
    ensures DefenseTotal(Next(env, s, a), x) == DefenseTotal(s, x) + DefensesBuilt(s, a, x) - DefensesLost(env, s, a, x)
  {
    hide Effect, L.Sound, K.IsFounding, K.SamePlots, NextOnPlanet, DefensesBuilt, DefensesLost;
    L.NextBalances(env, s, a);
    if K.IsFounding(s, a) {
      FoundingIsBare(env, s, a, x);
      var t := Effect(env, s, a);
      SumAppend(s.planets, t.planets[|s.planets|], TurretsOn(x));
    } else {
      if a.Arrival? { K.ArrivalKeepsPlots(env, s, a); } else { K.OthersKeepPlots(env, s, a); }
      SettledTotal(env, s, a, x);
    }
  }

  ghost function AllBuilt(env: Env, s: State, run: seq<Step>, x: DefenseType): int
    requires Legal(env, s, run)
    decreases |run|
  {
    if run == [] then 0 else DefensesBuilt(s, run[0], x) + AllBuilt(env, Next(env, s, run[0]), run[1..], x)
  }

  ghost function AllLost(env: Env, s: State, run: seq<Step>, x: DefenseType): int
    requires Legal(env, s, run)
    decreases |run|
  {
    if run == [] then 0 else DefensesLost(env, s, run[0], x) + AllLost(env, Next(env, s, run[0]), run[1..], x)
  }

  /** Over every run the defenses on all planets change by exactly what was built and shot down. */
  lemma {:induction false} DefensesAreConserved(env: Env, s: State, run: seq<Step>, x: DefenseType)
    requires L.Sound(s) && Legal(env, s, run)
    ensures DefenseTotal(Final(env, s, run), x)
            == DefenseTotal(s, x) + AllBuilt(env, s, run, x) - AllLost(env, s, run, x)
    decreases |run|
  {
    hide Next, Enabled, L.Sound, DefenseTotal, DefensesBuilt, DefensesLost;
    if run != [] {
      StepKeepsBook(env, s, run[0], x);
      DefensesAreConserved(env, Next(env, s, run[0]), run[1..], x);
    }
  }

  /** What is shot down was there. */
  lemma DefenseLossesBounded(env: Env, s: State, a: Step, x: DefenseType)
    requires L.Sound(s) && Enabled(s, a)
    ensures 0 <= DefensesLost(env, s, a, x)
            && (a.Arrival? && L.Fights(s, s.FleetAt(a.fid))
                ==> DefensesLost(env, s, a, x) <= Level(s.PlanetAt(s.FleetAt(a.fid).targetPlanet.value).defenses, x))
    ensures 0 <= DefensesBuilt(s, a, x)
  {
    hide Battle, Refreshed, NextOnPlanet;
    if a.Arrival? && L.Fights(s, s.FleetAt(a.fid)) {
      var f := s.FleetAt(a.fid);
      var p0 := s.PlanetAt(f.targetPlanet.value);
      RefreshKeepsDefenses(env, p0, s.TechsOf(p0.owner), a.c.read);
      var p := RefreshedAt(env, s, f.targetPlanet.value, a.c.read);
      L.BattleLosses(f.ships, s.TechsOf(f.owner), p, s.TechsOf(p.owner));
    }
  }
}
