/** Lazy accrual in the world: which spans of time a planet is credited for along a run, and
    what a finishing level does to the span that is still open. */
module Windows {
  import opened Wrappers
  import opened Catalog
  import opened Sums
  import opened Formulas
  import opened World
  import A = Accrual
  import C = Combat
  import E = Effects
  import K = Colonies
  import L = Ledger
  import P = Production
  import Q = QueueSafety

  // ---- the spans a run credits -----------------------------------------------------------------

  /** The span that a step credits to a planet, if it brings it up to date. */
  ghost function Window(env: Env, s: State, a: Step, pid: int): Option<(real, real)>
    requires Enabled(s, a)
  {
    if s.HasPlanet(pid) && L.Touched(env, s, a) == Some(pid) && !A.Skips(s.PlanetAt(pid).cursor, a.c.read)
    then Some((s.PlanetAt(pid).cursor, a.c.read)) else None
  }

  ghost function Windows(env: Env, s: State, run: seq<Step>, pid: int): seq<(real, real)>
    requires Legal(env, s, run)
    decreases |run|
  {
    if run == [] then []
    else
      (if Window(env, s, run[0], pid).Some? then [Window(env, s, run[0], pid).value] else [])
      + Windows(env, Next(env, s, run[0]), run[1..], pid)
  }

  function RateOf(r: P.Rates, k: L.Kind): real {
    match k
    case Metal => r.metal
    case Crystal => r.crystal
    case Deuterium => r.deuterium
  }

  /** What a step produces is what its one window yields at the planet's rate. */
  lemma ProducedInWindow(env: Env, s: State, a: Step, pid: int, k: L.Kind)
    requires Enabled(s, a) && s.HasPlanet(pid) && L.Touched(env, s, a) == Some(pid)
    ensures var w, p := Window(env, s, a, pid), s.PlanetAt(pid);
            L.Produced(env, s, a, k)
            == if w.None? then 0.0
              else A.Gain(RateOf(env.report(p, s.TechsOf(p.owner)).perHour, k), w.value.1 - w.value.0)
  {
    hide L.Touched, NextOnPlanet, A.Gain;
  }

  ghost predicate CursorsSound(s: State) { forall pid :: s.HasPlanet(pid) ==> s.PlanetAt(pid).cursor <= s.clock }

  /** The first instant for which a planet can still be credited. */
  ghost function Unpaid(s: State, pid: int): real { if s.HasPlanet(pid) then s.PlanetAt(pid).cursor else s.clock }

  predicate Carries(cargo: Cost) { cargo.metal > 0 || cargo.crystal > 0 || cargo.deuterium > 0 }

  /** The step writes pools of its own, and with them its second clock reading as the cursor. */
  ghost predicate Stamps(env: Env, s: State, a: Step)
    requires Enabled(s, a)
  {
    match a
    case Send(_, _) => L.Succeeds(env, s, a)
    case OrderBuilding(_, _, _, _) => L.Succeeds(env, s, a)
    case OrderUnits(_, _, _, _, _) => L.Succeeds(env, s, a)
    case OrderResearch(_, _, _, _) => L.Succeeds(env, s, a)
    case CancelOrder(_, _, _) => L.Succeeds(env, s, a)
    case Arrival(fid, _, c) =>
      var f := s.FleetAt(fid);
      if f.mission == Attack then L.Fights(s, f) && Loots(f, L.BattleAt(env, s, f, c))
      else (f.mission == Transport || f.mission == Deploy) && !TargetGone(s, f) && Carries(f.cargo)
    case Homecoming(fid, _) => s.HasPlanet(s.FleetAt(fid).origin) && Carries(s.FleetAt(fid).cargo)
    case _ => false
  }

  /** Where a step leaves the cursor of a planet. */
  ghost function CursorAfter(env: Env, s: State, a: Step, pid: int): real
    requires Enabled(s, a) && s.HasPlanet(pid)
  {
    if L.Touched(env, s, a) != Some(pid) then s.PlanetAt(pid).cursor
    else if Stamps(env, s, a) then a.c.write
    else RefreshedAt(env, s, pid, a.c.read).cursor
  }

  ghost predicate CursorIs(t: State, pid: int, cursor: real) { t.HasPlanet(pid) && t.PlanetAt(pid).cursor == cursor }

  lemma DeliveryCursor(p: Planet, f: Fleet, now: real)
    ensures Credit(p, f.cargo, now).cursor == if Carries(f.cargo) then now else p.cursor
    ensures Merged(p, f, now).cursor == if Carries(f.cargo) then now else p.cursor
  {
    hide AddAll;
  }

  lemma BattleCursor(f: Fleet, p: Planet, r: C.CombatResult, loot: Cost, now: real)
    ensures Plundered(f, p, r, loot, now).cursor == if Loots(f, r) then now else p.cursor
  {
    hide AddAll, HeadCount;
  }

  lemma AttackCursor(env: Env, s: State, fid: int, c: Clock, pid: int)
    requires s.HasFleet(fid) && s.HasPlanet(pid) && s.FleetAt(fid).targetPlanet == Some(pid)
             && s.FleetAt(fid).mission == Attack
    ensures var f := s.FleetAt(fid);
            CursorIs(ResolveAttack(env, s, fid, c), pid,
                     if !L.Fights(s, f) then s.PlanetAt(pid).cursor
                     else if Loots(f, L.BattleAt(env, s, f, c)) then c.write
                     else RefreshedAt(env, s, pid, c.read).cursor)
  {
    hide Refreshed, Battle, Spoils, Plundered, Victorious, Loots;
    var f := s.FleetAt(fid);
    var p := RefreshedAt(env, s, pid, c.read);
    var r := Battle(f.ships, s.TechsOf(f.owner), p, s.TechsOf(p.owner));
    BattleCursor(f, p, r, Spoils(f, p, r), c.write);
  }

  lemma DeliveriesCursor(env: Env, s: State, fid: int, c: Clock, pid: int)
    requires s.HasFleet(fid) && s.HasPlanet(pid) && s.FleetAt(fid).targetPlanet == Some(pid)
    ensures var cursor := if Carries(s.FleetAt(fid).cargo) then c.write else RefreshedAt(env, s, pid, c.read).cursor;
            CursorIs(ResolveTransport(env, s, fid, c), pid, cursor)
              && CursorIs(ResolveDeploy(env, s, fid, c), pid, cursor)
  {
    hide Refreshed, Merged, Credit, Carries;
    DeliveryCursor(RefreshedAt(env, s, pid, c.read), s.FleetAt(fid), c.write);
  }

  lemma ArrivalCursor(env: Env, s: State, a: Step, pid: int)
    requires Enabled(s, a) && a.Arrival? && s.HasPlanet(pid) && E.Site(s, a) == Some(pid)
    ensures CursorIs(Effect(env, s, a), pid, CursorAfter(env, s, a, pid))
  {
    hide Refreshed, ResolveAttack, ResolveTransport, ResolveDeploy, Colony, Founds, Caught, Carries, Loots, Battle,
         NextOnPlanet;
    if s.FleetAt(a.fid).mission == Attack {
      AttackCursor(env, s, a.fid, a.c, pid);
    } else {
      DeliveriesCursor(env, s, a.fid, a.c, pid);
    }
  }

  lemma OrderCursor(env: Env, s: State, a: Step, pid: int)
    requires Enabled(s, a) && (a.OrderBuilding? || a.OrderUnits? || a.OrderResearch?) && s.HasPlanet(pid)
             && E.Site(s, a) == Some(pid)
    ensures CursorIs(Effect(env, s, a), pid, CursorAfter(env, s, a, pid))
  {
    hide RefreshedAt, UpgradeCost, UpgradeItem, UpgradeError, OrderError, StudyError, Repaired, PendingLevel, StartTime,
         BuildTime, ResearchTime, UnitCost, Meets, Sum, LabOf, UnitPrereqs, NextOnPlanet;
  }

  lemma RestCursor(env: Env, s: State, a: Step, pid: int)
    requires Enabled(s, a) && s.HasPlanet(pid) && E.Site(s, a) == Some(pid)
    requires !a.Arrival? && !a.OrderBuilding? && !a.OrderUnits? && !a.OrderResearch?
    ensures CursorIs(Effect(env, s, a), pid, CursorAfter(env, s, a, pid))
  {
    hide RefreshedAt, Merged, AddCount, OriginError, RequestError, FuelFor, Launched, Carries, NextOnPlanet;
    if a.Homecoming? && s.HasPlanet(s.FleetAt(a.fid).origin) {
      DeliveryCursor(RefreshedAt(env, s, s.FleetAt(a.fid).origin, a.c.read), s.FleetAt(a.fid), a.c.write);
    }
  }

  /** Only the planet a step is about is brought up to date. */
  lemma TouchedIsSite(env: Env, s: State, a: Step)
    requires Enabled(s, a) && L.Touched(env, s, a).Some?
    ensures L.Touched(env, s, a) == E.Site(s, a)
  {
    hide QueueBuilding, QueueUnits, QueueResearch, DispatchError, NextOnPlanet;
  }

  /** A cursor moves exactly so: to the write of a transaction that pays or receives, to the
      reading of one that only refreshes, and not at all otherwise. */
  lemma CursorFollows(env: Env, s: State, a: Step, pid: int)
    requires Enabled(s, a) && s.HasPlanet(pid)
    ensures CursorIs(Next(env, s, a), pid, CursorAfter(env, s, a, pid))
  {
    hide Effect, L.Touched, Stamps, RefreshedAt, NextOnPlanet;
    if L.Touched(env, s, a).Some? { TouchedIsSite(env, s, a); }
    if E.Site(s, a) != Some(pid) {
      E.OthersUntouched(env, s, a, pid);
    } else if a.Arrival? {
      ArrivalCursor(env, s, a, pid);
    } else if a.OrderBuilding? || a.OrderUnits? || a.OrderResearch? {
      OrderCursor(env, s, a, pid);
    } else {
      RestCursor(env, s, a, pid);
    }
  }

  /** A cursor never goes back, never runs ahead of the clock, and passes every window. */
  lemma CursorMoves(env: Env, s: State, a: Step, pid: int)
    requires Enabled(s, a) && s.HasPlanet(pid) && s.PlanetAt(pid).cursor <= s.clock
    ensures var t := Next(env, s, a);
            && t.HasPlanet(pid) && s.PlanetAt(pid).cursor <= t.PlanetAt(pid).cursor <= t.clock
            && (Window(env, s, a, pid).Some? ==> a.c.read <= t.PlanetAt(pid).cursor)
  {
    hide Effect, L.Touched, Stamps, NextOnPlanet;
    RefreshedCursor(env, s.PlanetAt(pid), s.TechsOf(s.PlanetAt(pid).owner), a.c.read);
    CursorFollows(env, s, a, pid);
  }

  lemma RefreshedCursor(env: Env, p: Planet, t: Techs, now: real)
    ensures Refreshed(env, p, t, now).cursor == if A.Skips(p.cursor, now) then p.cursor else now
  {
  }

  /** Planets are only ever added with a cursor at the time of their founding. */
  lemma FoundedCursor(env: Env, s: State, a: Step, pid: int)
    requires Enabled(s, a) && !s.HasPlanet(pid) && Next(env, s, a).HasPlanet(pid)
    ensures Next(env, s, a).PlanetAt(pid).cursor == a.c.write
  {
    hide RefreshedAt, ResolveAttack, ResolveTransport, ResolveDeploy, ResolveSpy, Merged, Founds, AddAll, NextOnPlanet,
         Caught, AddCount, QueueBuilding, QueueUnits, QueueResearch, Cancel, Repaired;
    if a.Arrival? {
      ArrivalFounds(env, s, a.fid, a.d, a.c, pid);
    } else if a.OrderBuilding? || a.OrderUnits? || a.OrderResearch? || a.CancelOrder? {
      K.OrderKeepsPlots(env, s, a);
    }
  }

  lemma ArrivalFounds(env: Env, s: State, fid: int, d: Dice, c: Clock, pid: int)
    requires s.HasFleet(fid) && !s.HasPlanet(pid) && Arrive(env, s, fid, d, c).HasPlanet(pid)
    ensures Arrive(env, s, fid, d, c).PlanetAt(pid).cursor == c.write
  {
    hide RefreshedAt, Battle, Spoils, Plundered, Victorious, Merged, Credit, Founds, AddAll, Caught;
  }

  /** Along every legal run the windows credited to one planet follow one another without
      overlap, whatever happens between and inside transactions: no instant is paid twice. */
  lemma {:induction false} NoInstantIsPaidTwice(env: Env, s: State, run: seq<Step>, pid: int)
    requires CursorsSound(s) && Legal(env, s, run)
    ensures A.Disjoint(Unpaid(s, pid), Windows(env, s, run, pid))
    decreases |run|
  {
    hide Next, Enabled, Window;
    if run != [] {
      var t := Next(env, s, run[0]);
      StepKeepsCursors(env, s, run[0]);
      UnpaidMoves(env, s, run[0], pid);
      NoInstantIsPaidTwice(env, t, run[1..], pid);
      var w, rest := Window(env, s, run[0], pid), Windows(env, t, run[1..], pid);
      if w.Some? {
        A.DisjointSooner(w.value.1, Unpaid(t, pid), rest);
        A.DisjointCons(Unpaid(s, pid), w.value, rest);
      } else {
        assert Windows(env, s, run, pid) == rest;
        A.DisjointSooner(Unpaid(s, pid), Unpaid(t, pid), rest);
      }
    }
  }

  lemma StepKeepsCursors(env: Env, s: State, a: Step)
    requires CursorsSound(s) && Enabled(s, a)
    ensures CursorsSound(Next(env, s, a))
  {
    hide Effect, NextOnPlanet;
    var t := Next(env, s, a);
    forall pid | t.HasPlanet(pid) ensures t.PlanetAt(pid).cursor <= t.clock {
      if s.HasPlanet(pid) { CursorMoves(env, s, a, pid); } else { FoundedCursor(env, s, a, pid); }
    }
  }

  lemma UnpaidMoves(env: Env, s: State, a: Step, pid: int)
    requires CursorsSound(s) && Enabled(s, a)
    ensures var w, t := Window(env, s, a, pid), Next(env, s, a);
            if w.Some? then Unpaid(s, pid) == w.value.0 < w.value.1 <= Unpaid(t, pid)
            else Unpaid(s, pid) <= Unpaid(t, pid)
  {
    hide Effect, NextOnPlanet, L.Touched;
    var t := Next(env, s, a);
    if s.HasPlanet(pid) {
      CursorMoves(env, s, a, pid);
    } else if t.HasPlanet(pid) {
      FoundedCursor(env, s, a, pid);
    }
  }

  // ---- looking only -----------------------------------------------------------------------------

  /** The same planet with other stocks and another cursor. */
  function Restocked(p: Planet, pools: Res, cursor: real): Planet { p.(pools := pools, cursor := cursor) }

  /** Rates and silos do not depend on what is in stock. */
  ghost predicate Fixed(env: Env) {
    && (forall p, t, pools, cursor :: env.report(Restocked(p, pools, cursor), t) == env.report(p, t))
    && (forall p, pools, cursor :: env.capacity(Restocked(p, pools, cursor)) == env.capacity(p))
  }

  lemma UniverseIsFixed(speedEconomy: Speed, speedResearch: Speed, speedFleet: int, galaxies: int, systems: int,
                        silo: nat -> nat, root: real -> real)
    ensures Fixed(Universe(speedEconomy, speedResearch, speedFleet, galaxies, systems, silo, root))
  {
  }

  lemma UniverseReports(speedEconomy: Speed, speedResearch: Speed, speedFleet: int, galaxies: int, systems: int,
                        silo: nat -> nat, root: real -> real, p: Planet, t: Techs)
    ensures Universe(speedEconomy, speedResearch, speedFleet, galaxies, systems, silo, root).report(p, t)
            == P.ComputePlanetProduction(p.buildings, t, P.Site(p.tempMin, p.tempMax, MetalBonus(p.coord.position),
                                                                CrystalBonus(p.coord.position), speedEconomy))
  {
  }

  function PoolOf(p: Planet, k: L.Kind): A.Pool { A.Pool(L.Of(p.pools, k), p.cursor) }

  ghost function Rate(env: Env, s: State, p: Planet, k: L.Kind): real {
    RateOf(env.report(p, s.TechsOf(p.owner)).perHour, k)
  }

  lemma RefreshIsRefresh(env: Env, p: Planet, t: Techs, now: real, k: L.Kind)
    ensures PoolOf(Refreshed(env, p, t, now), k)
            == A.Refresh(PoolOf(p, k), RateOf(env.report(p, t).perHour, k), L.Of(env.capacity(p), k), now)
    ensures Refreshed(env, p, t, now) == Restocked(p, Refreshed(env, p, t, now).pools, Refreshed(env, p, t, now).cursor)
  {
  }

  ghost predicate OnlyLooks(run: seq<Step>) { forall a :: a in run ==> a.LookAt? }

  /** When one planet is looked at in a run of looks. */
  function LooksAt(run: seq<Step>, pid: int): seq<real>
    decreases |run|
  {
    if run == [] then []
    else (if run[0].LookAt? && run[0].pid == pid then [run[0].c.read] else []) + LooksAt(run[1..], pid)
  }

  lemma {:induction false} LooksAscend(env: Env, s: State, run: seq<Step>, pid: int, from: real)
    requires Legal(env, s, run) && from <= s.clock
    ensures A.Ascending(from, LooksAt(run, pid))
    decreases |run|
  {
    hide Effect, NextOnPlanet;
    if run != [] {
      var t := Next(env, s, run[0]);
      if run[0].LookAt? && run[0].pid == pid {
        LooksAscend(env, t, run[1..], pid, run[0].c.read);
        var rest := LooksAt(run[1..], pid);
        assert ([run[0].c.read] + rest)[1..] == rest;
      } else {
        LooksAscend(env, t, run[1..], pid, from);
        assert LooksAt(run, pid) == LooksAt(run[1..], pid);
      }
    }
  }

  /** While players only look, every pool of every planet is refreshed as in the one-pool model. */
  lemma {:induction false} LookingRefreshes(env: Env, s: State, run: seq<Step>, pid: int, k: L.Kind)
    requires Fixed(env) && Legal(env, s, run) && OnlyLooks(run) && s.HasPlanet(pid)
    ensures var t, p := Final(env, s, run), s.PlanetAt(pid);
            && t.HasPlanet(pid) && t.techs == s.techs
            && t.PlanetAt(pid) == Restocked(p, t.PlanetAt(pid).pools, t.PlanetAt(pid).cursor)
            && PoolOf(t.PlanetAt(pid), k)
               == A.RefreshAll(PoolOf(p, k), Rate(env, s, p, k), L.Of(env.capacity(p), k), LooksAt(run, pid))
    decreases |run|
  {
    hide Refreshed, A.Refresh;
    if run != [] {
      var t, p, c := Next(env, s, run[0]), s.PlanetAt(pid), run[0].c;
      assert run[0] in run;
      assert OnlyLooks(run[1..]) by { forall a | a in run[1..] ensures a.LookAt? { assert a in run; } }
      RefreshIsRefresh(env, p, s.TechsOf(p.owner), c.read, k);
      LookingRefreshes(env, t, run[1..], pid, k);
      if run[0].pid == pid {
        var q := t.PlanetAt(pid);
        assert q == Restocked(p, q.pools, q.cursor);
        assert env.capacity(q) == env.capacity(p)
               && env.report(q, t.TechsOf(q.owner)) == env.report(p, s.TechsOf(p.owner));
        var times := LooksAt(run[1..], pid);
        assert ([c.read] + times)[1..] == times;
      } else {
        assert LooksAt(run, pid) == LooksAt(run[1..], pid);
      }
    }
  }

  /** Looking lazily, as often and at as many planets as one likes, leaves in each pool what one
      uninterrupted span up to the cursor yields, capped once. */
  lemma LookingIsLazy(env: Env, s: State, run: seq<Step>, pid: int, k: L.Kind)
    requires Fixed(env) && Legal(env, s, run) && OnlyLooks(run) && s.HasPlanet(pid)
    requires s.PlanetAt(pid).pools.NonNegative() && s.PlanetAt(pid).cursor <= s.clock
    ensures var t, p := Final(env, s, run), s.PlanetAt(pid);
            && t.HasPlanet(pid) && p.cursor <= t.PlanetAt(pid).cursor
            && L.Of(t.PlanetAt(pid).pools, k)
               == if t.PlanetAt(pid).cursor == p.cursor then L.Of(p.pools, k)
                  else A.Min(L.Of(env.capacity(p), k),
                             L.Of(p.pools, k) + A.Gain(Rate(env, s, p, k), t.PlanetAt(pid).cursor - p.cursor))
  {
    hide Next, Enabled, Legal, Final, Fixed, OnlyLooks, LooksAt, A.RefreshAll, A.Gain, A.Min;
    var p := s.PlanetAt(pid);
    LookingRefreshes(env, s, run, pid, k);
    LooksAscend(env, s, run, pid, s.clock);
    A.LazyClosedForm(PoolOf(p, k), Rate(env, s, p, k), L.Of(env.capacity(p), k), s.clock, LooksAt(run, pid));
  }

  // ---- finishing without a refresh ------------------------------------------------------------------

  lemma FinishedRestocked(p: Planet, i: Item, pools: Res, cursor: real)
    ensures L.Finished(Restocked(p, pools, cursor), i) == Restocked(L.Finished(p, i), pools, cursor)
    ensures L.Finished(p, i).pools == p.pools && L.Finished(p, i).cursor == p.cursor
            && L.Finished(p, i).owner == p.owner
  {
  }

  /** What a finished row leaves of one planet and of the technologies. */
  lemma FinishAt(s: State, qid: int, pid: int)
    requires 0 <= qid < |s.queue| && s.HasPlanet(pid)
    ensures var i, u := s.queue[qid], ApplyItem(s, qid);
            && u.HasPlanet(pid)
            && u.PlanetAt(pid)
               == (if !i.key.Study? && i.planet == pid then L.Finished(s.PlanetAt(pid), i) else s.PlanetAt(pid))
            && Q.TechsAfter(s, u, i)
  {
    hide L.Finished, ApplyItem;
    L.ApplyShape(s, qid);
    if s.queue[qid].key.Study? || s.HasPlanet(s.queue[qid].planet) { Q.FinishShape(s, qid); }
  }

  /** What finishing leaves of a planet does not depend on whether it was settled first. */
  lemma FinishCommutes(env: Env, s: State, qid: int, pid: int, mid: real)
    requires 0 <= qid < |s.queue| && s.HasPlanet(pid)
    ensures var u, v := ApplyItem(s, qid), ApplyItem(Refresh(env, s, pid, mid), qid);
            var settled := RefreshedAt(env, s, pid, mid);
            && u.HasPlanet(pid) && v.HasPlanet(pid) && v.techs == u.techs
            && u.PlanetAt(pid).owner == s.PlanetAt(pid).owner
            && u.PlanetAt(pid).pools == s.PlanetAt(pid).pools && u.PlanetAt(pid).cursor == s.PlanetAt(pid).cursor
            && v.PlanetAt(pid) == Restocked(u.PlanetAt(pid), settled.pools, settled.cursor)
  {
    hide Refreshed, L.Finished, ApplyItem;
    var p := s.PlanetAt(pid);
    RefreshIsRefresh(env, p, s.TechsOf(p.owner), mid, L.Metal);
    FinishAt(s, qid, pid);
    FinishAt(Refresh(env, s, pid, mid), qid, pid);
    var settled := RefreshedAt(env, s, pid, mid);
    FinishedRestocked(p, s.queue[qid], settled.pools, settled.cursor);
  }

  /** A row that finishes at `mid` is not preceded by a refresh.  Whatever it finishes, the pools
      of any planet, once looked at a second or more later, hold what a prompt settlement at
      `mid` would have left if and only if the planet had been refreshed within the last second
      or the change of rate and silo is harmless. */
  lemma FinishIsHarmlessIff(env: Env, s: State, qid: int, pid: int, mid: real, now: real, k: L.Kind)
    requires Fixed(env) && 0 <= qid < |s.queue| && s.HasPlanet(pid) && s.PlanetAt(pid).pools.NonNegative()
    requires s.PlanetAt(pid).cursor <= mid && mid + 1.0 <= now
    ensures var p, u := s.PlanetAt(pid), ApplyItem(s, qid);
            && u.HasPlanet(pid) && ApplyItem(Refresh(env, s, pid, mid), qid).HasPlanet(pid)
            && var late := L.Of(RefreshedAt(env, u, pid, now).pools, k);
               var prompt := L.Of(RefreshedAt(env, ApplyItem(Refresh(env, s, pid, mid), qid), pid, now).pools, k);
               late == prompt <==>
                 || A.Skips(p.cursor, mid)
                 || A.Harmless(L.Of(p.pools, k), Rate(env, s, p, k), Rate(env, u, u.PlanetAt(pid), k),
                               L.Of(env.capacity(p), k), L.Of(env.capacity(u.PlanetAt(pid)), k), p.cursor, mid, now)
  {
    hide Refreshed, ApplyItem, A.Harmless, A.Settle, A.Gain;
    FinishCommutes(env, s, qid, pid, mid);
    var p, u := s.PlanetAt(pid), ApplyItem(s, qid);
    var v := ApplyItem(Refresh(env, s, pid, mid), qid);
    var up, vp := u.PlanetAt(pid), v.PlanetAt(pid);
    assert env.report(vp, u.TechsOf(up.owner)) == env.report(up, u.TechsOf(up.owner))
           && env.capacity(vp) == env.capacity(up);
    RefreshIsRefresh(env, p, s.TechsOf(p.owner), mid, k);
    RefreshIsRefresh(env, up, u.TechsOf(up.owner), now, k);
    RefreshIsRefresh(env, vp, u.TechsOf(up.owner), now, k);
    A.RetroactiveIsHarmlessIff(L.Of(p.pools, k), Rate(env, s, p, k), Rate(env, u, up, k),
                               L.Of(env.capacity(p), k), L.Of(env.capacity(up), k), p.cursor, mid, now);
  }

  /** A second metal mine on a planet with one solar plant finishes after an hour; an hour later
      the planet holds less crystal than if it had been looked at in between. */
  lemma FinishCanCostCrystal(p: Planet, root: real -> real)
    requires p.buildings == map[BuildingType.MetalMine := 1, BuildingType.CrystalMine := 1, SolarPlant := 1]
    requires p.pools == NOTHING && p.cursor == 0.0 && p.coord.position == 4
    ensures var env := Universe(1.0, 1.0, 1, 9, 499, (level: nat) => level, root);
            var i := Item(0, p.owner, Build(BuildingType.MetalMine), 2, 1, Cost(90, 22, 0), 0.0, 3600.0, false, false);
            var s := State([Some(p)], [], [i], map[], map[], 0.0);
            && ApplyItem(s, 0).HasPlanet(0) && ApplyItem(Refresh(env, s, 0, 3600.0), 0).HasPlanet(0)
            && RefreshedAt(env, ApplyItem(s, 0), 0, 7200.0).pools.crystal
               < RefreshedAt(env, ApplyItem(Refresh(env, s, 0, 3600.0), 0), 0, 7200.0).pools.crystal
  {
    hide P.ComputePlanetProduction;
    var env := Universe(1.0, 1.0, 1, 9, 499, (level: nat) => level, root);
    var i := Item(0, p.owner, Build(BuildingType.MetalMine), 2, 1, Cost(90, 22, 0), 0.0, 3600.0, false, false);
    var s := State([Some(p)], [], [i], map[], map[], 0.0);
    P.MineCanStarveCrystal(P.Site(p.tempMin, p.tempMax, 0.0, 0.0, 1.0));
    UniverseIsFixed(1.0, 1.0, 1, 9, 499, (level: nat) => level, root);
    FinishCommutes(env, s, 0, 0, 3600.0);
    var q := ApplyItem(s, 0).PlanetAt(0);
    FinishAt(s, 0, 0);
    var b := map[BuildingType.MetalMine := 1, BuildingType.CrystalMine := 1, SolarPlant := 1];
    assert p.buildings == b && q == p.(buildings := b[BuildingType.MetalMine := 2], fieldsUsed := q.fieldsUsed);
    var site := P.Site(p.tempMin, p.tempMax, 0.0, 0.0, 1.0);
    UniverseReports(1.0, 1.0, 1, 9, 499, (level: nat) => level, root, p, map[]);
    UniverseReports(1.0, 1.0, 1, 9, 499, (level: nat) => level, root, q, map[]);
    assert env.report(p, map[]) == P.ComputePlanetProduction(b, map[], site);
    assert env.report(q, map[]) == P.ComputePlanetProduction(b[BuildingType.MetalMine := 2], map[], site);
    assert env.report(p, map[]).perHour.crystal == 37.0 && 0.0 <= env.report(q, map[]).perHour.crystal < 29.0;
    assert env.capacity(q).crystal == 10000.0 && env.capacity(p).crystal == 10000.0;
  }
}
