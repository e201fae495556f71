/** All invariants together: what a fresh universe keeps for ever, and why a tick of the
    scheduler is a run like any other. */
module Runs {
  import opened Wrappers
  import opened Sums
  import opened Formulas
  import opened World
  import L = Ledger
  import Q = QueueSafety
  import T = TechTree
  import K = Colonies
  import S = Settlement
  import W = Windows
  import B = Bills
  import U = Launches
  import Recalls

  /** A universe with home planets only: nothing built, known, queued or in flight. */
  ghost predicate Fresh(s: State) {
    && s.fleets == [] && s.queue == [] && s.techs == map[] && s.recalls == map[]
    && K.SlotsUnique(s.planets)
    && (forall user :: Sum(s.planets, OwnedBy(user)) <= 1)
    && (forall pid :: s.HasPlanet(pid) ==>
          L.PlanetSound(s.PlanetAt(pid)) && s.PlanetAt(pid).buildings == map[] && s.PlanetAt(pid).cursor <= s.clock)
  }

  ghost predicate Healthy(s: State) {
    && L.Sound(s) && Q.Orderly(s) && T.Closed(s) && T.StudiesOnTarget(s) && K.SlotsUnique(s.planets)
    && K.WithinLimits(s)
    && W.CursorsSound(s) && B.AllPriced(s) && U.Aimed(s)
  }

  lemma FreshIsHealthy(s: State)
    requires Fresh(s)
    ensures Healthy(s) && Recalls.Traced(s, Recalls.NO_TRACE)
  {
    Recalls.NothingToTrace(s);
    T.BareWorldIsClosed(s);
    forall i | 0 <= i < |s.planets| && s.planets[i].Some? ensures L.PlanetSound(s.planets[i].value) {
      assert s.HasPlanet(i) && s.PlanetAt(i) == s.planets[i].value;
    }
    forall user ensures Sum(s.planets, OwnedBy(user)) <= K.Limit(s, user) {
    }
  }

  lemma StepKeepsHealth(env: Env, s: State, a: Step)
    requires Healthy(s) && Enabled(s, a)
    ensures Healthy(Next(env, s, a))
  {
    hide Next, Enabled, L.Sound, Q.Orderly, T.Closed, T.StudiesOnTarget, K.SlotsUnique, K.WithinLimits, W.CursorsSound,
         B.AllPriced, U.Aimed;
    L.NextBalances(env, s, a);
    Q.StepIsOrderly(env, s, a);
    T.StepIsClosed(env, s, a);
    T.StepKeepsStudies(env, s, a);
    K.StepKeepsOrder(env, s, a);
    W.StepKeepsCursors(env, s, a);
    B.StepKeepsPrices(env, s, a);
    U.StepStaysAimed(env, s, a);
  }

  /** Every state that a fresh universe can reach is healthy in every respect at once. */
  lemma {:induction false} ReachableIsHealthy(env: Env, s: State, run: seq<Step>)
    requires Legal(env, s, run) && Healthy(s)
    ensures Healthy(Final(env, s, run))
    decreases |run|
  {
    hide Next, Enabled, Healthy;
    if run != [] {
      StepKeepsHealth(env, s, run[0]);
      ReachableIsHealthy(env, Next(env, s, run[0]), run[1..]);
    }
  }

  /** A player who joins later gets a bare home planet in a free slot: the universe stays
      healthy, and the books grow by exactly what the planet starts with. */
  lemma JoinKeepsHealth(s: State, home: Planet, now: real)
    requires Healthy(s) && L.PlanetSound(home) && home.buildings == map[]
    requires s.clock <= now && home.cursor <= now
    requires FindByCoord(s.planets, home.coord).None? && Sum(s.planets, OwnedBy(home.owner)) == 0
    ensures var t := s.(planets := s.planets + [Some(home)], clock := now);
            && Healthy(t)
            && (forall x :: L.ShipTotal(t, x) == L.ShipTotal(s, x) + Level(home.ships, x))
            && (forall k :: L.Wealth(t, k) == L.Wealth(s, k) + L.Of(home.pools, k))
  {
    hide Q.Orderly, T.Closed, T.StudiesOnTarget, B.Priced, U.Aimed, FindByCoord, Sum, L.PlanetSound, L.FleetSound,
         L.Wealth, L.ShipTotal;
    var t := s.(planets := s.planets + [Some(home)], clock := now);
    L.NewPlanet(s, home);
    L.SameTables(s.(planets := s.planets + [Some(home)]), t);
    Q.EstateKeepsOrder(s, t);
    T.SameQueueAllowed(s, t);
    T.SameKeepsStudies(s, t);
    AimSurvivesJoining(s, home, now);
    K.FoundIff(s.planets, home.coord);
    assert K.SlotsUnique(t.planets);
    forall user ensures Sum(t.planets, OwnedBy(user)) <= K.Limit(t, user) {
      SumAppend(s.planets, Some(home), OwnedBy(user));
    }
  }

  lemma AimSurvivesJoining(s: State, home: Planet, now: real)
    requires U.Aimed(s)
    ensures U.Aimed(s.(planets := s.planets + [Some(home)], clock := now))
  {
    var t := s.(planets := s.planets + [Some(home)], clock := now);
    forall fid | t.HasFleet(fid) ensures U.OnAim(t, t.FleetAt(fid)) {
      assert s.HasFleet(fid) && U.OnAim(s, s.FleetAt(fid));
    }
  }

  // ---- runs one after another -----------------------------------------------------------------

  lemma {:induction false} RunsJoin(env: Env, s: State, first: seq<Step>, rest: seq<Step>)
    requires Legal(env, s, first) && Legal(env, Final(env, s, first), rest)
    ensures Legal(env, s, first + rest) && Final(env, s, first + rest) == Final(env, Final(env, s, first), rest)
    decreases |first|
  {
    hide Next, Enabled;
    if first == [] {
      assert first + rest == rest;
    } else {
      RunsJoin(env, Next(env, s, first[0]), first[1..], rest);
      assert (first + rest)[1..] == first[1..] + rest;
    }
  }

  /** The readings of one tick: when each sweep claims its rows, and each handler's own. */
  datatype TickClocks = TickClocks(queue: real, arrivals: real, arrival: seq<Clock>, homecomings: real,
                                   homecoming: seq<Clock>)

  ghost predicate InOrder(s: State, k: TickClocks) {
    && |k.arrival| == |k.homecoming| == Q.BATCH_SIZE
    && s.clock <= k.queue <= k.arrivals && S.Running(k.arrivals, k.arrival)
    && k.arrival[Q.BATCH_SIZE - 1].write <= k.homecomings && S.Running(k.homecomings, k.homecoming)
  }

  lemma {:induction false} RunningAscends(from: real, clocks: seq<Clock>, n: nat)
    requires S.Running(from, clocks) && n < |clocks|
    ensures from <= clocks[n].write <= clocks[|clocks|-1].write
    decreases |clocks|
  {
    if n > 0 {
      RunningAscends(clocks[0].write, clocks[1..], n - 1);
    } else if |clocks| > 1 {
      RunningAscends(clocks[0].write, clocks[1..], 0);
    }
  }

  /** What the three sweeps of a tick leave, given the rows they claimed. */
  ghost function AfterTick(env: Env, s: State, k: TickClocks, dice: seq<Dice>, q: seq<int>, a: seq<int>,
                           h: seq<int>): State
    requires (forall j :: 0 <= j < |q| ==> 0 <= q[j] < |s.queue|) && |a| <= |dice| && |a| <= |k.arrival|
             && |h| <= |k.homecoming|
  {
    S.ReturnAll(env, S.ArriveAll(env, Q.Sweep(s, q), a, dice, k.arrival), h, k.homecoming)
  }

  /** A tick of the scheduler is a legal run, so it keeps everything that runs keep. */
  lemma TickIsARun(env: Env, s: State, k: TickClocks, dice: seq<Dice>, q: seq<int>, a: seq<int>, h: seq<int>)
    returns (run: seq<Step>)
    requires Q.Orderly(s) && InOrder(s, k) && |dice| == Q.BATCH_SIZE && |a| <= Q.BATCH_SIZE && |h| <= Q.BATCH_SIZE
    requires Q.Claimed(s.queue, k.queue, q) && (forall j :: 0 <= j < |q| ==> 0 <= q[j] < |s.queue|)
    requires S.AllArriving(Q.Sweep(s, q), k.arrivals, a)
    requires S.AllReturning(S.ArriveAll(env, Q.Sweep(s, q), a, dice, k.arrival), k.homecomings, h)
    ensures Legal(env, s, run)
    ensures Final(env, s, run) == AfterTick(env, s, k, dice, q, a, h).(clock := Final(env, s, run).clock)
  {
    hide Next, Enabled, Q.Sweep, S.ArriveAll, S.ReturnAll, Q.Orderly, Q.Claimed, S.DistinctIds;
    var finishes := Q.Finishes(q, Clock(k.queue, k.queue));
    Q.SweepIsARun(env, s, k.queue, q);
    var s1 := Final(env, s, finishes);
    S.ArrivalSweepIsARun(env, s1, k.arrivals, a, dice, k.arrival);
    S.ArriveAllIgnoresClock(env, Q.Sweep(s, q), a, dice, k.arrival, s1.clock);
    var arrivals := S.Arrivals(a, dice, k.arrival);
    var s2 := Final(env, s1, arrivals);
    if a != [] { RunningAscends(k.arrivals, k.arrival, |a| - 1); }
    RunningAscends(k.arrivals, k.arrival, 0);
    var t2 := S.ArriveAll(env, Q.Sweep(s, q), a, dice, k.arrival);
    S.ReturnSweepIsARun(env, s2, k.homecomings, h, k.homecoming);
    S.ReturnAllIgnoresClock(env, t2, h, k.homecoming, s2.clock);
    var homecomings := S.Homecomings(h, k.homecoming);
    RunsJoin(env, s1, arrivals, homecomings);
    RunsJoin(env, s, finishes, arrivals + homecomings);
    run := finishes + (arrivals + homecomings);
  }
}
