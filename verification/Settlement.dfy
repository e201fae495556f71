/** Each fleet is settled exactly once, however its recalls (an unlocked read and a later
    write) interleave with the sweeps and with everything else. */
module Settlement {
  import opened Wrappers
  import opened Catalog
  import opened Sums
  import opened Formulas
  import opened World
  import opened Ledger

  /** Work left in a fleet row: an arrival and a return, a return, or nothing. */
  function Rank(f: Option<Fleet>): int {
    if f.None? || f.value.returnProcessed then 0 else if f.value.status == Outbound then 2 else 1
  }

  function RankAt(s: State, fid: int): int { if s.HasFleet(fid) then Rank(s.fleets[fid]) else 0 }

  predicate Handles(a: Step, fid: int) { (a.Arrival? || a.Homecoming?) && a.fid == fid }

  /** The existing fleet row that a step may rewrite. */
  function Rewrites(s: State, a: Step): Option<int> {
    match a
    case Arrival(fid, _, _) => Some(fid)
    case Homecoming(fid, _) => Some(fid)
    case EndRecall(call, _) =>
      if call in s.recalls && s.HasFleet(s.recalls[call].fleet) then Some(s.recalls[call].fleet) else None
    case _ => None
  }

  /** A row never regains work, and handling it always takes some away. */
  ghost predicate Winds(s: State, t: State, a: Step) {
    if t.fleets == s.fleets then !a.Arrival? && !a.Homecoming?
    else if a.Send? then
      && |t.fleets| == |s.fleets| + 1 && t.fleets[..|s.fleets|] == s.fleets && Rank(t.fleets[|s.fleets|]) == 2
    else
      var fid := Rewrites(s, a);
      && fid.Some? && s.HasFleet(fid.value) && |t.fleets| == |s.fleets|
      && t.fleets == s.fleets[fid.value := t.fleets[fid.value]]
      && Rank(t.fleets[fid.value]) <= Rank(s.fleets[fid.value]) - if Handles(a, fid.value) then 1 else 0
  }

  lemma ArrivalWinds(env: Env, s: State, a: Step)
    requires Sound(s) && Enabled(s, a) && a.Arrival?
    ensures Winds(s, Next(env, s, a), a)
  {
    hide Refreshed, Battle, Spoils, Plundered, HeadCount, Remains, Merged, Credit, Colony, Founds, PlanetSound;
    var f := s.FleetAt(a.fid);
    assert Rank(s.fleets[a.fid]) == 2;
    var t := Next(env, s, a);
    assert t.fleets == s.fleets[a.fid := t.fleets[a.fid]];
    assert Rank(t.fleets[a.fid]) <= 1;
  }

  lemma StepWinds(env: Env, s: State, a: Step)
    requires Sound(s) && Enabled(s, a)
    ensures Winds(s, Next(env, s, a), a)
  {
    hide Refreshed, RefreshedAt, Arrive, Merged, DispatchError, LeftBehind, FuelFor, PlanetSound, QueueBuilding,
         QueueUnits, QueueResearch;
    if a.Arrival? {
      ArrivalWinds(env, s, a);
    } else if a.OrderBuilding? || a.OrderUnits? || a.OrderResearch? {
      OrdersKeepFleets(env, s, a);
    }
  }

  lemma OrdersKeepFleets(env: Env, s: State, a: Step)
    requires a.OrderBuilding? || a.OrderUnits? || a.OrderResearch?
    ensures Effect(env, s, a).fleets == s.fleets
  {
    hide Refreshed, UpgradeCost, Repaired, PendingLevel, StartTime, BuildTime, ResearchTime, Meets, Sum, LabOf;
  }

  lemma StepRank(env: Env, s: State, a: Step, fid: int)
    requires Sound(s) && Enabled(s, a)
    ensures var t := Next(env, s, a);
            && Sound(t) && |s.fleets| <= |t.fleets|
            && (fid < |s.fleets| ==> RankAt(t, fid) + (if Handles(a, fid) then 1 else 0) <= RankAt(s, fid))
            && (fid >= |s.fleets| ==> RankAt(t, fid) <= 2 && !Handles(a, fid))
  {
    hide Next, Sound, NextOnPlanet;
    StepWinds(env, s, a);
    NextBalances(env, s, a);
  }

  ghost function Handled(env: Env, s: State, run: seq<Step>, fid: int): nat
    requires Legal(env, s, run)
    decreases |run|
  {
    if run == [] then 0 else (if Handles(run[0], fid) then 1 else 0) + Handled(env, Next(env, s, run[0]), run[1..], fid)
  }

  /** However recalls and sweeps interleave, a fleet is handled at most once outbound and
      once on the way home. */
  lemma {:induction false} HandledAtMostTwice(env: Env, s: State, run: seq<Step>, fid: int)
    requires Sound(s) && Legal(env, s, run)
    ensures Handled(env, s, run, fid) <= if fid < |s.fleets| then RankAt(s, fid) else 2
    decreases |run|
  {
    hide Next, Sound, Enabled;
    if run != [] {
      StepRank(env, s, run[0], fid);
      HandledAtMostTwice(env, Next(env, s, run[0]), run[1..], fid);
    }
  }

  /** Work left in all fleets: twice the outbound ones plus the returning ones. */
  function Work(s: State): int { Sum(s.fleets, Rank) }

  ghost function Sends(run: seq<Step>): nat {
    if run == [] then 0 else (if run[0].Send? then 1 else 0) + Sends(run[1..])
  }
  ghost function Handlings(run: seq<Step>): nat {
    if run == [] then 0 else (if run[0].Arrival? || run[0].Homecoming? then 1 else 0) + Handlings(run[1..])
  }

  lemma StepWork(env: Env, s: State, a: Step)
    requires Sound(s) && Enabled(s, a)
    ensures Work(Next(env, s, a)) + (if a.Arrival? || a.Homecoming? then 1 else 0)
            <= Work(s) + (if a.Send? then 2 else 0)
  {
    hide Next, Sound, NextOnPlanet;
    StepWinds(env, s, a);
    var t := Next(env, s, a);
    if t.fleets != s.fleets && a.Send? {
      assert t.fleets == s.fleets + [t.fleets[|s.fleets|]];
      SumAppend(s.fleets, t.fleets[|s.fleets|], Rank);
    } else if t.fleets != s.fleets {
      var fid := Rewrites(s, a).value;
      SumUpdate(s.fleets, fid, t.fleets[fid], Rank);
    }
  }

  lemma WorkNonNegative(s: State)
    ensures Work(s) >= 0
  {
    SumNonNegative(s.fleets, Rank);
  }

  /** Every handled fleet pays for itself: a run handles arrivals and returns at most once for
      every returning fleet, twice for every outbound one and twice for every dispatch in it. */
  lemma {:induction false} FleetsDrain(env: Env, s: State, run: seq<Step>)
    requires Sound(s) && Legal(env, s, run)
    ensures Handlings(run) + Work(Final(env, s, run)) <= Work(s) + 2 * Sends(run)
    ensures Handlings(run) <= Work(s) + 2 * Sends(run)
    decreases |run|
  {
    hide Next, Sound, Enabled, Work;
    WorkNonNegative(s);
    if run != [] {
      StepWork(env, s, run[0]);
      NextBalances(env, s, run[0]);
      FleetsDrain(env, Next(env, s, run[0]), run[1..]);
    }
  }

  // ---- unloading --------------------------------------------------------------------------

  /** The step puts the fleet's ships on a planet. */
  predicate UnloadsShips(s: State, a: Step, fid: int)
    requires Handles(a, fid) ==> s.HasFleet(fid)
  {
    Handles(a, fid) &&
    var f := s.FleetAt(fid);
    if a.Homecoming? then s.HasPlanet(f.origin)
    else (f.mission == Deploy && !TargetGone(s, f) && s.PlanetAt(f.targetPlanet.value).owner == f.owner)
         || (f.mission == Colonize && Founds(s, f))
  }

  /** The step puts some cargo of the fleet into a planet's pools. */
  predicate UnloadsCargo(s: State, a: Step, fid: int)
    requires Handles(a, fid) ==> s.HasFleet(fid)
  {
    Handles(a, fid) && s.FleetAt(fid).cargo != Cost(0, 0, 0)
    && (UnloadsShips(s, a, fid)
        || (a.Arrival? && (s.FleetAt(fid).mission == Transport || s.FleetAt(fid).mission == Deploy)
            && !TargetGone(s, s.FleetAt(fid))))
  }

  ghost function ShipUnloads(env: Env, s: State, run: seq<Step>, fid: int): nat
    requires Legal(env, s, run)
    decreases |run|
  {
    if run == [] then 0
    else (if UnloadsShips(s, run[0], fid) then 1 else 0) + ShipUnloads(env, Next(env, s, run[0]), run[1..], fid)
  }

  ghost function CargoUnloads(env: Env, s: State, run: seq<Step>, fid: int): nat
    requires Legal(env, s, run)
    decreases |run|
  {
    if run == [] then 0
    else (if UnloadsCargo(s, run[0], fid) then 1 else 0) + CargoUnloads(env, Next(env, s, run[0]), run[1..], fid)
  }

  /** Whether the fleet can still unload ships: it may yet be launched, or is not settled. */
  function ShipsPending(s: State, fid: int): nat { if fid >= |s.fleets| || RankAt(s, fid) > 0 then 1 else 0 }

  /** A fleet on its way home with an empty hold has nothing more to deliver. */
  function CargoPending(s: State, fid: int): nat {
    if fid >= |s.fleets| || RankAt(s, fid) == 2 || (RankAt(s, fid) == 1 && s.FleetAt(fid).cargo != Cost(0, 0, 0)) then 1
    else 0
  }

  lemma ArrivalUnloads(env: Env, s: State, a: Step)
    requires Sound(s) && Enabled(s, a) && a.Arrival?
    ensures UnloadsShips(s, a, a.fid) ==> RankAt(Next(env, s, a), a.fid) == 0
    ensures UnloadsCargo(s, a, a.fid) ==> CargoPending(Next(env, s, a), a.fid) == 0
  {
    hide Refreshed, RefreshedAt, ResolveAttack, ResolveSpy, Merged, Credit, Colony, Founds, PlanetSound;
    var f := s.FleetAt(a.fid);
    assert f.cargo.NonNegative();
  }

  lemma StepUnloads(env: Env, s: State, a: Step, fid: int)
    requires Sound(s) && Enabled(s, a)
    ensures var t := Next(env, s, a);
            && Sound(t) && |s.fleets| <= |t.fleets|
            && ShipsPending(t, fid) + (if UnloadsShips(s, a, fid) then 1 else 0) <= ShipsPending(s, fid)
            && CargoPending(t, fid) + (if UnloadsCargo(s, a, fid) then 1 else 0) <= CargoPending(s, fid)
  {
    hide Refreshed, RefreshedAt, Arrive, Merged, Founds, Sound, NextOnPlanet;
    StepRank(env, s, a, fid);
    if a.Arrival? && a.fid == fid {
      ArrivalUnloads(env, s, a);
    } else if fid < |s.fleets| {
      StepWinds(env, s, a);
      CargoUntouched(env, s, a, fid);
    }
  }

  /** Only its own arrival changes what a fleet carries. */
  lemma CargoUntouched(env: Env, s: State, a: Step, fid: int)
    requires Sound(s) && Enabled(s, a) && !(a.Arrival? && a.fid == fid) && fid < |s.fleets|
    ensures var t := Next(env, s, a);
            s.HasFleet(fid) && t.HasFleet(fid) ==> t.FleetAt(fid).cargo == s.FleetAt(fid).cargo
  {
    hide Refreshed, RefreshedAt, Arrive, Merged, DispatchError, LeftBehind, FuelFor, Sound, QueueBuilding,
         QueueUnits, QueueResearch;
    StepWinds(env, s, a);
  }

  /** Exactly-once settlement: no run unloads a fleet's ships twice, nor its cargo. */
  lemma {:induction false} UnloadedAtMostOnce(env: Env, s: State, run: seq<Step>, fid: int)
    requires Sound(s) && Legal(env, s, run)
    ensures ShipUnloads(env, s, run, fid) <= ShipsPending(s, fid) <= 1
    ensures CargoUnloads(env, s, run, fid) <= CargoPending(s, fid) <= 1
    decreases |run|
  {
    hide Next, Sound, Enabled, ShipsPending, CargoPending, UnloadsShips, UnloadsCargo;
    PendingAtMostOne(s, fid);
    if run != [] {
      StepUnloads(env, s, run[0], fid);
      UnloadedAtMostOnce(env, Next(env, s, run[0]), run[1..], fid);
    }
  }

  lemma PendingAtMostOne(s: State, fid: int)
    ensures ShipsPending(s, fid) <= 1 && CargoPending(s, fid) <= 1
  {
  }

  // ---- what the late write of a recall can and cannot do -------------------------------------

  /** A returned fleet's row keeps saying so through a step exactly when the step is not
      the write of a recall that had been read before. */
  lemma ReturnedStaysIff(env: Env, s: State, a: Step, fid: int)
    requires Sound(s) && Enabled(s, a) && s.HasFleet(fid) && s.FleetAt(fid).status == Returned
             && s.FleetAt(fid).returnProcessed
    ensures var t := Next(env, s, a);
            && t.HasFleet(fid) && t.FleetAt(fid).returnProcessed
            && (t.FleetAt(fid).status == Returned
                <==> !(a.EndRecall? && a.call in s.recalls && s.recalls[a.call].fleet == fid))
  {
    hide Refreshed, RefreshedAt, Arrive, Merged, DispatchError, LeftBehind, FuelFor, Sound, QueueBuilding,
         QueueUnits, QueueResearch;
    StepWinds(env, s, a);
  }

  lemma NeverOutboundAgain(env: Env, s: State, a: Step, fid: int)
    requires Sound(s) && Enabled(s, a) && s.HasFleet(fid) && s.FleetAt(fid).status != Outbound
    ensures var t := Next(env, s, a);
            t.HasFleet(fid) ==>
              && t.FleetAt(fid).status != Outbound
              && (s.FleetAt(fid).returnProcessed ==> t.FleetAt(fid).returnProcessed)
  {
    hide Refreshed, RefreshedAt, Arrive, Merged, DispatchError, LeftBehind, FuelFor, Sound, QueueBuilding,
         QueueUnits, QueueResearch;
    StepWinds(env, s, a);
  }

  // ---- the sweeps -----------------------------------------------------------------------------

  lemma AttackTouchesOne(env: Env, s: State, fid: int, c: Clock)
    requires s.HasFleet(fid)
    ensures var t := ResolveAttack(env, s, fid, c);
            |t.fleets| == |s.fleets| && t.fleets == s.fleets[fid := t.fleets[fid]]
  {
    hide RefreshedAt, Battle, Spoils, Plundered, Victorious, TurnedBack;
  }

  /** A handler writes no other fleet's row. */
  lemma TouchesOne(env: Env, s: State, fid: int, d: Dice, c: Clock)
    requires s.HasFleet(fid)
    ensures var t, u := Arrive(env, s, fid, d, c), Return(env, s, fid, c);
            && |t.fleets| == |s.fleets| && t.fleets == s.fleets[fid := t.fleets[fid]]
            && |u.fleets| == |s.fleets| && u.fleets == s.fleets[fid := u.fleets[fid]]
  {
    hide RefreshedAt, ResolveAttack, Merged, Credit, Colony, Founds, TurnedBack;
    AttackTouchesOne(env, s, fid, c);
  }

  /** The rows handled one after another.  A row that is gone is passed over. */
  ghost function ArriveAll(env: Env, s: State, ids: seq<int>, dice: seq<Dice>, clocks: seq<Clock>): State
    requires |ids| <= |dice| && |ids| <= |clocks|
    decreases |ids|
  {
    if ids == [] then s
    else ArriveAll(env, if s.HasFleet(ids[0]) then Arrive(env, s, ids[0], dice[0], clocks[0]) else s, ids[1..],
                   dice[1..], clocks[1..])
  }

  ghost function ReturnAll(env: Env, s: State, ids: seq<int>, clocks: seq<Clock>): State
    requires |ids| <= |clocks|
    decreases |ids|
  {
    if ids == [] then s
    else ReturnAll(env, if s.HasFleet(ids[0]) then Return(env, s, ids[0], clocks[0]) else s, ids[1..], clocks[1..])
  }

  ghost predicate DistinctIds(ids: seq<int>) { forall j, k :: 0 <= j < k < |ids| ==> ids[j] != ids[k] }

  ghost predicate AllArriving(s: State, now: real, ids: seq<int>) {
    DistinctIds(ids) && forall k :: 0 <= k < |ids| ==> s.HasFleet(ids[k]) && DueArrival(s.FleetAt(ids[k]), now)
  }

  ghost predicate AllReturning(s: State, now: real, ids: seq<int>) {
    DistinctIds(ids) && forall k :: 0 <= k < |ids| ==> s.HasFleet(ids[k]) && DueReturn(s.FleetAt(ids[k]), now)
  }

  /** Each handler reads the clock after the one before it wrote. */
  ghost predicate Running(from: real, clocks: seq<Clock>)
    decreases |clocks|
  {
    clocks != [] ==> from <= clocks[0].read <= clocks[0].write && Running(clocks[0].write, clocks[1..])
  }

  ghost function Arrivals(ids: seq<int>, dice: seq<Dice>, clocks: seq<Clock>): seq<Step>
    requires |ids| <= |dice| && |ids| <= |clocks|
    decreases |ids|
  {
    if ids == [] then [] else [Arrival(ids[0], dice[0], clocks[0])] + Arrivals(ids[1..], dice[1..], clocks[1..])
  }

  ghost function Homecomings(ids: seq<int>, clocks: seq<Clock>): seq<Step>
    requires |ids| <= |clocks|
    decreases |ids|
  {
    if ids == [] then [] else [Homecoming(ids[0], clocks[0])] + Homecomings(ids[1..], clocks[1..])
  }

  lemma AttackIgnoresClock(env: Env, s: State, fid: int, c: Clock, clock: real)
    requires s.HasFleet(fid)
    ensures ResolveAttack(env, s.(clock := clock), fid, c) == ResolveAttack(env, s, fid, c).(clock := clock)
  {
    hide Refreshed, Battle, Spoils, Plundered, Victorious, TurnedBack;
  }

  lemma DeliveryIgnoresClock(env: Env, s: State, fid: int, c: Clock, clock: real)
    requires s.HasFleet(fid)
    ensures ResolveTransport(env, s.(clock := clock), fid, c) == ResolveTransport(env, s, fid, c).(clock := clock)
    ensures ResolveDeploy(env, s.(clock := clock), fid, c) == ResolveDeploy(env, s, fid, c).(clock := clock)
  {
    hide Refreshed, Credit, Merged, TurnedBack;
  }

  lemma ColonizeIgnoresClock(s: State, fid: int, d: Dice, c: Clock, clock: real)
    requires s.HasFleet(fid)
    ensures ResolveColonize(s.(clock := clock), fid, d, c) == ResolveColonize(s, fid, d, c).(clock := clock)
  {
    hide FindByCoord, Sum, Colony, TurnedBack;
  }

  lemma SpyIgnoresClock(env: Env, s: State, fid: int, d: Dice, c: Clock, clock: real)
    requires s.HasFleet(fid)
    ensures ResolveSpy(env, s.(clock := clock), fid, d, c) == ResolveSpy(env, s, fid, d, c).(clock := clock)
  {
    hide Refreshed, TurnedBack;
  }

  lemma ReturnIgnoresClock(env: Env, s: State, fid: int, c: Clock, clock: real)
    requires s.HasFleet(fid)
    ensures Return(env, s.(clock := clock), fid, c) == Return(env, s, fid, c).(clock := clock)
  {
    hide Refreshed, Merged;
  }

  lemma ArriveIgnoresClock(env: Env, s: State, fid: int, d: Dice, c: Clock, clock: real)
    requires s.HasFleet(fid)
    ensures Arrive(env, s.(clock := clock), fid, d, c) == Arrive(env, s, fid, d, c).(clock := clock)
  {
    hide ResolveAttack, ResolveTransport, ResolveDeploy, ResolveColonize, ResolveSpy, TurnedBack;
    AttackIgnoresClock(env, s, fid, c, clock);
    DeliveryIgnoresClock(env, s, fid, c, clock);
    ColonizeIgnoresClock(s, fid, d, c, clock);
    SpyIgnoresClock(env, s, fid, d, c, clock);
  }

  lemma {:induction false} ArriveAllIgnoresClock(env: Env, s: State, ids: seq<int>, dice: seq<Dice>, clocks: seq<Clock>,
                                                 clock: real)
    requires |ids| <= |dice| && |ids| <= |clocks|
    ensures ArriveAll(env, s.(clock := clock), ids, dice, clocks)
            == ArriveAll(env, s, ids, dice, clocks).(clock := clock)
    decreases |ids|
  {
    hide Arrive;
    if ids != [] {
      if s.HasFleet(ids[0]) {
        ArriveIgnoresClock(env, s, ids[0], dice[0], clocks[0], clock);
        ArriveAllIgnoresClock(env, Arrive(env, s, ids[0], dice[0], clocks[0]), ids[1..], dice[1..], clocks[1..], clock);
      } else {
        ArriveAllIgnoresClock(env, s, ids[1..], dice[1..], clocks[1..], clock);
      }
    }
  }

  lemma {:induction false} ReturnAllIgnoresClock(env: Env, s: State, ids: seq<int>, clocks: seq<Clock>, clock: real)
    requires |ids| <= |clocks|
    ensures ReturnAll(env, s.(clock := clock), ids, clocks) == ReturnAll(env, s, ids, clocks).(clock := clock)
    decreases |ids|
  {
    hide Return;
    if ids != [] {
      if s.HasFleet(ids[0]) {
        ReturnIgnoresClock(env, s, ids[0], clocks[0], clock);
        ReturnAllIgnoresClock(env, Return(env, s, ids[0], clocks[0]), ids[1..], clocks[1..], clock);
      } else {
        ReturnAllIgnoresClock(env, s, ids[1..], clocks[1..], clock);
      }
    }
  }

  /** An arrival sweep is a legal run of arrivals, so everything proved of runs holds of it. */
  lemma {:induction false} ArrivalSweepIsARun(env: Env, s: State, now: real, ids: seq<int>, dice: seq<Dice>,
                                              clocks: seq<Clock>)
    requires AllArriving(s, now, ids) && |ids| <= |dice| && |ids| <= |clocks| && s.clock <= now && Running(now, clocks)
    ensures var run := Arrivals(ids, dice, clocks);
            && Legal(env, s, run)
            && Final(env, s, run)
               == ArriveAll(env, s, ids, dice, clocks).(clock := if ids == [] then s.clock else clocks[|ids|-1].write)
    decreases |ids|
  {
    hide Arrive;
    if ids != [] {
      var a := Arrival(ids[0], dice[0], clocks[0]);
      var t := Next(env, s, a);
      TouchesOne(env, s, ids[0], dice[0], clocks[0]);
      forall k | 0 <= k < |ids[1..]|
        ensures t.HasFleet(ids[1..][k]) && DueArrival(t.FleetAt(ids[1..][k]), clocks[0].write)
      {
        assert ids[1..][k] == ids[k + 1] != ids[0];
      }
      ArrivalSweepIsARun(env, t, clocks[0].write, ids[1..], dice[1..], clocks[1..]);
      assert Arrivals(ids, dice, clocks)[1..] == Arrivals(ids[1..], dice[1..], clocks[1..]);
      ArriveAllIgnoresClock(env, Arrive(env, s, ids[0], dice[0], clocks[0]), ids[1..], dice[1..], clocks[1..],
                            clocks[0].write);
    }
  }

  lemma {:induction false} ReturnSweepIsARun(env: Env, s: State, now: real, ids: seq<int>, clocks: seq<Clock>)
    requires AllReturning(s, now, ids) && |ids| <= |clocks| && s.clock <= now && Running(now, clocks)
    ensures var run := Homecomings(ids, clocks);
            && Legal(env, s, run)
            && Final(env, s, run)
               == ReturnAll(env, s, ids, clocks).(clock := if ids == [] then s.clock else clocks[|ids|-1].write)
    decreases |ids|
  {
    hide Return;
    if ids != [] {
      var a := Homecoming(ids[0], clocks[0]);
      var t := Next(env, s, a);
      TouchesOne(env, s, ids[0], Dice(0.0, 0, 0, 0), clocks[0]);
      forall k | 0 <= k < |ids[1..]|
        ensures t.HasFleet(ids[1..][k]) && DueReturn(t.FleetAt(ids[1..][k]), clocks[0].write)
      {
        assert ids[1..][k] == ids[k + 1] != ids[0];
      }
      ReturnSweepIsARun(env, t, clocks[0].write, ids[1..], clocks[1..]);
      assert Homecomings(ids, clocks)[1..] == Homecomings(ids[1..], clocks[1..]);
      ReturnAllIgnoresClock(env, Return(env, s, ids[0], clocks[0]), ids[1..], clocks[1..], clocks[0].write);
    }
  }
}
