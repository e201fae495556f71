/** Return times under recalls that read a fleet early and write it late. */
module Recalls {
  import opened Wrappers
  import opened Catalog
  import opened Sums
  import opened Formulas
  import opened World
  import E = Effects
  import L = Ledger
  import S = Settlement

  // ---- the readings behind return times ----------------------------------------------------------

  /** For every fleet the clock reading that set its present return time, and for every pending
      recall the reading it was begun with. */
  datatype Trace = Trace(turned: map<int, real>, begun: map<int, real>)

  const NO_TRACE: Trace := Trace(map[], map[])

  function Track(s: State, a: Step, tr: Trace): Trace {
    match a
    case Arrival(fid, _, c) => tr.(turned := tr.turned[fid := c.write])
    case BeginRecall(call, user, fid, c) =>
      if RecallRead(s, call, user, fid, c.read).1.Ok? then tr.(begun := tr.begun[call := c.read]) else tr
    case EndRecall(call, _) =>
      if call in s.recalls && call in tr.begun then tr.(turned := tr.turned[s.recalls[call].fleet := tr.begun[call]])
      else tr
    case _ => tr
  }

  ghost function TrackAll(env: Env, s: State, run: seq<Step>, tr: Trace): Trace
    requires Legal(env, s, run)
    decreases |run|
  {
    if run == [] then tr else TrackAll(env, Next(env, s, run[0]), run[1..], Track(s, run[0], tr))
  }

  ghost predicate FleetTraced(s: State, f: Fleet, fid: int, tr: Trace) {
    && f.departure <= s.clock
    && (f.status != Outbound ==>
          fid in tr.turned && f.departure <= tr.turned[fid] <= s.clock
          && f.returnAt == Some(TurnTime(f.departure, tr.turned[fid])))
  }

  ghost predicate RecallTraced(s: State, call: int, r: Recall, tr: Trace) {
    && 0 <= r.fleet < |s.fleets| && call in tr.begun && tr.begun[call] <= s.clock
    && (s.HasFleet(r.fleet) ==>
          s.FleetAt(r.fleet).departure <= tr.begun[call]
          && r.returnAt == TurnTime(s.FleetAt(r.fleet).departure, tr.begun[call]))
  }

  /** The trace explains every return time, set or still to be written. */
  ghost predicate Traced(s: State, tr: Trace) {
    && (forall fid :: s.HasFleet(fid) ==> FleetTraced(s, s.FleetAt(fid), fid, tr))
    && (forall call :: call in s.recalls ==> RecallTraced(s, call, s.recalls[call], tr))
  }

  /** Every universe without fleets is a place to start from. */
  lemma NothingToTrace(s: State)
    requires (forall fid :: !s.HasFleet(fid)) && s.recalls == map[]
    ensures Traced(s, NO_TRACE)
  {
  }

  /** Only its own arrival, a recall's write and its homecoming rewrite a fleet's row, and never
      its departure. */
  ghost predicate RowFollows(s: State, t: State, a: Step, fid: int)
    requires s.HasFleet(fid)
  {
    t.HasFleet(fid) ==>
      var f, g := s.FleetAt(fid), t.FleetAt(fid);
      if a.Arrival? && a.fid == fid then E.TurnedAt(f, t, fid, a.c.write)
      else if a.Homecoming? && a.fid == fid then g == f.(returnProcessed := true, status := Returned)
      else if WritesRecall(s, a, fid) then g == f.(status := Returning, returnAt := Some(s.recalls[a.call].returnAt))
      else g == f
  }

  /** The write of a recall that had read this fleet. */
  predicate WritesRecall(s: State, a: Step, fid: int) {
    a.EndRecall? && a.call in s.recalls && s.recalls[a.call].fleet == fid
  }

  lemma StepRow(env: Env, s: State, a: Step, fid: int)
    requires L.Sound(s) && Enabled(s, a) && s.HasFleet(fid)
    ensures RowFollows(s, Next(env, s, a), a, fid)
  {
    hide RefreshedAt, Arrive, Merged, DispatchError, LeftBehind, Launched, L.Sound, QueueBuilding, QueueUnits,
         QueueResearch, NextOnPlanet, E.TurnedAt, S.Rank;
    S.StepWinds(env, s, a);
    if a.Arrival? && a.fid == fid {
      TurnedAtIgnoresClock(s.FleetAt(fid), Arrive(env, s, fid, a.d, a.c), fid, a.c.write, a.c.write);
      E.ArrivedTurns(env, s, fid, a.d, a.c);
    }
  }

  lemma TurnedAtIgnoresClock(f: Fleet, t: State, fid: int, now: real, clock: real)
    ensures E.TurnedAt(f, t, fid, now) ==> E.TurnedAt(f, t.(clock := clock), fid, now)
  {
  }

  /** New rows only come from dispatches, and start out at the time of their writing. */
  lemma NewRow(env: Env, s: State, a: Step, fid: int)
    requires L.Sound(s) && Enabled(s, a)
    ensures var t := Next(env, s, a);
            !s.HasFleet(fid) && t.HasFleet(fid)
            ==> fid == |s.fleets| && t.FleetAt(fid).status == Outbound && t.FleetAt(fid).departure == a.c.write
  {
    hide Arrive, RefreshedAt, Merged, DispatchError, LeftBehind, FuelFor, FlightTime, L.Sound, QueueBuilding,
         QueueUnits, QueueResearch, NextOnPlanet;
    S.StepWinds(env, s, a);
  }

  lemma OnlyRecallsTouchRecalls(env: Env, s: State, a: Step)
    requires Enabled(s, a) && !a.BeginRecall? && !a.EndRecall?
    ensures Next(env, s, a).recalls == s.recalls
  {
    hide RefreshedAt, Arrive, Merged, DispatchError, LeftBehind, Launched, Repaired, QueueBuilding, QueueUnits,
         QueueResearch, NextOnPlanet;
    if a.Arrival? {
      ArrivalKeepsRecalls(env, s, a.fid, a.d, a.c);
    } else if a.OrderBuilding? || a.OrderUnits? || a.OrderResearch? {
      OrdersKeepRecalls(env, s, a);
    }
  }

  lemma ArrivalKeepsRecalls(env: Env, s: State, fid: int, d: Dice, c: Clock)
    requires s.HasFleet(fid)
    ensures Arrive(env, s, fid, d, c).recalls == s.recalls
  {
    hide RefreshedAt, Battle, Spoils, Plundered, Victorious, Merged, Credit, Colony, Founds, Caught, TurnedBack;
  }

  lemma OrdersKeepRecalls(env: Env, s: State, a: Step)
    requires a.OrderBuilding? || a.OrderUnits? || a.OrderResearch?
    ensures Effect(env, s, a).recalls == s.recalls
  {
    hide Refreshed, UpgradeCost, UpgradeItem, UpgradeError, Repaired, PendingLevel, StartTime, BuildTime, ResearchTime,
         Meets, Sum, LabOf;
  }

  lemma RecallsAfter(env: Env, s: State, a: Step)
    requires Enabled(s, a)
    ensures var t := Next(env, s, a);
            t.recalls == if a.EndRecall? then s.recalls - {a.call}
                         else if a.BeginRecall? && RecallRead(s, a.call, a.user, a.fid, a.c.read).1.Ok?
                         then s.recalls[a.call := Recall(a.fid, TurnTime(s.FleetAt(a.fid).departure, a.c.read))]
                         else s.recalls
  {
    hide RefreshedAt, Arrive, Return, Dispatch, QueueBuilding, QueueUnits, QueueResearch, Cancel, ViewQueue, ApplyItem,
         TurnTime, NextOnPlanet;
    if a.BeginRecall? || a.EndRecall? {
      assert a.EndRecall? && a.call !in s.recalls ==> s.recalls - {a.call} == s.recalls;
    } else {
      OnlyRecallsTouchRecalls(env, s, a);
    }
  }

  lemma FleetStaysTraced(env: Env, s: State, a: Step, tr: Trace, fid: int)
    requires L.Sound(s) && Traced(s, tr) && Enabled(s, a) && Next(env, s, a).HasFleet(fid)
    ensures FleetTraced(Next(env, s, a), Next(env, s, a).FleetAt(fid), fid, Track(s, a, tr))
  {
    hide Effect, L.Sound, NextOnPlanet, TurnTime;
    if s.HasFleet(fid) {
      StepRow(env, s, a, fid);
      assert FleetTraced(s, s.FleetAt(fid), fid, tr);
    } else {
      NewRow(env, s, a, fid);
    }
  }

  lemma RecallStaysTraced(env: Env, s: State, a: Step, tr: Trace, call: int)
    requires L.Sound(s) && Traced(s, tr) && Enabled(s, a) && call in Next(env, s, a).recalls
    ensures RecallTraced(Next(env, s, a), call, Next(env, s, a).recalls[call], Track(s, a, tr))
  {
    hide Effect, L.Sound, NextOnPlanet, TurnTime;
    var t := Next(env, s, a);
    RecallsAfter(env, s, a);
    S.StepRank(env, s, a, 0);
    var fid := t.recalls[call].fleet;
    if call in s.recalls { assert RecallTraced(s, call, s.recalls[call], tr); }
    if t.HasFleet(fid) {
      if s.HasFleet(fid) {
        StepRow(env, s, a, fid);
        assert FleetTraced(s, s.FleetAt(fid), fid, tr);
      } else {
        NewRow(env, s, a, fid);
      }
    }
  }

  lemma StepTraced(env: Env, s: State, a: Step, tr: Trace)
    requires L.Sound(s) && Traced(s, tr) && Enabled(s, a)
    ensures Traced(Next(env, s, a), Track(s, a, tr))
  {
    hide Effect, L.Sound, NextOnPlanet, FleetTraced, RecallTraced, Track;
    var t := Next(env, s, a);
    forall fid | t.HasFleet(fid) ensures FleetTraced(t, t.FleetAt(fid), fid, Track(s, a, tr)) {
      FleetStaysTraced(env, s, a, tr, fid);
    }
    forall call | call in t.recalls ensures RecallTraced(t, call, t.recalls[call], Track(s, a, tr)) {
      RecallStaysTraced(env, s, a, tr, call);
    }
  }

  lemma {:induction false} RunTraced(env: Env, s: State, run: seq<Step>, tr: Trace)
    requires L.Sound(s) && Traced(s, tr) && Legal(env, s, run)
    ensures L.Sound(Final(env, s, run)) && Traced(Final(env, s, run), TrackAll(env, s, run, tr))
    decreases |run|
  {
    hide Next, L.Sound, Enabled, Traced, Track;
    if run != [] {
      StepTraced(env, s, run[0], tr);
      L.NextBalances(env, s, run[0]);
      RunTraced(env, Next(env, s, run[0]), run[1..], Track(s, run[0], tr));
    }
  }

  /** On every run a fleet comes home no sooner after the reading that last set its return time,
      of its arrival or of a recall, than it had been out at that reading. */
  lemma HomecomingIsNotEarly(env: Env, s: State, run: seq<Step>, tr: Trace, a: Step)
    requires L.Sound(s) && Traced(s, tr) && Legal(env, s, run) && Enabled(Final(env, s, run), a) && a.Homecoming?
    ensures var f, turned := Final(env, s, run).FleetAt(a.fid), TrackAll(env, s, run, tr).turned;
            a.fid in turned && f.departure <= turned[a.fid] && a.c.read - turned[a.fid] >= turned[a.fid] - f.departure
  {
    hide Legal, Final, TrackAll, L.Sound;
    RunTraced(env, s, run, tr);
    var u := Final(env, s, run);
    assert FleetTraced(u, u.FleetAt(a.fid), a.fid, TrackAll(env, s, run, tr));
  }

  // ---- late writes ----------------------------------------------------------------------------------

  /** Some step of the run is the write of a recall of this fleet. */
  ghost predicate Overwritten(env: Env, s: State, run: seq<Step>, fid: int)
    requires Legal(env, s, run)
    decreases |run|
  {
    run != [] && (WritesRecall(s, run[0], fid) || Overwritten(env, Next(env, s, run[0]), run[1..], fid))
  }

  lemma {:induction false} GoneStaysGone(env: Env, s: State, run: seq<Step>, fid: int)
    requires L.Sound(s) && Legal(env, s, run) && fid < |s.fleets| && !s.HasFleet(fid)
    ensures !Final(env, s, run).HasFleet(fid)
    decreases |run|
  {
    hide Effect, L.Sound, NextOnPlanet;
    if run != [] {
      var t := Next(env, s, run[0]);
      if t.HasFleet(fid) { NewRow(env, s, run[0], fid); }
      S.StepRank(env, s, run[0], fid);
      GoneStaysGone(env, t, run[1..], fid);
    }
  }

  /** Every pending recall of the fleet was begun before `at`. */
  ghost predicate BegunBefore(s: State, tr: Trace, fid: int, at: real) {
    forall call :: call in s.recalls && s.recalls[call].fleet == fid ==> call in tr.begun && tr.begun[call] < at
  }

  lemma BegunBeforeStays(env: Env, s: State, a: Step, tr: Trace, fid: int, at: real)
    requires L.Sound(s) && Enabled(s, a) && s.HasFleet(fid) && s.FleetAt(fid).status != Outbound
             && BegunBefore(s, tr, fid, at)
    ensures BegunBefore(Next(env, s, a), Track(s, a, tr), fid, at)
  {
    hide Effect, L.Sound, NextOnPlanet, TurnTime;
    RecallsAfter(env, s, a);
  }

  lemma {:induction false} LastTurn(env: Env, s: State, run: seq<Step>, tr: Trace, fid: int, at: real)
    requires L.Sound(s) && Traced(s, tr) && Legal(env, s, run)
    requires s.HasFleet(fid) && s.FleetAt(fid).status != Outbound && Final(env, s, run).HasFleet(fid)
    ensures var turned := TrackAll(env, s, run, tr).turned;
            && Final(env, s, run).FleetAt(fid).departure == s.FleetAt(fid).departure
            && Final(env, s, run).FleetAt(fid).status != Outbound
            && fid in tr.turned && fid in turned
            && (Overwritten(env, s, run, fid) && BegunBefore(s, tr, fid, at) ==> turned[fid] < at)
            && (!Overwritten(env, s, run, fid) ==> turned[fid] == tr.turned[fid])
    decreases |run|
  {
    hide Effect, L.Sound, NextOnPlanet, TurnTime;
    assert FleetTraced(s, s.FleetAt(fid), fid, tr);
    if run != [] {
      var a := run[0];
      var t := Next(env, s, a);
      L.NextBalances(env, s, a);
      StepTraced(env, s, a, tr);
      if BegunBefore(s, tr, fid, at) { BegunBeforeStays(env, s, a, tr, fid, at); }
      S.StepRank(env, s, a, fid);
      if !t.HasFleet(fid) { GoneStaysGone(env, t, run[1..], fid); }
      S.NeverOutboundAgain(env, s, a, fid);
      StepRow(env, s, a, fid);
      LastTurn(env, t, run[1..], Track(s, a, tr), fid, at);
    }
  }

  lemma TurnTimeGrows(departure: real, early: real, late: real)
    requires departure <= early < late
    ensures TurnTime(departure, early) < TurnTime(departure, late)
  {
  }

  /** An arrived fleet keeps the return time of its arrival, as long home as it was out, unless a
      recall that had read it is written after the arrival; and if the reading is not of the very
      instant of the arrival, it then loses it. */
  lemma ReturnIsSymmetricIff(env: Env, s: State, a: Step, rest: seq<Step>, tr: Trace)
    requires L.Sound(s) && Traced(s, tr) && Enabled(s, a) && a.Arrival?
    requires Legal(env, Next(env, s, a), rest) && Final(env, Next(env, s, a), rest).HasFleet(a.fid)
    ensures var t := Next(env, s, a);
            var symmetric := Final(env, t, rest).FleetAt(a.fid).returnAt
                             == Some(TurnTime(s.FleetAt(a.fid).departure, a.c.write));
            && (!Overwritten(env, t, rest, a.fid) ==> symmetric)
            && (BegunBefore(s, tr, a.fid, a.c.write) ==> (symmetric <==> !Overwritten(env, t, rest, a.fid)))
  {
    hide Effect, L.Sound, NextOnPlanet, TurnTime;
    var t, fid := Next(env, s, a), a.fid;
    L.NextBalances(env, s, a);
    StepTraced(env, s, a, tr);
    StepRow(env, s, a, fid);
    S.StepRank(env, s, a, fid);
    if !t.HasFleet(fid) { GoneStaysGone(env, t, rest, fid); }
    var after := Track(s, a, tr);
    RecallsAfter(env, s, a);
    LastTurn(env, t, rest, after, fid, a.c.write);
    RunTraced(env, t, rest, after);
    var u := Final(env, t, rest);
    assert FleetTraced(u, u.FleetAt(fid), fid, TrackAll(env, t, rest, after));
    if Overwritten(env, t, rest, fid) && BegunBefore(s, tr, fid, a.c.write) {
      TurnTimeGrows(s.FleetAt(fid).departure, TrackAll(env, t, rest, after).turned[fid], a.c.write);
    }
  }

  // ---- rows of returned fleets ---------------------------------------------------------------------------

  lemma ProcessedStep(env: Env, s: State, a: Step, fid: int)
    requires L.Sound(s) && Enabled(s, a) && s.HasFleet(fid) && s.FleetAt(fid).returnProcessed
    ensures var t := Next(env, s, a);
            && t.HasFleet(fid) && t.FleetAt(fid).returnProcessed
            && t.FleetAt(fid).status == if WritesRecall(s, a, fid) then Returning else s.FleetAt(fid).status
  {
    hide RefreshedAt, Arrive, Merged, DispatchError, LeftBehind, Launched, QueueBuilding, QueueUnits, QueueResearch,
         NextOnPlanet;
    assert L.FleetSound(s.FleetAt(fid));
    S.StepWinds(env, s, a);
  }

  /** Over any run, the row of an unloaded fleet keeps its status if and only if no recall that
      had read the fleet is written in it; otherwise it ends up marked returning again. */
  lemma {:induction false} ReturnedStaysOverRunIff(env: Env, s: State, run: seq<Step>, fid: int)
    requires L.Sound(s) && Legal(env, s, run) && s.HasFleet(fid) && s.FleetAt(fid).returnProcessed
    ensures var t := Final(env, s, run);
            && t.HasFleet(fid) && t.FleetAt(fid).returnProcessed
            && t.FleetAt(fid).status == if Overwritten(env, s, run, fid) then Returning else s.FleetAt(fid).status
    decreases |run|
  {
    hide Next, L.Sound, Enabled;
    if run != [] {
      ProcessedStep(env, s, run[0], fid);
      L.NextBalances(env, s, run[0]);
      ReturnedStaysOverRunIff(env, Next(env, s, run[0]), run[1..], fid);
    }
  }

  // ---- two runs in which a recall is written late -----------------------------------------------------------

  ghost predicate OneSlot(env: Env) { env.galaxies >= 1 && env.systems >= 1 }

  function Start(): State {
    State([Some(Planet(1, Coord(1, 1, 5), Res(0.0, 0.0, 1000.0), 0.0, map[Recycler := 1], map[], map[], 0, 163, 0,
                       40))],
          [], [], map[], map[], 0.0)
  }

  function First(): Step {
    Send(Request(1, 0, Some(Mission.Recycle), Coord(1, 1, 6), map[Recycler := 1], Cost(0, 0, 0), 100), Clock(0.5, 0.5))
  }

  function Second(): Step { BeginRecall(7, 1, 0, Clock(1.0, 1.0)) }

  /** A second after the fleet is due. */
  ghost function HandledAt(env: Env): (now: real)
    ensures now >= 2.5
  {
    1.5 + FlightTime(env, Start(), First().r, Start().PlanetAt(0)) as real
  }

  ghost function Third(env: Env): Step { Arrival(0, Dice(0.0, 0, 0, 0), Clock(HandledAt(env), HandledAt(env))) }

  lemma OneRecycler()
    ensures Positive(map[Recycler := 1]) == map[Recycler := 1] && CargoCapacity(map[Recycler := 1]) == 20000
    ensures Fuel(map[Recycler := 1], 1005, 100) <= 1000
  {
    var m := map[Recycler := 1];
    assert m.Keys == {Recycler};
    SumKeysTake(m.Keys, Recycler, CargoIn(m));
    assert m.Keys - {Recycler} == {};
    E.FuelOfOneType(Recycler, 1, 1005, 100);
    assert Burn(1005, 100) <= 1.0;
  }

  lemma StartRefreshed(env: Env)
    ensures Start().HasPlanet(0) && RefreshedAt(env, Start(), 0, 0.5) == Start().PlanetAt(0)
  {
  }

  lemma FirstNeeds()
    ensures Start().HasPlanet(0) && FuelFor(Start().PlanetAt(0), First().r) <= 1000
    ensures CargoCapacity(Positive(First().r.ships)) == 20000
  {
    hide Fuel, CargoCapacity, Positive;
    OneRecycler();
    assert Distance(Start().PlanetAt(0).coord, First().r.target) == 1005;
  }

  lemma FirstMayLeave(env: Env)
    requires OneSlot(env)
    ensures E.MayLeave(env, Start(), First().r, First().c)
  {
    hide FuelFor, CargoCapacity, Positive, RefreshedAt;
    FirstNeeds();
    StartRefreshed(env);
    assert Level(First().r.ships, Recycler) > 0;
  }

  lemma DispatchOf(env: Env, s: State, r: Request, c: Clock)
    requires s.HasPlanet(r.origin) && r.mission.Some?
    ensures var p := RefreshedAt(env, s, r.origin, c.read);
            Dispatch(env, s, r, c).1.Ok? ==>
            Dispatch(env, s, r, c).0
            == s.WithPlanet(r.origin,
                            LeftBehind(p, r, c.write)).(fleets := s.fleets + [Some(Launched(env, s, r, p, c.write))])
  {
    hide RefreshedAt, LeftBehind, Launched, OriginError;
  }

  lemma FirstStep(env: Env)
    requires OneSlot(env)
    ensures Enabled(Start(), First())
    ensures var t := Next(env, Start(), First());
            && |t.fleets| == 1 && t.HasFleet(0) && t.recalls == map[] && t.clock == 0.5 && |t.planets| == 1
            && t.HasPlanet(0)
            && var f := t.FleetAt(0);
            && f.owner == 1 && f.origin == 0 && f.mission == Mission.Recycle && f.status == Outbound
            && !f.arrivalProcessed && !f.returnProcessed
            && f.departure == 0.5 && f.arrivalAt == HandledAt(env) - 1.0
  {
    hide Dispatch, E.MayLeave, RefreshedAt, FlightTime, FuelFor, LeftBehind, Positive, FindByCoord;
    FirstMayLeave(env);
    E.DispatchSucceedsIff(env, Start(), First().r, First().c);
    StartRefreshed(env);
    DispatchOf(env, Start(), First().r, First().c);
  }

  /** The recall has read the fleet and is still to be written. */
  ghost function Recalled(env: Env): State
    requires OneSlot(env)
  {
    FirstStep(env);
    Next(env, Start(), First()).(recalls := map[7 := Recall(0, 1.5)], clock := 1.0)
  }

  lemma SecondStep(env: Env)
    requires OneSlot(env)
    ensures Enabled(Start(), First())
    ensures var t := Next(env, Start(), First());
            Enabled(t, Second()) && Next(env, t, Second()) == Recalled(env)
  {
    hide Dispatch;
    FirstStep(env);
  }

  /** The fleet has arrived and turned around. */
  ghost predicate IsBack(s: State, now: real) {
    && |s.fleets| == 1 && s.HasFleet(0) && |s.planets| == 1 && s.HasPlanet(0) && s.recalls == map[7 := Recall(0, 1.5)]
    && s.clock == now
    && var f := s.FleetAt(0);
    f.origin == 0 && f.status == Returning && !f.returnProcessed && f.departure == 0.5
      && f.returnAt == Some(now + (now - 0.5))
  }

  lemma ThirdStep(env: Env)
    requires OneSlot(env)
    ensures Enabled(Recalled(env), Third(env)) && IsBack(Next(env, Recalled(env), Third(env)), HandledAt(env))
  {
    hide Dispatch, HandledAt;
    FirstStep(env);
  }

  lemma Prepend(env: Env, s: State, a: Step, rest: seq<Step>)
    requires Enabled(s, a) && Legal(env, Next(env, s, a), rest)
    ensures Legal(env, s, [a] + rest) && Final(env, s, [a] + rest) == Final(env, Next(env, s, a), rest)
  {
    hide Next, Enabled;
    assert ([a] + rest)[1..] == rest;
  }

  ghost function Opening(env: Env, rest: seq<Step>): seq<Step> { [First()] + ([Second()] + ([Third(env)] + rest)) }

  lemma FirstThree(env: Env, rest: seq<Step>)
    requires OneSlot(env)
    ensures Enabled(Recalled(env), Third(env))
    ensures var u := Next(env, Recalled(env), Third(env));
            && IsBack(u, HandledAt(env))
            && (Legal(env, u, rest) ==>
                  Legal(env, Start(), Opening(env, rest))
                  && Final(env, Start(), Opening(env, rest)) == Final(env, u, rest))
  {
    hide Next, Enabled, Start, First, Second, Third, Recalled, IsBack, Legal, Final, HandledAt;
    SecondStep(env);
    ThirdStep(env);
    if Legal(env, Next(env, Recalled(env), Third(env)), rest) {
      Prepend(env, Recalled(env), Third(env), rest);
      Prepend(env, Next(env, Start(), First()), Second(), [Third(env)] + rest);
      Prepend(env, Start(), First(), [Second()] + ([Third(env)] + rest));
    }
  }

  lemma WriteAfterArrival(env: Env, s: State, now: real)
    requires IsBack(s, now)
    ensures var run := [EndRecall(7, Clock(now, now))];
            && Legal(env, s, run)
            && var t := Final(env, s, run);
            t.HasFleet(0) && t.FleetAt(0).departure == 0.5 && t.FleetAt(0).returnAt == Some(1.5) && t.clock == now
  {
    var a := EndRecall(7, Clock(now, now));
    assert Enabled(s, a);
    Prepend(env, s, a, []);
    assert [a] + [] == [a];
  }

  lemma WriteAfterHomecoming(env: Env, s: State, now: real)
    requires IsBack(s, now) && now >= 2.5
    ensures var run := [Homecoming(0, Clock(2.0 * now, 2.0 * now))] + [EndRecall(7, Clock(2.0 * now, 2.0 * now))];
            && Legal(env, s, run)
            && var t := Final(env, s, run);
            t.HasFleet(0) && t.FleetAt(0).returnProcessed && t.FleetAt(0).status == Returning
  {
    hide RefreshedAt, Merged;
    var a, b := Homecoming(0, Clock(2.0 * now, 2.0 * now)), EndRecall(7, Clock(2.0 * now, 2.0 * now));
    assert Enabled(s, a);
    var t := Next(env, s, a);
    assert Enabled(t, b);
    Prepend(env, t, b, []);
    assert [b] + [] == [b];
    Prepend(env, s, a, [b]);
  }

  /** The run leaves the fleet due home before it arrived. */
  ghost predicate EndsEarly(env: Env, run: seq<Step>) {
    && Legal(env, Start(), run)
    && var t := Final(env, Start(), run);
    t.HasFleet(0) && t.FleetAt(0).departure == 0.5 && t.FleetAt(0).returnAt == Some(1.5)
      && t.clock == HandledAt(env) > 1.5
  }

  /** The run leaves an unloaded fleet marked returning. */
  ghost predicate EndsReopened(env: Env, run: seq<Step>) {
    && Legal(env, Start(), run)
    && var t := Final(env, Start(), run);
    t.HasFleet(0) && t.FleetAt(0).returnProcessed && t.FleetAt(0).status == Returning
  }

  /** In any universe: a recall that was read half a second after the departure and is written
      after the arrival sends the fleet home for 1.5. */
  lemma LateRecallReturnsEarly(env: Env)
    requires OneSlot(env)
    ensures EndsEarly(env, Opening(env, [EndRecall(7, Clock(HandledAt(env), HandledAt(env)))]))
  {
    hide Start, Opening, Third, Recalled, HandledAt, Legal, Final, Next, Enabled, IsBack;
    var now := HandledAt(env);
    FirstThree(env, [EndRecall(7, Clock(now, now))]);
    WriteAfterArrival(env, Next(env, Recalled(env), Third(env)), now);
  }

  /** Written after the homecoming instead, it marks an unloaded fleet as returning. */
  lemma LateRecallReopensTheRow(env: Env)
    requires OneSlot(env)
    ensures var now := 2.0 * HandledAt(env);
            EndsReopened(env, Opening(env, [Homecoming(0, Clock(now, now))] + [EndRecall(7, Clock(now, now))]))
  {
    hide Start, Opening, Third, Recalled, HandledAt, Legal, Final, Next, Enabled, IsBack;
    var now := 2.0 * HandledAt(env);
    FirstThree(env, [Homecoming(0, Clock(now, now))] + [EndRecall(7, Clock(now, now))]);
    WriteAfterHomecoming(env, Next(env, Recalled(env), Third(env)), HandledAt(env));
  }
}
