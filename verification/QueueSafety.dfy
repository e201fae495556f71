/** The build queue over whole runs: schedules, target levels, slots, refunds and the sweep. */
module QueueSafety {
  import opened Wrappers
  import opened Catalog
  import opened Sums
  import opened Formulas
  import opened World
  import C = Combat

  // ---- the invariant --------------------------------------------------------------------------

  ghost predicate RowSound(s: State, i: Item) {
    && s.HasPlanet(i.planet) && i.started < i.finished
    && !(i.cancelled && i.applied) && (i.applied ==> i.finished <= s.clock)
    && (i.key.Study? ==> s.PlanetAt(i.planet).owner == i.user)
    && (i.Active() && i.key.Build? ==> i.target > Level(s.PlanetAt(i.planet).buildings, i.key.building))
  }

  /** Work on one planet is done one thing after another; research runs beside it. */
  ghost predicate Chained(i: Item, j: Item) {
    i.planet == j.planet && !i.cancelled && !j.cancelled && !i.key.Study? && !j.key.Study? ==> i.finished <= j.started
  }

  /** Pending upgrades of one building aim ever higher. */
  ghost predicate Rising(i: Item, j: Item) {
    i.planet == j.planet && i.Active() && j.Active() && i.key.Build? && i.key == j.key ==> i.target < j.target
  }

  ghost predicate Pairwise(queue: seq<Item>) {
    forall i, j :: 0 <= i < j < |queue| ==> Chained(queue[i], queue[j]) && Rising(queue[i], queue[j])
  }

  function Works(pid: int): Item -> int { (i: Item) => if i.ActiveOn(pid) && !i.key.Study? then 1 else 0 }
  function Studies(pid: int): Item -> int { (i: Item) => if i.ActiveOn(pid) && i.key.Study? then 1 else 0 }

  ghost predicate Capped(queue: seq<Item>) {
    && (forall pid :: Sum(queue, Works(pid)) <= BUILD_QUEUE_MAX_ACTIVE)
    && (forall user :: Sum(queue, ActiveResearch(user)) <= 1)
  }

  ghost predicate Orderly(s: State) {
    (forall i :: i in s.queue ==> RowSound(s, i)) && Pairwise(s.queue) && Capped(s.queue)
  }

  // ---- what the other transactions leave alone ---------------------------------------------------

  /** Planets stay, with their owners and buildings, and new ones are bare. */
  ghost predicate SameEstate(s: State, t: State) {
    && (forall pid :: s.HasPlanet(pid) ==>
          t.HasPlanet(pid) && t.PlanetAt(pid).owner == s.PlanetAt(pid).owner
          && t.PlanetAt(pid).buildings == s.PlanetAt(pid).buildings)
    && (forall pid :: t.HasPlanet(pid) && !s.HasPlanet(pid) ==> t.PlanetAt(pid).buildings == map[])
  }

  predicate TouchesQueue(a: Step) {
    a.OrderBuilding? || a.OrderUnits? || a.OrderResearch? || a.CancelOrder? || a.OpenQueue? || a.Finish?
  }

  lemma RefreshKeepsEstate(env: Env, p: Planet, t: Techs, now: real)
    ensures var q := Refreshed(env, p, t, now);
            q.owner == p.owner && q.buildings == p.buildings && q.ships == p.ships && q.coord == p.coord
  {
  }

  lemma DeliveryKeepsEstate(p: Planet, f: Fleet, now: real)
    ensures Credit(p, f.cargo, now).owner == p.owner && Credit(p, f.cargo, now).buildings == p.buildings
    ensures Merged(p, f, now).owner == p.owner && Merged(p, f, now).buildings == p.buildings
  {
    hide AddAll;
  }

  lemma BattleKeepsEstate(f: Fleet, p: Planet, r: C.CombatResult, loot: Cost, now: real)
    ensures Plundered(f, p, r, loot, now).owner == p.owner && Plundered(f, p, r, loot, now).buildings == p.buildings
  {
    hide AddAll, HeadCount;
  }

  lemma AttackKeepsEstate(env: Env, s: State, fid: int, c: Clock)
    requires s.HasFleet(fid)
    ensures var t := ResolveAttack(env, s, fid, c);
            SameEstate(s, t) && t.queue == s.queue && t.techs == s.techs
  {
    hide Refreshed, Battle, Spoils, Plundered, Victorious;
    var f := s.FleetAt(fid);
    if !TargetGone(s, f) {
      var p0 := s.PlanetAt(f.targetPlanet.value);
      RefreshKeepsEstate(env, p0, s.TechsOf(p0.owner), c.read);
      var p := RefreshedAt(env, s, f.targetPlanet.value, c.read);
      var r := Battle(f.ships, s.TechsOf(f.owner), p, s.TechsOf(p.owner));
      BattleKeepsEstate(f, p, r, Spoils(f, p, r), c.write);
    }
  }

  lemma DeliveriesKeepEstate(env: Env, s: State, fid: int, c: Clock)
    requires s.HasFleet(fid)
    ensures var t, u := ResolveTransport(env, s, fid, c), ResolveDeploy(env, s, fid, c);
            && SameEstate(s, t) && t.queue == s.queue && t.techs == s.techs
            && SameEstate(s, u) && u.queue == s.queue && u.techs == s.techs
  {
    hide Refreshed, Merged, Credit, TurnedBack;
    var f := s.FleetAt(fid);
    if !TargetGone(s, f) {
      var p0 := s.PlanetAt(f.targetPlanet.value);
      RefreshKeepsEstate(env, p0, s.TechsOf(p0.owner), c.read);
      DeliveryKeepsEstate(RefreshedAt(env, s, f.targetPlanet.value, c.read), f, c.write);
    }
  }

  lemma SpyKeepsEstate(env: Env, s: State, fid: int, d: Dice, c: Clock)
    requires s.HasFleet(fid)
    ensures var t := ResolveSpy(env, s, fid, d, c);
            SameEstate(s, t) && t.queue == s.queue && t.techs == s.techs
  {
    hide Refreshed, TurnedBack, Caught;
    var f := s.FleetAt(fid);
    if !TargetGone(s, f) {
      var p0 := s.PlanetAt(f.targetPlanet.value);
      RefreshKeepsEstate(env, p0, s.TechsOf(p0.owner), c.read);
    }
  }

  lemma ArrivalKeepsEstate(env: Env, s: State, fid: int, d: Dice, c: Clock)
    requires s.HasFleet(fid)
    ensures var t := Arrive(env, s, fid, d, c);
            SameEstate(s, t) && t.queue == s.queue && t.techs == s.techs
  {
    hide ResolveAttack, ResolveTransport, ResolveDeploy, ResolveSpy, TurnedBack, Founds, AddAll;
    AttackKeepsEstate(env, s, fid, c);
    DeliveriesKeepEstate(env, s, fid, c);
    SpyKeepsEstate(env, s, fid, d, c);
  }

  lemma ReturnKeepsEstate(env: Env, s: State, fid: int, c: Clock)
    requires s.HasFleet(fid)
    ensures var t := Return(env, s, fid, c);
            SameEstate(s, t) && t.queue == s.queue && t.techs == s.techs
  {
    hide Refreshed, Merged;
    var f := s.FleetAt(fid);
    if s.HasPlanet(f.origin) {
      RefreshKeepsEstate(env, s.PlanetAt(f.origin), s.TechsOf(s.PlanetAt(f.origin).owner), c.read);
      DeliveryKeepsEstate(RefreshedAt(env, s, f.origin, c.read), f, c.write);
    }
  }

  lemma LookKeepsEstate(env: Env, s: State, pid: int, now: real)
    ensures var t := Refresh(env, s, pid, now);
            SameEstate(s, t) && t.queue == s.queue && t.techs == s.techs
  {
    hide Refreshed;
    if s.HasPlanet(pid) {
      RefreshKeepsEstate(env, s.PlanetAt(pid), s.TechsOf(s.PlanetAt(pid).owner), now);
    }
  }

  lemma OthersKeepEstate(env: Env, s: State, a: Step)
    requires Enabled(s, a) && !TouchesQueue(a)
    ensures SameEstate(s, Effect(env, s, a)) && Effect(env, s, a).queue == s.queue && Effect(env, s, a).techs == s.techs
  {
    hide Refresh, Arrive, Return, Dispatch, NextOnPlanet;
    match a
    case Arrival(fid, d, c) => ArrivalKeepsEstate(env, s, fid, d, c);
    case LookAt(pid, c) => LookKeepsEstate(env, s, pid, c.read);
    case Send(r, c) => SendKeepsEstate(env, s, r, c);
    case Homecoming(fid, c) => ReturnKeepsEstate(env, s, fid, c);
    case _ =>
  }

  lemma SendKeepsEstate(env: Env, s: State, r: Request, c: Clock)
    ensures var t := Dispatch(env, s, r, c).0;
            SameEstate(s, t) && t.queue == s.queue && t.techs == s.techs
  {
    hide Refreshed, AddAll, OriginError, RequestError, FuelFor;
    if s.HasPlanet(r.origin) {
      RefreshKeepsEstate(env, s.PlanetAt(r.origin), s.TechsOf(s.PlanetAt(r.origin).owner), c.read);
    }
  }

  lemma EstateKeepsOrder(s: State, t: State)
    requires Orderly(s) && SameEstate(s, t) && t.queue == s.queue && s.clock <= t.clock
    ensures Orderly(t)
  {
    forall i | i in t.queue ensures RowSound(t, i) {
      assert RowSound(s, i);
    }
  }

  // ---- the repair pass has nothing to do -----------------------------------------------------------

  /** On an orderly queue no pending upgrade is already built, so repairing changes nothing. */
  lemma RepairIsIdle(s: State, pid: int, buildings: map<BuildingType, int>)
    requires Orderly(s) && s.HasPlanet(pid) && buildings == s.PlanetAt(pid).buildings
    ensures Repaired(s.queue, pid, buildings) == s.queue
  {
    forall k | 0 <= k < |s.queue| ensures !Obsolete(s.queue[k], pid, buildings) {
      assert RowSound(s, s.queue[k]);
    }
  }

  // ---- joining the queue ---------------------------------------------------------------------------

  lemma {:induction false} StartAfterAll(queue: seq<Item>, pid: int, now: real)
    ensures StartTime(queue, pid, now) >= now
    ensures forall i :: i in queue && i.ActiveOn(pid) ==> i.finished <= StartTime(queue, pid, now)
  {
    if queue != [] {
      StartAfterAll(queue[..|queue|-1], pid, now);
      assert queue == queue[..|queue|-1] + [queue[|queue|-1]];
    }
  }

  lemma {:induction false} PendingAboveAll(queue: seq<Item>, pid: int, b: BuildingType, level: int)
    ensures PendingLevel(queue, pid, b, level) >= level
    ensures forall i :: i in queue && i.ActiveOn(pid) && i.key == Build(b)
              ==> i.target <= PendingLevel(queue, pid, b, level)
  {
    if queue != [] {
      PendingAboveAll(queue[..|queue|-1], pid, b, level);
      assert queue == queue[..|queue|-1] + [queue[|queue|-1]];
    }
  }

  /** The new row starts after everything that is or was worked on, aims above every
      pending upgrade, and finds a free slot. */
  ghost predicate Joins(s: State, i: Item) {
    && i.Active() && s.HasPlanet(i.planet) && i.started < i.finished
    && (i.key.Study? ==> s.PlanetAt(i.planet).owner == i.user && Sum(s.queue, ActiveResearch(i.user)) == 0)
    && (!i.key.Study? ==> i.started >= s.clock && Sum(s.queue, Works(i.planet)) < BUILD_QUEUE_MAX_ACTIVE)
    && (forall j :: j in s.queue && j.ActiveOn(i.planet) && !i.key.Study? ==> j.finished <= i.started)
    && (i.key.Build? ==> i.target > Level(s.PlanetAt(i.planet).buildings, i.key.building))
    && (forall j :: j in s.queue && j.ActiveOn(i.planet) && i.key.Build? && j.key == i.key ==> j.target < i.target)
  }

  lemma JoiningIsOrderly(s: State, i: Item, t: State)
    requires Orderly(s) && Joins(s, i) && SameEstate(s, t) && t.queue == s.queue + [i] && s.clock <= t.clock
    ensures Orderly(t)
  {
    forall j | j in t.queue ensures RowSound(t, j) {
      if j in s.queue {
        assert RowSound(s, j);
      }
    }
    forall j | j in s.queue ensures Chained(j, i) && Rising(j, i) {
      assert RowSound(s, j);
    }
    assert Pairwise(t.queue);
    JoiningIsCapped(s, i);
  }

  lemma JoiningIsCapped(s: State, i: Item)
    requires Capped(s.queue) && Joins(s, i)
    ensures Capped(s.queue + [i])
  {
    forall pid ensures Sum(s.queue + [i], Works(pid)) <= BUILD_QUEUE_MAX_ACTIVE {
      SumAppend(s.queue, i, Works(pid));
    }
    forall user ensures Sum(s.queue + [i], ActiveResearch(user)) <= 1 {
      SumAppend(s.queue, i, ActiveResearch(user));
    }
  }

  lemma WorksAreActive(queue: seq<Item>, pid: int)
    ensures Sum(queue, Works(pid)) <= Sum(queue, ActiveOn(pid))
  {
    SumMonotone(queue, Works(pid), ActiveOn(pid));
  }

  lemma PayingKeepsEstate(env: Env, s: State, pid: int, item: Item, c: Clock)
    requires s.HasPlanet(pid)
    ensures SameEstate(s, Enqueue(s, pid, RefreshedAt(env, s, pid, c.read), s.queue, item, c.write))
  {
    hide Refreshed;
    RefreshKeepsEstate(env, s.PlanetAt(pid), s.TechsOf(s.PlanetAt(pid).owner), c.read);
  }

  lemma BuildingJoins(env: Env, s: State, user: int, pid: int, b: BuildingType, c: Clock)
    requires Orderly(s) && s.clock <= c.read <= c.write && QueueBuilding(env, s, user, pid, b, c).1.Ok?
    ensures var t := QueueBuilding(env, s, user, pid, b, c).0;
            && |t.queue| > 0 && t.queue == s.queue + [t.queue[|t.queue|-1]] && Joins(s, t.queue[|t.queue|-1])
            && SameEstate(s, t) && t.techs == s.techs
  {
    hide Refreshed, UpgradeCost, Repaired, PendingLevel, StartTime, Meets, Sum, RowSound, Pairwise, Capped;
    RefreshKeepsEstate(env, s.PlanetAt(pid), s.TechsOf(s.PlanetAt(pid).owner), c.read);
    var p := RefreshedAt(env, s, pid, c.read);
    RepairIsIdle(s, pid, p.buildings);
    PendingAboveAll(s.queue, pid, b, Level(p.buildings, b));
    StartAfterAll(s.queue, pid, c.write);
    WorksAreActive(s.queue, pid);
    var t := QueueBuilding(env, s, user, pid, b, c).0;
    PayingKeepsEstate(env, s, pid, t.queue[|t.queue|-1], c);
  }

  lemma UnitsJoin(env: Env, s: State, user: int, pid: int, key: ItemKey, count: int, c: Clock)
    requires Orderly(s) && s.clock <= c.read <= c.write && (key.Hulls? || key.Turrets?)
             && QueueUnits(env, s, user, pid, key, count, c).1.Ok?
    ensures var t := QueueUnits(env, s, user, pid, key, count, c).0;
            && |t.queue| > 0 && t.queue == s.queue + [t.queue[|t.queue|-1]] && Joins(s, t.queue[|t.queue|-1])
            && SameEstate(s, t) && t.techs == s.techs
  {
    hide Refreshed, UnitCost, StartTime, Meets, Sum, RowSound, Pairwise, Capped;
    StartAfterAll(s.queue, pid, c.write);
    WorksAreActive(s.queue, pid);
    var t := QueueUnits(env, s, user, pid, key, count, c).0;
    PayingKeepsEstate(env, s, pid, t.queue[|t.queue|-1], c);
    var p := RefreshedAt(env, s, pid, c.read);
    var unit := BuildTime(UnitCost(key), Max(0, Level(p.buildings, RoboticsFactory)),
                          Max(0, Level(p.buildings, NaniteFactory)),
                          env.speedEconomy, 1.0);
    assert unit * count >= 1;
  }

  lemma ResearchJoins(env: Env, s: State, user: int, pid: int, x: TechType, c: Clock)
    requires Orderly(s) && s.clock <= c.read <= c.write && QueueResearch(env, s, user, pid, x, c).1.Ok?
    ensures var t := QueueResearch(env, s, user, pid, x, c).0;
            && |t.queue| > 0 && t.queue == s.queue + [t.queue[|t.queue|-1]] && Joins(s, t.queue[|t.queue|-1])
            && SameEstate(s, t) && t.techs == s.techs
  {
    hide Refreshed, ResearchLevelCost, Meets, Sum, LabOf, RowSound, Pairwise, Capped;
    SumNonNegative(s.queue, ActiveResearch(user));
    var t := QueueResearch(env, s, user, pid, x, c).0;
    PayingKeepsEstate(env, s, pid, t.queue[|t.queue|-1], c);
  }

  // ---- leaving the queue -----------------------------------------------------------------------------

  lemma ResolvingIsCapped(queue: seq<Item>, qid: nat, i: Item)
    requires Capped(queue) && qid < |queue| && !i.Active()
    ensures Capped(queue[qid := i])
  {
    forall pid ensures Sum(queue[qid := i], Works(pid)) <= BUILD_QUEUE_MAX_ACTIVE {
      SumUpdate(queue, qid, i, Works(pid));
    }
    forall user ensures Sum(queue[qid := i], ActiveResearch(user)) <= 1 {
      SumUpdate(queue, qid, i, ActiveResearch(user));
    }
  }

  lemma CancelIsOrderly(env: Env, s: State, user: int, qid: int, c: Clock, t: State)
    requires Orderly(s) && s.clock <= t.clock && CancelError(s, user, qid).None?
    requires t == Cancel(env, s, user, qid, c).0.(clock := t.clock)
    ensures Orderly(t) && SameEstate(s, t)
  {
    hide Refreshed, Sum, Capped;
    var item := s.queue[qid];
    RefreshKeepsEstate(env, s.PlanetAt(item.planet), s.TechsOf(s.PlanetAt(item.planet).owner), c.read);
    ResolvingIsCapped(s.queue, qid, item.(cancelled := true));
    forall i | i in t.queue ensures RowSound(t, i) {
      assert RowSound(s, if i in s.queue then i else item);
    }
    assert Pairwise(t.queue);
  }

  /** The first to finish on a planet is the first that was queued there, research apart. */
  lemma FirstInLine(s: State, qid: int, k: int)
    requires Orderly(s) && 0 <= qid < |s.queue| && 0 <= k < |s.queue| && NextOnPlanet(s, qid)
    requires s.queue[qid].Active() && s.queue[k].ActiveOn(s.queue[qid].planet) && !s.queue[qid].key.Study?
             && !s.queue[k].key.Study?
    ensures qid <= k
  {
    assert RowSound(s, s.queue[qid]) && RowSound(s, s.queue[k]);
  }

  /** Planets stay with their owners; only the finished building gains its level. */
  ghost predicate EstateAfter(s: State, t: State, i: Item) {
    forall pid :: s.HasPlanet(pid) ==>
      && t.HasPlanet(pid) && t.PlanetAt(pid).owner == s.PlanetAt(pid).owner
      && t.PlanetAt(pid).buildings
         == var b := s.PlanetAt(pid).buildings;
            if i.planet == pid && i.key.Build? then b[i.key.building := Level(b, i.key.building) + 1] else b
  }

  ghost predicate TechsAfter(s: State, t: State, i: Item) {
    t.techs == if i.key.Study?
      then s.techs[i.user := s.TechsOf(i.user)[i.key.tech := Level(s.TechsOf(i.user), i.key.tech) + 1]] else s.techs
  }

  lemma FinishShape(s: State, qid: int)
    requires 0 <= qid < |s.queue| && (s.queue[qid].key.Study? || s.HasPlanet(s.queue[qid].planet))
    ensures var t := ApplyItem(s, qid);
            EstateAfter(s, t, s.queue[qid]) && TechsAfter(s, t, s.queue[qid]) && |t.planets| == |s.planets|
            && t.queue == s.queue[qid := s.queue[qid].(applied := true)]
            && (forall pid :: t.HasPlanet(pid) ==> s.HasPlanet(pid))
  {
    hide AddCount;
  }

  lemma FinishIsOrderly(s: State, qid: int, now: real, t: State)
    requires Orderly(s) && 0 <= qid < |s.queue| && NextOnPlanet(s, qid) && DueItem(s.queue[qid], now)
    requires s.clock <= now <= t.clock && t == ApplyItem(s, qid).(clock := t.clock)
    ensures Orderly(t)
  {
    hide ApplyItem, Sum, Capped, NextOnPlanet;
    var item := s.queue[qid];
    assert RowSound(s, item);
    FinishShape(s, qid);
    ResolvingIsCapped(s.queue, qid, item.(applied := true));
    forall k | 0 <= k < |t.queue| ensures RowSound(t, t.queue[k]) {
      assert RowSound(s, s.queue[k]);
      if k != qid && s.queue[k].ActiveOn(item.planet) && s.queue[k].key.Build? && item.key == s.queue[k].key {
        FirstInLine(s, qid, k);
        assert Rising(item, s.queue[k]);
      }
    }
    assert Pairwise(t.queue);
  }

  // ---- every step, every run ----------------------------------------------------------------------------

  lemma StepIsOrderly(env: Env, s: State, a: Step)
    requires Orderly(s) && Enabled(s, a)
    ensures Orderly(Next(env, s, a))
  {
    hide Orderly, SameEstate, Joins, NextOnPlanet, Cancel, QueueBuilding, QueueUnits, QueueResearch, ApplyItem,
         Repaired;
    var t := Next(env, s, a);
    if !TouchesQueue(a) {
      hide Effect;
      OthersKeepEstate(env, s, a);
      ClockAside(s, Effect(env, s, a), t.clock);
      EstateKeepsOrder(s, t);
    } else {
      match a
      case OrderBuilding(user, pid, b, c) =>
        if QueueBuilding(env, s, user, pid, b, c).1.Ok? {
          BuildingJoins(env, s, user, pid, b, c);
          ClockAside(s, Effect(env, s, a), t.clock);
          JoiningIsOrderly(s, t.queue[|t.queue|-1], t);
        } else { Refused(env, s, a); }
      case OrderUnits(user, pid, key, count, c) =>
        if QueueUnits(env, s, user, pid, key, count, c).1.Ok? {
          UnitsJoin(env, s, user, pid, key, count, c);
          ClockAside(s, Effect(env, s, a), t.clock);
          JoiningIsOrderly(s, t.queue[|t.queue|-1], t);
        } else { Refused(env, s, a); }
      case OrderResearch(user, pid, x, c) =>
        if QueueResearch(env, s, user, pid, x, c).1.Ok? {
          ResearchJoins(env, s, user, pid, x, c);
          ClockAside(s, Effect(env, s, a), t.clock);
          JoiningIsOrderly(s, t.queue[|t.queue|-1], t);
        } else { Refused(env, s, a); }
      case CancelOrder(user, qid, c) =>
        if CancelError(s, user, qid).None? { CancelIsOrderly(env, s, user, qid, c, t); } else { Refused(env, s, a); }
      case OpenQueue(user, pid, c) =>
        if PlanetError(s, user, pid).None? { RepairIsIdle(s, pid, s.PlanetAt(pid).buildings); }
        ClockAside(s, s, t.clock);
        EstateKeepsOrder(s, t);
      case Finish(qid, c) => FinishIsOrderly(s, qid, c.read, t);
    }
  }

  lemma ClockAside(s: State, t: State, clock: real)
    ensures SameEstate(s, t) ==> SameEstate(s, t.(clock := clock))
    ensures SameEstate(s, s)
  {
  }

  /** A refused command leaves no trace but the time. */
  lemma Refused(env: Env, s: State, a: Step)
    requires Orderly(s) && Enabled(s, a)
    requires match a
             case OrderBuilding(user, pid, b, c) => !QueueBuilding(env, s, user, pid, b, c).1.Ok?
             case OrderUnits(user, pid, key, count, c) => !QueueUnits(env, s, user, pid, key, count, c).1.Ok?
             case OrderResearch(user, pid, x, c) => !QueueResearch(env, s, user, pid, x, c).1.Ok?
             case CancelOrder(user, qid, c) => CancelError(s, user, qid).Some?
             case _ => false
    ensures Next(env, s, a) == s.(clock := a.c.write) && Orderly(Next(env, s, a))
  {
    hide Refreshed, UpgradeCost, Repaired, PendingLevel, StartTime, Meets, Sum, LabOf, RowSound, Pairwise, Capped,
         Orderly, SameEstate;
    var t := s.(clock := a.c.write);
    ClockAside(s, s, t.clock);
    EstateKeepsOrder(s, t);
  }

  lemma {:induction false} RunIsOrderly(env: Env, s: State, run: seq<Step>)
    requires Orderly(s) && Legal(env, s, run)
    ensures Orderly(Final(env, s, run))
    decreases |run|
  {
    hide Next, Orderly, Enabled;
    if run != [] {
      StepIsOrderly(env, s, run[0]);
      RunIsOrderly(env, Next(env, s, run[0]), run[1..]);
    }
  }

  /** Everything queued on a planet: five in the yards, and at most the owner's one research. */
  lemma SlotsOf(s: State, pid: int)
    requires Orderly(s)
    ensures Sum(s.queue, ActiveOn(pid)) <= BUILD_QUEUE_MAX_ACTIVE + 1
  {
    SumAdds(s.queue, Works(pid), Studies(pid), ActiveOn(pid));
    if s.HasPlanet(pid) {
      var owner := s.PlanetAt(pid).owner;
      forall i | i in s.queue ensures Studies(pid)(i) <= ActiveResearch(owner)(i) {
        assert RowSound(s, i);
      }
      SumMonotone(s.queue, Studies(pid), ActiveResearch(owner));
    } else {
      forall i | i in s.queue ensures Studies(pid)(i) == 0 {
        assert RowSound(s, i);
      }
      SumZero(s.queue, Studies(pid));
    }
  }

  /** On every run from an orderly state, such as one with an empty queue: work on a planet
      never overlaps; pending upgrades of one building have distinct targets above its level
      that rise with their finish times; the slot limits hold; and the repair pass never
      finds anything to repair. */
  lemma QueueStaysSafe(env: Env, s: State, run: seq<Step>)
    requires Orderly(s) && Legal(env, s, run)
    ensures var t := Final(env, s, run);
            && (forall i, j ::
                  0 <= i < j < |t.queue| && t.queue[i].planet == t.queue[j].planet
                  && !t.queue[i].cancelled && !t.queue[j].cancelled && !t.queue[i].key.Study? && !t.queue[j].key.Study?
                  ==> t.queue[i].started < t.queue[i].finished <= t.queue[j].started < t.queue[j].finished)
            && (forall i, j ::
                  0 <= i < j < |t.queue| && t.queue[i].planet == t.queue[j].planet && t.queue[i].key == t.queue[j].key
                  && t.queue[i].key.Build? && t.queue[i].Active() && t.queue[j].Active()
                  ==> t.queue[i].target < t.queue[j].target && t.queue[i].finished < t.queue[j].finished)
            && (forall i :: i in t.queue && i.Active() && i.key.Build?
                  ==> (t.HasPlanet(i.planet)
                       && Level(t.PlanetAt(i.planet).buildings, i.key.building) < i.target))
            && (forall pid :: Sum(t.queue, Works(pid)) <= 5 && Sum(t.queue, ActiveOn(pid)) <= 6)
            && (forall user :: Sum(t.queue, ActiveResearch(user)) <= 1)
            && (forall pid :: t.HasPlanet(pid) ==> Repaired(t.queue, pid, t.PlanetAt(pid).buildings) == t.queue)
  {
    hide Legal, Final, Repaired;
    RunIsOrderly(env, s, run);
    var t := Final(env, s, run);
    forall i, j | 0 <= i < j < |t.queue| && t.queue[i].planet == t.queue[j].planet
                  && !t.queue[i].cancelled && !t.queue[j].cancelled && !t.queue[i].key.Study? && !t.queue[j].key.Study?
      ensures t.queue[i].started < t.queue[i].finished <= t.queue[j].started < t.queue[j].finished
    {
      assert RowSound(t, t.queue[i]) && RowSound(t, t.queue[j]);
      assert Chained(t.queue[i], t.queue[j]);
    }
    forall i, j | 0 <= i < j < |t.queue| && t.queue[i].planet == t.queue[j].planet && t.queue[i].key == t.queue[j].key
                  && t.queue[i].key.Build? && t.queue[i].Active() && t.queue[j].Active()
      ensures t.queue[i].target < t.queue[j].target
    {
      assert Rising(t.queue[i], t.queue[j]);
    }
    forall i | i in t.queue && i.Active() && i.key.Build?
      ensures t.HasPlanet(i.planet) && Level(t.PlanetAt(i.planet).buildings, i.key.building) < i.target
    {
      assert RowSound(t, i);
    }
    forall pid ensures Sum(t.queue, ActiveOn(pid)) <= 6 {
      SlotsOf(t, pid);
    }
    forall pid | t.HasPlanet(pid) ensures Repaired(t.queue, pid, t.PlanetAt(pid).buildings) == t.queue {
      RepairIsIdle(t, pid, t.PlanetAt(pid).buildings);
    }
  }

  // ---- target levels, and what cancelling does to them ---------------------------------------------------

  function SameJob(pid: int, b: BuildingType): Item -> int {
    (i: Item) => if i.ActiveOn(pid) && i.key == Build(b) then 1 else 0
  }

  /** The upgrade at `k` aims one above the current level and the upgrades ahead of it. */
  ghost predicate OnTarget(s: State, k: int)
    requires 0 <= k < |s.queue|
  {
    var i := s.queue[k];
    i.Active() && i.key.Build? && s.HasPlanet(i.planet)
    ==> i.target == Level(s.PlanetAt(i.planet).buildings, i.key.building) + 1
        + Sum(s.queue[..k], SameJob(i.planet, i.key.building))
  }

  /** The pending targets of a building are exactly the levels after the current one, without gaps. */
  ghost predicate Gapless(s: State) { forall k :: 0 <= k < |s.queue| ==> OnTarget(s, k) }

  lemma {:induction false} PendingIsCount(queue: seq<Item>, pid: int, b: BuildingType, level: int)
    requires forall k :: 0 <= k < |queue| && queue[k].ActiveOn(pid) && queue[k].key == Build(b)
                         ==> queue[k].target == level + 1 + Sum(queue[..k], SameJob(pid, b))
    ensures PendingLevel(queue, pid, b, level) == level + Sum(queue, SameJob(pid, b))
  {
    if queue != [] {
      var n := |queue| - 1;
      forall k | 0 <= k < n ensures queue[..n][..k] == queue[..k] {
      }
      PendingIsCount(queue[..n], pid, b, level);
    }
  }

  lemma JoiningIsGapless(s: State, i: Item, t: State)
    requires Gapless(s) && SameEstate(s, t) && t.queue == s.queue + [i]
             && (forall j :: j in s.queue ==> s.HasPlanet(j.planet))
    requires i.key.Build? && s.HasPlanet(i.planet)
             ==> i.target == Level(s.PlanetAt(i.planet).buildings, i.key.building)
                 + Sum(s.queue, SameJob(i.planet, i.key.building)) + 1
    requires s.HasPlanet(i.planet)
    ensures Gapless(t)
  {
    hide Sum;
    forall k | 0 <= k < |t.queue| ensures OnTarget(t, k) {
      if k < |s.queue| {
        assert OnTarget(s, k) && t.queue[k] in s.queue;
        assert t.queue[..k] == s.queue[..k];
      } else {
        assert t.queue[..k] == s.queue;
      }
    }
  }

  lemma BuildingIsGapless(env: Env, s: State, user: int, pid: int, b: BuildingType, c: Clock, t: State)
    requires Orderly(s) && Gapless(s) && s.clock <= c.read <= c.write && QueueBuilding(env, s, user, pid, b, c).1.Ok?
    requires t == QueueBuilding(env, s, user, pid, b, c).0.(clock := t.clock)
    ensures Gapless(t)
  {
    hide Refreshed, UpgradeCost, Repaired, PendingLevel, StartTime, Meets, Sum, Pairwise, Capped, Gapless;
    BuildingJoins(env, s, user, pid, b, c);
    RefreshKeepsEstate(env, s.PlanetAt(pid), s.TechsOf(s.PlanetAt(pid).owner), c.read);
    var p := RefreshedAt(env, s, pid, c.read);
    RepairIsIdle(s, pid, p.buildings);
    GaplessJob(s, pid, b);
    PendingIsCount(s.queue, pid, b, Level(p.buildings, b));
    forall j | j in s.queue ensures s.HasPlanet(j.planet) {
      assert RowSound(s, j);
    }
    ClockAside(s, QueueBuilding(env, s, user, pid, b, c).0, t.clock);
    JoiningIsGapless(s, t.queue[|t.queue|-1], t);
  }

  lemma GaplessJob(s: State, pid: int, b: BuildingType)
    requires Gapless(s) && s.HasPlanet(pid)
    ensures forall k :: 0 <= k < |s.queue| && s.queue[k].ActiveOn(pid) && s.queue[k].key == Build(b)
                        ==> s.queue[k].target
                            == Level(s.PlanetAt(pid).buildings, b) + 1 + Sum(s.queue[..k], SameJob(pid, b))
  {
    hide Sum;
    forall k | 0 <= k < |s.queue| && s.queue[k].ActiveOn(pid) && s.queue[k].key == Build(b)
      ensures s.queue[k].target == Level(s.PlanetAt(pid).buildings, b) + 1 + Sum(s.queue[..k], SameJob(pid, b))
    {
      assert OnTarget(s, k);
    }
  }

  /** What resolving row `qid` does to the count of upgrades ahead of row `k`. */
  lemma AheadAfter(queue: seq<Item>, qid: nat, i: Item, k: nat, pid: int, b: BuildingType)
    requires qid < |queue| && k <= |queue| && !i.Active()
    ensures Sum(queue[qid := i][..k], SameJob(pid, b))
            == Sum(queue[..k], SameJob(pid, b)) - if qid < k then SameJob(pid, b)(queue[qid]) else 0
  {
    if qid < k {
      assert queue[qid := i][..k] == queue[..k][qid := i];
      SumUpdate(queue[..k], qid, i, SameJob(pid, b));
    } else {
      assert queue[qid := i][..k] == queue[..k];
    }
  }

  /** The finished upgrade was first in line, so nothing was counted ahead of it. */
  lemma NothingAhead(s: State, qid: int)
    requires Orderly(s) && 0 <= qid < |s.queue| && NextOnPlanet(s, qid) && s.queue[qid].Active()
             && s.queue[qid].key.Build?
    ensures Sum(s.queue[..qid], SameJob(s.queue[qid].planet, s.queue[qid].key.building)) == 0
    ensures forall k :: 0 <= k < qid && s.queue[k].ActiveOn(s.queue[qid].planet) ==> s.queue[k].key != s.queue[qid].key
  {
    hide Orderly, NextOnPlanet;
    var i := s.queue[qid];
    forall k | 0 <= k < qid ensures SameJob(i.planet, i.key.building)(s.queue[k]) == 0 {
      if SameJob(i.planet, i.key.building)(s.queue[k]) != 0 {
        FirstInLine(s, qid, k);
      }
    }
    SumZero(s.queue[..qid], SameJob(i.planet, i.key.building));
  }

  /** Without cancellations, a finished upgrade leaves its building exactly at the target
      it was ordered with. */
  lemma FinishHitsTarget(s: State, qid: int)
    requires Orderly(s) && Gapless(s) && 0 <= qid < |s.queue| && NextOnPlanet(s, qid) && s.queue[qid].Active()
             && s.queue[qid].key.Build?
    ensures var t := ApplyItem(s, qid);
            t.HasPlanet(s.queue[qid].planet)
            && Level(t.PlanetAt(s.queue[qid].planet).buildings, s.queue[qid].key.building) == s.queue[qid].target
  {
    hide NextOnPlanet, ApplyItem, Sum, Pairwise, Capped;
    assert RowSound(s, s.queue[qid]) && OnTarget(s, qid);
    NothingAhead(s, qid);
    FinishShape(s, qid);
  }

  /** Whatever was cancelled, no upgrade takes a building past its target. */
  lemma FinishNeverOvershoots(s: State, qid: int)
    requires Orderly(s) && 0 <= qid < |s.queue| && s.queue[qid].Active() && s.queue[qid].key.Build?
    ensures var t := ApplyItem(s, qid);
            t.HasPlanet(s.queue[qid].planet)
            && Level(t.PlanetAt(s.queue[qid].planet).buildings, s.queue[qid].key.building) <= s.queue[qid].target
  {
    hide ApplyItem, Pairwise, Capped;
    assert RowSound(s, s.queue[qid]);
    FinishShape(s, qid);
  }

  lemma FinishIsGapless(s: State, qid: int, t: State)
    requires Orderly(s) && Gapless(s) && 0 <= qid < |s.queue| && NextOnPlanet(s, qid) && s.queue[qid].Active()
    requires t == ApplyItem(s, qid).(clock := t.clock)
    ensures Gapless(t)
  {
    hide NextOnPlanet, ApplyItem, Sum, Pairwise, Capped, Gapless;
    var item := s.queue[qid];
    assert RowSound(s, item);
    FinishShape(s, qid);
    if item.key.Build? { NothingAhead(s, qid); }
    forall k | 0 <= k < |t.queue| ensures OnTarget(t, k) {
      assert RowSound(s, s.queue[k]);
      OnTargetAfter(s, qid, t, k);
    }
    GaplessIf(t);
  }

  lemma GaplessIf(t: State)
    requires forall k :: 0 <= k < |t.queue| ==> OnTarget(t, k)
    ensures Gapless(t)
  {
  }

  lemma OnTargetAfter(s: State, qid: int, t: State, k: int)
    requires Gapless(s) && 0 <= qid < |s.queue| && s.queue[qid].Active() && 0 <= k < |s.queue|
    requires s.HasPlanet(s.queue[k].planet) && EstateAfter(s, t, s.queue[qid])
             && t.queue == s.queue[qid := s.queue[qid].(applied := true)]
    requires s.queue[qid].key.Build? && k < qid && s.queue[k].ActiveOn(s.queue[qid].planet)
             ==> s.queue[k].key != s.queue[qid].key
    ensures OnTarget(t, k)
  {
    hide Sum, Gapless;
    if k != qid && s.queue[k].Active() && s.queue[k].key.Build? {
      GaplessAt(s, k);
      AheadAfter(s.queue, qid, s.queue[qid].(applied := true), k, s.queue[k].planet, s.queue[k].key.building);
    }
  }

  lemma GaplessAt(s: State, k: int)
    requires Gapless(s) && 0 <= k < |s.queue|
    ensures OnTarget(s, k)
  {
  }

  /** Another upgrade of the same building is pending behind this one. */
  ghost predicate Followed(queue: seq<Item>, qid: int)
    requires 0 <= qid < |queue|
  {
    queue[qid].key.Build? &&
    exists k :: qid < k < |queue| && queue[k].ActiveOn(queue[qid].planet) && queue[k].key == queue[qid].key
  }

  /** Cancelling keeps the targets gapless if and only if nothing later was ordered for the
      same building: a later upgrade keeps the target that counted on the cancelled one. */
  lemma CancelIsGaplessIff(env: Env, s: State, user: int, qid: int, c: Clock)
    requires Orderly(s) && Gapless(s) && CancelError(s, user, qid).None?
    ensures Gapless(Cancel(env, s, user, qid, c).0) <==> !Followed(s.queue, qid)
  {
    hide Refreshed, Sum, Pairwise, Capped, Gapless;
    var item := s.queue[qid];
    var t := Cancel(env, s, user, qid, c).0;
    RefreshKeepsEstate(env, s.PlanetAt(item.planet), s.TechsOf(s.PlanetAt(item.planet).owner), c.read);
    assert SameEstate(s, t);
    forall k | 0 <= k < |s.queue|
      ensures OnTarget(t, k)
              <==> !(item.key.Build? && qid < k && s.queue[k].ActiveOn(item.planet) && s.queue[k].key == item.key)
    {
      CancelOnTarget(s, qid, t, k);
    }
    if Gapless(t) {
      forall k | 0 <= k < |s.queue| ensures OnTarget(t, k) {
        GaplessAt(t, k);
      }
    } else if !Followed(s.queue, qid) {
      GaplessIf(t);
    }
  }

  lemma CancelOnTarget(s: State, qid: int, t: State, k: int)
    requires Orderly(s) && Gapless(s) && 0 <= qid < |s.queue| && s.queue[qid].Active() && 0 <= k < |s.queue|
    requires SameEstate(s, t) && t.queue == s.queue[qid := s.queue[qid].(cancelled := true)]
    ensures var item := s.queue[qid];
            OnTarget(t, k) <==> !(item.key.Build? && qid < k && s.queue[k].ActiveOn(item.planet)
                                  && s.queue[k].key == item.key)
  {
    hide Sum, Gapless, Pairwise, Capped;
    assert RowSound(s, s.queue[k]);
    if k != qid && s.queue[k].Active() && s.queue[k].key.Build? {
      GaplessAt(s, k);
      AheadAfter(s.queue, qid, s.queue[qid].(cancelled := true), k, s.queue[k].planet, s.queue[k].key.building);
    }
  }

  lemma EstateKeepsTargets(s: State, t: State)
    requires Orderly(s) && Gapless(s) && SameEstate(s, t) && t.queue == s.queue
    ensures Gapless(t)
  {
    hide Sum, Pairwise, Capped;
    forall k | 0 <= k < |t.queue| ensures OnTarget(t, k) {
      assert RowSound(s, s.queue[k]) && OnTarget(s, k);
    }
  }

  lemma OtherJoinsGapless(s: State, t: State)
    requires Orderly(s) && Gapless(s) && |t.queue| > 0 && t.queue == s.queue + [t.queue[|t.queue|-1]]
    requires Joins(s, t.queue[|t.queue|-1]) && SameEstate(s, t) && !t.queue[|t.queue|-1].key.Build?
    ensures Gapless(t)
  {
    hide Sum, Pairwise, Capped;
    forall j | j in s.queue ensures s.HasPlanet(j.planet) {
      assert RowSound(s, j);
    }
    JoiningIsGapless(s, t.queue[|t.queue|-1], t);
  }

  lemma StepIsGapless(env: Env, s: State, a: Step)
    requires Orderly(s) && Gapless(s) && Enabled(s, a)
    requires a.CancelOrder? && CancelError(s, a.user, a.qid).None? ==> !Followed(s.queue, a.qid)
    ensures Gapless(Next(env, s, a))
  {
    hide Followed, CancelError, Orderly, Gapless, SameEstate, Joins, NextOnPlanet, Cancel, QueueBuilding, QueueUnits,
         QueueResearch, ApplyItem, Repaired;
    var t := Next(env, s, a);
    ClockAside(s, Effect(env, s, a), t.clock);
    ClockAside(s, s, t.clock);
    if !TouchesQueue(a) {
      hide Effect;
      OthersKeepEstate(env, s, a);
      EstateKeepsTargets(s, t);
    } else {
      match a
      case OrderBuilding(user, pid, b, c) =>
        if QueueBuilding(env, s, user, pid, b, c).1.Ok? {
          BuildingIsGapless(env, s, user, pid, b, c, t);
        } else { Refused(env, s, a); EstateKeepsTargets(s, t); }
      case OrderUnits(user, pid, key, count, c) =>
        if QueueUnits(env, s, user, pid, key, count, c).1.Ok? {
          UnitsJoin(env, s, user, pid, key, count, c);
          UnitsAreNoBuilding(env, s, user, pid, key, count, c);
          OtherJoinsGapless(s, t);
        } else { Refused(env, s, a); EstateKeepsTargets(s, t); }
      case OrderResearch(user, pid, x, c) =>
        if QueueResearch(env, s, user, pid, x, c).1.Ok? {
          ResearchJoins(env, s, user, pid, x, c);
          ResearchIsNoBuilding(env, s, user, pid, x, c);
          OtherJoinsGapless(s, t);
        } else { Refused(env, s, a); EstateKeepsTargets(s, t); }
      case CancelOrder(user, qid, c) =>
        if CancelError(s, user, qid).None? {
          CancelIsGaplessIff(env, s, user, qid, c);
          GaplessIgnoresClock(Cancel(env, s, user, qid, c).0, t.clock);
        } else { Refused(env, s, a); EstateKeepsTargets(s, t); }
      case OpenQueue(user, pid, c) =>
        if PlanetError(s, user, pid).None? { RepairIsIdle(s, pid, s.PlanetAt(pid).buildings); }
        EstateKeepsTargets(s, t);
      case Finish(qid, c) => FinishIsGapless(s, qid, t);
    }
  }

  lemma UnitsAreNoBuilding(env: Env, s: State, user: int, pid: int, key: ItemKey, count: int, c: Clock)
    requires QueueUnits(env, s, user, pid, key, count, c).1.Ok?
    ensures var q := QueueUnits(env, s, user, pid, key, count, c).0.queue;
            |q| > 0 && q[|q|-1].key == key
  {
    hide Refreshed, UnitCost, StartTime, Meets, Sum;
  }

  lemma ResearchIsNoBuilding(env: Env, s: State, user: int, pid: int, x: TechType, c: Clock)
    requires QueueResearch(env, s, user, pid, x, c).1.Ok?
    ensures var q := QueueResearch(env, s, user, pid, x, c).0.queue;
            |q| > 0 && q[|q|-1].key == Study(x)
  {
    hide Refreshed, ResearchLevelCost, Meets, Sum, LabOf;
  }

  ghost predicate NoCancel(run: seq<Step>) { forall a :: a in run ==> !a.CancelOrder? }

  /** Nothing is cancelled from under a later upgrade of the same building. */
  ghost predicate CancelsAreLast(env: Env, s: State, run: seq<Step>)
    requires Legal(env, s, run)
    decreases |run|
  {
    run != [] ==>
      && (run[0].CancelOrder? && CancelError(s, run[0].user, run[0].qid).None? ==> !Followed(s.queue, run[0].qid))
      && CancelsAreLast(env, Next(env, s, run[0]), run[1..])
  }

  lemma {:induction false} NoCancelNoFollower(env: Env, s: State, run: seq<Step>)
    requires Legal(env, s, run) && NoCancel(run)
    ensures CancelsAreLast(env, s, run)
    decreases |run|
  {
    hide Next, Enabled;
    if run != [] {
      NoCancelNoFollower(env, Next(env, s, run[0]), run[1..]);
    }
  }

  lemma GaplessIgnoresClock(s: State, clock: real)
    requires Gapless(s)
    ensures Gapless(s.(clock := clock))
  {
    var t := s.(clock := clock);
    forall k | 0 <= k < |t.queue| ensures OnTarget(t, k) {
      GaplessAt(s, k);
    }
  }

  /** The pending targets stay gapless on every run that cancels no upgrade from under a later
      one, and so on every run without cancellations. */
  lemma {:induction false} RunIsGapless(env: Env, s: State, run: seq<Step>)
    requires Orderly(s) && Gapless(s) && Legal(env, s, run) && CancelsAreLast(env, s, run)
    ensures Orderly(Final(env, s, run)) && Gapless(Final(env, s, run))
    decreases |run|
  {
    hide Next, Orderly, Gapless, Enabled, Followed, CancelError;
    if run != [] {
      StepIsOrderly(env, s, run[0]);
      StepIsGapless(env, s, run[0]);
      RunIsGapless(env, Next(env, s, run[0]), run[1..]);
    }
  }

  /** The step is not the finish of an upgrade, or leaves the building at the target of its row. */
  ghost predicate HitsTarget(env: Env, s: State, a: Step)
    requires Enabled(s, a)
  {
    a.Finish? && s.queue[a.qid].key.Build? ==>
      var i, t := s.queue[a.qid], Next(env, s, a);
      t.HasPlanet(i.planet) && Level(t.PlanetAt(i.planet).buildings, i.key.building) == i.target
  }

  ghost predicate AllHitTarget(env: Env, s: State, run: seq<Step>)
    requires Legal(env, s, run)
    decreases |run|
  {
    run != [] ==> HitsTarget(env, s, run[0]) && AllHitTarget(env, Next(env, s, run[0]), run[1..])
  }

  /** On such runs every upgrade that finishes leaves its building exactly at its target. */
  lemma {:induction false} EveryFinishHitsTarget(env: Env, s: State, run: seq<Step>)
    requires Orderly(s) && Gapless(s) && Legal(env, s, run) && CancelsAreLast(env, s, run)
    ensures AllHitTarget(env, s, run)
    decreases |run|
  {
    hide Next, Orderly, Gapless, Enabled, Followed, CancelError, HitsTarget;
    if run != [] {
      StepIsOrderly(env, s, run[0]);
      StepIsGapless(env, s, run[0]);
      StepHitsTarget(env, s, run[0]);
      EveryFinishHitsTarget(env, Next(env, s, run[0]), run[1..]);
    }
  }

  /** In particular on every run without cancellations. */
  lemma CancelFreeRunHitsTargets(env: Env, s: State, run: seq<Step>)
    requires Orderly(s) && Gapless(s) && Legal(env, s, run) && NoCancel(run)
    ensures AllHitTarget(env, s, run) && Gapless(Final(env, s, run))
  {
    hide Next, Orderly, Gapless, Enabled, NoCancel, CancelsAreLast, AllHitTarget, Legal, Final;
    NoCancelNoFollower(env, s, run);
    RunIsGapless(env, s, run);
    EveryFinishHitsTarget(env, s, run);
  }

  lemma StepHitsTarget(env: Env, s: State, a: Step)
    requires Orderly(s) && Gapless(s) && Enabled(s, a)
    ensures HitsTarget(env, s, a)
  {
    hide Orderly, Gapless, NextOnPlanet, ApplyItem;
    if a.Finish? && s.queue[a.qid].key.Build? {
      FinishHitsTarget(s, a.qid);
    }
  }

  // ---- the sweep ------------------------------------------------------------------------------------------

  const BATCH_SIZE: int := 50

  /** Rows claimed for one sweep: due, each once, in order of finish, none passed over for a later one. */
  ghost predicate Claimed(queue: seq<Item>, now: real, ids: seq<int>) {
    && (forall k :: 0 <= k < |ids| ==> 0 <= ids[k] < |queue| && DueItem(queue[ids[k]], now))
    && (forall j, k :: 0 <= j < k < |ids| ==> ids[j] != ids[k] && queue[ids[j]].finished <= queue[ids[k]].finished)
    && (forall q, k :: 0 <= q < |queue| && DueItem(queue[q], now) && q !in ids && 0 <= k < |ids|
          ==> queue[ids[k]].finished <= queue[q].finished)
  }

  /** One batch: everything that is due, or a full fifty. */
  ghost predicate IsBatch(queue: seq<Item>, now: real, ids: seq<int>) {
    && Claimed(queue, now, ids) && |ids| <= BATCH_SIZE
    && (|ids| < BATCH_SIZE ==> forall q :: 0 <= q < |queue| && DueItem(queue[q], now) ==> q in ids)
  }

  /** One sweep applies its rows in order. */
  function Sweep(s: State, ids: seq<int>): State
    requires forall k :: 0 <= k < |ids| ==> 0 <= ids[k] < |s.queue|
    decreases |ids|
  {
    if ids == [] then s
    else
      QueueLength(s, ids[0]);
      Sweep(ApplyItem(s, ids[0]), ids[1..])
  }

  lemma QueueLength(s: State, qid: int)
    requires 0 <= qid < |s.queue|
    ensures |ApplyItem(s, qid).queue| == |s.queue|
  {
  }

  /** The rest of a claim is a claim on what the first row leaves. */
  lemma ClaimContinues(queue: seq<Item>, now: real, ids: seq<int>)
    requires Claimed(queue, now, ids) && ids != []
    ensures Claimed(queue[ids[0] := queue[ids[0]].(applied := true)], now, ids[1..])
  {
    var after := queue[ids[0] := queue[ids[0]].(applied := true)];
    forall q, k | 0 <= q < |after| && DueItem(after[q], now) && q !in ids[1..] && 0 <= k < |ids[1..]|
      ensures after[ids[1..][k]].finished <= after[q].finished
    {
      assert q !in ids;
      assert ids[1..][k] == ids[k + 1];
    }
  }

  lemma FirstClaimIsNext(s: State, now: real, ids: seq<int>)
    requires Claimed(s.queue, now, ids) && ids != []
    ensures NextOnPlanet(s, ids[0])
  {
    forall k | 0 <= k < |s.queue| && s.queue[k].ActiveOn(s.queue[ids[0]].planet)
      ensures s.queue[ids[0]].finished <= s.queue[k].finished
    {
      if k in ids {
        var j :| 0 <= j < |ids| && ids[j] == k;
      }
    }
  }

  function Finishes(ids: seq<int>, c: Clock): seq<Step> {
    if ids == [] then [] else [Finish(ids[0], c)] + Finishes(ids[1..], c)
  }

  /** A sweep is a legal run: each claimed row is the next to finish on its planet when its
      turn comes, and stays orderly throughout. */
  lemma {:induction false} SweepIsARun(env: Env, s: State, now: real, ids: seq<int>)
    requires Orderly(s) && s.clock <= now && Claimed(s.queue, now, ids)
    ensures var run := Finishes(ids, Clock(now, now));
            Legal(env, s, run) && Final(env, s, run) == Sweep(s, ids).(clock := if ids == [] then s.clock else now)
    decreases |ids|
  {
    hide Orderly, Claimed, ApplyItem, NextOnPlanet;
    ClaimedIndices(s.queue, now, ids);
    if ids != [] {
      var a := Finish(ids[0], Clock(now, now));
      ClaimedHead(s.queue, now, ids);
      FirstClaimIsNext(s, now, ids);
      ItemHasPlanet(s, ids[0]);
      FinishShape(s, ids[0]);
      ClaimContinues(s.queue, now, ids);
      var t := Next(env, s, a);
      StepIsOrderly(env, s, a);
      SweepIsARun(env, t, now, ids[1..]);
      assert Finishes(ids, Clock(now, now))[1..] == Finishes(ids[1..], Clock(now, now));
      ClaimedIndices(t.queue, now, ids[1..]);
      SweepIgnoresClock(ApplyItem(s, ids[0]), ids[1..], now);
    }
  }

  lemma ClaimedHead(queue: seq<Item>, now: real, ids: seq<int>)
    requires Claimed(queue, now, ids) && ids != []
    ensures 0 <= ids[0] < |queue| && DueItem(queue[ids[0]], now)
  {
  }

  lemma ClaimedIndices(queue: seq<Item>, now: real, ids: seq<int>)
    requires Claimed(queue, now, ids)
    ensures forall k :: 0 <= k < |ids| ==> 0 <= ids[k] < |queue|
  {
  }

  lemma ItemHasPlanet(s: State, qid: int)
    requires Orderly(s) && 0 <= qid < |s.queue|
    ensures s.HasPlanet(s.queue[qid].planet)
  {
    assert RowSound(s, s.queue[qid]);
  }

  lemma {:induction false} SweepIgnoresClock(s: State, ids: seq<int>, clock: real)
    requires forall k :: 0 <= k < |ids| ==> 0 <= ids[k] < |s.queue|
    ensures Sweep(s.(clock := clock), ids) == Sweep(s, ids).(clock := clock)
    decreases |ids|
  {
    if ids != [] {
      var t := ApplyItem(s, ids[0]);
      assert ApplyItem(s.(clock := clock), ids[0]) == t.(clock := clock);
      QueueLength(s, ids[0]);
      SweepIgnoresClock(t, ids[1..], clock);
    }
  }

  // ---- the backlog drains ---------------------------------------------------------------------------------

  function Due(now: real): Item -> int { (i: Item) => if DueItem(i, now) then 1 else 0 }
  function Backlog(s: State, now: real): int { Sum(s.queue, Due(now)) }

  /** How many of the claimed rows were due by `deadline`. */
  ghost function ClaimedBy(queue: seq<Item>, ids: seq<int>, deadline: real): int
    requires forall k :: 0 <= k < |ids| ==> 0 <= ids[k] < |queue|
  {
    if ids == [] then 0
    else (if queue[ids[0]].finished <= deadline then 1 else 0) + ClaimedBy(queue, ids[1..], deadline)
  }

  lemma {:induction false} ClaimedByIgnoresFlags(queue: seq<Item>, later: seq<Item>, ids: seq<int>, deadline: real)
    requires |queue| == |later| && forall k :: 0 <= k < |queue| ==> later[k].finished == queue[k].finished
    requires forall k :: 0 <= k < |ids| ==> 0 <= ids[k] < |queue|
    ensures ClaimedBy(later, ids, deadline) == ClaimedBy(queue, ids, deadline)
  {
    if ids != [] {
      ClaimedByIgnoresFlags(queue, later, ids[1..], deadline);
    }
  }

  ghost predicate AllHavePlanets(s: State) { forall i :: i in s.queue ==> s.HasPlanet(i.planet) }

  /** One applied row: a planet for every row as before, and one row flagged. */
  lemma FlagsOne(s: State, now: real, ids: seq<int>)
    requires AllHavePlanets(s) && Claimed(s.queue, now, ids) && ids != []
    ensures 0 <= ids[0] < |s.queue|
    ensures var u := ApplyItem(s, ids[0]);
            && AllHavePlanets(u) && u.queue == s.queue[ids[0] := s.queue[ids[0]].(applied := true)]
            && Claimed(u.queue, now, ids[1..])
  {
    hide Claimed, ApplyItem;
    ClaimedHead(s.queue, now, ids);
    var item := s.queue[ids[0]];
    assert item in s.queue;
    FinishShape(s, ids[0]);
    var u := ApplyItem(s, ids[0]);
    forall i | i in u.queue ensures u.HasPlanet(i.planet) {
      assert i in s.queue || i == item.(applied := true);
    }
    ClaimContinues(s.queue, now, ids);
  }

  lemma {:induction false} SweepFlags(s: State, now: real, ids: seq<int>)
    requires AllHavePlanets(s) && Claimed(s.queue, now, ids)
    ensures forall k :: 0 <= k < |ids| ==> 0 <= ids[k] < |s.queue|
    ensures var t := Sweep(s, ids);
            && AllHavePlanets(t) && |t.queue| == |s.queue|
            && (forall k :: 0 <= k < |s.queue|
                  ==> t.queue[k] == if k in ids then s.queue[k].(applied := true) else s.queue[k])
    decreases |ids|
  {
    hide Claimed, ApplyItem, AllHavePlanets;
    ClaimedIndices(s.queue, now, ids);
    if ids != [] {
      FlagsOne(s, now, ids);
      SweepFlags(ApplyItem(s, ids[0]), now, ids[1..]);
      assert forall k :: k in ids <==> k == ids[0] || k in ids[1..];
    }
  }

  lemma {:induction false} SweepTakes(s: State, now: real, ids: seq<int>, deadline: real)
    requires AllHavePlanets(s) && Claimed(s.queue, now, ids) && deadline <= now
    ensures forall k :: 0 <= k < |ids| ==> 0 <= ids[k] < |s.queue|
    ensures Backlog(Sweep(s, ids), deadline) == Backlog(s, deadline) - ClaimedBy(s.queue, ids, deadline)
    decreases |ids|
  {
    hide Claimed, ApplyItem, AllHavePlanets, Sum;
    ClaimedIndices(s.queue, now, ids);
    if ids != [] {
      FlagsOne(s, now, ids);
      ClaimedHead(s.queue, now, ids);
      var u := ApplyItem(s, ids[0]);
      SweepTakes(u, now, ids[1..], deadline);
      SumUpdate(s.queue, ids[0], s.queue[ids[0]].(applied := true), Due(deadline));
      ClaimedByIgnoresFlags(s.queue, u.queue, ids[1..], deadline);
    }
  }

  /** A sweep flags exactly its rows and takes them off the backlog. */
  lemma SweepApplies(s: State, now: real, ids: seq<int>, deadline: real)
    requires AllHavePlanets(s) && Claimed(s.queue, now, ids) && deadline <= now
    ensures var t := Sweep(s, ids);
            && AllHavePlanets(t) && |t.queue| == |s.queue|
            && (forall k :: 0 <= k < |s.queue|
                  ==> t.queue[k] == if k in ids then s.queue[k].(applied := true) else s.queue[k])
            && Backlog(t, deadline) == Backlog(s, deadline) - ClaimedBy(s.queue, ids, deadline)
  {
    hide Claimed, Sweep, AllHavePlanets, Backlog, ClaimedBy;
    SweepFlags(s, now, ids);
    SweepTakes(s, now, ids, deadline);
  }

  datatype Tick = Tick(now: real, ids: seq<int>)

  /** Successive ticks of the scheduler, each with its own clock reading and batch. */
  ghost predicate Ticking(s: State, from: real, ticks: seq<Tick>)
    decreases |ticks|
  {
    ticks != [] ==>
      && from <= ticks[0].now && IsBatch(s.queue, ticks[0].now, ticks[0].ids)
      && Ticking(Sweep(s, ticks[0].ids), ticks[0].now, ticks[1..])
  }

  ghost function AfterTicks(s: State, from: real, ticks: seq<Tick>): State
    requires Ticking(s, from, ticks)
    decreases |ticks|
  {
    if ticks == [] then s else AfterTicks(Sweep(s, ticks[0].ids), ticks[0].now, ticks[1..])
  }

  lemma {:induction false} AllClaimedBy(queue: seq<Item>, ids: seq<int>, deadline: real)
    requires forall k :: 0 <= k < |ids| ==> 0 <= ids[k] < |queue| && queue[ids[k]].finished <= deadline
    ensures ClaimedBy(queue, ids, deadline) == |ids|
  {
    if ids != [] {
      AllClaimedBy(queue, ids[1..], deadline);
    }
  }

  /** A full batch that passed over a row due by the deadline holds only such rows. */
  lemma FullBatch(queue: seq<Item>, t: Tick, deadline: real, q: int)
    requires IsBatch(queue, t.now, t.ids) && deadline <= t.now
    requires 0 <= q < |queue| && DueItem(queue[q], deadline) && q !in t.ids
    ensures ClaimedBy(queue, t.ids, deadline) == BATCH_SIZE
  {
    AllClaimedBy(queue, t.ids, deadline);
  }

  /** One tick clears fifty of the rows that were due at any earlier time, or all of them. */
  lemma TickDrains(s: State, t: Tick, deadline: real)
    requires AllHavePlanets(s) && deadline <= t.now && IsBatch(s.queue, t.now, t.ids)
    ensures 0 <= Backlog(Sweep(s, t.ids), deadline) <= Max(0, Backlog(s, deadline) - BATCH_SIZE)
  {
    hide Sweep, Sum, ClaimedBy, IsBatch;
    BatchIsClaimed(s.queue, t.now, t.ids);
    SweepApplies(s, t.now, t.ids, deadline);
    var u := Sweep(s, t.ids);
    BacklogNonNegative(u, deadline);
    if q :| 0 <= q < |s.queue| && DueItem(s.queue[q], deadline) && q !in t.ids {
      FullBatch(s.queue, t, deadline, q);
    } else {
      forall i | i in u.queue ensures Due(deadline)(i) == 0 {
        var k :| 0 <= k < |u.queue| && u.queue[k] == i;
      }
      SumZero(u.queue, Due(deadline));
    }
  }

  /** Whatever was due when the ticks began is applied within one tick per fifty rows,
      even while more rows fall due. */
  lemma {:induction false} BacklogDrains(s: State, from: real, ticks: seq<Tick>)
    requires AllHavePlanets(s) && Ticking(s, from, ticks)
    ensures 0 <= Backlog(AfterTicks(s, from, ticks), from) <= Max(0, Backlog(s, from) - BATCH_SIZE * |ticks|)
    decreases |ticks|
  {
    BacklogDrainsBy(s, from, ticks, from);
  }

  lemma {:induction false} BacklogDrainsBy(s: State, from: real, ticks: seq<Tick>, deadline: real)
    requires AllHavePlanets(s) && Ticking(s, from, ticks) && deadline <= from
    ensures 0 <= Backlog(AfterTicks(s, from, ticks), deadline) <= Max(0, Backlog(s, deadline) - BATCH_SIZE * |ticks|)
    decreases |ticks|
  {
    hide Backlog, Sweep, IsBatch;
    if ticks == [] {
      BacklogNonNegative(s, deadline);
    } else {
      BatchIsClaimed(s.queue, ticks[0].now, ticks[0].ids);
      SweepApplies(s, ticks[0].now, ticks[0].ids, deadline);
      TickDrains(s, ticks[0], deadline);
      BacklogDrainsBy(Sweep(s, ticks[0].ids), ticks[0].now, ticks[1..], deadline);
    }
  }

  lemma BacklogNonNegative(s: State, now: real)
    ensures Backlog(s, now) >= 0
  {
    SumNonNegative(s.queue, Due(now));
  }

  lemma BatchIsClaimed(queue: seq<Item>, now: real, ids: seq<int>)
    requires IsBatch(queue, now, ids)
    ensures Claimed(queue, now, ids)
  {
  }

  /** The finish times in the order in which rows are applied. */
  ghost function AppliedTimes(s: State, from: real, ticks: seq<Tick>): seq<real>
    requires Ticking(s, from, ticks)
    decreases |ticks|
  {
    if ticks == [] then []
    else
      BatchIsClaimed(s.queue, ticks[0].now, ticks[0].ids);
      TimesOf(s.queue, ticks[0].ids) + AppliedTimes(Sweep(s, ticks[0].ids), ticks[0].now, ticks[1..])
  }

  function TimesOf(queue: seq<Item>, ids: seq<int>): seq<real>
    requires forall k :: 0 <= k < |ids| ==> 0 <= ids[k] < |queue|
  {
    seq(|ids|, k requires 0 <= k < |ids| => queue[ids[k]].finished)
  }

  ghost predicate Ascending(times: seq<real>) { forall j, k :: 0 <= j < k < |times| ==> times[j] <= times[k] }

  /** Nothing that is still waiting finished before `least`. */
  ghost predicate WaitsFrom(queue: seq<Item>, least: real) {
    forall k :: 0 <= k < |queue| && queue[k].Active() ==> least <= queue[k].finished
  }

  lemma {:induction false} AppliedInOrder(s: State, from: real, ticks: seq<Tick>, least: real)
    requires AllHavePlanets(s) && Ticking(s, from, ticks) && WaitsFrom(s.queue, least)
    ensures Ascending(AppliedTimes(s, from, ticks)) && forall x :: x in AppliedTimes(s, from, ticks) ==> least <= x
    decreases |ticks|
  {
    hide Sweep;
    if ticks != [] {
      var now, ids := ticks[0].now, ticks[0].ids;
      SweepApplies(s, now, ids, now);
      var t := Sweep(s, ids);
      var first := TimesOf(s.queue, ids);
      var next := if ids == [] then least else first[|ids|-1];
      assert WaitsFrom(t.queue, next) by {
        StillWaiting(s.queue, now, ids, t.queue, least);
      }
      AppliedInOrder(t, now, ticks[1..], next);
      AscendingJoin(first, AppliedTimes(t, now, ticks[1..]), least, next);
    }
  }

  lemma StillWaiting(queue: seq<Item>, now: real, ids: seq<int>, after: seq<Item>, least: real)
    requires Claimed(queue, now, ids) && WaitsFrom(queue, least) && |after| == |queue|
    requires forall k :: 0 <= k < |queue| ==> after[k] == if k in ids then queue[k].(applied := true) else queue[k]
    ensures WaitsFrom(after, if ids == [] then least else TimesOf(queue, ids)[|ids|-1])
    ensures Ascending(TimesOf(queue, ids)) && forall x :: x in TimesOf(queue, ids) ==> least <= x
  {
    forall k | 0 <= k < |after| && after[k].Active() && ids != []
      ensures TimesOf(queue, ids)[|ids|-1] <= after[k].finished
    {
      assert k !in ids;
    }
  }

  lemma AscendingJoin(first: seq<real>, rest: seq<real>, least: real, next: real)
    requires Ascending(first) && Ascending(rest) && (forall x :: x in first ==> least <= x)
             && (forall x :: x in rest ==> next <= x)
    requires next == if first == [] then least else first[|first|-1]
    ensures Ascending(first + rest) && forall x :: x in first + rest ==> least <= x
  {
    forall j, k | 0 <= j < k < |first + rest| ensures (first + rest)[j] <= (first + rest)[k] {
      if j < |first| <= k {
        assert first[j] <= next;
        assert rest[k - |first|] in rest;
      }
    }
    if first != [] {
      assert first[|first|-1] in first;
    }
  }

  lemma {:induction false} SomethingBelow(queue: seq<Item>) returns (least: real)
    ensures WaitsFrom(queue, least)
  {
    if queue == [] {
      least := 0.0;
    } else {
      var n := |queue| - 1;
      var rest := SomethingBelow(queue[..n]);
      least := if queue[n].finished < rest then queue[n].finished else rest;
      forall k | 0 <= k < |queue| && queue[k].Active() ensures least <= queue[k].finished {
        if k < n { assert queue[..n][k] == queue[k]; }
      }
    }
  }

  /** Over any number of ticks, rows are applied in the order in which they finished. */
  lemma SweepsKeepOrder(s: State, from: real, ticks: seq<Tick>)
    requires AllHavePlanets(s) && Ticking(s, from, ticks)
    ensures Ascending(AppliedTimes(s, from, ticks))
  {
    var least := SomethingBelow(s.queue);
    AppliedInOrder(s, from, ticks, least);
  }

  lemma TwoAreCapped(one: Item, two: Item)
    requires !one.key.Study? && !two.key.Study?
    ensures Capped([one, two])
  {
    forall f: Item -> int ensures Sum([one, two], f) == f(one) + f(two) {
      SumAppend([one], two, f);
      SumAppend([], one, f);
      assert [one] + [two] == [one, two] && [] + [one] == [one];
    }
  }

  /** Two mine upgrades are pending and the first is cancelled: the second finishes one level
      short of what it was paid for. */
  lemma CancelLeavesAGap(env: Env, p: Planet)
    requires p.owner == 1 && p.buildings == map[]
    ensures var one := Item(0, 1, Build(BuildingType.MetalMine), 1, 1, Cost(60, 15, 0), 0.0, 10.0, false, false);
            var two := Item(0, 1, Build(BuildingType.MetalMine), 2, 1, Cost(90, 22, 0), 10.0, 20.0, false, false);
            var s := State([Some(p)], [], [one, two], map[], map[], 0.0);
            var t := Cancel(env, s, 1, 0, Clock(5.0, 5.0));
            && Orderly(s) && Gapless(s) && Followed(s.queue, 0) && t.1.Ok? && NextOnPlanet(t.0, 1)
            && Level(ApplyItem(t.0, 1).PlanetAt(0).buildings, BuildingType.MetalMine) == 1 < t.0.queue[1].target
  {
    hide Refreshed;
    var one := Item(0, 1, Build(BuildingType.MetalMine), 1, 1, Cost(60, 15, 0), 0.0, 10.0, false, false);
    var two := Item(0, 1, Build(BuildingType.MetalMine), 2, 1, Cost(90, 22, 0), 10.0, 20.0, false, false);
    var s := State([Some(p)], [], [one, two], map[], map[], 0.0);
    RefreshKeepsEstate(env, p, s.TechsOf(1), 5.0);
    assert s.queue[..0] == [] && s.queue[..1] == [] + [one];
    SumAppend([], one, SameJob(0, BuildingType.MetalMine));
    assert OnTarget(s, 0) && OnTarget(s, 1);
    TwoAreCapped(one, two);
    var t := Cancel(env, s, 1, 0, Clock(5.0, 5.0)).0;
    assert t.queue == [one.(cancelled := true), two];
  }

  // ---- ordering and cancelling ---------------------------------------------------------------------------

  /** Cancelling an upgrade within a second of ordering it undoes the order: the planet has
      its refreshed pools back to the unit, nothing else on it has changed, and the queue
      holds one cancelled row more. */
  lemma CancelUndoesOrder(env: Env, s: State, user: int, pid: int, b: BuildingType, c: Clock, later: Clock)
    requires Orderly(s) && s.clock <= c.read <= c.write <= later.read < c.write + 1.0
    requires QueueBuilding(env, s, user, pid, b, c).1.Ok?
    ensures var ordered := QueueBuilding(env, s, user, pid, b, c).0;
            var (t, reply) := Cancel(env, ordered, user, |s.queue|, later);
            && reply.Ok? && |ordered.queue| == |s.queue| + 1
            && t.PlanetAt(pid) == RefreshedAt(env, s, pid, c.read).(cursor := later.write)
            && t.planets == s.planets[pid := Some(t.PlanetAt(pid))] && t.fleets == s.fleets && t.techs == s.techs
            && t.queue == s.queue + [ordered.queue[|s.queue|].(cancelled := true)]
  {
    hide Refreshed, UpgradeCost, Repaired, PendingLevel, UpgradeError, StartTime, BuildTime, EarlyDivisor, Orderly;
    var p0 := s.PlanetAt(pid);
    RefreshKeepsEstate(env, p0, s.TechsOf(p0.owner), c.read);
    var p := RefreshedAt(env, s, pid, c.read);
    RepairIsIdle(s, pid, p.buildings);
    var ordered := QueueBuilding(env, s, user, pid, b, c).0;
    var cost := ordered.queue[|s.queue|].cost;
    FreshlyPaid(env, Paid(p, cost, c.write), ordered.TechsOf(p.owner), later.read);
    assert ordered.queue[|s.queue| := ordered.queue[|s.queue|].(cancelled := true)]
           == s.queue + [ordered.queue[|s.queue|].(cancelled := true)];
    PaidBack(p, cost, c.write, later.write);
  }

  lemma FreshlyPaid(env: Env, p: Planet, t: Techs, now: real)
    requires now < p.cursor + 1.0
    ensures Refreshed(env, p, t, now) == p
  {
  }

  lemma PaidBack(p: Planet, cost: Cost, now: real, later: real)
    ensures Paid(p, cost, now).(pools := Paid(p, cost, now).pools.Plus(Units(cost)), cursor := later)
            == p.(cursor := later)
  {
  }
}
