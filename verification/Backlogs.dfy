/** How fast the sweeps work off the fleets that are due, whatever happens between them. */
module Backlogs {
  import opened Wrappers
  import opened Sums
  import opened Formulas
  import opened World
  import opened Database
  import Recalls
  import L = Ledger
  import Q = QueueSafety
  import S = Settlement

  /** The arrival sweep works on the way out, the return sweep on the way home. */
  datatype Way = Out | Home

  function DueBy(way: Way, now: real): Option<Fleet> -> bool { if way.Out? then ArrivesBy(now) else ReturnsBy(now) }
  function TimeOf(way: Way): Option<Fleet> -> real { if way.Out? then ArrivalTime else ReturnTime }

  /** Due before the deadline and not handled yet. */
  predicate IsOverdue(f: Option<Fleet>, way: Way, deadline: real) {
    DueBy(way, deadline)(f) && TimeOf(way)(f) < deadline
  }

  function Overdue(way: Way, deadline: real): Option<Fleet> -> int {
    (f: Option<Fleet>) => if IsOverdue(f, way, deadline) then 1 else 0
  }

  function Late(s: State, way: Way, deadline: real): int { Sum(s.fleets, Overdue(way, deadline)) }

  /** Recalls that are still to be written with a return time before the deadline. */
  function EarlyRecalls(s: State, deadline: real): set<int> {
    set call | call in s.recalls && s.recalls[call].returnAt < deadline
  }

  function Pending(s: State, way: Way, deadline: real): nat { if way.Out? then 0 else |EarlyRecalls(s, deadline)| }

  // ---- one step --------------------------------------------------------------------------------

  predicate WorksOn(a: Step, way: Way) { if way.Out? then a.Arrival? else a.Homecoming? }

  /** The step writes an early return time into the row. */
  predicate WritesEarly(s: State, a: Step, fid: int, way: Way, deadline: real) {
    way.Home? && Recalls.WritesRecall(s, a, fid) && s.recalls[a.call].returnAt < deadline
  }

  /** A handled row is off the backlog, and only the write of a recall puts a row on it. */
  lemma RowDrains(env: Env, s: State, a: Step, fid: int, way: Way, deadline: real)
    requires L.Sound(s) && Enabled(s, a) && deadline <= s.clock && s.HasFleet(fid) && fid < |Next(env, s, a).fleets|
    ensures var f := Next(env, s, a).fleets[fid];
            && (IsOverdue(f, way, deadline)
                ==> IsOverdue(s.fleets[fid], way, deadline) || WritesEarly(s, a, fid, way, deadline))
            && (WorksOn(a, way) && a.fid == fid ==> !IsOverdue(f, way, deadline))
  {
    hide Effect, L.Sound, NextOnPlanet;
    Recalls.StepRow(env, s, a, fid);
  }

  lemma NewRowIsNotDue(env: Env, s: State, a: Step, way: Way, deadline: real)
    requires Enabled(s, a) && a.Send? && deadline <= s.clock
    ensures |Next(env, s, a).fleets| == |s.fleets| + 1 ==> !IsOverdue(Next(env, s, a).fleets[|s.fleets|], way, deadline)
  {
    hide RefreshedAt, DispatchError, LeftBehind, FuelFor, FlightTime, NextOnPlanet;
  }

  lemma PendingFalls(env: Env, s: State, a: Step, way: Way, deadline: real)
    requires Enabled(s, a) && deadline <= s.clock
    ensures var t := Next(env, s, a);
            && Pending(t, way, deadline) <= Pending(s, way, deadline)
            && (a.Arrival? || a.Homecoming? ==> Pending(t, way, deadline) == Pending(s, way, deadline))
            && (way.Home? && a.EndRecall? && a.call in EarlyRecalls(s, deadline)
                ==> Pending(t, way, deadline) < Pending(s, way, deadline))
  {
    hide Effect, NextOnPlanet;
    Recalls.RecallsAfter(env, s, a);
    var t := Next(env, s, a);
    if a.EndRecall? {
      assert EarlyRecalls(t, deadline) == EarlyRecalls(s, deadline) - {a.call};
    } else {
      assert EarlyRecalls(t, deadline) == EarlyRecalls(s, deadline);
    }
  }

  /** No step adds to the backlog, except that the write of a recall may move one from the
      recalls to the fleets; handling a late fleet takes it off. */
  lemma StepDrains(env: Env, s: State, a: Step, way: Way, deadline: real)
    requires L.Sound(s) && Enabled(s, a) && deadline <= s.clock
    ensures var t := Next(env, s, a);
            && L.Sound(t) && deadline <= t.clock == a.c.write && Pending(t, way, deadline) <= Pending(s, way, deadline)
            && Late(t, way, deadline) + Pending(t, way, deadline) <= Late(s, way, deadline) + Pending(s, way, deadline)
            && (WorksOn(a, way) ==>
                  Late(t, way, deadline) == Late(s, way, deadline) - Overdue(way, deadline)(s.fleets[a.fid]))
  {
    hide Effect, L.Sound, NextOnPlanet, Pending, IsOverdue;
    var t := Next(env, s, a);
    L.NextBalances(env, s, a);
    S.StepWinds(env, s, a);
    PendingFalls(env, s, a, way, deadline);
    if t.fleets != s.fleets {
      if a.Send? {
        NewRowIsNotDue(env, s, a, way, deadline);
        assert t.fleets == s.fleets + [t.fleets[|s.fleets|]];
        SumAppend(s.fleets, t.fleets[|s.fleets|], Overdue(way, deadline));
      } else {
        var fid := S.Rewrites(s, a).value;
        RowDrains(env, s, a, fid, way, deadline);
        SumUpdate(s.fleets, fid, t.fleets[fid], Overdue(way, deadline));
      }
    }
  }

  lemma {:induction false} RunDrains(env: Env, s: State, run: seq<Step>, way: Way, deadline: real)
    requires L.Sound(s) && Legal(env, s, run) && deadline <= s.clock
    ensures var t := Final(env, s, run);
            && L.Sound(t) && deadline <= t.clock && Pending(t, way, deadline) <= Pending(s, way, deadline)
            && Late(t, way, deadline) + Pending(t, way, deadline) <= Late(s, way, deadline) + Pending(s, way, deadline)
    decreases |run|
  {
    hide Next, Enabled, L.Sound, Late, Pending;
    if run != [] {
      StepDrains(env, s, run[0], way, deadline);
      RunDrains(env, Next(env, s, run[0]), run[1..], way, deadline);
    }
  }

  // ---- one sweep --------------------------------------------------------------------------------

  /** Any legal run, and then a sweep: its claim, and the luck and the clock of its handlers. */
  datatype Round = Round(before: seq<Step>, way: Way, now: real, ids: seq<int>, dice: seq<Dice>, clocks: seq<Clock>)

  ghost predicate Due(s: State, way: Way, now: real, ids: seq<int>) {
    if way.Out? then S.AllArriving(s, now, ids) else S.AllReturning(s, now, ids)
  }

  ghost function Handling(way: Way, ids: seq<int>, dice: seq<Dice>, clocks: seq<Clock>): seq<Step>
    requires |ids| <= |dice| && |ids| <= |clocks|
  {
    if way.Out? then S.Arrivals(ids, dice, clocks) else S.Homecomings(ids, clocks)
  }

  lemma HandlingIsLegal(env: Env, s: State, way: Way, now: real, ids: seq<int>, dice: seq<Dice>, clocks: seq<Clock>)
    requires Due(s, way, now, ids) && |ids| <= |dice| && |ids| <= |clocks| && s.clock <= now && S.Running(now, clocks)
    ensures Legal(env, s, Handling(way, ids, dice, clocks))
  {
    hide S.AllArriving, S.AllReturning;
    if way.Out? {
      S.ArrivalSweepIsARun(env, s, now, ids, dice, clocks);
    } else {
      S.ReturnSweepIsARun(env, s, now, ids, clocks);
    }
  }

  /** How many of the claimed rows were due before the deadline. */
  ghost function Hits(s: State, way: Way, ids: seq<int>, deadline: real): int
    requires forall k :: 0 <= k < |ids| ==> 0 <= ids[k] < |s.fleets|
  {
    if ids == [] then 0 else Overdue(way, deadline)(s.fleets[ids[0]]) + Hits(s, way, ids[1..], deadline)
  }

  lemma {:induction false} HitsDependOn(s: State, t: State, way: Way, ids: seq<int>, deadline: real)
    requires |s.fleets| == |t.fleets|
             && forall k :: 0 <= k < |ids| ==> 0 <= ids[k] < |s.fleets| && t.fleets[ids[k]] == s.fleets[ids[k]]
    ensures Hits(t, way, ids, deadline) == Hits(s, way, ids, deadline)
  {
    hide IsOverdue;
    if ids != [] {
      HitsDependOn(s, t, way, ids[1..], deadline);
    }
  }

  lemma {:induction false} AllHit(s: State, way: Way, ids: seq<int>, deadline: real)
    requires forall k :: 0 <= k < |ids| ==> 0 <= ids[k] < |s.fleets| && IsOverdue(s.fleets[ids[k]], way, deadline)
    ensures Hits(s, way, ids, deadline) == |ids|
  {
    hide IsOverdue;
    if ids != [] {
      AllHit(s, way, ids[1..], deadline);
    }
  }

  lemma DueContinues(s: State, t: State, way: Way, now: real, later: real, ids: seq<int>)
    requires Due(s, way, now, ids) && ids != [] && now <= later
    requires |t.fleets| == |s.fleets| && forall k :: 0 <= k < |s.fleets| && k != ids[0] ==> t.fleets[k] == s.fleets[k]
    ensures Due(t, way, later, ids[1..])
  {
    forall k | 0 <= k < |ids[1..]|
      ensures ids[1..][k] == ids[k + 1] != ids[0] && t.HasFleet(ids[k + 1])
              && t.FleetAt(ids[k + 1]) == s.FleetAt(ids[k + 1])
    {
    }
  }

  /** A handler writes its own row only, and its row is no longer due. */
  lemma HandlerTakes(env: Env, s: State, a: Step, way: Way, deadline: real)
    requires L.Sound(s) && Enabled(s, a) && WorksOn(a, way) && deadline <= s.clock
    ensures var t := Next(env, s, a);
            && |t.fleets| == |s.fleets| && 0 <= a.fid < |s.fleets| && !IsOverdue(t.fleets[a.fid], way, deadline)
            && forall k :: 0 <= k < |s.fleets| && k != a.fid ==> t.fleets[k] == s.fleets[k]
  {
    hide Effect, L.Sound, NextOnPlanet, IsOverdue;
    S.StepWinds(env, s, a);
    RowDrains(env, s, a, a.fid, way, deadline);
  }

  lemma HandlingUnfolds(way: Way, ids: seq<int>, dice: seq<Dice>, clocks: seq<Clock>)
    requires |ids| <= |dice| && |ids| <= |clocks|
    ensures var run := Handling(way, ids, dice, clocks);
            if ids == [] then run == []
            else
            && run != [] && WorksOn(run[0], way) && run[0].fid == ids[0] && run[0].c == clocks[0]
            && run[1..] == Handling(way, ids[1..], dice[1..], clocks[1..])
  {
  }

  lemma {:induction false} SweepDrains(env: Env, s: State, way: Way, now: real, ids: seq<int>, dice: seq<Dice>,
                                       clocks: seq<Clock>, deadline: real)
    requires L.Sound(s) && Due(s, way, now, ids) && |ids| <= |dice| && |ids| <= |clocks| && s.clock <= now
             && S.Running(now, clocks)
    requires Legal(env, s, Handling(way, ids, dice, clocks)) && deadline <= s.clock
    ensures var t := Final(env, s, Handling(way, ids, dice, clocks));
            && |t.fleets| == |s.fleets|
            && (forall k :: 0 <= k < |s.fleets| && k in ids ==> !IsOverdue(t.fleets[k], way, deadline))
            && (forall k :: 0 <= k < |s.fleets| && k !in ids ==> t.fleets[k] == s.fleets[k])
            && Late(t, way, deadline) == Late(s, way, deadline) - Hits(s, way, ids, deadline)
    decreases |ids|
  {
    hide Next, Enabled, L.Sound, Late, Pending, IsOverdue, Handling, Due;
    DueRows(s, way, now, ids);
    HandlingUnfolds(way, ids, dice, clocks);
    if ids != [] {
      var a := Handling(way, ids, dice, clocks)[0];
      var t := Next(env, s, a);
      StepDrains(env, s, a, way, deadline);
      HandlerTakes(env, s, a, way, deadline);
      DueContinues(s, t, way, now, clocks[0].write, ids);
      SweepDrains(env, t, way, clocks[0].write, ids[1..], dice[1..], clocks[1..], deadline);
      forall k | 0 <= k < |ids[1..]|
        ensures 0 <= ids[1..][k] < |s.fleets| && t.fleets[ids[1..][k]] == s.fleets[ids[1..][k]]
      {
        assert ids[1..][k] == ids[k + 1] != ids[0];
      }
      HitsDependOn(s, t, way, ids[1..], deadline);
    }
  }

  lemma DueRows(s: State, way: Way, now: real, ids: seq<int>)
    requires Due(s, way, now, ids)
    ensures S.DistinctIds(ids) && forall k :: 0 <= k < |ids| ==> 0 <= ids[k] < |s.fleets|
  {
  }

  // ---- rounds -----------------------------------------------------------------------------------

  /** The claim of the sweep is a batch as the queries return it. */
  ghost predicate Claims(s: State, r: Round) {
    && s.clock <= r.now && S.Running(r.now, r.clocks) && |r.dice| == |r.clocks| == Q.BATCH_SIZE
    && IsFleetBatch(s.fleets, DueBy(r.way, r.now), TimeOf(r.way), r.ids)
  }

  lemma ClaimIsDue(s: State, r: Round)
    requires Claims(s, r)
    ensures Due(s, r.way, r.now, r.ids) && |r.ids| <= Q.BATCH_SIZE
  {
  }

  ghost function Swept(env: Env, s: State, r: Round): State
    requires Claims(s, r)
  {
    ClaimIsDue(s, r);
    HandlingIsLegal(env, s, r.way, r.now, r.ids, r.dice, r.clocks);
    Final(env, s, Handling(r.way, r.ids, r.dice, r.clocks))
  }

  ghost predicate Rounds(env: Env, s: State, rounds: seq<Round>)
    decreases |rounds|
  {
    rounds != [] ==>
      var r := rounds[0];
      && Legal(env, s, r.before) && Claims(Final(env, s, r.before), r)
      && Rounds(env, Swept(env, Final(env, s, r.before), r), rounds[1..])
  }

  ghost function AfterRounds(env: Env, s: State, rounds: seq<Round>): State
    requires Rounds(env, s, rounds)
    decreases |rounds|
  {
    if rounds == [] then s else AfterRounds(env, Swept(env, Final(env, s, rounds[0].before), rounds[0]), rounds[1..])
  }

  function Sweeps(rounds: seq<Round>, way: Way): nat {
    if rounds == [] then 0 else (if rounds[0].way == way then 1 else 0) + Sweeps(rounds[1..], way)
  }

  /** A batch that passes over a late row is full, of late rows only. */
  lemma PassedOver(s: State, r: Round, deadline: real, q: int)
    requires Claims(s, r) && deadline <= r.now && 0 <= q < |s.fleets| && IsOverdue(s.fleets[q], r.way, deadline)
             && q !in r.ids
    ensures |r.ids| == Q.BATCH_SIZE
    ensures forall k :: 0 <= k < |r.ids|
              ==> 0 <= r.ids[k] < |s.fleets| && IsOverdue(s.fleets[r.ids[k]], r.way, deadline)
  {
    var times, due := FleetTimes(s.fleets, TimeOf(r.way)), DueFleets(s.fleets, DueBy(r.way, r.now));
    assert q in due;
    forall k | 0 <= k < |r.ids| ensures 0 <= r.ids[k] < |s.fleets| && IsOverdue(s.fleets[r.ids[k]], r.way, deadline) {
      assert r.ids[k] in due;
      assert times[r.ids[k]] <= times[q];
    }
  }

  /** One sweep handles fifty of the fleets that were due before the deadline, or all of them. */
  lemma SweepTakesFifty(env: Env, s: State, r: Round, deadline: real)
    requires L.Sound(s) && Claims(s, r) && deadline <= s.clock
    ensures 0 <= Late(Swept(env, s, r), r.way, deadline) <= Max(0, Late(s, r.way, deadline) - Q.BATCH_SIZE)
  {
    hide L.Sound, Final, Legal, IsOverdue, Handling, Due, IsFleetBatch, Late;
    ClaimIsDue(s, r);
    HandlingIsLegal(env, s, r.way, r.now, r.ids, r.dice, r.clocks);
    SweepDrains(env, s, r.way, r.now, r.ids, r.dice, r.clocks, deadline);
    DueRows(s, r.way, r.now, r.ids);
    var t := Swept(env, s, r);
    LateNonNegative(t, r.way, deadline);
    if q :| 0 <= q < |s.fleets| && IsOverdue(s.fleets[q], r.way, deadline) && q !in r.ids {
      PassedOver(s, r, deadline, q);
      AllHit(s, r.way, r.ids, deadline);
    } else {
      NoneLate(t, r.way, deadline);
    }
  }

  lemma NoneLate(s: State, way: Way, deadline: real)
    requires forall k :: 0 <= k < |s.fleets| ==> !IsOverdue(s.fleets[k], way, deadline)
    ensures Late(s, way, deadline) == 0
  {
    hide IsOverdue;
    SumZero(s.fleets, Overdue(way, deadline));
  }

  lemma LateNonNegative(s: State, way: Way, deadline: real)
    ensures Late(s, way, deadline) >= 0
  {
    hide IsOverdue;
    SumNonNegative(s.fleets, Overdue(way, deadline));
  }

  lemma SweptDrains(env: Env, s: State, r: Round, way: Way, deadline: real)
    requires L.Sound(s) && Claims(s, r) && deadline <= s.clock
    ensures var t := Swept(env, s, r);
            && L.Sound(t) && deadline <= t.clock && Pending(t, way, deadline) <= Pending(s, way, deadline)
            && Late(t, way, deadline) + Pending(t, way, deadline) <= Late(s, way, deadline) + Pending(s, way, deadline)
  {
    hide L.Sound, Final, Legal, IsOverdue, Handling, Due, IsFleetBatch, Late, Pending;
    ClaimIsDue(s, r);
    HandlingIsLegal(env, s, r.way, r.now, r.ids, r.dice, r.clocks);
    RunDrains(env, s, Handling(r.way, r.ids, r.dice, r.clocks), way, deadline);
  }

  /** Whatever happens between the sweeps, the fleets that were due when they began are handled
      within one arrival sweep, or one return sweep, for every fifty of them, even while more
      fall due.  Only a recall that is still to be written with an earlier return time can add
      to the returns, and adds at most its own fleet. */
  lemma {:induction false} FleetBacklogDrains(env: Env, s: State, rounds: seq<Round>, way: Way, deadline: real)
    requires L.Sound(s) && Rounds(env, s, rounds) && deadline <= s.clock
    ensures 0 <= Late(AfterRounds(env, s, rounds), way, deadline)
              <= Max(0, Late(s, way, deadline) - Q.BATCH_SIZE * Sweeps(rounds, way)) + Pending(s, way, deadline)
    decreases |rounds|
  {
    hide L.Sound, Final, Legal, Claims, Swept, Late, Pending;
    LateNonNegative(s, way, deadline);
    if rounds != [] {
      var r := rounds[0];
      RunDrains(env, s, r.before, way, deadline);
      var t := Final(env, s, r.before);
      SweptDrains(env, t, r, way, deadline);
      if r.way == way { SweepTakesFifty(env, t, r, deadline); }
      FleetBacklogDrains(env, Swept(env, t, r), rounds[1..], way, deadline);
    }
  }
}
