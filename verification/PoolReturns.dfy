/** What becomes of a worker that comes back tainted, and how small a closed pool makes itself. */
module PoolReturns {
  import opened Lists
  import opened PoolModel
  import opened PoolQueue
  import opened PoolFleet
  import opened PoolSteps
  import opened PoolHandlers
  import opened PoolPreheat
  import opened PoolRuns
  import opened PoolUses
  import opened PoolTheorems
  import opened PoolDecisions
  import opened PoolGenerations
  import opened PoolArrivals

  // ---- tainted workers --------------------------------------------------------------------------------------

  lemma TaintedLeaves(s: Pool, w: Worker)
    requires Inv(s) && Busy(s, w) && w in s.fleet.tainted && w < s.fleet.next
    ensures w !in Schedule(s, w).fleet.meta
  {
    var d := s.(fleet := SetSurplusTimer(s.fleet, w, false));
    hide Inv, Evolves, RetireStep, Schedule, Busy, SetSurplusTimer, Feeds;
    DisarmInv(s, w) by { BusyMeans(s, w); }
    BusyMeans(s, w);
    BusyMeans(d, w);
    TimerNumbers(s.fleet, w);
    RetireStepInv(d, w);
    RetireStepForgets(d, w);
    var (t, next) := RetireStep(d, w);
    assert ScheduleStep(s, w) == (t, next);
    assert Schedule(s, w) == if next.None? then t else Schedule(t, next.value) by { OnePass(s, w); }
    if next.Some? {
      BusyMeans(t, next.value);
      ScheduleInv(t, next.value);
      NeverBack(t, Schedule(t, next.value), w);
    }
  }

  lemma TimerNumbers(f: Fleet, w: Worker)
    ensures var g := SetSurplusTimer(f, w, false); g.next == f.next && g.active == f.active && g.tainted == f.tainted
  {
  }

  lemma OnePass(s: Pool, w: Worker)
    ensures var (t, next) := ScheduleStep(s, w);
            Schedule(s, w) == if next.None? then t else (ScheduleStepProgress(s, w); Schedule(t, next.value))
  {
    hide ScheduleStep;
  }

  // A worker that comes back tainted, or over its memory budget, leaves the pool for good.
  lemma TaintedIsRetired(c: Config, es: seq<Event>, w: Worker, overBudget: bool, more: seq<Event>)
    requires c.Valid() && Admissible(Initial(c), es + [Finish(w, overBudget)] + more)
    requires var s := Run(Initial(c), es); w in s.fleet.active && (w in s.fleet.tainted || overBudget)
    ensures w !in Run(Initial(c), es + [Finish(w, overBudget)] + more).fleet.meta
  {
    hide Run, Admissible, Initial, Reachable, Step;
    var e := Finish(w, overBudget);
    var s := Run(Initial(c), es);
    RunAppend(Initial(c), es + [e], more);
    RunAppend(Initial(c), es, [e]);
    RunOnce(s, e);
    Reached(c, es);
    Reached(c, es + [e]);
    OpenReached(s);
    ComesBack(s, w, overBudget);
    hide Inv;
    RunReachable(Step(s, e), more);
    GoneForGood(Step(s, e), Run(Step(s, e), more), w);
  }

  lemma ComesBack(s: Pool, w: Worker, overBudget: bool)
    requires Inv(s) && w in s.fleet.active && (w in s.fleet.tainted || overBudget) && Admissible(s, [Finish(w, overBudget)])
    ensures w !in Step(s, Finish(w, overBudget)).fleet.meta && w < Step(s, Finish(w, overBudget)).fleet.next
  {
    assert Enabled(s, Finish(w, overBudget));
    var t := if overBudget then s.(fleet := Taint(s.fleet, {w})) else s;
    TaintInv(s, {w});
    BusyMeans(t, w);
    assert Step(s, Finish(w, overBudget)) == Schedule(t, w) by { hide Schedule; }
    hide Inv, Evolves, Schedule, Busy, Step;
    TaintedLeaves(t, w);
    ScheduleInv(t, w);
    NumbersKept(t, Schedule(t, w));
  }

  lemma NumbersKept(s: Pool, t: Pool)
    requires Evolves(s, t)
    ensures s.fleet.next <= t.fleet.next
  {
    hide Settles;
  }

  lemma GoneForGood(s: Pool, t: Pool, w: Worker)
    requires Proceeds(s, t) && w < s.fleet.next && w !in s.fleet.meta
    ensures w !in t.fleet.meta
  {
    hide Settles;
  }

  // ---- surplus workers --------------------------------------------------------------------------------------------

  lemma SurplusLeaves(s: Pool, w: Worker)
    requires Inv(s) && Busy(s, w) && w < s.fleet.next
    ensures var t := RetireSurplus(s, w);
            && w !in t.fleet.meta && |t.fleet.active| == |s.fleet.active| - 1 && t.fleet.parked == Without(s.fleet.parked, w)
  {
    BusyMeans(s, w);
    OpenInv(s);
    DiscardFacts(s, w);
    RemoveSizes(s.fleet, w);
    assert w !in Remove(s.fleet, w).meta && Remove(s.fleet, w).parked == Without(s.fleet.parked, w) by { hide Without; }
    hide Inv, Discard, Remove, Without, Roster;
  }

  lemma PassWithSurplus(s: Pool, w: Worker)
    requires w !in s.fleet.tainted && s.HasSurplus()
    ensures ScheduleStep(s, w) == (SurplusStep(s.(fleet := SetSurplusTimer(s.fleet, w, false)), w), None)
    ensures Schedule(s, w) == SurplusStep(s.(fleet := SetSurplusTimer(s.fleet, w, false)), w)
  {
    TimerNumbers(s.fleet, w);
    hide SetSurplusTimer, SurplusStep, RetireStep, Target, Claim, ServeStep;
  }

  // A worker that comes back untainted to a pool grown past its warm size, with nothing queued, is retired at once
  // without a replacement if admission is closed or recovering; otherwise it is idle with a surplus timer running.
  lemma SurplusReturns(c: Config, es: seq<Event>, w: Worker)
    requires c.Valid() && Admissible(Initial(c), es + [Finish(w, false)])
    requires var s := Run(Initial(c), es);
             && w in s.fleet.active && w !in s.fleet.tainted && !s.draining && s.queue.order == [] && |s.fleet.active| > c.size
    ensures var s := Run(Initial(c), es);
            var t := Step(s, Finish(w, false));
            if s.blocked || s.recovering then w !in t.fleet.meta && |t.fleet.active| == |s.fleet.active| - 1
            else
              && t.fleet.idle == s.fleet.idle + [w] && t.fleet.active == s.fleet.active
              && w in t.fleet.meta && t.fleet.meta[w].surplusTimer
  {
    hide Run, Admissible, Initial, Reachable, Step;
    var s := Run(Initial(c), es);
    RunAppend(Initial(c), es, [Finish(w, false)]);
    Reached(c, es);
    OpenReached(s);
    HandedIn(s, w);
    BusyMeans(s, w);
    SurplusIsCounted(s);
    PassWithSurplus(s, w);
    BusyHasMeta(s, w);
    MetaExists(s, w);
    var d := s.(fleet := SetSurplusTimer(s.fleet, w, false));
    DisarmInv(s, w);
    TimerNumbers(s.fleet, w);
    BusyMeans(d, w);
    SurplusLeaves(d, w);
    StaysIdle(s.fleet, w);
    hide Inv, Schedule, RetireSurplus, SetSurplusTimer, ToIdle, Evolves, Busy;
  }

  lemma StaysIdle(f: Fleet, w: Worker)
    requires w in f.meta
    ensures var g := SetSurplusTimer(ToIdle(SetSurplusTimer(f, w, false), w), w, true);
            g.idle == f.idle + [w] && g.active == f.active && w in g.meta && g.meta[w].surplusTimer
  {
  }

  lemma MetaExists(s: Pool, w: Worker)
    requires Inv(s) && w in s.fleet.meta
    ensures w < s.fleet.next
  {
    OpenInv(s);
    hide Inv, Good;
  }

  lemma SurplusIsCounted(s: Pool)
    requires Inv(s)
    ensures s.HasSurplus() <==> !s.draining && |s.fleet.active| > s.config.size && s.queue.order == []
  {
    OpenInv(s);
    TotalZero(s.queue);
    hide Inv, Roster, Total, Ordered, Accounted, Bounded;
  }

  // ---- workers that leave ------------------------------------------------------------------------------------------

  lemma EvictedIsGone(s: Pool, w: Worker)
    requires Inv(s)
    ensures w !in EvictParked(s, w).fleet.parked
  {
    EvictedLeaves(s, w);
    hide Inv, EvictParked;
  }

  lemma LostIsGone(s: Pool, w: Worker)
    requires Inv(s)
    ensures w < s.fleet.next ==> w !in Retire(s, w).fleet.meta
  {
    OpenInv(s);
    if w in s.fleet.active || w in s.fleet.parked {
      if w < s.fleet.next { RetiredIsGone(s, w); }
    } else {
      NothingRetired(s, w);
      assert w !in s.fleet.meta by { hide Inv, Good; }
    }
    hide Inv, Retire, RetireStep;
  }

  lemma ExitedIsGone(s: Pool, w: Worker)
    requires Inv(s) && Working(s) && w < s.fleet.next
    ensures w !in OnExit(s, w).fleet.meta
  {
    hide Inv, Forget, Spawn, Schedule, Without, Busy, Evolves, EnsureCapacity, Working;
    var k := s.(fleet := Forget(s.fleet, w));
    ForgetKeepsActive(s.fleet, w);
    ForgottenMeta(s.fleet, w);
    if w in s.fleet.active {
      var f := Forget(s.fleet, w).(active := Without(s.fleet.active, w));
      ReplaceExited(s, w);
      ActiveIsNotRetired(s, w);
      if !s.draining {
        ScheduleInv(s.(fleet := Spawn(f)), f.next);
        NeverBack(s.(fleet := Spawn(f)), Schedule(s.(fleet := Spawn(f)), f.next), w);
      }
    } else {
      ForgetIdle(s, w);
      EnsureCapacityInv(k);
      StaysAway(k, EnsureCapacity(k), w);
    }
  }

  lemma ActiveIsNotRetired(s: Pool, w: Worker)
    requires Inv(s) && w in s.fleet.active
    ensures w !in s.fleet.retired
  {
    OpenInv(s);
    hide Inv, Good;
  }

  lemma ForgottenMeta(f: Fleet, w: Worker)
    requires w < f.next
    ensures w !in Forget(f, w).meta && w !in Spawn(Forget(f, w).(active := Without(f.active, w))).meta
    ensures Spawn(Forget(f, w).(active := Without(f.active, w))).next > w && Forget(f, w).next == f.next
  {
    hide Without;
  }

  // A lost or exited worker is gone for good, a parked one whose time is up is not parked any more, and a pool that
  // is told to drain does, and has nothing queued.
  lemma Departures(c: Config, es: seq<Event>, w: Worker, more: seq<Event>)
    requires c.Valid() && Admissible(Initial(c), es) && w < Run(Initial(c), es).fleet.next
    ensures var s := Run(Initial(c), es);
            && (forall e :: e in {Lose(w), Exit(w)} && Admissible(Step(s, e), more) ==> w !in Run(Step(s, e), more).fleet.meta)
            && w !in Step(s, ParkedTimer(w)).fleet.parked
            && Step(s, Drain).draining && Step(s, Drain).queue.order == []
  {
    hide Run, Initial, Reachable, Step;
    var s := Run(Initial(c), es);
    Reached(c, es);
    OpenReached(s);
    EventsAre(s, w);
    LostIsGone(s, w);
    ExitedIsGone(s, w);
    EvictedIsGone(s, w);
    hide Inv, Admissible, Working;
    forall e | e in {Lose(w), Exit(w)} && Admissible(Step(s, e), more) ensures w !in Run(Step(s, e), more).fleet.meta {
      assert Enabled(s, e);
      StepReachable(s, e);
      RunReachable(Step(s, e), more);
      OnceKnown(s, Step(s, e), w);
      GoneForGood(Step(s, e), Run(Step(s, e), more), w);
    }
  }

  lemma OnceKnown(s: Pool, t: Pool, w: Worker)
    requires Proceeds(s, t) && w < s.fleet.next
    ensures w < t.fleet.next
  {
    hide Settles;
  }

  lemma EventsAre(s: Pool, w: Worker)
    ensures Step(s, Lose(w)) == Retire(s, w) && Step(s, Exit(w)) == OnExit(s, w)
    ensures Step(s, ParkedTimer(w)) == EvictParked(s, w) && Step(s, Drain).draining && Step(s, Drain).queue.order == []
  {
    hide Retire, OnExit, EvictParked;
  }

  // After an invalidation that it did not acknowledge, a busy worker starts nothing any more.
  lemma UnacknowledgedStartNothing(c: Config, es: seq<Event>, w: Worker, more: seq<Event>, i: nat)
    requires c.Valid() && Admissible(Initial(c), es + [TaintBusy(w)] + more)
    ensures var n := |Run(Initial(c), es).queue.started|;
            var log := Run(Initial(c), es + [TaintBusy(w)] + more).queue.started;
            n <= i < |log| ==> log[i].worker != w
  {
    hide Run, Initial, Reachable, Step, Watched, Admissible;
    var s := Run(Initial(c), es);
    var e := TaintBusy(w);
    RunAppend(Initial(c), es + [e], more);
    RunAppend(Initial(c), es, [e]);
    RunOnce(s, e);
    Watch0(c, es);
    Watch0(c, es + [e]);
    AdmitsOnce(s, e);
    var k := Watch({}, {w}, |s.queue.started|);
    assert Watched(Step(s, e), k) by { TaintBans(s, w); }
    RunWatched(Step(s, e), more, k);
    BannedStartNothing(Run(Step(s, e), more), k, i);
  }

  lemma AdmitsOnce(s: Pool, e: Event)
    requires Admissible(s, [e])
    ensures Enabled(s, e)
  {
  }

  lemma TaintBans(s: Pool, w: Worker)
    requires Watched(s, NO_BAN) && w < s.fleet.next
    ensures Watched(Step(s, TaintBusy(w)), Watch({}, {w}, |s.queue.started|))
  {
  }

  // ---- single preheats --------------------------------------------------------------------------------------------

  // Worker `w` has left the idle list for project `p`, and nothing else has moved.
  ghost predicate TakenFor(s: Pool, t: Pool, w: Worker, p: Project) {
    && t.fleet.ProjectOf(w) == Some(p) && (forall x :: x in t.fleet.idle <==> x in s.fleet.idle && x != w)
    && t.fleet.active == s.fleet.active && t.queue == s.queue
  }

  lemma PreheatTakes(s: Pool, p: Project)
    requires Inv(s) && IsOpen(s) && IdleIndex(s.fleet, p) >= 0
    ensures var w := s.fleet.idle[IdleIndex(s.fleet, p)];
            AtHand(s, w, p) && TakenFor(s, Preheat(s, p), w, p)
  {
    var i := IdleIndex(s.fleet, p);
    IdleAffinity(s.fleet, p);
    IdleIndexFacts(s.fleet, p);
    hide Inv, IdleIndex, TakeAt, Assign;
    var w := s.fleet.idle[i];
    var k := s.(fleet := TakeAt(s.fleet, i));
    TakenFromIdle(s, i);
    TakeAtInv(s, i);
    BusyMeans(k, w);
    BusyHasMeta(k, w);
    AssignOneBinds(k.fleet, w, p);
  }

  lemma BusyHasMeta(s: Pool, w: Worker)
    requires Inv(s) && Busy(s, w)
    ensures w in s.fleet.meta
  {
    OpenInv(s);
    hide Inv, Good;
  }

  // A single preheat takes one worker out of the idle list if one is at hand in an open pool, binds it to the
  // project, and leaves all others; otherwise it changes nothing.
  lemma PreheatTakesOne(c: Config, es: seq<Event>, p: Project)
    requires c.Valid() && Admissible(Initial(c), es)
    ensures var s := Run(Initial(c), es);
            var t := Step(s, PreheatOne(p));
            if IsOpen(s) && (exists w :: AtHand(s, w, p)) then exists w :: AtHand(s, w, p) && TakenFor(s, t, w, p) else t == s
  {
    hide Run, Admissible, Initial, Reachable, Inv, Working, Preheat, AtHand, TakenFor;
    var s := Run(Initial(c), es);
    Reached(c, es);
    OpenReached(s);
    assert Step(s, PreheatOne(p)) == Preheat(s, p);
    PreheatedExactly(s, p);
  }

  lemma PreheatedExactly(s: Pool, p: Project)
    requires Inv(s)
    ensures var t := Preheat(s, p);
            if IsOpen(s) && (exists w :: AtHand(s, w, p)) then exists w :: AtHand(s, w, p) && TakenFor(s, t, w, p) else t == s
  {
    hide Inv, Preheat, TakenFor, IdleIndex;
    NobodyToPreheat(s, p);
    if IsOpen(s) && IdleIndex(s.fleet, p) >= 0 { PreheatTakes(s, p); }
    IdleAffinity(s.fleet, p);
  }

  lemma NobodyToPreheat(s: Pool, p: Project)
    ensures !IsOpen(s) || IdleIndex(s.fleet, p) < 0 ==> Preheat(s, p) == s
  {
    hide IdleIndex;
  }

  lemma TakenFromIdle(s: Pool, i: nat)
    requires Inv(s) && i < |s.fleet.idle|
    ensures var f := TakeAt(s.fleet, i);
            && (forall x :: x in f.idle <==> x in s.fleet.idle && x != s.fleet.idle[i])
            && f.active == s.fleet.active && f.ProjectOf(s.fleet.idle[i]) == s.fleet.ProjectOf(s.fleet.idle[i])
  {
    ListedOnce(s);
    hide Inv;
    var idle, f := s.fleet.idle, TakeAt(s.fleet, i);
    assert f.idle == idle[..i] + idle[i + 1..];
    forall x ensures x in f.idle <==> x in idle && x != idle[i] {
      if x in idle && x != idle[i] {
        var j :| 0 <= j < |idle| && idle[j] == x;
        assert f.idle[if j < i then j else j - 1] == x;
      }
    }
  }

  // ---- a closed pool ----------------------------------------------------------------------------------------------

  // A closed pool keeps no idle worker beyond its warm size.
  ghost predicate Trimmed(s: Pool) {
    s.blocked && !s.draining ==> s.fleet.idle == [] || |s.fleet.active| <= s.config.size
  }

  lemma StepTrimmed(s: Pool, w: Worker)
    requires Inv(s) && Busy(s, w) && s.blocked && Trimmed(s)
    ensures Trimmed(ScheduleStep(s, w).0) && ScheduleStep(s, w).0.blocked
  {
    var d := s.(fleet := SetSurplusTimer(s.fleet, w, false));
    BusyMeans(s, w);
    DisarmInv(s, w);
    BusyMeans(d, w);
    ScheduleStepInv(s, w);
    assert d.draining == s.draining && d.config == s.config && d.blocked;
    hide Inv, Busy, SetSurplusTimer, Target, Claim, ServeStep, Skipped, Binds, Settles;
    if w in d.fleet.tainted {
      hide SurplusStep;
      RetireStepTrimmed(d, w);
    } else if d.HasSurplus() {
      hide RetireStep;
      SurplusTrimmed(d, w);
    } else {
      hide RetireStep, SurplusStep;
      ClosedIsEmpty(d);
    }
  }

  lemma ClosedIsEmpty(s: Pool)
    requires Inv(s) && s.blocked
    ensures s.queue.count == 0 && s.queue.order == [] && |s.fleet.active| <= s.config.maxConcurrent
  {
    OpenInv(s);
    TotalZero(s.queue);
    hide Inv, Roster, Good;
  }

  lemma RetireStepTrimmed(s: Pool, w: Worker)
    requires Inv(s) && Busy(s, w) && Trimmed(s)
    ensures Trimmed(RetireStep(s, w).0)
  {
    BusyMeans(s, w);
    hide Inv, Busy, Discard, Spawn;
    if !Discard(s, w).draining {
      SpawnedSize(s, w);
      ReplaceInv(s, w);
    }
  }

  lemma SpawnedSize(s: Pool, w: Worker)
    requires Inv(s) && w in s.fleet.active && !Discard(s, w).draining
    ensures var t := Discard(s, w).(fleet := Spawn(Discard(s, w).fleet));
            |t.fleet.active| == |s.fleet.active| && t.config == s.config && t.blocked == s.blocked && !s.draining
  {
    OpenInv(s);
    DiscardFacts(s, w);
    RemoveSizes(s.fleet, w);
    hide Inv, Discard, Remove, Clear, Roster;
  }

  lemma SurplusTrimmed(s: Pool, w: Worker)
    requires Inv(s) && Busy(s, w) && s.blocked && s.HasSurplus() && Trimmed(s)
    ensures Trimmed(SurplusStep(s, w))
  {
    BusyMeans(s, w);
    RetireSurplusInv(s, w);
    hide Inv, Busy, RetireSurplus, Binds, Settles;
    NoMembers(RetireSurplus(s, w).fleet.idle);
  }

  lemma NoMembers(ws: seq<Worker>)
    ensures (forall w :: w !in ws) ==> ws == []
  {
    if ws != [] { assert ws[0] in ws; }
  }

  lemma {:induction false} ScheduleTrimmed(s: Pool, w: Worker)
    requires Inv(s) && Busy(s, w) && s.blocked && Trimmed(s)
    ensures Trimmed(Schedule(s, w))
    decreases s.queue.count, w in s.fleet.tainted
  {
    hide Inv, Evolves, ScheduleStep, Busy, Trimmed;
    var (t, next) := ScheduleStep(s, w);
    ScheduleStepInv(s, w);
    StepTrimmed(s, w);
    if next.Some? {
      ScheduleStepProgress(s, w);
      ScheduleTrimmed(t, next.value);
    }
  }

  lemma RetireTrimmed(s: Pool, w: Worker)
    requires Inv(s) && s.blocked && Trimmed(s) && s.fleet.parked == []
    ensures Trimmed(Retire(s, w))
  {
    hide Inv, RetireStep, Busy, Trimmed, Schedule, Evolves, Feeds;
    var (t, next) := RetireStep(s, w);
    RetireStepInv(s, w);
    if w in s.fleet.active {
      RetireIdleToo(s, w);
    } else {
      NothingRetired(s, w);
    }
    if next.Some? {
      BusyMeans(t, next.value);
      RetireStepBlocked(s, w);
      ScheduleTrimmed(t, next.value);
    }
  }

  lemma NothingRetired(s: Pool, w: Worker)
    requires w !in s.fleet.active && w !in s.fleet.parked
    ensures RetireStep(s, w) == (s, None)
  {
    RetireNothing(s, w);
  }

  lemma RetireStepBlocked(s: Pool, w: Worker)
    ensures RetireStep(s, w).0.blocked == s.blocked
  {
    hide Remove, Spawn, Clear;
  }

  lemma RetireIdleToo(s: Pool, w: Worker)
    requires Inv(s) && w in s.fleet.active && Trimmed(s)
    ensures Trimmed(RetireStep(s, w).0)
  {
    OpenInv(s);
    DiscardFacts(s, w);
    RemoveRoster(s.fleet, {}, w);
    RemoveSizes(s.fleet, w);
    SpawnLists(Discard(s, w).fleet);
    NoMembers(Remove(s.fleet, w).idle);
    hide Inv, Discard, Remove, Clear, Roster, Spawn, Binds, KeepsIdle;
  }

  lemma SpawnLists(f: Fleet)
    ensures Spawn(f).idle == f.idle && |Spawn(f).active| == |f.active| + 1
  {
  }

  lemma ExitTrimmed(s: Pool, w: Worker)
    requires Inv(s) && Working(s) && s.blocked && Trimmed(s)
    ensures Trimmed(OnExit(s, w))
  {
    ClosedIsEmpty(s);
    ForgetKeepsActive(s.fleet, w);
    var k := s.(fleet := Forget(s.fleet, w));
    ForgottenIdle(s.fleet, w);
    NoMembers(k.fleet.idle);
    assert EnsureCapacity(k) == k by { ClosedNeedsNothing(k); }
    hide EnsureCapacity, Forget;
    if w in s.fleet.active {
      ReplaceTrimmed(s, w);
    }
    hide Inv;
  }

  lemma ClosedNeedsNothing(s: Pool)
    requires s.queue.count == 0
    ensures EnsureCapacity(s) == s
  {
  }

  lemma ForgottenIdle(f: Fleet, w: Worker)
    ensures forall x :: x in Forget(f, w).idle ==> x in f.idle
  {
    WithoutKeeps(f.idle, w);
    hide Without;
  }

  lemma ReplaceTrimmed(s: Pool, w: Worker)
    requires Inv(s) && Working(s) && s.blocked && Trimmed(s) && w in s.fleet.active
    ensures Trimmed(ReplaceGone(s.(fleet := Forget(s.fleet, w)), w))
  {
    var f := Forget(s.fleet, w).(active := Without(s.fleet.active, w));
    ReplaceExited(s, w);
    ForgetKeepsActive(s.fleet, w);
    ForgottenIdle(s.fleet, w);
    NoMembers(f.idle);
    SpawnLists(f);
    hide Inv, Evolves, Schedule, Forget, Spawn, Without, Busy;
    if !s.draining {
      ScheduleTrimmed(s.(fleet := Spawn(f)), f.next);
    }
  }

  lemma TimerTrimmed(s: Pool, w: Worker)
    requires Inv(s) && Working(s) && s.blocked && Trimmed(s)
    ensures Trimmed(SurplusTimerFired(s, w))
  {
    SameIdle(s.fleet, w);
    hide SetSurplusTimer, RetireSurplus;
    if w in s.fleet.idle && s.HasSurplus() {
      FireSurplus(s, w);
    }
    hide Inv;
  }

  lemma {:induction false} TrimIdleTrims(s: Pool, ws: seq<Worker>)
    requires Inv(s) && s.queue.order == [] && NoDup(ws) && forall w :: w in ws <==> w in s.fleet.idle
    ensures var t := TrimIdle(s, ws); t.draining || t.fleet.idle == [] || |t.fleet.active| <= t.config.size
    decreases ws
  {
    NoMembers(s.fleet.idle);
    hide Inv, Evolves, RetireSurplus;
    if ws != [] && |s.fleet.active| > s.config.size {
      IdleIsActive(s, ws[0]);
      RetireSurplusInv(s, ws[0]);
      assert ws == [ws[0]] + ws[1..];
      TrimIdleTrims(RetireSurplus(s, ws[0]), ws[1..]);
    }
  }

  lemma SetAdmissionTrimmed(s: Pool, blocked: bool, recovering: bool)
    requires Reachable(s) && Trimmed(s)
    ensures Trimmed(SetAdmission(s, blocked, recovering))
  {
    if blocked && !(s.blocked == blocked && s.recovering == recovering) {
      var c := s.(blocked := blocked, recovering := recovering && !blocked, queue := Clear(s.queue));
      FlagsInv(s, blocked, recovering);
      assert c == s.(blocked := blocked, recovering := recovering && !blocked).(queue := Clear(s.queue));
      var e := EvictAll(c, c.fleet.parked);
      EvictAllInv(c, c.fleet.parked);
      ListedOnce(e);
      TrimIdleTrims(e, e.fleet.idle);
      hide Inv, Evolves, EvictAll, TrimIdle, Rested, Working, Clear, Proceeds;
    }
  }

  lemma ListedOnce(s: Pool)
    requires Inv(s)
    ensures NoDup(s.fleet.idle)
  {
    OpenInv(s);
    hide Inv, Good;
  }

  // Events that a closed pool does not act upon, or that move no worker.
  lemma StillTrimmed(s: Pool, e: Event)
    requires Reachable(s) && Trimmed(s) && s.blocked
    requires e.Arrive? || e.Cancel? || e.Invalidate? || e.Drain? || e.TaintBusy? || e.RetirementDeadline? || e.ParkedTimer?
             || e.PreheatOne? || e.PreheatMany?
    ensures Trimmed(Step(s, e))
  {
    hide Inv, Without, BoundTo, Admit, TakeForPreheat, Rotate, Discard, CancelQueued, DropProject, Clear;
  }

  lemma EventTrimmed(s: Pool, e: Event)
    requires Reachable(s) && Enabled(s, e) && Trimmed(s)
    ensures Trimmed(Step(s, e))
  {
    hide Inv, Working, Proceeds, Trimmed, Rested, Schedule, Retire, OnExit, SurplusTimerFired, SetAdmission;
    StepReachable(s, e);
    if e.Admission? {
      SetAdmissionTrimmed(s, e.block, e.recover);
    } else if !s.blocked {
      StaysOpen(s, e);
    } else {
      ClosedRests(s);
      match e
      case Finish(w, over) =>
        var t := if over then s.(fleet := Taint(s.fleet, {w})) else s;
        TaintInv(s, {w});
        BusyMeans(t, w);
        TaintTrimmed(s, w);
        if w in t.fleet.active { ScheduleTrimmed(t, w); }
      case Lose(w) => RetireTrimmed(s, w);
      case Exit(w) => ExitTrimmed(s, w);
      case SurplusTimer(w) => TimerTrimmed(s, w);
      case _ => StillTrimmed(s, e);
    }
  }

  lemma TaintTrimmed(s: Pool, w: Worker)
    requires Trimmed(s)
    ensures Trimmed(s.(fleet := Taint(s.fleet, {w})))
  {
  }

  lemma ClosedRests(s: Pool)
    requires Reachable(s) && s.blocked
    ensures s.fleet.parked == []
  {
    hide Inv;
  }

  lemma StaysOpen(s: Pool, e: Event)
    requires Reachable(s) && Enabled(s, e) && !e.Admission? && !s.blocked
    ensures Trimmed(Step(s, e))
  {
    hide Inv, Step, Enabled;
    StepEvolves(s, e);
    hide Binds, Settles;
  }

  lemma {:induction false} RunTrimmed(s: Pool, es: seq<Event>)
    requires Reachable(s) && Admissible(s, es) && Trimmed(s)
    ensures Trimmed(Run(s, es))
    decreases es
  {
    if es != [] {
      hide Reachable, Proceeds, Step, Enabled, Trimmed;
      StepReachable(s, es[0]);
      EventTrimmed(s, es[0]);
      RunTrimmed(Step(s, es[0]), es[1..]);
    }
  }

  // While admission is blocked no worker is idle beyond the warm size.
  lemma ClosedPoolIsSmall(c: Config, es: seq<Event>)
    requires c.Valid() && Admissible(Initial(c), es)
    ensures var s := Run(Initial(c), es);
            s.blocked && !s.draining && s.fleet.idle != [] ==> |s.fleet.active| <= c.size
  {
    InitialInv(c);
    assert Trimmed(Initial(c));
    Reached(c, es);
    hide Run, Reachable, Initial;
    RunTrimmed(Initial(c), es);
  }
}
