/** Every event handler of the pool keeps the invariant and never leaves work beside an idle worker. */
module PoolHandlers {
  import opened Lists
  import opened PoolModel
  import opened PoolQueue
  import opened PoolFleet
  import opened PoolSteps

  // Work conservation: nothing is queued while a worker is idle.
  ghost predicate Working(s: Pool) {
    s.fleet.idle == [] || s.queue.order == []
  }

  // ---- scheduling ----------------------------------------------------------------------------

  lemma {:induction false} ScheduleInv(s: Pool, w: Worker)
    requires Inv(s) && Busy(s, w)
    ensures Inv(Schedule(s, w)) && Evolves(s, Schedule(s, w)) && Feeds(s, Schedule(s, w))
    decreases s.queue.count, w in s.fleet.tainted
  {
    hide Inv, Evolves, ScheduleStep, Busy;
    var (t, next) := ScheduleStep(s, w);
    ScheduleStepInv(s, w);
    if next.Some? {
      ScheduleStepProgress(s, w);
      ScheduleInv(t, next.value);
      EvolvesTransitive(s, t, Schedule(t, next.value));
    }
  }

  lemma RetireInv(s: Pool, w: Worker)
    requires Inv(s)
    ensures Inv(Retire(s, w)) && Evolves(s, Retire(s, w))
    ensures w !in s.fleet.idle ==> Feeds(s, Retire(s, w))
    ensures Working(s) ==> Working(Retire(s, w))
  {
    hide Inv, Evolves, RetireStep, Schedule, Busy;
    var (t, next) := RetireStep(s, w);
    RetireStepInv(s, w);
    if next.Some? {
      BusyMeans(t, next.value);
      ScheduleInv(t, next.value);
      EvolvesTransitive(s, t, Schedule(t, next.value));
    }
  }

  lemma BusyMeans(s: Pool, w: Worker)
    ensures Busy(s, w) <==> w in s.fleet.active && w !in s.fleet.idle
  {
  }

  // ensureWorkerForQueuedProject: idle workers are put to work until one of the two lists is empty.
  lemma {:induction false} ScheduleIdleInv(s: Pool, ws: seq<Worker>)
    requires Inv(s)
    requires s.queue.order != [] ==> ws == s.fleet.idle
    ensures var t := ScheduleIdle(s, ws);
            Inv(t) && Evolves(s, t) && Working(t) && (t.queue.order != [] ==> s.queue.order != [])
    decreases ws
  {
    OpenInv(s);
    TotalZero(s.queue);
    hide Inv, Evolves, Untimed, Consistent, Schedule, Without, Busy;
    if ws == [] || s.queue.count == 0 {
      EvolvesReflexive(s);
    } else {
      var r := s.(fleet := s.fleet.(idle := Without(s.fleet.idle, ws[0])));
      TakeFirst(s);
      ScheduleInv(r, ws[0]);
      ScheduleIdleInv(Schedule(r, ws[0]), ws[1..]);
      EvolvesTransitive(s, r, Schedule(r, ws[0]));
      EvolvesTransitive(s, Schedule(r, ws[0]), ScheduleIdle(s, ws));
    }
  }

  lemma TakeFirst(s: Pool)
    requires Inv(s) && s.fleet.idle != []
    ensures var w := s.fleet.idle[0];
            var r := s.(fleet := s.fleet.(idle := Without(s.fleet.idle, w)));
            Inv(r) && Evolves(s, r) && Busy(r, w) && r.fleet.idle == s.fleet.idle[1..]
  {
    var w := s.fleet.idle[0];
    var r := s.(fleet := s.fleet.(idle := Without(s.fleet.idle, w)));
    FirstLeaves(s.fleet.idle);
    assert w in s.fleet.idle;
    OpenInv(s);
    FewerIdle(s, r);
    FirstIsBusy(s, w);
    hide Without, Inv, Evolves;
  }

  lemma FirstLeaves(ws: seq<Worker>)
    requires ws != []
    ensures Without(ws, ws[0]) == ws[1..]
  {
  }

  lemma FirstIsBusy(s: Pool, w: Worker)
    requires Inv(s) && w in s.fleet.idle
    ensures Busy(s.(fleet := s.fleet.(idle := Without(s.fleet.idle, w))), w)
  {
    WithoutMembers(s.fleet.idle, w);
    hide Without, Good, Isolated;
  }

  // Taking workers out of the idle list breaks nothing.
  lemma FewerIdle(s: Pool, r: Pool)
    requires Inv(s) && r == s.(fleet := s.fleet.(idle := r.fleet.idle))
    requires s.fleet.idle != [] && r.fleet.idle == s.fleet.idle[1..]
    ensures Inv(r) && Evolves(s, r)
  {
    assert Binds(s.fleet, r.fleet);
    IsolatedStays(s.queue, r.queue, s.fleet, r.fleet);
    hide Good, Isolated, Without;
  }

  lemma GrowInv(s: Pool)
    requires Inv(s) && s.fleet.idle == [] && s.MayGrow()
    ensures var t := s.(fleet := Activate(Create(s.fleet), s.fleet.next));
            Inv(t) && Evolves(s, t) && Busy(t, s.fleet.next)
  {
    var t := s.(fleet := Activate(Create(s.fleet), s.fleet.next));
    CreateRoster(s.fleet);
    ActivateRoster(Create(s.fleet), s.fleet.next);
    BindsTransitive(s.fleet, Create(s.fleet), t.fleet);
    hide Roster, Binds, Good, Isolated, Clear;
    WorkersChange(s, t);
  }

  lemma EnsureCapacityInv(s: Pool)
    requires Inv(s)
    ensures Inv(EnsureCapacity(s)) && Evolves(s, EnsureCapacity(s)) && Working(EnsureCapacity(s))
  {
    var t := ScheduleIdle(s, s.fleet.idle);
    ScheduleIdleInv(s, s.fleet.idle);
    OpenInv(t);
    TotalZero(t.queue);
    hide Inv, Evolves, Untimed, Consistent, Schedule, ScheduleIdle, Busy, Create, Activate;
    if t.queue.count != 0 && t.MayGrow() {
      GrowInv(t);
      var g := t.(fleet := Activate(Create(t.fleet), t.fleet.next));
      NewWorkerIsNotIdle(t.fleet);
      ScheduleInv(g, t.fleet.next);
      EvolvesTransitive(s, t, g);
      EvolvesTransitive(s, g, EnsureCapacity(s));
    }
  }

  lemma NewWorkerIsNotIdle(f: Fleet)
    ensures Activate(Create(f), f.next).idle == f.idle
  {
  }

  // ---- arrivals ------------------------------------------------------------------------------

  lemma RecycleInv(s: Pool, w: Worker)
    requires Inv(s) && w !in s.fleet.idle
    ensures Inv(Recycle(s, w)) && Evolves(s, Recycle(s, w)) && Feeds(s, Recycle(s, w))
  {
    hide Inv, Evolves, Schedule;
    if w in s.fleet.active { ScheduleInv(s, w); } else { EvolvesReflexive(s); }
  }

  // A change of the queue alone.
  lemma QueueChange(s: Pool, t: Pool)
    requires Inv(s) && t == s.(queue := t.queue) && Good(t.queue) && Settles(s.queue, t.queue)
    requires t.queue.started == s.queue.started
    requires (s.draining || s.blocked) ==> t.queue.order == []
    ensures Inv(t) && Evolves(s, t)
  {
    hide Good, Roster, Settles;
  }

  lemma ArriveInv(s: Pool)
    requires Inv(s)
    ensures var t := s.(queue := Stamp(s.queue)); Inv(t) && Evolves(s, t)
  {
    var t := s.(queue := Stamp(s.queue));
    OpenInv(s);
    ArriveGood(s.queue);
    assert Settles(s.queue, t.queue);
    hide Inv, Evolves, Good, Untimed;
    QueueChange(s, t);
  }

  lemma RejectInv(s: Pool, r: Request)
    requires Inv(s) && Fresh(s.queue, r)
    ensures var t := s.(queue := Refuse(s.queue, r));
            Inv(t) && Evolves(s, t) && (Working(s) ==> Working(t))
  {
    var t := s.(queue := Refuse(s.queue, r));
    OpenInv(s);
    RejectGood(s.queue, r);
    RefuseSettles(s.queue, r);
    hide Inv, Good, Untimed, Evolves, Settles, Fresh;
    QueueChange(s, t);
  }

  lemma RefuseSettles(q: Queue, r: Request)
    requires Fresh(q, r)
    ensures Settles(q, Refuse(q, r))
  {
  }

  lemma IdleIndexFacts(f: Fleet, p: Project)
    ensures -1 <= IdleIndex(f, p) < |f.idle|
    ensures IdleIndex(f, p) >= 0 ==> f.Accepts(f.idle[IdleIndex(f, p)], p)
  {
  }

  lemma TakeAtInv(s: Pool, i: nat)
    requires Inv(s) && i < |s.fleet.idle|
    ensures var t := s.(fleet := TakeAt(s.fleet, i));
            && Inv(t) && Evolves(s, t) && Busy(t, s.fleet.idle[i])
            && t.fleet.ProjectOf(s.fleet.idle[i]) == s.fleet.ProjectOf(s.fleet.idle[i])
  {
    var t := s.(fleet := TakeAt(s.fleet, i));
    TakeAtRoster(s.fleet, i);
    hide TakeAt, Good, Isolated, Clear, Binds;
    assert Timed(t);
    hide Roster;
    WorkersChange(s, t);
  }

  // The fast path cannot overtake: it is taken only while nothing is queued.
  lemma ExecuteFreshInv(s: Pool, w: Worker, r: Request)
    requires Inv(s) && Busy(s, w) && s.queue.order == [] && s.fleet.Accepts(w, r.project)
    requires !s.draining && !s.blocked
    requires Fresh(s.queue, r)
    ensures Inv(Execute(s, w, r)) && Evolves(s, Execute(s, w, r)) && Execute(s, w, r).queue.order == []
  {
    hide Inv, Evolves, Good, Untimed, Schedule, Assign;
    var b := Begin(s, w, r);
    OpenInv(s);
    StartFreshGood(s.queue, w, r, s.fleet.Fit(w));
    BeginInv(s, b, w, r);
    BusyMeans(b, w);
    if r.failsAtStart {
      RecycleInv(b, w);
      EvolvesTransitive(s, b, Recycle(b, w));
    }
  }

  lemma EnqueueInv(s: Pool, r: Request)
    requires Inv(s) && !s.draining && !s.blocked
    requires Fresh(s.queue, r)
    ensures var t := s.(queue := Enqueue(s.queue, r)); Inv(t) && Evolves(s, t)
  {
    hide Inv, Evolves, Good, Untimed, Enqueue, Settles;
    OpenInv(s);
    EnqueueGood(s.queue, r);
    EnqueueSettles(s.queue, r);
    QueueChange(s, s.(queue := Enqueue(s.queue, r)));
  }

  lemma EnqueueSettles(q: Queue, r: Request)
    requires Fresh(q, r)
    ensures Settles(q, Enqueue(q, r)) && Enqueue(q, r).started == q.started
  {
  }

  // The request that has just arrived.
  ghost predicate Fresh(q: Queue, r: Request) {
    r !in q.fate && r.id < q.arrivals && forall x :: x in q.fate ==> x.id < r.id
  }

  lemma FreshRequest(s: Pool, p: Project, failsAtStart: bool)
    requires Inv(s)
    ensures Fresh(Stamp(s.queue), Request(s.queue.arrivals, p, failsAtStart))
  {
  }

  lemma AdmitInv(s: Pool, r: Request)
    requires Inv(s) && Working(s) && !s.draining && !s.blocked
    requires Fresh(s.queue, r)
    ensures Inv(Admit(s, r)) && Evolves(s, Admit(s, r)) && Working(Admit(s, r))
  {
    IdleIndexFacts(s.fleet, r.project);
    hide Inv, Evolves, TakeAt, Execute, EnsureCapacity, Enqueue, IdleIndex;
    var i := IdleIndex(s.fleet, r.project);
    if i >= 0 {
      TakeAtInv(s, i);
      var k := s.(fleet := TakeAt(s.fleet, i));
      ExecuteFreshInv(k, s.fleet.idle[i], r);
      EvolvesTransitive(s, k, Execute(k, s.fleet.idle[i], r));
    } else {
      var k := s.(queue := Enqueue(s.queue, r));
      EnqueueInv(s, r);
      EnsureCapacityInv(k);
      EvolvesTransitive(s, k, EnsureCapacity(k));
    }
  }

  lemma DispatchInv(s: Pool, p: Project, failsAtStart: bool)
    requires Inv(s) && Working(s)
    ensures var t := Dispatch(s, p, failsAtStart); Inv(t) && Evolves(s, t) && Working(t)
  {
    var r := Request(s.queue.arrivals, p, failsAtStart);
    var t := s.(queue := Stamp(s.queue));
    ArriveInv(s);
    FreshRequest(s, p, failsAtStart);
    assert Working(t);
    assert !t.draining && !t.RejectsAdmission() ==> !t.draining && !t.blocked;
    hide Inv, Evolves, Admit, Fresh, Working, Stamp, Refuse;
    if t.draining || t.RejectsAdmission() || t.queue.count >= t.config.maxQueue {
      RejectInv(t, r);
      var u := t.(queue := Refuse(t.queue, r));
      EvolvesTransitive(s, t, u);
      assert Dispatch(s, p, failsAtStart) == u;
    } else {
      AdmitInv(t, r);
      EvolvesTransitive(s, t, Admit(t, r));
      assert Dispatch(s, p, failsAtStart) == Admit(t, r);
    }
  }

  // ---- exits and timers ----------------------------------------------------------------------

  lemma ExitRoster(f: Fleet, w: Worker)
    requires Roster(f, {})
    ensures var g := Forget(f, w).(active := Without(f.active, w));
            && Roster(g, {}) && Binds(f, g) && KeepsIdle(f, g)
            && (forall x :: x in g.idle ==> x in f.idle)
            && |g.active| == |f.active| - (if w in f.active then 1 else 0) && |g.parked| <= |f.parked|
  {
    hide Remove, Forget, Without, Roster;
    if w in f.active || w in f.parked {
      RemoveRoster(f, {}, w);
      RemoveSizes(f, w);
      ForgetRetired(f, w);
      StillRetired(f, w);
      RetiredOnly(f, Remove(f, w), f.retired - {w});
    } else {
      ExitUnknown(f, w);
    }
  }

  // A worker may leave the retired ones at any time.
  lemma RetiredOnly(f: Fleet, g: Fleet, retired: set<Worker>)
    requires Roster(g, {}) && Binds(f, g) && KeepsIdle(f, g) && retired <= g.retired
    ensures var h := g.(retired := retired); Roster(h, {}) && Binds(f, h) && KeepsIdle(f, h)
  {
    hide NoDup;
  }

  lemma StillRetired(f: Fleet, w: Worker)
    ensures f.retired - {w} <= Remove(f, w).retired
  {
    hide Without;
  }

  lemma ExitUnknown(f: Fleet, w: Worker)
    requires Roster(f, {}) && w !in f.active && w !in f.parked
    ensures var g := Forget(f, w).(active := Without(f.active, w));
            Roster(g, {}) && Binds(f, g) && KeepsIdle(f, g) && g.idle == f.idle && g.active == f.active && g.parked == f.parked
  {
    assert w !in f.idle && w !in f.meta;
    hide Without;
  }

  lemma ForgetRetired(f: Fleet, w: Worker)
    requires w in f.active || w in f.parked
    ensures Forget(f, w).(active := Without(f.active, w)) == Remove(f, w).(retired := f.retired - {w})
  {
    hide Without;
  }

  lemma ForgetIdle(s: Pool, w: Worker)
    requires Inv(s) && w !in s.fleet.active
    ensures var t := s.(fleet := Forget(s.fleet, w));
            Inv(t) && Evolves(s, t) && t.queue == s.queue && t.fleet.idle == s.fleet.idle && t.fleet.next == s.fleet.next
  {
    var t := s.(fleet := Forget(s.fleet, w));
    ExitRoster(s.fleet, w);
    assert Forget(s.fleet, w).(active := Without(s.fleet.active, w)) == Forget(s.fleet, w);
    hide Forget, Without, Good, Isolated, Binds, Clear;
    TimedStays(s, t);
    WorkersChange(s, t);
  }

  lemma ReplaceExited(s: Pool, w: Worker)
    requires Inv(s) && w in s.fleet.active
    ensures var f := Forget(s.fleet, w).(active := Without(s.fleet.active, w));
            var t := s.(fleet := if s.draining then f else Spawn(f));
            && Inv(t) && Evolves(s, t) && t.queue == s.queue
            && (!s.draining ==> Busy(t, f.next))
            && (Working(s) ==> Working(t))
  {
    var f := Forget(s.fleet, w).(active := Without(s.fleet.active, w));
    var t := s.(fleet := if s.draining then f else Spawn(f));
    ExitRoster(s.fleet, w);
    SpawnRoster(f);
    BindsTransitive(s.fleet, f, Spawn(f));
    assert f.idle == Without(s.fleet.idle, w);
    hide Forget, Spawn, Without, Good, Isolated, Binds, Clear;
    TimedStays(s, t);
    WorkersChange(s, t);
  }

  lemma OnExitInv(s: Pool, w: Worker)
    requires Inv(s) && Working(s)
    ensures Inv(OnExit(s, w)) && Evolves(s, OnExit(s, w)) && Working(OnExit(s, w))
  {
    if w in s.fleet.active {
      ReplaceExited(s, w);
      assert w !in s.fleet.retired;
      hide Inv, Evolves, Schedule, Forget, Spawn;
      var f := Forget(s.fleet, w).(active := Without(s.fleet.active, w));
      ForgetKeepsActive(s.fleet, w);
      if !s.draining {
        var t := s.(fleet := Spawn(f));
        ScheduleInv(t, f.next);
        EvolvesTransitive(s, t, Schedule(t, f.next));
      }
    } else {
      OnExitElsewhere(s, w);
    }
  }

  lemma ForgetKeepsActive(f: Fleet, w: Worker)
    ensures Forget(f, w).active == f.active
  {
  }

  lemma OnExitElsewhere(s: Pool, w: Worker)
    requires Inv(s) && Working(s) && w !in s.fleet.active
    ensures Inv(OnExit(s, w)) && Evolves(s, OnExit(s, w)) && Working(OnExit(s, w))
  {
    var t := s.(fleet := Forget(s.fleet, w));
    ForgetIdle(s, w);
    ForgetKeepsActive(s.fleet, w);
    if w in s.fleet.retired && !s.draining {
      EnsureCapacityInv(t);
      var u := EnsureCapacity(t);
      assert w < s.fleet.next;
      assert w !in t.fleet.meta;
      StaysAway(t, u, w);
      hide Inv, Evolves, EnsureCapacity, Forget;
      EvolvesTransitive(s, t, u);
    }
  }

  // A worker that has gone never returns.
  lemma StaysAway(s: Pool, t: Pool, w: Worker)
    requires Inv(t) && Evolves(s, t) && w < s.fleet.next && w !in s.fleet.meta
    ensures w !in t.fleet.meta && w !in t.fleet.active
  {
  }

  lemma EvictParkedInv(s: Pool, w: Worker)
    requires Inv(s)
    ensures Inv(EvictParked(s, w)) && Evolves(s, EvictParked(s, w)) && (Working(s) ==> Working(EvictParked(s, w)))
    ensures w in s.fleet.parked ==> EvictParked(s, w).fleet.idle == s.fleet.idle
    ensures s.queue.order == [] ==> EvictParked(s, w).queue.order == []
  {
    if w in s.fleet.parked {
      assert w !in s.fleet.active && w !in s.fleet.idle;
      DiscardInv(s, w);
    } else {
      EvolvesReflexive(s);
    }
    hide Inv, Evolves, Discard;
  }

  lemma SurplusTimerInv(s: Pool, w: Worker)
    requires Inv(s) && Working(s)
    ensures Inv(SurplusTimerFired(s, w)) && Evolves(s, SurplusTimerFired(s, w)) && Working(SurplusTimerFired(s, w))
  {
    hide Inv, Evolves, SetSurplusTimer, RetireSurplus;
    SameIdle(s.fleet, w);
    if w in s.fleet.meta && s.fleet.meta[w].surplusTimer {
      if w in s.fleet.idle && s.HasSurplus() {
        FireSurplus(s, w);
      } else {
        DisarmSpare(s, w);
      }
    } else {
      EvolvesReflexive(s);
    }
  }

  lemma SameIdle(f: Fleet, w: Worker)
    ensures SetSurplusTimer(f, w, false).idle == f.idle && SetSurplusTimer(f, w, false).active == f.active
  {
  }

  // The timer of a worker that is busy, or of a pool without surplus, changes nothing else.
  lemma DisarmSpare(s: Pool, w: Worker)
    requires Inv(s) && Working(s) && !(w in s.fleet.idle && s.HasSurplus())
    ensures var d := s.(fleet := SetSurplusTimer(s.fleet, w, false)); Inv(d) && Evolves(s, d) && Working(d)
  {
    if w in s.fleet.idle {
      OpenInv(s);
      TotalZero(s.queue);
      TimerRoster(s.fleet, {}, w, false);
      var d := s.(fleet := SetSurplusTimer(s.fleet, w, false));
      hide Roster, Good, Isolated, Binds, Clear;
      WorkersChange(s, d);
    } else {
      DisarmInv(s, w);
      hide Inv, Evolves;
    }
  }

  // The surplus worker leaves, timer or not.
  lemma FireSurplus(s: Pool, w: Worker)
    requires Inv(s) && Working(s) && w in s.fleet.idle && s.HasSurplus()
    ensures var d := s.(fleet := SetSurplusTimer(s.fleet, w, false));
            var t := RetireSurplus(d, w);
            && Inv(t) && Evolves(s, t) && t.queue.order == [] && |t.fleet.active| == |s.fleet.active| - 1
            && (forall x :: x in t.fleet.idle <==> x in s.fleet.idle && x != w)
  {
    var d := s.(fleet := SetSurplusTimer(s.fleet, w, false));
    RetireSurplusInv(s, w);
    assert w in s.fleet.active;
    SameWithoutTimer(s, w);
  }

  lemma SameWithoutTimer(s: Pool, w: Worker)
    ensures w in s.fleet.active ==> RetireSurplus(s.(fleet := SetSurplusTimer(s.fleet, w, false)), w) == RetireSurplus(s, w)
  {
    var f := SetSurplusTimer(s.fleet, w, false);
    assert f.meta - {w} == s.fleet.meta - {w};
    assert w in s.fleet.active ==> Remove(f, w) == Remove(s.fleet, w);
  }

  lemma DeadlineInv(s: Pool, w: Worker)
    requires Inv(s)
    ensures var t := s.(fleet := s.fleet.(retired := s.fleet.retired - {w})); Inv(t) && Evolves(s, t)
  {
    hide Good;
  }

  lemma TaintInv(s: Pool, ws: set<Worker>)
    requires Inv(s) && forall w :: w in ws ==> w < s.fleet.next
    ensures var t := s.(fleet := Taint(s.fleet, ws)); Inv(t) && Evolves(s, t)
  {
    hide Good;
  }

  // ---- cancellation and invalidation ---------------------------------------------------------

  lemma CancelInv(s: Pool, r: Request)
    requires Inv(s)
    ensures var t := s.(queue := CancelQueued(s.queue, r)); Inv(t) && Evolves(s, t) && (Working(s) ==> Working(t))
  {
    var t := s.(queue := CancelQueued(s.queue, r));
    OpenInv(s);
    CancelQueuedGood(s.queue, r);
    CancelSettles(s.queue, r);
    hide Inv, Evolves, Good, Untimed, CancelQueued, Settles;
    QueueChange(s, t);
  }

  lemma CancelSettles(q: Queue, r: Request)
    requires Good(q)
    ensures var t := CancelQueued(q, r);
            Settles(q, t) && t.started == q.started && (q.order == [] ==> t.order == [])
  {
    assert Waiting(q, r) ==> r in q.fate && q.fate[r] == Queued;
    hide Consistent, Ordered, Bounded;
  }

  lemma InvalidateInv(s: Pool, p: Project)
    requires Inv(s) && Working(s)
    ensures Inv(InvalidateProject(s, p)) && Evolves(s, InvalidateProject(s, p)) && Working(InvalidateProject(s, p))
  {
    var t := s.(queue := DropProject(s.queue, p));
    OpenInv(s);
    DropProjectGood(s.queue, p);
    DropSettles(s.queue, p);
    assert forall w :: w in BoundTo(s.fleet, p) ==> w in s.fleet.meta;
    assert forall w :: w in BoundTo(s.fleet, p) ==> w < s.fleet.next;
    hide Inv, Evolves, Good, Untimed, DropProject, Settles, BoundTo, Roster;
    QueueChange(s, t);
    TaintInv(t, BoundTo(s.fleet, p));
    EvolvesTransitive(s, t, InvalidateProject(s, p));
  }

  lemma DropSettles(q: Queue, p: Project)
    requires Good(q)
    ensures var t := DropProject(q, p);
            Settles(q, t) && t.started == q.started && (q.order == [] ==> t.order == [])
  {
    assert forall r :: p in q.lists && r in q.lists[p] ==> Waiting(q, r);
    hide Ordered, Bounded, Total;
  }

  lemma DrainInv(s: Pool)
    requires Inv(s)
    ensures Inv(StopDispatching(s)) && Evolves(s, StopDispatching(s)) && Working(StopDispatching(s))
  {
    var t := StopDispatching(s);
    OpenInv(s);
    assert Halts(s, t);
    assert t.queue.order == [];
    hide Inv, Clear, Good, Isolated;
    WorkersChange(s, t);
  }

  // ---- affinity --------------------------------------------------------------------------------

  // An arriving request gets an untainted idle worker that accepts it, one of its own project if there is
  // any, and of several the one that became idle last; it is queued only when there is none.
  lemma IdleAffinity(f: Fleet, p: Project)
    ensures var i := IdleIndex(f, p);
            && (i >= 0 ==> f.idle[i] !in f.tainted && f.Accepts(f.idle[i], p))
            && (forall w :: w in f.idle && w !in f.tainted && f.ProjectOf(w) == Some(p) ==>
                  i >= 0 && f.ProjectOf(f.idle[i]) == Some(p))
            && (i < 0 ==> forall w :: w in f.idle && w !in f.tainted ==> !f.Accepts(w, p))
            && (forall j :: 0 <= i < j < |f.idle| && f.idle[j] !in f.tainted ==>
                  f.ProjectOf(f.idle[j]) != Some(p) && (f.Accepts(f.idle[j], p) ==> f.ProjectOf(f.idle[i]) == Some(p)))
  {
  }
}
