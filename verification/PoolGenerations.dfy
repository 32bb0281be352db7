/**
 Generations and taints: whatever a pool starts, it starts on an untainted worker of its present generation, and
 nothing on the workers that an invalidation or a rotation has ruled out.
 */
module PoolGenerations {
  import opened Lists
  import opened PoolModel
  import opened PoolQueue
  import opened PoolFleet
  import opened PoolSteps
  import opened PoolHandlers
  import opened PoolPreheat
  import opened PoolRuns
  import opened PoolUses

  // `late`: workers that a rotation has yet to deal with. `banned`: workers that may start nothing from place
  // `since` of the log on.
  datatype Watch = Watch(late: set<Worker>, banned: set<Worker>, since: nat)

  const NO_BAN := Watch({}, {}, 0)

  // Untainted workers are of the present generation, except late ones; banned ones are tainted, outdated or gone.
  ghost predicate Marked(f: Fleet, k: Watch) {
    && (forall w <- f.meta :: f.meta[w].generation <= f.generation)
    && (forall w <- f.meta :: w in f.tainted || f.meta[w].generation == f.generation || w in k.late)
    && (forall w <- k.banned :: w < f.next && (w in f.meta ==> w in f.tainted || f.meta[w].generation < f.generation))
  }

  ghost predicate Proper(log: seq<Start>, k: Watch) {
    && (forall i :: 0 <= i < |log| ==> log[i].fit)
    && (forall i :: k.since <= i < |log| ==> log[i].worker !in k.banned)
  }

  ghost predicate Watched(s: Pool, k: Watch) {
    Marked(s.fleet, k) && Proper(s.queue.started, k)
  }

  // The worker may be scheduled: it is to be retired, or fit for work.
  ghost predicate Apt(f: Fleet, w: Worker) {
    w in f.tainted || f.Fit(w)
  }

  // Workers keep their generation and their taint; new ones are of the present generation.
  ghost predicate SameAges(f: Fleet, g: Fleet) {
    && f.next <= g.next && g.generation == f.generation
    && forall w <- g.meta ::
         || (w in f.meta && g.meta[w].generation == f.meta[w].generation && (w in f.tainted ==> w in g.tainted))
         || (w >= f.next && g.meta[w].generation == g.generation)
  }

  lemma FleetWatched(s: Pool, t: Pool, k: Watch)
    requires Watched(s, k) && SameAges(s.fleet, t.fleet) && t.queue.started == s.queue.started
    ensures Watched(t, k)
  {
  }

  // ---- changes of the workers ---------------------------------------------------------------------------

  lemma DiscardWatched(s: Pool, w: Worker, k: Watch)
    requires Watched(s, k)
    ensures Watched(Discard(s, w), k) && Discard(s, w).fleet.generation == s.fleet.generation
  {
    RemoveAges(s.fleet, w);
    hide Remove, Watched, SameAges;
    FleetWatched(s, s.(fleet := Remove(s.fleet, w)), k);
    FleetWatched(s, s, k) by { assert SameAges(s.fleet, s.fleet) by { SelfAges(s.fleet); } }
    ClearedWatched(s.(fleet := Remove(s.fleet, w)), k);
  }

  lemma SelfAges(f: Fleet)
    ensures SameAges(f, f)
  {
  }

  lemma ClearedWatched(s: Pool, k: Watch)
    requires Watched(s, k)
    ensures Watched(StopDispatching(s), k)
  {
  }

  lemma RemoveAges(f: Fleet, w: Worker)
    ensures SameAges(f, Remove(f, w)) && Remove(f, w).generation == f.generation
  {
    hide Without;
  }

  lemma RetireSurplusWatched(s: Pool, w: Worker, k: Watch)
    requires Watched(s, k)
    ensures Watched(RetireSurplus(s, w), k)
  {
    DiscardWatched(s, w, k);
    hide Discard;
    FleetWatched(Discard(s, w), RetireSurplus(s, w), k);
  }

  lemma EvictParkedWatched(s: Pool, w: Worker, k: Watch)
    requires Watched(s, k)
    ensures Watched(EvictParked(s, w), k) && EvictParked(s, w).fleet.generation == s.fleet.generation
  {
    DiscardWatched(s, w, k);
    hide Discard, Watched;
  }

  lemma {:induction false} EvictOldestWatched(s: Pool, k: Watch)
    requires Watched(s, k)
    ensures Watched(EvictOldest(s), k) && EvictOldest(s).fleet.generation == s.fleet.generation
    decreases |s.fleet.parked|
  {
    hide Watched, EvictParked;
    if |s.fleet.parked| > s.config.maxWorkers - s.config.maxConcurrent && s.fleet.parked != [] {
      EvictParkedWatched(s, s.fleet.parked[0], k);
      EvictShrinks(s);
      EvictOldestWatched(EvictParked(s, s.fleet.parked[0]), k);
    }
  }

  lemma ParkWatched(s: Pool, w: Worker, k: Watch)
    requires Watched(s, k)
    ensures Watched(Park(s, w), k) && Park(s, w).fleet.generation == s.fleet.generation
  {
    var t := s.(fleet := ToParked(SetSurplusTimer(s.fleet, w, false), w));
    assert SameAges(s.fleet, t.fleet) by { hide Without; }
    hide Watched, EvictParked, ToParked, SetSurplusTimer, SameAges;
    FleetWatched(s, t, k);
    SameGeneration(s.fleet, t.fleet);
    EvictParkedWatched(t, w, k);
  }

  lemma SameGeneration(f: Fleet, g: Fleet)
    requires SameAges(f, g)
    ensures g.generation == f.generation
  {
  }

  // The worker that joins a slot.
  lemma JoinWatched(e: Pool, f: Fleet, n: Worker, p: Project, k: Watch)
    requires Watched(e, k) && SameAges(e.fleet, f)
    ensures var t := e.(fleet := Activate(Assign(f, n, p), n));
            Watched(t, k) && t.fleet.generation == e.fleet.generation
  {
    FleetWatched(e, e.(fleet := Activate(Assign(f, n, p), n)), k);
  }

  lemma UnparkAges(f: Fleet, c: Worker)
    ensures SameAges(f, Unpark(f, c))
  {
    hide Without;
  }

  lemma NewcomerAges(f: Fleet)
    ensures SameAges(f, Create(Churn(f))) && SameAges(f, Create(f)) && SameAges(f, Spawn(f))
    ensures SameAges(f, Activate(Create(f), f.next))
  {
  }

  lemma SwitchWatched(s: Pool, w: Worker, p: Project, k: Watch)
    requires Watched(s, k)
    ensures var t := SwitchSlot(s, w, p).0; Watched(t, k) && t.fleet.generation == s.fleet.generation
  {
    hide Watched, Park, EvictOldest, Cached, Unpark, Create, SameAges, Activate, Assign;
    match Cached(s.fleet, p)
    case Some(c) =>
      var u := s.(fleet := Unpark(s.fleet, c));
      UnparkAges(s.fleet, c);
      FleetWatched(s, u, k);
      SameGeneration(s.fleet, u.fleet);
      ParkWatched(u, w, k);
      var e := EvictOldest(Park(u, w));
      EvictOldestWatched(Park(u, w), k);
      SelfAges(e.fleet);
      JoinWatched(e, e.fleet, c, p, k);
    case None =>
      ParkWatched(s, w, k);
      var e := EvictOldest(Park(s, w));
      EvictOldestWatched(Park(s, w), k);
      NewcomerAges(e.fleet);
      JoinWatched(e, Create(Churn(e.fleet)), e.fleet.next, p, k);
  }

  // The worker that comes into the slot is fit: a new one, or a parked one of the present generation.
  lemma SwitchFit(s: Pool, w: Worker, p: Project)
    requires Untimed(s) && w in s.fleet.active && !s.blocked
    ensures var (t, n) := SwitchSlot(s, w, p); t.fleet.generation == s.fleet.generation ==> t.fleet.Fit(n)
  {
    var (t, n) := SwitchSlot(s, w, p);
    OpenInv(s);
    SwitchInv(s, w, p);
    OpenMoves(s, t, {});
    ActiveHasMeta(t.fleet, n);
    SwitchOrigin(s, w, p);
    CachedIsPresent(s.fleet, p);
    CachedIsParked(s.fleet, p);
    hide Untimed, SwitchSlot, Evolves, Cached, Without, Moves;
    if Cached(s.fleet, p).Some? {
      ParkedExists(s.fleet, n);
    }
  }

  lemma ActiveHasMeta(f: Fleet, n: Worker)
    requires Roster(f, {}) && n in f.active
    ensures n in f.meta
  {
  }

  lemma ParkedExists(f: Fleet, n: Worker)
    requires Roster(f, {}) && n in f.parked
    ensures n in f.meta && n < f.next
  {
  }

  lemma CachedIsPresent(f: Fleet, p: Project)
    ensures Cached(f, p).Some? ==> Cached(f, p).value in f.meta && f.meta[Cached(f, p).value].generation == f.generation
  {
  }

  lemma SwitchOrigin(s: Pool, w: Worker, p: Project)
    ensures var (t, n) := SwitchSlot(s, w, p);
            match Cached(s.fleet, p)
            case Some(c) => n == c
            case None => n in t.fleet.meta && t.fleet.meta[n].generation == t.fleet.generation
  {
    hide Park, EvictOldest, Cached;
  }

  // ---- the scheduler ------------------------------------------------------------------------------------

  lemma ClaimWatched(s: Pool, w: Worker, p: Project, k: Watch)
    requires Watched(s, k) && Inv(s) && Busy(s, w) && !s.blocked && s.fleet.Fit(w)
    ensures var (c, n) := Claim(s, w, p); Watched(c, k) && c.fleet.Fit(n) && c.fleet.generation == s.fleet.generation
  {
    if s.fleet.Accepts(w, p) {
      FleetWatched(s, s.(fleet := Assign(s.fleet, w, p)), k);
    } else {
      hide Watched, SwitchSlot, Inv, Untimed;
      OpenInv(s);
      SwitchWatched(s, w, p, k);
      SwitchFit(s, w, p);
    }
  }

  // A fit worker begins a request.
  lemma BeginWatched(s: Pool, q: Queue, w: Worker, r: Request, k: Watch)
    requires Watched(s, k) && s.fleet.Fit(w) && q.started == s.queue.started
    ensures var t := Begin(s.(queue := q), w, r);
            Watched(t, k) && t.fleet.Fit(w) && t.fleet.generation == s.fleet.generation
  {
    assert w !in k.banned;
  }

  lemma ServeStepWatched(s: Pool, w: Worker, skipped: set<Project>, k: Watch)
    requires Watched(s, k) && s.fleet.Fit(w)
    ensures var (t, next) := ServeStep(s, w, skipped);
            && Watched(t, k) && t.fleet.generation == s.fleet.generation
            && (next.Some? ==> t.fleet.Fit(next.value))
  {
    var (q, next) := DequeueFor(s.queue, s.fleet.ProjectOf(w), skipped);
    DequeueKeepsLog(s.queue, s.fleet.ProjectOf(w), skipped);
    hide DequeueFor, Begin;
    match next
    case None =>
      FleetWatched(s, s.(queue := q, fleet := ToIdle(s.fleet, w)), k);
    case Some(r) =>
      BeginWatched(s, q, w, r, k);
  }

  lemma RetireStepWatched(s: Pool, w: Worker, k: Watch)
    requires Watched(s, k)
    ensures var (t, next) := RetireStep(s, w);
            && Watched(t, k) && t.fleet.generation == s.fleet.generation
            && (next.Some? ==> t.fleet.Fit(next.value))
  {
    DiscardWatched(s, w, k);
    NewcomerAges(Discard(s, w).fleet);
    SpawnFit(Discard(s, w).fleet);
    hide Discard, SameAges, Spawn, Watched;
    FleetWatched(Discard(s, w), Discard(s, w).(fleet := Spawn(Discard(s, w).fleet)), k);
    SameGeneration(Discard(s, w).fleet, Spawn(Discard(s, w).fleet));
  }

  lemma SpawnFit(f: Fleet)
    ensures Spawn(f).Fit(f.next)
  {
  }

  lemma TimerWatched(s: Pool, w: Worker, armed: bool, k: Watch)
    requires Watched(s, k)
    ensures var t := s.(fleet := SetSurplusTimer(s.fleet, w, armed));
            Watched(t, k) && t.fleet.generation == s.fleet.generation && (forall x :: Apt(s.fleet, x) ==> Apt(t.fleet, x))
    ensures forall x :: s.fleet.Fit(x) ==> SetSurplusTimer(s.fleet, w, armed).Fit(x)
  {
    FleetWatched(s, s.(fleet := SetSurplusTimer(s.fleet, w, armed)), k);
  }

  lemma ToIdleWatched(s: Pool, w: Worker, k: Watch)
    requires Watched(s, k)
    ensures Watched(s.(fleet := ToIdle(s.fleet, w)), k)
  {
    FleetWatched(s, s.(fleet := ToIdle(s.fleet, w)), k);
  }

  lemma SurplusStepWatched(s: Pool, w: Worker, k: Watch)
    requires Watched(s, k)
    ensures Watched(SurplusStep(s, w), k) && SurplusStep(s, w).fleet.generation == s.fleet.generation
  {
    RetireSurplusWatched(s, w, k);
    DiscardWatched(s, w, k);
    ToIdleWatched(s, w, k);
    TimerWatched(s.(fleet := ToIdle(s.fleet, w)), w, true, k);
    hide Watched, Discard, SetSurplusTimer;
  }

  lemma ScheduleStepWatched(s: Pool, w: Worker, k: Watch)
    requires Watched(s, k) && Inv(s) && Busy(s, w) && Apt(s.fleet, w)
    ensures var (t, next) := ScheduleStep(s, w);
            && Watched(t, k) && t.fleet.generation == s.fleet.generation
            && (next.Some? ==> t.fleet.Fit(next.value))
  {
    var d := s.(fleet := SetSurplusTimer(s.fleet, w, false));
    DisarmInv(s, w);
    BusyMeans(s, w);
    BusyMeans(d, w);
    TimerWatched(s, w, false, k);
    hide Watched, Inv, Evolves, Busy, RetireStep, SurplusStep, Target, Claim, ServeStep, Skipped, SetSurplusTimer;
    if w in d.fleet.tainted {
      RetireStepWatched(d, w, k);
    } else if d.HasSurplus() {
      SurplusStepWatched(d, w, k);
    } else if d.draining || d.blocked || Target(d, w).None? {
      ToIdleWatched(d, w, k);
    } else {
      var p := Target(d, w).value;
      ClaimWatched(d, w, p, k);
      ServeStepWatched(Claim(d, w, p).0, Claim(d, w, p).1, Skipped(d, p), k);
    }
  }

  lemma {:induction false} ScheduleWatched(s: Pool, w: Worker, k: Watch)
    requires Watched(s, k) && Inv(s) && Busy(s, w) && Apt(s.fleet, w)
    ensures Watched(Schedule(s, w), k) && Schedule(s, w).fleet.generation == s.fleet.generation
    decreases s.queue.count, w in s.fleet.tainted
  {
    hide Watched, Inv, Evolves, ScheduleStep, Busy;
    var (t, next) := ScheduleStep(s, w);
    ScheduleStepInv(s, w);
    ScheduleStepWatched(s, w, k);
    if next.Some? {
      ScheduleStepProgress(s, w);
      ScheduleWatched(t, next.value, k);
    }
  }

  lemma RetireWatched(s: Pool, w: Worker, k: Watch)
    requires Watched(s, k) && Inv(s)
    ensures Watched(Retire(s, w), k) && Retire(s, w).fleet.generation == s.fleet.generation
  {
    hide Watched, Inv, Evolves, RetireStep, Schedule, Busy;
    var (t, next) := RetireStep(s, w);
    RetireStepInv(s, w);
    RetireStepWatched(s, w, k);
    if next.Some? {
      BusyMeans(t, next.value);
      ScheduleWatched(t, next.value, k);
    }
  }

  // Once no rotation is under way every worker of the pool may be scheduled.
  lemma ActiveIsApt(s: Pool, w: Worker, k: Watch)
    requires Watched(s, k) && k.late == {} && Inv(s) && w in s.fleet.active
    ensures Apt(s.fleet, w)
  {
    OpenInv(s);
    hide Inv, Good;
  }

  lemma RecycleWatched(s: Pool, w: Worker, k: Watch)
    requires Watched(s, k) && k.late == {} && Inv(s) && w !in s.fleet.idle
    ensures Watched(Recycle(s, w), k) && Recycle(s, w).fleet.generation == s.fleet.generation
  {
    BusyMeans(s, w);
    hide Watched, Inv, Schedule, Busy;
    if w in s.fleet.active {
      ActiveIsApt(s, w, k);
      ScheduleWatched(s, w, k);
    }
  }

  // ---- arrivals and growth ------------------------------------------------------------------------------

  lemma TakenOutWatched(s: Pool, t: Pool, k: Watch)
    requires Watched(s, k) && t.queue.started == s.queue.started && t.fleet == s.fleet.(idle := t.fleet.idle)
    ensures Watched(t, k)
  {
    FleetWatched(s, t, k);
  }

  lemma {:induction false} ScheduleIdleWatched(s: Pool, ws: seq<Worker>, k: Watch)
    requires Watched(s, k) && k.late == {} && Inv(s)
    requires s.queue.order != [] ==> ws == s.fleet.idle
    ensures Watched(ScheduleIdle(s, ws), k) && ScheduleIdle(s, ws).fleet.generation == s.fleet.generation
    decreases ws
  {
    OpenInv(s);
    TotalZero(s.queue);
    hide Watched, Inv, Evolves, Untimed, Consistent, Schedule, Without, Busy;
    if ws != [] && s.queue.count != 0 {
      var r := s.(fleet := s.fleet.(idle := Without(s.fleet.idle, ws[0])));
      TakeFirst(s);
      TakenOutWatched(s, r, k);
      BusyMeans(r, ws[0]);
      ActiveIsApt(r, ws[0], k);
      ScheduleInv(r, ws[0]);
      ScheduleWatched(r, ws[0], k);
      ScheduleIdleWatched(Schedule(r, ws[0]), ws[1..], k);
    }
  }

  lemma EnsureCapacityWatched(s: Pool, k: Watch)
    requires Watched(s, k) && k.late == {} && Inv(s)
    ensures Watched(EnsureCapacity(s), k) && EnsureCapacity(s).fleet.generation == s.fleet.generation
  {
    var t := ScheduleIdle(s, s.fleet.idle);
    ScheduleIdleInv(s, s.fleet.idle);
    ScheduleIdleWatched(s, s.fleet.idle, k);
    OpenInv(t);
    TotalZero(t.queue);
    NewcomerAges(t.fleet);
    hide Watched, Inv, Evolves, Untimed, Consistent, Schedule, ScheduleIdle, Busy, Create, Activate, SameAges;
    if t.queue.count != 0 && t.MayGrow() {
      var g := t.(fleet := Activate(Create(t.fleet), t.fleet.next));
      GrowInv(t);
      FleetWatched(t, g, k);
      SameGeneration(t.fleet, g.fleet);
      BusyMeans(g, t.fleet.next);
      ActiveIsApt(g, t.fleet.next, k);
      ScheduleWatched(g, t.fleet.next, k);
    }
  }

  lemma QueueWatched(s: Pool, t: Pool, k: Watch)
    requires Watched(s, k) && t.fleet == s.fleet && t.queue.started == s.queue.started
    ensures Watched(t, k)
  {
  }

  lemma TakeAtWatched(s: Pool, i: nat, k: Watch)
    requires Watched(s, k) && i < |s.fleet.idle|
    ensures var t := s.(fleet := TakeAt(s.fleet, i));
            Watched(t, k) && t.fleet.generation == s.fleet.generation && t.fleet.tainted == s.fleet.tainted
  {
    var u := s.(fleet := s.fleet.(idle := s.fleet.idle[..i] + s.fleet.idle[i + 1..]));
    TakenOutWatched(s, u, k);
    TimerWatched(u, s.fleet.idle[i], false, k);
    hide Watched, Apt;
  }

  lemma ExecuteWatched(s: Pool, w: Worker, r: Request, k: Watch)
    requires Watched(s, k) && k.late == {} && Inv(s) && Busy(s, w) && w !in s.fleet.tainted
    requires s.queue.order == [] && s.fleet.Accepts(w, r.project) && !s.draining && !s.blocked && Fresh(s.queue, r)
    ensures Watched(Execute(s, w, r), k) && Execute(s, w, r).fleet.generation == s.fleet.generation
  {
    var b := Begin(s, w, r);
    BusyMeans(s, w);
    ActiveIsApt(s, w, k);
    assert s.(queue := s.queue) == s;
    BeginWatched(s, s.queue, w, r, k);
    BegunInv(s, w, r);
    hide Watched, Inv, Begin, Recycle, Busy, Fresh;
    if r.failsAtStart {
      BusyMeans(b, w);
      RecycleWatched(b, w, k);
    }
  }

  lemma AdmitWatched(s: Pool, r: Request, k: Watch)
    requires Watched(s, k) && k.late == {} && Inv(s) && Working(s) && !s.draining && !s.blocked && Fresh(s.queue, r)
    ensures Watched(Admit(s, r), k) && Admit(s, r).fleet.generation == s.fleet.generation
  {
    IdleIndexFacts(s.fleet, r.project);
    IdleAffinity(s.fleet, r.project);
    EnqueueKeepsLog(s.queue, r);
    hide Watched, Inv, Evolves, TakeAt, Execute, EnsureCapacity, Enqueue, IdleIndex, Busy;
    var i := IdleIndex(s.fleet, r.project);
    if i >= 0 {
      var t := s.(fleet := TakeAt(s.fleet, i));
      TakeAtInv(s, i);
      TakeAtWatched(s, i, k);
      ExecuteWatched(t, s.fleet.idle[i], r, k);
    } else {
      var t := s.(queue := Enqueue(s.queue, r));
      EnqueueInv(s, r);
      QueueWatched(s, t, k);
      EnsureCapacityWatched(t, k);
    }
  }

  lemma DispatchWatched(s: Pool, p: Project, failsAtStart: bool, k: Watch)
    requires Watched(s, k) && k.late == {} && Inv(s) && Working(s)
    ensures var t := Dispatch(s, p, failsAtStart); Watched(t, k) && t.fleet.generation == s.fleet.generation
  {
    var r := Request(s.queue.arrivals, p, failsAtStart);
    var t := s.(queue := Stamp(s.queue));
    ArriveInv(s);
    FreshRequest(s, p, failsAtStart);
    assert Working(t);
    QueueWatched(s, t, k);
    QueueWatched(s, t.(queue := Refuse(t.queue, r)), k);
    hide Watched, Inv, Evolves, Admit, Fresh, Working, Stamp, Refuse;
    if !(t.draining || t.RejectsAdmission() || t.queue.count >= t.config.maxQueue) {
      AdmitWatched(t, r, k);
    }
  }

  // ---- exits and timers -----------------------------------------------------------------------------------

  lemma ForgetAges(f: Fleet, w: Worker)
    ensures SameAges(f, Forget(f, w)) && SameAges(f, Forget(f, w).(active := Without(f.active, w)))
  {
    hide Without;
  }

  lemma OnExitWatched(s: Pool, w: Worker, k: Watch)
    requires Watched(s, k) && k.late == {} && Inv(s) && Working(s)
    ensures Watched(OnExit(s, w), k) && OnExit(s, w).fleet.generation == s.fleet.generation
  {
    var f := Forget(s.fleet, w).(active := Without(s.fleet.active, w));
    ForgetAges(s.fleet, w);
    ForgetKeepsActive(s.fleet, w);
    SameGeneration(s.fleet, f);
    NewcomerAges(f);
    SameGeneration(f, Spawn(f));
    SpawnFit(f);
    if w in s.fleet.active {
      ReplaceExited(s, w);
      assert w !in s.fleet.retired;
      hide Watched, Inv, Evolves, Schedule, Forget, Spawn, Without, SameAges;
      FleetWatched(s, s.(fleet := f), k);
      if !s.draining {
        FleetWatched(s.(fleet := f), s.(fleet := Spawn(f)), k);
        ScheduleWatched(s.(fleet := Spawn(f)), f.next, k);
      }
    } else {
      ExitElsewhereWatched(s, w, k);
    }
  }

  lemma ExitElsewhereWatched(s: Pool, w: Worker, k: Watch)
    requires Watched(s, k) && k.late == {} && Inv(s) && Working(s) && w !in s.fleet.active
    ensures Watched(OnExit(s, w), k) && OnExit(s, w).fleet.generation == s.fleet.generation
  {
    var t := s.(fleet := Forget(s.fleet, w));
    ForgetIdle(s, w);
    ForgetKeepsActive(s.fleet, w);
    ForgetAges(s.fleet, w);
    FleetWatched(s, t, k);
    SameGeneration(s.fleet, t.fleet);
    if w in s.fleet.retired && !s.draining {
      EnsureCapacityInv(t);
      assert w < s.fleet.next;
      assert w !in t.fleet.meta;
      StaysAway(t, EnsureCapacity(t), w);
      hide Watched, Inv, Evolves, EnsureCapacity, Forget;
      EnsureCapacityWatched(t, k);
    }
  }

  lemma SurplusTimerWatched(s: Pool, w: Worker, k: Watch)
    requires Watched(s, k)
    ensures Watched(SurplusTimerFired(s, w), k) && SurplusTimerFired(s, w).fleet.generation == s.fleet.generation
  {
    var d := s.(fleet := SetSurplusTimer(s.fleet, w, false));
    TimerWatched(s, w, false, k);
    RetireSurplusWatched(d, w, k);
    DiscardWatched(d, w, k);
    hide Watched, SetSurplusTimer, Discard, Apt;
  }

  // ---- rotation ---------------------------------------------------------------------------------------------

  lemma TaintWatched(s: Pool, ws: set<Worker>, k: Watch)
    requires Watched(s, k)
    ensures var t := s.(fleet := Taint(s.fleet, ws)); Watched(t, k) && t.fleet.generation == s.fleet.generation
  {
    FleetWatched(s, s.(fleet := Taint(s.fleet, ws)), k);
  }

  lemma RetiredIsGone(s: Pool, w: Worker)
    requires Inv(s) && w < s.fleet.next && (w in s.fleet.active || w in s.fleet.parked)
    ensures w !in Retire(s, w).fleet.meta
  {
    hide Inv, Evolves, RetireStep, Schedule, Busy, Feeds;
    var (t, next) := RetireStep(s, w);
    RetireStepInv(s, w);
    RetireStepForgets(s, w);
    if next.Some? {
      BusyMeans(t, next.value);
      ScheduleInv(t, next.value);
      NeverBack(t, Schedule(t, next.value), w);
    }
  }

  lemma RetireStepForgets(s: Pool, w: Worker)
    requires w < s.fleet.next && (w in s.fleet.active || w in s.fleet.parked)
    ensures var t := RetireStep(s, w).0; w < t.fleet.next && w !in t.fleet.meta
  {
    DiscardFacts(s, w);
    hide Without, Clear, Discard;
  }

  lemma NeverBack(s: Pool, t: Pool, w: Worker)
    requires Evolves(s, t) && w < s.fleet.next && w !in s.fleet.meta
    ensures w !in t.fleet.meta
  {
  }

  // Dealt with: gone, or tainted.
  lemma RotateOneWatched(s: Pool, w: Worker, k: Watch)
    requires Watched(s, k) && Inv(s) && w < s.fleet.next
    ensures var t := RotateOne(s, w);
            Watched(t, k.(late := k.late - {w})) && t.fleet.generation == s.fleet.generation
  {
    hide Inv, Retire, Watched;
    var t := RotateOne(s, w);
    if w in s.fleet.parked || w in s.fleet.idle {
      IdleIsActive(s, w);
      RetiredIsGone(s, w);
      RetireWatched(s, w, k);
    } else {
      TaintWatched(s, {w}, k);
    }
    assert w !in t.fleet.meta || w in t.fleet.tainted;
    hide RotateOne;
    LessLate(t, w, k);
  }

  lemma LessLate(s: Pool, w: Worker, k: Watch)
    requires Watched(s, k) && (w !in s.fleet.meta || w in s.fleet.tainted)
    ensures Watched(s, k.(late := k.late - {w}))
  {
  }

  lemma {:induction false} RotateWorkersWatched(s: Pool, ws: seq<Worker>, k: Watch)
    requires Watched(s, k) && Inv(s) && Working(s) && (forall w <- ws :: w < s.fleet.next) && (forall w <- k.late :: w in ws)
    ensures var t := RotateWorkers(s, ws);
            Watched(t, k.(late := {})) && t.fleet.generation == s.fleet.generation
    decreases ws
  {
    hide Watched, Inv, Evolves, Working, RotateOne;
    if ws == [] {
      assert k.late == {};
    } else {
      var w := ws[0];
      assert w in ws && forall x :: x in ws[1..] ==> x in ws;
      RotateOneInv(s, w);
      RotateOneWatched(s, w, k);
      forall x | x in k.late - {w} ensures x in ws[1..] {
        assert ws == [w] + ws[1..];
      }
      RotateWorkersWatched(RotateOne(s, w), ws[1..], k.(late := k.late - {w}));
    }
  }

  lemma {:induction false} OutdatedExactly(f: Fleet, ws: seq<Worker>, w: Worker)
    ensures w in Outdated(f, ws) <==> w in ws && !(w in f.meta && f.meta[w].generation >= f.generation)
    decreases ws
  {
    if ws != [] {
      assert ws == [ws[0]] + ws[1..];
      OutdatedExactly(f, ws[1..], w);
    }
  }

  function Members(ws: seq<Worker>): set<Worker> {
    set w <- ws
  }

  // What a rotation has before it: every worker there is, and none of them may start anything any more.
  lemma TurnWatched(s: Pool, k: Watch)
    requires Watched(s, k) && k.late == {} && Inv(s)
    ensures var f := NextGeneration(s.fleet);
            var ws := Outdated(f, f.active + f.parked);
            Watched(s.(fleet := f), Watch(Members(ws), k.banned, k.since))
    ensures var f := NextGeneration(s.fleet);
            var ws := Outdated(f, f.active + f.parked);
            Watched(s.(fleet := f), Watch(Members(ws), s.fleet.meta.Keys, |s.queue.started|))
  {
    var f := NextGeneration(s.fleet);
    OpenInv(s);
    hide Inv, Good, Outdated;
    forall w | w in f.meta ensures w in Outdated(f, f.active + f.parked) {
      OutdatedExactly(f, f.active + f.parked, w);
    }
  }

  lemma RotateWatched(s: Pool, k: Watch)
    requires Watched(s, k) && k.late == {} && Inv(s) && Working(s)
    ensures Watched(Rotate(s), k) && Rotate(s).fleet.generation == s.fleet.generation + 1
    ensures Watched(Rotate(s), Watch({}, s.fleet.meta.Keys, |s.queue.started|))
  {
    var f := NextGeneration(s.fleet);
    var t := s.(fleet := f);
    var ws := Outdated(f, f.active + f.parked);
    GenerationInv(s);
    OutdatedMembers(f, f.active + f.parked);
    TurnWatched(s, k);
    assert f.generation == s.fleet.generation + 1;
    hide Watched, Inv, Evolves, Outdated, RotateWorkers, NextGeneration, Working;
    RotateWorkersWatched(t, ws, Watch(Members(ws), k.banned, k.since));
    RotateWorkersWatched(t, ws, Watch(Members(ws), s.fleet.meta.Keys, |s.queue.started|));
    assert Watch({}, k.banned, k.since) == k;
  }

  // After a rotation every idle and every parked worker is new.
  ghost predicate Renewed(s: Pool, since: Worker, ws: seq<Worker>) {
    forall w :: w in s.fleet.idle || w in s.fleet.parked ==> w >= since || w in ws
  }

  lemma RotateOneRenews(s: Pool, w: Worker, since: Worker, ws: seq<Worker>)
    requires Inv(s) && Working(s) && w < s.fleet.next && since <= s.fleet.next && Renewed(s, since, [w] + ws)
    ensures Renewed(RotateOne(s, w), since, ws)
  {
    hide Inv, Evolves, Retire, Working, Uses;
    var t := RotateOne(s, w);
    RotateOneInv(s, w);
    if w in s.fleet.parked || w in s.fleet.idle {
      IdleIsActive(s, w);
      RetiredIsGone(s, w);
      RetireUses(s, w);
      ListsExist(t);
      hide RotateOne;
      FreedBefore(s, t);
    }
  }

  lemma FreedBefore(s: Pool, t: Pool)
    requires Uses(s, {}, t, {})
    ensures forall w :: w in t.fleet.idle || w in t.fleet.parked ==> w in s.fleet.idle || w in s.fleet.parked || w >= s.fleet.next
  {
    hide NoBack;
    forall w | w in t.fleet.idle || w in t.fleet.parked ensures w in s.fleet.idle || w in s.fleet.parked || w >= s.fleet.next {
      assert Free(t.fleet, {}, w);
    }
  }

  lemma ListsExist(s: Pool)
    requires Inv(s)
    ensures forall w :: w in s.fleet.idle || w in s.fleet.parked ==> w in s.fleet.meta
  {
    OpenInv(s);
    hide Inv, Good;
  }

  lemma {:induction false} RotateWorkersRenew(s: Pool, ws: seq<Worker>, since: Worker)
    requires Inv(s) && Working(s) && (forall w <- ws :: w < s.fleet.next) && since <= s.fleet.next && Renewed(s, since, ws)
    ensures Renewed(RotateWorkers(s, ws), since, [])
    decreases ws
  {
    hide Inv, Evolves, Working, RotateOne;
    if ws != [] {
      assert ws == [ws[0]] + ws[1..];
      assert ws[0] in ws && forall x :: x in ws[1..] ==> x in ws;
      RotateOneInv(s, ws[0]);
      RotateOneRenews(s, ws[0], since, ws[1..]);
      hide Renewed;
      RotateWorkersRenew(RotateOne(s, ws[0]), ws[1..], since);
    }
  }

  lemma RotateRenews(s: Pool, k: Watch)
    requires Watched(s, k) && Inv(s) && Working(s)
    ensures Renewed(Rotate(s), s.fleet.next, [])
  {
    var f := NextGeneration(s.fleet);
    var t := s.(fleet := f);
    var ws := Outdated(f, f.active + f.parked);
    GenerationInv(s);
    OutdatedMembers(f, f.active + f.parked);
    ListsExist(s);
    assert forall w :: w in s.fleet.idle ==> w in s.fleet.active by { OpenInv(s); hide Inv, Good; }
    hide Inv, Evolves, Outdated, RotateWorkers, Working;
    forall w | w in s.fleet.idle || w in s.fleet.parked ensures w in ws {
      OutdatedExactly(f, f.active + f.parked, w);
    }
    RotateWorkersRenew(t, ws, s.fleet.next);
  }

  // ---- preheats and admission -------------------------------------------------------------------------------

  lemma ExchangeOneWatched(s: Pool, w: Worker, p: Project, k: Watch)
    requires Watched(s, k)
    ensures Watched(ExchangeOne(s, w, p), k) && ExchangeOne(s, w, p).fleet.generation == s.fleet.generation
  {
    SwitchWatched(s, w, p, k);
    ToIdleWatched(SwitchSlot(s, w, p).0, SwitchSlot(s, w, p).1, k);
    hide Watched, SwitchSlot;
  }

  lemma {:induction false} ExchangeWatched(s: Pool, ws: seq<Worker>, p: Project, k: Watch)
    requires Watched(s, k)
    ensures Watched(Exchange(s, ws, p), k) && Exchange(s, ws, p).fleet.generation == s.fleet.generation
    decreases ws
  {
    hide Watched, ExchangeOne;
    if ws != [] {
      ExchangeOneWatched(s, ws[0], p, k);
      ExchangeWatched(ExchangeOne(s, ws[0], p), ws[1..], p, k);
    }
  }

  lemma AssignAges(f: Fleet, w: Worker, p: Project)
    ensures SameAges(f, Assign(f, w, p))
  {
  }

  lemma {:induction false} AssignAllAges(f: Fleet, ws: seq<Worker>, p: Project)
    ensures SameAges(f, AssignAll(f, ws, p))
    decreases ws
  {
    SelfAges(f);
    if ws != [] {
      AssignAges(f, ws[0], p);
      hide Assign;
      AssignAllAges(Assign(f, ws[0], p), ws[1..], p);
    }
  }

  lemma TakeForPreheatWatched(s: Pool, p: Project, limit: nat, k: Watch)
    requires Watched(s, k)
    ensures Watched(TakeForPreheat(s, p, limit), k) && TakeForPreheat(s, p, limit).fleet.generation == s.fleet.generation
  {
    var t := Exchange(s, Strangers(s.fleet, p, limit), p);
    var ws := TakenForPreheat(s, p, limit);
    ExchangeWatched(s, Strangers(s.fleet, p, limit), p, k);
    var u := t.(fleet := t.fleet.(idle := Minus(t.fleet.idle, ws)));
    TakenOutWatched(t, u, k);
    AssignAllAges(u.fleet, ws, p);
    SameGeneration(u.fleet, AssignAll(u.fleet, ws, p));
    hide Watched, Exchange, Strangers, TakenForPreheat, Minus, AssignAll, SameAges;
    FleetWatched(u, t.(fleet := Reserve(t.fleet, ws, p)), k);
  }

  lemma PreheatWatched(s: Pool, p: Project, k: Watch)
    requires Watched(s, k)
    ensures Watched(Preheat(s, p), k) && Preheat(s, p).fleet.generation == s.fleet.generation
  {
    var i := IdleIndex(s.fleet, p);
    IdleIndexFacts(s.fleet, p);
    hide Watched, TakeAt, Assign, IdleIndex, SameAges;
    if i >= 0 {
      var t := s.(fleet := TakeAt(s.fleet, i));
      TakeAtWatched(s, i, k);
      AssignAges(t.fleet, s.fleet.idle[i], p);
      SameGeneration(t.fleet, Assign(t.fleet, s.fleet.idle[i], p));
      FleetWatched(t, t.(fleet := Assign(t.fleet, s.fleet.idle[i], p)), k);
    }
  }

  // A bulk preheat that rotates, in a pool that allows it, bans all workers there were.
  lemma BulkPreheatWatched(s: Pool, p: Project, limit: nat, rotate: bool, k: Watch)
    requires Watched(s, k) && k.late == {} && Inv(s) && Working(s)
    ensures Watched(BulkPreheat(s, p, limit, rotate), k)
    ensures rotate && !s.draining && !s.blocked && !s.recovering ==>
              Watched(BulkPreheat(s, p, limit, rotate), Watch({}, s.fleet.meta.Keys, |s.queue.started|))
  {
    RotateWatched(s, k);
    hide Watched, Inv, Rotate, TakeForPreheat;
    TakeForPreheatWatched(if rotate then Rotate(s) else s, p, limit, k);
    if rotate {
      TakeForPreheatWatched(Rotate(s), p, limit, Watch({}, s.fleet.meta.Keys, |s.queue.started|));
    }
  }

  lemma {:induction false} EvictAllWatched(s: Pool, ws: seq<Worker>, k: Watch)
    requires Watched(s, k)
    ensures Watched(EvictAll(s, ws), k)
    decreases ws
  {
    hide Watched, EvictParked;
    if ws != [] {
      EvictParkedWatched(s, ws[0], k);
      EvictAllWatched(EvictParked(s, ws[0]), ws[1..], k);
    }
  }

  lemma {:induction false} TrimIdleWatched(s: Pool, ws: seq<Worker>, k: Watch)
    requires Watched(s, k)
    ensures Watched(TrimIdle(s, ws), k)
    decreases ws
  {
    hide Watched, RetireSurplus;
    if ws != [] && |s.fleet.active| > s.config.size {
      RetireSurplusWatched(s, ws[0], k);
      TrimIdleWatched(RetireSurplus(s, ws[0]), ws[1..], k);
    }
  }

  lemma SetAdmissionWatched(s: Pool, blocked: bool, recovering: bool, k: Watch)
    requires Watched(s, k)
    ensures Watched(SetAdmission(s, blocked, recovering), k)
  {
    var t := s.(blocked := blocked, recovering := recovering && !blocked);
    var c := t.(queue := Clear(t.queue));
    var e := EvictAll(c, c.fleet.parked);
    assert Watched(t, k) && Watched(c, k);
    hide Watched, EvictAll, TrimIdle, Clear;
    EvictAllWatched(c, c.fleet.parked, k);
    TrimIdleWatched(e, e.fleet.idle, k);
  }

  // ---- every event ----------------------------------------------------------------------------------------------

  lemma QueueEventWatched(s: Pool, e: Event, k: Watch)
    requires Watched(s, k)
    requires e.Cancel? || e.Invalidate? || e.Drain? || e.TaintBusy? || e.RetirementDeadline?
    ensures Watched(Step(s, e), k)
  {
    TaintSameLists(s, e);
    var t := Step(s, e);
    assert SameAges(s.fleet, t.fleet) by { hide Without; }
    hide Step, Watched;
    FleetWatched(s, t, k);
  }

  lemma FinishWatched(s: Pool, w: Worker, over: bool, k: Watch)
    requires Watched(s, k) && k.late == {} && Inv(s) && w !in s.fleet.idle && w < s.fleet.next
    ensures Watched(Step(s, Finish(w, over)), k)
  {
    var t := s.(fleet := Taint(s.fleet, {w}));
    TaintWatched(s, {w}, k);
    TaintInv(s, {w});
    hide Watched, Inv, Evolves, Recycle;
    RecycleWatched(s, w, k);
    RecycleWatched(t, w, k);
  }

  lemma StepWatched(s: Pool, e: Event, k: Watch)
    requires Watched(s, k) && k.late == {} && Inv(s) && Working(s) && Enabled(s, e)
    ensures Watched(Step(s, e), k)
  {
    hide Watched, Inv, Working, Dispatch, Recycle, Retire, OnExit, SurplusTimerFired, EvictParked, InvalidateProject,
         CancelQueued, Preheat, BulkPreheat, StopDispatching, SetAdmission;
    match e
    case Arrive(p, f) => DispatchWatched(s, p, f, k);
    case Finish(w, over) => FinishWatched(s, w, over, k);
    case Lose(w) => RetireWatched(s, w, k);
    case Exit(w) => OnExitWatched(s, w, k);
    case ParkedTimer(w) => EvictParkedWatched(s, w, k);
    case SurplusTimer(w) => SurplusTimerWatched(s, w, k);
    case PreheatOne(p) => PreheatWatched(s, p, k);
    case PreheatMany(p, n, rotate) => BulkPreheatWatched(s, p, n, rotate, k);
    case Admission(b, r) => SetAdmissionWatched(s, b, r, k);
    case _ => QueueEventWatched(s, e, k);
  }

  lemma {:induction false} RunWatched(s: Pool, es: seq<Event>, k: Watch)
    requires Watched(s, k) && k.late == {} && Reachable(s) && Admissible(s, es)
    ensures Watched(Run(s, es), k)
    decreases es
  {
    if es != [] {
      StepReachable(s, es[0]);
      StepWatched(s, es[0], k);
      hide Watched, Reachable, Step, Enabled, Proceeds;
      RunWatched(Step(s, es[0]), es[1..], k);
    }
  }

  lemma {:induction false} WarmWatched(f: Fleet, n: nat, k: Watch)
    requires Marked(f, k)
    ensures Marked(Warm(f, n), k)
    decreases n
  {
    if n > 0 {
      WarmWatched(Activate(ToIdle(Create(f), f.next), f.next), n - 1, k);
    }
  }

  lemma Watch0(c: Config, es: seq<Event>)
    requires c.Valid() && Admissible(Initial(c), es)
    ensures Watched(Run(Initial(c), es), NO_BAN) && Reachable(Run(Initial(c), es))
  {
    hide Run, Inv, Warm;
    InitialInv(c);
    WarmWatched(Fleet([], [], [], {}, map[], {}, 0, 0, 0, false), c.size, NO_BAN);
    RunWatched(Initial(c), es, NO_BAN);
    RunReachable(Initial(c), es);
  }

  // ---- the promises --------------------------------------------------------------------------------------------

  // Every untainted worker, active or parked, is of the present generation, and whatever was started was
  // started on an untainted worker of the generation of that moment.
  lemma StartsAreFit(c: Config, es: seq<Event>)
    requires c.Valid() && Admissible(Initial(c), es)
    ensures var s := Run(Initial(c), es);
            && (forall w :: (w in s.fleet.active || w in s.fleet.parked) && w !in s.fleet.tainted ==>
                  w in s.fleet.meta && s.fleet.meta[w].generation == s.fleet.generation)
            && (forall i :: 0 <= i < |s.queue.started| ==> s.queue.started[i].fit)
  {
    Watch0(c, es);
    OpenInv(Run(Initial(c), es));
    hide Run, Inv, Good;
  }

  // Nothing is ever started again on a worker that was bound to a project when that was invalidated.
  lemma InvalidatedStartNothing(c: Config, es: seq<Event>, p: Project, more: seq<Event>, i: nat)
    requires c.Valid() && Admissible(Initial(c), es + [Invalidate(p)] + more)
    ensures var s := Run(Initial(c), es);
            var log := Run(Initial(c), es + [Invalidate(p)] + more).queue.started;
            |s.queue.started| <= i < |log| ==>
              var w := log[i].worker; !(w in s.fleet.meta && s.fleet.meta[w].project == Some(p))
  {
    hide Run, Admissible, Initial, Reachable, Step, Watched, BoundTo;
    var s := Run(Initial(c), es);
    var t := Step(s, Invalidate(p));
    RunAppend(Initial(c), es + [Invalidate(p)], more);
    RunAppend(Initial(c), es, [Invalidate(p)]);
    RunOnce(s, Invalidate(p));
    Watch0(c, es);
    Watch0(c, es + [Invalidate(p)]);
    BoundExist(s, p);
    var k := Watch({}, BoundTo(s.fleet, p), |s.queue.started|);
    InvalidationBans(s, p);
    RunWatched(t, more, k);
    BannedStartNothing(Run(t, more), k, i);
  }

  lemma InvalidationBans(s: Pool, p: Project)
    requires Watched(s, NO_BAN) && Reachable(s)
    ensures Watched(Step(s, Invalidate(p)), Watch({}, BoundTo(s.fleet, p), |s.queue.started|))
  {
    BoundExist(s, p);
    hide Reachable, Without, BoundTo;
  }

  lemma BannedStartNothing(s: Pool, k: Watch, i: nat)
    requires Watched(s, k)
    ensures k.since <= i < |s.queue.started| ==> s.queue.started[i].worker !in k.banned
  {
  }

  lemma RunOnce(s: Pool, e: Event)
    ensures Run(s, [e]) == Step(s, e)
  {
    hide Step;
    assert [e][1..] == [];
  }

  lemma BoundExist(s: Pool, p: Project)
    requires Reachable(s)
    ensures forall w :: w in BoundTo(s.fleet, p) <==> w in s.fleet.meta && s.fleet.meta[w].project == Some(p)
    ensures forall w :: w in BoundTo(s.fleet, p) ==> w < s.fleet.next
  {
    OpenInv(s);
    hide Inv, Good;
  }

  // From a rotation on, no request is started on any worker there was before it.
  lemma RotationBansAll(c: Config, es: seq<Event>, p: Project, limit: nat, more: seq<Event>, i: nat)
    requires var s := Run(Initial(c), es); !s.draining && !s.blocked && !s.recovering
    requires c.Valid() && Admissible(Initial(c), es + [PreheatMany(p, limit, true)] + more)
    ensures var s := Run(Initial(c), es);
            var log := Run(Initial(c), es + [PreheatMany(p, limit, true)] + more).queue.started;
            |s.queue.started| <= i < |log| ==> log[i].worker !in s.fleet.meta
  {
    hide Run, Admissible, Initial, Reachable, Step, Watched;
    var s := Run(Initial(c), es);
    var e := PreheatMany(p, limit, true);
    RunAppend(Initial(c), es + [e], more);
    RunAppend(Initial(c), es, [e]);
    RunOnce(s, e);
    Watch0(c, es);
    Watch0(c, es + [e]);
    var k := Watch({}, s.fleet.meta.Keys, |s.queue.started|);
    RotationBans(s, p, limit);
    RunWatched(Step(s, e), more, k);
    BannedStartNothing(Run(Step(s, e), more), k, i);
  }

  lemma RotationBans(s: Pool, p: Project, limit: nat)
    requires Watched(s, NO_BAN) && Reachable(s) && !s.draining && !s.blocked && !s.recovering
    ensures Watched(Step(s, PreheatMany(p, limit, true)), Watch({}, s.fleet.meta.Keys, |s.queue.started|))
  {
    hide Watched, Inv, Working, BulkPreheat;
    BulkPreheatWatched(s, p, limit, true, NO_BAN);
  }

  // A rotation advances the generation and leaves no old worker idle or parked.
  lemma RotationRenews(c: Config, es: seq<Event>)
    requires c.Valid() && Admissible(Initial(c), es)
    ensures var s := Run(Initial(c), es);
            var t := Rotate(s);
            && t.fleet.generation == s.fleet.generation + 1
            && forall w :: w in t.fleet.idle || w in t.fleet.parked ==> w >= s.fleet.next
  {
    hide Run, Admissible, Initial, Inv, Working, Watched, Rotate;
    var s := Run(Initial(c), es);
    Watch0(c, es);
    RotateWatched(s, NO_BAN);
    RotateRenews(s, NO_BAN);
  }
}
