/** What becomes of a request that arrives, and when the pool grows for it. */
module PoolArrivals {
  import opened Lists
  import opened PoolModel
  import opened PoolQueue
  import opened PoolFleet
  import opened PoolSteps
  import opened PoolHandlers
  import opened PoolRuns
  import opened PoolUses
  import opened PoolTheorems
  import opened PoolDecisions

  // ---- requests leave the queue from the front -----------------------------------------------------------------

  ghost predicate Suffix(a: seq<Request>, b: seq<Request>) {
    |a| <= |b| && a == b[|b| - |a|..]
  }

  // Between two states requests leave their lists from the front, and none is answered unless the pool drains.
  ghost predicate Consumes(s: Pool, t: Pool) {
    && Settles(s.queue, t.queue) && (s.draining ==> t.draining)
    && (forall p <- t.queue.lists :: p in s.queue.lists && Suffix(t.queue.lists[p], s.queue.lists[p]))
    && (forall r <- t.queue.fate :: Undecided(s.queue, r) && t.queue.fate[r] == Answered ==> t.draining)
  }

  lemma ConsumesTransitive(s: Pool, t: Pool, u: Pool)
    requires Consumes(s, t) && Consumes(t, u)
    ensures Consumes(s, u)
  {
    forall p | p in u.queue.lists ensures p in s.queue.lists && Suffix(u.queue.lists[p], s.queue.lists[p]) {
      assert Suffix(t.queue.lists[p], s.queue.lists[p]);
    }
  }

  lemma ConsumesReflexive(s: Pool)
    ensures Consumes(s, s)
  {
  }

  // The queue stays as it is, or the fail-safe clears it.
  lemma KeptConsumes(s: Pool, t: Pool)
    requires Settles(s.queue, t.queue) && (s.draining ==> t.draining)
    requires (t.queue.lists == s.queue.lists && t.queue.fate == s.queue.fate) || (t.draining && t.queue.lists == map[])
    ensures Consumes(s, t)
  {
  }

  lemma ClearKept(s: Pool, t: Pool)
    requires Halts(s, t)
    ensures Consumes(s, t)
  {
    ConsumesReflexive(s);
  }

  lemma ServeConsumes(s: Pool, w: Worker, skipped: set<Project>)
    requires Inv(s)
    ensures Consumes(s, ServeStep(s, w, skipped).0)
  {
    var own := s.fleet.ProjectOf(w);
    var t := ServeStep(s, w, skipped).0;
    hide Inv, Good, Without, Bypass, Assign, Advance;
    if own.Some? && own.value in s.queue.lists {
      OldestWaits(s, own.value);
      ServeSettles(s.queue, own.value, skipped, w, s.fleet.Fit(w));
      ServedLists(s, w, skipped);
      hide ServeStep, MarkStarted;
      OneStarted(s, t, s.queue.lists[own.value][0]);
    } else {
      NothingServed(s, w, skipped);
      hide ServeStep, Settles;
      KeptConsumes(s, t);
    }
  }

  lemma NothingServed(s: Pool, w: Worker, skipped: set<Project>)
    requires var own := s.fleet.ProjectOf(w); own.None? || own.value !in s.queue.lists
    ensures var t := ServeStep(s, w, skipped).0;
            && Settles(s.queue, t.queue) && t.draining == s.draining
            && t.queue.lists == s.queue.lists && t.queue.fate == s.queue.fate
  {
  }

  lemma OneStarted(s: Pool, t: Pool, r: Request)
    requires Settles(s.queue, t.queue) && t.draining == s.draining && t.queue.fate == s.queue.fate[r := Started]
    requires forall q <- t.queue.lists :: q in s.queue.lists && Suffix(t.queue.lists[q], s.queue.lists[q])
    ensures Consumes(s, t)
  {
  }

  lemma ServedLists(s: Pool, w: Worker, skipped: set<Project>)
    requires s.fleet.ProjectOf(w).Some? && s.fleet.ProjectOf(w).value in s.queue.lists
    requires var l := s.queue.lists[s.fleet.ProjectOf(w).value]; l != [] && s.queue.count > 0
    ensures var p := s.fleet.ProjectOf(w).value;
            var t := ServeStep(s, w, skipped).0;
            && t.queue == MarkStarted(Advance(s.queue, p, skipped), w, s.queue.lists[p][0], s.fleet.Fit(w))
            && t.draining == s.draining && t.queue.fate == s.queue.fate[s.queue.lists[p][0] := Started]
            && forall q <- t.queue.lists :: q in s.queue.lists && Suffix(t.queue.lists[q], s.queue.lists[q])
  {
    hide Without, Bypass, Assign;
  }

  lemma ClaimConsumes(s: Pool, w: Worker, p: Project)
    requires Inv(s) && Busy(s, w) && !s.blocked
    ensures Consumes(s, Claim(s, w, p).0)
  {
    ClaimInv(s, w, p);
    hide Inv, Claim, Binds, Busy, Settles;
    KeptConsumes(s, Claim(s, w, p).0);
  }

  lemma DiscardConsumes(s: Pool, w: Worker)
    ensures Consumes(s, Discard(s, w))
  {
    ConsumesReflexive(s);
    if w in s.fleet.active || w in s.fleet.parked {
      DiscardFacts(s, w);
      ClearKept(s, Discard(s, w));
    }
    hide Discard, Consumes;
  }

  lemma FleetConsumes(s: Pool, t: Pool)
    requires t.queue == s.queue && t.draining == s.draining
    ensures Consumes(s, t)
  {
  }

  lemma RetireStepConsumes(s: Pool, w: Worker)
    ensures Consumes(s, RetireStep(s, w).0)
  {
    DiscardConsumes(s, w);
    hide Discard, Spawn, Settles;
  }

  lemma SurplusStepConsumes(s: Pool, w: Worker)
    ensures Consumes(s, SurplusStep(s, w))
  {
    DiscardConsumes(s, w);
    hide Discard, SetSurplusTimer, ToIdle, Settles;
    if !(s.blocked || s.recovering) { FleetConsumes(s, SurplusStep(s, w)); }
  }

  lemma ScheduleStepConsumes(s: Pool, w: Worker)
    requires Inv(s) && Busy(s, w)
    ensures Consumes(s, ScheduleStep(s, w).0)
  {
    var d := s.(fleet := SetSurplusTimer(s.fleet, w, false));
    DisarmInv(s, w);
    BusyMeans(s, w);
    BusyMeans(d, w);
    FleetConsumes(s, d);
    hide Consumes, Inv, Evolves, Busy, RetireStep, SurplusStep, Target, Claim, ServeStep, Skipped, SetSurplusTimer;
    if w in d.fleet.tainted {
      RetireStepConsumes(d, w);
    } else if d.HasSurplus() {
      SurplusStepConsumes(d, w);
    } else if d.draining || d.blocked || Target(d, w).None? {
      FleetConsumes(d, d.(fleet := ToIdle(d.fleet, w)));
    } else {
      var p := Target(d, w).value;
      var (c, n) := Claim(d, w, p);
      ClaimInv(d, w, p);
      ClaimConsumes(d, w, p);
      ServeConsumes(c, n, Skipped(d, p));
      ConsumesTransitive(d, c, ServeStep(c, n, Skipped(d, p)).0);
    }
    ConsumesTransitive(s, d, ScheduleStep(s, w).0);
  }

  lemma {:induction false} ScheduleConsumes(s: Pool, w: Worker)
    requires Inv(s) && Busy(s, w)
    ensures Consumes(s, Schedule(s, w))
    decreases s.queue.count, w in s.fleet.tainted
  {
    hide Consumes, Inv, Evolves, ScheduleStep, Busy;
    var (t, next) := ScheduleStep(s, w);
    ScheduleStepInv(s, w);
    ScheduleStepConsumes(s, w);
    if next.Some? {
      ScheduleStepProgress(s, w);
      ScheduleConsumes(t, next.value);
      ConsumesTransitive(s, t, Schedule(t, next.value));
    }
  }

  lemma {:induction false} ScheduleIdleConsumes(s: Pool, ws: seq<Worker>)
    requires Inv(s)
    requires s.queue.order != [] ==> ws == s.fleet.idle
    ensures Consumes(s, ScheduleIdle(s, ws))
    decreases ws
  {
    OpenInv(s);
    TotalZero(s.queue);
    hide Consumes, Inv, Evolves, Untimed, Consistent, Schedule, Without, Busy;
    if ws == [] || s.queue.count == 0 {
      ConsumesReflexive(s);
    } else {
      var r := s.(fleet := s.fleet.(idle := Without(s.fleet.idle, ws[0])));
      TakeFirst(s);
      FleetConsumes(s, r);
      ScheduleInv(r, ws[0]);
      ScheduleConsumes(r, ws[0]);
      ScheduleIdleConsumes(Schedule(r, ws[0]), ws[1..]);
      ConsumesTransitive(s, r, Schedule(r, ws[0]));
      ConsumesTransitive(s, Schedule(r, ws[0]), ScheduleIdle(s, ws));
    }
  }

  lemma EnsureCapacityConsumes(s: Pool)
    requires Inv(s)
    ensures Consumes(s, EnsureCapacity(s))
  {
    var t := ScheduleIdle(s, s.fleet.idle);
    ScheduleIdleInv(s, s.fleet.idle);
    ScheduleIdleConsumes(s, s.fleet.idle);
    OpenInv(t);
    TotalZero(t.queue);
    hide Consumes, Inv, Evolves, Untimed, Consistent, Schedule, ScheduleIdle, Busy, Create, Activate;
    if t.queue.count != 0 && t.MayGrow() {
      var g := t.(fleet := Activate(Create(t.fleet), t.fleet.next));
      GrowInv(t);
      FleetConsumes(t, g);
      ScheduleConsumes(g, t.fleet.next);
      ConsumesTransitive(t, g, Schedule(g, t.fleet.next));
      ConsumesTransitive(s, t, EnsureCapacity(s));
    }
  }

  // ---- arrivals --------------------------------------------------------------------------------------------------

  // The pool takes no request: it drains, is closed, recovers with work in hand, or has a full queue.
  predicate Refuses(s: Pool) {
    || s.draining || s.blocked
    || (s.recovering && (|s.fleet.active| > |s.fleet.idle| || s.queue.count > 0))
    || s.queue.count >= s.config.maxQueue
  }

  // Some idle worker may start a request of the project at once.
  ghost predicate AtHand(s: Pool, w: Worker, p: Project) {
    w in s.fleet.idle && w !in s.fleet.tainted && s.fleet.Accepts(w, p)
  }

  lemma TakenAtOnce(s: Pool, r: Request)
    requires Inv(s) && Working(s) && !s.draining && !s.blocked && Fresh(s.queue, r) && IdleIndex(s.fleet, r.project) >= 0
    ensures var t := Admit(s, r);
            var w := s.fleet.idle[IdleIndex(s.fleet, r.project)];
            var n := |s.queue.started|;
            && r in t.queue.fate && t.queue.fate[r] == Started && |t.queue.started| > n
            && t.queue.started[n].worker == w && t.queue.started[n].request == r
            && (!r.failsAtStart ==> t.fleet.active == s.fleet.active && t.draining == s.draining)
  {
    hide Inv, Evolves, Begin, IdleIndex, Busy, Fresh, Settles, Recycle;
    var i := IdleIndex(s.fleet, r.project);
    IdleIndexFacts(s.fleet, r.project);
    var k := s.(fleet := TakeAt(s.fleet, i));
    var w := s.fleet.idle[i];
    TakeAtInv(s, i);
    var b := Begin(k, w, r);
    BegunInv(k, w, r);
    BegunLog(k, w, r);
    assert k.queue == s.queue && k.fleet.active == s.fleet.active by { hide Inv; }
    if r.failsAtStart {
      BusyMeans(b, w);
      RecycleInv(b, w);
      StartedStays(b, Recycle(b, w), r, |s.queue.started|);
    }
  }

  lemma BegunLog(s: Pool, w: Worker, r: Request)
    ensures var b := Begin(s, w, r);
            && r in b.queue.fate && b.queue.fate[r] == Started && b.fleet.active == s.fleet.active && b.draining == s.draining
            && |b.queue.started| == |s.queue.started| + 1
            && b.queue.started[|s.queue.started|].worker == w && b.queue.started[|s.queue.started|].request == r
  {
  }

  lemma StartedStays(s: Pool, t: Pool, r: Request, i: nat)
    requires Evolves(s, t) && r in s.queue.fate && s.queue.fate[r] == Started && i < |s.queue.started|
    ensures r in t.queue.fate && t.queue.fate[r] == Started && i < |t.queue.started|
    ensures t.queue.started[i] == s.queue.started[i]
  {
    hide Binds;
  }

  // A request that finds no worker is queued behind the others of its project, and may be started from there.
  lemma QueuedOrStarted(s: Pool, r: Request)
    requires Inv(s) && Working(s) && !s.draining && !s.blocked && Fresh(s.queue, r) && IdleIndex(s.fleet, r.project) < 0
    ensures var t := Admit(s, r);
            && r in t.queue.fate
            && (t.queue.fate[r] == Answered ==> t.draining)
            && (t.queue.fate[r] == Queued ==>
                  var p := r.project;
                  p in t.queue.lists && t.queue.lists[p] != [] && t.queue.lists[p][|t.queue.lists[p]| - 1] == r)
  {
    hide Inv, Evolves, EnsureCapacity, Enqueue, IdleIndex, Fresh, Working, Consumes;
    var k := s.(queue := Enqueue(s.queue, r));
    EnqueueInv(s, r);
    EnqueueIsLast(s.queue, r);
    EnsureCapacityInv(k);
    EnsureCapacityConsumes(k);
    LastStays(k, EnsureCapacity(k), r);
  }

  lemma LastStays(s: Pool, t: Pool, r: Request)
    requires Consumes(s, t) && Inv(t) && Undecided(s.queue, r)
    requires var p := r.project; p in s.queue.lists && s.queue.lists[p] != [] && s.queue.lists[p][|s.queue.lists[p]| - 1] == r
    ensures r in t.queue.fate && (t.queue.fate[r] == Answered ==> t.draining)
    ensures t.queue.fate[r] == Queued ==>
              var p := r.project;
              p in t.queue.lists && t.queue.lists[p] != [] && t.queue.lists[p][|t.queue.lists[p]| - 1] == r
  {
    hide Inv;
    QueuedIsListed(t, r);
  }

  lemma EnqueueIsLast(q: Queue, r: Request)
    ensures var t := Enqueue(q, r);
            var l := t.lists[r.project];
            r.project in t.lists && l != [] && l[|l| - 1] == r && Undecided(t, r)
  {
  }

  lemma QueuedIsListed(t: Pool, r: Request)
    requires Inv(t)
    ensures r in t.queue.fate && t.queue.fate[r] == Queued ==> r.project in t.queue.lists && t.queue.lists[r.project] != []
  {
    OpenInv(t);
    assert Undecided(t.queue, r) ==> Waiting(t.queue, r) by { hide Inv, Consistent, Ordered, Bounded; }
    hide Inv, Good;
  }

  // The request as it arrives.
  function Arrived(s: Pool, p: Project, failsAtStart: bool): Request {
    Request(s.queue.arrivals, p, failsAtStart)
  }

  // A request that is neither started nor queued in the end.
  ghost predicate Unserved(t: Pool, r: Request) {
    r in t.queue.fate && t.queue.fate[r] == Answered
  }

  lemma AdmittedDecided(s: Pool, p: Project, failsAtStart: bool)
    requires Inv(s) && Working(s) && !Refuses(s)
    ensures var t := Dispatch(s, p, failsAtStart);
            var r := Arrived(s, p, failsAtStart);
            r in t.queue.fate && (Unserved(t, r) <==> t.draining && t.queue.fate[r] != Started)
  {
    hide Inv, Admit, Fresh, Working, Stamp, Dispatch, IdleIndex, Step;
    var r := Arrived(s, p, failsAtStart);
    var k := s.(queue := Stamp(s.queue));
    ArrivingFacts(s, p, failsAtStart);
    DispatchIs(s, p, failsAtStart);
    if IdleIndex(s.fleet, p) >= 0 {
      TakenAtOnce(k, r);
    } else {
      QueuedOrStarted(k, r);
      NoneUndecidedDrained(s, p, failsAtStart);
      assert Undecided(Admit(k, r).queue, r) <==> Admit(k, r).queue.fate[r] == Queued;
    }
  }

  // What becomes of a request that arrives. It is answered unstarted exactly if the pool takes none, and then
  // nothing else changes, or if the fail-safe stops the pool before it is started.
  lemma ArrivalDecided(c: Config, es: seq<Event>, p: Project, failsAtStart: bool)
    requires c.Valid() && Admissible(Initial(c), es)
    ensures var s := Run(Initial(c), es);
            var t := Step(s, Arrive(p, failsAtStart));
            var r := Arrived(s, p, failsAtStart);
            && r !in s.queue.fate && r in t.queue.fate
            && (t.queue.fate[r] == Answered <==> Refuses(s) || (t.draining && t.queue.fate[r] != Started))
            && (Refuses(s) ==> t.fleet == s.fleet && t.queue.started == s.queue.started && t.queue.lists == s.queue.lists)
  {
    var s := Run(Initial(c), es);
    Reached(c, es);
    hide Run, Admissible, Initial, Reachable;
    OpenReached(s);
    hide Inv, Admit, Fresh, Working, Stamp, Dispatch, Step, Refuses;
    ArrivingFacts(s, p, failsAtStart);
    DispatchIs(s, p, failsAtStart);
    if Refuses(s) {
      RefusedOnly(s, Arrived(s, p, failsAtStart));
    } else {
      AdmittedDecided(s, p, failsAtStart);
    }
  }

  lemma RefusedOnly(s: Pool, r: Request)
    ensures var t := s.(queue := Refuse(Stamp(s.queue), r));
            && r in t.queue.fate && t.queue.fate[r] == Answered
            && t.fleet == s.fleet && t.queue.started == s.queue.started && t.queue.lists == s.queue.lists
  {
  }

  lemma ArrivingFacts(s: Pool, p: Project, failsAtStart: bool)
    requires Inv(s) && Working(s)
    ensures var k := s.(queue := Stamp(s.queue));
            && Inv(k) && Working(k) && Fresh(k.queue, Arrived(s, p, failsAtStart)) && Arrived(s, p, failsAtStart) !in s.queue.fate
            && k.queue.started == s.queue.started && k.queue.order == s.queue.order && k.queue.count == s.queue.count
            && k.queue.lists == s.queue.lists
  {
    ArriveInv(s);
    FreshRequest(s, p, failsAtStart);
    hide Inv, Evolves;
  }

  lemma LastIsTaken(s: Pool, p: Project, w: Worker)
    requires Inv(s) && AtHand(s, w, p)
    ensures var i := IdleIndex(s.fleet, p);
            && i >= 0 && AtHand(s, s.fleet.idle[i], p)
            && (s.fleet.ProjectOf(w) == Some(p) ==> s.fleet.ProjectOf(s.fleet.idle[i]) == Some(p))
            && (s.fleet.ProjectOf(w) == s.fleet.ProjectOf(s.fleet.idle[i]) ==>
                  IndexOf(s.fleet.idle, w) <= IndexOf(s.fleet.idle, s.fleet.idle[i]))
  {
    IdleAffinity(s.fleet, p);
    IdleIndexFacts(s.fleet, p);
    OpenInv(s);
    var i := IdleIndex(s.fleet, p);
    var j := IndexOf(s.fleet.idle, w);
    assert s.fleet.idle[j] == w;
    assert NoDup(s.fleet.idle) by { hide Inv, Good, IdleIndex; }
    hide Inv, IdleIndex, Roster, Good;
    assert IndexOf(s.fleet.idle, s.fleet.idle[i]) == i;
  }

  // If the pool takes the request and an idle worker is at hand, one starts it at once, one of its own project
  // if there is any, and of these the one that became idle last.
  lemma ArrivalIsStarted(c: Config, es: seq<Event>, p: Project, failsAtStart: bool, w: Worker)
    requires c.Valid() && Admissible(Initial(c), es)
    requires var s := Run(Initial(c), es); !Refuses(s) && AtHand(s, w, p)
    ensures var s := Run(Initial(c), es);
            var t := Step(s, Arrive(p, failsAtStart));
            var r := Arrived(s, p, failsAtStart);
            var n := |s.queue.started|;
            && r in t.queue.fate && t.queue.fate[r] == Started && |t.queue.started| > n
            && t.queue.started[n].request == r && AtHand(s, t.queue.started[n].worker, p)
            && (s.fleet.ProjectOf(w) == Some(p) ==> s.fleet.ProjectOf(t.queue.started[n].worker) == Some(p))
            && (s.fleet.ProjectOf(w) == s.fleet.ProjectOf(t.queue.started[n].worker) ==>
                  IndexOf(s.fleet.idle, w) <= IndexOf(s.fleet.idle, t.queue.started[n].worker))
  {
    var s := Run(Initial(c), es);
    var r := Arrived(s, p, failsAtStart);
    var k := s.(queue := Stamp(s.queue));
    Reached(c, es);
    OpenReached(s);
    hide Run, Admissible, Initial, Reachable;
    ArrivingFacts(s, p, failsAtStart);
    DispatchIs(s, p, failsAtStart);
    LastIsTaken(s, p, w);
    hide Inv, Admit, Fresh, Working, Stamp, Dispatch, IdleIndex, Step, IndexOf;
    TakenAtOnce(k, r);
  }

  lemma HandFound(s: Pool, p: Project)
    ensures IdleIndex(s.fleet, p) >= 0 ==> exists w :: AtHand(s, w, p)
  {
    IdleAffinity(s.fleet, p);
    hide IdleIndex;
    var i := IdleIndex(s.fleet, p);
    if i >= 0 {
      IdleIndexFacts(s.fleet, p);
      assert AtHand(s, s.fleet.idle[i], p);
    }
  }

  // Otherwise it has been started when the event is over, or it waits as the last of its project, or the
  // fail-safe has stopped the pool.
  lemma ArrivalIsQueued(c: Config, es: seq<Event>, p: Project, failsAtStart: bool)
    requires c.Valid() && Admissible(Initial(c), es)
    requires var s := Run(Initial(c), es); !Refuses(s) && forall w :: !AtHand(s, w, p)
    ensures var s := Run(Initial(c), es);
            var t := Step(s, Arrive(p, failsAtStart));
            var r := Arrived(s, p, failsAtStart);
            && r in t.queue.fate && (t.queue.fate[r] == Answered ==> t.draining)
            && (t.queue.fate[r] == Queued ==>
                  p in t.queue.lists && t.queue.lists[p] != [] && t.queue.lists[p][|t.queue.lists[p]| - 1] == r)
  {
    var s := Run(Initial(c), es);
    var r := Arrived(s, p, failsAtStart);
    var k := s.(queue := Stamp(s.queue));
    Reached(c, es);
    OpenReached(s);
    hide Run, Admissible, Initial, Reachable;
    ArrivingFacts(s, p, failsAtStart);
    DispatchIs(s, p, failsAtStart);
    IdleAffinity(s.fleet, p);
    hide Inv, Admit, Fresh, Working, Stamp, Dispatch, Step;
    HandFound(s, p);
    hide IdleIndex;
    QueuedOrStarted(k, r);
  }

  lemma DispatchIs(s: Pool, p: Project, failsAtStart: bool)
    ensures var k := s.(queue := Stamp(s.queue));
            var r := Arrived(s, p, failsAtStart);
            Dispatch(s, p, failsAtStart) == if Refuses(s) then k.(queue := Refuse(k.queue, r)) else Admit(k, r)
    ensures Step(s, Arrive(p, failsAtStart)) == Dispatch(s, p, failsAtStart)
  {
    hide Admit;
  }

  lemma NoneUndecidedDrained(s: Pool, p: Project, failsAtStart: bool)
    requires Inv(s) && Working(s)
    ensures var t := Dispatch(s, p, failsAtStart);
            t.draining ==> forall r :: !Undecided(t.queue, r)
  {
    var t := Dispatch(s, p, failsAtStart);
    DispatchInv(s, p, failsAtStart);
    hide Dispatch, Evolves, Working;
    if t.draining {
      DrainedHasNone(t);
    }
  }

  lemma DrainedHasNone(t: Pool)
    requires Inv(t) && t.draining
    ensures forall r :: !Undecided(t.queue, r)
  {
    OpenInv(t);
    hide Inv, Ordered, Bounded, Total;
    assert forall r :: Undecided(t.queue, r) ==> Waiting(t.queue, r);
  }

  // ---- growth -----------------------------------------------------------------------------------------------------

  // There is room for another worker, and the recycling budget is not used up.
  predicate Room(s: Pool) {
    && |s.fleet.active| < s.config.maxConcurrent && s.fleet.churn < s.config.maxChurn
    && |s.fleet.active| + |s.fleet.parked| + |s.fleet.retired| < s.config.maxWorkers
  }

  predicate IsOpen(s: Pool) {
    !s.draining && !s.blocked && !s.recovering
  }

  lemma SizeStepKept(s: Pool, w: Worker)
    requires Inv(s) && Busy(s, w) && w !in s.fleet.tainted && !s.blocked && !s.recovering
    ensures var (t, next) := ScheduleStep(s, w);
            && |t.fleet.active| == |s.fleet.active| && (next.Some? ==> next.value !in t.fleet.tainted)
            && t.blocked == s.blocked && t.recovering == s.recovering
  {
    hide Inv, Busy, RetireStep, Target, Claim, ServeStep, Skipped, SetSurplusTimer, Binds, Settles;
    var d := s.(fleet := SetSurplusTimer(s.fleet, w, false));
    BusyMeans(s, w);
    DisarmInv(s, w);
    BusyMeans(d, w);
    ScheduleStepInv(s, w);
    TimerSize(d.fleet, w);
    if !d.HasSurplus() && !d.draining && Target(d, w).Some? {
      var p := Target(d, w).value;
      ClaimSize(d, w, p);
      ServeSize(Claim(d, w, p).0, Claim(d, w, p).1, Skipped(d, p));
    }
  }

  lemma TimerSize(f: Fleet, w: Worker)
    ensures SetSurplusTimer(ToIdle(f, w), w, true).active == f.active
  {
  }

  lemma ClaimSize(s: Pool, w: Worker, p: Project)
    requires Inv(s) && Busy(s, w) && w !in s.fleet.tainted && !s.blocked
    ensures var (c, n) := Claim(s, w, p); |c.fleet.active| == |s.fleet.active| && n !in c.fleet.tainted
  {
    OpenInv(s);
    BusyMeans(s, w);
    hide Inv, Evolves, SwitchSlot, Moves, Without, Untimed;
    if !s.fleet.Accepts(w, p) { SwitchInv(s, w, p); }
  }

  lemma ServeSize(s: Pool, w: Worker, skipped: set<Project>)
    requires w !in s.fleet.tainted
    ensures var (t, next) := ServeStep(s, w, skipped);
            |t.fleet.active| == |s.fleet.active| && (next.Some? ==> next.value !in t.fleet.tainted)
  {
    hide DequeueFor;
  }

  lemma {:induction false} SizeKept(s: Pool, w: Worker)
    requires Inv(s) && Busy(s, w) && w !in s.fleet.tainted && !s.blocked && !s.recovering
    ensures |Schedule(s, w).fleet.active| == |s.fleet.active|
    decreases s.queue.count, w in s.fleet.tainted
  {
    hide Inv, Evolves, ScheduleStep, Busy;
    var (t, next) := ScheduleStep(s, w);
    ScheduleStepInv(s, w);
    SizeStepKept(s, w);
    if next.Some? {
      ScheduleStepProgress(s, w);
      SizeKept(t, next.value);
    }
  }

  // With no worker idle and something queued, an open pool with room grows by one, and any other does not.
  lemma CapacityGrows(s: Pool)
    requires Inv(s) && s.fleet.idle == [] && s.queue.order != []
    ensures var t := EnsureCapacity(s);
            if IsOpen(s) && Room(s) then |t.fleet.active| == |s.fleet.active| + 1 && t.fleet.next > s.fleet.next
            else t == s
  {
    OpenInv(s);
    TotalZero(s.queue);
    NoneIdle(s);
    if IsOpen(s) && Room(s) {
      var g := s.(fleet := Activate(Create(s.fleet), s.fleet.next));
      GrowInv(s);
      NewcomerIsUntainted(s.fleet);
      hide Inv, Evolves, Schedule, Busy, Create;
      SizeKept(g, s.fleet.next);
      ScheduleInv(g, s.fleet.next);
      NumbersGrow(g, Schedule(g, s.fleet.next));
      CreateNext(s.fleet);
    }
  }

  lemma NoneIdle(s: Pool)
    ensures ScheduleIdle(s, []) == s
  {
  }

  lemma NewcomerIsUntainted(f: Fleet)
    ensures f.next !in Activate(Create(f), f.next).tainted && |Activate(Create(f), f.next).active| == |f.active| + 1
  {
  }

  lemma CreateNext(f: Fleet)
    ensures Activate(Create(f), f.next).next == f.next + 1
  {
  }

  lemma NumbersGrow(s: Pool, t: Pool)
    requires Evolves(s, t)
    ensures s.fleet.next <= t.fleet.next
  {
    hide Settles;
  }

  // A request that arrives while no worker is idle, and is taken, makes the pool one worker larger exactly if
  // the pool is open and has room; a refused one never does.
  lemma ArrivalGrowsExactly(c: Config, es: seq<Event>, p: Project, failsAtStart: bool)
    requires c.Valid() && Admissible(Initial(c), es) && Run(Initial(c), es).fleet.idle == []
    ensures var s := Run(Initial(c), es);
            var t := Step(s, Arrive(p, failsAtStart));
            |t.fleet.active| == |s.fleet.active| + if !Refuses(s) && IsOpen(s) && Room(s) then 1 else 0
  {
    var s := Run(Initial(c), es);
    var r := Arrived(s, p, failsAtStart);
    Reached(c, es);
    hide Run, Admissible, Initial, Reachable;
    OpenReached(s);
    DispatchIs(s, p, failsAtStart);
    if !Refuses(s) {
      QueuedGrows(s, p, failsAtStart);
    }
    hide Inv, Dispatch, Admit, Working, EnsureCapacity, Enqueue, Step;
  }

  lemma NoIdleIndex(f: Fleet, p: Project)
    requires f.idle == []
    ensures IdleIndex(f, p) < 0
  {
  }

  // The pool once the request is queued.
  function Lined(s: Pool, r: Request): Pool {
    s.(queue := Enqueue(Stamp(s.queue), r))
  }

  lemma QueuedGrows(s: Pool, p: Project, failsAtStart: bool)
    requires Inv(s) && Working(s) && !Refuses(s) && s.fleet.idle == []
    ensures var r := Arrived(s, p, failsAtStart);
            && Dispatch(s, p, failsAtStart) == EnsureCapacity(Lined(s, r)) && Inv(Lined(s, r))
            && if IsOpen(s) && Room(s) then |Dispatch(s, p, failsAtStart).fleet.active| == |s.fleet.active| + 1
               else Dispatch(s, p, failsAtStart) == Lined(s, r)
  {
    var r := Arrived(s, p, failsAtStart);
    var k := s.(queue := Stamp(s.queue));
    hide Inv, Evolves, Working, Fresh, EnsureCapacity, Enqueue, Stamp, IdleIndex, Dispatch;
    ArrivingFacts(s, p, failsAtStart);
    DispatchIs(s, p, failsAtStart);
    NoIdleIndex(k.fleet, p);
    EnqueueInv(k, r);
    LinedIsQueued(s, r);
    LinedSizes(s, r);
    assert Dispatch(s, p, failsAtStart) == EnsureCapacity(Lined(s, r));
    hide Refuses, Room, IsOpen;
    CapacityGrows(Lined(s, r));
  }

  lemma LinedIsQueued(s: Pool, r: Request)
    requires Inv(Lined(s, r))
    ensures Lined(s, r).queue.order != []
  {
    CountIsQueue(Lined(s, r));
    hide Inv;
  }

  // The exit of a retired worker makes room in the same way.
  lemma ExitGrowsExactly(c: Config, es: seq<Event>, w: Worker)
    requires c.Valid() && Admissible(Initial(c), es)
    requires var s := Run(Initial(c), es); s.fleet.idle == [] && s.queue.order != [] && w in s.fleet.retired
    ensures var s := Run(Initial(c), es);
            var t := Step(s, Exit(w));
            var gone := s.(fleet := s.fleet.(retired := s.fleet.retired - {w}));
            |t.fleet.active| == |s.fleet.active| + if IsOpen(s) && Room(gone) then 1 else 0
  {
    hide Run, Admissible, Initial, Reachable, Step, Inv, EnsureCapacity, Forget, Working;
    var s := Run(Initial(c), es);
    Reached(c, es);
    OpenReached(s);
    RetiredExits(s, w);
    if !s.draining {
      CapacityGrows(s.(fleet := Forget(s.fleet, w)));
    }
  }

  lemma RetiredExits(s: Pool, w: Worker)
    requires Inv(s) && w in s.fleet.retired
    ensures var k := s.(fleet := Forget(s.fleet, w));
            && Step(s, Exit(w)) == (if s.draining then k else EnsureCapacity(k)) && Inv(k)
            && k.fleet.retired == s.fleet.retired - {w} && k.fleet.active == s.fleet.active && k.fleet.parked == s.fleet.parked
            && k.fleet.churn == s.fleet.churn && k.fleet.idle == s.fleet.idle
  {
    hide Inv, Evolves, EnsureCapacity, Forget, Working;
    var k := s.(fleet := Forget(s.fleet, w));
    RetiredIsElsewhere(s, w);
    ForgetIdle(s, w);
    ForgetKeepsActive(s.fleet, w);
    EnsureCapacityInv(k);
    StaysAway(k, EnsureCapacity(k), w);
    ForgottenSizes(s.fleet, w);
  }

  lemma RetiredIsElsewhere(s: Pool, w: Worker)
    requires Inv(s) && w in s.fleet.retired
    ensures w !in s.fleet.active && w !in s.fleet.parked && w < s.fleet.next && w !in s.fleet.meta
    ensures w !in Forget(s.fleet, w).meta
  {
    OpenInv(s);
    hide Inv, Good, Without;
  }

  lemma ForgottenSizes(f: Fleet, w: Worker)
    requires w !in f.active && w !in f.parked
    ensures var g := Forget(f, w);
            g.retired == f.retired - {w} && g.active == f.active && g.parked == f.parked && g.churn == f.churn
  {
  }

  // If nothing was queued before it, or there was no room, whatever is still queued after an arrival in an open
  // pool finds no room any more.
  lemma ArrivalFillsThePool(c: Config, es: seq<Event>, p: Project, failsAtStart: bool)
    requires c.Valid() && Admissible(Initial(c), es)
    requires var s := Run(Initial(c), es); !Refuses(s) && (s.queue.order == [] || !Room(s))
    requires var t := Step(Run(Initial(c), es), Arrive(p, failsAtStart)); IsOpen(t) && t.queue.order != []
    ensures !Room(Step(Run(Initial(c), es), Arrive(p, failsAtStart)))
  {
    var s := Run(Initial(c), es);
    var r := Arrived(s, p, failsAtStart);
    var t := Step(s, Arrive(p, failsAtStart));
    Reached(c, es);
    hide Run, Admissible, Initial, Reachable;
    OpenReached(s);
    DispatchIs(s, p, failsAtStart);
    assert t == Dispatch(s, p, failsAtStart);
    hide Step;
    if s.queue.order != [] {
      assert s.fleet.idle == [];
      QueuedGrows(s, p, failsAtStart);
      LinedSizes(s, r);
    } else {
      FirstFills(s, p, failsAtStart);
    }
  }

  lemma LinedSizes(s: Pool, r: Request)
    ensures Room(Lined(s, r)) <==> Room(s)
    ensures IsOpen(Lined(s, r)) <==> IsOpen(s)
  {
  }

  lemma FirstFills(s: Pool, p: Project, failsAtStart: bool)
    requires Inv(s) && Working(s) && !Refuses(s) && s.queue.order == []
    requires var t := Dispatch(s, p, failsAtStart); IsOpen(t) && t.queue.order != []
    ensures !Room(Dispatch(s, p, failsAtStart))
  {
    var r := Arrived(s, p, failsAtStart);
    var k := s.(queue := Stamp(s.queue));
    ArrivingFacts(s, p, failsAtStart);
    DispatchIs(s, p, failsAtStart);
    hide Inv, Working, Fresh, Stamp, IdleIndex, Dispatch, Refuses;
    if IdleIndex(k.fleet, p) >= 0 {
      hide Admit;
      FastLeavesNothing(k, r);
    } else {
      EnqueueInv(k, r);
      OnlyOneQueued(k, r);
      hide EnsureCapacity, Enqueue, Evolves;
      LeftoverFills(Lined(s, r), r);
    }
  }

  lemma FastLeavesNothing(s: Pool, r: Request)
    requires Inv(s) && Working(s) && !s.draining && !s.blocked && Fresh(s.queue, r) && IdleIndex(s.fleet, r.project) >= 0
    ensures Admit(s, r).queue.order == []
  {
    IdleIndexFacts(s.fleet, r.project);
    hide Inv, Evolves, TakeAt, Execute, Enqueue, IdleIndex;
    var i := IdleIndex(s.fleet, r.project);
    TakeAtInv(s, i);
    ExecuteFreshInv(s.(fleet := TakeAt(s.fleet, i)), s.fleet.idle[i], r);
  }

  // Nothing but `r` is queued.
  ghost predicate Only(s: Pool, r: Request) {
    forall x :: Waiting(s.queue, x) ==> x == r
  }

  lemma OnlyOneQueued(s: Pool, r: Request)
    requires Inv(s) && s.queue.order == []
    ensures Only(s.(queue := Enqueue(s.queue, r)), r)
  {
    OpenInv(s);
    hide Inv, Ordered, Bounded, Accounted, Total;
  }

  lemma StillOnly(s: Pool, t: Pool, r: Request)
    requires Consumes(s, t) && Only(s, r)
    ensures Only(t, r)
  {
    hide Settles;
    forall x | Waiting(t.queue, x) ensures x == r {
      assert Suffix(t.queue.lists[x.project], s.queue.lists[x.project]);
      assert Waiting(s.queue, x);
    }
  }

  lemma LeftoverFills(s: Pool, r: Request)
    requires Inv(s) && Only(s, r) && IsOpen(EnsureCapacity(s)) && EnsureCapacity(s).queue.order != []
    ensures !Room(EnsureCapacity(s))
  {
    hide Inv, Evolves, Consumes, Only, Schedule, ScheduleIdle, Working;
    var m := ScheduleIdle(s, s.fleet.idle);
    ScheduleIdleInv(s, s.fleet.idle);
    ScheduleIdleConsumes(s, s.fleet.idle);
    StillOnly(s, m, r);
    OpenInv(m);
    CountIsQueue(m);
    if m.queue.count != 0 && m.MayGrow() {
      OpenWorking(m);
      GrownServes(m, r);
      assert false;
    }
  }

  lemma OpenWorking(s: Pool)
    requires Working(s) && s.queue.order != []
    ensures s.fleet.idle == []
  {
  }

  lemma CountIsQueue(s: Pool)
    requires Inv(s)
    ensures s.queue.count == 0 <==> s.queue.order == []
  {
    OpenInv(s);
    TotalZero(s.queue);
    hide Inv, Total, Ordered, Accounted, Bounded;
  }

  // The new worker takes the only request there is.
  lemma GrownServes(s: Pool, r: Request)
    requires Inv(s) && Only(s, r) && s.fleet.idle == [] && s.queue.order != [] && s.MayGrow()
    ensures Schedule(s.(fleet := Activate(Create(s.fleet), s.fleet.next)), s.fleet.next).queue.order == []
  {
    var g := s.(fleet := Activate(Create(s.fleet), s.fleet.next));
    var n := s.fleet.next;
    GrowInv(s);
    NewcomerIsUntainted(s.fleet);
    assert g.fleet.ProjectOf(n) == None && Only(g, r);
    hide Inv, Evolves, Create, Only, Busy;
    var p := NextExists(g, n);
    AcceptedServes(g, n, p);
    var x := g.queue.lists[p][0];
    PassDecides(g, n, n, x);
    ScheduleInv(g, n);
    ScheduleConsumes(g, n);
    hide Schedule, ScheduleStep, Consumes;
    TheOnly(g, p, r);
    StillOnly(g, Schedule(g, n), r);
    StartedIsNotQueued(Schedule(g, n), r, |g.queue.started|);
  }

  lemma TheOnly(s: Pool, p: Project, r: Request)
    requires Inv(s) && Only(s, r) && p in s.queue.lists && s.queue.lists[p] != []
    ensures s.queue.lists[p][0] == r
  {
    OldestWaits(s, p);
    hide Inv, Good;
  }

  lemma StartedIsNotQueued(t: Pool, r: Request, i: nat)
    requires Inv(t) && Only(t, r) && i < |t.queue.started| && t.queue.started[i].request == r
    ensures t.queue.order == []
  {
    OpenInv(t);
    assert !Waiting(t.queue, r) by { hide Inv, Ordered, Bounded, Total; }
    FrontWaits(t);
    hide Inv, Good;
  }

  lemma FrontWaits(s: Pool)
    requires Inv(s)
    ensures s.queue.order != [] ==> exists x :: Waiting(s.queue, x)
  {
    OpenInv(s);
    hide Inv, Ordered, Bounded, Accounted, Total;
    if s.queue.order != [] {
      assert s.queue.order[0] in s.queue.order;
      assert Waiting(s.queue, s.queue.lists[s.queue.order[0]][0]);
    }
  }

  // There is always a project that is next.
  lemma NextExists(s: Pool, w: Worker) returns (p: Project)
    requires s.queue.order != []
    ensures NextFor(s, w, p)
  {
    if exists q :: Neglected(s, w, q) {
      p := FirstNeglected(s, w);
    } else if s.fleet.ProjectOf(w).Some? && s.fleet.ProjectOf(w).value in s.queue.order {
      p := s.fleet.ProjectOf(w).value;
    } else {
      p := s.queue.order[0];
    }
    hide Neglected, IndexOf;
  }

  lemma FirstNeglected(s: Pool, w: Worker) returns (p: Project)
    requires exists q :: Neglected(s, w, q)
    ensures p in s.queue.order && Neglected(s, w, p)
    ensures forall i :: 0 <= i < IndexOf(s.queue.order, p) ==> !Neglected(s, w, s.queue.order[i])
  {
    var i := FirstWhere(s.queue.order, q => s.fleet.ProjectOf(w) != Some(q) && !s.fleet.Covered(q));
    hide FirstWhere, IndexOf;
    var q :| Neglected(s, w, q);
    var j :| 0 <= j < |s.queue.order| && s.queue.order[j] == q;
    p := s.queue.order[i];
    IndexIsFirst(s.queue.order, p, i);
  }

  // Otherwise the pool grows by one worker only: there is still room after it exactly if there was room for two.
  // (The request that the new worker takes does not fail at once; if it does, the worker goes on to the next.)
  lemma RoomForTwo(c: Config, es: seq<Event>, p: Project, failsAtStart: bool)
    requires c.Valid() && Admissible(Initial(c), es)
    requires var s := Run(Initial(c), es); !Refuses(s) && s.queue.order != [] && IsOpen(s) && Room(s)
    requires var s := Run(Initial(c), es);
             var log := Step(s, Arrive(p, failsAtStart)).queue.started;
             |log| > |s.queue.started| ==> !log[|s.queue.started|].request.failsAtStart
    ensures var s := Run(Initial(c), es);
            Room(Step(s, Arrive(p, failsAtStart))) <==>
              && |s.fleet.active| + 1 < s.config.maxConcurrent
              && |s.fleet.active| + |s.fleet.parked| + |s.fleet.retired| + 1 < s.config.maxWorkers
  {
    var s := Run(Initial(c), es);
    var r := Arrived(s, p, failsAtStart);
    Reached(c, es);
    hide Run, Admissible, Initial, Reachable;
    OpenReached(s);
    DispatchIs(s, p, failsAtStart);
    assert Step(s, Arrive(p, failsAtStart)) == Dispatch(s, p, failsAtStart);
    assert s.fleet.idle == [];
    QueuedGrows(s, p, failsAtStart);
    LinedIsQueued(s, r);
    LinedSizes(s, r);
    LinedLog(s, r);
    hide Step, Dispatch, Inv, Refuses, Admit, Lined, EnsureCapacity;
    OneMore(Lined(s, r));
  }

  lemma LinedLog(s: Pool, r: Request)
    ensures var t := Lined(s, r); t.queue.started == s.queue.started && t.fleet == s.fleet && t.config == s.config
  {
  }

  lemma OneMore(s: Pool)
    requires Inv(s) && s.fleet.idle == [] && s.queue.order != [] && IsOpen(s) && Room(s)
    requires var log := EnsureCapacity(s).queue.started;
             |log| > |s.queue.started| ==> !log[|s.queue.started|].request.failsAtStart
    ensures var t := EnsureCapacity(s);
            && |t.fleet.active| == |s.fleet.active| + 1 && t.fleet.parked == s.fleet.parked
            && t.fleet.retired == s.fleet.retired && t.fleet.churn == s.fleet.churn && t.config == s.config
  {
    var g := s.(fleet := Activate(Create(s.fleet), s.fleet.next));
    var n := s.fleet.next;
    CountIsQueue(s);
    NoneIdle(s);
    GrowInv(s);
    NewcomerIsUntainted(s.fleet);
    NewcomerCounts(s.fleet);
    assert g.fleet.ProjectOf(n) == None;
    var p := NextExists(g, n);
    hide Inv, Evolves, Create, Busy;
    assert EnsureCapacity(s) == Schedule(g, n);
    hide EnsureCapacity, Schedule, ScheduleStep;
    AcceptedServes(g, n, p);
    PassDecides(g, n, n, g.queue.lists[p][0]);
    StepConfig(g, n);
  }

  lemma NewcomerCounts(f: Fleet)
    ensures var g := Activate(Create(f), f.next); g.parked == f.parked && g.retired == f.retired && g.churn == f.churn
  {
  }

  lemma StepConfig(s: Pool, w: Worker)
    requires Inv(s) && Busy(s, w)
    ensures ScheduleStep(s, w).0.config == s.config
  {
    ScheduleStepInv(s, w);
    hide Inv, ScheduleStep, Binds, Settles;
  }
}
