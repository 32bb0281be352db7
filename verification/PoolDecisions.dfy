/** Which request a free worker takes, on which worker it runs, and which workers make room for it. */
module PoolDecisions {
  import opened Lists
  import opened PoolModel
  import opened PoolQueue
  import opened PoolFleet
  import opened PoolSteps
  import opened PoolHandlers
  import opened PoolRuns
  import opened PoolUses
  import opened PoolTheorems

  // ---- the project ------------------------------------------------------------------------------------------

  // Some project is queued that the worker does not run and that no other worker runs.
  ghost predicate Neglected(s: Pool, w: Worker, q: Project) {
    q in s.queue.order && s.fleet.ProjectOf(w) != Some(q) && !s.fleet.Covered(q)
  }

  // `p` is next for worker `w`: the first neglected project, or else the worker's own, or else the first of all.
  ghost predicate NextFor(s: Pool, w: Worker, p: Project) {
    && p in s.queue.order
    && if exists q :: Neglected(s, w, q) then
         && Neglected(s, w, p)
         && forall i :: 0 <= i < IndexOf(s.queue.order, p) ==> !Neglected(s, w, s.queue.order[i])
       else if s.fleet.ProjectOf(w).Some? && s.fleet.ProjectOf(w).value in s.queue.order then
         s.fleet.ProjectOf(w) == Some(p)
       else p == s.queue.order[0]
  }

  lemma NextIsTarget(s: Pool, w: Worker, p: Project)
    requires NextFor(s, w, p) && (forall q :: q in s.queue.order <==> q in s.queue.lists)
    ensures Target(s, w) == Some(p)
  {
    var own := s.fleet.ProjectOf(w);
    var i := FirstWhere(s.queue.order, q => Some(q) != own && !s.fleet.Covered(q));
    hide FirstWhere, IndexOf;
    if i >= 0 {
      assert Neglected(s, w, s.queue.order[i]);
      var j := IndexOf(s.queue.order, p);
      assert s.queue.order[j] == p;
      assert i >= j;
      assert i <= j;
    } else {
      forall q | q in s.queue.order ensures !Neglected(s, w, q) {
        var k :| 0 <= k < |s.queue.order| && s.queue.order[k] == q;
      }
    }
  }

  // ---- the worker -------------------------------------------------------------------------------------------

  // A parked worker that may come back for the project.
  ghost predicate Returns(f: Fleet, c: Worker, p: Project) {
    c in f.parked && f.ProjectOf(c) == Some(p) && f.Fit(c)
  }

  // The start that a pass has added to the log.
  ghost predicate Adds(s: Pool, t: Pool, n: Worker, r: Request) {
    && |t.queue.started| == |s.queue.started| + 1 && s.queue.started <= t.queue.started
    && t.queue.started[|s.queue.started|].worker == n && t.queue.started[|s.queue.started|].request == r
  }

  // What the pool has when worker `n` has taken the oldest request of `p`.
  lemma ServeOwn(s: Pool, n: Worker, p: Project, skipped: set<Project>)
    requires Good(s.queue) && p in s.queue.lists && s.fleet.ProjectOf(n) == Some(p)
    ensures s.queue.lists[p] != []
    ensures var t := ServeStep(s, n, skipped).0;
            && Adds(s, t, n, s.queue.lists[p][0])
            && t.fleet.parked == s.fleet.parked && t.fleet.active == s.fleet.active && t.fleet.next == s.fleet.next
            && t.fleet.retired == s.fleet.retired && t.fleet.churn == s.fleet.churn && t.draining == s.draining
  {
    TotalZero(s.queue);
    AdvanceOrder(s.queue, p, skipped);
    hide Good, Total, Advance, Without;
  }

  lemma SameQueueServed(s: Pool, w: Worker)
    requires Inv(s) && Busy(s, w)
    ensures var d := s.(fleet := SetSurplusTimer(s.fleet, w, false));
            && Good(d.queue) && (forall q :: q in d.queue.order <==> q in d.queue.lists) && Inv(d) && Busy(d, w)
            && (forall p :: NextFor(d, w, p) <==> NextFor(s, w, p)) && !(s.queue.order != [] && d.HasSurplus())
  {
    hide Inv, IndexOf, Total;
    var d := s.(fleet := SetSurplusTimer(s.fleet, w, false));
    BusyMeans(s, w);
    DisarmInv(s, w);
    BusyMeans(d, w);
    OpenInv(d);
    TotalZero(d.queue);
    assert forall x :: d.fleet.ProjectOf(x) == s.fleet.ProjectOf(x);
    forall q ensures d.fleet.Covered(q) <==> s.fleet.Covered(q) {
      UncoveredStays(s, w, q);
    }
    assert forall q :: Neglected(d, w, q) <==> Neglected(s, w, q);
  }

  // A pass with a worker that may run the project that is next.
  lemma AcceptedServes(s: Pool, w: Worker, p: Project)
    requires Inv(s) && Busy(s, w) && w !in s.fleet.tainted && !s.draining && !s.blocked
    requires NextFor(s, w, p) && s.fleet.Accepts(w, p)
    ensures p in s.queue.lists && s.queue.lists[p] != []
    ensures var t := ScheduleStep(s, w).0;
            && Adds(s, t, w, s.queue.lists[p][0])
            && t.fleet.parked == s.fleet.parked && t.fleet.active == s.fleet.active && t.fleet.next == s.fleet.next
            && t.fleet.retired == s.fleet.retired && t.fleet.churn == s.fleet.churn
  {
    var d := s.(fleet := SetSurplusTimer(s.fleet, w, false));
    SameQueueServed(s, w);
    assert p in d.queue.order;
    NextIsTarget(d, w, p);
    ClaimInv(d, w, p);
    assert d.fleet.Accepts(w, p);
    assert d.fleet.parked == s.fleet.parked && d.fleet.active == s.fleet.active && d.fleet.next == s.fleet.next;
    assert d.fleet.retired == s.fleet.retired && d.fleet.churn == s.fleet.churn && w !in d.fleet.tainted;
    AssignSameLists(d.fleet, w, p);
    AssignCounts(d.fleet, w, p);
    hide Inv, Evolves, Target, Skipped, SetSurplusTimer, NextFor, Assign, ServeStep, Good, Busy, Consistent;
    ServeOwn(d.(fleet := Assign(d.fleet, w, p)), w, p, Skipped(d, p));
  }

  lemma AssignCounts(f: Fleet, w: Worker, p: Project)
    ensures Assign(f, w, p).retired == f.retired && Assign(f, w, p).churn == f.churn
  {
  }

  // ---- the exchange of a slot ---------------------------------------------------------------------------------

  // The last `n` of a list.
  function Newest(xs: seq<Worker>, n: nat): seq<Worker> {
    if |xs| <= n then xs else xs[|xs| - n..]
  }

  lemma FirstEvicted(s: Pool)
    requires s.fleet.parked != []
    ensures var t := EvictParked(s, s.fleet.parked[0]);
            t.fleet.parked == s.fleet.parked[1..] && t.fleet.next == s.fleet.next && t.config == s.config
  {
    FirstLeaves(s.fleet.parked);
  }

  // The oldest parked workers leave first, and only as many as are too many.
  lemma {:induction false} OldestLeave(s: Pool)
    requires s.config.Valid()
    ensures EvictOldest(s).fleet.parked == Newest(s.fleet.parked, s.config.maxWorkers - s.config.maxConcurrent)
    ensures EvictOldest(s).fleet.next == s.fleet.next
    decreases |s.fleet.parked|
  {
    hide EvictParked;
    if |s.fleet.parked| > s.config.maxWorkers - s.config.maxConcurrent {
      FirstEvicted(s);
      OldestLeave(EvictParked(s, s.fleet.parked[0]));
    }
  }

  lemma ParkedLast(f: Fleet, w: Worker)
    requires w !in f.parked
    ensures var g := ToParked(SetSurplusTimer(f, w, false), w); g.parked == f.parked + [w] && g.next == f.next
  {
    hide Without;
  }

  lemma EvictedLists(s: Pool, w: Worker)
    requires w in s.fleet.parked
    ensures var t := EvictParked(s, w);
            t.fleet.parked == Without(s.fleet.parked, w) && t.fleet.next == s.fleet.next && t.config == s.config
  {
    hide Without, Clear;
  }

  lemma ParkLists(s: Pool, w: Worker)
    requires w !in s.fleet.parked
    ensures var t := Park(s, w);
            && t.fleet.next == s.fleet.next && t.config == s.config
            && t.fleet.parked == if s.config.parkedIdleMs == 0 || s.recovering then s.fleet.parked else s.fleet.parked + [w]
  {
    ParkedLast(s.fleet, w);
    LastLeaves(s.fleet.parked, w);
    hide Without, ToParked, SetSurplusTimer, EvictParked;
    EvictedLists(s.(fleet := ToParked(SetSurplusTimer(s.fleet, w, false), w)), w);
  }

  lemma LastLeaves(ws: seq<Worker>, w: Worker)
    requires w !in ws
    ensures Without(ws, w) == ws && Without(ws + [w], w) == ws
  {
    var k := IndexOf(ws + [w], w);
    assert (ws + [w])[|ws|] == w;
    assert forall j :: 0 <= j < |ws| ==> (ws + [w])[j] == ws[j];
    assert k == |ws|;
    assert (ws + [w])[..|ws|] == ws;
  }

  // Who makes room: the worker is parked behind all others, unless nobody may be parked, and the oldest leave.
  lemma SwitchParks(s: Pool, w: Worker, p: Project)
    requires s.config.Valid() && w !in s.fleet.parked
    ensures var (t, n) := SwitchSlot(s, w, p);
            var kept := if Cached(s.fleet, p).Some? then Without(s.fleet.parked, n) else s.fleet.parked;
            && t.fleet.parked == Newest(if s.config.parkedIdleMs == 0 || s.recovering then kept else kept + [w],
                                        s.config.maxWorkers - s.config.maxConcurrent)
            && if Cached(s.fleet, p).Some? then n == Cached(s.fleet, p).value && t.fleet.next == s.fleet.next
               else n == s.fleet.next && t.fleet.next == s.fleet.next + 1
  {
    hide Park, EvictOldest, Cached, Without, Newest;
    match Cached(s.fleet, p)
    case Some(c) =>
      var u := s.(fleet := Unpark(s.fleet, c));
      WithoutKeeps(s.fleet.parked, c);
      ParkLists(u, w);
      OldestLeave(Park(u, w));
    case None =>
      ParkLists(s, w);
      OldestLeave(Park(s, w));
  }

  // The parked worker that comes back is the oldest of the project that is fit; there is none only if none is fit.
  lemma CachedReturns(f: Fleet, p: Project)
    ensures match Cached(f, p)
            case Some(c) => Returns(f, c, p)
            case None => forall c :: !Returns(f, c, p)
  {
    var ok := w => f.ProjectOf(w) == Some(p) && w in f.meta && f.meta[w].generation == f.generation && w !in f.tainted;
    assert forall w :: ok(w) <==> f.ProjectOf(w) == Some(p) && f.Fit(w);
    hide FirstWhere;
    var i := FirstWhere(f.parked, ok);
    assert Cached(f, p) == if i < 0 then None else Some(f.parked[i]);
    if i < 0 {
      forall c ensures !Returns(f, c, p) {
        if c in f.parked { var j :| 0 <= j < |f.parked| && f.parked[j] == c; assert !ok(f.parked[j]); }
      }
    }
  }

  // Worker `n` has the slot of `w`: a parked worker of the project that is fit, or a new one if there is none.
  ghost predicate Seated(f: Fleet, g: Fleet, w: Worker, n: Worker, p: Project) {
    && n in g.active && w !in g.active && |g.active| == |f.active|
    && if exists c :: Returns(f, c, p) then Returns(f, n, p) && g.next == f.next else n == f.next && g.next == f.next + 1
  }

  // A pass with a worker of another project: its slot goes to a worker of the project that is next, unless the
  // fail-safe stops the pool meanwhile.
  lemma ExchangedServes(s: Pool, w: Worker, p: Project)
    requires Inv(s) && Busy(s, w) && w !in s.fleet.tainted && !s.draining && !s.blocked
    requires NextFor(s, w, p) && !s.fleet.Accepts(w, p)
    ensures p in s.queue.lists && s.queue.lists[p] != []
    ensures var t := ScheduleStep(s, w).0;
            t.draining || exists n :: Adds(s, t, n, s.queue.lists[p][0]) && Seated(s.fleet, t.fleet, w, n, p)
  {
    var d := s.(fleet := SetSurplusTimer(s.fleet, w, false));
    SameQueueServed(s, w);
    assert p in d.queue.order && p in d.queue.lists && d.queue.lists[p] != [];
    NextIsTarget(d, w, p);
    assert !d.fleet.Accepts(w, p) && w !in d.fleet.tainted;
    var (t, n) := SwitchSlot(d, w, p);
    SwitchTakesOver(d, w, p);
    TimerSeats(s.fleet, w, t.fleet, n, p);
    var u := ServeStep(t, n, Skipped(d, p)).0;
    PassExchanges(s, w, p);
    hide Inv, Target, Skipped, SetSurplusTimer, NextFor, SwitchSlot, ServeStep, Busy, Consistent, Returns, ScheduleStep, Seated,
         Good;
    if t.queue == d.queue {
      ServeOwn(t, n, p, Skipped(d, p));
      SameSeats(s.fleet, t.fleet, u.fleet, w, n, p);
    } else {
      ServeNothing(t, n, p, Skipped(d, p));
    }
  }

  lemma PassExchanges(s: Pool, w: Worker, p: Project)
    requires var d := s.(fleet := SetSurplusTimer(s.fleet, w, false));
             Target(d, w) == Some(p) && !d.fleet.Accepts(w, p) && w !in d.fleet.tainted && !d.HasSurplus()
    requires !s.draining && !s.blocked
    ensures var d := s.(fleet := SetSurplusTimer(s.fleet, w, false));
            var (t, n) := SwitchSlot(d, w, p);
            ScheduleStep(s, w) == ServeStep(t, n, Skipped(d, p))
  {
    hide Target, SetSurplusTimer, SwitchSlot, ServeStep, Skipped;
  }

  lemma TimerSeats(f: Fleet, w: Worker, g: Fleet, n: Worker, p: Project)
    requires Seated(SetSurplusTimer(f, w, false), g, w, n, p)
    ensures Seated(f, g, w, n, p)
  {
    forall c ensures Returns(SetSurplusTimer(f, w, false), c, p) <==> Returns(f, c, p) { }
  }

  lemma SameSeats(f: Fleet, g: Fleet, h: Fleet, w: Worker, n: Worker, p: Project)
    requires Seated(f, g, w, n, p) && h.active == g.active && h.next == g.next
    ensures Seated(f, h, w, n, p)
  {
  }

  lemma SwitchTakesOver(s: Pool, w: Worker, p: Project)
    requires Inv(s) && Busy(s, w) && !s.blocked
    ensures var (t, n) := SwitchSlot(s, w, p);
            && t.fleet.ProjectOf(n) == Some(p) && Seated(s.fleet, t.fleet, w, n, p)
            && (t.queue == s.queue || (t.draining && t.queue.lists == map[]))
  {
    var (t, n) := SwitchSlot(s, w, p);
    OpenInv(s);
    BusyMeans(s, w);
    SwitchInv(s, w, p);
    ActiveIsNotParked(s.fleet, w);
    SwitchParks(s, w, p);
    CachedReturns(s.fleet, p);
    SlotLeft(s, w, p);
    hide Inv, Untimed, SwitchSlot, Evolves, Cached, Without, Moves, Newest, Returns;
  }

  lemma ActiveIsNotParked(f: Fleet, w: Worker)
    requires Roster(f, {}) && w in f.active
    ensures w !in f.parked && w < f.next
  {
  }

  lemma {:induction false} EvictKeepsActive(s: Pool, w: Worker)
    requires w !in s.fleet.active
    ensures w !in EvictOldest(s).fleet.active
    decreases |s.fleet.parked|
  {
    if |s.fleet.parked| > s.config.maxWorkers - s.config.maxConcurrent && s.fleet.parked != [] {
      EvictDrops(s, s.fleet.parked[0]);
      EvictShrinks(s);
      hide EvictParked;
      EvictKeepsActive(EvictParked(s, s.fleet.parked[0]), w);
    }
  }

  lemma EvictDrops(s: Pool, v: Worker)
    ensures forall x :: x in EvictParked(s, v).fleet.active ==> x in s.fleet.active
  {
    WithoutKeeps(s.fleet.active, v);
    hide Without;
  }

  lemma ParkLeaves(s: Pool, w: Worker)
    requires NoDup(s.fleet.active)
    ensures w !in Park(s, w).fleet.active
  {
    WithoutMembers(s.fleet.active, w);
    var t := s.(fleet := ToParked(SetSurplusTimer(s.fleet, w, false), w));
    assert w !in t.fleet.active;
    EvictDrops(t, w);
    hide Without, ToParked, SetSurplusTimer, EvictParked;
  }

  // The worker that makes room has left its slot.
  lemma SlotLeft(s: Pool, w: Worker, p: Project)
    requires Roster(s.fleet, {}) && w in s.fleet.active
    ensures w !in SwitchSlot(s, w, p).0.fleet.active
  {
    hide Park, EvictOldest, Cached, Assign;
    CachedIsParked(s.fleet, p);
    match Cached(s.fleet, p)
    case Some(c) =>
      var u := s.(fleet := Unpark(s.fleet, c));
      ParkLeaves(u, w);
      EvictKeepsActive(Park(u, w), w);
      AssignSameLists(EvictOldest(Park(u, w)).fleet, c, p);
    case None =>
      ParkLeaves(s, w);
      ParkLists(s, w);
      EvictKeepsActive(Park(s, w), w);
      EvictNext(Park(s, w));
      var e := EvictOldest(Park(s, w));
      AssignSameLists(Create(Churn(e.fleet)), e.fleet.next, p);
  }

  lemma {:induction false} EvictNext(s: Pool)
    ensures EvictOldest(s).fleet.next == s.fleet.next
    decreases |s.fleet.parked|
  {
    if |s.fleet.parked| > s.config.maxWorkers - s.config.maxConcurrent && s.fleet.parked != [] {
      EvictShrinks(s);
      EvictNext(EvictParked(s, s.fleet.parked[0]));
    }
  }

  // ---- what this means -------------------------------------------------------------------------------------------

  // A worker that comes back untainted, while no project of another is neglected, takes the oldest request of its
  // own project if there is one; workers parked, active, and ever created stay as they are.
  lemma OwnProjectFirst(s: Pool, w: Worker, p: Project)
    requires Inv(s) && Busy(s, w) && w !in s.fleet.tainted && !s.draining && !s.blocked
    requires s.fleet.ProjectOf(w) == Some(p) && p in s.queue.order
    requires forall q :: q in s.queue.order && q != p ==> s.fleet.Covered(q)
    ensures p in s.queue.lists && s.queue.lists[p] != []
    ensures var t := ScheduleStep(s, w).0;
            && Adds(s, t, w, s.queue.lists[p][0])
            && t.fleet.parked == s.fleet.parked && t.fleet.active == s.fleet.active && t.fleet.next == s.fleet.next
  {
    assert forall q :: !Neglected(s, w, q);
    assert NextFor(s, w, p);
    hide Inv, ScheduleStep, NextFor;
    AcceptedServes(s, w, p);
  }

  // An unbound worker takes the oldest request of the first project, if none is neglected.
  lemma FirstInRotation(s: Pool, w: Worker)
    requires Inv(s) && Busy(s, w) && w !in s.fleet.tainted && !s.draining && !s.blocked
    requires s.fleet.ProjectOf(w) == None && s.queue.order != []
    requires forall q :: q in s.queue.order ==> s.fleet.Covered(q)
    ensures var p := s.queue.order[0]; p in s.queue.lists && s.queue.lists[p] != []
    ensures var t := ScheduleStep(s, w).0;
            && Adds(s, t, w, s.queue.lists[s.queue.order[0]][0])
            && t.fleet.parked == s.fleet.parked && t.fleet.active == s.fleet.active && t.fleet.next == s.fleet.next
  {
    assert forall q :: !Neglected(s, w, q);
    assert NextFor(s, w, s.queue.order[0]);
    hide Inv, ScheduleStep, NextFor;
    AcceptedServes(s, w, s.queue.order[0]);
  }

  // The first request that a step starts is the one that its first pass has chosen; a request that does not fail
  // at once is also the last.
  lemma PassDecides(s: Pool, w: Worker, n: Worker, r: Request)
    requires Inv(s) && Busy(s, w) && Adds(s, ScheduleStep(s, w).0, n, r) && w !in s.fleet.tainted
    ensures var t := Schedule(s, w);
            && |t.queue.started| > |s.queue.started|
            && t.queue.started[|s.queue.started|].worker == n && t.queue.started[|s.queue.started|].request == r
            && (!r.failsAtStart ==> t == ScheduleStep(s, w).0)
  {
    var (t, next) := ScheduleStep(s, w);
    ScheduleStepInv(s, w);
    OnlyFailuresGoOn(s, w, n, r);
    hide Inv, ScheduleStep, Busy;
    if next.Some? {
      ScheduleInv(t, next.value);
    }
  }

  lemma OnlyFailuresGoOn(s: Pool, w: Worker, n: Worker, r: Request)
    requires Adds(s, ScheduleStep(s, w).0, n, r) && w !in s.fleet.tainted
    ensures ScheduleStep(s, w).1.Some? ==> r.failsAtStart
  {
    var d := s.(fleet := SetSurplusTimer(s.fleet, w, false));
    hide Target, Claim, SurplusStep, SetSurplusTimer, Skipped;
    assert d.fleet.tainted == s.fleet.tainted by { TaintUntimed(s.fleet, w); }
    if ScheduleStep(s, w).1.Some? {
      var p := Target(d, w).value;
      var (c, m) := Claim(d, w, p);
      ClaimKeepsLog(d, w, p);
      DequeueKeepsLog(c.queue, c.fleet.ProjectOf(m), Skipped(d, p));
      hide DequeueFor;
    }
  }

  lemma TaintUntimed(f: Fleet, w: Worker)
    ensures SetSurplusTimer(f, w, false).tainted == f.tainted
  {
  }

  // Whenever a worker comes back untainted to a pool with something queued, the first request started is the
  // oldest of the project that is next; it runs on this worker if that may run it.
  lemma FinishServes(c: Config, es: seq<Event>, w: Worker, p: Project)
    requires c.Valid() && Admissible(Initial(c), es + [Finish(w, false)])
    requires var s := Run(Initial(c), es);
             w in s.fleet.active && w !in s.fleet.tainted && !s.draining && !s.blocked && NextFor(s, w, p)
    ensures var s := Run(Initial(c), es); p in s.queue.lists && s.queue.lists[p] != []
    ensures var s := Run(Initial(c), es);
            var t := Step(s, Finish(w, false));
            var n := |s.queue.started|;
            var r := s.queue.lists[p][0];
            && (s.fleet.Accepts(w, p) ==>
                  && |t.queue.started| > n && t.queue.started[n].worker == w && t.queue.started[n].request == r
                  && (!r.failsAtStart ==> t.fleet.parked == s.fleet.parked && t.fleet.active == s.fleet.active))
            && (!s.fleet.Accepts(w, p) && !t.draining ==> |t.queue.started| > n && t.queue.started[n].request == r)
  {
    hide Run, Admissible, Initial, Reachable, ScheduleStep, Schedule, NextFor, Inv, Busy;
    var s := Run(Initial(c), es);
    RunAppend(Initial(c), es, [Finish(w, false)]);
    Reached(c, es);
    OpenReached(s);
    HandedIn(s, w);
    BusyMeans(s, w);
    if s.fleet.Accepts(w, p) {
      AcceptedServes(s, w, p);
      PassDecides(s, w, w, s.queue.lists[p][0]);
    } else {
      ExchangedServes(s, w, p);
      StaysDrained(s, w);
      if !Step(s, Finish(w, false)).draining {
        var n :| Adds(s, ScheduleStep(s, w).0, n, s.queue.lists[p][0]);
        PassDecides(s, w, n, s.queue.lists[p][0]);
      }
    }
  }

  lemma OpenReached(s: Pool)
    ensures Reachable(s) ==> Inv(s) && Working(s)
  {
    hide Inv, Working, Rested;
  }

  lemma HandedIn(s: Pool, w: Worker)
    requires Admissible(s, [Finish(w, false)])
    ensures w !in s.fleet.idle && (w in s.fleet.active ==> Step(s, Finish(w, false)) == Schedule(s, w))
  {
    hide Schedule;
  }

  lemma StaysDrained(s: Pool, w: Worker)
    requires Inv(s) && Busy(s, w)
    ensures ScheduleStep(s, w).0.draining ==> Schedule(s, w).draining
  {
    hide Inv, ScheduleStep, Busy;
    ScheduleStepInv(s, w);
    var (t, next) := ScheduleStep(s, w);
    if next.Some? { ScheduleInv(t, next.value); }
  }
}
