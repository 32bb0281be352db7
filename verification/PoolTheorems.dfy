/** The promises of the worker pool, over every run from a fresh pool. */
module PoolTheorems {
  import opened Lists
  import opened PoolModel
  import opened PoolQueue
  import opened PoolFleet
  import opened PoolSteps
  import opened PoolHandlers
  import opened PoolRuns
  import opened PoolUses

  lemma Reached(c: Config, es: seq<Event>)
    requires c.Valid() && Admissible(Initial(c), es)
    ensures Reachable(Run(Initial(c), es)) && Run(Initial(c), es).config == c
  {
    InitialInv(c);
    hide Reachable, Step, Enabled, Inv, Binds, Settles;
    RunReachable(Initial(c), es);
  }

  // No idle worker coexists with queued work.
  lemma WorkConservation(c: Config, es: seq<Event>)
    requires c.Valid() && Admissible(Initial(c), es)
    ensures var s := Run(Initial(c), es); s.fleet.idle == [] || s.queue.order == []
  {
    Reached(c, es);
    hide Run, Inv, Rested;
  }

  // Active, parked and retired workers are disjoint, idle workers are active, and the sizes are kept.
  lemma PoolShape(c: Config, es: seq<Event>)
    requires c.Valid() && Admissible(Initial(c), es)
    ensures var s := Run(Initial(c), es);
            && NoDup(s.fleet.idle) && NoDup(s.fleet.active) && NoDup(s.fleet.parked)
            && (forall w :: w in s.fleet.idle ==> w in s.fleet.active)
            && (forall w :: w in s.fleet.parked ==> w !in s.fleet.active)
            && (forall w :: w in s.fleet.retired ==> w !in s.fleet.active && w !in s.fleet.parked)
            && (!s.draining ==> c.size <= |s.fleet.active|) && |s.fleet.active| <= c.maxConcurrent
            && |s.fleet.parked| <= c.maxWorkers - c.maxConcurrent
  {
    Reached(c, es);
    hide Run, Good, Isolated, Timed;
  }

  // A worker runs the requests of one project in its life, and no step ever asks it to do otherwise.
  lemma ProjectIsolation(c: Config, es: seq<Event>)
    requires c.Valid() && Admissible(Initial(c), es)
    ensures var s := Run(Initial(c), es);
            && !s.fleet.fault && !s.queue.fault
            && forall i, j :: 0 <= i < |s.queue.started| && 0 <= j < |s.queue.started|
                 && s.queue.started[i].worker == s.queue.started[j].worker
                 ==> s.queue.started[i].request.project == s.queue.started[j].request.project
  {
    Reached(c, es);
    hide Run, Accounted, Ordered, Bounded, Total, Timed;
  }

  // A project is written to a worker at most once.
  lemma BindingIsFinal(c: Config, es: seq<Event>, more: seq<Event>, w: Worker)
    requires c.Valid() && Admissible(Initial(c), es + more)
    ensures var s := Run(Initial(c), es);
            var t := Run(Initial(c), es + more);
            w in s.fleet.meta && s.fleet.meta[w].project.Some? && w in t.fleet.meta
            ==> t.fleet.meta[w].project == s.fleet.meta[w].project
  {
    RunAppend(Initial(c), es, more);
    Reached(c, es);
    hide Run, Admissible, Initial;
    RunReachable(Run(Initial(c), es), more);
    hide Good, Isolated, Settles, Timed;
  }

  // Requests of one project start in the order they arrived, the fast path included.
  lemma ArrivalOrder(c: Config, es: seq<Event>)
    requires c.Valid() && Admissible(Initial(c), es)
    ensures var q := Run(Initial(c), es).queue;
            && (forall i, j :: 0 <= i < j < |q.started| && q.started[i].request.project == q.started[j].request.project
                  ==> q.started[i].request.id < q.started[j].request.id)
            && (forall i, r :: 0 <= i < |q.started| && Waiting(q, r) && q.started[i].request.project == r.project
                  ==> q.started[i].request.id < r.id)
  {
    Reached(c, es);
    hide Run, Roster, Isolated, Timed, Consistent, Accounted, Bounded, Waiting;
  }

  // The rotation lists each queued project once, no list is empty, and the count is the total.
  lemma QueueConsistent(c: Config, es: seq<Event>)
    requires c.Valid() && Admissible(Initial(c), es)
    ensures var q := Run(Initial(c), es).queue;
            && NoDup(q.order) && (forall p :: p in q.order <==> p in q.lists)
            && (forall p :: p in q.lists ==> q.lists[p] != []) && q.count == Total(q.lists, q.order)
  {
    Reached(c, es);
    hide Run, Roster, Isolated, Timed, Ordered, Accounted, Bounded;
  }

  // Each arrived request is queued, started or answered; exactly the queued ones are in a list.
  lemma NoRequestIsLost(c: Config, es: seq<Event>)
    requires c.Valid() && Admissible(Initial(c), es)
    ensures var q := Run(Initial(c), es).queue;
            && (forall r :: Waiting(q, r) <==> r in q.fate && q.fate[r] == Queued)
            && (forall r :: (exists i :: 0 <= i < |q.started| && q.started[i].request == r)
                            <==> r in q.fate && q.fate[r] == Started)
  {
    Reached(c, es);
    hide Run, Roster, Isolated, Timed, Ordered, Consistent, Bounded, Waiting;
  }

  // What has been decided about a request is never decided again.
  lemma FateIsFinal(c: Config, es: seq<Event>, more: seq<Event>, r: Request)
    requires c.Valid() && Admissible(Initial(c), es + more)
    requires r in Run(Initial(c), es).queue.fate
    ensures var f := Run(Initial(c), es).queue.fate;
            var g := Run(Initial(c), es + more).queue.fate;
            r in g && (f[r] != Queued ==> g[r] == f[r])
  {
    RunAppend(Initial(c), es, more);
    Reached(c, es);
    hide Run, Admissible, Initial;
    RunReachable(Run(Initial(c), es), more);
    hide Inv, Binds;
  }

  // ---- bounded bypass ------------------------------------------------------------------------

  // Over the whole wait of a project at most as many decisions pass it over, while it has no worker,
  // as projects stood before it when it joined; its position accounts for each of them.
  lemma BoundedBypass(c: Config, es: seq<Event>, i: nat)
    requires c.Valid() && Admissible(Initial(c), es)
    requires i < |Run(Initial(c), es).queue.order|
    ensures var q := Run(Initial(c), es).queue;
            var p := q.order[i];
            p in q.waits && q.waits[p].bypassed + i <= q.waits[p].place
  {
    Reached(c, es);
    hide Run, Roster, Isolated, Timed, Ordered, Consistent, Accounted;
  }

  lemma {:induction false} RunNoBack(s: Pool, es: seq<Event>)
    requires Reachable(s) && Admissible(s, es)
    ensures NoBack(s.queue, Run(s, es).queue)
    decreases es
  {
    NoBackReflexive(s.queue);
    if es != [] {
      var t := Step(s, es[0]);
      StepReachable(s, es[0]);
      StepNoBack(s, es[0]);
      hide Reachable, Proceeds, Step, Enabled, NoBack;
      RunNoBack(t, es[1..]);
      NoBackTransitive(s.queue, t.queue, Run(t, es[1..]).queue);
    }
  }

  lemma StepNoBack(s: Pool, e: Event)
    requires Reachable(s) && Enabled(s, e)
    ensures NoBack(s.queue, Step(s, e).queue)
  {
    hide Inv, NoBack, Step, Free, Frees;
    StepUses(s, e);
  }

  // Whatever happens, a project one of whose requests keeps waiting never moves back in the rotation until one
  // of its requests is started.
  lemma NeverMovesBack(c: Config, es: seq<Event>, more: seq<Event>, r: Request)
    requires c.Valid() && Admissible(Initial(c), es + more)
    ensures var q := Run(Initial(c), es).queue;
            var t := Run(Initial(c), es + more).queue;
            Waiting(q, r) && Waiting(t, r) && !Served(q, t, r.project) ==>
              0 <= IndexOf(t.order, r.project) <= IndexOf(q.order, r.project)
  {
    RunAppend(Initial(c), es, more);
    Reached(c, es);
    Reached(c, es + more);
    hide Run, Admissible, IndexOf, Initial;
    RunNoBack(Run(Initial(c), es), more);
    var q, t := Run(Initial(c), es).queue, Run(Initial(c), es + more).queue;
    WaitingIsQueued(q, r);
    WaitingIsQueued(t, r);
    hide Reachable, Waiting, Served;
  }

  lemma WaitingIsQueued(q: Queue, r: Request)
    requires Good(q)
    ensures Waiting(q, r) ==> Undecided(q, r) && r.project in q.order
  {
    hide Ordered, Bounded, Total;
  }

  // A decision taken while `p` waits without a worker starts its oldest request, or moves it forward, unless the
  // retirement fail-safe stops the pool; then all its requests are answered.
  lemma DecisionAdvances(s: Pool, w: Worker, p: Project)
    requires Inv(s) && Busy(s, w) && w !in s.fleet.tainted && !s.draining && !s.blocked
    requires p in s.queue.order && !s.fleet.Covered(p)
    ensures var t := ScheduleStep(s, w).0;
            || (|t.queue.started| == |s.queue.started| + 1
                && t.queue.started[|s.queue.started|].request == s.queue.lists[p][0])
            || (p in t.queue.order && IndexOf(t.queue.order, p) == IndexOf(s.queue.order, p) - 1)
            || (t.draining && forall r :: r in s.queue.lists[p] ==> r in t.queue.fate && t.queue.fate[r] == Answered)
  {
    var d := s.(fleet := SetSurplusTimer(s.fleet, w, false));
    DisarmInv(s, w);
    UncoveredStays(s, w, p);
    OpenInv(d);
    TotalZero(d.queue);
    TargetFacts(d, w);
    assert d.queue.order != [];
    assert Target(d, w).Some?;
    var x := Target(d, w).value;
    TargetIsFirst(d, w, x);
    assert p != x ==> p in Skipped(d, x);
    assert s.queue.order[IndexOf(s.queue.order, p)] == p;
    ClaimInv(d, w, x);
    hide Inv, Evolves, SetSurplusTimer, Target, Skipped, Claim, IndexOf, Untimed, Good;
    var (c, n) := Claim(d, w, x);
    OpenInv(c);
    if c.queue == d.queue {
      ServeAdvances(c, n, x, Skipped(d, x), p);
    } else {
      ClaimKeepsLog(d, w, x);
      ClearedAreAnswered(d, c, p);
      ServeNothing(c, n, x, Skipped(d, x));
    }
  }

  lemma ClaimKeepsLog(s: Pool, w: Worker, p: Project)
    ensures Claim(s, w, p).0.queue.started == s.queue.started
  {
    SwitchUses(s, w, p);
    hide SwitchSlot, Uses;
  }

  // When the fail-safe has emptied the queue, what was queued has been answered.
  lemma ClearedAreAnswered(s: Pool, c: Pool, p: Project)
    requires Inv(s) && Inv(c) && Evolves(s, c) && p in s.queue.order
    requires c.queue.lists == map[] && c.queue.started == s.queue.started
    ensures p in s.queue.lists && forall r :: r in s.queue.lists[p] ==> r in c.queue.fate && c.queue.fate[r] == Answered
  {
    hide Roster, Isolated, Timed, Ordered, Bounded, Binds;
    forall r | r in s.queue.lists[p] ensures r in c.queue.fate && c.queue.fate[r] == Answered {
      assert Waiting(s.queue, r) && !Waiting(c.queue, r);
    }
  }

  lemma ServeNothing(s: Pool, w: Worker, p: Project, skipped: set<Project>)
    requires s.queue.lists == map[] && s.fleet.ProjectOf(w) == Some(p)
    ensures ServeStep(s, w, skipped).0.queue == s.queue && ServeStep(s, w, skipped).0.draining == s.draining
  {
  }

  lemma UncoveredStays(s: Pool, w: Worker, p: Project)
    requires Inv(s)
    ensures s.(fleet := SetSurplusTimer(s.fleet, w, false)).fleet.Covered(p) <==> s.fleet.Covered(p)
  {
    var f := s.fleet;
    var g := SetSurplusTimer(f, w, false);
    assert forall x :: f.ProjectOf(x) == g.ProjectOf(x);
  }

  lemma ServeAdvances(s: Pool, w: Worker, x: Project, skipped: set<Project>, p: Project)
    requires Good(s.queue) && x in s.queue.lists && p in s.queue.order && s.fleet.ProjectOf(w) == Some(x)
    requires p != x ==> IndexOf(s.queue.order, x) < IndexOf(s.queue.order, p)
    ensures var t := ServeStep(s, w, skipped).0;
            || (|t.queue.started| == |s.queue.started| + 1
                && t.queue.started[|s.queue.started|].request == s.queue.lists[p][0])
            || (p in t.queue.order && IndexOf(t.queue.order, p) == IndexOf(s.queue.order, p) - 1)
  {
    TotalZero(s.queue);
    assert s.queue.lists[x] != [] && s.queue.count > 0;
    if p != x { MovesForward(s.queue.order, x, p); }
    AdvanceOrder(s.queue, x, skipped);
    hide Good, Consistent, Without, IndexOf, Assign, Advance, Total;
  }

  lemma AdvanceOrder(q: Queue, x: Project, skipped: set<Project>)
    requires x in q.lists && q.lists[x] != [] && q.count > 0
    ensures var t := Advance(q, x, skipped);
            t.started == q.started && (t.order == Without(q.order, x) || t.order == Without(q.order, x) + [x])
  {
    hide Without, Bypass;
  }

  lemma MovesForward(order: seq<Project>, x: Project, p: Project)
    requires NoDup(order) && x in order && p in order && IndexOf(order, x) < IndexOf(order, p)
    ensures var others := Without(order, x);
            && p in others && IndexOf(others, p) == IndexOf(order, p) - 1
            && IndexOf(others + [x], p) == IndexOf(order, p) - 1
  {
    var others := Without(order, x);
    WithoutMembers(order, x);
    var i := IndexOf(order, p) - 1;
    WithoutAt(order, x, i);
    hide Without;
    FirstIsOnly(others, p);
    assert NoDup(others + [x]);
    assert (others + [x])[i] == p;
    FirstIsOnly(others + [x], p);
  }

  lemma FirstIsOnly(xs: seq<Project>, p: Project)
    requires NoDup(xs)
    ensures forall i :: 0 <= i < |xs| && xs[i] == p ==> IndexOf(xs, p) == i
  {
  }

  // ---- burst shrink --------------------------------------------------------------------------

  // A pool above its warm size has a surplus timer running on every idle worker, and is never below it.
  lemma SurplusIsTimed(c: Config, es: seq<Event>)
    requires c.Valid() && Admissible(Initial(c), es)
    ensures var s := Run(Initial(c), es);
            !s.draining ==>
              && |s.fleet.active| >= c.size
              && (|s.fleet.active| > c.size ==>
                    forall w :: w in s.fleet.idle ==> w in s.fleet.meta && s.fleet.meta[w].surplusTimer)
  {
    Reached(c, es);
    hide Run, Good, Isolated, Roster;
  }

  function Timers(ws: seq<Worker>): seq<Event> {
    if ws == [] then [] else [SurplusTimer(ws[0])] + Timers(ws[1..])
  }

  // The surplus workers that would retire are more than the retirement fail-safe allows.
  predicate Overflows(s: Pool) {
    |s.fleet.active| > s.config.size && |s.fleet.retired| + |s.fleet.active| - s.config.size > s.config.maxRetired
  }

  // Every worker of one list is in the other, once.
  ghost predicate SameWorkers(xs: seq<Worker>, ys: seq<Worker>) {
    NoDup(xs) && NoDup(ys) && forall w :: w in xs <==> w in ys
  }

  lemma {:induction false} SameLength(xs: seq<Worker>, ys: seq<Worker>)
    requires SameWorkers(xs, ys)
    ensures |xs| == |ys|
    decreases |xs|
  {
    hide Without;
    if xs == [] {
      HasMember(ys);
    } else {
      var w := xs[0];
      assert w in xs;
      WithoutMembers(xs, w);
      WithoutMembers(ys, w);
      SameLength(Without(xs, w), Without(ys, w));
    }
  }

  // Once work has stopped, the timers, in whatever order they fire, bring the pool back to exactly its warm
  // size, unless so many workers are surplus that their retirement trips the fail-safe; then, and only then,
  // it stops the pool.
  lemma BurstShrinks(c: Config, es: seq<Event>, ws: seq<Worker>)
    requires c.Valid() && Admissible(Initial(c), es)
    requires var s := Run(Initial(c), es);
             !s.draining && s.queue.order == [] && |s.fleet.idle| == |s.fleet.active| && SameWorkers(ws, s.fleet.idle)
    ensures var s := Run(Initial(c), es);
            var t := Run(s, Timers(ws));
            && (t.draining <==> Overflows(s))
            && (!Overflows(s) ==> |t.fleet.active| == c.size)
  {
    Reached(c, es);
    var s := Run(Initial(c), es);
    SameLength(ws, s.fleet.idle);
    hide Run, Overflows;
    OpenInv(s);
    ShrinkAll(s, ws);
  }

  // The timers of `ws`, every idle worker's included, leave only the warm size.
  lemma {:induction false} ShrinkAll(s: Pool, ws: seq<Worker>)
    requires Inv(s) && Working(s) && s.queue.order == []
    requires NoDup(ws) && forall w :: w in ws ==> w in s.fleet.idle
    requires s.draining || |s.fleet.active| <= s.config.size + |ws|
    ensures var t := Run(s, Timers(ws));
            && (t.draining <==> s.draining || Overflows(s))
            && (t.draining || |t.fleet.active| == s.config.size)
    decreases ws
  {
    hide Inv, Step, Working, PoolModel.SurplusTimerFired, Run, Timers;
    if ws == [] {
      NoTimers(s);
      AtLeastWarm(s);
    } else {
      var w := ws[0];
      var t := Step(s, SurplusTimer(w));
      FirstTimer(s, ws);
      SurplusStepIs(s, w);
      ShrinkOne(s, w);
      SurplusRetires(s, w);
      assert forall x :: x in ws[1..] ==> x in ws && x != w;
      ShrinkAll(t, ws[1..]);
    }
  }

  // What a firing timer retires, and when that trips the fail-safe.
  lemma SurplusRetires(s: Pool, w: Worker)
    requires Inv(s) && s.queue.order == [] && w in s.fleet.idle
    ensures var t := SurplusTimerFired(s, w);
            if s.draining || |s.fleet.active| <= s.config.size
            then t.draining == s.draining && t.fleet.retired == s.fleet.retired
            else |t.fleet.retired| == |s.fleet.retired| + 1 && t.draining == (|s.fleet.retired| + 1 > s.config.maxRetired)
  {
    OpenInv(s);
    TotalZero(s.queue);
    assert w in s.fleet.active && w in s.fleet.meta && w !in s.fleet.retired;
    assert s.HasSurplus() ==> s.fleet.meta[w].surplusTimer;
    hide Inv, Untimed, Good, Roster, Clear, Without;
  }

  lemma NoTimers(s: Pool)
    ensures Run(s, Timers([])) == s
  {
  }

  lemma AtLeastWarm(s: Pool)
    requires Inv(s)
    ensures s.draining || s.config.size <= |s.fleet.active|
  {
    hide Good, Isolated, Roster, Timed;
  }

  lemma FirstTimer(s: Pool, ws: seq<Worker>)
    requires ws != []
    ensures Run(s, Timers(ws)) == Run(Step(s, SurplusTimer(ws[0])), Timers(ws[1..]))
  {
    hide Step;
    assert Timers(ws)[0] == SurplusTimer(ws[0]) && Timers(ws)[1..] == Timers(ws[1..]);
  }

  lemma SurplusStepIs(s: Pool, w: Worker)
    ensures Step(s, SurplusTimer(w)) == SurplusTimerFired(s, w)
  {
  }

  lemma ShrinkOne(s: Pool, w: Worker)
    requires Inv(s) && Working(s) && s.queue.order == [] && w in s.fleet.idle
    ensures var t := SurplusTimerFired(s, w);
            && Inv(t) && Working(t) && t.queue.order == [] && t.config == s.config && (s.draining ==> t.draining)
            && (forall x :: x in s.fleet.idle && x != w ==> x in t.fleet.idle)
            && (!s.draining ==>
                  |t.fleet.active| == if |s.fleet.active| > s.config.size then |s.fleet.active| - 1 else |s.fleet.active|)
  {
    OpenInv(s);
    TotalZero(s.queue);
    SameIdle(s.fleet, w);
    assert s.HasSurplus() <==> !s.draining && |s.fleet.active| > s.config.size;
    assert w in s.fleet.active && w in s.fleet.meta;
    assert s.HasSurplus() ==> s.fleet.meta[w].surplusTimer;
    hide Inv, Untimed, Good, Roster, RetireSurplus, SetSurplusTimer;
    if s.HasSurplus() { FireSurplus(s, w); } else { DisarmSpare(s, w); }
  }

  // ---- admission -----------------------------------------------------------------------------

  // While admission is blocked nothing is queued; no worker is parked then, nor if parking is disabled.
  lemma BlockedPoolIsQuiet(c: Config, es: seq<Event>)
    requires c.Valid() && Admissible(Initial(c), es)
    ensures var s := Run(Initial(c), es);
            !(s.blocked && s.recovering) && (s.blocked ==> s.queue.order == [])
            && (s.blocked || c.parkedIdleMs == 0 ==> s.fleet.parked == [])
  {
    Reached(c, es);
    hide Run, Good, Isolated, Roster, Timed;
  }
}
