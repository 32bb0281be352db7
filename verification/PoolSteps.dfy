/** One pass of the scheduler keeps the pool's invariant. */
module PoolSteps {
  import opened Lists
  import opened PoolModel
  import opened PoolQueue
  import opened PoolFleet

  ghost predicate Gated(s: Pool) {
    && s.config.Valid()
    && (s.draining || s.blocked ==> s.queue.order == [])
    && !(s.blocked && s.recovering)
  }

  ghost predicate Sized(s: Pool) {
    && |s.fleet.active| <= s.config.maxConcurrent
    && (!s.draining ==> s.config.size <= |s.fleet.active|)
    && |s.fleet.parked| <= s.config.maxWorkers - s.config.maxConcurrent
  }

  // A pool grown past its warm size has a surplus timer running on each idle worker.
  ghost predicate Timed(s: Pool) {
    !s.draining && |s.fleet.active| > s.config.size ==>
      forall w :: w in s.fleet.idle ==> w in s.fleet.meta && s.fleet.meta[w].surplusTimer
  }

  // Everything a worker has started belongs to its project.
  ghost predicate Isolated(q: Queue, f: Fleet) {
    && (forall i :: 0 <= i < |q.started| ==> q.started[i].worker < f.next)
    && (forall i :: 0 <= i < |q.started| && q.started[i].worker in f.meta
          ==> f.meta[q.started[i].worker].project == Some(q.started[i].request.project))
    && (forall i, j :: 0 <= i < |q.started| && 0 <= j < |q.started| && q.started[i].worker == q.started[j].worker
          ==> q.started[i].request.project == q.started[j].request.project)
  }

  ghost predicate Untimed(s: Pool) {
    Gated(s) && Good(s.queue) && Roster(s.fleet, {}) && Sized(s) && Isolated(s.queue, s.fleet)
  }

  ghost predicate Inv(s: Pool) {
    Untimed(s) && Timed(s)
  }

  lemma OpenInv(s: Pool)
    ensures Inv(s) <==> Untimed(s) && Timed(s)
    ensures Untimed(s) ==> Roster(s.fleet, {}) && Good(s.queue) && Gated(s) && Sized(s)
  {
    hide Roster, Good, Gated, Sized, Isolated, Timed;
  }

  // ---- what a step changes -------------------------------------------------------------------

  // A decided request keeps its fate, and the log of started requests only grows.
  ghost predicate Settles(q: Queue, t: Queue) {
    && q.started <= t.started && q.arrivals <= t.arrivals
    && (forall r :: r in q.fate ==> r in t.fate && (q.fate[r] != Queued ==> t.fate[r] == q.fate[r]))
  }

  // `u` is `s` with other workers, or that with the queue cleared by the retirement fail-safe.
  ghost predicate Halts(s: Pool, u: Pool) {
    && u.config == s.config && u.blocked == s.blocked && u.recovering == s.recovering
    && ((u.queue == s.queue && u.draining == s.draining) || (u.queue == Clear(s.queue) && u.draining))
  }

  ghost predicate Evolves(s: Pool, t: Pool) {
    && t.config == s.config && t.blocked == s.blocked && t.recovering == s.recovering
    && (s.draining ==> t.draining)
    && Binds(s.fleet, t.fleet) && Settles(s.queue, t.queue)
    && ((s.blocked || s.recovering || s.config.parkedIdleMs == 0) && s.fleet.parked == [] ==> t.fleet.parked == [])
  }

  // The scheduler adds to the idle workers only once nothing is queued.
  ghost predicate Feeds(s: Pool, t: Pool) {
    t.queue.order != [] ==> s.queue.order != [] && t.fleet.idle == s.fleet.idle
  }

  lemma EvolvesTransitive(s: Pool, t: Pool, u: Pool)
    requires Evolves(s, t) && Evolves(t, u)
    ensures Evolves(s, u)
  {
    BindsTransitive(s.fleet, t.fleet, u.fleet);
    hide Binds;
  }

  lemma ClearTwice(q: Queue)
    ensures Clear(Clear(q)) == Clear(q)
  {
    assert Clear(Clear(q)).fate == Clear(q).fate;
  }

  lemma HaltsTransitive(s: Pool, t: Pool, u: Pool)
    requires Halts(s, t) && Halts(t, u)
    ensures Halts(s, u)
  {
    ClearTwice(s.queue);
    hide Clear;
  }

  lemma HaltsGood(s: Pool, u: Pool)
    requires Halts(s, u) && Good(s.queue)
    ensures Good(u.queue) && Settles(s.queue, u.queue) && u.queue.started == s.queue.started
    ensures u.queue == s.queue || (u.draining && u.queue.order == [] && u.queue.lists == map[])
    ensures u.draining && !s.draining ==> u.queue.order == []
  {
    ClearGood(s.queue);
    hide Good;
  }

  lemma IsolatedStays(q: Queue, t: Queue, f: Fleet, g: Fleet)
    requires Isolated(q, f) && Binds(f, g) && t.started == q.started
    ensures Isolated(t, g)
  {
  }

  // Changing the workers, or clearing the queue as well, keeps the rest of the invariant.
  lemma WorkersChange(s: Pool, t: Pool)
    requires Inv(s) && Halts(s, t) && Roster(t.fleet, {}) && Binds(s.fleet, t.fleet) && Sized(t) && Timed(t)
    requires s.fleet.parked == [] ==> t.fleet.parked == []
    ensures Inv(t) && Evolves(s, t)
    ensures t.queue == s.queue || (t.draining && t.queue.order == [] && t.queue.lists == map[])
  {
    HaltsGood(s, t);
    IsolatedStays(s.queue, t.queue, s.fleet, t.fleet);
    hide Good, Roster, Binds, Isolated, Clear, Timed;
  }

  lemma TimedStays(s: Pool, t: Pool)
    requires Roster(s.fleet, {}) && Roster(t.fleet, {}) && Timed(s) && KeepsIdle(s.fleet, t.fleet)
    requires t.config == s.config && |t.fleet.active| <= |s.fleet.active| && (s.draining ==> t.draining)
    requires forall w :: w in t.fleet.idle ==> w in s.fleet.idle
    ensures Timed(t)
  {
  }

  // ---- retirement ----------------------------------------------------------------------------

  lemma DiscardFacts(s: Pool, w: Worker)
    requires w in s.fleet.active || w in s.fleet.parked
    ensures Discard(s, w).fleet == Remove(s.fleet, w) && Halts(s, Discard(s, w))
  {
    hide Remove, Clear;
  }

  lemma RemoveSizes(f: Fleet, w: Worker)
    requires Roster(f, {})
    requires w in f.active || w in f.parked
    ensures var g := Remove(f, w);
            && |g.active| == |f.active| - (if w in f.active then 1 else 0)
            && |g.parked| <= |f.parked| && (w !in f.idle ==> g.idle == f.idle)
  {
  }

  // A worker in an execution slot that leaves without a replacement.
  lemma DiscardInv(s: Pool, w: Worker)
    requires Inv(s) && (w in s.fleet.active || w in s.fleet.parked)
    requires w in s.fleet.active ==> |s.fleet.active| > s.config.size || Discard(s, w).draining
    ensures var t := Discard(s, w);
            && Inv(t) && Evolves(s, t) && (w !in s.fleet.idle ==> t.fleet.idle == s.fleet.idle)
            && (t.queue.order != [] ==> t.queue == s.queue)
            && (forall x :: x in t.fleet.idle <==> x in s.fleet.idle && x != w)
            && |t.fleet.active| == |s.fleet.active| - (if w in s.fleet.active then 1 else 0)
  {
    hide Discard, Clear, Good, Isolated, Binds;
    var t := Discard(s, w);
    DiscardFacts(s, w);
    RemoveRoster(s.fleet, {}, w);
    RemoveSizes(s.fleet, w);
    TimedStays(s, t);
    WorkersChange(s, t);
  }

  lemma ReplaceInv(s: Pool, w: Worker)
    requires Inv(s) && w in s.fleet.active && !Discard(s, w).draining
    ensures var u := Discard(s, w);
            var t := u.(fleet := Spawn(u.fleet));
            && Inv(t) && Evolves(s, t)
            && u.fleet.next in t.fleet.active && u.fleet.next !in t.fleet.idle
            && (w !in s.fleet.idle ==> t.fleet.idle == s.fleet.idle)
            && t.queue == s.queue
  {
    hide Discard, Clear, Remove, Spawn, Good, Isolated, Binds;
    var u := Discard(s, w);
    var t := u.(fleet := Spawn(u.fleet));
    DiscardFacts(s, w);
    RemoveRoster(s.fleet, {}, w);
    RemoveSizes(s.fleet, w);
    SpawnRoster(u.fleet);
    BindsTransitive(s.fleet, u.fleet, t.fleet);
    TimedStays(s, t);
    WorkersChange(s, t);
  }

  lemma RetireStepInv(s: Pool, w: Worker)
    requires Inv(s)
    ensures var (t, next) := RetireStep(s, w);
            && Inv(t) && Evolves(s, t)
            && (next.Some? ==> next.value in t.fleet.active && next.value !in t.fleet.idle)
            && (w !in s.fleet.idle ==> Feeds(s, t))
            && (t.queue.order != [] ==> t.queue == s.queue)
  {
    hide Inv, Evolves, Discard, Spawn;
    if w in s.fleet.active && !Discard(s, w).draining {
      ReplaceInv(s, w);
    } else if w in s.fleet.active || w in s.fleet.parked {
      DiscardInv(s, w);
    } else {
      EvolvesReflexive(s);
      assert Discard(s, w) == s by { RetireNothing(s, w); }
    }
  }

  lemma RetireNothing(s: Pool, w: Worker)
    requires w !in s.fleet.active && w !in s.fleet.parked
    ensures Discard(s, w) == s
  {
  }

  lemma EvolvesReflexive(s: Pool)
    ensures Evolves(s, s)
  {
  }

  // ---- project slots -------------------------------------------------------------------------

  // `u` is `s` with the workers of `g` kept in order: nobody but `w` has left the idle list.
  ghost predicate Moves(s: Pool, u: Pool, hand: set<Worker>) {
    && Halts(s, u) && Roster(u.fleet, hand) && Binds(s.fleet, u.fleet) && KeepsIdle(s.fleet, u.fleet)
    && u.fleet.tainted <= s.fleet.tainted
  }

  lemma MovesTransitive(s: Pool, t: Pool, u: Pool, handS: set<Worker>, handT: set<Worker>, handU: set<Worker>)
    requires Roster(s.fleet, handS) && Moves(s, t, handT) && Moves(t, u, handU)
    requires forall w :: w in u.fleet.idle ==> w in t.fleet.idle
    requires forall w :: w in t.fleet.idle ==> w in s.fleet.idle
    ensures Moves(s, u, handU)
  {
    HaltsTransitive(s, t, u);
    BindsTransitive(s.fleet, t.fleet, u.fleet);
    hide Halts, Binds;
  }

  lemma EvictFacts(s: Pool, hand: set<Worker>, w: Worker)
    requires Roster(s.fleet, hand) && w in s.fleet.parked && w !in s.fleet.idle
    ensures var u := EvictParked(s, w);
            && Moves(s, u, hand) && u.fleet.idle == s.fleet.idle && u.fleet.active == s.fleet.active
            && |u.fleet.parked| == |s.fleet.parked| - 1
  {
    DiscardFacts(s, w);
    RemoveRoster(s.fleet, hand, w);
    assert w !in s.fleet.active;
    RemoveParked(s.fleet, w);
    hide Discard, Remove, Roster, Binds, Clear;
  }

  lemma ParkFacts(s: Pool, hand: set<Worker>, w: Worker)
    requires Roster(s.fleet, hand) && w in s.fleet.active
    ensures var u := Park(s, w);
            && Moves(s, u, hand)
            && u.fleet.idle == Without(s.fleet.idle, w) && w !in u.fleet.idle
            && |u.fleet.active| == |s.fleet.active| - 1
            && |u.fleet.parked| <= |s.fleet.parked| + 1
            && (s.recovering || s.config.parkedIdleMs == 0 ==> |u.fleet.parked| <= |s.fleet.parked|)
  {
    ToParkedRoster(s.fleet, hand, w);
    WithoutMembers(s.fleet.idle, w);
    hide ToParked, SetSurplusTimer, EvictParked, Roster, Binds, KeepsIdle, Without, Clear;
    var t := s.(fleet := ToParked(SetSurplusTimer(s.fleet, w, false), w));
    assert Moves(s, t, hand);
    if s.config.parkedIdleMs == 0 || s.recovering {
      assert w in t.fleet.parked;
      EvictFacts(t, hand, w);
      MovesTransitive(s, t, EvictParked(t, w), hand, hand, hand);
    }
  }

  lemma RemoveParked(f: Fleet, w: Worker)
    requires w in f.parked && w !in f.active && w !in f.idle
    ensures var g := Remove(f, w);
            g.idle == f.idle && g.active == f.active && |g.parked| == |f.parked| - 1
  {
  }

  lemma EvictOldestFacts(s: Pool, hand: set<Worker>)
    requires Roster(s.fleet, hand)
    requires s.config.Valid()
    ensures var u := EvictOldest(s);
            && Moves(s, u, hand)
            && u.fleet.idle == s.fleet.idle && u.fleet.active == s.fleet.active
            && |u.fleet.parked| <= |s.fleet.parked|
            && |u.fleet.parked| <= s.config.maxWorkers - s.config.maxConcurrent
    decreases |s.fleet.parked|
  {
    hide EvictParked, Moves, Roster, Remove, Without;
    if |s.fleet.parked| > s.config.maxWorkers - s.config.maxConcurrent {
      var w := s.fleet.parked[0];
      var t := EvictParked(s, w);
      ParkedNotIdle(s.fleet, hand, w);
      EvictFacts(s, hand, w);
      OpenMoves(s, t, hand);
      EvictOldestFacts(t, hand);
      MovesTransitive(s, t, EvictOldest(t), hand, hand, hand);
    } else {
      MovesReflexive(s, hand);
    }
  }

  lemma ParkedNotIdle(f: Fleet, hand: set<Worker>, w: Worker)
    requires Roster(f, hand) && w in f.parked
    ensures w !in f.idle && w !in f.active
  {
  }

  lemma MovesReflexive(s: Pool, hand: set<Worker>)
    requires Roster(s.fleet, hand)
    ensures Moves(s, s, hand)
  {
    hide Roster;
  }

  lemma OpenMoves(s: Pool, u: Pool, hand: set<Worker>)
    ensures Moves(s, u, hand) ==> Roster(u.fleet, hand) && u.config == s.config && u.recovering == s.recovering
    ensures Moves(s, u, hand) ==> u.fleet.tainted <= s.fleet.tainted
    ensures Moves(s, u, hand) ==> Halts(s, u) && Binds(s.fleet, u.fleet) && KeepsIdle(s.fleet, u.fleet)
  {
    hide Roster, Binds, KeepsIdle, Clear;
  }

  // The replacement runs project `p`, and the pool is as full as before.
  ghost predicate Switched(s: Pool, w: Worker, p: Project, t: Pool, n: Worker) {
    && Moves(s, t, {})
    && t.fleet.idle == Without(s.fleet.idle, w) && w !in t.fleet.idle
    && n in t.fleet.active && n !in t.fleet.idle && t.fleet.ProjectOf(n) == Some(p) && n !in t.fleet.tainted
    && |t.fleet.active| == |s.fleet.active|
    && |t.fleet.parked| <= s.config.maxWorkers - s.config.maxConcurrent
    && ((s.recovering || s.config.parkedIdleMs == 0) && s.fleet.parked == [] ==> t.fleet.parked == [])
  }

  lemma NotLeft(f: Fleet, w: Worker)
    requires Roster(f, {})
    ensures w !in Without(f.idle, w)
  {
    WithoutMembers(f.idle, w);
    hide Without;
  }

  lemma JoinedRoster(s: Fleet, f: Fleet, n: Worker, p: Project)
    requires Roster(f, {n}) && Binds(s, f) && KeepsIdle(s, f) && f.Accepts(n, p) && n !in f.tainted
    ensures var g := Activate(Assign(f, n, p), n);
            && Roster(g, {}) && Binds(s, g) && KeepsIdle(s, g) && g.ProjectOf(n) == Some(p) && g.tainted == f.tainted
            && g.idle == f.idle && n in g.active && n !in g.idle && |g.active| == |f.active| + 1 && g.parked == f.parked
  {
    AssignRoster(f, {n}, n, p);
    ActivateRoster(Assign(f, n, p), n);
    hide Binds;
    BindsTransitive(s, f, Assign(f, n, p));
    BindsTransitive(s, Assign(f, n, p), Activate(Assign(f, n, p), n));
  }

  lemma JoinSlot(s: Pool, e: Pool, f: Fleet, n: Worker, w: Worker, p: Project)
    requires Roster(s.fleet, {}) && w in s.fleet.active
    requires Halts(s, e) && Roster(f, {n}) && Binds(s.fleet, f) && KeepsIdle(s.fleet, f)
    requires f.tainted <= s.fleet.tainted && n !in f.tainted
    requires f.idle == Without(s.fleet.idle, w) && |f.active| == |s.fleet.active| - 1
    requires |f.parked| <= s.config.maxWorkers - s.config.maxConcurrent
    requires (s.recovering || s.config.parkedIdleMs == 0) && s.fleet.parked == [] ==> f.parked == []
    requires f.Accepts(n, p)
    ensures Switched(s, w, p, e.(fleet := Activate(Assign(f, n, p), n)), n)
  {
    hide Roster, Binds, Assign, Activate, Without, Clear, KeepsIdle;
    JoinedRoster(s.fleet, f, n, p);
    NotLeft(s.fleet, w);
  }

  // The cached worker in hand, its slot made free.
  lemma CachedInHand(s: Pool, w: Worker, c: Worker)
    requires Roster(s.fleet, {}) && w in s.fleet.active && s.config.Valid() && c in s.fleet.parked
    ensures var k := Park(s.(fleet := Unpark(s.fleet, c)), w);
            var e := EvictOldest(k);
            && Moves(s, e, {c}) && e.fleet.idle == Without(s.fleet.idle, w) && |e.fleet.active| == |s.fleet.active| - 1
            && |e.fleet.parked| <= s.config.maxWorkers - s.config.maxConcurrent
  {
    var u := s.(fleet := Unpark(s.fleet, c));
    UnparkRoster(s.fleet, c);
    var k := Park(u, w);
    ParkFacts(u, {c}, w);
    var e := EvictOldest(k);
    EvictOldestFacts(k, {c});
    assert Moves(s, u, {c});
    WithoutMembers(s.fleet.idle, w);
    hide Park, EvictOldest, Unpark, Roster, Halts, KeepsIdle, Binds, Without;
    MovesTransitive(u, k, e, {c}, {c}, {c});
    MovesTransitive(s, u, e, {}, {c}, {c});
  }

  lemma SwitchCached(s: Pool, w: Worker, p: Project, c: Worker)
    requires Roster(s.fleet, {}) && w in s.fleet.active && s.config.Valid() && Cached(s.fleet, p) == Some(c)
    ensures Switched(s, w, p, SwitchSlot(s, w, p).0, SwitchSlot(s, w, p).1)
  {
    var e := EvictOldest(Park(s.(fleet := Unpark(s.fleet, c)), w));
    assert c in s.fleet.parked && s.fleet.ProjectOf(c) == Some(p) && c !in s.fleet.tainted;
    CachedInHand(s, w, c);
    OpenMoves(s, e, {c});
    assert c in e.fleet.meta && c < s.fleet.next && c in s.fleet.meta;
    assert e.fleet.ProjectOf(c) == Some(p);
    hide Park, EvictOldest, Unpark, Roster, Halts, KeepsIdle, Without, Cached, Binds, Moves;
    JoinSlot(s, e, e.fleet, c, w, p);
  }

  lemma SwitchFresh(s: Pool, w: Worker, p: Project)
    requires Roster(s.fleet, {}) && w in s.fleet.active && s.config.Valid() && Cached(s.fleet, p) == None
    ensures Switched(s, w, p, SwitchSlot(s, w, p).0, SwitchSlot(s, w, p).1)
  {
    var k := Park(s, w);
    ParkFacts(s, {}, w);
    var e := EvictOldest(k);
    OpenMoves(s, k, {});
    EvictOldestFacts(k, {});
    WithoutMembers(s.fleet.idle, w);
    hide Park, EvictOldest, Halts, Without, Cached, Roster, Binds, Moves, KeepsIdle, Create;
    MovesTransitive(s, k, e, {}, {}, {});
    OpenMoves(s, e, {});
    var f := Create(Churn(e.fleet));
    FreshRoster(s.fleet, e.fleet);
    JoinSlot(s, e, f, e.fleet.next, w, p);
  }

  lemma FreshRoster(f: Fleet, g: Fleet)
    requires Roster(g, {}) && Binds(f, g) && KeepsIdle(f, g)
    ensures var h := Create(Churn(g));
            && Roster(h, {g.next}) && Binds(f, h) && KeepsIdle(f, h) && h.idle == g.idle && h.active == g.active
            && h.parked == g.parked && h.ProjectOf(g.next) == None && h.tainted == g.tainted - {g.next}
  {
    CreateRoster(Churn(g));
  }

  // ---- one pass of the scheduler -------------------------------------------------------------

  ghost predicate Busy(s: Pool, w: Worker) {
    w in s.fleet.active && w !in s.fleet.idle
  }

  lemma DisarmInv(s: Pool, w: Worker)
    requires Inv(s) && w !in s.fleet.idle
    ensures var d := s.(fleet := SetSurplusTimer(s.fleet, w, false));
            Inv(d) && Evolves(s, d) && d.queue == s.queue && d.draining == s.draining && d.fleet.idle == s.fleet.idle
            && d.fleet.active == s.fleet.active && d.fleet.tainted == s.fleet.tainted
  {
    var d := s.(fleet := SetSurplusTimer(s.fleet, w, false));
    TimerRoster(s.fleet, {}, w, false);
    TimedStays(s, d);
    WorkersChange(s, d);
    hide Inv, Evolves;
  }

  // With nothing queued, a worker that is not surplus joins the idle list.
  lemma ToIdleInv(s: Pool, w: Worker)
    requires Inv(s) && Busy(s, w) && s.queue.order == [] && !s.HasSurplus()
    ensures var t := s.(fleet := ToIdle(s.fleet, w)); Inv(t) && Evolves(s, t)
  {
    var t := s.(fleet := ToIdle(s.fleet, w));
    ToIdleRoster(s.fleet, w);
    TotalZero(s.queue);
    hide Roster, Good, Isolated, Clear;
    assert Binds(s.fleet, t.fleet);
    assert Timed(t);
    WorkersChange(s, t);
  }

  lemma SurplusStepInv(s: Pool, w: Worker)
    requires Inv(s) && Busy(s, w) && s.HasSurplus()
    ensures Inv(SurplusStep(s, w)) && Evolves(s, SurplusStep(s, w)) && SurplusStep(s, w).queue.order == []
  {
    TotalZero(s.queue);
    if s.blocked || s.recovering {
      RetireSurplusInv(s, w);
      hide Roster, Good, Isolated, RetireSurplus, Binds, Settles;
    } else {
      IdleWithTimer(s, w);
    }
  }

  lemma IdleWithTimer(s: Pool, w: Worker)
    requires Inv(s) && Busy(s, w) && s.HasSurplus() && !s.blocked && !s.recovering
    ensures Inv(SurplusStep(s, w)) && Evolves(s, SurplusStep(s, w))
  {
    hide Good, Isolated, Clear;
    ToIdleRoster(s.fleet, w);
    TimerRoster(ToIdle(s.fleet, w), {}, w, true);
    var t := SurplusStep(s, w);
    assert Binds(s.fleet, t.fleet);
    assert Timed(t);
    hide Roster, ToIdle, SetSurplusTimer;
    WorkersChange(s, t);
  }

  lemma RetireSurplusInv(s: Pool, w: Worker)
    requires Inv(s) && w in s.fleet.active && |s.fleet.active| > s.config.size
    ensures var t := RetireSurplus(s, w);
            && Inv(t) && Evolves(s, t) && (t.queue.order != [] ==> t.queue == s.queue)
            && |t.fleet.active| == |s.fleet.active| - 1
            && (forall x :: x in t.fleet.idle <==> x in s.fleet.idle && x != w)
  {
    DiscardInv(s, w);
    ChurnInv(Discard(s, w));
    EvolvesTransitive(s, Discard(s, w), RetireSurplus(s, w));
    hide Inv, Evolves, Discard;
  }

  lemma ChurnInv(s: Pool)
    requires Inv(s)
    ensures Inv(s.(fleet := Churn(s.fleet))) && Evolves(s, s.(fleet := Churn(s.fleet)))
  {
    hide Good;
  }

  lemma TargetFacts(s: Pool, w: Worker)
    requires Inv(s)
    ensures Target(s, w).None? ==> s.queue.order == []
    ensures Target(s, w).Some? ==> Target(s, w).value in s.queue.order && Target(s, w).value in s.queue.lists
  {
    hide Bounded, Ordered, Accounted, Total, Roster, Isolated, Timed;
  }

  // Every project without a worker stands behind the one that is chosen.
  lemma TargetIsFirst(s: Pool, w: Worker, p: Project)
    requires Target(s, w) == Some(p) && w in s.fleet.active && w !in s.fleet.tainted && p in s.queue.order
    ensures forall i :: 0 <= i < |s.queue.order| && s.queue.order[i] in Skipped(s, p) ==> IndexOf(s.queue.order, p) < i
  {
    hide IndexOf, FirstWhere;
    forall i | 0 <= i < |s.queue.order| && s.queue.order[i] in Skipped(s, p) ensures IndexOf(s.queue.order, p) < i {
      var x := s.queue.order[i];
      assert Some(x) != s.fleet.ProjectOf(w);
      var j := FirstWhere(s.queue.order, q => Some(q) != s.fleet.ProjectOf(w) && !s.fleet.Covered(q));
      assert 0 <= j <= i && s.queue.order[j] == p;
    }
  }

  // A claimed worker may serve `p`; the fail-safe may have emptied the queue meanwhile.
  ghost predicate Claimed(s: Pool, p: Project, c: Pool, n: Worker) {
    && Inv(c) && Evolves(s, c) && Busy(c, n) && c.fleet.ProjectOf(n) == Some(p) && c.fleet.idle == s.fleet.idle
    && (c.queue == s.queue || (c.draining && c.queue.order == [] && c.queue.lists == map[]))
  }

  lemma ClaimInv(s: Pool, w: Worker, p: Project)
    requires Inv(s) && Busy(s, w) && !s.blocked
    ensures Claimed(s, p, Claim(s, w, p).0, Claim(s, w, p).1)
  {
    var (c, n) := Claim(s, w, p);
    if s.fleet.Accepts(w, p) {
      AssignRoster(s.fleet, {}, w, p);
      hide Roster, Assign, Binds, Good, Isolated;
      TimedStays(s, c);
      WorkersChange(s, c);
    } else {
      hide Inv, Untimed, Claimed, SwitchSlot, Switched, Evolves;
      OpenInv(s);
      SwitchInv(s, w, p);
      ClaimSwitched(s, w, p, c, n);
    }
  }

  lemma SwitchFacts(s: Pool, w: Worker, p: Project)
    requires Roster(s.fleet, {}) && w in s.fleet.active && s.config.Valid()
    ensures Switched(s, w, p, SwitchSlot(s, w, p).0, SwitchSlot(s, w, p).1)
  {
    match Cached(s.fleet, p)
    case Some(c) => SwitchCached(s, w, p, c);
    case None => SwitchFresh(s, w, p);
  }

  lemma SwitchedUntimed(s: Pool, w: Worker, p: Project, t: Pool, n: Worker)
    requires Untimed(s) && Switched(s, w, p, t, n) && !s.blocked
    ensures Untimed(t) && Evolves(s, t)
    ensures t.queue == s.queue || (t.draining && t.queue.order == [] && t.queue.lists == map[])
  {
    hide Without, Good, Isolated, Roster, Binds, Clear, KeepsIdle;
    HaltsGood(s, t);
    IsolatedStays(s.queue, t.queue, s.fleet, t.fleet);
  }

  // Exchanging the slot of `w`, which leaves the idle list if it was on it.
  lemma SwitchInv(s: Pool, w: Worker, p: Project)
    requires Untimed(s) && w in s.fleet.active && !s.blocked
    ensures var (t, n) := SwitchSlot(s, w, p);
            && Untimed(t) && Evolves(s, t) && Switched(s, w, p, t, n)
            && (t.queue == s.queue || (t.draining && t.queue.order == [] && t.queue.lists == map[]))
  {
    hide Good, Isolated, Roster, SwitchSlot, Switched, Evolves;
    SwitchFacts(s, w, p);
    SwitchedUntimed(s, w, p, SwitchSlot(s, w, p).0, SwitchSlot(s, w, p).1);
  }

  lemma ClaimSwitched(s: Pool, w: Worker, p: Project, c: Pool, n: Worker)
    requires Inv(s) && Busy(s, w) && Switched(s, w, p, c, n) && Untimed(c) && Evolves(s, c)
    requires c.queue == s.queue || (c.draining && c.queue.order == [] && c.queue.lists == map[])
    ensures Claimed(s, p, c, n)
  {
    WithoutMembers(s.fleet.idle, w);
    hide Good, Isolated, Binds, Clear, Evolves, Without;
    TimedStays(s, c);
  }

  lemma BeginIsolated(q: Queue, t: Queue, f: Fleet, g: Fleet, w: Worker, r: Request)
    requires Isolated(q, f) && Binds(f, g) && w in f.meta && w < f.next && f.Accepts(w, r.project)
    requires f.meta[w].project == Some(r.project)
    requires exists fit :: t.started == q.started + [Start(w, r, fit)]
    ensures Isolated(t, g)
  {
  }

  lemma BeginInv(s: Pool, t: Pool, w: Worker, r: Request)
    requires Inv(s) && Busy(s, w) && s.fleet.Accepts(w, r.project) && !s.draining && !s.blocked
    requires t == s.(fleet := Assign(s.fleet, w, r.project), queue := t.queue)
    requires Good(t.queue) && Settles(s.queue, t.queue) && t.queue.started == s.queue.started + [Start(w, r, s.fleet.Fit(w))]
    ensures Inv(t) && Evolves(s, t) && Busy(t, w) && t.fleet.idle == s.fleet.idle
  {
    hide Good, Assign, Settles, Binds, Isolated;
    AssignRoster(s.fleet, {}, w, r.project);
    assert w in t.fleet.meta && w < t.fleet.next && t.fleet.meta[w].project == Some(r.project);
    TimedStays(s, t);
    IsolatedStays(s.queue, s.queue, s.fleet, t.fleet);
    BeginIsolated(s.queue, t.queue, t.fleet, t.fleet, w, r);
  }

  lemma ServeSettles(q: Queue, p: Project, skipped: set<Project>, w: Worker, fit: bool)
    requires p in q.lists && q.lists[p] != [] && q.count > 0
    requires q.lists[p][0] in q.fate && q.fate[q.lists[p][0]] == Queued
    ensures var t := MarkStarted(Advance(q, p, skipped), w, q.lists[p][0], fit);
            Settles(q, t) && t.started == q.started + [Start(w, q.lists[p][0], fit)]
  {
  }

  lemma DrainedIsEmpty(s: Pool, p: Project)
    requires Inv(s) && s.draining
    ensures p !in s.queue.lists && s.queue.order == []
  {
    TotalZero(s.queue);
    hide Isolated, Roster, Timed, Accounted, Ordered, Bounded;
  }

  lemma OldestWaits(s: Pool, p: Project)
    requires Inv(s) && p in s.queue.lists
    ensures Good(s.queue) && s.queue.lists[p] != [] && s.queue.count > 0
    ensures var r := s.queue.lists[p][0];
            r.project == p && Waiting(s.queue, r) && r in s.queue.fate && s.queue.fate[r] == Queued
  {
    TotalZero(s.queue);
    assert Waiting(s.queue, s.queue.lists[p][0]);
    hide Isolated, Roster, Timed, Ordered, Bounded;
  }

  lemma ServeStepInv(s: Pool, w: Worker, p: Project, skipped: set<Project>)
    requires Inv(s) && Busy(s, w) && s.fleet.ProjectOf(w) == Some(p) && !s.blocked
    requires s.queue.order == [] ==> s.draining
    requires !s.draining ==>
               && p in s.queue.lists
               && forall i :: 0 <= i < |s.queue.order| && s.queue.order[i] in skipped ==> IndexOf(s.queue.order, p) < i
    ensures var (t, next) := ServeStep(s, w, skipped);
            && Inv(t) && Evolves(s, t)
            && (next.Some? ==> Busy(t, next.value)) && (t.queue.order != [] ==> t.fleet.idle == s.fleet.idle)
  {
    hide Inv, Evolves, Advance, Good, MarkStarted, Assign, IndexOf, Settles;
    if s.draining {
      DrainedIsEmpty(s, p);
      ToIdleInv(s, w);
    } else {
      OldestWaits(s, p);
      var r := s.queue.lists[p][0];
      ServeGood(s.queue, p, skipped, w, s.fleet.Fit(w));
      ServeSettles(s.queue, p, skipped, w, s.fleet.Fit(w));
      var t := Begin(s.(queue := Advance(s.queue, p, skipped)), w, r);
      BeginInv(s, t, w, r);
    }
  }

  lemma ScheduleStepInv(s: Pool, w: Worker)
    requires Inv(s) && Busy(s, w)
    ensures var (t, next) := ScheduleStep(s, w);
            Inv(t) && Evolves(s, t) && Feeds(s, t) && (next.Some? ==> Busy(t, next.value))
  {
    var d := s.(fleet := SetSurplusTimer(s.fleet, w, false));
    DisarmInv(s, w);
    var (t, next) := ScheduleStep(s, w);
    assert Busy(d, w);
    if w in d.fleet.tainted {
      RetireStepInv(d, w);
    } else if d.HasSurplus() {
      SurplusStepInv(d, w);
    } else if d.draining || d.blocked {
      assert d.queue.order == [];
      ToIdleInv(d, w);
    } else {
      TargetFacts(d, w);
      if Target(d, w).None? {
        ToIdleInv(d, w);
      } else {
        hide Inv, Evolves, SetSurplusTimer;
        TargetStepInv(d, w, Target(d, w).value);
      }
    }
    hide *;
    EvolvesTransitive(s, d, t);
  }

  lemma TargetStepInv(s: Pool, w: Worker, p: Project)
    requires Inv(s) && Busy(s, w) && !s.blocked && !s.draining && w !in s.fleet.tainted
    requires Target(s, w) == Some(p) && p in s.queue.order && p in s.queue.lists
    ensures var (c, n) := Claim(s, w, p);
            var (t, next) := ServeStep(c, n, Skipped(s, p));
            Inv(t) && Evolves(s, t) && Feeds(s, t) && (next.Some? ==> Busy(t, next.value))
  {
    hide Claim, ServeStep, Inv, Target, Skipped, IndexOf, Without;
    var (c, n) := Claim(s, w, p);
    ClaimInv(s, w, p);
    TargetIsFirst(s, w, p);
    assert c.config == s.config && c.blocked == s.blocked;
    hide Evolves;
    ServeStepInv(c, n, p, Skipped(s, p));
    EvolvesTransitive(s, c, ServeStep(c, n, Skipped(s, p)).0);
  }
}
