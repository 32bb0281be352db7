/**
 Which workers a step of the pool may put to work: only those that were free before it. And how it treats the
 projects that wait: none moves back before it is served.
 */
module PoolUses {
  import opened Lists
  import opened PoolModel
  import opened PoolQueue
  import opened PoolFleet
  import opened PoolSteps
  import opened PoolHandlers
  import opened PoolPreheat
  import opened PoolRuns

  // Idle, parked, in the hands of the step, or not yet created.
  ghost predicate Free(f: Fleet, hand: set<Worker>, w: Worker) {
    w >= f.next || w in f.idle || w in f.parked || w in hand
  }

  ghost predicate Frees(f: Fleet, hand: set<Worker>, g: Fleet, handG: set<Worker>) {
    f.next <= g.next && forall w :: Free(g, handG, w) ==> Free(f, hand, w)
  }

  // The start at place `i` was on a free worker; unless it failed at once, the worker is free no more.
  ghost predicate Engages(s: Pool, hand: set<Worker>, t: Pool, handT: set<Worker>, i: nat)
    requires i < |t.queue.started|
  {
    var b := t.queue.started[i];
    && Free(s.fleet, hand, b.worker)
    && (!b.request.failsAtStart ==>
          && !Free(t.fleet, handT, b.worker)
          && forall j :: i < j < |t.queue.started| ==> t.queue.started[j].worker != b.worker)
  }

  // Between two states a request of the project has been started.
  ghost predicate Served(q: Queue, t: Queue, p: Project) {
    exists i :: |q.started| <= i < |t.started| && t.started[i].request.project == p
  }

  ghost predicate Undecided(q: Queue, r: Request) {
    r in q.fate && q.fate[r] == Queued
  }

  // A project one of whose requests keeps waiting does not move back while none of them is started.
  ghost predicate NoBack(q: Queue, t: Queue) {
    && Settles(q, t)
    && forall r :: Undecided(q, r) && Undecided(t, r) && !Served(q, t, r.project) ==>
         IndexOf(t.order, r.project) <= IndexOf(q.order, r.project)
  }

  lemma ServedBetween(q: Queue, t: Queue, u: Queue, p: Project)
    requires q.started <= t.started <= u.started && (Served(q, t, p) || Served(t, u, p))
    ensures Served(q, u, p)
  {
    if Served(q, t, p) {
      var i :| |q.started| <= i < |t.started| && t.started[i].request.project == p;
      assert u.started[i] == t.started[i];
    }
  }

  lemma NoBackTransitive(q: Queue, t: Queue, u: Queue)
    requires NoBack(q, t) && NoBack(t, u)
    ensures NoBack(q, u)
  {
    hide IndexOf, Served;
    forall r | Undecided(q, r) && Undecided(u, r) && !Served(q, u, r.project)
      ensures IndexOf(u.order, r.project) <= IndexOf(q.order, r.project)
    {
      assert Undecided(t, r);
      assert !Served(q, t, r.project) && !Served(t, u, r.project) by {
        if Served(q, t, r.project) || Served(t, u, r.project) { ServedBetween(q, t, u, r.project); }
      }
    }
  }

  lemma NoBackReflexive(q: Queue)
    ensures NoBack(q, q)
  {
    hide IndexOf;
  }

  lemma ClearNoBack(q: Queue)
    ensures NoBack(q, Clear(q))
  {
    hide IndexOf;
  }

  // Nothing of the order changes, or a project leaves it, or moves behind all others.
  lemma WithoutIndex(order: seq<Project>, p: Project, x: Project)
    requires x != p
    ensures IndexOf(Without(order, p), x) <= IndexOf(order, x)
    ensures IndexOf(Without(order, p) + [p], x) <= IndexOf(order, x)
  {
    var others := Without(order, p);
    AppendIndex(others, p, x);
    if x in order {
      var k, i := IndexOf(order, p), IndexOf(order, x);
      if k < 0 {
      } else if i < k {
        assert others[i] == x;
        IndexIsFirst(others, x, i);
      } else {
        assert others[i - 1] == x;
        IndexIsFirst(others, x, i - 1);
      }
    } else if x in others {
      WithoutKeeps(order, p);
    }
  }

  lemma IndexIsFirst(xs: seq<Project>, x: Project, i: nat)
    requires i < |xs| && xs[i] == x
    ensures 0 <= IndexOf(xs, x) <= i
  {
    assert x in xs;
  }

  lemma AppendIndex(xs: seq<Project>, p: Project, x: Project)
    requires x != p || x in xs
    ensures IndexOf(xs + [p], x) == IndexOf(xs, x)
  {
    if x in xs {
      assert (xs + [p])[IndexOf(xs, x)] == x;
      IndexIsFirst(xs + [p], x, IndexOf(xs, x));
      assert IndexOf(xs + [p], x) < |xs| && xs[IndexOf(xs + [p], x)] == x;
      IndexIsFirst(xs, x, IndexOf(xs + [p], x));
    } else {
      assert x !in xs + [p];
    }
  }

  lemma AdvanceNoBack(s: Pool, p: Project, skipped: set<Project>, w: Worker, fit: bool)
    requires Inv(s) && p in s.queue.lists
    ensures s.queue.lists[p] != [] && s.queue.count > 0
    ensures NoBack(s.queue, MarkStarted(Advance(s.queue, p, skipped), w, s.queue.lists[p][0], fit))
  {
    OldestWaits(s, p);
    ServeSettles(s.queue, p, skipped, w, fit);
    var q, t := s.queue, MarkStarted(Advance(s.queue, p, skipped), w, s.queue.lists[p][0], fit);
    hide Inv, Good, IndexOf, Without, Bypass;
    forall r | Undecided(q, r) && Undecided(t, r) && !Served(q, t, r.project)
      ensures IndexOf(t.order, r.project) <= IndexOf(q.order, r.project)
    {
      assert t.started[|q.started|].request.project == p;
      WithoutIndex(q.order, p, r.project);
    }
  }

  lemma StartNoBack(q: Queue, w: Worker, r: Request, fit: bool)
    requires r !in q.fate
    ensures NoBack(q, MarkStarted(q, w, r, fit))
  {
    hide IndexOf;
  }

  lemma EnqueueNoBack(s: Pool, r: Request)
    requires Inv(s) && Fresh(s.queue, r)
    ensures NoBack(s.queue, Enqueue(s.queue, r))
  {
    var q, t := s.queue, Enqueue(s.queue, r);
    EnqueueSettles(q, r);
    OpenInv(s);
    WaitingInOrder(q);
    hide Inv, Good, IndexOf, Untimed;
    forall x | Undecided(q, x) && Undecided(t, x) && !Served(q, t, x.project)
      ensures IndexOf(t.order, x.project) <= IndexOf(q.order, x.project)
    {
      AppendIndex(q.order, r.project, x.project);
    }
  }

  lemma WaitingInOrder(q: Queue)
    requires Good(q)
    ensures forall r :: Undecided(q, r) ==> r.project in q.order
  {
    assert forall r :: Undecided(q, r) ==> Waiting(q, r);
    hide Ordered, Bounded, Total;
  }

  // Cancellations, invalidations, arrivals that are refused, and draining.
  lemma QueueEventNoBack(s: Pool, e: Event)
    requires Inv(s) && (e.Cancel? || e.Invalidate? || e.Drain? || e.TaintBusy? || e.RetirementDeadline?)
    ensures NoBack(s.queue, Step(s, e).queue)
  {
    OpenInv(s);
    ClearNoBack(s.queue);
    NoBackReflexive(s.queue);
    hide Inv, Good, IndexOf, Untimed, NoBack, Without;
    match e
    case Cancel(r) => CancelNoBack(s.queue, r);
    case Invalidate(p) => DropNoBack(s.queue, p);
    case _ =>
  }

  lemma CancelNoBack(q: Queue, r: Request)
    requires Good(q)
    ensures NoBack(q, CancelQueued(q, r))
  {
    CancelSettles(q, r);
    OrderOnce(q);
    WithoutMembers(q.order, r.project);
    hide Good, IndexOf, Without;
    var t := CancelQueued(q, r);
    forall x | Undecided(q, x) && Undecided(t, x) && !Served(q, t, x.project)
      ensures IndexOf(t.order, x.project) <= IndexOf(q.order, x.project)
    {
      if x.project != r.project { WithoutIndex(q.order, r.project, x.project); }
    }
  }

  lemma OrderOnce(q: Queue)
    requires Good(q)
    ensures NoDup(q.order)
  {
    hide Accounted, Ordered, Bounded;
  }

  lemma DropNoBack(q: Queue, p: Project)
    requires Good(q)
    ensures NoBack(q, DropProject(q, p))
  {
    DropSettles(q, p);
    OrderOnce(q);
    WithoutMembers(q.order, p);
    hide Good, IndexOf, Without;
    var t := DropProject(q, p);
    forall x | Undecided(q, x) && Undecided(t, x) && !Served(q, t, x.project)
      ensures IndexOf(t.order, x.project) <= IndexOf(q.order, x.project)
    {
      if x.project != p { WithoutIndex(q.order, p, x.project); }
    }
  }

  // From `s` to `t` no worker at work is put to work or set free; `hand` and `handT` are in hand before and after.
  ghost predicate Uses(s: Pool, hand: set<Worker>, t: Pool, handT: set<Worker>) {
    && Frees(s.fleet, hand, t.fleet, handT)
    && s.queue.started <= t.queue.started && NoBack(s.queue, t.queue)
    && forall i :: |s.queue.started| <= i < |t.queue.started| ==> Engages(s, hand, t, handT, i)
  }

  lemma FreesTransitive(f: Fleet, a: set<Worker>, g: Fleet, b: set<Worker>, h: Fleet, c: set<Worker>)
    requires Frees(f, a, g, b) && Frees(g, b, h, c)
    ensures Frees(f, a, h, c)
  {
    hide Free;
  }

  lemma UsesTransitive(s: Pool, a: set<Worker>, t: Pool, b: set<Worker>, u: Pool, c: set<Worker>)
    requires Uses(s, a, t, b) && Uses(t, b, u, c)
    ensures Uses(s, a, u, c)
  {
    FreesTransitive(s.fleet, a, t.fleet, b, u.fleet, c);
    NoBackTransitive(s.queue, t.queue, u.queue);
    hide Free, NoBack;
    forall i | |s.queue.started| <= i < |u.queue.started| ensures Engages(s, a, u, c, i) {
      if i < |t.queue.started| {
        assert Engages(s, a, t, b, i);
        assert u.queue.started[i] == t.queue.started[i];
        forall j | i < j < |u.queue.started| && !u.queue.started[i].request.failsAtStart
          ensures u.queue.started[j].worker != u.queue.started[i].worker
        {
          if j >= |t.queue.started| { assert Engages(t, b, u, c, j); }
        }
      } else {
        assert Engages(t, b, u, c, i);
      }
    }
  }

  // Nothing is started.
  lemma QuietUses(s: Pool, a: set<Worker>, t: Pool, b: set<Worker>)
    requires Frees(s.fleet, a, t.fleet, b) && (t.queue == s.queue || t.queue == Clear(s.queue))
    ensures Uses(s, a, t, b)
  {
    NoBackReflexive(s.queue);
    ClearNoBack(s.queue);
    hide Frees, NoBack;
  }

  function HandOf(next: Option<Worker>): set<Worker> {
    if next.Some? then {next.value} else {}
  }

  lemma WithoutKeeps<T>(xs: seq<T>, x: T)
    ensures forall y :: y in Without(xs, x) ==> y in xs
  {
  }

  // ---- changes of the workers ----------------------------------------------------------------------------

  lemma SameLists(f: Fleet, g: Fleet, hand: set<Worker>)
    requires g.next >= f.next && g.idle == f.idle && g.parked == f.parked
    ensures Frees(f, hand, g, hand)
  {
  }

  lemma FewerFree(f: Fleet, g: Fleet, hand: set<Worker>)
    requires g.next >= f.next && (forall w :: w in g.idle ==> w in f.idle) && (forall w :: w in g.parked ==> w in f.parked)
    ensures Frees(f, hand, g, hand)
  {
  }

  lemma RemoveFrees(f: Fleet, w: Worker, hand: set<Worker>)
    ensures Frees(f, hand, Remove(f, w), hand)
  {
    WithoutKeeps(f.idle, w);
    WithoutKeeps(f.parked, w);
    hide Without;
    FewerFree(f, Remove(f, w), hand);
  }

  lemma DiscardUses(s: Pool, w: Worker, hand: set<Worker>)
    ensures Uses(s, hand, Discard(s, w), hand) && Discard(s, w).queue.started == s.queue.started
  {
    RemoveFrees(s.fleet, w, hand);
    SameLists(s.fleet, s.fleet, hand);
    hide Remove, Free, Frees, Uses;
    QuietUses(s, hand, Discard(s, w), hand);
  }

  lemma RetireSurplusUses(s: Pool, w: Worker, hand: set<Worker>)
    ensures Uses(s, hand, RetireSurplus(s, w), hand)
  {
    DiscardUses(s, w, hand);
    var t := Discard(s, w);
    SameLists(t.fleet, Churn(t.fleet), hand);
    hide Discard, Free, Uses, Frees;
    QuietUses(t, hand, RetireSurplus(s, w), hand);
    UsesTransitive(s, hand, t, hand, RetireSurplus(s, w), hand);
  }

  lemma EvictParkedUses(s: Pool, w: Worker, hand: set<Worker>)
    ensures Uses(s, hand, EvictParked(s, w), hand) && EvictParked(s, w).queue.started == s.queue.started
  {
    DiscardUses(s, w, hand);
    StandStill(s, hand);
    hide Discard, Uses;
  }

  lemma StandStill(s: Pool, hand: set<Worker>)
    ensures Uses(s, hand, s, hand)
  {
  }

  lemma {:induction false} EvictOldestUses(s: Pool, hand: set<Worker>)
    ensures Uses(s, hand, EvictOldest(s), hand) && EvictOldest(s).queue.started == s.queue.started
    decreases |s.fleet.parked|
  {
    StandStill(s, hand);
    hide Uses, EvictParked;
    if |s.fleet.parked| > s.config.maxWorkers - s.config.maxConcurrent && s.fleet.parked != [] {
      var t := EvictParked(s, s.fleet.parked[0]);
      EvictParkedUses(s, s.fleet.parked[0], hand);
      EvictShrinks(s);
      EvictOldestUses(t, hand);
      UsesTransitive(s, hand, t, hand, EvictOldest(t), hand);
    }
  }

  lemma EvictShrinks(s: Pool)
    requires s.fleet.parked != []
    ensures |EvictParked(s, s.fleet.parked[0]).fleet.parked| < |s.fleet.parked|
  {
  }

  // The worker in hand is parked, or leaves for good.
  lemma ParkUses(s: Pool, w: Worker, hand: set<Worker>)
    ensures Uses(s, hand + {w}, Park(s, w), hand) && Park(s, w).queue.started == s.queue.started
  {
    var f := SetSurplusTimer(s.fleet, w, false);
    var t := s.(fleet := ToParked(f, w));
    WithoutKeeps(f.idle, w);
    WithoutKeeps(f.parked, w);
    hide Without;
    assert Frees(s.fleet, hand + {w}, t.fleet, hand);
    QuietUses(s, hand + {w}, t, hand);
    EvictParkedUses(t, w, hand);
    hide Uses, EvictParked, ToParked, SetSurplusTimer;
    UsesTransitive(s, hand + {w}, t, hand, EvictParked(t, w), hand);
  }

  // The slot of the worker in hand goes to the worker that is then in hand.
  lemma SwitchUses(s: Pool, w: Worker, p: Project)
    ensures var (t, n) := SwitchSlot(s, w, p); Uses(s, {w}, t, {n}) && t.queue.started == s.queue.started
  {
    hide Uses, Park, EvictOldest, Cached;
    match Cached(s.fleet, p)
    case Some(c) =>
      var u := s.(fleet := Unpark(s.fleet, c));
      var e := EvictOldest(Park(u, w));
      CachedIsParked(s.fleet, p);
      UnparkUses(s, c, w);
      ParkUses(u, w, {c});
      EvictOldestUses(Park(u, w), {c});
      assert {c} + {w} == {w} + {c};
      JoinUses(e, e.fleet, c, p);
      UsesTransitive(s, {w}, u, {c} + {w}, Park(u, w), {c});
      UsesTransitive(s, {w}, Park(u, w), {c}, e, {c});
      UsesTransitive(s, {w}, e, {c}, SwitchSlot(s, w, p).0, {c});
    case None =>
      var e := EvictOldest(Park(s, w));
      var n := e.fleet.next;
      ParkUses(s, w, {});
      EvictOldestUses(Park(s, w), {});
      assert {} + {w} == {w};
      JoinUses(e, Create(Churn(e.fleet)), n, p);
      UsesTransitive(s, {w}, Park(s, w), {}, e, {});
      FreshHand(e, n);
      UsesTransitive(s, {w}, e, {}, e, {n});
      UsesTransitive(s, {w}, e, {n}, SwitchSlot(s, w, p).0, {n});
  }

  lemma CachedIsParked(f: Fleet, p: Project)
    ensures Cached(f, p).Some? ==> Cached(f, p).value in f.parked
  {
  }

  lemma UnparkUses(s: Pool, c: Worker, w: Worker)
    requires c in s.fleet.parked
    ensures Uses(s, {w}, s.(fleet := Unpark(s.fleet, c)), {c} + {w})
  {
    WithoutKeeps(s.fleet.parked, c);
    hide Without;
  }

  lemma FreshHand(s: Pool, n: Worker)
    requires n >= s.fleet.next
    ensures Uses(s, {}, s, {n})
  {
  }

  lemma JoinUses(s: Pool, f: Fleet, n: Worker, p: Project)
    requires f.idle == s.fleet.idle && f.parked == s.fleet.parked && f.next >= s.fleet.next
    ensures Uses(s, {n}, s.(fleet := Activate(Assign(f, n, p), n)), {n})
  {
  }

  // ---- the scheduler ----------------------------------------------------------------------------------------

  lemma ClaimUses(s: Pool, w: Worker, p: Project)
    ensures var (t, n) := Claim(s, w, p); Uses(s, {w}, t, {n})
  {
    SwitchUses(s, w, p);
    SameLists(s.fleet, Assign(s.fleet, w, p), {w});
    hide SwitchSlot, Uses, Frees, Assign;
    QuietUses(s, {w}, s.(fleet := Assign(s.fleet, w, p)), {w});
  }

  lemma RetireStepUses(s: Pool, w: Worker, hand: set<Worker>)
    ensures var (t, next) := RetireStep(s, w); Uses(s, hand, t, HandOf(next))
  {
    var d := Discard(s, w);
    DiscardUses(s, w, hand);
    DropHand(d, hand);
    SpawnUses(d);
    hide Uses, Discard, Spawn;
    UsesTransitive(s, hand, d, hand, d, {});
    UsesTransitive(s, hand, d, {}, d.(fleet := Spawn(d.fleet)), {d.fleet.next});
  }

  lemma DropHand(s: Pool, hand: set<Worker>)
    ensures Uses(s, hand, s, {})
  {
  }

  lemma SpawnUses(s: Pool)
    ensures Uses(s, {}, s.(fleet := Spawn(s.fleet)), {s.fleet.next})
  {
  }

  lemma IdleUses(s: Pool, t: Pool, w: Worker)
    requires t.fleet.next == s.fleet.next && t.fleet.parked == s.fleet.parked && t.fleet.idle == s.fleet.idle + [w]
    requires t.queue.started == s.queue.started && NoBack(s.queue, t.queue)
    ensures Uses(s, {w}, t, {})
  {
    hide NoBack;
  }

  lemma SurplusStepUses(s: Pool, w: Worker)
    ensures Uses(s, {w}, SurplusStep(s, w), {})
  {
    RetireSurplusUses(s, w, {});
    DropHand(s, {w});
    UsesTransitive(s, {w}, s, {}, RetireSurplus(s, w), {});
    NoBackReflexive(s.queue);
    hide Uses, RetireSurplus, NoBack;
    if !(s.blocked || s.recovering) {
      IdleUses(s, SurplusStep(s, w), w);
    }
  }

  // A worker at work is in none of the lists of free workers.
  lemma BusyIsNotFree(s: Pool, w: Worker)
    requires Inv(s) && Busy(s, w)
    ensures !Free(s.fleet, {}, w)
  {
    hide Good, Isolated;
  }

  lemma BeginUses(s: Pool, q: Queue, w: Worker, r: Request)
    requires q.started == s.queue.started && !Free(s.fleet, {}, w) && NoBack(s.queue, MarkStarted(q, w, r, s.fleet.Fit(w)))
    ensures Uses(s, {w}, Begin(s.(queue := q), w, r), if r.failsAtStart then {w} else {})
  {
    hide NoBack;
  }

  lemma DequeueKeepsLog(q: Queue, p: Option<Project>, skipped: set<Project>)
    ensures DequeueFor(q, p, skipped).0.started == q.started
    ensures DequeueFor(q, p, skipped).1 == None ==> NoBack(q, DequeueFor(q, p, skipped).0)
  {
    hide Without, Bypass, IndexOf;
  }

  lemma ServeStepUses(s: Pool, w: Worker, skipped: set<Project>)
    requires Inv(s) && Busy(s, w)
    ensures var (t, next) := ServeStep(s, w, skipped); Uses(s, {w}, t, HandOf(next))
  {
    BusyIsNotFree(s, w);
    BusyMeans(s, w);
    var (q, next) := DequeueFor(s.queue, s.fleet.ProjectOf(w), skipped);
    DequeueKeepsLog(s.queue, s.fleet.ProjectOf(w), skipped);
    match next
    case None =>
      hide Inv, Uses, Free, DequeueFor, Begin, NoBack;
      IdleUses(s, ServeStep(s, w, skipped).0, w);
    case Some(r) =>
      AdvanceNoBack(s, s.fleet.ProjectOf(w).value, skipped, w, s.fleet.Fit(w));
      hide Inv, Uses, Free, Begin, NoBack, Advance, MarkStarted;
      BeginUses(s, q, w, r);
  }

  lemma TimerUses(s: Pool, w: Worker, armed: bool, hand: set<Worker>)
    ensures Uses(s, hand, s.(fleet := SetSurplusTimer(s.fleet, w, armed)), hand)
  {
  }

  lemma ScheduleStepUses(s: Pool, w: Worker)
    requires Inv(s) && Busy(s, w)
    ensures var (t, next) := ScheduleStep(s, w); Uses(s, {w}, t, HandOf(next))
  {
    var d := s.(fleet := SetSurplusTimer(s.fleet, w, false));
    TimerUses(s, w, false, {w});
    BusyMeans(s, w);
    DisarmInv(s, w);
    BusyMeans(d, w);
    NoBackReflexive(d.queue);
    hide Uses, Inv, Evolves, Busy, RetireStep, SurplusStep, Target, Claim, ServeStep, Skipped, SetSurplusTimer, NoBack;
    var (t, next) := ScheduleStep(s, w);
    if w in d.fleet.tainted {
      RetireStepUses(d, w, {w});
    } else if d.HasSurplus() {
      SurplusStepUses(d, w);
    } else if d.draining || d.blocked || Target(d, w).None? {
      IdleUses(d, d.(fleet := ToIdle(d.fleet, w)), w);
    } else {
      TargetStepUses(d, w, Target(d, w).value);
    }
    UsesTransitive(s, {w}, d, {w}, t, HandOf(next));
  }

  lemma TargetStepUses(s: Pool, w: Worker, p: Project)
    requires Inv(s) && Busy(s, w) && !s.blocked
    ensures var (c, n) := Claim(s, w, p);
            var (t, next) := ServeStep(c, n, Skipped(s, p));
            Uses(s, {w}, t, HandOf(next))
  {
    hide Inv, Uses, Claim, ServeStep, Evolves, Busy, Skipped;
    var (c, n) := Claim(s, w, p);
    ClaimInv(s, w, p);
    ClaimUses(s, w, p);
    ServeStepUses(c, n, Skipped(s, p));
    UsesTransitive(s, {w}, c, {n}, ServeStep(c, n, Skipped(s, p)).0, HandOf(ServeStep(c, n, Skipped(s, p)).1));
  }

  lemma {:induction false} ScheduleUses(s: Pool, w: Worker)
    requires Inv(s) && Busy(s, w)
    ensures Uses(s, {w}, Schedule(s, w), {})
    decreases s.queue.count, w in s.fleet.tainted
  {
    hide Inv, Evolves, ScheduleStep, Busy, Uses;
    var (t, next) := ScheduleStep(s, w);
    ScheduleStepInv(s, w);
    ScheduleStepUses(s, w);
    if next.Some? {
      ScheduleStepProgress(s, w);
      ScheduleUses(t, next.value);
      UsesTransitive(s, {w}, t, {next.value}, Schedule(t, next.value), {});
    }
  }

  lemma RetireUses(s: Pool, w: Worker)
    requires Inv(s)
    ensures Uses(s, {}, Retire(s, w), {})
  {
    hide Inv, Evolves, RetireStep, Schedule, Busy, Uses;
    var (t, next) := RetireStep(s, w);
    RetireStepInv(s, w);
    RetireStepUses(s, w, {});
    if next.Some? {
      BusyMeans(t, next.value);
      ScheduleUses(t, next.value);
      UsesTransitive(s, {}, t, {next.value}, Schedule(t, next.value), {});
    }
  }

  // ---- arrivals and growth -----------------------------------------------------------------------------------

  lemma RecycleUses(s: Pool, w: Worker)
    requires Inv(s) && w !in s.fleet.idle
    ensures Uses(s, {w}, Recycle(s, w), {})
  {
    DropHand(s, {w});
    hide Inv, Uses, Schedule;
    if w in s.fleet.active { ScheduleUses(s, w); }
  }

  lemma ExecuteUses(s: Pool, w: Worker, r: Request)
    requires Inv(s) && Busy(s, w) && s.queue.order == [] && s.fleet.Accepts(w, r.project)
    requires !s.draining && !s.blocked
    requires Fresh(s.queue, r)
    ensures Uses(s, {w}, Execute(s, w, r), {})
  {
    var b := Begin(s, w, r);
    BusyIsNotFree(s, w);
    StartNoBack(s.queue, w, r, s.fleet.Fit(w));
    hide NoBack;
    BeginUses(s, s.queue, w, r);
    assert s.(queue := s.queue) == s;
    BegunInv(s, w, r);
    hide Inv, Begin, Recycle, Uses, Free, Busy, Fresh;
    if r.failsAtStart {
      BusyMeans(b, w);
      RecycleUses(b, w);
      UsesTransitive(s, {w}, b, {w}, Recycle(b, w), {});
    }
  }

  lemma BegunInv(s: Pool, w: Worker, r: Request)
    requires Inv(s) && Busy(s, w) && s.queue.order == [] && s.fleet.Accepts(w, r.project)
    requires !s.draining && !s.blocked
    requires Fresh(s.queue, r)
    ensures Inv(Begin(s, w, r)) && Busy(Begin(s, w, r), w)
  {
    hide Inv, Evolves, Good, Untimed, Assign, Busy;
    OpenInv(s);
    StartFreshGood(s.queue, w, r, s.fleet.Fit(w));
    BeginInv(s, Begin(s, w, r), w, r);
  }

  // An idle worker is taken in hand.
  lemma TakeUses(s: Pool, t: Pool, w: Worker)
    requires t.queue == s.queue && t.fleet.next == s.fleet.next && t.fleet.parked == s.fleet.parked
    requires w in s.fleet.idle && forall x :: x in t.fleet.idle ==> x in s.fleet.idle
    ensures Uses(s, {}, t, {w})
  {
  }

  lemma {:induction false} ScheduleIdleUses(s: Pool, ws: seq<Worker>)
    requires Inv(s)
    requires s.queue.order != [] ==> ws == s.fleet.idle
    ensures Uses(s, {}, ScheduleIdle(s, ws), {})
    decreases ws
  {
    OpenInv(s);
    TotalZero(s.queue);
    hide Inv, Evolves, Untimed, Consistent, Schedule, Without, Busy, Uses;
    if ws == [] || s.queue.count == 0 {
      StandStill(s, {});
    } else {
      var r := s.(fleet := s.fleet.(idle := Without(s.fleet.idle, ws[0])));
      TakeFirst(s);
      TakeUses(s, r, ws[0]);
      ScheduleInv(r, ws[0]);
      ScheduleUses(r, ws[0]);
      ScheduleIdleUses(Schedule(r, ws[0]), ws[1..]);
      UsesTransitive(s, {}, r, {ws[0]}, Schedule(r, ws[0]), {});
      UsesTransitive(s, {}, Schedule(r, ws[0]), {}, ScheduleIdle(s, ws), {});
    }
  }

  lemma GrowUses(s: Pool)
    ensures Uses(s, {}, s.(fleet := Activate(Create(s.fleet), s.fleet.next)), {s.fleet.next})
  {
  }

  lemma EnsureCapacityUses(s: Pool)
    requires Inv(s)
    ensures Uses(s, {}, EnsureCapacity(s), {})
  {
    var t := ScheduleIdle(s, s.fleet.idle);
    ScheduleIdleInv(s, s.fleet.idle);
    ScheduleIdleUses(s, s.fleet.idle);
    OpenInv(t);
    TotalZero(t.queue);
    hide Inv, Evolves, Untimed, Consistent, Schedule, ScheduleIdle, Busy, Create, Activate, Uses;
    if t.queue.count != 0 && t.MayGrow() {
      var g := t.(fleet := Activate(Create(t.fleet), t.fleet.next));
      GrowInv(t);
      GrowUses(t);
      ScheduleUses(g, t.fleet.next);
      UsesTransitive(s, {}, t, {}, g, {t.fleet.next});
      UsesTransitive(s, {}, g, {t.fleet.next}, EnsureCapacity(s), {});
    }
  }

  lemma QueueUses(s: Pool, t: Pool)
    requires t.fleet == s.fleet && t.queue.started == s.queue.started && NoBack(s.queue, t.queue)
    ensures Uses(s, {}, t, {})
  {
    hide NoBack;
  }

  lemma EnqueueKeepsLog(q: Queue, r: Request)
    ensures Enqueue(q, r).started == q.started
  {
  }

  lemma AdmitUses(s: Pool, r: Request)
    requires Inv(s) && Working(s) && !s.draining && !s.blocked
    requires Fresh(s.queue, r)
    ensures Uses(s, {}, Admit(s, r), {})
  {
    IdleIndexFacts(s.fleet, r.project);
    EnqueueKeepsLog(s.queue, r);
    hide Inv, Evolves, TakeAt, Execute, EnsureCapacity, Enqueue, IdleIndex, Uses, NoBack;
    var i := IdleIndex(s.fleet, r.project);
    if i >= 0 {
      TakeAtInv(s, i);
      var k := s.(fleet := TakeAt(s.fleet, i));
      TakeAtUses(s, i);
      ExecuteUses(k, s.fleet.idle[i], r);
      UsesTransitive(s, {}, k, {s.fleet.idle[i]}, Execute(k, s.fleet.idle[i], r), {});
    } else {
      var k := s.(queue := Enqueue(s.queue, r));
      EnqueueInv(s, r);
      EnqueueNoBack(s, r);
      QueueUses(s, k);
      EnsureCapacityUses(k);
      UsesTransitive(s, {}, k, {}, EnsureCapacity(k), {});
    }
  }

  lemma TakeAtUses(s: Pool, i: nat)
    requires i < |s.fleet.idle|
    ensures Uses(s, {}, s.(fleet := TakeAt(s.fleet, i)), {s.fleet.idle[i]})
  {
    var t := s.(fleet := TakeAt(s.fleet, i));
    assert forall x :: x in t.fleet.idle ==> x in s.fleet.idle;
    TakeUses(s, t, s.fleet.idle[i]);
    hide Uses;
  }

  lemma RefuseNoBack(q: Queue, r: Request)
    requires Fresh(Stamp(q), r)
    ensures NoBack(q, Stamp(q)) && NoBack(q, Refuse(Stamp(q), r))
  {
    hide IndexOf;
  }

  lemma DispatchUses(s: Pool, p: Project, failsAtStart: bool)
    requires Inv(s) && Working(s)
    ensures Uses(s, {}, Dispatch(s, p, failsAtStart), {})
  {
    var r := Request(s.queue.arrivals, p, failsAtStart);
    var t := s.(queue := Stamp(s.queue));
    ArriveInv(s);
    FreshRequest(s, p, failsAtStart);
    assert Working(t);
    RefuseNoBack(s.queue, r);
    hide NoBack;
    QueueUses(s, t);
    QueueUses(s, t.(queue := Refuse(t.queue, r)));
    hide Inv, Evolves, Admit, Fresh, Working, Stamp, Refuse, Uses;
    if !(t.draining || t.RejectsAdmission() || t.queue.count >= t.config.maxQueue) {
      AdmitUses(t, r);
      UsesTransitive(s, {}, t, {}, Admit(t, r), {});
    }
  }

  // ---- exits and timers ---------------------------------------------------------------------------------------

  lemma ForgetFrees(f: Fleet, w: Worker)
    ensures Frees(f, {}, Forget(f, w), {}) && Frees(f, {}, Forget(f, w).(active := Without(f.active, w)), {})
  {
    WithoutKeeps(f.idle, w);
    WithoutKeeps(f.parked, w);
    hide Without;
  }

  lemma OnExitUses(s: Pool, w: Worker)
    requires Inv(s) && Working(s)
    ensures Uses(s, {}, OnExit(s, w), {})
  {
    var f := Forget(s.fleet, w).(active := Without(s.fleet.active, w));
    ForgetFrees(s.fleet, w);
    ForgetKeepsActive(s.fleet, w);
    if w in s.fleet.active {
      ReplaceExited(s, w);
      assert w !in s.fleet.retired;
      hide Inv, Evolves, Schedule, Forget, Spawn, Uses, Frees, Without;
      QuietUses(s, {}, s.(fleet := f), {});
      if !s.draining {
        var t := s.(fleet := Spawn(f));
        SpawnUses(s.(fleet := f));
        ScheduleUses(t, f.next);
        UsesTransitive(s, {}, s.(fleet := f), {}, t, {f.next});
        UsesTransitive(s, {}, t, {f.next}, Schedule(t, f.next), {});
      }
    } else {
      ExitElsewhereUses(s, w);
    }
  }

  lemma ExitElsewhereUses(s: Pool, w: Worker)
    requires Inv(s) && Working(s) && w !in s.fleet.active
    ensures Uses(s, {}, OnExit(s, w), {})
  {
    var t := s.(fleet := Forget(s.fleet, w));
    ForgetIdle(s, w);
    ForgetKeepsActive(s.fleet, w);
    ForgetFrees(s.fleet, w);
    hide Frees, Uses;
    QuietUses(s, {}, t, {});
    if w in s.fleet.retired && !s.draining {
      var u := EnsureCapacity(t);
      EnsureCapacityInv(t);
      EnsureCapacityUses(t);
      assert w < s.fleet.next;
      assert w !in t.fleet.meta;
      StaysAway(t, u, w);
      hide Inv, Evolves, EnsureCapacity, Forget;
      UsesTransitive(s, {}, t, {}, u, {});
    }
  }

  lemma SurplusTimerUses(s: Pool, w: Worker)
    ensures Uses(s, {}, SurplusTimerFired(s, w), {})
  {
    var d := s.(fleet := SetSurplusTimer(s.fleet, w, false));
    TimerUses(s, w, false, {});
    RetireSurplusUses(d, w, {});
    StandStill(s, {});
    hide Uses, SetSurplusTimer, RetireSurplus;
    UsesTransitive(s, {}, d, {}, RetireSurplus(d, w), {});
  }

  // ---- rotation and preheats -----------------------------------------------------------------------------------

  lemma FleetUses(s: Pool, t: Pool, hand: set<Worker>)
    requires t.queue.started == s.queue.started && NoBack(s.queue, t.queue) && t.fleet.next == s.fleet.next
    requires t.fleet.idle == s.fleet.idle && t.fleet.parked == s.fleet.parked
    ensures Uses(s, hand, t, hand)
  {
    hide NoBack;
  }

  lemma {:induction false} RotateWorkersUses(s: Pool, ws: seq<Worker>)
    requires Inv(s) && Working(s) && forall w :: w in ws ==> w < s.fleet.next
    ensures Uses(s, {}, RotateWorkers(s, ws), {})
    decreases ws
  {
    StandStill(s, {});
    NoBackReflexive(s.queue);
    hide Inv, Evolves, Working, Uses, Retire, NoBack;
    if ws != [] {
      assert ws[0] in ws && forall w :: w in ws[1..] ==> w in ws;
      RotateOneInv(s, ws[0]);
      RetireUses(s, ws[0]);
      FleetUses(s, s.(fleet := Taint(s.fleet, {ws[0]})), {});
      RotateWorkersUses(RotateOne(s, ws[0]), ws[1..]);
      UsesTransitive(s, {}, RotateOne(s, ws[0]), {}, RotateWorkers(s, ws), {});
    }
  }

  lemma RotateUses(s: Pool)
    requires Inv(s) && Working(s)
    ensures Uses(s, {}, Rotate(s), {})
  {
    var f := NextGeneration(s.fleet);
    var t := s.(fleet := f);
    GenerationInv(s);
    OutdatedMembers(f, f.active + f.parked);
    NoBackReflexive(s.queue);
    hide NoBack;
    FleetUses(s, t, {});
    hide Inv, Evolves, Outdated, RotateWorkers, NextGeneration, Working, Uses;
    RotateWorkersUses(t, Outdated(f, f.active + f.parked));
    UsesTransitive(s, {}, t, {}, RotateWorkers(t, Outdated(f, f.active + f.parked)), {});
  }

  lemma ExchangeOneUses(s: Pool, w: Worker, p: Project)
    requires w in s.fleet.idle
    ensures Uses(s, {}, ExchangeOne(s, w, p), {}) && ExchangeOne(s, w, p).queue.started == s.queue.started
  {
    var (t, n) := SwitchSlot(s, w, p);
    SwitchUses(s, w, p);
    NoBackReflexive(t.queue);
    hide NoBack;
    IdleUses(t, t.(fleet := ToIdle(t.fleet, n)), n);
    hide SwitchSlot;
    TakeUses(s, s, w);
    hide Uses;
    UsesTransitive(s, {}, s, {w}, t, {n});
    UsesTransitive(s, {}, t, {n}, t.(fleet := ToIdle(t.fleet, n)), {});
  }

  lemma {:induction false} ExchangeUses(f: Fleet, s: Pool, ws: seq<Worker>, p: Project)
    requires Untimed(s) && !s.blocked && s.queue.order == [] && Exchanged(f, s.fleet, p)
    requires NoDup(ws) && forall w :: w in ws ==> w in s.fleet.idle
    ensures Uses(s, {}, Exchange(s, ws, p), {}) && Exchange(s, ws, p).queue.started == s.queue.started
    decreases ws
  {
    StandStill(s, {});
    hide Untimed, Evolves, Exchanged, Fitting, ExchangeOne, Uses;
    if ws != [] {
      ExchangeOneInv(f, s, ws[0], p);
      ExchangeOneUses(s, ws[0], p);
      assert ws[0] !in ws[1..];
      ExchangeUses(f, ExchangeOne(s, ws[0], p), ws[1..], p);
      UsesTransitive(s, {}, ExchangeOne(s, ws[0], p), {}, Exchange(s, ws, p), {});
    }
  }

  // The workers that an event takes for preheats.
  function Taken(s: Pool, e: Event): seq<Worker> {
    if s.draining || s.blocked || s.recovering then []
    else
      match e
      case PreheatOne(p) => if IdleIndex(s.fleet, p) < 0 then [] else [s.fleet.idle[IdleIndex(s.fleet, p)]]
      case PreheatMany(p, limit, rotate) => TakenForPreheat(if rotate then Rotate(s) else s, p, limit)
      case _ => []
  }

  // A worker taken for a preheat was free, is free no more, and is not left at work on a request.
  ghost predicate Reserved(s: Pool, t: Pool, w: Worker) {
    && Free(s.fleet, {}, w) && !Free(t.fleet, {}, w)
    && forall i :: |s.queue.started| <= i < |t.queue.started| && t.queue.started[i].worker == w ==>
         t.queue.started[i].request.failsAtStart
  }

  lemma FreeSoFar(s: Pool, m: Pool, t: Pool, w: Worker)
    requires Uses(s, {}, m, {}) && Free(m.fleet, {}, w) && !Free(t.fleet, {}, w) && t.queue.started == m.queue.started
    ensures Reserved(s, t, w)
  {
    hide Free;
    forall i | |s.queue.started| <= i < |t.queue.started| && t.queue.started[i].worker == w
      ensures t.queue.started[i].request.failsAtStart
    {
      assert Engages(s, {}, m, {}, i);
    }
  }

  lemma PreheatUses(s: Pool, p: Project)
    requires Inv(s) && Working(s)
    ensures var t := Preheat(s, p);
            Uses(s, {}, t, {}) && forall w :: w in Taken(s, PreheatOne(p)) ==> Reserved(s, t, w)
  {
    var i := IdleIndex(s.fleet, p);
    IdleIndexFacts(s.fleet, p);
    StandStill(s, {});
    hide Inv, TakeAt, Assign, IdleIndex, Uses, Free, Reserved;
    if i >= 0 && !(s.draining || s.blocked || s.recovering) {
      var w := s.fleet.idle[i];
      var k := s.(fleet := TakeAt(s.fleet, i));
      TakeAtInv(s, i);
      TakeAtUses(s, i);
      AssignInv(k, w, p);
      var t := k.(fleet := Assign(k.fleet, w, p));
      AssignSameLists(k.fleet, w, p);
      NoBackReflexive(k.queue);
      hide NoBack;
      FleetUses(k, t, {w});
      UsesTransitive(s, {}, k, {w}, t, {w});
      DropHand(t, {w});
      UsesTransitive(s, {}, t, {w}, t, {});
      BusyMeans(k, w);
      BusyMeans(t, w);
      BusyIsNotFree(t, w);
      IdleIsFree(s.fleet, w);
      FreeSoFar(s, s, t, w);
      hide Evolves;
    }
  }

  lemma AssignSameLists(f: Fleet, w: Worker, p: Project)
    ensures var g := Assign(f, w, p);
            g.idle == f.idle && g.active == f.active && g.parked == f.parked && g.next == f.next
  {
  }

  lemma IdleIsFree(f: Fleet, w: Worker)
    requires w in f.idle
    ensures Free(f, {}, w)
  {
  }

  lemma {:induction false} AssignAllSameLists(f: Fleet, ws: seq<Worker>, p: Project)
    ensures var g := AssignAll(f, ws, p);
            g.idle == f.idle && g.active == f.active && g.parked == f.parked && g.next == f.next
    decreases ws
  {
    hide Assign;
    if ws != [] {
      AssignSameLists(f, ws[0], p);
      AssignAllSameLists(Assign(f, ws[0], p), ws[1..], p);
    }
  }

  lemma ReserveUses(s: Pool, ws: seq<Worker>, p: Project)
    ensures var t := s.(fleet := Reserve(s.fleet, ws, p));
            Uses(s, {}, t, {}) && t.queue == s.queue && t.fleet.idle == Minus(s.fleet.idle, ws)
  {
    MinusMembers(s.fleet.idle, ws);
    AssignAllSameLists(s.fleet.(idle := Minus(s.fleet.idle, ws)), ws, p);
    hide AssignAll, Minus;
  }

  lemma TakeForPreheatUses(s: Pool, p: Project, limit: nat)
    requires Inv(s) && Working(s) && !s.blocked
    ensures var t := TakeForPreheat(s, p, limit);
            Uses(s, {}, t, {}) && t.queue.started == s.queue.started
            && forall w :: w in TakenForPreheat(s, p, limit) ==> Free(s.fleet, {}, w) && !Free(t.fleet, {}, w)
  {
    var m := Exchange(s, Strangers(s.fleet, p, limit), p);
    var ws := TakenForPreheat(s, p, limit);
    var t := TakeForPreheat(s, p, limit);
    StrangersUses(s, p, limit);
    ReserveUses(m, ws, p);
    TakeForPreheatInv(s, p, limit);
    PreheatTakesFitting(s, p, limit);
    FittingMembers(m.fleet, m.fleet.idle, p);
    TakeMembers(Fitting(m.fleet, m.fleet.idle, p), Wanted(s.fleet, limit));
    assert forall w :: w in ws ==> w in m.fleet.idle;
    hide Inv, Uses, Exchange, TakenForPreheat, Reserve, Fitting, Strangers, Take, Wanted, Evolves, Working;
    UsesTransitive(s, {}, m, {}, t, {});
    forall w | w in ws ensures Free(s.fleet, {}, w) && !Free(t.fleet, {}, w) {
      BusyMeans(t, w);
      BusyIsNotFree(t, w);
      IdleIsFree(m.fleet, w);
      FreeBefore(s, m, w);
    }
  }

  lemma FreeBefore(s: Pool, t: Pool, w: Worker)
    requires Uses(s, {}, t, {}) && Free(t.fleet, {}, w)
    ensures Free(s.fleet, {}, w)
  {
  }

  lemma StrangersUses(s: Pool, p: Project, limit: nat)
    requires Inv(s) && Working(s) && !s.blocked
    ensures var m := Exchange(s, Strangers(s.fleet, p, limit), p);
            Uses(s, {}, m, {}) && m.queue.started == s.queue.started
  {
    var ws := Strangers(s.fleet, p, limit);
    OpenInv(s);
    MismatchedMembers(s.fleet, s.fleet.idle, p);
    var matching := |Fitting(s.fleet, s.fleet.idle, p)|;
    var missing := if Wanted(s.fleet, limit) > matching then Wanted(s.fleet, limit) - matching else 0;
    TakeMembers(Mismatched(s.fleet, s.fleet.idle, p), missing);
    assert NoDup(ws) && forall w :: w in ws ==> w in s.fleet.idle;
    hide Inv, Untimed, Evolves, Exchange, Fitting, Mismatched, Take, Roster, Good, Strangers, Wanted, Uses;
    NoExchange(s, p);
    StandStill(s, {});
    if ws != [] {
      assert ws[0] in ws;
      ExchangedSelf(s);
      ExchangeUses(s.fleet, s, ws, p);
    }
  }

  lemma PreheatAfter(s: Pool, r: Pool, p: Project, limit: nat)
    requires Uses(s, {}, r, {}) && Inv(r) && Working(r) && !r.blocked
    ensures var t := TakeForPreheat(r, p, limit);
            Uses(s, {}, t, {}) && forall w :: w in TakenForPreheat(r, p, limit) ==> Reserved(s, t, w)
  {
    hide *;
    TakeForPreheatUses(r, p, limit);
    var t := TakeForPreheat(r, p, limit);
    UsesTransitive(s, {}, r, {}, t, {});
    forall w | w in TakenForPreheat(r, p, limit) ensures Reserved(s, t, w) {
      FreeSoFar(s, r, t, w);
    }
  }

  lemma RotatedOrNot(s: Pool, rotate: bool)
    requires Inv(s) && Working(s) && !s.blocked
    ensures var r := if rotate then Rotate(s) else s; Uses(s, {}, r, {}) && Inv(r) && Working(r) && !r.blocked
  {
    StandStill(s, {});
    hide Inv, Uses, Rotate;
    if rotate {
      RotateInv(s);
      RotateUses(s);
    }
  }

  lemma BulkPreheatUses(s: Pool, p: Project, limit: nat, rotate: bool)
    requires Inv(s) && Working(s)
    ensures var t := BulkPreheat(s, p, limit, rotate);
            Uses(s, {}, t, {}) && forall w :: w in Taken(s, PreheatMany(p, limit, rotate)) ==> Reserved(s, t, w)
  {
    StandStill(s, {});
    hide Inv, Working, TakeForPreheat, Rotate, Uses, Reserved, TakenForPreheat;
    if !s.draining && !s.blocked && !s.recovering {
      RotatedOrNot(s, rotate);
      PreheatAfter(s, if rotate then Rotate(s) else s, p, limit);
    }
  }

  // ---- admission -------------------------------------------------------------------------------------------------

  lemma {:induction false} EvictAllUses(s: Pool, ws: seq<Worker>)
    ensures Uses(s, {}, EvictAll(s, ws), {})
    decreases ws
  {
    StandStill(s, {});
    hide Uses, EvictParked;
    if ws != [] {
      EvictParkedUses(s, ws[0], {});
      EvictAllUses(EvictParked(s, ws[0]), ws[1..]);
      UsesTransitive(s, {}, EvictParked(s, ws[0]), {}, EvictAll(s, ws), {});
    }
  }

  lemma {:induction false} TrimIdleUses(s: Pool, ws: seq<Worker>)
    ensures Uses(s, {}, TrimIdle(s, ws), {})
    decreases ws
  {
    StandStill(s, {});
    hide Uses, RetireSurplus;
    if ws != [] && |s.fleet.active| > s.config.size {
      RetireSurplusUses(s, ws[0], {});
      TrimIdleUses(RetireSurplus(s, ws[0]), ws[1..]);
      UsesTransitive(s, {}, RetireSurplus(s, ws[0]), {}, TrimIdle(s, ws), {});
    }
  }

  lemma ShedUses(s: Pool)
    ensures Uses(s, {}, Shed(s), {})
  {
    hide Uses, EvictAll, TrimIdle;
    var e := EvictAll(s, s.fleet.parked);
    EvictAllUses(s, s.fleet.parked);
    TrimIdleUses(e, e.fleet.idle);
    UsesTransitive(s, {}, e, {}, Shed(s), {});
  }

  lemma SetAdmissionUses(s: Pool, blocked: bool, recovering: bool)
    ensures Uses(s, {}, SetAdmission(s, blocked, recovering), {})
  {
    var t := s.(blocked := blocked, recovering := recovering && !blocked);
    var c := t.(queue := Clear(t.queue));
    StandStill(s, {});
    NoBackReflexive(s.queue);
    ClearNoBack(s.queue);
    hide NoBack;
    QueueUses(s, t);
    QueueUses(s, c);
    ShedUses(c);
    hide Uses, Shed;
    UsesTransitive(s, {}, c, {}, Shed(c), {});
  }

  // ---- every event ------------------------------------------------------------------------------------------------

  // The worker that an event hands back.
  function HandIn(e: Event): set<Worker> {
    match e
    case Finish(w, _) => {w}
    case _ => {}
  }

  lemma QueueEventUses(s: Pool, e: Event)
    requires Inv(s)
    requires e.Cancel? || e.Invalidate? || e.Drain? || e.TaintBusy? || e.RetirementDeadline?
    ensures Uses(s, {}, Step(s, e), {})
  {
    hide Uses, Step, NoBack;
    QueueEventNoBack(s, e);
    TaintSameLists(s, e);
    FleetUses(s, Step(s, e), {});
  }

  lemma TaintSameLists(s: Pool, e: Event)
    requires e.Cancel? || e.Invalidate? || e.Drain? || e.TaintBusy? || e.RetirementDeadline?
    ensures var t := Step(s, e);
            && t.queue.started == s.queue.started && t.fleet.next == s.fleet.next
            && t.fleet.idle == s.fleet.idle && t.fleet.parked == s.fleet.parked
  {
    hide Without, BoundTo;
  }

  lemma FinishUses(s: Pool, w: Worker, over: bool)
    requires Inv(s) && Working(s) && w !in s.fleet.idle && w < s.fleet.next
    ensures Uses(s, {w}, Step(s, Finish(w, over)), {})
  {
    var t := s.(fleet := Taint(s.fleet, {w}));
    TaintInv(s, {w});
    NoBackReflexive(s.queue);
    hide NoBack;
    FleetUses(s, t, {w});
    hide Inv, Evolves, Recycle, Uses;
    RecycleUses(s, w);
    RecycleUses(t, w);
    UsesTransitive(s, {w}, t, {w}, Recycle(t, w), {});
  }

  // No event of the pool puts a worker to work, or takes it for a preheat, unless it is free or just handed in.
  lemma StepUses(s: Pool, e: Event)
    requires Inv(s) && Working(s) && Enabled(s, e)
    ensures Uses(s, HandIn(e), Step(s, e), {}) && forall w :: w in Taken(s, e) ==> Reserved(s, Step(s, e), w)
  {
    hide Inv, Uses, Dispatch, Recycle, Retire, OnExit, SurplusTimerFired, EvictParked, InvalidateProject,
         CancelQueued, Preheat, BulkPreheat, StopDispatching, SetAdmission, Reserved, TakenForPreheat, Rotate, IdleIndex;
    match e
    case Arrive(p, f) => DispatchUses(s, p, f);
    case Finish(w, over) => FinishUses(s, w, over);
    case Lose(w) => RetireUses(s, w);
    case Exit(w) => OnExitUses(s, w);
    case ParkedTimer(w) => EvictParkedUses(s, w, {});
    case SurplusTimer(w) => SurplusTimerUses(s, w);
    case PreheatOne(p) => PreheatUses(s, p);
    case PreheatMany(p, n, rotate) => BulkPreheatUses(s, p, n, rotate);
    case Admission(b, r) => SetAdmissionUses(s, b, r);
    case _ => QueueEventUses(s, e);
  }
}
