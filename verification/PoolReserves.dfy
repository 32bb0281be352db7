/** How many workers a bulk preheat takes, and what an invalidation leaves of the queue. */
module PoolReserves {
  import opened Lists
  import opened PoolModel
  import opened PoolQueue
  import opened PoolFleet
  import opened PoolSteps
  import opened PoolHandlers
  import opened PoolPreheat
  import opened PoolRuns
  import opened PoolUses
  import opened PoolTheorems
  import opened PoolDecisions

  // ---- exchanges leave the other workers alone ------------------------------------------------------------------

  // Workers keep their project, and none is tainted.
  ghost predicate Untouched(f: Fleet, g: Fleet) {
    && f.next <= g.next && g.tainted <= f.tainted
    && forall x <- g.meta :: x < f.next ==> x in f.meta && g.meta[x].project == f.meta[x].project
  }

  lemma EvictUntouched(s: Pool, w: Worker)
    ensures Untouched(s.fleet, EvictParked(s, w).fleet)
  {
    hide Without;
  }

  lemma UntouchedTransitive(f: Fleet, g: Fleet, h: Fleet)
    requires Untouched(f, g) && Untouched(g, h)
    ensures Untouched(f, h)
  {
  }

  lemma {:induction false} EvictOldestUntouched(s: Pool)
    ensures Untouched(s.fleet, EvictOldest(s).fleet)
    decreases |s.fleet.parked|
  {
    if |s.fleet.parked| > s.config.maxWorkers - s.config.maxConcurrent && s.fleet.parked != [] {
      var t := EvictParked(s, s.fleet.parked[0]);
      EvictUntouched(s, s.fleet.parked[0]);
      EvictShrinks(s);
      hide EvictParked, Untouched;
      EvictOldestUntouched(t);
      UntouchedTransitive(s.fleet, t.fleet, EvictOldest(t).fleet);
    }
  }

  lemma ParkUntouched(s: Pool, w: Worker)
    ensures Untouched(s.fleet, Park(s, w).fleet)
  {
    var t := s.(fleet := ToParked(SetSurplusTimer(s.fleet, w, false), w));
    assert Untouched(s.fleet, t.fleet) by { hide Without; }
    EvictUntouched(t, w);
    hide EvictParked, ToParked, SetSurplusTimer, Untouched;
    UntouchedTransitive(s.fleet, t.fleet, EvictParked(t, w).fleet);
  }

  // But for the worker that comes into the slot.
  ghost predicate UntouchedBut(f: Fleet, g: Fleet, n: Worker) {
    g.tainted <= f.tainted
    && forall x <- g.meta :: x < f.next && x != n ==> x in f.meta && g.meta[x].project == f.meta[x].project
  }

  lemma JoinUntouched(f: Fleet, e: Fleet, n: Worker, p: Project)
    requires Untouched(f, e)
    ensures UntouchedBut(f, Activate(Assign(e, n, p), n), n)
    ensures n == e.next ==> UntouchedBut(f, Activate(Assign(Create(Churn(e)), n, p), n), n)
  {
  }

  lemma UnparkUntouched(f: Fleet, c: Worker)
    ensures Untouched(f, Unpark(f, c))
  {
    hide Without;
  }

  lemma SwitchUntouched(s: Pool, w: Worker, p: Project)
    ensures var (t, n) := SwitchSlot(s, w, p); UntouchedBut(s.fleet, t.fleet, n)
  {
    hide Untouched, UntouchedBut, Park, EvictOldest, Cached, Unpark, Activate, Assign, Create;
    match Cached(s.fleet, p)
    case Some(c) =>
      var u := s.(fleet := Unpark(s.fleet, c));
      var e := EvictOldest(Park(u, w));
      UnparkUntouched(s.fleet, c);
      ParkUntouched(u, w);
      EvictOldestUntouched(Park(u, w));
      UntouchedTransitive(s.fleet, u.fleet, Park(u, w).fleet);
      UntouchedTransitive(s.fleet, Park(u, w).fleet, e.fleet);
      JoinUntouched(s.fleet, e.fleet, c, p);
    case None =>
      var e := EvictOldest(Park(s, w));
      ParkUntouched(s, w);
      EvictOldestUntouched(Park(s, w));
      UntouchedTransitive(s.fleet, Park(s, w).fleet, e.fleet);
      JoinUntouched(s.fleet, e.fleet, e.fleet.next, p);
  }

  // ---- how many fit ------------------------------------------------------------------------------------------------

  lemma FittingWithout(f: Fleet, w: Worker, p: Project)
    requires w in f.idle && !f.Accepts(w, p)
    ensures |Fitting(f, Without(f.idle, w), p)| == |Fitting(f, f.idle, p)|
  {
    var i := IndexOf(f.idle, w);
    assert f.idle == f.idle[..i] + ([w] + f.idle[i + 1..]);
    FittingAppend(f, f.idle[..i], [w] + f.idle[i + 1..], p);
    FittingAppend(f, [w], f.idle[i + 1..], p);
    FittingAppend(f, f.idle[..i], f.idle[i + 1..], p);
  }

  // Those that stay idle fit as before, strangers stay strangers, and the newcomer fits.
  lemma SameFit(s: Pool, w: Worker, p: Project, u: Pool, n: Worker)
    requires Roster(s.fleet, {}) && Switched(s, w, p, u, n) && UntouchedBut(s.fleet, u.fleet, n)
    ensures forall x :: x in u.fleet.idle ==> x in s.fleet.idle && (u.fleet.Accepts(x, p) <==> s.fleet.Accepts(x, p))
    ensures forall x :: x in u.fleet.idle && Fits(s.fleet, x, p) ==> Fits(u.fleet, x, p)
    ensures Fits(u.fleet, n, p)
  {
    WithoutMembers(s.fleet.idle, w);
    assert forall x :: x in u.fleet.idle ==> x in s.fleet.meta && x in u.fleet.meta && x < s.fleet.next && x != n;
    hide Halts, Without, Binds, KeepsIdle;
  }

  // The newcomer counts; the others count as they did, and the worker it takes the place of did not count.
  lemma NewcomerCounts(f: Fleet, u: Fleet, w: Worker, n: Worker, p: Project)
    requires w in f.idle && !f.Accepts(w, p) && u.idle == Without(f.idle, w) && n !in u.idle && Fits(u, n, p)
    requires forall x :: x in u.idle && Fits(f, x, p) ==> Fits(u, x, p)
    requires forall x :: x in u.idle && Fits(u, x, p) ==> Fits(f, x, p)
    ensures var g := ToIdle(u, n); |Fitting(g, g.idle, p)| == |Fitting(f, f.idle, p)| + 1
  {
    var g := ToIdle(u, n);
    assert g.idle == u.idle + [n];
    FittingWithout(f, w, p);
    hide Without;
    FittingFewer(u, f, u.idle, p);
    FittingFewer(f, u, u.idle, p);
    FittingAppend(g, u.idle, [n], p);
    FittingFewer(g, u, u.idle, p);
    FittingFewer(u, g, u.idle, p);
    OneFits(g, n, p);
  }

  lemma ExchangeOneAdds(s: Pool, w: Worker, p: Project)
    requires Untimed(s) && !s.blocked && w in s.fleet.idle && !s.fleet.Accepts(w, p)
    ensures var t := ExchangeOne(s, w, p);
            && |Fitting(t.fleet, t.fleet.idle, p)| == |Fitting(s.fleet, s.fleet.idle, p)| + 1
            && (forall x :: x in s.fleet.idle && x != w && !s.fleet.Accepts(x, p) ==> x in t.fleet.idle && !t.fleet.Accepts(x, p))
  {
    hide Untimed, Evolves, SwitchSlot, Good, Without, UntouchedBut, Switched, Roster, Fitting;
    OpenInv(s);
    IdleInRoster(s.fleet, w);
    var (u, n) := SwitchSlot(s, w, p);
    SwitchInv(s, w, p);
    SwitchUntouched(s, w, p);
    SameFit(s, w, p, u, n);
    SwitchKeepsFit(s, w, p, u, n);
    SwitchIdle(s, w, p, u, n);
    IdleAfterSwitch(s, w, p, u, n);
    NewcomerCounts(s.fleet, u.fleet, w, n, p);
  }

  lemma IdleInRoster(f: Fleet, w: Worker)
    requires Roster(f, {}) && w in f.idle
    ensures w in f.active
  {
  }

  lemma IdleAfterSwitch(s: Pool, w: Worker, p: Project, u: Pool, n: Worker)
    requires Roster(s.fleet, {}) && Switched(s, w, p, u, n)
    ensures u.fleet.idle == Without(s.fleet.idle, w) && n !in u.fleet.idle
    ensures forall x :: x in u.fleet.idle <==> x in s.fleet.idle && x != w
  {
    WithoutMembers(s.fleet.idle, w);
    hide Without, Moves;
  }

  lemma OneFits(f: Fleet, n: Worker, p: Project)
    requires Fits(f, n, p)
    ensures |Fitting(f, [n], p)| == 1
  {
    assert [n][1..] == [];
  }

  lemma {:induction false} ExchangeAdds(f: Fleet, s: Pool, ws: seq<Worker>, p: Project)
    requires Untimed(s) && !s.blocked && s.queue.order == [] && Exchanged(f, s.fleet, p)
    requires NoDup(ws) && forall w :: w in ws ==> w in s.fleet.idle && !s.fleet.Accepts(w, p)
    ensures var t := Exchange(s, ws, p);
            |Fitting(t.fleet, t.fleet.idle, p)| == |Fitting(s.fleet, s.fleet.idle, p)| + |ws|
    decreases ws
  {
    hide Untimed, Evolves, Exchanged, Fitting, ExchangeOne;
    if ws != [] {
      ExchangeOneInv(f, s, ws[0], p);
      ExchangeOneAdds(s, ws[0], p);
      assert ws[0] !in ws[1..] && forall w :: w in ws[1..] ==> w in ws;
      ExchangeAdds(f, ExchangeOne(s, ws[0], p), ws[1..], p);
    }
  }

  function Min(a: nat, b: nat): nat {
    if a <= b then a else b
  }

  // Of the idle workers that do not fit, as many as are missing are exchanged.
  lemma StrangersExactly(f: Fleet, p: Project, limit: nat)
    requires NoDup(f.idle)
    ensures var ws := Strangers(f, p, limit);
            var idle := |f.idle|;
            var wanted := if limit == 0 then idle else Min(limit, idle);
            var matching := |Fitting(f, f.idle, p)|;
            && NoDup(ws) && (forall w :: w in ws ==> w in f.idle && !f.Accepts(w, p))
            && |ws| == Min(if wanted > matching then wanted - matching else 0, |Mismatched(f, f.idle, p)|)
            && Wanted(f, limit) == wanted
  {
    var matching := |Fitting(f, f.idle, p)|;
    MismatchedMembers(f, f.idle, p);
    TakeMembers(Mismatched(f, f.idle, p), if Wanted(f, limit) > matching then Wanted(f, limit) - matching else 0);
    hide Mismatched, Fitting;
  }

  lemma ExchangedCount(s: Pool, p: Project, limit: nat)
    requires Inv(s) && !s.blocked && s.queue.order == []
    ensures var ws := Strangers(s.fleet, p, limit);
            var t := Exchange(s, ws, p);
            |Fitting(t.fleet, t.fleet.idle, p)| == |Fitting(s.fleet, s.fleet.idle, p)| + |ws|
  {
    var ws := Strangers(s.fleet, p, limit);
    OpenInv(s);
    hide Inv, Untimed, Evolves, Exchange, ExchangeOne, Fitting, Strangers, Mismatched, Good;
    StrangersExactly(s.fleet, p, limit);
    hide Roster;
    NoExchange(s, p);
    if ws != [] {
      ExchangedSelf(s);
      ExchangeAdds(s.fleet, s, ws, p);
    }
  }

  lemma TakesExactly(s: Pool, p: Project, limit: nat)
    requires Inv(s) && Working(s) && !s.blocked
    ensures var idle := s.fleet.idle;
            |TakenForPreheat(s, p, limit)| ==
              Min(if limit == 0 then |idle| else Min(limit, |idle|), |Fitting(s.fleet, idle, p)| + |Mismatched(s.fleet, idle, p)|)
  {
    OpenInv(s);
    hide Inv, Untimed, Evolves, Exchange, Fitting, Mismatched, Good, Strangers, Wanted;
    StrangersExactly(s.fleet, p, limit);
    hide Roster;
    if s.fleet.idle != [] {
      ExchangedCount(s, p, limit);
    }
  }

  // A bulk preheat takes as many workers as it may: all idle ones that fit, with strangers exchanged for as many
  // more as are missing, up to the limit, or up to the number of idle workers if there is none.
  lemma PreheatTakesExactly(c: Config, es: seq<Event>, p: Project, limit: nat)
    requires c.Valid() && Admissible(Initial(c), es) && !Run(Initial(c), es).blocked
    ensures var s := Run(Initial(c), es);
            var idle := s.fleet.idle;
            |TakenForPreheat(s, p, limit)| ==
              Min(if limit == 0 then |idle| else Min(limit, |idle|), |Fitting(s.fleet, idle, p)| + |Mismatched(s.fleet, idle, p)|)
  {
    hide *;
    Reached(c, es);
    OpenReached(Run(Initial(c), es));
    TakesExactly(Run(Initial(c), es), p, limit);
  }

  // ---- invalidation ----------------------------------------------------------------------------------------------------

  lemma DroppedExactly(q: Queue, p: Project)
    requires Good(q)
    ensures var t := DropProject(q, p);
            && p !in t.lists && (forall x :: x in q.lists && x != p ==> x in t.lists && t.lists[x] == q.lists[x])
            && (forall r :: Waiting(q, r) && r.project == p ==> r in t.fate && t.fate[r] == Answered)
            && t.started == q.started
  {
    hide Without;
  }

  // An invalidation answers every waiting request of its project and touches no other list.
  lemma InvalidatedIsDropped(c: Config, es: seq<Event>, p: Project)
    requires c.Valid() && Admissible(Initial(c), es)
    ensures var q := Run(Initial(c), es).queue;
            var t := Step(Run(Initial(c), es), Invalidate(p)).queue;
            && p !in t.lists && (forall x :: x in q.lists && x != p ==> x in t.lists && t.lists[x] == q.lists[x])
            && (forall r :: Waiting(q, r) && r.project == p ==> r in t.fate && t.fate[r] == Answered)
            && t.started == q.started
  {
    hide Run, Admissible, Initial, Reachable, Inv, Working, DropProject, Good, Untimed, Waiting;
    var s := Run(Initial(c), es);
    Reached(c, es);
    OpenReached(s);
    OpenInv(s);
    DroppedExactly(s.queue, p);
  }
}
