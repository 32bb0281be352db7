/** Generation rotation, preheating and admission changes keep the pool's invariant. */
module PoolPreheat {
  import opened Lists
  import opened PoolModel
  import opened PoolQueue
  import opened PoolFleet
  import opened PoolSteps
  import opened PoolHandlers

  // ---- rotation ------------------------------------------------------------------------------

  lemma RotateOneInv(s: Pool, w: Worker)
    requires Inv(s) && Working(s) && w < s.fleet.next
    ensures var t := RotateOne(s, w); Inv(t) && Evolves(s, t) && Working(t) && s.fleet.next <= t.fleet.next
  {
    hide Inv, Retire, Good, Settles;
    RetireInv(s, w);
    TaintInv(s, {w});
  }

  lemma {:induction false} RotateWorkersInv(s: Pool, ws: seq<Worker>)
    requires Inv(s) && Working(s) && forall w :: w in ws ==> w < s.fleet.next
    ensures var t := RotateWorkers(s, ws); Inv(t) && Evolves(s, t) && Working(t)
    decreases ws
  {
    hide Inv, Evolves, Working, RotateOne;
    if ws == [] {
      EvolvesReflexive(s);
    } else {
      assert ws[0] in ws && forall w :: w in ws[1..] ==> w in ws;
      RotateOneInv(s, ws[0]);
      RotateWorkersInv(RotateOne(s, ws[0]), ws[1..]);
      EvolvesTransitive(s, RotateOne(s, ws[0]), RotateWorkers(s, ws));
    }
  }

  lemma OutdatedMembers(f: Fleet, ws: seq<Worker>)
    ensures forall w :: w in Outdated(f, ws) ==> w in ws
  {
  }

  lemma GenerationInv(s: Pool)
    requires Inv(s) && Working(s)
    ensures var t := s.(fleet := NextGeneration(s.fleet)); Inv(t) && Evolves(s, t) && Working(t)
    ensures var f := NextGeneration(s.fleet); forall w :: w in f.active + f.parked ==> w < f.next
  {
    hide Good;
  }

  lemma RotateInv(s: Pool)
    requires Inv(s) && Working(s)
    ensures Inv(Rotate(s)) && Evolves(s, Rotate(s)) && Working(Rotate(s))
  {
    var f := NextGeneration(s.fleet);
    var t := s.(fleet := f);
    GenerationInv(s);
    OutdatedMembers(f, f.active + f.parked);
    hide Inv, Evolves, Outdated, RotateWorkers, NextGeneration, Working;
    RotateWorkersInv(t, Outdated(f, f.active + f.parked));
    EvolvesTransitive(s, t, RotateWorkers(t, Outdated(f, f.active + f.parked)));
  }

  // ---- the workers that fit a project --------------------------------------------------------

  predicate Fits(f: Fleet, w: Worker, p: Project) {
    f.Accepts(w, p) && w !in f.tainted
  }

  lemma ConsNoDup(ws: seq<Worker>, r: seq<Worker>)
    requires ws != [] && forall w :: w in r ==> w in ws[1..]
    ensures NoDup(ws) ==> NoDup(ws[1..]) && (NoDup(r) ==> NoDup([ws[0]] + r))
  {
    if NoDup(ws) && NoDup(r) {
      var t := [ws[0]] + r;
      forall i, j | 0 <= i < j < |t| ensures t[i] != t[j] {
        assert t[j] == r[j - 1] && t[j] in r;
        assert i > 0 ==> t[i] == r[i - 1];
      }
    }
  }

  lemma FittingMembers(f: Fleet, ws: seq<Worker>, p: Project)
    ensures forall w :: w in Fitting(f, ws, p) <==> w in ws && Fits(f, w, p)
    ensures NoDup(ws) ==> NoDup(Fitting(f, ws, p))
  {
    if ws != [] { assert ws == [ws[0]] + ws[1..]; FittingMembers(f, ws[1..], p); ConsNoDup(ws, Fitting(f, ws[1..], p)); }
  }

  lemma MismatchedMembers(f: Fleet, ws: seq<Worker>, p: Project)
    ensures forall w :: w in Mismatched(f, ws, p) <==> w in ws && !f.Accepts(w, p)
    ensures NoDup(ws) ==> NoDup(Mismatched(f, ws, p))
  {
    if ws != [] { assert ws == [ws[0]] + ws[1..]; MismatchedMembers(f, ws[1..], p); ConsNoDup(ws, Mismatched(f, ws[1..], p)); }
  }

  lemma MinusMembers(xs: seq<Worker>, ys: seq<Worker>)
    ensures forall w :: w in Minus(xs, ys) <==> w in xs && w !in ys
    ensures NoDup(xs) ==> NoDup(Minus(xs, ys))
  {
    if xs != [] { assert xs == [xs[0]] + xs[1..]; MinusMembers(xs[1..], ys); ConsNoDup(xs, Minus(xs[1..], ys)); }
  }

  lemma FittingAppend(f: Fleet, a: seq<Worker>, b: seq<Worker>, p: Project)
    ensures Fitting(f, a + b, p) == Fitting(f, a, p) + Fitting(f, b, p)
  {
    if a == [] { assert a + b == b; } else { assert (a + b)[1..] == a[1..] + b; FittingAppend(f, a[1..], b, p); }
  }

  lemma FittingFewer(f: Fleet, g: Fleet, ws: seq<Worker>, p: Project)
    requires forall w :: w in ws && Fits(g, w, p) ==> Fits(f, w, p)
    ensures |Fitting(g, ws, p)| <= |Fitting(f, ws, p)|
  {
    if ws != [] {
      assert ws[0] in ws;
      FittingFewer(f, g, ws[1..], p);
    }
  }

  // Exchanging one worker makes at most one more worker fit.
  lemma FittingAfterExchange(f: Fleet, g: Fleet, w: Worker, n: Worker, p: Project)
    requires w in f.idle && g.idle == Without(f.idle, w)
    requires forall x :: x in g.idle && Fits(g, x, p) ==> Fits(f, x, p)
    ensures |Fitting(g, g.idle + [n], p)| <= |Fitting(f, f.idle, p)| + 1
  {
    var i := IndexOf(f.idle, w);
    FittingAppend(g, g.idle, [n], p);
    FittingFewer(f, g, g.idle, p);
    assert f.idle == f.idle[..i] + ([w] + f.idle[i + 1..]);
    FittingAppend(f, f.idle[..i], [w] + f.idle[i + 1..], p);
    FittingAppend(f, [w], f.idle[i + 1..], p);
    FittingAppend(f, f.idle[..i], f.idle[i + 1..], p);
  }

  // ---- exchanging idle workers ---------------------------------------------------------------

  predicate Bound(f: Fleet, w: Worker, p: Project) {
    f.ProjectOf(w) == Some(p) && w !in f.tainted
  }

  // The idle workers of `g` are idle workers of `f` with their timers, or belong to the project.
  ghost predicate Exchanged(f: Fleet, g: Fleet, p: Project) {
    forall w :: w in g.idle ==>
      Bound(g, w, p)
      || (w in f.idle && w in f.meta && w in g.meta && g.meta[w].surplusTimer == f.meta[w].surplusTimer)
  }

  lemma SwitchKeepsFit(s: Pool, w: Worker, p: Project, u: Pool, n: Worker)
    requires Roster(s.fleet, {}) && Switched(s, w, p, u, n)
    ensures forall x :: x in u.fleet.idle && Fits(u.fleet, x, p) ==> Fits(s.fleet, x, p)
    ensures forall x :: x in u.fleet.idle && Bound(s.fleet, x, p) ==> Bound(u.fleet, x, p)
  {
    WithoutMembers(s.fleet.idle, w);
    assert forall x :: x in u.fleet.idle ==> x in s.fleet.idle && x in s.fleet.meta && x in u.fleet.meta;
    hide Halts, Without;
  }

  lemma ExchangedOne(f: Fleet, s: Pool, w: Worker, p: Project, u: Pool, n: Worker)
    requires Roster(s.fleet, {}) && Switched(s, w, p, u, n) && Exchanged(f, s.fleet, p)
    ensures Exchanged(f, ToIdle(u.fleet, n), p)
  {
    SwitchKeepsFit(s, w, p, u, n);
    WithoutMembers(s.fleet.idle, w);
    hide Halts, Without;
    var g := ToIdle(u.fleet, n);
    assert Bound(g, n, p);
    forall x | x in g.idle && x != n
      ensures Bound(g, x, p)
        || (x in f.idle && x in f.meta && x in g.meta && g.meta[x].surplusTimer == f.meta[x].surplusTimer)
    {
      assert x in u.fleet.idle && x in s.fleet.idle;
      if Bound(s.fleet, x, p) { assert Bound(u.fleet, x, p); }
    }
  }

  lemma FittingOne(s: Pool, w: Worker, p: Project, u: Pool, n: Worker)
    requires Roster(s.fleet, {}) && Switched(s, w, p, u, n) && w in s.fleet.idle
    ensures var g := ToIdle(u.fleet, n); |Fitting(g, g.idle, p)| <= |Fitting(s.fleet, s.fleet.idle, p)| + 1
  {
    SwitchKeepsFit(s, w, p, u, n);
    hide Roster, Moves;
    FittingAfterExchange(s.fleet, u.fleet, w, n, p);
    FittingFewer(u.fleet, ToIdle(u.fleet, n), u.fleet.idle + [n], p);
  }

  lemma JoinIdle(s: Pool, n: Worker)
    requires Untimed(s) && Busy(s, n) && s.queue.order == []
    ensures var t := s.(fleet := ToIdle(s.fleet, n)); Untimed(t) && Evolves(s, t)
  {
    ToIdleRoster(s.fleet, n);
    hide Good, Roster;
  }

  lemma ExchangeOneInv(f: Fleet, s: Pool, w: Worker, p: Project)
    requires Untimed(s) && !s.blocked && s.queue.order == [] && Exchanged(f, s.fleet, p) && w in s.fleet.idle
    ensures var t := ExchangeOne(s, w, p);
            && Untimed(t) && Evolves(s, t) && !t.blocked && t.queue.order == [] && Exchanged(f, t.fleet, p)
            && |t.fleet.active| == |s.fleet.active|
            && |Fitting(t.fleet, t.fleet.idle, p)| <= |Fitting(s.fleet, s.fleet.idle, p)| + 1
            && (forall x :: x in s.fleet.idle && x != w ==> x in t.fleet.idle)
  {
    OpenInv(s);
    assert w in s.fleet.active;
    hide Untimed, Evolves, Switched, Exchanged, SwitchSlot, Fitting, Roster, Good, Busy, ToIdle;
    var (u, n) := SwitchSlot(s, w, p);
    SwitchInv(s, w, p);
    ExchangedOne(f, s, w, p, u, n);
    FittingOne(s, w, p, u, n);
    SwitchIdle(s, w, p, u, n);
    JoinIdle(u, n);
    EvolvesTransitive(s, u, u.(fleet := ToIdle(u.fleet, n)));
  }

  lemma {:induction false} ExchangeInv(f: Fleet, s: Pool, ws: seq<Worker>, p: Project)
    requires Untimed(s) && !s.blocked && s.queue.order == [] && Exchanged(f, s.fleet, p)
    requires NoDup(ws) && forall w :: w in ws ==> w in s.fleet.idle
    ensures var t := Exchange(s, ws, p);
            && Untimed(t) && Evolves(s, t) && !t.blocked && t.queue.order == [] && Exchanged(f, t.fleet, p)
            && |t.fleet.active| == |s.fleet.active|
            && |Fitting(t.fleet, t.fleet.idle, p)| <= |Fitting(s.fleet, s.fleet.idle, p)| + |ws|
    decreases ws
  {
    hide Untimed, Evolves, Exchanged, Fitting, ExchangeOne;
    if ws == [] {
      EvolvesReflexive(s);
    } else {
      ExchangeOneInv(f, s, ws[0], p);
      assert ws[0] !in ws[1..];
      ExchangeInv(f, ExchangeOne(s, ws[0], p), ws[1..], p);
      EvolvesTransitive(s, ExchangeOne(s, ws[0], p), Exchange(s, ws, p));
    }
  }

  lemma SwitchIdle(s: Pool, w: Worker, p: Project, u: Pool, n: Worker)
    requires Roster(s.fleet, {}) && Switched(s, w, p, u, n)
    ensures Busy(u, n) && u.blocked == s.blocked && |ToIdle(u.fleet, n).active| == |s.fleet.active|
    ensures forall x :: x in s.fleet.idle && x != w ==> x in ToIdle(u.fleet, n).idle
  {
    WithoutMembers(s.fleet.idle, w);
    hide Without, Roster;
  }

  // ---- preheating ----------------------------------------------------------------------------

  lemma {:induction false} AssignAllRoster(f: Fleet, ws: seq<Worker>, p: Project)
    requires Roster(f, {}) && forall w :: w in ws ==> w in f.meta && f.Accepts(w, p)
    ensures var g := AssignAll(f, ws, p);
            Roster(g, {}) && Binds(f, g) && KeepsIdle(f, g) && g.idle == f.idle && g.active == f.active && g.parked == f.parked
    decreases ws
  {
    hide Roster;
    if ws != [] {
      assert ws[0] in ws && forall w :: w in ws[1..] ==> w in ws;
      AssignRoster(f, {}, ws[0], p);
      var g := Assign(f, ws[0], p);
      AssignAllRoster(g, ws[1..], p);
      hide Roster;
      BindsTransitive(f, g, AssignAll(f, ws, p));
      hide Binds;
    }
  }

  lemma TakeMembers<T>(xs: seq<T>, n: nat)
    ensures forall x :: x in Take(xs, n) ==> x in xs
    ensures NoDup(xs) ==> NoDup(Take(xs, n))
    ensures |Take(xs, n)| <= n && (|xs| <= n ==> Take(xs, n) == xs)
  {
  }

  lemma MinusRoster(f: Fleet, ws: seq<Worker>)
    requires Roster(f, {})
    ensures var g := f.(idle := Minus(f.idle, ws)); Roster(g, {}) && Binds(f, g) && KeepsIdle(f, g)
  {
    MinusMembers(f.idle, ws);
    hide Minus;
  }

  // The workers that stay idle are those that were idle before.
  lemma TakenIdle(f: Fleet, g: Fleet, taken: seq<Worker>, p: Project)
    requires Exchanged(f, g, p)
    requires forall w :: w in g.idle && Fits(g, w, p) ==> w in taken
    ensures forall w :: w in Minus(g.idle, taken) ==>
              w in f.idle && w in f.meta && w in g.meta && g.meta[w].surplusTimer == f.meta[w].surplusTimer
  {
    MinusMembers(g.idle, taken);
  }

  lemma ReserveRoster(f: Fleet, ws: seq<Worker>, p: Project)
    requires Roster(f, {}) && forall w :: w in ws ==> w in f.idle && f.Accepts(w, p)
    ensures var g := Reserve(f, ws, p);
            Roster(g, {}) && Binds(f, g) && KeepsIdle(f, g) && g.idle == Minus(f.idle, ws)
            && g.active == f.active && g.parked == f.parked
  {
    hide AssignAll, Minus;
    var g := f.(idle := Minus(f.idle, ws));
    MinusRoster(f, ws);
    IdleHaveMeta(f, ws, p);
    hide Roster;
    AssignAllRoster(g, ws, p);
    BindsTransitive(f, g, AssignAll(g, ws, p));
    hide Binds;
  }

  lemma IdleHaveMeta(f: Fleet, ws: seq<Worker>, p: Project)
    requires Roster(f, {}) && forall w :: w in ws ==> w in f.idle && f.Accepts(w, p)
    ensures var g := f.(idle := Minus(f.idle, ws)); forall w :: w in ws ==> w in g.meta && g.Accepts(w, p)
    ensures forall w :: w in f.idle ==> w in f.meta
  {
    hide Minus;
  }

  lemma UntimedChange(s: Pool, t: Pool)
    requires Untimed(s) && t == s.(fleet := t.fleet) && Roster(t.fleet, {}) && Binds(s.fleet, t.fleet) && Sized(t)
    requires s.fleet.parked == [] ==> t.fleet.parked == []
    ensures Untimed(t) && Evolves(s, t)
  {
    IsolatedStays(s.queue, t.queue, s.fleet, t.fleet);
    hide Good, Roster, Binds, Isolated;
  }

  // The workers left idle keep their timers.
  lemma ReserveInv(s: Pool, t: Pool, taken: seq<Worker>, p: Project)
    requires Timed(s) && Untimed(t) && Evolves(s, t) && |t.fleet.active| == |s.fleet.active|
    requires forall w :: w in taken ==> w in t.fleet.idle && t.fleet.Accepts(w, p)
    requires forall w :: w in Minus(t.fleet.idle, taken) ==>
               w in s.fleet.idle && w in s.fleet.meta && w in t.fleet.meta
               && t.fleet.meta[w].surplusTimer == s.fleet.meta[w].surplusTimer
    ensures var u := t.(fleet := Reserve(t.fleet, taken, p));
            Inv(u) && Evolves(s, u) && (Working(t) ==> Working(u))
  {
    var u := t.(fleet := Reserve(t.fleet, taken, p));
    OpenInv(t);
    ReserveRoster(t.fleet, taken, p);
    assert t.fleet.idle == [] ==> u.fleet.idle == [];
    assert forall w :: w in u.fleet.idle ==> w in u.fleet.active && w in u.fleet.meta;
    assert forall w :: w in u.fleet.idle && w in t.fleet.meta ==> u.fleet.meta[w].surplusTimer == t.fleet.meta[w].surplusTimer;
    hide Reserve, Minus, Roster, Binds, Untimed, Good;
    UntimedChange(t, u);
    EvolvesTransitive(s, t, u);
    assert t.config == s.config && (s.draining ==> t.draining);
    hide Evolves;
    assert Timed(u);
  }

  // What takeIdleWorkersForProject has in hand: either nobody was exchanged, or all that fit are taken.
  lemma ExchangeForPreheat(s: Pool, p: Project, limit: nat)
    requires Inv(s) && Working(s) && !s.blocked
    ensures var t := Exchange(s, Strangers(s.fleet, p, limit), p);
            && Untimed(t) && Evolves(s, t) && |t.fleet.active| == |s.fleet.active| && Working(t)
            && (t == s || (Exchanged(s.fleet, t.fleet, p)
                           && |Fitting(t.fleet, t.fleet.idle, p)| <= Wanted(s.fleet, limit)))
  {
    var all := Mismatched(s.fleet, s.fleet.idle, p);
    var ws := Strangers(s.fleet, p, limit);
    OpenInv(s);
    MismatchedMembers(s.fleet, s.fleet.idle, p);
    TakeMembers(all, |ws|);
    var matching := |Fitting(s.fleet, s.fleet.idle, p)|;
    TakeMembers(all, if Wanted(s.fleet, limit) > matching then Wanted(s.fleet, limit) - matching else 0);
    assert NoDup(ws) && forall w :: w in ws ==> w in s.fleet.idle;
    assert ws != [] ==> matching + |ws| <= Wanted(s.fleet, limit);
    hide Inv, Untimed, Evolves, Exchange, Fitting, Mismatched, Take, Roster, Good, Strangers, Wanted;
    NoExchange(s, p);
    EvolvesReflexive(s);
    if ws != [] {
      assert ws[0] in ws;
      ExchangedSelf(s);
      ExchangeInv(s.fleet, s, ws, p);
    }
  }

  lemma NoExchange(s: Pool, p: Project)
    ensures Exchange(s, [], p) == s
  {
  }

  lemma ExchangedSelf(s: Pool)
    requires Inv(s)
    ensures forall p :: Exchanged(s.fleet, s.fleet, p)
    ensures forall w :: w in s.fleet.idle ==> w in s.fleet.meta
  {
  }

  lemma TakeForPreheatInv(s: Pool, p: Project, limit: nat)
    requires Inv(s) && Working(s) && !s.blocked
    ensures var t := TakeForPreheat(s, p, limit); Inv(t) && Evolves(s, t) && Working(t)
  {
    ExchangeForPreheat(s, p, limit);
    var t := Exchange(s, Strangers(s.fleet, p, limit), p);
    var all := Fitting(t.fleet, t.fleet.idle, p);
    var taken := TakenForPreheat(s, p, limit);
    FittingMembers(t.fleet, t.fleet.idle, p);
    TakeMembers(all, Wanted(s.fleet, limit));
    MinusMembers(t.fleet.idle, taken);
    ExchangedSelf(s);
    OpenInv(s);
    assert t != s ==> taken == all;
    hide Inv, Untimed, Evolves, Exchange, Fitting, Strangers, Take, Wanted, Minus, Roster, Good, Reserve, TakenForPreheat;
    if t != s {
      TakenIdle(s.fleet, t.fleet, taken, p);
    }
    ReserveInv(s, t, taken, p);
  }

  // Assignments touch only the workers they name.
  lemma {:induction false} AssignAllBinds(f: Fleet, ws: seq<Worker>, p: Project)
    requires forall w :: w in ws ==> w in f.meta && f.Accepts(w, p)
    ensures var g := AssignAll(f, ws, p);
            && g.idle == f.idle && g.active == f.active && g.tainted == f.tainted
            && (forall w :: w in ws ==> g.ProjectOf(w) == Some(p))
            && (forall w :: w !in ws ==> g.ProjectOf(w) == f.ProjectOf(w))
    decreases ws
  {
    if ws != [] {
      var g := Assign(f, ws[0], p);
      assert ws == [ws[0]] + ws[1..];
      AssignOneBinds(f, ws[0], p);
      hide Assign;
      AssignAllBinds(g, ws[1..], p);
    }
  }

  lemma AssignOneBinds(f: Fleet, w: Worker, p: Project)
    requires w in f.meta && f.Accepts(w, p)
    ensures var g := Assign(f, w, p);
            && g.idle == f.idle && g.active == f.active && g.tainted == f.tainted && g.ProjectOf(w) == Some(p)
            && (forall x :: x in f.meta <==> x in g.meta) && (forall x :: x != w ==> g.ProjectOf(x) == f.ProjectOf(x))
            && (forall x :: f.Accepts(x, p) ==> g.Accepts(x, p))
  {
  }

  // A bulk preheat takes distinct untainted workers out of the idle list, all bound to its project and still
  // active, as many as are wanted or all that fit.
  lemma PreheatTakesFitting(s: Pool, p: Project, limit: nat)
    requires Inv(s) && Working(s) && !s.blocked
    ensures var ws := TakenForPreheat(s, p, limit);
            var t := TakeForPreheat(s, p, limit);
            && NoDup(ws) && |ws| <= Wanted(s.fleet, limit)
            && (forall w :: w in ws ==> w in t.fleet.active && w !in t.fleet.idle && w !in t.fleet.tainted
                                        && t.fleet.ProjectOf(w) == Some(p))
            && (|ws| < Wanted(s.fleet, limit) ==> forall w :: w in t.fleet.idle ==> !Fits(t.fleet, w, p))
  {
    ExchangeForPreheat(s, p, limit);
    var t := Exchange(s, Strangers(s.fleet, p, limit), p);
    var all := Fitting(t.fleet, t.fleet.idle, p);
    var ws := TakenForPreheat(s, p, limit);
    FittingMembers(t.fleet, t.fleet.idle, p);
    TakeMembers(all, Wanted(s.fleet, limit));
    MinusMembers(t.fleet.idle, ws);
    OpenUntimed(t);
    assert |ws| < Wanted(s.fleet, limit) ==> ws == all;
    hide Inv, Untimed, Evolves, Exchange, Fitting, Strangers, Take, Wanted, Minus, TakenForPreheat, AssignAll, NoDup;
    AssignAllBinds(t.fleet.(idle := Minus(t.fleet.idle, ws)), ws, p);
  }

  lemma OpenUntimed(t: Pool)
    requires Untimed(t)
    ensures NoDup(t.fleet.idle)
    ensures forall w :: w in t.fleet.idle ==> w in t.fleet.active && w in t.fleet.meta
  {
    OpenInv(t);
    hide Good;
  }

  lemma PreheatInv(s: Pool, p: Project)
    requires Inv(s) && Working(s)
    ensures Inv(Preheat(s, p)) && Evolves(s, Preheat(s, p)) && Working(Preheat(s, p))
  {
    var i := IdleIndex(s.fleet, p);
    IdleIndexFacts(s.fleet, p);
    EvolvesReflexive(s);
    hide Inv, Evolves, TakeAt, Assign, IdleIndex;
    if i >= 0 {
      var t := s.(fleet := TakeAt(s.fleet, i));
      TakeAtInv(s, i);
      AssignInv(t, s.fleet.idle[i], p);
      EvolvesTransitive(s, t, t.(fleet := Assign(t.fleet, s.fleet.idle[i], p)));
    }
  }

  lemma AssignInv(s: Pool, w: Worker, p: Project)
    requires Inv(s) && Busy(s, w) && s.fleet.Accepts(w, p)
    ensures var t := s.(fleet := Assign(s.fleet, w, p)); Inv(t) && Evolves(s, t) && t.fleet.idle == s.fleet.idle
  {
    var t := s.(fleet := Assign(s.fleet, w, p));
    AssignRoster(s.fleet, {}, w, p);
    hide Roster, Assign, Binds, Good, Isolated;
    TimedStays(s, t);
    WorkersChange(s, t);
  }

  lemma BulkPreheatInv(s: Pool, p: Project, limit: nat, rotate: bool)
    requires Inv(s) && Working(s)
    ensures var t := BulkPreheat(s, p, limit, rotate); Inv(t) && Evolves(s, t) && Working(t)
  {
    EvolvesReflexive(s);
    if !s.draining && !s.blocked && !s.recovering {
      var t := if rotate then Rotate(s) else s;
      RotateInv(s);
      assert !t.blocked;
      hide Inv, Evolves, TakeForPreheat, Rotate;
      TakeForPreheatInv(t, p, limit);
      EvolvesTransitive(s, t, TakeForPreheat(t, p, limit));
    }
  }
}
