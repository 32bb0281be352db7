/** What holds in every state that a run of the worker pool can reach. */
module PoolRuns {
  import opened Lists
  import opened PoolModel
  import opened PoolQueue
  import opened PoolFleet
  import opened PoolSteps
  import opened PoolHandlers
  import opened PoolPreheat

  // What every event keeps, changes of admission included.
  ghost predicate Proceeds(s: Pool, t: Pool) {
    t.config == s.config && (s.draining ==> t.draining) && Binds(s.fleet, t.fleet) && Settles(s.queue, t.queue)
  }

  // A blocked pool holds no parked worker, nor does one that may keep none.
  ghost predicate Rested(s: Pool) {
    s.blocked || s.config.parkedIdleMs == 0 ==> s.fleet.parked == []
  }

  ghost predicate Reachable(s: Pool) {
    Inv(s) && Working(s) && Rested(s)
  }

  lemma ProceedsTransitive(s: Pool, t: Pool, u: Pool)
    requires Proceeds(s, t) && Proceeds(t, u)
    ensures Proceeds(s, u)
  {
    BindsTransitive(s.fleet, t.fleet, u.fleet);
    hide Binds;
  }

  lemma EvolvesProceeds(s: Pool, t: Pool)
    requires Evolves(s, t)
    ensures Proceeds(s, t) && (Rested(s) ==> Rested(t)) && t.blocked == s.blocked && t.recovering == s.recovering
  {
    hide Binds, Settles;
  }

  // ---- admission -----------------------------------------------------------------------------

  lemma {:induction false} EvictAllInv(s: Pool, ws: seq<Worker>)
    requires Inv(s) && s.queue.order == [] && forall w :: w in s.fleet.parked ==> w in ws
    ensures var t := EvictAll(s, ws); Inv(t) && Evolves(s, t) && t.fleet.parked == [] && t.queue.order == []
    decreases ws
  {
    if ws == [] {
      HasMember(s.fleet.parked);
      EvolvesReflexive(s);
    } else {
      EvictParkedInv(s, ws[0]);
      EvictedLeaves(s, ws[0]);
      hide Inv, Evolves, EvictParked, Working;
      EvictAllInv(EvictParked(s, ws[0]), ws[1..]);
      EvolvesTransitive(s, EvictParked(s, ws[0]), EvictAll(s, ws));
    }
  }

  lemma EvictedLeaves(s: Pool, w: Worker)
    requires Inv(s)
    ensures forall x :: x in EvictParked(s, w).fleet.parked ==> x in s.fleet.parked && x != w
  {
    WithoutMembers(s.fleet.parked, w);
    if w in s.fleet.parked { DiscardFacts(s, w); }
    hide Without, Discard;
  }

  lemma IdleIsActive(s: Pool, w: Worker)
    requires Inv(s)
    ensures w in s.fleet.idle ==> w in s.fleet.active
  {
    OpenInv(s);
    hide Inv, Good;
  }

  lemma {:induction false} TrimIdleInv(s: Pool, ws: seq<Worker>)
    requires Inv(s) && s.queue.order == [] && NoDup(ws) && forall w :: w in ws ==> w in s.fleet.idle
    ensures var t := TrimIdle(s, ws); Inv(t) && Evolves(s, t) && t.queue.order == []
    decreases ws
  {
    hide Evolves, RetireSurplus, Inv;
    if ws == [] || |s.fleet.active| <= s.config.size {
      EvolvesReflexive(s);
    } else {
      IdleIsActive(s, ws[0]);
      RetireSurplusInv(s, ws[0]);
      assert forall w :: w in ws[1..] ==> w in ws && w != ws[0];
      TrimIdleInv(RetireSurplus(s, ws[0]), ws[1..]);
      EvolvesTransitive(s, RetireSurplus(s, ws[0]), TrimIdle(s, ws));
    }
  }

  lemma FlagsOnly(s: Pool, blocked: bool, recovering: bool)
    requires Inv(s) && (blocked ==> s.queue.order == [])
    ensures var t := s.(blocked := blocked, recovering := recovering && !blocked); Inv(t) && Proceeds(s, t)
  {
    hide Good, Roster;
  }

  lemma FlagsInv(s: Pool, blocked: bool, recovering: bool)
    requires Inv(s) && Working(s)
    ensures var t := s.(blocked := blocked, recovering := recovering && !blocked,
                        queue := if blocked then Clear(s.queue) else s.queue);
            Inv(t) && Proceeds(s, t) && Working(t) && (blocked ==> t.queue.order == [])
  {
    var c := s.(queue := if blocked then Clear(s.queue) else s.queue);
    OpenInv(s);
    ClearGood(s.queue);
    assert Settles(s.queue, Clear(s.queue)) && Settles(s.queue, s.queue);
    assert blocked ==> c.queue.order == [];
    hide Inv, Evolves, Proceeds, Good, Clear, Settles, Untimed;
    QueueChange(s, c);
    EvolvesProceeds(s, c);
    FlagsOnly(c, blocked, recovering);
    ProceedsTransitive(s, c, c.(blocked := blocked, recovering := recovering && !blocked));
  }

  lemma SetAdmissionInv(s: Pool, blocked: bool, recovering: bool)
    requires Reachable(s)
    ensures var t := SetAdmission(s, blocked, recovering);
            Reachable(t) && Proceeds(s, t) && t.blocked == blocked && t.recovering == (recovering && !blocked)
  {
    FlagsInv(s, blocked, recovering);
    if s.blocked == blocked && s.recovering == recovering {
      EvolvesReflexive(s);
      EvolvesProceeds(s, s);
    } else if blocked {
      var c := s.(blocked := blocked, recovering := recovering && !blocked, queue := Clear(s.queue));
      assert c == s.(blocked := blocked, recovering := recovering && !blocked).(queue := Clear(s.queue));
      BlockInv(s, c);
    }
  }

  lemma BlockInv(s: Pool, c: Pool)
    requires Inv(c) && Proceeds(s, c) && c.queue.order == []
    ensures var t := Shed(c);
            Reachable(t) && Proceeds(s, t) && t.blocked == c.blocked && t.recovering == c.recovering
  {
    hide Evolves, Proceeds, EvictAll, TrimIdle, Rested, Without, Good, Isolated, Binds;
    var e := EvictAll(c, c.fleet.parked);
    EvictAllInv(c, c.fleet.parked);
    OpenInv(e);
    TrimIdleInv(e, e.fleet.idle);
    var t := TrimIdle(e, e.fleet.idle);
    EvolvesTransitive(c, e, t);
    EvolvesProceeds(c, t);
    ProceedsTransitive(s, c, t);
    TrimKeepsRested(e, t);
  }

  lemma TrimKeepsRested(e: Pool, t: Pool)
    requires Evolves(e, t) && e.fleet.parked == []
    ensures Rested(t)
  {
  }

  // ---- start ---------------------------------------------------------------------------------

  lemma NewcomerIsNew(f: Fleet)
    requires Roster(f, {})
    ensures f.next !in f.idle && f.next !in f.active && f.next !in f.parked
  {
  }

  lemma {:induction false} WarmRoster(f: Fleet, n: nat)
    requires Roster(f, {}) && f.idle == f.active
    ensures var g := Warm(f, n);
            Roster(g, {}) && g.idle == g.active && |g.active| == |f.active| + n && g.parked == f.parked
    decreases n
  {
    hide Roster, NoDup;
    if n > 0 {
      CreateRoster(f);
      NewcomerIsNew(f);
      var g := Activate(ToIdle(Create(f), f.next), f.next);
      assert g == ToIdle(Activate(Create(f), f.next), f.next);
      ActivateRoster(Create(f), f.next);
      ToIdleRoster(Activate(Create(f), f.next), f.next);
      WarmRoster(g, n - 1);
    }
  }

  lemma InitialInv(c: Config)
    requires c.Valid()
    ensures Reachable(Initial(c))
  {
    hide Warm;
    WarmRoster(Fleet([], [], [], {}, map[], {}, 0, 0, 0, false), c.size);
    hide Roster;
  }

  // ---- steps and runs ------------------------------------------------------------------------

  lemma FinishInv(s: Pool, w: Worker, over: bool)
    requires Inv(s) && Working(s) && w !in s.fleet.idle && w < s.fleet.next
    ensures var t := Step(s, Finish(w, over)); Inv(t) && Evolves(s, t) && Working(t)
  {
    hide Inv, Evolves, Recycle;
    var t := s.(fleet := Taint(s.fleet, {w}));
    TaintInv(s, {w});
    RecycleInv(s, w);
    RecycleInv(t, w);
    EvolvesTransitive(s, t, Recycle(t, w));
  }

  lemma StepEvolves(s: Pool, e: Event)
    requires Inv(s) && Working(s) && Enabled(s, e) && !e.Admission?
    ensures var t := Step(s, e); Inv(t) && Evolves(s, t) && Working(t)
  {
    hide Inv, Evolves, Dispatch, Recycle, Retire, OnExit, SurplusTimerFired, EvictParked, InvalidateProject,
         CancelQueued, Preheat, BulkPreheat, StopDispatching, SetAdmission;
    match e
    case Arrive(p, f) => DispatchInv(s, p, f);
    case Finish(w, over) => FinishInv(s, w, over);
    case Lose(w) => RetireInv(s, w);
    case Exit(w) => OnExitInv(s, w);
    case TaintBusy(w) => TaintInv(s, {w});
    case ParkedTimer(w) => EvictParkedInv(s, w);
    case SurplusTimer(w) => SurplusTimerInv(s, w);
    case RetirementDeadline(w) => DeadlineInv(s, w);
    case Cancel(r) => CancelInv(s, r);
    case Invalidate(p) => InvalidateInv(s, p);
    case PreheatOne(p) => PreheatInv(s, p);
    case PreheatMany(p, n, rotate) => BulkPreheatInv(s, p, n, rotate);
    case Drain => DrainInv(s);
  }

  lemma StepReachable(s: Pool, e: Event)
    requires Reachable(s) && Enabled(s, e)
    ensures Reachable(Step(s, e)) && Proceeds(s, Step(s, e))
  {
    hide Inv, Evolves, Proceeds, Rested, Working;
    if e.Admission? {
      SetAdmissionInv(s, e.block, e.recover);
    } else {
      StepEvolves(s, e);
      EvolvesProceeds(s, Step(s, e));
    }
  }

  lemma {:induction false} RunReachable(s: Pool, es: seq<Event>)
    requires Reachable(s) && Admissible(s, es)
    ensures Reachable(Run(s, es)) && Proceeds(s, Run(s, es))
    decreases es
  {
    hide Reachable, Proceeds, Step, Enabled;
    if es == [] {
      ProceedsReflexive(s);
    } else {
      StepReachable(s, es[0]);
      RunReachable(Step(s, es[0]), es[1..]);
      ProceedsTransitive(s, Step(s, es[0]), Run(s, es));
    }
  }

  lemma ProceedsReflexive(s: Pool)
    ensures Proceeds(s, s)
  {
  }

  lemma {:induction false} RunAppend(s: Pool, es: seq<Event>, more: seq<Event>)
    ensures Run(s, es + more) == Run(Run(s, es), more)
    ensures Admissible(s, es + more) ==> Admissible(s, es) && Admissible(Run(s, es), more)
    decreases es
  {
    if es == [] {
      assert es + more == more;
    } else {
      assert (es + more)[1..] == es[1..] + more;
      hide Step, Enabled;
      RunAppend(Step(s, es[0]), es[1..], more);
    }
  }
}
