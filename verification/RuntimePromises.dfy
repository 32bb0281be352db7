/** What holds of the pool and its workers' slots together, and the one thing that can break it. */
module RuntimePromises {
  import opened Lists
  import opened PoolUses
  import opened SlotModel
  import opened RuntimeSystem
  import P = PoolModel
  import Q = PoolQueue
  import R = PoolRuns
  import S = PoolSteps
  import F = PoolFleet
  import X = ExecutionModel

  // Every run of the system is an admissible run of the pool: what the pool assumes of its workers, their
  // slots keep, so all that holds of the pool's runs holds here.
  lemma {:induction false} SystemIsAPoolRun(y: System, es: seq<SystemEvent>)
    requires Composed(y, {}) && Calm(y, es)
    ensures P.Admissible(y.pool, PoolSeesAll(y, es)) && SystemRun(y, es).pool == P.Run(y.pool, PoolSeesAll(y, es))
    decreases es
  {
    hide Composed, SystemStep, PoolSees, P.Step, P.Enabled, EarlyHandBack;
    if es == [] {
      NothingMore(y.pool);
    } else {
      SystemStepComposed(y, es[0]);
      StepOfPool(y, es[0]);
      SystemIsAPoolRun(SystemStep(y, es[0]), es[1..]);
      AdmissibleAppend(y.pool, PoolSees(y, es[0]), PoolSeesAll(SystemStep(y, es[0]), es[1..]));
    }
  }

  // An idle or parked worker is at rest: nothing runs on it, and no message of past work is on its way.
  lemma IdleIsAtRest(c: P.Config, es: seq<SystemEvent>, w: P.Worker)
    requires c.Valid() && Calm(Start(c), es)
    ensures var y := SystemRun(Start(c), es);
            w in y.pool.fleet.idle || w in y.pool.fleet.parked ==> w in y.slots && Open(y.slots[w]) && AtRest(y.slots[w])
  {
    var y := SystemRun(Start(c), es);
    Reached(c, es);
    if w in y.pool.fleet.idle || w in y.pool.fleet.parked {
      StartedExist(y.pool);
      OpenIsAtRest(y.slots[w]);
    }
    hide Faithful, SystemRun, Start, R.Reachable, AtRest, Calm;
  }

  lemma OpenIsAtRest(s: Slot)
    requires Faithful(s) && Open(s)
    ensures AtRest(s)
  {
  }

  // The pool begins work, and takes workers for preheats, only where the slot is free.
  lemma WorkMeetsFreeSlots(y: System, e: P.Event, i: nat)
    requires Composed(y, HandIn(e)) && P.Enabled(y.pool, e)
    ensures var t := P.Step(y.pool, e);
            && (|y.pool.queue.started| <= i < |t.queue.started| ==> Open(SlotOf(y.slots, t.queue.started[i].worker)))
            && (forall w :: w in Taken(y.pool, e) ==> Open(SlotOf(y.slots, w)))
  {
    var t := P.Step(y.pool, e);
    OpenReachable(y.pool);
    StepUses(y.pool, e);
    hide P.Step, P.Enabled, Composed, Open, Free, Taken, Reserved, R.Reachable;
    if |y.pool.queue.started| <= i < |t.queue.started| {
      assert Engages(y.pool, HandIn(e), t, {}, i);
      FreeIsOpen(y, HandIn(e), t.queue.started[i].worker);
    }
    hide Uses;
    TakenByPool(y.pool, e);
    forall w | w in Taken(y.pool, e) ensures Open(SlotOf(y.slots, w)) {
      ReservedNews(y.pool, t, w);
      FreeIsOpen(y, HandIn(e), w);
    }
  }

  // The request at place `i` of the log is the one that came as number `Turn(log, i)` to its worker.
  function Turn(log: seq<P.Start>, i: nat): nat
    requires i < |log|
  {
    |StartsOn(log[..i], log[i].worker)|
  }

  lemma TurnFacts(log: seq<P.Start>, i: nat)
    requires i < |log|
    ensures Turn(log, i) < |StartsOn(log, log[i].worker)| && StartsOn(log, log[i].worker)[Turn(log, i)] == log[i].request
  {
    var w := log[i].worker;
    assert log == log[..i] + log[i..];
    StartsOnAppend(log[..i], log[i..], w);
    assert log[i..][0] == log[i];
  }

  // Every started request is over, with its worker returned exactly once and answered if there was anything to
  // answer with, or it is the one execution under way on its worker.
  lemma StartedIsConcluded(c: P.Config, es: seq<SystemEvent>, i: nat)
    requires c.Valid() && Calm(Start(c), es) && i < |SystemRun(Start(c), es).pool.queue.started|
    ensures var y := SystemRun(Start(c), es);
            var w := y.pool.queue.started[i].worker;
            var k := Turn(y.pool.queue.started, i);
            && w in y.slots
            && var s := y.slots[w];
            && (k < |s.closed| ==> Concluded(s.closed[k]) && (!s.log.mute ==> Answered(s.closed[k])))
            && (k >= |s.closed| ==> k == |s.closed| && s.task.Some? && s.task.value.job.Execution?)
  {
    hide SystemRun, Start, Turn, StartsOn, R.Reachable, Coherent, Single, X.Spoken, Calm, Bulked;
    var y := SystemRun(Start(c), es);
    var w := y.pool.queue.started[i].worker;
    Reached(c, es);
    StartedExist(y.pool);
    TurnFacts(y.pool.queue.started, i);
  }

  ghost predicate NoneMute(m: Slots) {
    forall w :: w in m ==> !m[w].log.mute
  }

  lemma {:induction false} BeginAllMute(m: Slots, log: seq<P.Start>)
    requires NoneMute(m)
    ensures NoneMute(BeginAll(m, log))
    decreases log
  {
    if log != [] {
      var w := log[0].worker;
      StepIsNotMute(SlotOf(m, w), Assign);
      StepIsNotMute(SlotStep(SlotOf(m, w), Assign), Own(X.StartFailed));
      hide SlotStep;
      BeginAllMute(m[w := BegunOn(SlotOf(m, w), log[0].request.failsAtStart)], log[1..]);
    }
  }

  lemma FollowMute(y: System, e: P.Event)
    requires NoneMute(y.slots)
    ensures NoneMute(Follow(y, e).slots)
  {
    var m := BeginAll(y.slots, News(y.pool, P.Step(y.pool, e)));
    BeginAllMute(y.slots, News(y.pool, P.Step(y.pool, e)));
    forall w: P.Worker
      ensures !SlotOf(m, w).log.mute
      ensures !SlotStep(SlotOf(m, w), AssignPreheat).log.mute && !SlotStep(SlotOf(m, w), Forget).log.mute
    {
      StepIsNotMute(SlotOf(m, w), AssignPreheat);
      StepIsNotMute(SlotOf(m, w), Forget);
      hide SlotStep;
    }
    hide SlotStep, P.Step, BeginAll, Taken, News;
  }

  lemma SystemStepMute(y: System, e: SystemEvent)
    requires NoneMute(y.slots) && !(e.OfSlot? && e.what.CatchThrows?)
    ensures NoneMute(SystemStep(y, e).slots)
  {
    hide SlotStep, Follow, Ready, Missing, P.Enabled;
    forall s: Slot, what: SlotEvent | !what.CatchThrows? ensures SlotStep(s, what).log.mute == s.log.mute {
      StepIsNotMute(s, what);
    }
    forall x: System, event | NoneMute(x.slots) ensures NoneMute(Follow(x, event).slots) {
      FollowMute(x, event);
    }
  }

  lemma {:induction false} SystemMute(y: System, es: seq<SystemEvent>)
    requires NoneMute(y.slots) && forall e :: e in es ==> !(e.OfSlot? && e.what.CatchThrows?)
    ensures NoneMute(SystemRun(y, es).slots)
    decreases es
  {
    if es != [] {
      assert es[0] in es && forall e :: e in es[1..] ==> e in es;
      SystemStepMute(y, es[0]);
      hide SystemStep, NoneMute;
      SystemMute(SystemStep(y, es[0]), es[1..]);
    }
  }

  // If every value that tenant code throws has a text, every started request is answered exactly once, with its
  // worker returned exactly once, or it is the one execution under way on its worker.
  lemma StartedIsAnsweredOnce(c: P.Config, es: seq<SystemEvent>, i: nat)
    requires c.Valid() && Calm(Start(c), es) && i < |SystemRun(Start(c), es).pool.queue.started|
    requires forall e :: e in es ==> !(e.OfSlot? && e.what.CatchThrows?)
    ensures var y := SystemRun(Start(c), es);
            var w := y.pool.queue.started[i].worker;
            var k := Turn(y.pool.queue.started, i);
            && w in y.slots
            && var s := y.slots[w];
            && (k < |s.closed| ==> Answered(s.closed[k]))
            && (k >= |s.closed| ==> k == |s.closed| && s.task.Some? && s.task.value.job.Execution?)
  {
    StartedIsConcluded(c, es, i);
    assert NoneMute(Start(c).slots);
    hide SystemRun, Start, Turn, Calm, Concluded, Answered;
    SystemMute(Start(c), es);
  }

  // Different requests of one worker have different turns, so no answer counts for two of them.
  lemma TurnsDiffer(log: seq<P.Start>, i: nat, j: nat)
    requires i < j < |log| && log[i].worker == log[j].worker
    ensures Turn(log, i) < Turn(log, j)
  {
    TurnFacts(log[..j], i);
    assert log[..j][..i] == log[..i];
  }

  // Every request that has arrived is waiting, or was answered without being started, or was started at
  // exactly one place.
  lemma RequestsAreAccounted(c: P.Config, es: seq<SystemEvent>, r: P.Request)
    requires c.Valid() && Calm(Start(c), es) && r in SystemRun(Start(c), es).pool.queue.fate
    ensures var q := SystemRun(Start(c), es).pool.queue;
            match q.fate[r]
            case Queued => Q.Waiting(q, r) && !(exists i :: 0 <= i < |q.started| && q.started[i].request == r)
            case Answered => !Q.Waiting(q, r) && !(exists i :: 0 <= i < |q.started| && q.started[i].request == r)
            case Started =>
              && !Q.Waiting(q, r) && (exists i :: 0 <= i < |q.started| && q.started[i].request == r)
              && forall i, j :: 0 <= i < j < |q.started| && q.started[i].request == r ==> q.started[j].request != r
  {
    hide SystemRun, Start, F.Roster, Matched, Q.Waiting, Q.Consistent, Q.Bounded, S.Isolated, S.Timed, Calm, Bulked;
    Reached(c, es);
  }

  // ---- hand-backs that come too early ----------------------------------------------------------------------------------

  ghost predicate Accepted(y: System) {
    y.bulk.Some? ==> !y.bulk.value.rejected
  }

  // A hand-back meets a preheat that is not done only after a member could not be begun on every reserved worker.
  lemma EarlyNeedsRejection(y: System, e: SystemEvent)
    requires Composed(y, {}) && EarlyHandBack(y, e)
    ensures y.bulk.Some? && y.bulk.value.rejected && y.bulk.value.ending && e.worker in y.bulk.value.workers
  {
    hide R.Reachable, Faithful, WorkOf, StartsOn, Held;
  }

  lemma StepAccepted(y: System, e: SystemEvent)
    requires Accepted(y) && !(e.BulkNext? && Ready(y) && Missing(y))
    ensures Accepted(SystemStep(y, e))
  {
    hide SlotStep, P.Step, BeginAll, Settled, Taken, Ready, Missing, MayHandBack, Without, P.Enabled, OfItself;
  }

  lemma {:induction false} CalmWhileAccepted(y: System, es: seq<SystemEvent>)
    requires Composed(y, {}) && Accepted(y) && Undisturbed(y, es)
    ensures Calm(y, es)
    decreases es
  {
    if es != [] {
      StepAccepted(y, es[0]);
      hide SystemStep, Composed, Ready, Missing;
      if EarlyHandBack(y, es[0]) {
        EarlyNeedsRejection(y, es[0]);
        assert false;
      }
      hide EarlyHandBack;
      SystemStepComposed(y, es[0]);
      CalmWhileAccepted(SystemStep(y, es[0]), es[1..]);
    }
  }

  // If no reserved worker leaves the pool between its success for one member and the start of the next, no worker
  // is handed back too early, and all the promises hold.
  lemma UndisturbedIsCalm(c: P.Config, es: seq<SystemEvent>)
    requires c.Valid() && Undisturbed(Start(c), es)
    ensures Calm(Start(c), es)
  {
    StartComposed(c);
    hide Composed, Calm, Undisturbed, P.Initial;
    CalmWhileAccepted(Start(c), es);
  }

  // Exactly the workers that are still there have a preheat under way once the next member has begun.
  lemma BegunExactly(y: System, w: P.Worker)
    requires Composed(y, {}) && Ready(y) && w in y.bulk.value.workers
    ensures w in NextMemberOf(y).slots
    ensures Early(NextMemberOf(y).slots[w]) <==> w in y.pool.fleet.meta && !y.slots[w].gone
  {
    WasKept(y, w);
    NextSlot(y.slots[w]);
    hide Faithful, Composed, WorkOf, SlotStep, HasKept, Early, Open, Held;
  }

  lemma RejectedReturns(y: System, w: P.Worker)
    requires Composed(y, {}) && Ready(y) && w in y.bulk.value.workers && Missing(y)
    ensures MayHandBack(NextMemberOf(y), w)
  {
    BegunExactly(y, w);
    hide Composed, SlotStep, Early;
  }

  lemma EarlyAfterNext(y: System, w: P.Worker)
    requires Composed(y, {}) && Ready(y)
    ensures EarlyHandBack(NextMemberOf(y), OfSlot(w, HandBack, false)) <==>
              Missing(y) && w in y.bulk.value.workers && w in y.pool.fleet.meta && !y.slots[w].gone
  {
    var b := y.bulk.value;
    var z := NextMemberOf(y);
    assert z.bulk == Some(b.(members := b.members - 1, rejected := Missing(y), ending := Missing(y)));
    NextComposed(y);
    hide Composed, NextMemberOf, Ready, Missing, Early, MayHandBack;
    if EarlyHandBack(z, OfSlot(w, HandBack, false)) {
      EarlyNeedsRejection(z, OfSlot(w, HandBack, false));
      BegunExactly(y, w);
    } else if Missing(y) && w in b.workers {
      BegunExactly(y, w);
      RejectedReturns(y, w);
    }
  }

  // When the next member begins, a hand-back becomes possible that meets a preheat not done exactly when one of the
  // reserved workers has left the pool and another has not.
  lemma NextMemberExactly(y: System)
    requires Composed(y, {}) && Ready(y)
    ensures var z := SystemStep(y, BulkNext);
            (exists w :: EarlyHandBack(z, OfSlot(w, HandBack, false))) <==>
              Missing(y) && exists w <- y.bulk.value.workers :: w in y.pool.fleet.meta && !y.slots[w].gone
  {
    hide Composed, NextMemberOf, Missing, EarlyHandBack;
    var z := NextMemberOf(y);
    forall w
      ensures EarlyHandBack(z, OfSlot(w, HandBack, false)) <==>
                Missing(y) && w in y.bulk.value.workers && w in y.pool.fleet.meta && !y.slots[w].gone
    {
      EarlyAfterNext(y, w);
    }
    assert SystemStep(y, BulkNext) == z;
  }

  lemma WasKept(y: System, w: P.Worker)
    requires Composed(y, {}) && Ready(y) && w in y.bulk.value.workers
    ensures w in y.slots && Faithful(y.slots[w]) && HasKept(y.slots[w]) && !Early(y.slots[w])
  {
    hide Faithful, R.Reachable, WorkOf, StartsOn;
  }

  // ---- the end of a bulk preheat -------------------------------------------------------------------------------------

  // Once no reserved worker is at work on a preheat, the bulk preheat may end, and then each of its workers may be
  // handed back, none too early; when the last one is, the next bulk preheat may begin.
  lemma BulkEnds(y: System, w: P.Worker)
    requires Composed(y, {}) && y.bulk.Some? && w in y.bulk.value.workers
    requires forall v <- y.bulk.value.workers :: v in y.slots ==> !Preheats(y.slots[v])
    ensures var z := SystemStep(y, BulkEnd);
            var u := SystemStep(z, OfSlot(w, HandBack, false));
            && MayHandBack(z, w) && !Early(z.slots[w])
            && (u.bulk.None? <==> forall v <- y.bulk.value.workers :: v == w)
            && (u.bulk.Some? ==> forall v :: v in u.bulk.value.workers <==> v in y.bulk.value.workers && v != w)
  {
    hide Composed, SystemStep, Held, Without;
    BulkClosed(y);
    InBulk(y, w);
    LeavesBulk(SystemStep(y, BulkEnd), w);
    FewerWorkers(y.bulk.value.workers, w);
  }

  lemma BulkClosed(y: System)
    requires y.bulk.Some? && forall v <- y.bulk.value.workers :: v in y.slots ==> !Preheats(y.slots[v])
    ensures SystemStep(y, BulkEnd) == y.(bulk := Some(y.bulk.value.(ending := true)))
  {
    hide Preheats;
  }

  lemma InBulk(y: System, w: P.Worker)
    requires Composed(y, {}) && y.bulk.Some? && w in y.bulk.value.workers
    ensures w in y.slots && NoDup(y.bulk.value.workers)
  {
    hide Faithful, R.Reachable, WorkOf, StartsOn, Held;
  }

  lemma LeavesBulk(z: System, w: P.Worker)
    requires MayHandBack(z, w)
    ensures SystemStep(z, OfSlot(w, HandBack, false)).bulk == Fewer(z.bulk, w)
  {
    hide SlotStep, P.Step, BeginAll, Settled, Taken, Fewer;
  }

  lemma FewerWorkers(ws: seq<P.Worker>, w: P.Worker)
    requires NoDup(ws) && w in ws
    ensures forall v :: v in Without(ws, w) <==> v in ws && v != w
    ensures Without(ws, w) == [] <==> forall v <- ws :: v == w
  {
    WithoutMembers(ws, w);
    HasMember(Without(ws, w));
    hide Without;
  }
}
