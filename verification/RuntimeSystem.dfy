/**
 The worker pool together with the slot of each of its workers. The pool begins executions and preheats on the
 slots; what happens in a slot hands its worker back to the pool. A bulk preheat reserves several workers, preheats
 one function after the other on all of them, and hands them back together. What each side assumes of the other is
 proved here: work is given only to free slots, and only busy workers come back.
 */
module RuntimeSystem {
  import opened Lists
  import opened PoolUses
  import opened SlotModel
  import P = PoolModel
  import Q = PoolQueue
  import R = PoolRuns
  import S = PoolSteps
  import F = PoolFleet
  import H = PoolHandlers
  import PH = PoolPreheat
  import X = ExecutionModel

  type Slots = map<P.Worker, Slot>

  // `members`: the functions still to be preheated; `rejected`: a member could not be begun on every worker;
  // `ending`: the workers are being handed back.
  datatype Bulk = Bulk(workers: seq<P.Worker>, members: nat, rejected: bool, ending: bool)

  datatype System = System(pool: P.Pool, slots: Slots, bulk: Option<Bulk>)

  // Bulk preheats run one after the other.
  datatype SystemEvent =
    | OfPool(event: P.Event)
    | OfSlot(worker: P.Worker, what: SlotEvent, overBudget: bool)
    | BulkBegin(project: P.Project, limit: nat, rotate: bool, members: nat)
    | BulkNext
    | BulkEnd

  function SlotOf(m: Slots, w: P.Worker): Slot {
    if w in m then m[w] else EMPTY
  }

  // `execute` begins on the worker; a request that fails at once is over at once.
  function BegunOn(s: Slot, failsAtStart: bool): Slot {
    var a := SlotStep(s, Assign);
    if failsAtStart then SlotStep(a, Own(X.StartFailed)) else a
  }

  function BeginAll(m: Slots, log: seq<P.Start>): Slots
    decreases log
  {
    if log == [] then m
    else
      var w := log[0].worker;
      BeginAll(m[w := BegunOn(SlotOf(m, w), log[0].request.failsAtStart)], log[1..])
  }

  // Preheats begin on the workers taken; workers that the pool has dropped are told to retire.
  function Settled(m: Slots, taken: seq<P.Worker>, f: P.Fleet): Slots {
    map w: P.Worker | 0 <= w < f.next ::
      if w in taken then SlotStep(SlotOf(m, w), AssignPreheat)
      else if w in f.meta then SlotOf(m, w)
      else SlotStep(SlotOf(m, w), Forget)
  }

  // The requests that the pool starts in a step.
  function News(s: P.Pool, t: P.Pool): seq<P.Start> {
    if s.queue.started <= t.queue.started then t.queue.started[|s.queue.started|..] else []
  }

  // An event of the pool, with what it begins on the slots.
  function Follow(y: System, e: P.Event): System {
    var t := P.Step(y.pool, e);
    y.(pool := t, slots := Settled(BeginAll(y.slots, News(y.pool, t)), Taken(y.pool, e), t.fleet))
  }

  // The pool's part in the slots is done by the other events.
  predicate OfItself(e: SlotEvent) {
    !e.Assign? && !e.AssignPreheat? && !e.NextMember? && !e.HandBack? && !e.Forget?
  }

  predicate Preheats(s: Slot) {
    s.task.Some? && s.task.value.job.Preheating?
  }

  predicate HasKept(s: Slot) {
    s.task.Some? && s.task.value.job.Kept?
  }

  predicate Reserves(y: System, w: P.Worker) {
    y.bulk.Some? && w in y.bulk.value.workers
  }

  // The workers of a bulk preheat are handed back once it is ending, any other when its preheat is done.
  predicate MayHandBack(y: System, w: P.Worker) {
    w in y.slots && if Reserves(y, w) then y.bulk.value.ending else HasKept(y.slots[w])
  }

  function Fewer(b: Option<Bulk>, w: P.Worker): Option<Bulk> {
    if b.None? || w !in b.value.workers then b
    else if Without(b.value.workers, w) == [] then None
    else Some(b.value.(workers := Without(b.value.workers, w)))
  }

  function HandedBack(y: System, w: P.Worker): System
    requires w in y.slots
  {
    y.(slots := y.slots[w := SlotStep(y.slots[w], HandBack)], bulk := Fewer(y.bulk, w))
  }

  // The next member may begin when all reserved workers have succeeded with the last.
  predicate Ready(y: System) {
    && y.bulk.Some? && !y.bulk.value.ending && y.bulk.value.members > 0
    && forall w <- y.bulk.value.workers :: w in y.slots && HasKept(y.slots[w])
  }

  predicate Missing(y: System) {
    y.bulk.Some? && exists w <- y.bulk.value.workers :: w !in y.pool.fleet.meta
  }

  // A reserved worker that has left the pool makes the whole preheat fail at once, while the others have begun.
  function NextMemberOf(y: System): System {
    if !Ready(y) then y
    else
      var b := y.bulk.value;
      y.(slots := map w | w in y.slots ::
           if w in b.workers && w in y.pool.fleet.meta then SlotStep(y.slots[w], NextMember) else y.slots[w],
         bulk := Some(b.(members := b.members - 1, rejected := Missing(y), ending := Missing(y))))
  }

  // Otherwise the workers are handed back when none is at work any more.
  function EndBulk(y: System): System {
    if y.bulk.Some? && !y.bulk.value.ending
      && (forall w <- y.bulk.value.workers :: w in y.slots ==> !Preheats(y.slots[w]))
    then y.(bulk := Some(y.bulk.value.(ending := true))) else y
  }

  function BeginBulk(y: System, p: P.Project, limit: nat, rotate: bool, members: nat): System {
    if y.bulk.Some? then y
    else
      var e := P.PreheatMany(p, limit, rotate);
      var ws := Taken(y.pool, e);
      Follow(y, e).(bulk := if ws == [] then None else Some(Bulk(ws, members, false, false)))
  }

  // Work that has ended gives its worker back to the pool, or up.
  function GivenBack(w: P.Worker, after: Slot, overBudget: bool): P.Event {
    if after.gone then P.Lose(w) else P.Finish(w, overBudget)
  }

  function OwnEvent(y: System, w: P.Worker, what: SlotEvent, overBudget: bool): System
    requires w in y.slots
  {
    var after := SlotStep(y.slots[w], what);
    var z := y.(slots := y.slots[w := after]);
    if y.slots[w].task.Some? && after.task.None? then Follow(z, GivenBack(w, after, overBudget)) else z
  }

  // A draining pool takes no worker back from a preheat.
  function HandBackEvent(y: System, w: P.Worker): System
    requires w in y.slots
  {
    var z := HandedBack(y, w);
    if y.pool.draining || y.slots[w].gone then z else Follow(z, P.Finish(w, false))
  }

  function SystemStep(y: System, e: SystemEvent): System {
    match e
    case OfPool(event) =>
      if event.Finish? || event.PreheatMany? || !P.Enabled(y.pool, event) then y else Follow(y, event)
    case OfSlot(w, what, over) =>
      if what.HandBack? then if MayHandBack(y, w) then HandBackEvent(y, w) else y
      else if w !in y.slots || !OfItself(what) then y
      else OwnEvent(y, w, what, over)
    case BulkBegin(p, limit, rotate, members) => BeginBulk(y, p, limit, rotate, members)
    case BulkNext => NextMemberOf(y)
    case BulkEnd => EndBulk(y)
  }

  function SystemRun(y: System, es: seq<SystemEvent>): System
    decreases es
  {
    if es == [] then y else SystemRun(SystemStep(y, es[0]), es[1..])
  }

  function Start(c: P.Config): System {
    var s := P.Initial(c);
    System(s, map w: P.Worker | 0 <= w < s.fleet.next :: SlotOf(map[], w), None)
  }

  // A worker is handed back although its preheat is not done.
  predicate EarlyHandBack(y: System, e: SystemEvent) {
    e.OfSlot? && e.what.HandBack? && MayHandBack(y, e.worker) && Early(y.slots[e.worker])
  }

  // No worker is handed back too early.
  predicate Calm(y: System, es: seq<SystemEvent>)
    decreases es
  {
    es == [] || (!EarlyHandBack(y, es[0]) && Calm(SystemStep(y, es[0]), es[1..]))
  }

  // No reserved worker leaves the pool between its success for one member and the start of the next.
  predicate Undisturbed(y: System, es: seq<SystemEvent>)
    decreases es
  {
    es == [] || (!(es[0].BulkNext? && Ready(y) && Missing(y)) && Undisturbed(SystemStep(y, es[0]), es[1..]))
  }

  // ---- the invariant ---------------------------------------------------------------------------------------

  predicate Open(s: Slot) {
    s.task == None && !s.gone
  }

  // How many executions have begun on the slot.
  function WorkOf(s: Slot): nat {
    |s.closed| + if s.task.Some? && s.task.value.job.Execution? then 1 else 0
  }

  function StartsOn(log: seq<P.Start>, w: P.Worker): seq<P.Request>
    decreases log
  {
    if log == [] then []
    else (if log[0].worker == w then [log[0].request] else []) + StartsOn(log[1..], w)
  }

  // The slots are those of the pool's workers, and each has begun what the pool started on it.
  ghost predicate Matched(m: Slots, s: P.Pool) {
    && (forall w: P.Worker :: w in m <==> w < s.fleet.next)
    && (forall w :: w in m ==> Faithful(m[w]) && WorkOf(m[w]) == |StartsOn(s.queue.started, w)|)
  }

  // Reserved for a preheat: under way, done, or lost.
  ghost predicate Held(s: Slot) {
    if s.task.None? then s.gone else !s.task.value.job.Execution?
  }

  // The workers of a bulk preheat are reserved; when it ends without a rejection none is at work.
  ghost predicate Bulked(m: Slots, bulk: Option<Bulk>) {
    bulk.Some? ==>
      && NoDup(bulk.value.workers)
      && forall w <- bulk.value.workers ::
           w in m && Held(m[w]) && (bulk.value.ending && !bulk.value.rejected ==> !Preheats(m[w]))
  }

  // Free workers have free slots.
  ghost predicate Composed(y: System, hand: set<P.Worker>) {
    && R.Reachable(y.pool) && Matched(y.slots, y.pool) && Bulked(y.slots, y.bulk)
    && (forall w :: w in y.slots && Free(y.pool.fleet, hand, w) ==> Open(y.slots[w]))
  }

  // ---- the slots while work begins -----------------------------------------------------------------------------

  lemma BegunSlot(s: Slot, failsAtStart: bool)
    requires Open(s) && Faithful(s)
    ensures var t := BegunOn(s, failsAtStart);
            Faithful(t) && WorkOf(t) == WorkOf(s) + 1 && (failsAtStart ==> Open(t))
  {
    SlotStepFaithful(s, Assign);
    SlotStepFaithful(SlotStep(s, Assign), Own(X.StartFailed));
    hide Faithful;
  }

  lemma {:induction false} StartsOnAppend(a: seq<P.Start>, b: seq<P.Start>, w: P.Worker)
    ensures StartsOn(a + b, w) == StartsOn(a, w) + StartsOn(b, w)
    decreases a
  {
    if a == [] {
      assert a + b == b;
    } else {
      var first := if a[0].worker == w then [a[0].request] else [];
      assert (a + b)[0] == a[0] && (a + b)[1..] == a[1..] + b;
      StartsOnAppend(a[1..], b, w);
      calc {
        StartsOn(a + b, w);
        first + StartsOn(a[1..] + b, w);
        first + (StartsOn(a[1..], w) + StartsOn(b, w));
        (first + StartsOn(a[1..], w)) + StartsOn(b, w);
        StartsOn(a, w) + StartsOn(b, w);
      }
    }
  }

  // Each start of the log finds a free slot.
  ghost predicate Welcome(m: Slots, log: seq<P.Start>) {
    && (forall w: P.Worker :: Faithful(SlotOf(m, w)))
    && (forall i :: 0 <= i < |log| ==> Open(SlotOf(m, log[i].worker)))
    && (forall i, j :: 0 <= i < j < |log| && !log[i].request.failsAtStart ==> log[j].worker != log[i].worker)
  }

  // Everything that the log starts on the worker fails at once.
  ghost predicate AllFail(log: seq<P.Start>, w: P.Worker) {
    forall i :: 0 <= i < |log| && log[i].worker == w ==> log[i].request.failsAtStart
  }

  // From `s` to `t`, `n` executions have begun, and if all failed at once the slot is as open as before.
  ghost predicate Advanced(s: Slot, t: Slot, n: nat, allFail: bool) {
    Faithful(t) && WorkOf(t) == WorkOf(s) + n && (Open(s) && allFail ==> Open(t))
  }

  lemma {:induction false} BeginAllSlots(m: Slots, log: seq<P.Start>, w: P.Worker)
    requires Welcome(m, log)
    ensures Advanced(SlotOf(m, w), SlotOf(BeginAll(m, log), w), |StartsOn(log, w)|, AllFail(log, w))
    decreases log
  {
    hide Faithful, BegunOn, WorkOf, Open;
    if log == [] {
    } else {
      var v := log[0].worker;
      var b := BegunOn(SlotOf(m, v), log[0].request.failsAtStart);
      assert Open(SlotOf(m, log[0].worker));
      BegunSlot(SlotOf(m, v), log[0].request.failsAtStart);
      WelcomeRest(m, log, b);
      RestFails(log, w);
      hide Welcome, StartsOn, AllFail;
      BeginAllSlots(m[v := b], log[1..], w);
      StartsOnFirst(log, w);
    }
  }

  lemma StartsOnFirst(log: seq<P.Start>, w: P.Worker)
    requires log != []
    ensures |StartsOn(log, w)| == (if log[0].worker == w then 1 else 0) + |StartsOn(log[1..], w)|
  {
  }

  lemma RestFails(log: seq<P.Start>, w: P.Worker)
    requires log != []
    ensures AllFail(log, w) ==> AllFail(log[1..], w) && (log[0].worker == w ==> log[0].request.failsAtStart)
  {
  }

  lemma WelcomeRest(m: Slots, log: seq<P.Start>, b: Slot)
    requires Welcome(m, log) && log != [] && Faithful(b) && (log[0].request.failsAtStart ==> Open(b))
    ensures Welcome(m[log[0].worker := b], log[1..])
  {
    var z, rest := m[log[0].worker := b], log[1..];
    hide Faithful, Open;
    assert forall i :: 0 <= i < |rest| ==> rest[i] == log[i + 1];
    forall w: P.Worker ensures Faithful(SlotOf(z, w)) {
      assert Faithful(SlotOf(m, w));
    }
    forall i | 0 <= i < |rest| ensures Open(SlotOf(z, rest[i].worker)) {
      assert Open(SlotOf(m, log[i + 1].worker));
      assert log[i + 1].worker == log[0].worker ==> log[0].request.failsAtStart;
    }
  }

  // ---- events of the pool ----------------------------------------------------------------------------------------

  lemma FollowWelcome(y: System, e: P.Event)
    requires Composed(y, HandIn(e)) && Uses(y.pool, HandIn(e), P.Step(y.pool, e), {})
    ensures Welcome(y.slots, News(y.pool, P.Step(y.pool, e)))
    ensures P.Step(y.pool, e).queue.started == y.pool.queue.started + News(y.pool, P.Step(y.pool, e))
  {
    var s, t := y.pool, P.Step(y.pool, e);
    var log := News(s, t);
    var n := |s.queue.started|;
    EmptyIsFaithful();
    hide Faithful, P.Step, R.Reachable, WorkOf, StartsOn;
    assert forall i :: 0 <= i < |log| ==> log[i] == t.queue.started[n + i];
    forall i | 0 <= i < |log|
      ensures Open(SlotOf(y.slots, log[i].worker))
      ensures !log[i].request.failsAtStart ==> forall j :: i < j < |log| ==> log[j].worker != log[i].worker
    {
      assert Engages(s, HandIn(e), t, {}, n + i);
    }
  }

  lemma EmptyIsFaithful()
    ensures Faithful(EMPTY) && Open(EMPTY) && WorkOf(EMPTY) == 0
  {
  }

  // A worker that is free after the step was free before, and whatever began on it is over.
  lemma StillFree(s: P.Pool, hand: set<P.Worker>, t: P.Pool, w: P.Worker)
    requires Uses(s, hand, t, {}) && Free(t.fleet, {}, w)
    ensures Free(s.fleet, hand, w)
    ensures AllFail(News(s, t), w)
  {
    hide Free;
    var n := |s.queue.started|;
    forall i | 0 <= i < |News(s, t)| && News(s, t)[i].worker == w ensures News(s, t)[i].request.failsAtStart {
      assert Engages(s, hand, t, {}, n + i);
    }
  }

  lemma ReservedNews(s: P.Pool, t: P.Pool, w: P.Worker)
    requires Reserved(s, t, w)
    ensures Free(s.fleet, {}, w) && !Free(t.fleet, {}, w)
    ensures AllFail(News(s, t), w)
  {
    hide Free;
    var n := |s.queue.started|;
    assert forall i :: 0 <= i < |News(s, t)| ==> News(s, t)[i] == t.queue.started[n + i];
  }

  // What was free before had a free slot, created or not.
  lemma FreeIsOpen(y: System, hand: set<P.Worker>, w: P.Worker)
    requires Composed(y, hand) && Free(y.pool.fleet, hand, w)
    ensures Open(SlotOf(y.slots, w))
  {
    EmptyIsFaithful();
    hide Faithful, R.Reachable;
  }

  lemma {:induction false} NoneStarted(log: seq<P.Start>, w: P.Worker)
    requires forall i :: 0 <= i < |log| ==> log[i].worker != w
    ensures StartsOn(log, w) == []
    decreases log
  {
    if log != [] { NoneStarted(log[1..], w); }
  }

  lemma WorkBefore(y: System, hand: set<P.Worker>, w: P.Worker)
    requires Composed(y, hand)
    ensures WorkOf(SlotOf(y.slots, w)) == |StartsOn(y.pool.queue.started, w)|
  {
    EmptyIsFaithful();
    if w !in y.slots {
      StartedExist(y.pool);
      NoneStarted(y.pool.queue.started, w);
    }
    hide Faithful, R.Reachable;
  }

  lemma StartedExist(s: P.Pool)
    requires R.Reachable(s)
    ensures forall i :: 0 <= i < |s.queue.started| ==> s.queue.started[i].worker < s.fleet.next
    ensures forall w :: w in s.fleet.idle || w in s.fleet.parked ==> w in s.fleet.meta && w < s.fleet.next
  {
    hide Q.Good;
  }

  lemma PoolSideSlot(s: Slot, e: SlotEvent)
    requires Faithful(s) && (e.Forget? || (e.AssignPreheat? && Open(s)))
    ensures Faithful(SlotStep(s, e)) && WorkOf(SlotStep(s, e)) == WorkOf(s)
  {
    SlotStepFaithful(s, e);
    hide Faithful;
  }

  // What has begun on a slot in an event of the pool.
  lemma BegunInStep(y: System, e: P.Event, w: P.Worker)
    requires Composed(y, HandIn(e)) && Uses(y.pool, HandIn(e), P.Step(y.pool, e), {})
    ensures var t := P.Step(y.pool, e);
            var b := SlotOf(BeginAll(y.slots, News(y.pool, t)), w);
            && Faithful(b) && WorkOf(b) == |StartsOn(t.queue.started, w)|
            && (Open(SlotOf(y.slots, w)) && AllFail(News(y.pool, t), w) ==> Open(b))
  {
    hide Faithful, Composed, P.Step, WorkOf, StartsOn, BeginAll, Uses, Welcome, News, Open, AllFail;
    var log := News(y.pool, P.Step(y.pool, e));
    FollowWelcome(y, e);
    WorkBefore(y, HandIn(e), w);
    BeginAllSlots(y.slots, log, w);
    StartsOnAppend(y.pool.queue.started, log, w);
  }

  // A slot is open for the preheat of a worker that was taken, and open after the step if its worker is free.
  lemma OpenInStep(y: System, e: P.Event, w: P.Worker)
    requires Composed(y, HandIn(e)) && Uses(y.pool, HandIn(e), P.Step(y.pool, e), {})
    requires w in Taken(y.pool, e) ==> Reserved(y.pool, P.Step(y.pool, e), w)
    ensures var t := P.Step(y.pool, e);
            w in Taken(y.pool, e) || Free(t.fleet, {}, w) ==> Open(SlotOf(y.slots, w)) && AllFail(News(y.pool, t), w)
    ensures w in Taken(y.pool, e) ==> !Free(P.Step(y.pool, e).fleet, {}, w)
  {
    var t := P.Step(y.pool, e);
    TakenByPool(y.pool, e);
    hide Composed, P.Step, Uses, News, Open, Free, Reserved, Taken, AllFail;
    if w in Taken(y.pool, e) {
      ReservedNews(y.pool, t, w);
      FreeIsOpen(y, {}, w);
    } else if Free(t.fleet, {}, w) {
      StillFree(y.pool, HandIn(e), t, w);
      FreeIsOpen(y, HandIn(e), w);
    }
  }

  lemma SettledAt(m: Slots, taken: seq<P.Worker>, f: P.Fleet, w: P.Worker)
    requires w < f.next
    ensures var z := Settled(m, taken, f);
            w in z && (z[w] == SlotOf(m, w) || z[w] == SlotStep(SlotOf(m, w), if w in taken then AssignPreheat else Forget))
    ensures w !in taken && w in f.meta ==> Settled(m, taken, f)[w] == SlotOf(m, w)
    ensures w in taken ==> Settled(m, taken, f)[w] == SlotStep(SlotOf(m, w), AssignPreheat)
  {
    hide SlotStep, SlotOf;
  }

  // One slot after an event of the pool.
  lemma FollowSlot(y: System, e: P.Event, w: P.Worker)
    requires Composed(y, HandIn(e)) && Uses(y.pool, HandIn(e), P.Step(y.pool, e), {})
    requires R.Reachable(P.Step(y.pool, e))
    requires w in Taken(y.pool, e) ==> Reserved(y.pool, P.Step(y.pool, e), w)
    requires w < P.Step(y.pool, e).fleet.next
    ensures var z := Follow(y, e);
            && w in z.slots && Faithful(z.slots[w]) && WorkOf(z.slots[w]) == |StartsOn(z.pool.queue.started, w)|
            && (Free(z.pool.fleet, {}, w) ==> Open(z.slots[w]))
  {
    hide Faithful, Composed, P.Step, R.Reachable, WorkOf, StartsOn, BeginAll, Uses, Reserved, Taken, SlotStep, News,
         Open, Free, AllFail, Settled, SlotOf;
    var t := P.Step(y.pool, e);
    var b := SlotOf(BeginAll(y.slots, News(y.pool, t)), w);
    BegunInStep(y, e, w);
    OpenInStep(y, e, w);
    if Free(t.fleet, {}, w) { FreeHasMeta(t, w); }
    SettledAt(BeginAll(y.slots, News(y.pool, t)), Taken(y.pool, e), t.fleet, w);
    if w in Taken(y.pool, e) {
      PoolSideSlot(b, AssignPreheat);
    } else {
      PoolSideSlot(b, Forget);
    }
  }

  lemma FreeHasMeta(s: P.Pool, w: P.Worker)
    requires R.Reachable(s) && w < s.fleet.next && Free(s.fleet, {}, w)
    ensures w in s.fleet.meta
  {
    StartedExist(s);
    hide R.Reachable;
  }

  lemma TakenByPool(s: P.Pool, e: P.Event)
    ensures Taken(s, e) != [] ==> HandIn(e) == {}
  {
  }

  lemma {:induction false} BeginAllOthers(m: Slots, log: seq<P.Start>, w: P.Worker)
    requires forall i :: 0 <= i < |log| ==> log[i].worker != w
    ensures SlotOf(BeginAll(m, log), w) == SlotOf(m, w)
    decreases log
  {
    hide BegunOn;
    if log != [] {
      BeginAllOthers(m[log[0].worker := BegunOn(SlotOf(m, log[0].worker), log[0].request.failsAtStart)], log[1..], w);
    }
  }

  // A slot that is not free is left alone by the pool, except that it may be told to retire.
  lemma HeldSlot(y: System, e: P.Event, w: P.Worker)
    requires Composed(y, HandIn(e)) && Uses(y.pool, HandIn(e), P.Step(y.pool, e), {})
    requires w in Taken(y.pool, e) ==> Reserved(y.pool, P.Step(y.pool, e), w)
    requires w in y.slots && !Open(y.slots[w])
    ensures var z := Follow(y, e);
            w in z.slots && (z.slots[w] == y.slots[w] || z.slots[w] == SlotStep(y.slots[w], Forget))
  {
    var t := P.Step(y.pool, e);
    var log := News(y.pool, t);
    FollowWelcome(y, e);
    OpenInStep(y, e, w);
    assert forall i :: 0 <= i < |log| ==> log[i].worker != w by {
      hide Faithful, P.Step, News, Composed;
      assert SlotOf(y.slots, w) == y.slots[w];
    }
    BeginAllOthers(y.slots, log, w);
    KnownStays(y, e, w);
    SettledAt(BeginAll(y.slots, log), Taken(y.pool, e), t.fleet, w);
    hide Faithful, Composed, P.Step, R.Reachable, WorkOf, StartsOn, BeginAll, Uses, Reserved, Taken, SlotStep, News,
         Free, AllFail, Settled, Welcome;
  }

  lemma KnownStays(y: System, e: P.Event, w: P.Worker)
    requires Composed(y, HandIn(e)) && Uses(y.pool, HandIn(e), P.Step(y.pool, e), {}) && w in y.slots
    ensures w < P.Step(y.pool, e).fleet.next
  {
    hide Faithful, P.Step, R.Reachable, WorkOf, StartsOn, NoBack;
  }

  lemma ForgetHeld(s: Slot)
    requires Held(s)
    ensures var t := SlotStep(s, Forget); Held(t) && (Preheats(t) <==> Preheats(s))
    ensures !Open(s)
  {
  }

  lemma FollowBulked(y: System, e: P.Event)
    requires Composed(y, HandIn(e)) && Uses(y.pool, HandIn(e), P.Step(y.pool, e), {})
    requires forall w :: w in Taken(y.pool, e) ==> Reserved(y.pool, P.Step(y.pool, e), w)
    ensures Bulked(Follow(y, e).slots, y.bulk)
  {
    var z := Follow(y, e);
    if y.bulk.Some? {
      var b := y.bulk.value;
      assert Bulked(y.slots, y.bulk);
      hide Composed, Follow, Uses, Reserved, Taken, P.Step, SlotStep;
      forall w | w in b.workers
        ensures w in z.slots && Held(z.slots[w]) && (b.ending && !b.rejected ==> !Preheats(z.slots[w]))
      {
        ForgetHeld(y.slots[w]);
        hide Held, Preheats, Open;
        HeldSlot(y, e, w);
      }
    }
  }

  lemma FollowComposed(y: System, e: P.Event)
    requires Composed(y, HandIn(e)) && P.Enabled(y.pool, e)
    ensures Composed(Follow(y, e), {})
  {
    R.StepReachable(y.pool, e);
    OpenReachable(y.pool);
    StepUses(y.pool, e);
    FollowBulked(y, e);
    var z := Follow(y, e);
    hide Faithful, P.Step, R.Reachable, WorkOf, StartsOn, Uses, Reserved, Taken, Open, Free, BeginAll, P.Enabled, R.Proceeds,
         Bulked;
    forall w: P.Worker | w < z.pool.fleet.next
      ensures w in z.slots && Faithful(z.slots[w]) && WorkOf(z.slots[w]) == |StartsOn(z.pool.queue.started, w)|
      ensures Free(z.pool.fleet, {}, w) ==> Open(z.slots[w])
    {
      FollowSlot(y, e, w);
    }
    hide Composed;
    assert Composed(z, {}) by { JoinComposed(z); }
  }

  lemma OpenReachable(s: P.Pool)
    ensures R.Reachable(s) ==> S.Inv(s) && H.Working(s)
  {
    hide S.Inv, H.Working, R.Rested;
  }

  lemma JoinComposed(z: System)
    requires R.Reachable(z.pool) && (forall w: P.Worker :: w in z.slots ==> w < z.pool.fleet.next) && Bulked(z.slots, z.bulk)
    requires forall w: P.Worker :: w < z.pool.fleet.next ==>
               && w in z.slots && Faithful(z.slots[w]) && WorkOf(z.slots[w]) == |StartsOn(z.pool.queue.started, w)|
               && (Free(z.pool.fleet, {}, w) ==> Open(z.slots[w]))
    ensures Composed(z, {})
  {
    hide Faithful, R.Reachable, WorkOf, StartsOn, Open, Free, Bulked;
  }

  // ---- events of a slot --------------------------------------------------------------------------------------------

  lemma SettleWork(s: Slot, t: Task, x: X.Exec, y: X.Exec)
    requires s.task.Some? && s.task.value.job.Execution? && t.job.Execution?
    ensures WorkOf(Settle(s, t, x, y)) == WorkOf(s)
  {
  }

  lemma AcceptWork(s: Slot, t: Task, m: Posted, postFails: bool)
    requires s.task.Some? && s.task.value.job.Execution? == t.job.Execution?
    ensures WorkOf(Accept(s, t, m, postFails)) == WorkOf(s)
  {
    hide X.Step, Settle, SlotModel.Next;
    match t.job
    case Execution(x) =>
      var seen := match SlotModel.Next(t.seen, m, true) case Some(p) => p case None => t.seen;
      if m.Of? { SettleWork(s, t.(seen := seen), x, X.Step(x, X.Received(m.message, postFails))); }
    case _ =>
  }

  lemma OwnWork(s: Slot, e: SlotEvent)
    requires OfItself(e) && s.astray == NOBODY
    ensures var t := SlotStep(s, e); WorkOf(t) == WorkOf(s) && (s.task == None ==> t.task == None && t.gone == s.gone)
  {
    hide X.Step, Settle, Accept, SlotModel.Next;
    match e
    case Own(event) =>
      if s.task.Some? && s.task.value.job.Execution? {
        SettleWork(s, s.task.value, s.task.value.job.x, X.Step(s.task.value.job.x, event));
      }
    case PoolReceives(postFails) =>
      if s.up != [] && s.task.Some? && !s.gone && s.up[0].Note? {
        var u := Noted(s.(up := s.up[1..]), s.up[0].from, Some(s.task.value.id));
        AcceptWork(u, s.task.value, s.up[0].posted, postFails);
      }
    case _ =>
  }

  // An event of the slot itself begins no execution and leaves a slot without work as it is.
  lemma OwnSlot(s: Slot, e: SlotEvent)
    requires Faithful(s) && OfItself(e)
    ensures var t := SlotStep(s, e);
            Faithful(t) && WorkOf(t) == WorkOf(s) && (s.task == None ==> t.task == None && t.gone == s.gone)
  {
    SlotStepFaithful(s, e);
    OwnWork(s, e);
    hide SlotStep, WorkOf;
  }

  // A worker reserved for a preheat stays so until it is handed back, and begins no other.
  lemma HeldSteps(s: Slot, e: SlotEvent)
    requires Faithful(s) && OfItself(e) && Held(s)
    ensures var t := SlotStep(s, e); Held(t) && (!Preheats(s) ==> !Preheats(t))
  {
    assert s.astray == NOBODY;
    hide Faithful, X.Step, Settle, SlotModel.Next;
  }

  lemma SlotMatched(y: System, w: P.Worker, after: Slot)
    requires Matched(y.slots, y.pool) && w in y.slots && Faithful(after) && WorkOf(after) == WorkOf(y.slots[w])
    ensures Matched(y.slots[w := after], y.pool)
  {
    hide Faithful, WorkOf, StartsOn;
  }

  lemma SlotBulked(m: Slots, bulk: Option<Bulk>, w: P.Worker, after: Slot)
    requires Bulked(m, bulk) && w in m && (Held(m[w]) ==> Held(after) && (!Preheats(m[w]) ==> !Preheats(after)))
    ensures Bulked(m[w := after], bulk)
  {
    hide Held, Preheats;
  }

  // A worker whose slot is not free is not free.
  lemma AtWorkIsNotFree(y: System, w: P.Worker)
    requires Composed(y, {}) && w in y.slots && !Open(y.slots[w])
    ensures !Free(y.pool.fleet, {}, w) && w !in y.pool.fleet.idle && w < y.pool.fleet.next
  {
    hide Faithful, R.Reachable, WorkOf, StartsOn, Bulked;
  }

  lemma SlotKeeps(y: System, w: P.Worker, what: SlotEvent)
    requires Composed(y, {}) && w in y.slots && OfItself(what)
    ensures var m := y.slots[w := SlotStep(y.slots[w], what)]; Matched(m, y.pool) && Bulked(m, y.bulk)
    ensures Open(y.slots[w]) ==> Open(SlotStep(y.slots[w], what))
  {
    var s := y.slots[w];
    OwnSlot(s, what);
    if Held(s) { HeldSteps(s, what); }
    hide SlotStep, Held, Preheats;
    SlotMatched(y, w, SlotStep(s, what));
    SlotBulked(y.slots, y.bulk, w, SlotStep(s, what));
    hide Faithful, R.Reachable, WorkOf, StartsOn, Matched, Bulked;
  }

  lemma SlotEventComposed(y: System, w: P.Worker, what: SlotEvent, hand: set<P.Worker>)
    requires Composed(y, {}) && w in y.slots && OfItself(what)
    requires hand == {} || (hand == {w} && Open(SlotStep(y.slots[w], what)))
    ensures Composed(y.(slots := y.slots[w := SlotStep(y.slots[w], what)]), hand)
  {
    hide SlotStep, Faithful, R.Reachable, Held, Preheats;
    SlotKeeps(y, w, what);
    if !Open(y.slots[w]) { AtWorkIsNotFree(y, w); }
    hide Matched, Bulked, Open;
  }

  // A worker comes back to the pool only while it is busy, and with its slot free if it is to be used again.
  lemma WorkEndsEnabled(y: System, w: P.Worker, what: SlotEvent, overBudget: bool)
    requires Composed(y, {}) && w in y.slots && OfItself(what)
    requires y.slots[w].task.Some? && SlotStep(y.slots[w], what).task.None?
    ensures var after := SlotStep(y.slots[w], what);
            var z := y.(slots := y.slots[w := after]);
            var e := GivenBack(w, after, overBudget);
            && P.Enabled(y.pool, e) && Composed(z, HandIn(e)) && !Free(y.pool.fleet, {}, w)
  {
    hide Composed, SlotStep, Free;
    var after := SlotStep(y.slots[w], what);
    AtWorkIsNotFree(y, w);
    SlotEventComposed(y, w, what, {});
    if !after.gone {
      SlotEventComposed(y, w, what, {w});
    }
  }

  // ---- reserved workers ------------------------------------------------------------------------------------------------

  lemma FewerBulked(m: Slots, bulk: Option<Bulk>, w: P.Worker, after: Slot)
    requires Bulked(m, bulk) && w in m
    ensures Bulked(m[w := after], Fewer(bulk, w))
  {
    hide Held, Preheats, Without;
    if bulk.Some? && w in bulk.value.workers {
      WithoutMembers(bulk.value.workers, w);
    }
  }

  // What a hand-back makes of the slot.
  lemma HandBackSlot(s: Slot)
    requires Faithful(s) && !Early(s) && (s.task.Some? ==> !s.task.value.job.Execution?)
    ensures var t := SlotStep(s, HandBack);
            Faithful(t) && WorkOf(t) == WorkOf(s) && t.task == None && t.gone == s.gone
  {
    KeptFaithful(s);
    hide Faithful;
  }

  lemma MayHandBackHeld(y: System, w: P.Worker)
    requires Composed(y, {}) && MayHandBack(y, w)
    ensures w in y.slots && Held(y.slots[w]) && Faithful(y.slots[w])
  {
    hide R.Reachable, Faithful, WorkOf, StartsOn;
  }

  // A reserved worker whose preheat is done comes back while the pool counts it as busy, with its slot free.
  lemma HandBackIsEnabled(y: System, w: P.Worker)
    requires Composed(y, {}) && MayHandBack(y, w) && !Early(y.slots[w])
    ensures Composed(HandedBack(y, w), {}) && P.Enabled(y.pool, P.Finish(w, false)) && !Free(y.pool.fleet, {}, w)
    ensures !y.slots[w].gone ==> Composed(HandedBack(y, w), {w})
  {
    var s := y.slots[w];
    MayHandBackHeld(y, w);
    HandBackSlot(s);
    AtWorkIsNotFree(y, w);
    SlotMatched(y, w, SlotStep(s, HandBack));
    FewerBulked(y.slots, y.bulk, w, SlotStep(s, HandBack));
    hide Faithful, R.Reachable, WorkOf, StartsOn, SlotStep, Matched, Bulked, Held, MayHandBack, Early, Fewer;
  }

  lemma NextSlot(s: Slot)
    requires Faithful(s) && HasKept(s)
    ensures var t := SlotStep(s, NextMember);
            && Faithful(t) && WorkOf(t) == WorkOf(s) && Held(t) && (s.gone ==> t == s)
            && (!s.gone ==> Early(t)) && !Open(t)
  {
    KeptFaithful(s);
    hide Faithful;
  }

  lemma NextSlotOf(y: System, w: P.Worker)
    requires Composed(y, {}) && Ready(y) && w in y.slots
    ensures var z := NextMemberOf(y);
            && w in z.slots && Faithful(z.slots[w]) && WorkOf(z.slots[w]) == WorkOf(y.slots[w])
            && (if w in y.bulk.value.workers then Held(z.slots[w]) && !Free(y.pool.fleet, {}, w) else z.slots[w] == y.slots[w])
  {
    hide Faithful, R.Reachable, WorkOf, StartsOn, SlotStep, Open, Free;
    if w in y.bulk.value.workers {
      NextSlot(y.slots[w]);
      HeldIsNotOpen(y.slots[w]);
    }
  }

  lemma NextBulk(y: System)
    requires Ready(y)
    ensures var z := NextMemberOf(y);
            && z.pool == y.pool && z.slots.Keys == y.slots.Keys
            && z.bulk.Some? && z.bulk.value.workers == y.bulk.value.workers
            && (z.bulk.value.ending ==> z.bulk.value.rejected)
  {
    hide SlotStep, HasKept;
  }

  lemma StillMatched(m: Slots, n: Slots, s: P.Pool)
    requires Matched(m, s) && n.Keys == m.Keys
    requires forall w :: w in m ==> Faithful(n[w]) && WorkOf(n[w]) == WorkOf(m[w])
    ensures Matched(n, s)
  {
    hide Faithful, WorkOf, StartsOn;
    assert forall w :: w in n <==> w in m;
  }

  lemma NextMatched(y: System)
    requires Composed(y, {}) && Ready(y)
    ensures Matched(NextMemberOf(y).slots, y.pool)
  {
    var z := NextMemberOf(y);
    NextBulk(y);
    forall w | w in y.slots ensures Faithful(z.slots[w]) && WorkOf(z.slots[w]) == WorkOf(y.slots[w]) {
      NextSlotOf(y, w);
    }
    hide Faithful, R.Reachable, WorkOf, Matched, Open, Free, NextMemberOf, Bulked, Ready;
    StillMatched(y.slots, z.slots, y.pool);
  }

  lemma NextBulked(y: System)
    requires Composed(y, {}) && Ready(y)
    ensures Bulked(NextMemberOf(y).slots, NextMemberOf(y).bulk)
  {
    NextBulk(y);
    var z := NextMemberOf(y);
    forall w | w in y.slots ensures w in y.bulk.value.workers ==> Held(z.slots[w]) {
      NextSlotOf(y, w);
    }
    hide Matched, R.Reachable, Open, Free, NextMemberOf, Held, Preheats, Ready;
  }

  lemma NextComposed(y: System)
    requires Composed(y, {})
    ensures Composed(NextMemberOf(y), {})
  {
    if Ready(y) {
      var z := NextMemberOf(y);
      NextBulk(y);
      NextMatched(y);
      NextBulked(y);
      forall w | w in y.slots && Free(y.pool.fleet, {}, w) ensures Open(z.slots[w]) {
        NextSlotOf(y, w);
      }
      hide Matched, R.Reachable, Open, Free, Bulked, NextMemberOf, Ready;
    }
  }

  lemma HeldIsNotOpen(s: Slot)
    requires Held(s)
    ensures !Open(s)
  {
  }

  lemma EndComposed(y: System)
    requires Composed(y, {})
    ensures Composed(EndBulk(y), {})
  {
    hide Faithful, R.Reachable, WorkOf, StartsOn, Open, Free, Preheats, Held;
  }

  lemma TakenOnce(s: P.Pool, p: P.Project, limit: nat, rotate: bool)
    requires S.Inv(s) && H.Working(s)
    ensures NoDup(Taken(s, P.PreheatMany(p, limit, rotate)))
  {
    hide S.Inv, P.TakenForPreheat, P.Rotate;
    if !s.draining && !s.blocked && !s.recovering {
      RotatedOrNot(s, rotate);
      PH.PreheatTakesFitting(if rotate then P.Rotate(s) else s, p, limit);
    }
  }

  // The slot of a worker that has been taken is reserved.
  lemma TakenSlot(y: System, e: P.Event, w: P.Worker)
    requires Composed(y, HandIn(e)) && Uses(y.pool, HandIn(e), P.Step(y.pool, e), {})
    requires R.Reachable(P.Step(y.pool, e))
    requires w in Taken(y.pool, e) && Reserved(y.pool, P.Step(y.pool, e), w)
    ensures w in Follow(y, e).slots && Held(Follow(y, e).slots[w])
  {
    var t := P.Step(y.pool, e);
    var b := SlotOf(BeginAll(y.slots, News(y.pool, t)), w);
    BegunInStep(y, e, w);
    OpenInStep(y, e, w);
    ReservedNews(y.pool, t, w);
    KnownAfter(t, w);
    SettledAt(BeginAll(y.slots, News(y.pool, t)), Taken(y.pool, e), t.fleet, w);
    ReservedSlot(b);
    hide Faithful, Composed, P.Step, R.Reachable, WorkOf, StartsOn, BeginAll, Uses, Reserved, Taken, SlotStep, News, Open,
         Free, AllFail, Settled, SlotOf, Held;
  }

  lemma KnownAfter(t: P.Pool, w: P.Worker)
    requires !Free(t.fleet, {}, w)
    ensures w < t.fleet.next
  {
  }

  lemma ReservedSlot(s: Slot)
    ensures Open(s) ==> Held(SlotStep(s, AssignPreheat))
  {
  }

  lemma BeginComposed(y: System, p: P.Project, limit: nat, rotate: bool, members: nat)
    requires Composed(y, {})
    ensures Composed(BeginBulk(y, p, limit, rotate, members), {})
  {
    if y.bulk.None? {
      var e := P.PreheatMany(p, limit, rotate);
      var z := Follow(y, e);
      var ws := Taken(y.pool, e);
      OpenReachable(y.pool);
      R.StepReachable(y.pool, e);
      StepUses(y.pool, e);
      FollowComposed(y, e);
      TakenOnce(y.pool, p, limit, rotate);
      hide Composed, P.Step, R.Reachable, Uses, Reserved, Taken, Follow, R.Proceeds, Held, P.Enabled;
      forall w | w in ws ensures w in z.slots && Held(z.slots[w]) {
        TakenSlot(y, e, w);
      }
      assert Composed(z.(bulk := if ws == [] then None else Some(Bulk(ws, members, false, false))), {}) by {
        OtherBulk(z, if ws == [] then None else Some(Bulk(ws, members, false, false)));
      }
    }
  }

  lemma OtherBulk(z: System, bulk: Option<Bulk>)
    requires Composed(z, {}) && Bulked(z.slots, bulk)
    ensures Composed(z.(bulk := bulk), {})
  {
    hide R.Reachable, Matched, Bulked, Free, Open;
  }

  lemma SystemStepComposed(y: System, e: SystemEvent)
    requires Composed(y, {}) && !EarlyHandBack(y, e)
    ensures Composed(SystemStep(y, e), {})
  {
    hide Composed, Follow, SlotStep, P.Enabled, OfItself, Early, MayHandBack, BeginBulk, NextMemberOf, EndBulk, HandedBack;
    match e
    case OfPool(event) =>
      if !event.Finish? && P.Enabled(y.pool, event) {
        HandsNothing(event);
        FollowComposed(y, event);
      }
    case OfSlot(w, what, over) =>
      if what.HandBack? {
        if MayHandBack(y, w) { HandBackComposed(y, w); }
      } else if w in y.slots && OfItself(what) {
        OwnComposed(y, w, what, over);
      }
    case BulkBegin(p, limit, rotate, members) => BeginComposed(y, p, limit, rotate, members);
    case BulkNext => NextComposed(y);
    case BulkEnd => EndComposed(y);
  }

  lemma HandsNothing(e: P.Event)
    requires !e.Finish?
    ensures HandIn(e) == {}
  {
  }

  lemma OwnComposed(y: System, w: P.Worker, what: SlotEvent, over: bool)
    requires Composed(y, {}) && w in y.slots && OfItself(what)
    ensures Composed(OwnEvent(y, w, what, over), {})
  {
    hide Composed, Follow, SlotStep, P.Enabled, OfItself;
    var after := SlotStep(y.slots[w], what);
    SlotEventComposed(y, w, what, {});
    if y.slots[w].task.Some? && after.task.None? {
      WorkEndsEnabled(y, w, what, over);
      FollowComposed(y.(slots := y.slots[w := after]), GivenBack(w, after, over));
    }
  }

  lemma HandBackComposed(y: System, w: P.Worker)
    requires Composed(y, {}) && MayHandBack(y, w) && !Early(y.slots[w])
    ensures Composed(HandBackEvent(y, w), {})
  {
    HandBackIsEnabled(y, w);
    hide Composed, Follow, P.Enabled, Early, Free, HandedBack;
    if !y.pool.draining && !y.slots[w].gone {
      SamePool(y, w);
      FollowComposed(HandedBack(y, w), P.Finish(w, false));
    }
  }

  lemma SamePool(y: System, w: P.Worker)
    requires w in y.slots
    ensures HandedBack(y, w).pool == y.pool
  {
  }

  // ---- runs ----------------------------------------------------------------------------------------------------------

  lemma StartComposed(c: P.Config)
    requires c.Valid()
    ensures Composed(Start(c), {})
  {
    hide Faithful, R.Reachable, WorkOf;
    R.InitialInv(c);
    EmptyIsFaithful();
    var s := P.Initial(c);
    assert s.queue.started == [];
  }

  lemma {:induction false} SystemSound(y: System, es: seq<SystemEvent>)
    requires Composed(y, {}) && Calm(y, es)
    ensures Composed(SystemRun(y, es), {})
    decreases es
  {
    if es != [] {
      hide SystemStep, Composed, EarlyHandBack;
      SystemStepComposed(y, es[0]);
      SystemSound(SystemStep(y, es[0]), es[1..]);
    }
  }

  lemma Reached(c: P.Config, es: seq<SystemEvent>)
    requires c.Valid() && Calm(Start(c), es)
    ensures Composed(SystemRun(Start(c), es), {})
  {
    StartComposed(c);
    hide Composed, Calm;
    SystemSound(Start(c), es);
  }

  // The events that the pool sees in a step of the system.
  function PoolSees(y: System, e: SystemEvent): seq<P.Event> {
    match e
    case OfPool(event) => if event.Finish? || event.PreheatMany? || !P.Enabled(y.pool, event) then [] else [event]
    case OfSlot(w, what, over) =>
      if what.HandBack? then
        if !MayHandBack(y, w) || y.pool.draining || y.slots[w].gone then [] else [P.Finish(w, false)]
      else if w in y.slots && OfItself(what) && y.slots[w].task.Some? && SlotStep(y.slots[w], what).task.None?
      then [GivenBack(w, SlotStep(y.slots[w], what), over)] else []
    case BulkBegin(p, limit, rotate, members) => if y.bulk.Some? then [] else [P.PreheatMany(p, limit, rotate)]
    case _ => []
  }

  function PoolSeesAll(y: System, es: seq<SystemEvent>): seq<P.Event>
    decreases es
  {
    if es == [] then [] else PoolSees(y, es[0]) + PoolSeesAll(SystemStep(y, es[0]), es[1..])
  }

  lemma StepOfPool(y: System, e: SystemEvent)
    requires Composed(y, {}) && !EarlyHandBack(y, e)
    ensures P.Admissible(y.pool, PoolSees(y, e)) && SystemStep(y, e).pool == P.Run(y.pool, PoolSees(y, e))
  {
    hide Composed, SlotStep, P.Enabled, P.Step, MayHandBack, Early, BeginAll, Settled, Ready, Missing;
    if e.OfSlot? && PoolSees(y, e) != [] {
      if e.what.HandBack? {
        HandBackIsEnabled(y, e.worker);
      } else {
        WorkEndsEnabled(y, e.worker, e.what, e.overBudget);
      }
    }
    if e.BulkBegin? { PreheatsAreEnabled(y.pool, P.PreheatMany(e.project, e.limit, e.rotate)); }
    NothingMore(y.pool);
  }

  lemma PreheatsAreEnabled(s: P.Pool, e: P.Event)
    requires e.PreheatMany?
    ensures P.Enabled(s, e)
  {
  }

  lemma NothingMore(s: P.Pool)
    ensures forall e: P.Event :: P.Run(s, [e]) == P.Step(s, e) && (P.Enabled(s, e) ==> P.Admissible(s, [e]))
    ensures P.Run(s, []) == s && P.Admissible(s, [])
  {
    forall e: P.Event ensures P.Run(s, [e]) == P.Step(s, e) && (P.Enabled(s, e) ==> P.Admissible(s, [e])) {
      hide P.Step, P.Enabled;
      assert [e][1..] == [] && [e][0] == e;
    }
  }

  lemma {:induction false} AdmissibleAppend(s: P.Pool, es: seq<P.Event>, more: seq<P.Event>)
    requires P.Admissible(s, es) && P.Admissible(P.Run(s, es), more)
    ensures P.Admissible(s, es + more) && P.Run(s, es + more) == P.Run(P.Run(s, es), more)
    decreases es
  {
    if es == [] {
      assert es + more == more;
    } else {
      hide P.Step, P.Enabled;
      assert (es + more)[1..] == es[1..] + more;
      AdmissibleAppend(P.Step(s, es[0]), es[1..], more);
    }
  }
}
