/**
 A release preheat that goes wrong. Two workers are reserved; the first has succeeded with the first function when it
 is lost, while the second is still at work. The second function cannot be begun on the lost worker, so both are
 handed back at once, and the preheat of the second function begins on a worker that the pool counts as idle.
 */
module RuntimeExamples {
  import opened Lists
  import opened PoolUses
  import opened SlotModel
  import opened RuntimeSystem
  import opened RuntimePromises
  import P = PoolModel
  import R = PoolRuns

  // ---- the pool ---------------------------------------------------------------------------------------------

  const CONFIG := P.Config(2, 2, 2, 0, 9, 9, 9)
  const NO_QUEUE := P.Queue(map[], [], 0, map[], map[], [], 0, false)
  const OLD := P.Meta(0, None, false)
  const NEW := P.Meta(1, None, false)
  const BOUND := P.Meta(1, Some("p"), false)

  function PoolOf(f: P.Fleet): P.Pool {
    P.Pool(CONFIG, f, NO_QUEUE, false, false, false)
  }

  const FLEET0 := P.Fleet([0, 1], [0, 1], [], {}, map[0 := OLD, 1 := OLD], {}, 0, 0, 2, false)
  const ROTATING := FLEET0.(generation := 1)
  const HALFWAY := P.Fleet([1, 2], [1, 2], [], {0}, map[1 := OLD, 2 := NEW], {}, 1, 1, 3, false)
  const ROTATED := P.Fleet([2, 3], [2, 3], [], {0, 1}, map[2 := NEW, 3 := NEW], {}, 1, 2, 4, false)
  const RESERVING := ROTATED.(idle := [], meta := map[2 := BOUND, 3 := BOUND])
  const LOST := P.Fleet([4], [3, 4], [], {0, 1, 2}, map[3 := BOUND, 4 := NEW], {}, 1, 3, 5, false)
  const RETURNED := LOST.(idle := [4, 3])

  lemma FirstFleet()
    ensures P.Initial(CONFIG) == PoolOf(FLEET0)
  {
    var f := P.Fleet([], [], [], {}, map[], {}, 0, 0, 0, false);
    var g := P.Fleet([0], [0], [], {}, map[0 := OLD], {}, 0, 0, 1, false);
    assert P.Warm(f, 2) == P.Warm(g, 1);
    assert P.Warm(g, 1) == P.Warm(FLEET0, 0);
  }

  // With nothing queued a worker that is scheduled becomes idle.
  lemma QuietSchedule(f: P.Fleet, w: P.Worker)
    requires w in f.meta && !f.meta[w].surplusTimer && w !in f.tainted && |f.active| <= 2
    ensures P.Schedule(PoolOf(f), w) == PoolOf(P.ToIdle(f, w))
  {
    var s := PoolOf(f);
    assert P.SetSurplusTimer(f, w, false) == f;
    assert s.(fleet := f) == s;
    assert P.Target(s, w) == None;
    assert P.ScheduleStep(s, w) == (PoolOf(P.ToIdle(f, w)), None);
  }

  // A worker is retired and its slot goes to a new idle worker.
  lemma QuietRetire(f: P.Fleet, w: P.Worker, g: P.Fleet)
    requires w in f.active && |f.retired| < 9 && |f.active| == 2 && |P.Remove(f, w).retired| <= 9
    requires g == P.Spawn(P.Remove(f, w)) && f.next !in g.tainted && |g.active| <= 2
    ensures P.Retire(PoolOf(f), w) == PoolOf(P.ToIdle(g, f.next))
  {
    var s := PoolOf(f);
    assert P.Discard(s, w) == PoolOf(P.Remove(f, w));
    assert P.RetireStep(s, w) == (PoolOf(g), Some(f.next));
    hide P.Schedule, P.RetireStep;
    QuietSchedule(g, f.next);
  }

  lemma OneRotated()
    ensures P.RotateOne(PoolOf(ROTATING), 0) == PoolOf(HALFWAY)
  {
    var g := P.Spawn(P.Remove(ROTATING, 0));
    assert Without([0, 1], 0) == [1];
    assert P.Remove(ROTATING, 0).retired == {0} && |P.Remove(ROTATING, 0).retired| == 1;
    assert g.meta == map[1 := OLD, 2 := NEW];
    hide P.Retire;
    QuietRetire(ROTATING, 0, g);
    assert P.ToIdle(g, 2) == HALFWAY;
  }

  lemma BothRotated()
    ensures P.RotateOne(PoolOf(HALFWAY), 1) == PoolOf(ROTATED)
  {
    var g := P.Spawn(P.Remove(HALFWAY, 1));
    assert Without([1, 2], 1) == [2];
    assert P.Remove(HALFWAY, 1).retired == {0, 1} && |P.Remove(HALFWAY, 1).retired| == 2;
    assert g.meta == map[2 := NEW, 3 := NEW];
    hide P.Retire;
    QuietRetire(HALFWAY, 1, g);
    assert P.ToIdle(g, 3) == ROTATED;
  }

  lemma PoolRotates()
    ensures P.Rotate(PoolOf(FLEET0)) == PoolOf(ROTATED)
  {
    assert P.NextGeneration(FLEET0) == ROTATING;
    assert P.Outdated(ROTATING, [0, 1]) == [0, 1] by {
      assert [0, 1][1..] == [1] && [1][1..] == [];
      assert P.Outdated(ROTATING, [1]) == [1];
    }
    OneRotated();
    BothRotated();
    hide P.RotateOne;
    var s := PoolOf(ROTATING);
    assert [0, 1][1..] == [1] && [1][1..] == [];
    assert P.RotateWorkers(PoolOf(HALFWAY), [1]) == P.RotateWorkers(PoolOf(ROTATED), []);
    assert P.RotateWorkers(s, [0, 1]) == P.RotateWorkers(PoolOf(HALFWAY), [1]);
    assert ROTATING.active + ROTATING.parked == [0, 1];
  }

  const RELEASE := P.PreheatMany("p", 0, true)

  lemma BothFit()
    ensures P.Fitting(ROTATED, [2, 3], "p") == [2, 3] && P.Mismatched(ROTATED, [2, 3], "p") == []
  {
    assert [2, 3][1..] == [3] && [3][1..] == [];
    assert P.Fitting(ROTATED, [3], "p") == [3] && P.Mismatched(ROTATED, [3], "p") == [];
  }

  lemma BothBound()
    ensures P.Reserve(ROTATED, [2, 3], "p") == RESERVING
  {
    assert [2, 3][1..] == [3] && [3][1..] == [];
    assert P.Minus([3], [2, 3]) == [];
    assert P.Minus([2, 3], [2, 3]) == [];
    var f := ROTATED.(idle := []);
    var g := f.(meta := map[2 := BOUND, 3 := NEW]);
    assert P.Assign(f, 2, "p") == g && P.Assign(g, 3, "p") == RESERVING;
    hide P.Assign;
    assert P.AssignAll(g, [3], "p") == P.AssignAll(RESERVING, [], "p");
    assert P.AssignAll(f, [2, 3], "p") == P.AssignAll(g, [3], "p");
  }

  lemma BothTaken()
    ensures P.TakenForPreheat(PoolOf(ROTATED), "p", 0) == [2, 3]
    ensures P.TakeForPreheat(PoolOf(ROTATED), "p", 0) == PoolOf(RESERVING)
  {
    BothFit();
    BothBound();
    hide P.Fitting, P.Mismatched, P.Reserve;
    var t := PoolOf(ROTATED);
    assert P.Strangers(ROTATED, "p", 0) == [];
    assert P.Exchange(t, [], "p") == t;
  }

  lemma ReleaseReserves()
    ensures Taken(PoolOf(FLEET0), RELEASE) == [2, 3] && P.Step(PoolOf(FLEET0), RELEASE) == PoolOf(RESERVING)
  {
    PoolRotates();
    BothTaken();
    hide P.Rotate, P.TakenForPreheat, P.TakeForPreheat;
  }

  lemma SlotRefilled()
    ensures var f := P.Remove(RESERVING, 2);
            f.retired == {0, 1, 2} && |f.retired| == 3 && P.ToIdle(P.Spawn(f), 4) == LOST && P.Spawn(f).tainted == {}
  {
    assert Without([2, 3], 2) == [3];
    assert P.Spawn(P.Remove(RESERVING, 2)).meta == map[3 := BOUND, 4 := NEW];
  }

  lemma FirstIsLost()
    ensures P.Step(PoolOf(RESERVING), P.Lose(2)) == PoolOf(LOST)
  {
    SlotRefilled();
    hide P.Retire, P.Remove, Without;
    var g := P.Spawn(P.Remove(RESERVING, 2));
    assert g.active == P.ToIdle(g, 4).active;
    QuietRetire(RESERVING, 2, g);
  }

  lemma SecondReturns()
    ensures P.Step(PoolOf(LOST), P.Finish(3, false)) == PoolOf(RETURNED)
  {
    QuietSchedule(LOST, 3);
    hide P.Schedule;
    assert P.ToIdle(LOST, 3) == RETURNED;
  }

  // ---- the slots --------------------------------------------------------------------------------------------

  const DROPPED := EMPTY.(gone := true, down := [Retire])
  const POSTED := RESERVED.(task := Some(Task(0, Preheating(true), Warming)), down := [Work(0, true)])
  const LOADING := POSTED.(down := [], executor := Busy(0, Warming))
  const LOADED := LOADING.(up := [Note(0, PreheatReply(true))], executor := Resting)
  const READY := RESERVED.(task := Some(Task(0, Kept, Over)), log := Log([Handling(0, Some(0))], 0, false))
  const READY_LOST := READY.(gone := true, down := [Retire])
  const SECOND := READY.(task := Some(Task(1, Preheating(false), Warming)), next := 2)
  const RETURNED_EARLY := SECOND.(task := None, astray := Astray([1], None))
  const SENT_LATE := RETURNED_EARLY.(astray := Astray([], Some(1)), down := [Work(1, true)])
  const AT_WORK_WHILE_IDLE := SENT_LATE.(down := [], executor := Busy(1, Warming))

  const FIRST_SLOTS: Slots := map[0 := EMPTY, 1 := EMPTY]

  function Four(a: Slot, b: Slot): Slots {
    map[0 := DROPPED, 1 := DROPPED, 2 := a, 3 := b]
  }

  function Five(b: Slot): Slots {
    map[0 := DROPPED, 1 := DROPPED, 2 := READY_LOST, 3 := b, 4 := EMPTY]
  }

  const BOTH := Some(Bulk([2, 3], 1, false, false))
  const REJECTED := Some(Bulk([2, 3], 0, true, true))
  const REST := Some(Bulk([2], 0, true, true))

  lemma FirstSystem()
    ensures Start(CONFIG) == System(PoolOf(FLEET0), FIRST_SLOTS, None)
  {
    FirstFleet();
    hide P.Initial;
    assert Start(CONFIG).slots == FIRST_SLOTS;
  }

  lemma SlotEnds()
    ensures SlotStep(EMPTY, Forget) == DROPPED && SlotStep(DROPPED, Forget) == DROPPED
    ensures SlotStep(READY, Forget) == READY_LOST && SlotStep(READY_LOST, Forget) == READY_LOST
    ensures SlotStep(EMPTY, AssignPreheat) == RESERVED
  {
  }

  lemma FirstSettled()
    ensures Settled(FIRST_SLOTS, [2, 3], RESERVING) == Four(RESERVED, RESERVED)
  {
    SlotEnds();
    hide SlotStep;
  }

  lemma ReleaseBegins()
    ensures SystemStep(Start(CONFIG), BulkBegin("p", 0, true, 1)) == System(PoolOf(RESERVING), Four(RESERVED, RESERVED), BOTH)
  {
    hide P.Step, Taken, SlotStep, Start, Settled;
    FirstSystem();
    ReleaseReserves();
    FirstSettled();
    assert News(Start(CONFIG).pool, PoolOf(RESERVING)) == [];
    assert BeginAll(FIRST_SLOTS, []) == FIRST_SLOTS;
  }

  lemma LossForgets(b: Slot)
    ensures SystemStep(System(PoolOf(RESERVING), Four(READY, b), BOTH), OfPool(P.Lose(2))) == System(PoolOf(LOST), Five(b), BOTH)
  {
    FirstIsLost();
    SlotEnds();
    hide P.Step, SlotStep;
    var m := Four(READY, b);
    assert BeginAll(m, []) == m;
    assert Settled(m, [], LOST) == Five(b);
  }

  // A step that leaves the slot with its work changes this slot only.
  lemma SlotMoves(y: System, w: P.Worker, what: SlotEvent, after: Slot)
    requires w in y.slots && OfItself(what) && SlotStep(y.slots[w], what) == after
    requires y.slots[w].task.Some? ==> after.task.Some?
    ensures SystemStep(y, OfSlot(w, what, false)) == y.(slots := y.slots[w := after])
  {
    hide SlotStep, Follow;
  }

  lemma LoadBegins()
    ensures SlotStep(RESERVED, PreheatSent) == POSTED && SlotStep(POSTED, WorkerReceives) == LOADING
  {
    assert [Work(0, true)][1..] == [];
  }

  lemma LoadEnds()
    ensures SlotStep(LOADING, WorkerPosts(PreheatReply(true))) == LOADED && SlotStep(LOADED, PoolReceives(false)) == READY
  {
    assert [Note(0, PreheatReply(true))][1..] == [];
  }

  function Loads(w: P.Worker): seq<SystemEvent> {
    [OfSlot(w, PreheatSent, false), OfSlot(w, WorkerReceives, false), OfSlot(w, WorkerPosts(PreheatReply(true)), false),
     OfSlot(w, PoolReceives(false), false)]
  }

  lemma PreheatSucceeds(y: System, w: P.Worker)
    requires w in y.slots && y.slots[w] == RESERVED
    ensures SystemRun(y, Loads(w)) == y.(slots := y.slots[w := READY])
  {
    LoadBegins();
    LoadEnds();
    hide SlotStep;
    var a := y.(slots := y.slots[w := POSTED]);
    var b := y.(slots := y.slots[w := LOADING]);
    var c := y.(slots := y.slots[w := LOADED]);
    var d := y.(slots := y.slots[w := READY]);
    SlotMoves(y, w, PreheatSent, POSTED);
    SlotMoves(a, w, WorkerReceives, LOADING);
    SlotMoves(b, w, WorkerPosts(PreheatReply(true)), LOADED);
    SlotMoves(c, w, PoolReceives(false), READY);
    assert a.slots[w := LOADING] == b.slots && b.slots[w := LOADED] == c.slots && c.slots[w := READY] == d.slots;
    hide SystemStep, SystemRun;
    FourSteps(y, Loads(w));
  }

  lemma FourSteps(y: System, es: seq<SystemEvent>)
    requires |es| == 4
    ensures SystemRun(y, es) == SystemStep(SystemStep(SystemStep(SystemStep(y, es[0]), es[1]), es[2]), es[3])
  {
    hide SystemStep;
    var a := SystemStep(y, es[0]);
    var b := SystemStep(a, es[1]);
    var c := SystemStep(b, es[2]);
    assert es == [es[0]] + ([es[1]] + ([es[2]] + ([es[3]] + [])));
    OneStep(y, es[0], [es[1]] + ([es[2]] + ([es[3]] + [])));
    OneStep(a, es[1], [es[2]] + ([es[3]] + []));
    OneStep(b, es[2], [es[3]] + []);
    OneStep(c, es[3], []);
  }

  lemma OneStep(y: System, e: SystemEvent, more: seq<SystemEvent>)
    ensures SystemRun(y, [e] + more) == SystemRun(SystemStep(y, e), more)
  {
    hide SystemStep;
    assert ([e] + more)[1..] == more;
  }

  lemma {:induction false} RunAppend(y: System, es: seq<SystemEvent>, more: seq<SystemEvent>)
    ensures SystemRun(y, es + more) == SystemRun(SystemRun(y, es), more)
    decreases es
  {
    hide SystemStep;
    if es == [] {
      assert es + more == more;
    } else {
      assert (es + more)[1..] == es[1..] + more;
      RunAppend(SystemStep(y, es[0]), es[1..], more);
    }
  }

  lemma LostIsMissing()
    ensures var y := System(PoolOf(LOST), Five(READY), BOTH); Ready(y) && Missing(y)
  {
    assert 2 in BOTH.value.workers && 2 !in LOST.meta;
  }

  lemma OthersBegin(y: System, m: Slots)
    requires Ready(y) && Missing(y) && m.Keys == y.slots.Keys
    requires forall w :: w in y.slots ==>
               m[w] == if w in y.bulk.value.workers && w in y.pool.fleet.meta
                       then SlotStep(y.slots[w], NextMember) else y.slots[w]
    ensures SystemStep(y, BulkNext) ==
              y.(slots := m, bulk := Some(Bulk(y.bulk.value.workers, y.bulk.value.members - 1, true, true)))
  {
    hide SlotStep;
    assert NextMemberOf(y).slots == m;
  }

  // The lost worker is missing, so the preheat fails while the second function has begun on the other worker.
  lemma SecondMemberBegins()
    ensures SystemStep(System(PoolOf(LOST), Five(READY), BOTH), BulkNext) == System(PoolOf(LOST), Five(SECOND), REJECTED)
  {
    var y := System(PoolOf(LOST), Five(READY), BOTH);
    assert SlotStep(READY, NextMember) == SECOND;
    LostIsMissing();
    assert 2 !in y.pool.fleet.meta && 3 in y.pool.fleet.meta;
    hide SlotStep, Ready, Missing, PoolOf, SystemStep;
    OthersBegin(y, Five(SECOND));
  }

  lemma HandBackMeetsWork()
    ensures SlotStep(SECOND, HandBack) == RETURNED_EARLY && Fewer(REJECTED, 3) == REST
  {
    assert Without([2, 3], 3) == [2];
  }

  lemma HandsBack()
    ensures var y := System(PoolOf(LOST), Five(SECOND), REJECTED);
            SystemStep(y, OfSlot(3, HandBack, false)) == System(PoolOf(RETURNED), Five(RETURNED_EARLY), REST)
  {
    var y := System(PoolOf(LOST), Five(SECOND), REJECTED);
    SecondReturns();
    HandBackMeetsWork();
    SlotEnds();
    hide P.Step, SlotStep, Fewer;
    var z := HandedBack(y, 3);
    assert z == System(PoolOf(LOST), Five(RETURNED_EARLY), REST);
    assert BeginAll(z.slots, []) == z.slots;
    assert Settled(z.slots, [], RETURNED) == z.slots;
  }

  lemma PreheatGoesOn()
    ensures SlotStep(RETURNED_EARLY, StraySent) == SENT_LATE && SlotStep(SENT_LATE, WorkerReceives) == AT_WORK_WHILE_IDLE
  {
    assert [1][1..] == [] && [Work(1, true)][1..] == [];
  }

  function BadRelease(): seq<SystemEvent> {
    [BulkBegin("p", 0, true, 1)] + (Loads(2) + ([OfPool(P.Lose(2))] + (Loads(3) + EndOfRelease())))
  }

  function EndOfRelease(): seq<SystemEvent> {
    [BulkNext, OfSlot(3, HandBack, false), OfSlot(3, StraySent, false), OfSlot(3, WorkerReceives, false)]
  }

  lemma StrayBegins(p: P.Pool)
    ensures SystemStep(System(p, Five(RETURNED_EARLY), REST), OfSlot(3, StraySent, false)) == System(p, Five(SENT_LATE), REST)
    ensures SystemStep(System(p, Five(SENT_LATE), REST), OfSlot(3, WorkerReceives, false)) ==
              System(p, Five(AT_WORK_WHILE_IDLE), REST)
  {
    PreheatGoesOn();
    hide SystemStep, SlotStep;
    SlotMoves(System(p, Five(RETURNED_EARLY), REST), 3, StraySent, SENT_LATE);
    SlotMoves(System(p, Five(SENT_LATE), REST), 3, WorkerReceives, AT_WORK_WHILE_IDLE);
    assert Five(RETURNED_EARLY)[3 := SENT_LATE] == Five(SENT_LATE);
    assert Five(SENT_LATE)[3 := AT_WORK_WHILE_IDLE] == Five(AT_WORK_WHILE_IDLE);
  }

  lemma LastSteps()
    ensures SystemRun(System(PoolOf(LOST), Five(READY), BOTH), EndOfRelease()) ==
              System(PoolOf(RETURNED), Five(AT_WORK_WHILE_IDLE), REST)
  {
    hide SystemStep, SystemRun, PoolOf, Five;
    SecondMemberBegins();
    HandsBack();
    StrayBegins(PoolOf(RETURNED));
    FourSteps(System(PoolOf(LOST), Five(READY), BOTH), EndOfRelease());
  }

  const RESERVED_SYSTEM := System(PoolOf(RESERVING), Four(RESERVED, RESERVED), BOTH)
  const HALF_LOADED := System(PoolOf(RESERVING), Four(READY, RESERVED), BOTH)
  const HALF_LOST := System(PoolOf(LOST), Five(RESERVED), BOTH)
  const BOTH_LOADED := System(PoolOf(LOST), Five(READY), BOTH)

  lemma FirstLoads()
    ensures SystemRun(RESERVED_SYSTEM, Loads(2)) == HALF_LOADED
  {
    hide PoolOf, SystemRun, Loads;
    PreheatSucceeds(RESERVED_SYSTEM, 2);
    assert Four(RESERVED, RESERVED)[2 := READY] == Four(READY, RESERVED);
  }

  lemma SecondLoads()
    ensures SystemRun(HALF_LOST, Loads(3)) == BOTH_LOADED
  {
    hide PoolOf, SystemRun, Loads;
    PreheatSucceeds(HALF_LOST, 3);
    assert Five(RESERVED)[3 := READY] == Five(READY);
  }

  lemma ReleaseEnds()
    ensures SystemRun(Start(CONFIG), BadRelease()) == System(PoolOf(RETURNED), Five(AT_WORK_WHILE_IDLE), REST)
  {
    hide SystemStep, SystemRun, Start, Loads, EndOfRelease, PoolOf, Four, Five;
    var late := Loads(3) + EndOfRelease();
    ReleaseBegins();
    OneStep(Start(CONFIG), BulkBegin("p", 0, true, 1), Loads(2) + ([OfPool(P.Lose(2))] + late));
    FirstLoads();
    RunAppend(RESERVED_SYSTEM, Loads(2), [OfPool(P.Lose(2))] + late);
    LossForgets(RESERVED);
    OneStep(HALF_LOADED, OfPool(P.Lose(2)), late);
    SecondLoads();
    RunAppend(HALF_LOST, Loads(3), EndOfRelease());
    LastSteps();
  }

  // In the end the pool counts worker 3 as idle while a preheat is under way on it: what IdleIsAtRest promises of
  // calm runs fails.
  lemma IdleWorkerAtWork()
    ensures var y := SystemRun(Start(CONFIG), BadRelease());
            3 in y.pool.fleet.idle && 3 in y.slots && Open(y.slots[3]) && !AtRest(y.slots[3])
    ensures CONFIG.Valid() && !Undisturbed(Start(CONFIG), BadRelease()) && !Calm(Start(CONFIG), BadRelease())
  {
    ReleaseEnds();
    hide SystemRun, Start, BadRelease, Calm, Undisturbed;
    if Calm(Start(CONFIG), BadRelease()) {
      IdleIsAtRest(CONFIG, BadRelease(), 3);
    }
    if Undisturbed(Start(CONFIG), BadRelease()) {
      UndisturbedIsCalm(CONFIG, BadRelease());
    }
  }
}
