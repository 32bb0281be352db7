/**
 A pool that keeps requests queued although it has room. Two retired workers fill the pool while requests queue up;
 when their grace period ends, nothing makes the pool grow, and the next arrival makes it grow by one worker only.
 */
module PoolExamples {
  import opened Lists
  import opened PoolModel
  import opened PoolArrivals
  import opened PoolRuns
  import opened PoolPreheat

  const CONFIG := Config(1, 3, 3, 1, 9, 9, 9)
  const EMPTY_QUEUE := Queue(map[], [], 0, map[], map[], [], 0, false)
  const UNBOUND := Meta(0, None, false)
  const OF_A := Meta(0, Some("a"), false)

  const FIRST := Request(0, "a", false)
  const SECOND := Request(1, "a", false)
  const THIRD := Request(2, "a", false)
  const FOURTH := Request(3, "a", false)

  function PoolOf(f: Fleet, q: Queue): Pool {
    Pool(CONFIG, f, q, false, false, false)
  }

  const F0 := Fleet([0], [0], [], {}, map[0 := UNBOUND], {}, 0, 0, 1, false)
  const F1 := Fleet([1], [1], [], {0}, map[1 := UNBOUND], {}, 0, 1, 2, false)
  const F2 := Fleet([2], [2], [], {0, 1}, map[2 := UNBOUND], {}, 0, 2, 3, false)
  const F3 := F2.(idle := [], meta := map[2 := OF_A])
  const F6 := F3.(retired := {1})
  const F7 := F3.(retired := {})
  const F8 := F7.(active := [2, 3], meta := map[2 := OF_A, 3 := OF_A], next := 4)

  const AT_WORK := Start(2, FIRST, true)
  const Q3 := Queue(map[], [], 0, map[], map[FIRST := Started], [AT_WORK], 1, false)
  const Q4 := Queue(map["a" := [SECOND]], ["a"], 1, map["a" := Wait(0, 0)], map[FIRST := Started, SECOND := Queued],
                    [AT_WORK], 2, false)
  const Q5 := Queue(map["a" := [SECOND, THIRD]], ["a"], 2, map["a" := Wait(0, 0)],
                    map[FIRST := Started, SECOND := Queued, THIRD := Queued], [AT_WORK], 3, false)
  const Q8 := Queue(map["a" := [THIRD, FOURTH]], ["a"], 2, map["a" := Wait(0, 0)],
                    map[FIRST := Started, SECOND := Started, THIRD := Queued, FOURTH := Queued],
                    [AT_WORK, Start(3, SECOND, true)], 4, false)

  const ARRIVES := Arrive("a", false)

  lemma StartsWarm()
    ensures Initial(CONFIG) == PoolOf(F0, EMPTY_QUEUE)
  {
    assert Warm(Fleet([], [], [], {}, map[], {}, 0, 0, 0, false), 1) == Warm(F0, 0);
  }

  // With nothing queued a new worker becomes idle.
  lemma JoinsIdle(f: Fleet, w: Worker)
    requires w in f.meta && !f.meta[w].surplusTimer && w !in f.tainted && |f.active| <= 1
    ensures Schedule(PoolOf(f, EMPTY_QUEUE), w) == PoolOf(ToIdle(f, w), EMPTY_QUEUE)
  {
    var s := PoolOf(f, EMPTY_QUEUE);
    assert SetSurplusTimer(f, w, false) == f;
    assert s.(fleet := f) == s;
    assert Target(s, w) == None;
    assert ScheduleStep(s, w) == (PoolOf(ToIdle(f, w), EMPTY_QUEUE), None);
  }

  lemma Replaced(f: Fleet, w: Worker, g: Fleet)
    requires w in f.active && |Remove(f, w).retired| <= 9 && g == Spawn(Remove(f, w)) && f.next !in g.tainted && |g.active| <= 1
    ensures Step(PoolOf(f, EMPTY_QUEUE), Lose(w)) == PoolOf(ToIdle(g, f.next), EMPTY_QUEUE)
  {
    var s := PoolOf(f, EMPTY_QUEUE);
    assert Discard(s, w) == PoolOf(Remove(f, w), EMPTY_QUEUE);
    assert RetireStep(s, w) == (PoolOf(g, EMPTY_QUEUE), Some(f.next));
    hide Schedule, RetireStep;
    JoinsIdle(g, f.next);
  }

  lemma FirstLost()
    ensures Step(PoolOf(F0, EMPTY_QUEUE), Lose(0)) == PoolOf(F1, EMPTY_QUEUE)
  {
    var g := Spawn(Remove(F0, 0));
    assert Remove(F0, 0).retired == {0} && |{0}| == 1 && g.meta == map[1 := UNBOUND];
    assert ToIdle(g, 1) == F1;
    hide Step;
    Replaced(F0, 0, g);
  }

  lemma SecondLost()
    ensures Step(PoolOf(F1, EMPTY_QUEUE), Lose(1)) == PoolOf(F2, EMPTY_QUEUE)
  {
    var h := Spawn(Remove(F1, 1));
    assert Remove(F1, 1).retired == {0, 1} && |{0, 1}| == 2 && h.meta == map[2 := UNBOUND];
    assert ToIdle(h, 2) == F2;
    hide Step;
    Replaced(F1, 1, h);
  }

  lemma FirstStarts()
    ensures Step(PoolOf(F2, EMPTY_QUEUE), ARRIVES) == PoolOf(F3, Q3)
  {
    assert IdleIndex(F2, "a") == 0;
    assert TakeAt(F2, 0) == F2.(idle := []);
    hide IdleIndex, TakeAt;
    assert Begin(PoolOf(F2.(idle := []), EMPTY_QUEUE.(arrivals := 1)), 2, FIRST) == PoolOf(F3, Q3);
  }

  // No worker is idle and there is no room: the request is queued, and that is all.
  lemma OnlyQueued(f: Fleet, q: Queue, r: Request)
    requires f.idle == [] && |f.active| + |f.parked| + |f.retired| >= 3 && r == Request(q.arrivals, "a", false) && q.count < 9
    ensures Step(PoolOf(f, q), ARRIVES) == PoolOf(f, Enqueue(Stamp(q), r))
  {
    var k := PoolOf(f, Enqueue(Stamp(q), r));
    assert IdleIndex(f, "a") < 0;
    assert ScheduleIdle(k, []) == k && !k.MayGrow();
    hide Enqueue, IdleIndex;
  }

  lemma TwoQueued()
    ensures Step(PoolOf(F3, Q3), ARRIVES) == PoolOf(F3, Q4) && Step(PoolOf(F3, Q4), ARRIVES) == PoolOf(F3, Q5)
  {
    assert |F3.retired| == 2;
    hide Step;
    OnlyQueued(F3, Q3, SECOND);
    OnlyQueued(F3, Q4, THIRD);
    assert [SECOND] + [THIRD] == [SECOND, THIRD];
  }

  lemma TwoDeadlines()
    ensures Step(PoolOf(F3, Q5), RetirementDeadline(0)) == PoolOf(F6, Q5)
    ensures Step(PoolOf(F6, Q5), RetirementDeadline(1)) == PoolOf(F7, Q5)
  {
    assert {0, 1} - {0} == {1} && {1} - {1} == {};
  }

  const Q8_WAITING := Queue(map["a" := [SECOND, THIRD, FOURTH]], ["a"], 3, map["a" := Wait(0, 0)],
                            map[FIRST := Started, SECOND := Queued, THIRD := Queued, FOURTH := Queued], [AT_WORK], 4, false)
  const GROWN := F7.(active := [2, 3], meta := map[2 := OF_A, 3 := UNBOUND], next := 4)

  lemma NewWorkerServes()
    ensures Schedule(PoolOf(GROWN, Q8_WAITING), 3) == PoolOf(F8, Q8)
  {
    var s := PoolOf(GROWN, Q8_WAITING);
    assert SetSurplusTimer(GROWN, 3, false) == GROWN;
    assert 2 in GROWN.active && GROWN.Covered("a");
    assert Target(s, 3) == Some("a");
    assert Skipped(s, "a") == {};
    assert Assign(GROWN, 3, "a") == F8;
    FrontServed();
    hide Target, SetSurplusTimer, Skipped, Assign;
    assert ScheduleStep(s, 3) == ServeStep(PoolOf(F8, Q8_WAITING), 3, {});
  }

  const Q8_SERVED := Q8_WAITING.(lists := map["a" := [THIRD, FOURTH]], count := 2)

  lemma FrontLeaves()
    ensures Advance(Q8_WAITING, "a", {}) == Q8_SERVED
  {
    assert [SECOND, THIRD, FOURTH][1..] == [THIRD, FOURTH];
    assert Without(["a"], "a") == [] && [] + ["a"] == ["a"];
    assert Bypass(Q8_WAITING.waits, "a", {}) == map[];
  }

  lemma FrontServed()
    ensures ServeStep(PoolOf(F8, Q8_WAITING), 3, {}) == (PoolOf(F8, Q8), None)
  {
    FrontLeaves();
    hide Advance;
    assert DequeueFor(Q8_WAITING, Some("a"), {}) == (Q8_SERVED, Some(SECOND));
    assert Assign(F8, 3, "a") == F8 && F8.Fit(3);
    assert Q8_SERVED.fate[SECOND := Started] == Q8.fate;
    assert [AT_WORK] + [Start(3, SECOND, true)] == Q8.started;
    assert MarkStarted(Q8_SERVED, 3, SECOND, true) == Q8;
    hide MarkStarted, DequeueFor, Assign;
    assert Begin(PoolOf(F8, Q8_SERVED), 3, SECOND) == PoolOf(F8, Q8);
    assert PoolOf(F8, Q8_WAITING).(queue := Q8_SERVED) == PoolOf(F8, Q8_SERVED);
  }

  lemma FourthArrives()
    ensures Step(PoolOf(F7, Q5), ARRIVES) == PoolOf(F8, Q8)
  {
    var k := PoolOf(F7, Q8_WAITING);
    assert IdleIndex(F7, "a") < 0;
    assert [SECOND, THIRD] + [FOURTH] == [SECOND, THIRD, FOURTH];
    assert Enqueue(Stamp(Q5), FOURTH) == Q8_WAITING;
    assert ScheduleIdle(k, []) == k && k.MayGrow();
    assert Activate(Create(F7), 3) == GROWN;
    hide Enqueue, IdleIndex, Schedule;
    NewWorkerServes();
  }

  const LATE_ROOM: seq<Event> := [Lose(0), Lose(1), ARRIVES, ARRIVES, ARRIVES, RetirementDeadline(0), RetirementDeadline(1)]

  lemma {:induction false} TraceEnds(es: seq<Event>, states: seq<Pool>)
    requires |states| == |es| + 1 && forall i :: 0 <= i < |es| ==> Step(states[i], es[i]) == states[i + 1]
    ensures Run(states[0], es) == states[|es|]
    decreases es
  {
    hide Step;
    if es != [] {
      assert Step(states[0], es[0]) == states[1];
      assert forall i :: 0 <= i < |es[1..]| ==> es[1..][i] == es[i + 1] && states[1..][i] == states[i + 1];
      TraceEnds(es[1..], states[1..]);
    }
  }

  // In the end the pool is open, has room, and keeps two requests queued.
  lemma RoomBesideTheQueue()
    ensures CONFIG.Valid()
    ensures var t := Step(Run(Initial(CONFIG), LATE_ROOM), ARRIVES); IsOpen(t) && Room(t) && t.queue.count == 2
  {
    StartsWarm();
    FirstLost();
    SecondLost();
    FirstStarts();
    TwoQueued();
    TwoDeadlines();
    FourthArrives();
    hide Step, Initial;
    TraceEnds(LATE_ROOM, [PoolOf(F0, EMPTY_QUEUE), PoolOf(F1, EMPTY_QUEUE), PoolOf(F2, EMPTY_QUEUE), PoolOf(F3, Q3),
                          PoolOf(F3, Q4), PoolOf(F3, Q5), PoolOf(F6, Q5), PoolOf(F7, Q5)]);
  }
}
