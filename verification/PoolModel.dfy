/**
 The worker pool's state and the effect of every event handler on it, as total functions.

 Handlers of the JavaScript runtime are atomic up to their next `await`, so a run of the pool is a
 sequence of these steps. The exceptions of the source ("different project", "missing metadata",
 "empty queue") are recorded in the `fault` fields; PoolRuns shows that no run ever sets one.
 */
module PoolModel {
  import opened Lists

  // Workers are numbered in the order they are created: a number stands for the object's identity.
  type Worker = nat
  type Project = string

  // `failsAtStart`: execution ends before its first await (budget exhausted, declared body too large).
  datatype Request = Request(id: nat, project: Project, failsAtStart: bool)
  // `fit`: at that moment the worker was untainted and of the pool's generation.
  datatype Start = Start(worker: Worker, request: Request, fit: bool)
  datatype Fate = Queued | Started | Answered
  // `place`: position at which a project last joined the rotation. `bypassed`: scheduling decisions
  // since then that served another project while this one had no untainted active worker.
  datatype Wait = Wait(place: nat, bypassed: nat)
  datatype Meta = Meta(generation: nat, project: Option<Project>, surplusTimer: bool)

  datatype Config = Config(size: nat, maxConcurrent: nat, maxWorkers: nat, parkedIdleMs: nat,
                           maxRetired: nat, maxChurn: nat, maxQueue: nat)
  {
    ghost predicate Valid() { size <= maxConcurrent <= maxWorkers }
  }

  // ---- workers -----------------------------------------------------------------------------

  datatype Fleet = Fleet(idle: seq<Worker>, active: seq<Worker>, parked: seq<Worker>, retired: set<Worker>,
                         meta: map<Worker, Meta>, tainted: set<Worker>,
                         generation: nat, churn: nat, next: Worker, fault: bool)
  {
    function ProjectOf(w: Worker): Option<Project> {
      if w in meta then meta[w].project else None
    }

    predicate Accepts(w: Worker, p: Project) {
      ProjectOf(w) == None || ProjectOf(w) == Some(p)
    }

    predicate Fit(w: Worker) {
      w in meta && meta[w].generation == generation && w !in tainted
    }

    predicate Covered(p: Project) {
      exists w :: w in active && ProjectOf(w) == Some(p) && w !in tainted
    }
  }

  // A new worker is a new object, hence in none of the pool's sets.
  function Create(f: Fleet): Fleet {
    f.(meta := f.meta[f.next := Meta(f.generation, None, false)],
       tainted := f.tainted - {f.next}, next := f.next + 1)
  }

  function Activate(f: Fleet, w: Worker): Fleet {
    f.(active := f.active + [w])
  }

  function ToIdle(f: Fleet, w: Worker): Fleet {
    f.(idle := f.idle + [w])
  }

  function Churn(f: Fleet): Fleet {
    f.(churn := f.churn + 1)
  }

  // Creates the worker `f.next` in an execution slot.
  function Spawn(f: Fleet): Fleet {
    Activate(Create(Churn(f)), f.next)
  }

  function Assign(f: Fleet, w: Worker, p: Project): Fleet {
    if w !in f.meta || !f.Accepts(w, p) then f.(fault := true)
    else f.(meta := f.meta[w := f.meta[w].(project := Some(p))])
  }

  function SetSurplusTimer(f: Fleet, w: Worker, armed: bool): Fleet {
    if w in f.meta then f.(meta := f.meta[w := f.meta[w].(surplusTimer := armed)]) else f
  }

  function Taint(f: Fleet, ws: set<Worker>): Fleet {
    f.(tainted := f.tainted + ws)
  }

  // retireWorker and trackRetiredWorker, up to the creation of a replacement
  function Remove(f: Fleet, w: Worker): Fleet {
    if w !in f.active && w !in f.parked then f
    else f.(active := Without(f.active, w), parked := Without(f.parked, w), idle := Without(f.idle, w),
            meta := f.meta - {w}, tainted := f.tainted - {w}, retired := f.retired + {w})
  }

  // The set updates of parkWorker: a parked worker owns no execution slot.
  function ToParked(f: Fleet, w: Worker): Fleet {
    f.(active := Without(f.active, w), idle := Without(f.idle, w), parked := Without(f.parked, w) + [w])
  }

  function Unpark(f: Fleet, w: Worker): Fleet {
    f.(parked := Without(f.parked, w))
  }

  // The oldest parked worker of the project that belongs to the current generation.
  function Cached(f: Fleet, p: Project): Option<Worker> {
    var i := FirstWhere(f.parked, w => f.ProjectOf(w) == Some(p) && w in f.meta
                                       && f.meta[w].generation == f.generation && w !in f.tainted);
    if i < 0 then None else Some(f.parked[i])
  }

  function TakeAt(f: Fleet, i: nat): Fleet
    requires i < |f.idle|
  {
    SetSurplusTimer(f.(idle := f.idle[..i] + f.idle[i + 1..]), f.idle[i], false)
  }

  // Position of the idle worker that takeIdleWorker takes: the last one bound to the project, else
  // the last one that may run it; -1 if there is none.
  function IdleIndex(f: Fleet, p: Project): int {
    var exact := LastWhere(f.idle, w => f.ProjectOf(w) == Some(p) && w !in f.tainted);
    if exact >= 0 then exact else LastWhere(f.idle, w => f.Accepts(w, p) && w !in f.tainted)
  }

  // ---- the queue -----------------------------------------------------------------------------

  datatype Queue = Queue(lists: map<Project, seq<Request>>, order: seq<Project>, count: nat,
                         // observations of the run
                         waits: map<Project, Wait>, fate: map<Request, Fate>, started: seq<Start>,
                         arrivals: nat, fault: bool)

  function Stamp(q: Queue): Queue {
    q.(arrivals := q.arrivals + 1)
  }

  // A request that is answered without being queued.
  function Refuse(q: Queue, r: Request): Queue {
    q.(fate := q.fate[r := Answered])
  }

  function Enqueue(q: Queue, r: Request): Queue {
    var p := r.project;
    if p in q.lists then q.(lists := q.lists[p := q.lists[p] + [r]], count := q.count + 1, fate := q.fate[r := Queued])
    else q.(lists := q.lists[p := [r]], order := q.order + [p], waits := q.waits[p := Wait(|q.order|, 0)],
            count := q.count + 1, fate := q.fate[r := Queued])
  }

  function Bypass(waits: map<Project, Wait>, served: Project, skipped: set<Project>): map<Project, Wait> {
    map q | q in waits && q != served ::
      if q in skipped then waits[q].(bypassed := waits[q].bypassed + 1) else waits[q]
  }

  // dequeueQueuedForWorker: serves the oldest request of project `p` and moves `p` behind all others.
  // `skipped`: the projects that this decision passes over although they have no worker.
  function Dequeue(q: Queue, p: Project, skipped: set<Project>): (Queue, Option<Request>) {
    if p !in q.lists then (q, None)
    else if q.lists[p] == [] || q.count == 0 then (q.(fault := true), None)
    else (Advance(q, p, skipped), Some(q.lists[p][0]))
  }

  // A worker without a project has no queue of its own; no run ever asks for it.
  function DequeueFor(q: Queue, p: Option<Project>, skipped: set<Project>): (Queue, Option<Request>) {
    if p.None? then (q.(fault := true), None) else Dequeue(q, p.value, skipped)
  }

  function Advance(q: Queue, p: Project, skipped: set<Project>): Queue
    requires p in q.lists && q.lists[p] != [] && q.count > 0
  {
    var rest := q.lists[p][1..];
    var others := Without(q.order, p);
    var waits := Bypass(q.waits, p, skipped);
    if rest == [] then q.(lists := q.lists - {p}, order := others, waits := waits, count := q.count - 1)
    else q.(lists := q.lists[p := rest], order := others + [p], waits := waits[p := Wait(|others|, 0)], count := q.count - 1)
  }

  function MarkStarted(q: Queue, w: Worker, r: Request, fit: bool): Queue {
    q.(started := q.started + [Start(w, r, fit)], fate := q.fate[r := Started],
       fault := q.fault || (r in q.fate && q.fate[r] != Queued))
  }

  // Answers every queued request without running it.
  function Clear(q: Queue): Queue {
    q.(lists := map[], order := [], count := 0, waits := map[],
       fate := map r | r in q.fate :: if q.fate[r] == Queued then Answered else q.fate[r])
  }

  function DropProject(q: Queue, p: Project): Queue {
    if p !in q.lists then q
    else q.(lists := q.lists - {p}, order := Without(q.order, p), waits := q.waits - {p},
            count := if q.count < |q.lists[p]| then 0 else q.count - |q.lists[p]|,
            fate := map r | r in q.fate :: if r in q.lists[p] then Answered else q.fate[r])
  }

  function CancelQueued(q: Queue, r: Request): Queue {
    var p := r.project;
    if p !in q.lists || r !in q.lists[p] then q
    else if Without(q.lists[p], r) == [] then
      q.(lists := q.lists - {p}, order := Without(q.order, p), waits := q.waits - {p},
         count := if q.count == 0 then 0 else q.count - 1, fate := q.fate[r := Answered])
    else
      q.(lists := q.lists[p := Without(q.lists[p], r)],
         count := if q.count == 0 then 0 else q.count - 1, fate := q.fate[r := Answered])
  }

  // ---- the pool ------------------------------------------------------------------------------

  datatype Pool = Pool(config: Config, fleet: Fleet, queue: Queue, draining: bool, blocked: bool, recovering: bool)
  {
    predicate RejectsAdmission() {
      blocked || (recovering && (|fleet.active| > |fleet.idle| || queue.count > 0))
    }

    predicate HasSurplus() {
      !draining && config.maxConcurrent > config.size && |fleet.active| > config.size && queue.count == 0
    }

    predicate MayGrow() {
      && !draining && !blocked && !recovering
      && |fleet.active| < config.maxConcurrent
      && fleet.churn < config.maxChurn
      && |fleet.active| + |fleet.parked| + |fleet.retired| < config.maxWorkers
    }
  }

  function StopDispatching(s: Pool): Pool {
    s.(queue := Clear(s.queue), draining := true)
  }

  // The retirement fail-safe: too many retired workers stop the pool.
  function FailSafe(s: Pool): Pool {
    if |s.fleet.retired| > s.config.maxRetired then StopDispatching(s) else s
  }

  // retireWorker without replacement
  function Discard(s: Pool, w: Worker): Pool {
    if w in s.fleet.active || w in s.fleet.parked then FailSafe(s.(fleet := Remove(s.fleet, w))) else s
  }

  function RetireSurplus(s: Pool, w: Worker): Pool {
    var t := Discard(s, w);
    t.(fleet := Churn(t.fleet))
  }

  function EvictParked(s: Pool, w: Worker): Pool {
    if w in s.fleet.parked then Discard(s, w) else s
  }

  function Park(s: Pool, w: Worker): Pool {
    var t := s.(fleet := ToParked(SetSurplusTimer(s.fleet, w, false), w));
    if s.config.parkedIdleMs == 0 || s.recovering then EvictParked(t, w) else t
  }

  function EvictOldest(s: Pool): Pool
    decreases |s.fleet.parked|
  {
    if |s.fleet.parked| <= s.config.maxWorkers - s.config.maxConcurrent || s.fleet.parked == [] then s
    else EvictOldest(EvictParked(s, s.fleet.parked[0]))
  }

  // switchProjectSlot: parks `w` and puts a worker of project `p` in its slot.
  function SwitchSlot(s: Pool, w: Worker, p: Project): (Pool, Worker) {
    match Cached(s.fleet, p)
    case Some(c) =>
      var e := EvictOldest(Park(s.(fleet := Unpark(s.fleet, c)), w));
      (e.(fleet := Activate(Assign(e.fleet, c, p), c)), c)
    case None =>
      var e := EvictOldest(Park(s, w));
      var n := e.fleet.next;
      (e.(fleet := Activate(Assign(Create(Churn(e.fleet)), n, p), n)), n)
  }

  // The first queued project without a worker of its own, else the worker's project, else the first.
  function Target(s: Pool, w: Worker): Option<Project> {
    var own := s.fleet.ProjectOf(w);
    var i := FirstWhere(s.queue.order, p => Some(p) != own && !s.fleet.Covered(p));
    if i >= 0 then Some(s.queue.order[i])
    else if own.Some? && own.value in s.queue.lists then own
    else if s.queue.order == [] then None else Some(s.queue.order[0])
  }

  function Skipped(s: Pool, p: Project): set<Project> {
    set q | q in s.queue.order && q != p && !s.fleet.Covered(q)
  }

  function Claim(s: Pool, w: Worker, p: Project): (Pool, Worker) {
    if s.fleet.Accepts(w, p) then (s.(fleet := Assign(s.fleet, w, p)), w) else SwitchSlot(s, w, p)
  }

  // The synchronous start of an execution.
  function Begin(s: Pool, w: Worker, r: Request): Pool {
    s.(fleet := Assign(s.fleet, w, r.project), queue := MarkStarted(s.queue, w, r, s.fleet.Fit(w)))
  }

  function RetireStep(s: Pool, w: Worker): (Pool, Option<Worker>) {
    var t := Discard(s, w);
    if w in s.fleet.active && !t.draining then (t.(fleet := Spawn(t.fleet)), Some(t.fleet.next)) else (t, None)
  }

  // The worker takes the oldest request of its project; without one it stays idle.
  function ServeStep(s: Pool, w: Worker, skipped: set<Project>): (Pool, Option<Worker>) {
    var (q, next) := DequeueFor(s.queue, s.fleet.ProjectOf(w), skipped);
    match next
    case None => (s.(queue := q, fleet := ToIdle(s.fleet, w)), None)
    case Some(r) =>
      (Begin(s.(queue := q), w, r), if r.failsAtStart && w in s.fleet.active then Some(w) else None)
  }

  function SurplusStep(s: Pool, w: Worker): Pool {
    if s.blocked || s.recovering then RetireSurplus(s, w)
    else s.(fleet := SetSurplusTimer(ToIdle(s.fleet, w), w, true))
  }

  // One pass of `schedule`: the new state, and the worker that is scheduled next, if any: the
  // replacement of a retired worker, or the same worker when its request ended at once.
  function ScheduleStep(s: Pool, w: Worker): (Pool, Option<Worker>) {
    var d := s.(fleet := SetSurplusTimer(s.fleet, w, false));
    if w in d.fleet.tainted then RetireStep(d, w)
    else if d.HasSurplus() then (SurplusStep(d, w), None)
    else if d.draining || d.blocked then (d.(fleet := ToIdle(d.fleet, w)), None)
    else
      match Target(d, w)
      case None => (d.(fleet := ToIdle(d.fleet, w)), None)
      case Some(p) =>
        var (c, n) := Claim(d, w, p);
        ServeStep(c, n, Skipped(d, p))
  }

  lemma ParkKeepsCount(s: Pool, w: Worker)
    ensures Park(s, w).queue.count <= s.queue.count
  {
    hide ToParked, SetSurplusTimer, Remove, Without;
  }

  lemma EvictOldestKeepsCount(s: Pool)
    ensures EvictOldest(s).queue.count <= s.queue.count
    decreases |s.fleet.parked|
  {
  }

  lemma ClaimKeepsCount(s: Pool, w: Worker, p: Project)
    ensures Claim(s, w, p).0.queue.count <= s.queue.count
  {
    hide Park, Unpark, EvictOldest, Assign, Create;
    match Cached(s.fleet, p)
    case Some(c) =>
      var u := s.(fleet := Unpark(s.fleet, c));
      ParkKeepsCount(u, w);
      EvictOldestKeepsCount(Park(u, w));
    case None =>
      ParkKeepsCount(s, w);
      EvictOldestKeepsCount(Park(s, w));
  }

  lemma ScheduleStepProgress(s: Pool, w: Worker)
    requires ScheduleStep(s, w).1.Some?
    ensures var (t, next) := ScheduleStep(s, w);
            t.queue.count < s.queue.count
            || (t.queue.count <= s.queue.count && w in s.fleet.tainted && next.value !in t.fleet.tainted)
  {
    var d := s.(fleet := SetSurplusTimer(s.fleet, w, false));
    if w in d.fleet.tainted {
      hide Target, Claim, ServeStep, Skipped, SurplusStep;
      RetireStepProgress(d, w);
    } else {
      hide RetireStep, SurplusStep, Claim, Target, Skipped;
      match Target(d, w) case None => case Some(p) =>
        ClaimKeepsCount(d, w, p);
        ServeStepProgress(Claim(d, w, p).0, Claim(d, w, p).1, Skipped(d, p));
        hide ServeStep;
    }
  }

  lemma RetireStepProgress(s: Pool, w: Worker)
    requires RetireStep(s, w).1.Some?
    ensures var (t, next) := RetireStep(s, w); t.queue.count <= s.queue.count && next.value !in t.fleet.tainted
  {
    hide Without;
  }

  lemma ServeStepProgress(s: Pool, w: Worker, skipped: set<Project>)
    ensures var (t, next) := ServeStep(s, w, skipped); next.Some? ==> t.queue.count < s.queue.count
  {
    hide Without, Bypass;
  }

  function Schedule(s: Pool, w: Worker): Pool
    decreases s.queue.count, w in s.fleet.tainted
  {
    var (t, next) := ScheduleStep(s, w);
    if next.None? then t else
      ScheduleStepProgress(s, w);
      Schedule(t, next.value)
  }

  // retireWorker
  function Retire(s: Pool, w: Worker): Pool {
    var (t, next) := RetireStep(s, w);
    if next.None? then t else Schedule(t, next.value)
  }

  function Recycle(s: Pool, w: Worker): Pool {
    if w in s.fleet.active then Schedule(s, w) else s
  }

  function Execute(s: Pool, w: Worker, r: Request): Pool {
    var b := Begin(s, w, r);
    if r.failsAtStart then Recycle(b, w) else b
  }

  // ensureWorkerForQueuedProject
  function ScheduleIdle(s: Pool, ws: seq<Worker>): Pool
    decreases ws
  {
    if ws == [] || s.queue.count == 0 then s
    else ScheduleIdle(Schedule(s.(fleet := s.fleet.(idle := Without(s.fleet.idle, ws[0]))), ws[0]), ws[1..])
  }

  // ensureCapacityForQueuedWork
  function EnsureCapacity(s: Pool): Pool {
    var t := ScheduleIdle(s, s.fleet.idle);
    if t.queue.count == 0 || !t.MayGrow() then t
    else Schedule(t.(fleet := Activate(Create(t.fleet), t.fleet.next)), t.fleet.next)
  }

  // ---- event handlers ------------------------------------------------------------------------

  function Dispatch(s: Pool, p: Project, failsAtStart: bool): Pool {
    var r := Request(s.queue.arrivals, p, failsAtStart);
    var t := s.(queue := Stamp(s.queue));
    if t.draining || t.RejectsAdmission() || t.queue.count >= t.config.maxQueue then
      t.(queue := Refuse(t.queue, r))
    else Admit(t, r)
  }

  // The request starts at once on an idle worker, or it is queued.
  function Admit(s: Pool, r: Request): Pool {
    var i := IdleIndex(s.fleet, r.project);
    if i >= 0 then Execute(s.(fleet := TakeAt(s.fleet, i)), s.fleet.idle[i], r)
    else EnsureCapacity(s.(queue := Enqueue(s.queue, r)))
  }

  function Forget(f: Fleet, w: Worker): Fleet {
    f.(retired := f.retired - {w}, meta := f.meta - {w}, tainted := f.tainted - {w},
       parked := Without(f.parked, w), idle := Without(f.idle, w))
  }

  function OnExit(s: Pool, w: Worker): Pool {
    var t := s.(fleet := Forget(s.fleet, w));
    var u := if w in s.fleet.retired && !s.draining then EnsureCapacity(t) else t;
    if w in u.fleet.active then ReplaceGone(u, w) else u
  }

  // The execution slot of a worker that exited unasked goes to a new worker.
  function ReplaceGone(s: Pool, w: Worker): Pool {
    var t := s.(fleet := s.fleet.(active := Without(s.fleet.active, w)));
    if t.draining then t else Schedule(t.(fleet := Spawn(t.fleet)), t.fleet.next)
  }

  function SurplusTimerFired(s: Pool, w: Worker): Pool {
    if w !in s.fleet.meta || !s.fleet.meta[w].surplusTimer then s
    else
      var d := s.(fleet := SetSurplusTimer(s.fleet, w, false));
      if d.HasSurplus() && w in d.fleet.idle then RetireSurplus(d, w) else d
  }

  function BoundTo(f: Fleet, p: Project): set<Worker> {
    set w | w in f.active + f.parked && f.ProjectOf(w) == Some(p)
  }

  function InvalidateProject(s: Pool, p: Project): Pool {
    s.(queue := DropProject(s.queue, p), fleet := Taint(s.fleet, BoundTo(s.fleet, p)))
  }

  // rotateWorkerForGeneration
  function RotateOne(s: Pool, w: Worker): Pool {
    if w in s.fleet.parked || w in s.fleet.idle then Retire(s, w) else s.(fleet := Taint(s.fleet, {w}))
  }

  function RotateWorkers(s: Pool, ws: seq<Worker>): Pool
    decreases ws
  {
    if ws == [] then s else RotateWorkers(RotateOne(s, ws[0]), ws[1..])
  }

  function Outdated(f: Fleet, ws: seq<Worker>): seq<Worker> {
    if ws == [] then []
    else (if ws[0] in f.meta && f.meta[ws[0]].generation >= f.generation then [] else [ws[0]]) + Outdated(f, ws[1..])
  }

  function NextGeneration(f: Fleet): Fleet {
    f.(generation := f.generation + 1)
  }

  function Rotate(s: Pool): Pool {
    var f := NextGeneration(s.fleet);
    RotateWorkers(s.(fleet := f), Outdated(f, f.active + f.parked))
  }

  function Fitting(f: Fleet, ws: seq<Worker>, p: Project): seq<Worker> {
    if ws == [] then []
    else (if f.Accepts(ws[0], p) && ws[0] !in f.tainted then [ws[0]] else []) + Fitting(f, ws[1..], p)
  }

  function Mismatched(f: Fleet, ws: seq<Worker>, p: Project): seq<Worker> {
    if ws == [] then []
    else (if f.Accepts(ws[0], p) then [] else [ws[0]]) + Mismatched(f, ws[1..], p)
  }

  // replaceMismatchedIdleWorkers
  function Exchange(s: Pool, ws: seq<Worker>, p: Project): Pool
    decreases ws
  {
    if ws == [] then s
    else Exchange(ExchangeOne(s, ws[0], p), ws[1..], p)
  }

  function ExchangeOne(s: Pool, w: Worker, p: Project): Pool {
    var (t, n) := SwitchSlot(s, w, p);
    t.(fleet := ToIdle(t.fleet, n))
  }

  function Minus(xs: seq<Worker>, ys: seq<Worker>): seq<Worker> {
    if xs == [] then [] else (if xs[0] in ys then [] else [xs[0]]) + Minus(xs[1..], ys)
  }

  function AssignAll(f: Fleet, ws: seq<Worker>, p: Project): Fleet
    decreases ws
  {
    if ws == [] then f else AssignAll(Assign(f, ws[0], p), ws[1..], p)
  }

  function Take<T>(xs: seq<T>, n: nat): seq<T> {
    if n < |xs| then xs[..n] else xs
  }

  // requestedPreheatWorkers: no limit, or one beyond the idle workers, asks for all of them.
  function Wanted(f: Fleet, limit: nat): nat {
    if limit == 0 || limit > |f.idle| then |f.idle| else limit
  }

  // The idle workers of other projects that are exchanged because too few fit.
  function Strangers(f: Fleet, p: Project, limit: nat): seq<Worker> {
    var matching := |Fitting(f, f.idle, p)|;
    Take(Mismatched(f, f.idle, p), if Wanted(f, limit) > matching then Wanted(f, limit) - matching else 0)
  }

  function Reserve(f: Fleet, ws: seq<Worker>, p: Project): Fleet {
    AssignAll(f.(idle := Minus(f.idle, ws)), ws, p)
  }

  // The workers that a bulk preheat takes, once strangers have been exchanged.
  function TakenForPreheat(s: Pool, p: Project, limit: nat): seq<Worker> {
    var t := Exchange(s, Strangers(s.fleet, p, limit), p);
    Take(Fitting(t.fleet, t.fleet.idle, p), Wanted(s.fleet, limit))
  }

  // takeIdleWorkersForProject, and the assignments with which the preheats begin
  function TakeForPreheat(s: Pool, p: Project, limit: nat): Pool {
    var t := Exchange(s, Strangers(s.fleet, p, limit), p);
    t.(fleet := Reserve(t.fleet, TakenForPreheat(s, p, limit), p))
  }

  function Preheat(s: Pool, p: Project): Pool {
    var i := IdleIndex(s.fleet, p);
    if s.draining || s.blocked || s.recovering || i < 0 then s
    else s.(fleet := Assign(TakeAt(s.fleet, i), s.fleet.idle[i], p))
  }

  function BulkPreheat(s: Pool, p: Project, limit: nat, rotate: bool): Pool {
    if s.draining || s.blocked || s.recovering then s
    else TakeForPreheat(if rotate then Rotate(s) else s, p, limit)
  }

  function EvictAll(s: Pool, ws: seq<Worker>): Pool
    decreases ws
  {
    if ws == [] then s else EvictAll(EvictParked(s, ws[0]), ws[1..])
  }

  function TrimIdle(s: Pool, ws: seq<Worker>): Pool
    decreases ws
  {
    if ws == [] || |s.fleet.active| <= s.config.size then s
    else TrimIdle(RetireSurplus(s, ws[0]), ws[1..])
  }

  function SetAdmission(s: Pool, blocked: bool, recovering: bool): Pool {
    if s.blocked == blocked && s.recovering == recovering then s
    else
      var t := s.(blocked := blocked, recovering := recovering && !blocked);
      if !blocked then t else Shed(t.(queue := Clear(t.queue)))
  }

  // A blocked pool keeps no parked worker, and no more idle ones than its warm size allows.
  function Shed(s: Pool): Pool {
    var e := EvictAll(s, s.fleet.parked);
    TrimIdle(e, e.fleet.idle)
  }

  function Warm(f: Fleet, n: nat): Fleet
    decreases n
  {
    if n == 0 then f else Warm(Activate(ToIdle(Create(f), f.next), f.next), n - 1)
  }

  function Initial(c: Config): Pool {
    Pool(c, Warm(Fleet([], [], [], {}, map[], {}, 0, 0, 0, false), c.size),
         Queue(map[], [], 0, map[], map[], [], 0, false), false, false, false)
  }

  // ---- runs ----------------------------------------------------------------------------------

  datatype Event =
    | Arrive(project: Project, failsAtStart: bool)
    | Finish(worker: Worker, overBudget: bool)       // an execution or preheat hands its worker back
    | Lose(worker: Worker)                           // failed execution or preheat, worker error, missing ack
    | Exit(worker: Worker)
    | TaintBusy(worker: Worker)                      // an unacknowledged invalidation of a busy worker
    | ParkedTimer(worker: Worker)
    | SurplusTimer(worker: Worker)
    | RetirementDeadline(worker: Worker)
    | Cancel(request: Request)
    | Invalidate(project: Project)
    | PreheatOne(project: Project)
    | PreheatMany(project: Project, limit: nat, rotate: bool)
    | Admission(block: bool, recover: bool)
    | Drain

  // A worker hands itself back only while it is busy, and only existing workers are tainted.
  predicate Enabled(s: Pool, e: Event) {
    match e
    case Finish(w, _) => w !in s.fleet.idle && w < s.fleet.next
    case TaintBusy(w) => w < s.fleet.next
    case _ => true
  }

  function Step(s: Pool, e: Event): Pool {
    match e
    case Arrive(p, f) => Dispatch(s, p, f)
    case Finish(w, over) => Recycle(if over then s.(fleet := Taint(s.fleet, {w})) else s, w)
    case Lose(w) => Retire(s, w)
    case Exit(w) => OnExit(s, w)
    case TaintBusy(w) => s.(fleet := Taint(s.fleet, {w}))
    case ParkedTimer(w) => EvictParked(s, w)
    case SurplusTimer(w) => SurplusTimerFired(s, w)
    case RetirementDeadline(w) => s.(fleet := s.fleet.(retired := s.fleet.retired - {w}))
    case Cancel(r) => s.(queue := CancelQueued(s.queue, r))
    case Invalidate(p) => InvalidateProject(s, p)
    case PreheatOne(p) => Preheat(s, p)
    case PreheatMany(p, n, rotate) => BulkPreheat(s, p, n, rotate)
    case Admission(b, r) => SetAdmission(s, b, r)
    case Drain => StopDispatching(s)
  }

  function Run(s: Pool, es: seq<Event>): Pool
    decreases es
  {
    if es == [] then s else Run(Step(s, es[0]), es[1..])
  }

  predicate Admissible(s: Pool, es: seq<Event>)
    decreases es
  {
    es == [] || (Enabled(s, es[0]) && Admissible(Step(s, es[0]), es[1..]))
  }
}
