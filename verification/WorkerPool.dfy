/**
 The worker pool as the runtime holds it: one object whose methods update its fields in place.
 Each method is proved to have exactly the effect that PoolModel gives its handler, so every
 theorem about runs of the model is a theorem about calls of these methods.
 */
module WorkerPools {
  import opened Lists
  import opened PoolModel
  import opened PoolTheorems

  // How the filters of the source take one worker.
  lemma OutdatedFrom(f: Fleet, ws: seq<Worker>, i: nat)
    requires i < |ws|
    ensures Outdated(f, ws[i..])
         == (if ws[i] in f.meta && f.meta[ws[i]].generation >= f.generation then [] else [ws[i]]) + Outdated(f, ws[i + 1..])
  {
    assert ws[i..][0] == ws[i] && ws[i..][1..] == ws[i + 1..];
  }

  lemma FiltersFrom(f: Fleet, ws: seq<Worker>, i: nat, p: Project)
    requires i < |ws|
    ensures Fitting(f, ws[i..], p)
         == (if f.Accepts(ws[i], p) && ws[i] !in f.tainted then [ws[i]] else []) + Fitting(f, ws[i + 1..], p)
    ensures Mismatched(f, ws[i..], p) == (if f.Accepts(ws[i], p) then [] else [ws[i]]) + Mismatched(f, ws[i + 1..], p)
  {
    assert ws[i..][0] == ws[i] && ws[i..][1..] == ws[i + 1..];
  }

  lemma FiltersEnd(f: Fleet, ws: seq<Worker>, p: Project)
    ensures ws[0..] == ws && ws[|ws|..] == []
    ensures Outdated(f, []) == [] && Fitting(f, [], p) == [] && Mismatched(f, [], p) == []
  {
  }

  class WorkerPool {
    const config: Config
    var idle: seq<Worker>
    var activeWorkers: seq<Worker>
    var parkedWorkers: seq<Worker>
    var retiredWorkers: set<Worker>
    var workerMetadata: map<Worker, Meta>
    var tainted: set<Worker>
    var queuedDispatches: map<Project, seq<Request>>
    var queuedProjects: seq<Project>
    var queuedCount: nat
    var workerGeneration: nat
    var churn: nat                    // totalWorkerReplacements + totalWorkerSurplusRetirements
    var draining: bool
    var admissionBlocked: bool
    var admissionRecovering: bool
    var nextWorker: nat
    var arrivals: nat
    ghost var started: seq<Start>
    ghost var fate: map<Request, Fate>
    ghost var waits: map<Project, Wait>
    ghost var workerFault: bool
    ghost var queueFault: bool

    ghost function Workers(): Fleet
      reads `idle, `activeWorkers, `parkedWorkers, `retiredWorkers, `workerMetadata, `tainted,
            `workerGeneration, `churn, `nextWorker, `workerFault
    {
      Fleet(idle, activeWorkers, parkedWorkers, retiredWorkers, workerMetadata, tainted,
            workerGeneration, churn, nextWorker, workerFault)
    }

    ghost function Dispatches(): Queue
      reads `queuedDispatches, `queuedProjects, `queuedCount, `waits, `fate, `started, `arrivals, `queueFault
    {
      Queue(queuedDispatches, queuedProjects, queuedCount, waits, fate, started, arrivals, queueFault)
    }

    ghost function View(): Pool
      reads this
    {
      Pool(config, Workers(), Dispatches(), draining, admissionBlocked, admissionRecovering)
    }

    constructor (config: Config)
      ensures View() == Initial(config)
    {
      this.config := config;
      idle, activeWorkers, parkedWorkers, retiredWorkers := [], [], [], {};
      workerMetadata, tainted := map[], {};
      queuedDispatches, queuedProjects, queuedCount := map[], [], 0;
      workerGeneration, churn := 0, 0;
      draining, admissionBlocked, admissionRecovering := false, false, false;
      nextWorker, arrivals := 0, 0;
      started, fate, waits, workerFault, queueFault := [], map[], map[], false, false;
      new;
      WarmUp();
    }

    method WarmUp()
      modifies `nextWorker, `tainted, `workerMetadata, `activeWorkers, `idle
      ensures Workers() == Warm(old(Workers()), config.size)
    {
      hide Create;
      for i := 0 to config.size
        invariant Warm(Workers(), config.size - i) == Warm(old(Workers()), config.size)
      {
        var w := CreateWorker();
        idle := idle + [w];
        activeWorkers := activeWorkers + [w];
      }
    }

    // ---- workers -----------------------------------------------------------------------------

    method CreateWorker() returns (w: Worker)
      modifies `nextWorker, `tainted, `workerMetadata
      ensures w == old(nextWorker) && Workers() == Create(old(Workers()))
    {
      w := nextWorker;
      nextWorker := w + 1;
      tainted := tainted - {w};
      workerMetadata := workerMetadata[w := Meta(workerGeneration, None, false)];
    }

    // A replacement in an execution slot, counted against the recycling budget.
    method SpawnReplacement() returns (w: Worker)
      modifies `nextWorker, `tainted, `workerMetadata, `activeWorkers, `churn
      ensures w == old(nextWorker) && Workers() == Spawn(old(Workers()))
    {
      churn := churn + 1;
      w := CreateWorker();
      activeWorkers := activeWorkers + [w];
    }

    function WorkerProjectRef(w: Worker): Option<Project>
      reads this
      ensures WorkerProjectRef(w) == Workers().ProjectOf(w)
    {
      if w in workerMetadata then workerMetadata[w].project else None
    }

    predicate WorkerAcceptsProject(w: Worker, p: Project)
      reads this
      ensures WorkerAcceptsProject(w, p) == Workers().Accepts(w, p)
    {
      WorkerProjectRef(w) == None || WorkerProjectRef(w) == Some(p)
    }

    predicate HasActiveWorkerForProject(p: Project)
      reads this
      ensures HasActiveWorkerForProject(p) == Workers().Covered(p)
    {
      exists w :: w in activeWorkers && WorkerProjectRef(w) == Some(p) && w !in tainted
    }

    method AssignWorkerProject(w: Worker, p: Project)
      modifies `workerMetadata, `workerFault
      ensures Workers() == Assign(old(Workers()), w, p)
    {
      if w !in workerMetadata || !WorkerAcceptsProject(w, p) {
        workerFault := true;
      } else {
        workerMetadata := workerMetadata[w := workerMetadata[w].(project := Some(p))];
      }
    }

    method ClearSurplusTimer(w: Worker)
      modifies `workerMetadata
      ensures Workers() == SetSurplusTimer(old(Workers()), w, false)
    {
      if w in workerMetadata { workerMetadata := workerMetadata[w := workerMetadata[w].(surplusTimer := false)]; }
    }

    method DeferSurplusRetirement(w: Worker)
      modifies `workerMetadata
      ensures Workers() == SetSurplusTimer(old(Workers()), w, true)
    {
      if w in workerMetadata { workerMetadata := workerMetadata[w := workerMetadata[w].(surplusTimer := true)]; }
    }

    predicate ShouldRetireSurplusWorker()
      reads this
      ensures ShouldRetireSurplusWorker() == View().HasSurplus()
    {
      !draining && config.maxConcurrent > config.size && |activeWorkers| > config.size && queuedCount == 0
    }

    // ---- the queue ---------------------------------------------------------------------------

    method ClearQueue()
      modifies `queuedDispatches, `queuedProjects, `queuedCount, `waits, `fate, `queueFault
      ensures Dispatches() == Clear(old(Dispatches()))
    {
      ghost var undecided := fate;
      fate := map r | r in undecided :: if undecided[r] == Queued then Answered else undecided[r];
      waits := map[];
      queuedDispatches := map[];
      queuedProjects := [];
      queuedCount := 0;
    }

    method StopDispatching()
      modifies this
      ensures View() == PoolModel.StopDispatching(old(View()))
    {
      hide Clear;
      ghost var s := View();
      ClearQueue();
      assert View() == s.(queue := Clear(s.queue));
      draining := true;
    }

    method EnqueueQueued(r: Request)
      modifies `queuedDispatches, `queuedProjects, `queuedCount, `waits, `fate, `queueFault
      ensures Dispatches() == Enqueue(old(Dispatches()), r)
    {
      var p := r.project;
      if p in queuedDispatches {
        queuedDispatches := queuedDispatches[p := queuedDispatches[p] + [r]];
      } else {
        queuedDispatches := queuedDispatches[p := [r]];
        waits := waits[p := Wait(|queuedProjects|, 0)];
        queuedProjects := queuedProjects + [p];
      }
      queuedCount := queuedCount + 1;
      fate := fate[r := Queued];
    }

    method DequeueQueuedForWorker(w: Worker, ghost skipped: set<Project>) returns (next: Option<Request>)
      modifies `queuedDispatches, `queuedProjects, `queuedCount, `waits, `fate, `queueFault
      ensures (Dispatches(), next) == DequeueFor(old(Dispatches()), Workers().ProjectOf(w), skipped)
    {
      hide Advance;
      next := None;
      var p := WorkerProjectRef(w);
      if p == None { queueFault := true; return; }
      if p.value !in queuedDispatches { return; }
      if queuedDispatches[p.value] == [] || queuedCount == 0 { queueFault := true; return; }
      var oldest := TakeOldest(p.value, skipped);
      next := Some(oldest);
    }

    // The oldest request of the project leaves; the project moves behind all others.
    method TakeOldest(p: Project, ghost skipped: set<Project>) returns (r: Request)
      requires p in queuedDispatches && queuedDispatches[p] != [] && queuedCount > 0
      modifies `queuedDispatches, `queuedProjects, `queuedCount, `waits
      ensures r == old(queuedDispatches[p][0]) && Dispatches() == Advance(old(Dispatches()), p, skipped)
    {
      hide Without, Bypass;
      r := queuedDispatches[p][0];
      var rest := queuedDispatches[p][1..];
      queuedCount := queuedCount - 1;
      queuedProjects := Without(queuedProjects, p);
      waits := Bypass(waits, p, skipped);
      if rest == [] {
        queuedDispatches := queuedDispatches - {p};
      } else {
        queuedDispatches := queuedDispatches[p := rest];
        waits := waits[p := Wait(|queuedProjects|, 0)];
        queuedProjects := queuedProjects + [p];
      }
    }

    method CancelQueued(r: Request) returns (cancelled: bool)
      modifies `queuedDispatches, `queuedProjects, `queuedCount, `waits, `fate, `queueFault
      ensures Dispatches() == PoolModel.CancelQueued(old(Dispatches()), r)
      ensures cancelled <==> r.project in old(queuedDispatches) && r in old(queuedDispatches[r.project])
    {
      hide Without;
      var p := r.project;
      if p !in queuedDispatches || r !in queuedDispatches[p] { return false; }
      var rest := Without(queuedDispatches[p], r);
      queuedCount := if queuedCount == 0 then 0 else queuedCount - 1;
      if rest == [] {
        queuedDispatches := queuedDispatches - {p};
        queuedProjects := Without(queuedProjects, p);
        waits := waits - {p};
      } else {
        queuedDispatches := queuedDispatches[p := rest];
      }
      fate := fate[r := Answered];
      return true;
    }

    method InvalidateQueuedProject(p: Project) returns (count: nat)
      modifies `queuedDispatches, `queuedProjects, `queuedCount, `waits, `fate, `queueFault
      ensures Dispatches() == DropProject(old(Dispatches()), p)
      ensures count == if p in old(queuedDispatches) then |old(queuedDispatches)[p]| else 0
    {
      hide Without;
      if p !in queuedDispatches { return 0; }
      count := |queuedDispatches[p]|;
      ghost var before, dropped := fate, queuedDispatches[p];
      fate := map r | r in before :: if r in dropped then Answered else before[r];
      queuedDispatches := queuedDispatches - {p};
      queuedProjects := Without(queuedProjects, p);
      waits := waits - {p};
      queuedCount := if queuedCount < count then 0 else queuedCount - count;
    }

    method InvalidateProject(p: Project) returns (cancelledQueued: nat)
      modifies this
      ensures View() == PoolModel.InvalidateProject(old(View()), p)
      ensures cancelledQueued == if p in old(queuedDispatches) then |old(queuedDispatches)[p]| else 0
    {
      hide DropProject;
      cancelledQueued := InvalidateQueuedProject(p);
      TaintProject(p);
    }

    method TaintProject(p: Project)
      modifies `tainted
      ensures Workers() == Taint(old(Workers()), BoundTo(old(Workers()), p))
    {
      var workers := activeWorkers + parkedWorkers;
      ghost var f := Workers();
      for i := 0 to |workers|
        invariant tainted == f.tainted + set w | w in workers[..i] && f.ProjectOf(w) == Some(p)
      {
        assert workers[..i + 1] == workers[..i] + [workers[i]];
        if WorkerProjectRef(workers[i]) == Some(p) { tainted := tainted + {workers[i]}; }
      }
      assert workers[..|workers|] == workers;
    }

    // ---- retirement --------------------------------------------------------------------------

    method TrackRetiredWorker(w: Worker)
      modifies this
      ensures View() == FailSafe(old(View()).(fleet := old(Workers()).(retired := old(retiredWorkers) + {w})))
    {
      hide Clear;
      retiredWorkers := retiredWorkers + {w};
      if |retiredWorkers| > config.maxRetired { StopDispatching(); }
    }

    // The worker leaves every list of the pool.
    method DropWorker(w: Worker)
      modifies `activeWorkers, `parkedWorkers, `workerMetadata, `tainted, `idle
      ensures w in old(activeWorkers) || w in old(parkedWorkers) ==>
                Workers().(retired := retiredWorkers + {w}) == Remove(old(Workers()), w)
    {
      hide Without;
      activeWorkers := Without(activeWorkers, w);
      parkedWorkers := Without(parkedWorkers, w);
      workerMetadata := workerMetadata - {w};
      tainted := tainted - {w};
      idle := Without(idle, w);
    }

    method DiscardWorker(w: Worker)
      modifies this
      ensures View() == Discard(old(View()), w)
    {
      hide FailSafe, Remove;
      if w in activeWorkers || w in parkedWorkers {
        DropWorker(w);
        TrackRetiredWorker(w);
      }
    }

    method RetireWorker(w: Worker, replace: bool := true)
      modifies this
      ensures View() == if replace then Retire(old(View()), w) else Discard(old(View()), w)
      decreases queuedCount, if replace then 9 else 0
    {
      hide PoolModel.Schedule, Discard, Spawn;
      ghost var s := View();
      var ownedSlot := w in activeWorkers;
      DiscardCount(s, w);
      DiscardWorker(w);
      if !draining && ownedSlot && replace {
        FreshIsUntainted(s, w);
        var replacement := SpawnReplacement();
        Schedule(replacement);
      }
    }

    method RetireSurplusWorker(w: Worker)
      modifies this
      ensures View() == RetireSurplus(old(View()), w)
      decreases queuedCount, 1
    {
      hide Discard, Retire;
      RetireWorker(w, false);
      churn := churn + 1;
    }

    method EvictParkedWorker(w: Worker)
      modifies this
      ensures View() == EvictParked(old(View()), w)
      decreases queuedCount, 1
    {
      hide Discard;
      if w in parkedWorkers {
        DiscardParked(View(), w);
        RetireWorker(w, false);
      }
    }

    // ---- project slots -----------------------------------------------------------------------

    method ParkWorker(w: Worker)
      modifies this
      ensures View() == Park(old(View()), w)
      decreases queuedCount, 2
    {
      hide EvictParked, SetSurplusTimer, ToParked;
      ClearSurplusTimer(w);
      MoveToParked(w);
      if config.parkedIdleMs == 0 || admissionRecovering { EvictParkedWorker(w); }
    }

    // Set.add appends: the oldest parked worker comes first.
    method MoveToParked(w: Worker)
      modifies `activeWorkers, `idle, `parkedWorkers
      ensures Workers() == ToParked(old(Workers()), w)
    {
      activeWorkers := Without(activeWorkers, w);
      idle := Without(idle, w);
      parkedWorkers := Without(parkedWorkers, w) + [w];
    }

    method FindCached(p: Project) returns (cached: Option<Worker>)
      ensures cached == Cached(Workers(), p)
    {
      cached := None;
      var i := 0;
      while i < |parkedWorkers|
        invariant 0 <= i <= |parkedWorkers|
        invariant forall j :: 0 <= j < i ==>
          !(WorkerProjectRef(parkedWorkers[j]) == Some(p) && parkedWorkers[j] in workerMetadata
            && workerMetadata[parkedWorkers[j]].generation == workerGeneration && parkedWorkers[j] !in tainted)
      {
        var c := parkedWorkers[i];
        if WorkerProjectRef(c) == Some(p) && c in workerMetadata
           && workerMetadata[c].generation == workerGeneration && c !in tainted
        {
          return Some(c);
        }
        i := i + 1;
      }
    }

    // Parks `w` and keeps the parked workers within their bound.
    method ParkWithin(w: Worker)
      modifies this
      ensures View() == EvictOldest(Park(old(View()), w))
      decreases queuedCount, 3
    {
      hide Park, EvictParked;
      ParkCount(View(), w);
      ParkWorker(w);
      ghost var parked := View();
      while |parkedWorkers| > config.maxWorkers - config.maxConcurrent && parkedWorkers != []
        invariant EvictOldest(View()) == EvictOldest(parked)
        invariant queuedCount <= old(queuedCount)
        decreases |parkedWorkers|
      {
        EvictCount(View(), parkedWorkers[0]);
        EvictParkedWorker(parkedWorkers[0]);
      }
    }

    method UnparkWorker(w: Worker)
      modifies `parkedWorkers
      ensures Workers() == Unpark(old(Workers()), w)
    {
      parkedWorkers := Without(parkedWorkers, w);
    }

    method SwitchProjectSlot(w: Worker, p: Project) returns (replacement: Worker)
      modifies this
      ensures (View(), replacement) == SwitchSlot(old(View()), w, p)
      decreases queuedCount, 4
    {
      hide Park, EvictOldest, Assign, Cached, Create, Without;
      var cached := FindCached(p);
      ghost var s := View();
      if cached.Some? { UnparkWorker(cached.value); }
      ghost var u := View();
      assert u == if cached.Some? then s.(fleet := Unpark(s.fleet, cached.value)) else s;
      hide Unpark;
      ParkWithin(w);
      replacement := FillSlot(cached, p);
    }

    // The cached worker, or a new one, takes the free execution slot.
    method FillSlot(cached: Option<Worker>, p: Project) returns (n: Worker)
      modifies `churn, `nextWorker, `tainted, `workerMetadata, `workerFault, `activeWorkers
      ensures n == if cached.Some? then cached.value else old(nextWorker)
      ensures Workers() ==
                if cached.Some? then Activate(Assign(old(Workers()), n, p), n)
                else Activate(Assign(Create(Churn(old(Workers()))), n, p), n)
    {
      hide Create, Assign;
      if cached.Some? {
        n := cached.value;
      } else {
        churn := churn + 1;
        n := CreateWorker();
      }
      AssignWorkerProject(n, p);
      activeWorkers := activeWorkers + [n];
    }

    // ---- scheduling --------------------------------------------------------------------------

    method TargetProject(w: Worker) returns (target: Option<Project>)
      ensures target == Target(View(), w)
    {
      var own := WorkerProjectRef(w);
      var i := 0;
      while i < |queuedProjects|
        invariant 0 <= i <= |queuedProjects|
        invariant forall j :: 0 <= j < i ==>
          !(Some(queuedProjects[j]) != own && !HasActiveWorkerForProject(queuedProjects[j]))
      {
        if Some(queuedProjects[i]) != own && !HasActiveWorkerForProject(queuedProjects[i]) {
          return Some(queuedProjects[i]);
        }
        i := i + 1;
      }
      if own.Some? && own.value in queuedDispatches { return own; }
      if queuedProjects == [] { return None; }
      return Some(queuedProjects[0]);
    }

    method Schedule(w: Worker)
      modifies this
      ensures View() == PoolModel.Schedule(old(View()), w)
      decreases queuedCount, if w in tainted then 10 else 8
    {
      hide PoolModel.Schedule, SetSurplusTimer, Retire, SurplusStep, Claim, ServeStep, Target, Skipped;
      ghost var s := View();
      ScheduleCases(s, w);
      ClearSurplusTimer(w);
      ghost var d := View();
      if w in tainted {
        RetireWorker(w);
      } else if ShouldRetireSurplusWorker() {
        SettleSurplus(w);
      } else if draining || admissionBlocked {
        idle := idle + [w];
      } else {
        var target := TargetProject(w);
        if target == None {
          idle := idle + [w];
        } else {
          ghost var skipped := Skipped(View(), target.value);
          ClaimKeepsCount(View(), w, target.value);
          var worker := ClaimSlot(w, target.value);
          ServeNext(worker, skipped);
        }
      }
    }

    method SettleSurplus(w: Worker)
      modifies this
      ensures View() == SurplusStep(old(View()), w)
      decreases queuedCount, 2
    {
      hide RetireSurplus, SetSurplusTimer;
      if admissionBlocked || admissionRecovering {
        RetireSurplusWorker(w);
      } else {
        idle := idle + [w];
        DeferSurplusRetirement(w);
      }
    }

    // The worker that serves project `p`: `w` itself, or another one in its slot.
    method ClaimSlot(w: Worker, p: Project) returns (worker: Worker)
      modifies this
      ensures (View(), worker) == Claim(old(View()), w, p)
      decreases queuedCount, 5
    {
      hide SwitchSlot, Assign;
      worker := w;
      if WorkerAcceptsProject(w, p) {
        AssignWorkerProject(w, p);
      } else {
        worker := SwitchProjectSlot(w, p);
      }
    }

    method ServeNext(w: Worker, ghost skipped: set<Project>)
      modifies this
      ensures var (t, next) := ServeStep(old(View()), w, skipped);
              View() == if next.None? then t else PoolModel.Schedule(t, next.value)
      decreases queuedCount, 7
    {
      hide DequeueFor, Begin, PoolModel.Schedule;
      ghost var q := Dispatches();
      var next := DequeueQueuedForWorker(w, skipped);
      DequeueCount(q, Workers().ProjectOf(w), skipped);
      if next == None {
        idle := idle + [w];
      } else {
        BeginKeepsActive(View(), w, next.value);
        Execute(w, next.value);
      }
    }

    // The synchronous part of an execution: it starts, and may end before its first await.
    method Execute(w: Worker, r: Request)
      modifies this
      ensures View() == PoolModel.Execute(old(View()), w, r)
      decreases queuedCount, 12
    {
      hide PoolModel.Schedule, Assign, Begin, PoolModel.Recycle;
      BeginExecution(w, r);
      if r.failsAtStart { Recycle(w); }
    }

    method BeginExecution(w: Worker, r: Request)
      modifies `workerMetadata, `workerFault, `started, `fate, `queueFault
      ensures View() == Begin(old(View()), w, r)
    {
      hide Assign, MarkStarted;
      ghost var fit := Workers().Fit(w);
      AssignWorkerProject(w, r.project);
      RecordStart(w, r, fit);
    }

    ghost method RecordStart(w: Worker, r: Request, fit: bool)
      modifies `started, `fate, `queueFault
      ensures Dispatches() == MarkStarted(old(Dispatches()), w, r, fit)
    {
      queueFault := queueFault || (r in fate && fate[r] != Queued);
      started := started + [Start(w, r, fit)];
      fate := fate[r := Started];
    }

    method Recycle(w: Worker)
      modifies this
      ensures View() == PoolModel.Recycle(old(View()), w)
      decreases queuedCount, 11
    {
      if w !in activeWorkers { return; }
      if w in tainted {
        RecycleTainted(View(), w);
        tainted := tainted - {w};
        RetireWorker(w);
        return;
      }
      Schedule(w);
    }
  
    // ---- dispatch ----------------------------------------------------------------------------

    method EnsureWorkerForQueuedProject()
      modifies this
      ensures View() == ScheduleIdle(old(View()), old(idle))
    {
      hide PoolModel.Schedule, Without;
      var workers := idle;
      ghost var s := View();
      for i := 0 to |workers|
        invariant ScheduleIdle(View(), workers[i..]) == ScheduleIdle(s, workers)
      {
        if queuedCount == 0 { return; }
        assert workers[i..][1..] == workers[i + 1..];
        idle := Without(idle, workers[i]);
        Schedule(workers[i]);
      }
    }

    method EnsureCapacityForQueuedWork()
      modifies this
      ensures View() == EnsureCapacity(old(View()))
    {
      hide PoolModel.Schedule, ScheduleIdle, Create;
      EnsureWorkerForQueuedProject();
      if queuedCount == 0 || draining || admissionBlocked || admissionRecovering { return; }
      if |activeWorkers| >= config.maxConcurrent || churn >= config.maxChurn { return; }
      if |activeWorkers| + |parkedWorkers| + |retiredWorkers| >= config.maxWorkers { return; }
      var worker := CreateWorker();
      activeWorkers := activeWorkers + [worker];
      Schedule(worker);
    }

    method FindIdle(p: Project) returns (index: int)
      ensures index == IdleIndex(Workers(), p)
    {
      index := |idle| - 1;
      while index >= 0
        invariant -1 <= index < |idle|
        invariant forall j :: index < j < |idle| ==> !(WorkerProjectRef(idle[j]) == Some(p) && idle[j] !in tainted)
      {
        if WorkerProjectRef(idle[index]) == Some(p) && idle[index] !in tainted { return; }
        index := index - 1;
      }
      index := |idle| - 1;
      while index >= 0
        invariant -1 <= index < |idle|
        invariant forall j :: index < j < |idle| ==> !(WorkerAcceptsProject(idle[j], p) && idle[j] !in tainted)
      {
        if WorkerAcceptsProject(idle[index], p) && idle[index] !in tainted { return; }
        index := index - 1;
      }
    }

    method TakeIdleWorker(p: Project) returns (worker: Option<Worker>)
      modifies `idle, `workerMetadata
      ensures worker.None? <==> IdleIndex(old(Workers()), p) < 0
      ensures worker.None? ==> Workers() == old(Workers())
      ensures worker.Some? ==>
                var i := IdleIndex(old(Workers()), p);
                i < |old(idle)| && worker.value == old(idle)[i] && Workers() == TakeAt(old(Workers()), i)
    {
      IdleIndexRange(Workers(), p);
      hide IdleIndex;
      var i := FindIdle(p);
      if i < 0 { return None; }
      var w := idle[i];
      idle := idle[..i] + idle[i + 1..];
      ClearSurplusTimer(w);
      return Some(w);
    }

    method Dispatch(p: Project, failsAtStart: bool)
      modifies this
      ensures View() == PoolModel.Dispatch(old(View()), p, failsAtStart)
    {
      hide Admit;
      var r := Request(arrivals, p, failsAtStart);
      arrivals := arrivals + 1;
      if draining || RejectAdmission() || queuedCount >= config.maxQueue {
        fate := fate[r := Answered];
        return;
      }
      AdmitRequest(r);
    }

    predicate RejectAdmission()
      reads this
      ensures RejectAdmission() == View().RejectsAdmission()
    {
      admissionBlocked || (admissionRecovering && (|activeWorkers| > |idle| || queuedCount > 0))
    }

    method AdmitRequest(r: Request)
      modifies this
      ensures View() == Admit(old(View()), r)
    {
      hide TakeAt, PoolModel.Execute, EnsureCapacity, Enqueue, IdleIndex;
      ghost var s := View();
      IdleIndexRange(s.fleet, r.project);
      var worker := TakeIdleWorker(r.project);
      if worker.Some? {
        Execute(worker.value, r);
      } else {
        EnqueueAndGrow(r);
      }
    }

    method EnqueueAndGrow(r: Request)
      modifies this
      ensures View() == EnsureCapacity(old(View()).(queue := Enqueue(old(View()).queue, r)))
    {
      hide EnsureCapacity, Enqueue;
      EnqueueQueued(r);
      EnsureCapacityForQueuedWork();
    }

    // ---- worker events -----------------------------------------------------------------------

    // A finished execution or preheat; `overBudget` when it exceeded the worker's memory budget.
    method Finish(w: Worker, overBudget: bool)
      modifies this
      ensures View() == Step(old(View()), Event.Finish(w, overBudget))
    {
      hide PoolModel.Recycle;
      if overBudget { tainted := tainted + {w}; }
      Recycle(w);
    }

    method RemoveWorkerReferences(w: Worker)
      modifies `retiredWorkers, `workerMetadata, `tainted, `parkedWorkers, `idle
      ensures Workers() == Forget(old(Workers()), w)
    {
      hide Without;
      retiredWorkers := retiredWorkers - {w};
      workerMetadata := workerMetadata - {w};
      tainted := tainted - {w};
      parkedWorkers := Without(parkedWorkers, w);
      idle := Without(idle, w);
    }

    method OnWorkerExit(w: Worker)
      modifies this
      ensures View() == OnExit(old(View()), w)
    {
      hide EnsureCapacity, Forget, ReplaceGone;
      var retired := w in retiredWorkers;
      RemoveWorkerReferences(w);
      if retired && !draining { EnsureCapacityForQueuedWork(); }
      if w in activeWorkers { ReplaceExited(w); }
    }

    method ReplaceExited(w: Worker)
      modifies this
      ensures View() == ReplaceGone(old(View()), w)
    {
      hide PoolModel.Schedule, Spawn, Without;
      ghost var s := View();
      activeWorkers := Without(activeWorkers, w);
      ghost var t := View();
      assert t == s.(fleet := s.fleet.(active := Without(s.fleet.active, w)));
      if draining { return; }
      var replacement := SpawnReplacement();
      assert View() == t.(fleet := Spawn(t.fleet));
      Schedule(replacement);
    }

    method SurplusTimerFired(w: Worker)
      modifies this
      ensures View() == PoolModel.SurplusTimerFired(old(View()), w)
    {
      hide RetireSurplus, SetSurplusTimer;
      if w !in workerMetadata || !workerMetadata[w].surplusTimer { return; }
      ClearSurplusTimer(w);
      if ShouldRetireSurplusWorker() && w in idle { RetireSurplusWorker(w); }
    }

    // ---- rotation and preheating -------------------------------------------------------------

    method RotateWorkerForGeneration(w: Worker)
      modifies this
      ensures View() == RotateOne(old(View()), w)
    {
      hide Retire;
      if w in parkedWorkers || w in idle {
        RetireWorker(w);
      } else {
        tainted := tainted + {w};
      }
    }

    method RotateGeneration()
      modifies this
      ensures View() == Rotate(old(View()))
    {
      hide RotateOne, Outdated;
      workerGeneration := workerGeneration + 1;
      ghost var s := View();
      var workers := OutdatedWorkers(activeWorkers + parkedWorkers);
      for i := 0 to |workers|
        invariant RotateWorkers(View(), workers[i..]) == RotateWorkers(s, workers)
      {
        assert workers[i..][1..] == workers[i + 1..];
        RotateWorkerForGeneration(workers[i]);
      }
    }

    method OutdatedWorkers(ws: seq<Worker>) returns (r: seq<Worker>)
      ensures r == Outdated(Workers(), ws)
    {
      hide Outdated;
      r := [];
      FiltersEnd(Workers(), ws, "");
      for i := 0 to |ws|
        invariant r + Outdated(Workers(), ws[i..]) == Outdated(Workers(), ws)
      {
        OutdatedFrom(Workers(), ws, i);
        if ws[i] !in workerMetadata || workerMetadata[ws[i]].generation < workerGeneration { r := r + [ws[i]]; }
      }
    }

    method FittingIdle(p: Project) returns (r: seq<Worker>)
      ensures r == Fitting(Workers(), idle, p)
    {
      hide Outdated, Fitting, Mismatched;
      r := [];
      for i := 0 to |idle|
        invariant r + Fitting(Workers(), idle[i..], p) == Fitting(Workers(), idle, p)
      {
        FiltersFrom(Workers(), idle, i, p);
        if WorkerAcceptsProject(idle[i], p) && idle[i] !in tainted { r := r + [idle[i]]; }
      }
      FiltersEnd(Workers(), idle, p);
    }

    method MismatchedIdle(p: Project) returns (r: seq<Worker>)
      ensures r == Mismatched(Workers(), idle, p)
    {
      hide Outdated, Fitting, Mismatched;
      r := [];
      for i := 0 to |idle|
        invariant r + Mismatched(Workers(), idle[i..], p) == Mismatched(Workers(), idle, p)
      {
        FiltersFrom(Workers(), idle, i, p);
        if !WorkerAcceptsProject(idle[i], p) { r := r + [idle[i]]; }
      }
      FiltersEnd(Workers(), idle, p);
    }

    method ReplaceMismatchedIdleWorkers(p: Project, count: nat)
      modifies this
      ensures View() == Exchange(old(View()), Take(Mismatched(old(Workers()), old(idle), p), count), p)
    {
      hide SwitchSlot, Mismatched;
      ghost var s := View();
      var mismatched := MismatchedIdle(p);
      mismatched := Take(mismatched, count);
      for i := 0 to |mismatched|
        invariant Exchange(View(), mismatched[i..], p) == Exchange(s, mismatched, p)
      {
        assert mismatched[i..][1..] == mismatched[i + 1..];
        var replacement := SwitchProjectSlot(mismatched[i], p);
        idle := idle + [replacement];
      }
    }

    // The workers that a bulk preheat takes out of the idle list and binds to its project.
    method TakeIdleWorkersForProject(p: Project, limit: nat) returns (workers: seq<Worker>)
      modifies this
      ensures View() == TakeForPreheat(old(View()), p, limit)
      ensures workers == TakenForPreheat(old(View()), p, limit)
    {
      hide Exchange, Fitting, Mismatched, Reserve;
      var requested := if limit == 0 || limit > |idle| then |idle| else limit;
      var matching := FittingIdle(p);
      ReplaceMismatchedIdleWorkers(p, if requested > |matching| then requested - |matching| else 0);
      var available := FittingIdle(p);
      workers := Take(available, requested);
      ReserveWorkers(workers, p);
    }

    method ReserveWorkers(workers: seq<Worker>, p: Project)
      modifies `idle, `workerMetadata, `workerFault
      ensures Workers() == Reserve(old(Workers()), workers, p)
    {
      hide Assign;
      idle := Minus(idle, workers);
      ghost var f := Workers();
      for i := 0 to |workers|
        invariant AssignAll(Workers(), workers[i..], p) == AssignAll(f, workers, p)
      {
        assert workers[i..][1..] == workers[i + 1..];
        AssignWorkerProject(workers[i], p);
      }
    }

    method Preheat(p: Project)
      modifies this
      ensures View() == PoolModel.Preheat(old(View()), p)
    {
      hide IdleIndex, TakeAt, Assign;
      if draining || admissionBlocked || admissionRecovering { return; }
      ghost var s := View();
      IdleIndexRange(s.fleet, p);
      var worker := TakeIdleWorker(p);
      if worker.Some? { AssignWorkerProject(worker.value, p); }
    }

    method BulkPreheat(p: Project, limit: nat, rotate: bool)
      modifies this
      ensures View() == PoolModel.BulkPreheat(old(View()), p, limit, rotate)
    {
      hide Rotate, TakeForPreheat;
      if draining || admissionBlocked || admissionRecovering { return; }
      if rotate { RotateGeneration(); }
      var _ := TakeIdleWorkersForProject(p, limit);
    }

    // ---- admission ---------------------------------------------------------------------------

    method SetAdmissionBlocked(blocked: bool, recovering: bool)
      modifies this
      ensures View() == SetAdmission(old(View()), blocked, recovering)
    {
      hide Shed, Clear, Workers, Dispatches;
      if admissionBlocked == blocked && admissionRecovering == recovering { return; }
      admissionBlocked := blocked;
      admissionRecovering := recovering && !blocked;
      if blocked { ShedLoad(); }
    }

    method ShedLoad()
      modifies this
      ensures View() == Shed(old(View()).(queue := Clear(old(Dispatches()))))
    {
      hide EvictAll, TrimIdle, Clear;
      ClearQueue();
      EvictParkedWorkers();
      TrimIdleWorkers();
    }

    method EvictParkedWorkers()
      modifies this
      ensures View() == EvictAll(old(View()), old(parkedWorkers))
    {
      hide EvictParked;
      var workers := parkedWorkers;
      ghost var s := View();
      for i := 0 to |workers|
        invariant EvictAll(View(), workers[i..]) == EvictAll(s, workers)
      {
        assert workers[i..][1..] == workers[i + 1..];
        EvictParkedWorker(workers[i]);
      }
    }

    method TrimIdleWorkers()
      modifies this
      ensures View() == TrimIdle(old(View()), old(idle))
    {
      hide RetireSurplus;
      var workers := idle;
      ghost var s := View();
      for i := 0 to |workers|
        invariant TrimIdle(View(), workers[i..]) == TrimIdle(s, workers)
      {
        assert workers[i..][1..] == workers[i + 1..];
        if |activeWorkers| <= config.size { break; }
        RetireSurplusWorker(workers[i]);
      }
    }

    // ---- runs --------------------------------------------------------------------------------

    method TaintWorker(w: Worker)
      modifies `tainted
      ensures View() == Step(old(View()), TaintBusy(w))
    {
      tainted := tainted + {w};
    }

    method ForgetRetired(w: Worker)
      modifies `retiredWorkers
      ensures View() == Step(old(View()), RetirementDeadline(w))
    {
      retiredWorkers := retiredWorkers - {w};
    }

    // Events that concern one worker.
    method HandleWorker(e: Event)
      requires OfWorker(e)
      modifies this
      ensures View() == Step(old(View()), e)
    {
      hide Retire, OnExit, EvictParked, PoolModel.SurplusTimerFired, PoolModel.Recycle, PoolModel.Taint;
      match e
      case Finish(w, over) => Finish(w, over);
      case Lose(w) => RetireWorker(w);
      case Exit(w) => OnWorkerExit(w);
      case TaintBusy(w) => TaintWorker(w);
      case ParkedTimer(w) => EvictParkedWorker(w);
      case SurplusTimer(w) => SurplusTimerFired(w);
      case RetirementDeadline(w) => ForgetRetired(w);
    }

    method CancelRequest(r: Request)
      modifies this
      ensures View() == Step(old(View()), Cancel(r))
    {
      hide PoolModel.CancelQueued;
      var _ := CancelQueued(r);
    }

    // Events that concern requests and the pool as a whole.
    method HandlePool(e: Event)
      requires !OfWorker(e)
      modifies this
      ensures View() == Step(old(View()), e)
    {
      hide PoolModel.Dispatch, PoolModel.InvalidateProject, PoolModel.CancelQueued, PoolModel.Preheat,
           PoolModel.BulkPreheat, SetAdmission, PoolModel.StopDispatching;
      match e
      case Arrive(p, f) => Dispatch(p, f);
      case Cancel(r) => CancelRequest(r);
      case Invalidate(p) => var _ := InvalidateProject(p);
      case PreheatOne(p) => Preheat(p);
      case PreheatMany(p, n, rotate) => BulkPreheat(p, n, rotate);
      case Admission(b, r) => SetAdmissionBlocked(b, r);
      case Drain => StopDispatching();
    }

    method Handle(e: Event)
      modifies this
      ensures View() == Step(old(View()), e)
    {
      hide Step;
      if OfWorker(e) { HandleWorker(e); } else { HandlePool(e); }
    }

    // Any sequence of events takes the object where the model's run ends.
    method HandleAll(events: seq<Event>)
      modifies this
      ensures View() == Run(old(View()), events)
    {
      hide Step;
      ghost var s := View();
      for i := 0 to |events|
        invariant Run(View(), events[i..]) == Run(s, events)
      {
        assert events[i..][1..] == events[i + 1..];
        Handle(events[i]);
      }
    }

    // The whole service of a new pool, with the promises read off the object.
    method Serve(events: seq<Event>)
      requires config.Valid() && View() == Initial(config) && Admissible(Initial(config), events)
      modifies this
      ensures View() == Run(Initial(config), events)
      ensures idle == [] || queuedProjects == []
      ensures forall w :: w in idle ==> w in activeWorkers
      ensures forall w :: w in parkedWorkers ==> w !in activeWorkers
      ensures forall w :: w in retiredWorkers ==> w !in activeWorkers && w !in parkedWorkers
      ensures (!draining ==> config.size <= |activeWorkers|) && |activeWorkers| <= config.maxConcurrent
      ensures |parkedWorkers| <= config.maxWorkers - config.maxConcurrent
      ensures admissionBlocked ==> queuedProjects == [] && parkedWorkers == []
      ensures !(admissionBlocked && admissionRecovering)
    {
      HandleAll(events);
      hide Run, Initial, Admissible;
      WorkConservation(config, events);
      PoolShape(config, events);
      BlockedPoolIsQuiet(config, events);
    }
  }

  predicate OfWorker(e: Event) {
    e.Finish? || e.Lose? || e.Exit? || e.TaintBusy? || e.ParkedTimer? || e.SurplusTimer? || e.RetirementDeadline?
  }

  lemma IdleIndexRange(f: Fleet, p: Project)
    ensures -1 <= IdleIndex(f, p) < |f.idle|
  {
  }

  // ---- facts the methods use -----------------------------------------------------------------

  lemma DiscardCount(s: Pool, w: Worker)
    ensures Discard(s, w).queue.count <= s.queue.count
  {
  }

  lemma DiscardParked(s: Pool, w: Worker)
    ensures EvictParked(s, w) == if w in s.fleet.parked then Discard(s, w) else s
  {
  }

  lemma ParkCount(s: Pool, w: Worker)
    ensures Park(s, w).queue.count <= s.queue.count
  {
    ParkKeepsCount(s, w);
  }

  lemma EvictCount(s: Pool, w: Worker)
    requires w in s.fleet.parked
    ensures EvictParked(s, w).queue.count <= s.queue.count && |EvictParked(s, w).fleet.parked| < |s.fleet.parked|
  {
  }

  lemma DequeueCount(q: Queue, p: Option<Project>, skipped: set<Project>)
    ensures var (t, next) := DequeueFor(q, p, skipped); next.Some? ==> t.count < q.count
  {
  }

  // Recycling a tainted worker retires it, whether or not its mark and its timer are cleared first.
  lemma RecycleTainted(s: Pool, w: Worker)
    requires w in s.fleet.tainted && w in s.fleet.active
    ensures Retire(s.(fleet := s.fleet.(tainted := s.fleet.tainted - {w})), w) == PoolModel.Schedule(s, w)
  {
    hide Discard, Remove, SetSurplusTimer, SurplusStep, Target, Claim, ServeStep, Skipped;
    RemovedAlike(s, w);
    assert w in SetSurplusTimer(s.fleet, w, false).tainted by { TimerKeepsTaint(s.fleet, w); }
  }

  lemma TimerKeepsTaint(f: Fleet, w: Worker)
    ensures SetSurplusTimer(f, w, false).tainted == f.tainted
  {
  }

  lemma RemovedAlike(s: Pool, w: Worker)
    requires w in s.fleet.active
    ensures Discard(s.(fleet := SetSurplusTimer(s.fleet, w, false)), w)
         == Discard(s.(fleet := s.fleet.(tainted := s.fleet.tainted - {w})), w)
    ensures SetSurplusTimer(s.fleet, w, false).active == s.fleet.active
  {
    RemoveAlike(s.fleet, w);
    hide Remove, Clear;
  }

  lemma RemoveAlike(f: Fleet, w: Worker)
    requires w in f.active
    ensures Remove(SetSurplusTimer(f, w, false), w) == Remove(f.(tainted := f.tainted - {w}), w)
  {
    assert SetSurplusTimer(f, w, false).meta - {w} == f.meta - {w};
    hide Without;
  }

  lemma BeginKeepsActive(s: Pool, w: Worker, r: Request)
    ensures Begin(s, w, r).fleet.active == s.fleet.active
  {
  }

  lemma FreshIsUntainted(s: Pool, w: Worker)
    ensures var t := Discard(s, w);
            t.fleet.next !in Spawn(t.fleet).tainted
  {
    hide Discard;
  }

  // The cases of `schedule`, by what the pool is like once the worker's surplus timer is cleared.
  lemma ScheduleCases(s: Pool, w: Worker)
    ensures var d := s.(fleet := SetSurplusTimer(s.fleet, w, false));
            && d.fleet.tainted == s.fleet.tainted
            && (w in d.fleet.tainted ==> PoolModel.Schedule(s, w) == Retire(d, w))
            && (w !in d.fleet.tainted && d.HasSurplus() ==> PoolModel.Schedule(s, w) == SurplusStep(d, w))
            && (w in d.fleet.tainted || d.HasSurplus()
                || if d.draining || d.blocked || Target(d, w).None? then
                     PoolModel.Schedule(s, w) == d.(fleet := ToIdle(d.fleet, w))
                   else
                     var (c, n) := Claim(d, w, Target(d, w).value);
                     var (t, next) := ServeStep(c, n, Skipped(d, Target(d, w).value));
                     PoolModel.Schedule(s, w) == if next.None? then t else PoolModel.Schedule(t, next.value))
  {
    hide RetireStep, SurplusStep, Claim, ServeStep, Target, Skipped, ToIdle;
  }
}
