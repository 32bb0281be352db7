/** A worker pool whose admission is driven by the memory-pressure monitor. */
module MonitoredPool {
  import Pressure = MemoryPressureModel
  import opened PoolModel
  import opened PoolQueue
  import opened PoolFleet
  import opened PoolSteps
  import opened PoolHandlers
  import opened PoolRuns

  datatype System = System(pool: Pool, monitor: Pressure.Monitor)

  datatype SystemEvent = OfPool(event: Event) | Sampled(sample: Pressure.Sample)

  // The pool hears of an admission state only when it changes.
  function SystemStep(s: System, e: SystemEvent): System {
    match e
    case OfPool(event) => s.(pool := Step(s.pool, event))
    case Sampled(sample) =>
      var m := Pressure.Poll(s.monitor, sample);
      if m.blocked == s.monitor.blocked && m.recovering == s.monitor.recovering then s.(monitor := m)
      else System(SetAdmission(s.pool, m.blocked, m.recovering), m)
  }

  // Only the monitor changes the admission state.
  predicate SystemEnabled(s: System, e: SystemEvent) {
    e.OfPool? ==> Enabled(s.pool, e.event) && !e.event.Admission?
  }

  function SystemRun(s: System, es: seq<SystemEvent>): System
    decreases es
  {
    if es == [] then s else SystemRun(SystemStep(s, es[0]), es[1..])
  }

  predicate SystemAdmissible(s: System, es: seq<SystemEvent>)
    decreases es
  {
    es == [] || (SystemEnabled(s, es[0]) && SystemAdmissible(SystemStep(s, es[0]), es[1..]))
  }

  // Pool and monitor agree, and a pool that does not admit freely parks nobody.
  ghost predicate Driven(s: System) {
    && Reachable(s.pool) && Pressure.Exclusive(s.monitor)
    && s.pool.blocked == s.monitor.blocked && s.pool.recovering == s.monitor.recovering
    && (s.pool.blocked || s.pool.recovering ==> s.pool.fleet.parked == [])
  }

  // Letting work in again touches no worker.
  lemma UnblockKeepsWorkers(s: Pool, recovering: bool)
    ensures SetAdmission(s, false, recovering).fleet == s.fleet
  {
  }

  lemma StepDriven(s: System, e: SystemEvent)
    requires Driven(s) && SystemEnabled(s, e)
    ensures Driven(SystemStep(s, e))
  {
    hide Inv, Working, Step, SetAdmission, Pressure.Poll, Evolves;
    match e
    case OfPool(event) =>
      StepReachable(s.pool, event);
      StepEvolves(s.pool, event);
      EvolvesFlags(s.pool, Step(s.pool, event));
    case Sampled(sample) =>
      var m := Pressure.Poll(s.monitor, sample);
      Pressure.PollExclusive(s.monitor, sample);
      SetAdmissionInv(s.pool, m.blocked, m.recovering);
      UnblockKeepsWorkers(s.pool, m.recovering);
  }

  lemma EvolvesFlags(s: Pool, t: Pool)
    requires Evolves(s, t)
    ensures t.blocked == s.blocked && t.recovering == s.recovering
    ensures (s.blocked || s.recovering) && s.fleet.parked == [] ==> t.fleet.parked == []
  {
    hide Binds, Settles;
  }

  lemma {:induction false} RunDriven(s: System, es: seq<SystemEvent>)
    requires Driven(s) && SystemAdmissible(s, es)
    ensures Driven(SystemRun(s, es))
    decreases es
  {
    if es != [] {
      hide Driven, SystemStep, SystemEnabled;
      StepDriven(s, es[0]);
      RunDriven(SystemStep(s, es[0]), es[1..]);
    }
  }

  function Started(c: Config): System {
    System(Initial(c), Pressure.CALM)
  }

  lemma InitialDriven(c: Config)
    requires c.Valid()
    ensures Driven(Started(c))
  {
    InitialInv(c);
    WarmParksNobody(c.size);
    hide Inv, Working, Warm;
  }

  lemma {:induction false} WarmParks(f: Fleet, n: nat)
    ensures Warm(f, n).parked == f.parked
    decreases n
  {
    if n > 0 {
      WarmParks(Activate(ToIdle(Create(f), f.next), f.next), n - 1);
    }
  }

  lemma WarmParksNobody(n: nat)
    ensures Warm(Fleet([], [], [], {}, map[], {}, 0, 0, 0, false), n).parked == []
  {
    WarmParks(Fleet([], [], [], {}, map[], {}, 0, 0, 0, false), n);
  }

  lemma BlockedIsEmpty(s: System)
    requires Driven(s)
    ensures s.pool.blocked ==> s.pool.queue.order == []
  {
    hide Good, Isolated, Roster, Timed, Working;
  }

  lemma FlagsExclude(s: System)
    requires Driven(s)
    ensures s.pool.blocked == s.monitor.blocked && s.pool.recovering == s.monitor.recovering
    ensures !(s.pool.blocked && s.pool.recovering)
    ensures s.pool.blocked || s.pool.recovering ==> s.pool.fleet.parked == []
  {
    hide Reachable;
  }

  // In every run, the flags of pool and monitor agree and exclude each other; while blocked nothing is
  // queued; while blocked or recovering nobody is parked.
  lemma PressureQuietsThePool(c: Config, es: seq<SystemEvent>)
    requires c.Valid() && SystemAdmissible(Started(c), es)
    ensures var s := SystemRun(Started(c), es);
            && s.pool.blocked == s.monitor.blocked && s.pool.recovering == s.monitor.recovering
            && !(s.pool.blocked && s.pool.recovering)
            && (s.pool.blocked ==> s.pool.queue.order == [])
            && (s.pool.blocked || s.pool.recovering ==> s.pool.fleet.parked == [])
  {
    hide *;
    InitialDriven(c);
    RunDriven(Started(c), es);
    BlockedIsEmpty(SystemRun(Started(c), es));
    FlagsExclude(SystemRun(Started(c), es));
  }
}
