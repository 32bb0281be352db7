/**
 The environment cache of one project: loads that take time, invalidations that may overtake them, and
 the record of which environment the latest dispatch ran with. The maps of the source are keyed by
 project, and no operation looks at another project's entries.
 */
module TenantEnvModel {
  import opened Lists

  // An environment as loaded; `content` stands for the variables, proofs and source.
  datatype Load = Load(epoch: nat, content: nat)

  // Fetched: the uncached load is done, its continuation still to run. Waiting: the retry joined or started another load.
  datatype Stage = Fetching | Fetched(load: Load) | Waiting(on: nat) | Settled(load: Load) | Failed

  datatype Loading = Loading(epoch: nat, stage: Stage)

  datatype Reservation = Reservation(ordinal: nat, epoch: nat)

  datatype Observation = Observation(ordinal: nat, load: Load)

  // `loads` are all load promises ever made, by order of creation; `accepted` all observations ever stored.
  datatype Tenant = Tenant(
    epoch: nat, cache: Option<Load>, inflight: Option<nat>, loads: seq<Loading>,
    ordinal: nat, observed: Option<Observation>, accepted: seq<Observation>)

  const UNLOADED := Tenant(0, None, None, [], 0, None, [])

  datatype Answer = Ready(load: Load) | Await(on: nat)

  // `unexpired`: the cached entry, if any, has not expired.
  datatype Event =
    | Request(unexpired: bool)
    | Fetch(op: nat, content: nat)
    | FetchFails(op: nat)
    | Resolve(op: nat, unexpired: bool)
    | Propagate(op: nat)
    | Invalidate
    | Reserve
    | Record(load: Load, reservation: Reservation)

  // loadTenantRuntimeEnv: the cache, then the load under way, then a new load.
  function Answered(t: Tenant, unexpired: bool): Answer {
    if t.cache.Some? && unexpired then Ready(t.cache.value)
    else if t.inflight.Some? then Await(t.inflight.value)
    else Await(|t.loads|)
  }

  function Asked(t: Tenant, unexpired: bool): Tenant {
    if (t.cache.Some? && unexpired) || t.inflight.Some? then t
    else t.(loads := t.loads + [Loading(t.epoch, Fetching)], inflight := Some(|t.loads|))
  }

  // The `finally` of a load: it leaves the in-flight entry only if that is still its own.
  function Finish(t: Tenant, op: nat, stage: Stage): Tenant
    requires op < |t.loads|
  {
    t.(loads := t.loads[op := t.loads[op].(stage := stage)], inflight := if t.inflight == Some(op) then None else t.inflight)
  }

  function DoFetch(t: Tenant, op: nat, content: nat): Tenant {
    if op >= |t.loads| || t.loads[op].stage != Fetching then t
    else
      var load := Load(t.loads[op].epoch, content);
      t.(loads := t.loads[op := t.loads[op].(stage := Fetched(load))],
         cache := if t.epoch == load.epoch then Some(load) else t.cache)
  }

  function DoResolve(t: Tenant, op: nat, unexpired: bool): Tenant {
    if op >= |t.loads| || !t.loads[op].stage.Fetched? then t
    else if t.epoch == t.loads[op].epoch then Finish(t, op, Settled(t.loads[op].stage.load))
    else
      match Answered(t, unexpired)
      case Ready(load) => Finish(t, op, Settled(load))
      case Await(on) =>
        var a := Asked(t, unexpired);
        a.(loads := a.loads[op := a.loads[op].(stage := Waiting(on))])
  }

  function DoPropagate(t: Tenant, op: nat): Tenant {
    if op >= |t.loads| || !t.loads[op].stage.Waiting? || t.loads[op].stage.on >= |t.loads| then t
    else
      match t.loads[t.loads[op].stage.on].stage
      case Settled(load) => Finish(t, op, Settled(load))
      case Failed => Finish(t, op, Failed)
      case _ => t
  }

  function DoInvalidate(t: Tenant): Tenant {
    t.(epoch := t.epoch + 1, cache := None, inflight := None)
  }

  predicate Accepts(t: Tenant, load: Load, r: Reservation) {
    && load.epoch == t.epoch && t.epoch == r.epoch
    && (if t.observed.Some? then t.observed.value.ordinal else 0) < r.ordinal
  }

  function DoRecord(t: Tenant, load: Load, r: Reservation): Tenant {
    if !Accepts(t, load, r) then t
    else t.(observed := Some(Observation(r.ordinal, load)), accepted := t.accepted + [Observation(r.ordinal, load)])
  }

  function Step(t: Tenant, e: Event): Tenant {
    match e
    case Request(unexpired) => Asked(t, unexpired)
    case Fetch(op, content) => DoFetch(t, op, content)
    case FetchFails(op) => if op < |t.loads| && t.loads[op].stage == Fetching then Finish(t, op, Failed) else t
    case Resolve(op, unexpired) => DoResolve(t, op, unexpired)
    case Propagate(op) => DoPropagate(t, op)
    case Invalidate => DoInvalidate(t)
    case Reserve => t.(ordinal := t.ordinal + 1)
    case Record(load, r) => DoRecord(t, load, r)
  }

  function Run(t: Tenant, es: seq<Event>): Tenant
    decreases es
  {
    if es == [] then t else Run(Step(t, es[0]), es[1..])
  }

  // ---- what every event keeps ----------------------------------------------------------------------------

  predicate Unsettled(l: Loading) {
    !l.stage.Settled? && !l.stage.Failed?
  }

  // What one load may hold.
  predicate Proper(loads: seq<Loading>, epoch: nat, op: nat)
    requires op < |loads|
  {
    var l := loads[op];
    && l.epoch <= epoch
    && match l.stage
       case Fetching => true
       case Failed => true
       case Fetched(load) => load.epoch == l.epoch
       case Settled(load) => l.epoch <= load.epoch <= epoch
       case Waiting(on) => on < |loads| && l.epoch < loads[on].epoch
  }

  ghost predicate LoadsProper(loads: seq<Loading>, epoch: nat) {
    forall op :: 0 <= op < |loads| ==> Proper(loads, epoch, op)
  }

  ghost predicate Current(t: Tenant) {
    && (t.cache.Some? ==> t.cache.value.epoch == t.epoch)
    && (t.inflight.Some? ==> t.inflight.value < |t.loads| && t.loads[t.inflight.value].epoch == t.epoch
                             && Unsettled(t.loads[t.inflight.value]))
    && (forall op :: 0 <= op < |t.loads| && t.loads[op].epoch == t.epoch && Unsettled(t.loads[op]) ==> t.inflight == Some(op))
  }

  ghost predicate Recorded(t: Tenant) {
    && t.observed == (if t.accepted == [] then None else Some(t.accepted[|t.accepted| - 1]))
    && (forall i :: 0 <= i < |t.accepted| ==> t.accepted[i].load.epoch <= t.epoch && t.accepted[i].ordinal > 0)
    && (forall i, j :: 0 <= i < j < |t.accepted| ==>
          t.accepted[i].ordinal < t.accepted[j].ordinal && t.accepted[i].load.epoch <= t.accepted[j].load.epoch)
  }

  ghost predicate Sound(t: Tenant) {
    LoadsProper(t.loads, t.epoch) && Current(t) && Recorded(t)
  }

  lemma AskedSound(t: Tenant, unexpired: bool)
    requires Sound(t)
    ensures Sound(Asked(t, unexpired))
    ensures var a := Answered(t, unexpired);
            if a.Ready? then a.load.epoch == t.epoch
            else a.on < |Asked(t, unexpired).loads| && Asked(t, unexpired).loads[a.on].epoch == t.epoch
  {
    var more := t.loads + [Loading(t.epoch, Fetching)];
    forall k | 0 <= k < |more| ensures Proper(more, t.epoch, k) {
      if k < |t.loads| {
        assert Proper(t.loads, t.epoch, k);
      }
    }
  }

  lemma StageSound(loads: seq<Loading>, epoch: nat, op: nat, stage: Stage)
    requires LoadsProper(loads, epoch) && op < |loads| && Proper(loads[op := loads[op].(stage := stage)], epoch, op)
    ensures LoadsProper(loads[op := loads[op].(stage := stage)], epoch)
  {
    var more := loads[op := loads[op].(stage := stage)];
    forall k | 0 <= k < |more| ensures Proper(more, epoch, k) {
      assert Proper(loads, epoch, k);
    }
  }

  lemma FinishSound(t: Tenant, op: nat, stage: Stage)
    requires Sound(t) && op < |t.loads|
    requires stage == Failed || (stage.Settled? && t.loads[op].epoch <= stage.load.epoch <= t.epoch)
    ensures Sound(Finish(t, op, stage))
  {
    assert Proper(t.loads, t.epoch, op);
    StageSound(t.loads, t.epoch, op, stage);
    hide LoadsProper, Recorded;
  }

  lemma FetchSound(t: Tenant, op: nat, content: nat)
    requires Sound(t)
    ensures Sound(DoFetch(t, op, content))
  {
    if op < |t.loads| && t.loads[op].stage == Fetching {
      assert Proper(t.loads, t.epoch, op);
      StageSound(t.loads, t.epoch, op, Fetched(Load(t.loads[op].epoch, content)));
      hide LoadsProper, Recorded;
    }
  }

  lemma ResolveSound(t: Tenant, op: nat, unexpired: bool)
    requires Sound(t)
    ensures Sound(DoResolve(t, op, unexpired))
  {
    if op < |t.loads| && t.loads[op].stage.Fetched? {
      assert Proper(t.loads, t.epoch, op);
      AskedSound(t, unexpired);
      if t.epoch == t.loads[op].epoch {
        FinishSound(t, op, Settled(t.loads[op].stage.load));
      } else {
        match Answered(t, unexpired)
        case Ready(load) => FinishSound(t, op, Settled(load));
        case Await(on) =>
          StageSound(Asked(t, unexpired).loads, t.epoch, op, Waiting(on));
          hide LoadsProper, Recorded;
      }
    }
  }

  lemma PropagateSound(t: Tenant, op: nat)
    requires Sound(t)
    ensures Sound(DoPropagate(t, op))
  {
    if op < |t.loads| && t.loads[op].stage.Waiting? {
      assert Proper(t.loads, t.epoch, op);
      var on := t.loads[op].stage.on;
      assert Proper(t.loads, t.epoch, on);
      match t.loads[on].stage
      case Settled(load) => FinishSound(t, op, Settled(load));
      case Failed => FinishSound(t, op, Failed);
      case _ =>
    }
  }

  lemma InvalidateSound(t: Tenant)
    requires Sound(t)
    ensures Sound(DoInvalidate(t))
  {
    var later := t.epoch + 1;
    forall k | 0 <= k < |t.loads| ensures Proper(t.loads, later, k) && t.loads[k].epoch < later {
      assert Proper(t.loads, t.epoch, k);
    }
  }

  lemma RecordSound(t: Tenant, load: Load, r: Reservation)
    requires Sound(t)
    ensures Sound(DoRecord(t, load, r))
  {
    hide LoadsProper;
  }

  lemma ReserveSound(t: Tenant)
    requires Sound(t)
    ensures Sound(t.(ordinal := t.ordinal + 1))
  {
    hide LoadsProper;
  }

  lemma StepSound(t: Tenant, e: Event)
    requires Sound(t)
    ensures Sound(Step(t, e))
  {
    hide LoadsProper, Current, Recorded, Asked, DoFetch, DoResolve, DoPropagate, DoInvalidate, DoRecord, Finish;
    match e
    case Request(unexpired) => AskedSound(t, unexpired);
    case Fetch(op, content) => FetchSound(t, op, content);
    case FetchFails(op) => if op < |t.loads| { FinishSound(t, op, Failed); }
    case Resolve(op, unexpired) => ResolveSound(t, op, unexpired);
    case Propagate(op) => PropagateSound(t, op);
    case Invalidate => InvalidateSound(t);
    case Reserve => ReserveSound(t);
    case Record(load, r) => RecordSound(t, load, r);
  }

  lemma {:induction false} RunSound(t: Tenant, es: seq<Event>)
    requires Sound(t)
    ensures Sound(Run(t, es))
    decreases es
  {
    if es != [] {
      hide Step, Sound;
      StepSound(t, es[0]);
      RunSound(Step(t, es[0]), es[1..]);
    }
  }

  lemma Reached(es: seq<Event>)
    ensures Sound(Run(UNLOADED, es))
  {
    hide Run, Step;
    RunSound(UNLOADED, es);
  }

  // ---- the promises --------------------------------------------------------------------------------------

  function Invalidations(es: seq<Event>): nat
    decreases es
  {
    if es == [] then 0 else (if es[0].Invalidate? then 1 else 0) + Invalidations(es[1..])
  }

  // The epoch is the number of invalidations, and the epoch of a load the number of those before it began.
  lemma {:induction false} EpochCounts(t: Tenant, es: seq<Event>)
    ensures var u := Run(t, es);
            && u.epoch == t.epoch + Invalidations(es) && |t.loads| <= |u.loads|
            && (forall k :: 0 <= k < |t.loads| ==> u.loads[k].epoch == t.loads[k].epoch)
            && (forall k :: |t.loads| <= k < |u.loads| ==> t.epoch <= u.loads[k].epoch <= u.epoch)
    decreases es
  {
    if es != [] {
      StepEpoch(t, es[0]);
      hide Step;
      EpochCounts(Step(t, es[0]), es[1..]);
    }
  }

  lemma StepEpoch(t: Tenant, e: Event)
    ensures var u := Step(t, e);
            && u.epoch == t.epoch + (if e.Invalidate? then 1 else 0) && |t.loads| <= |u.loads|
            && (forall k :: 0 <= k < |t.loads| ==> u.loads[k].epoch == t.loads[k].epoch)
            && (forall k :: |t.loads| <= k < |u.loads| ==> u.loads[k].epoch == u.epoch)
  {
    hide Accepts;
  }

  // After an invalidation the next request starts a load, and from then on neither the cache nor an answer is of a
  // load that began before.
  lemma InvalidationIsFinal(es: seq<Event>, unexpired: bool, later: seq<Event>)
    ensures var t := Run(UNLOADED, es);
            var u := Step(t, Invalidate);
            var v := Run(u, later);
            && Answered(u, unexpired) == Await(|t.loads|) && |Asked(u, unexpired).loads| == |t.loads| + 1
            && |t.loads| <= |v.loads| && (forall k :: 0 <= k < |t.loads| ==> v.loads[k].epoch < u.epoch)
            && (v.cache.Some? ==> v.cache.value.epoch >= u.epoch)
            && match Answered(v, unexpired)
               case Ready(load) => load.epoch >= u.epoch
               case Await(on) => on >= |t.loads|
  {
    var t := Run(UNLOADED, es);
    var u := Step(t, Invalidate);
    Reached(es);
    StepSound(t, Invalidate);
    RunSound(u, later);
    EpochCounts(u, later);
    OldLoads(t);
    AskedSound(Run(u, later), unexpired);
    hide Run, Sound, LoadsProper, Recorded, Asked;
  }

  lemma OldLoads(t: Tenant)
    requires Sound(t)
    ensures forall k :: 0 <= k < |t.loads| ==> t.loads[k].epoch <= t.epoch
  {
    hide Current, Recorded;
    forall k | 0 <= k < |t.loads| ensures t.loads[k].epoch <= t.epoch {
      assert Proper(t.loads, t.epoch, k);
    }
  }

  // The cache never holds an environment from before the last invalidation.
  lemma CacheIsCurrent(es: seq<Event>)
    ensures var t := Run(UNLOADED, es); t.cache.Some? ==> t.cache.value.epoch == t.epoch
  {
    hide Run, Step, LoadsProper, Recorded;
    Reached(es);
  }

  // Within an epoch at most one load is under way, and whoever asks meanwhile joins it.
  lemma OneLoadAtATime(es: seq<Event>, a: nat, b: nat, unexpired: bool)
    requires var t := Run(UNLOADED, es);
             && a < |t.loads| && t.loads[a].epoch == t.epoch && Unsettled(t.loads[a])
             && b < |t.loads| && t.loads[b].epoch == t.epoch && Unsettled(t.loads[b])
    ensures a == b
    ensures var t := Run(UNLOADED, es);
            Asked(t, unexpired) == t && (Answered(t, unexpired).Await? ==> Answered(t, unexpired).on == a)
  {
    hide Run, Step, LoadsProper, Recorded;
    Reached(es);
  }

  // A load overtaken by an invalidation leaves the cache alone, and its own result goes to nobody: it
  // settles with an environment of the present epoch or waits for a load of the present epoch.
  lemma OvertakenLoadIsDropped(es: seq<Event>, op: nat, unexpired: bool, content: nat)
    requires var t := Run(UNLOADED, es); op < |t.loads| && t.loads[op].epoch != t.epoch
    ensures var t := Run(UNLOADED, es);
            && DoFetch(t, op, content).cache == t.cache
            && (t.loads[op].stage.Fetched? ==>
                  var s := DoResolve(t, op, unexpired);
                  match s.loads[op].stage
                  case Settled(load) => load.epoch == t.epoch
                  case Waiting(on) => on < |s.loads| && on != op && s.loads[on].epoch == t.epoch
                  case _ => false)
  {
    hide Run, Step;
    Reached(es);
    var t := Run(UNLOADED, es);
    assert Proper(t.loads, t.epoch, op);
    AskedSound(t, unexpired);
  }

  // Whatever is asked for now is answered with an environment no older than now.
  lemma AnswersAreNotOlder(es: seq<Event>, unexpired: bool, later: seq<Event>)
    ensures var t := Run(UNLOADED, es);
            match Answered(t, unexpired)
            case Ready(load) => load.epoch == t.epoch
            case Await(on) =>
              var s := Run(Asked(t, unexpired), later);
              on < |s.loads| && (s.loads[on].stage.Settled? ==> s.loads[on].stage.load.epoch >= t.epoch)
  {
    hide Run, Step, Current, Recorded;
    Reached(es);
    var t := Run(UNLOADED, es);
    AskedSound(t, unexpired);
    match Answered(t, unexpired)
    case Ready(_) =>
    case Await(on) =>
      RunSound(Asked(t, unexpired), later);
      RunKeepsEpochs(Asked(t, unexpired), later, on);
      assert Proper(Run(Asked(t, unexpired), later).loads, Run(Asked(t, unexpired), later).epoch, on);
  }

  lemma StepKeepsEpochs(t: Tenant, e: Event, op: nat)
    requires op < |t.loads|
    ensures op < |Step(t, e).loads| && Step(t, e).loads[op].epoch == t.loads[op].epoch
  {
    hide Accepts;
  }

  lemma {:induction false} RunKeepsEpochs(t: Tenant, es: seq<Event>, op: nat)
    requires op < |t.loads|
    ensures op < |Run(t, es).loads| && Run(t, es).loads[op].epoch == t.loads[op].epoch
    decreases es
  {
    if es != [] {
      hide Step;
      StepKeepsEpochs(t, es[0], op);
      RunKeepsEpochs(Step(t, es[0]), es[1..], op);
    }
  }

  // A retry waits only for a load of a later epoch, so no circle of loads waits for itself.
  lemma WaitingGoesForward(es: seq<Event>, op: nat)
    requires var t := Run(UNLOADED, es); op < |t.loads| && t.loads[op].stage.Waiting?
    ensures var t := Run(UNLOADED, es);
            t.loads[op].stage.on < |t.loads| && t.loads[op].epoch < t.loads[t.loads[op].stage.on].epoch
  {
    hide Run, Step, Current, Recorded;
    Reached(es);
    assert Proper(Run(UNLOADED, es).loads, Run(UNLOADED, es).epoch, op);
  }

  // The stored observation is that of the highest dispatch accepted; ordinals rise, epochs never fall.
  lemma ObservationIsLatest(es: seq<Event>)
    ensures var t := Run(UNLOADED, es);
            && (t.observed.Some? <==> t.accepted != [])
            && (forall i :: 0 <= i < |t.accepted| ==> t.accepted[i].ordinal <= t.observed.value.ordinal)
            && (forall i, j :: 0 <= i < j < |t.accepted| ==>
                  t.accepted[i].ordinal < t.accepted[j].ordinal && t.accepted[i].load.epoch <= t.accepted[j].load.epoch)
  {
    hide Run, Step, Current, LoadsProper;
    Reached(es);
  }

  // ---- reservations -----------------------------------------------------------------------------------------

  // What a reservation hands out.
  function Handed(t: Tenant): Reservation {
    Reservation(t.ordinal + 1, t.epoch)
  }

  // All that a run hands out, in order.
  function HandedOut(t: Tenant, es: seq<Event>): seq<Reservation>
    decreases es
  {
    if es == [] then []
    else (if es[0].Reserve? then [Handed(t)] else []) + HandedOut(Step(t, es[0]), es[1..])
  }

  lemma StepCounts(t: Tenant, e: Event)
    ensures Step(t, e).ordinal == t.ordinal + (if e.Reserve? then 1 else 0) && t.epoch <= Step(t, e).epoch
  {
    hide Accepts;
  }

  // Reservations are numbered without gaps from the next number on, and their epochs never fall.
  lemma {:induction false} OrdinalsRise(t: Tenant, es: seq<Event>)
    ensures var rs := HandedOut(t, es);
            && Run(t, es).ordinal == t.ordinal + |rs| && t.epoch <= Run(t, es).epoch
            && (forall i :: 0 <= i < |rs| ==> rs[i].ordinal == t.ordinal + 1 + i && t.epoch <= rs[i].epoch <= Run(t, es).epoch)
            && (forall i, j :: 0 <= i < j < |rs| ==> rs[i].epoch <= rs[j].epoch)
    decreases es
  {
    if es != [] {
      hide Step;
      StepCounts(t, es[0]);
      OrdinalsRise(Step(t, es[0]), es[1..]);
    }
  }

  // Only reservations that were handed out are recorded.
  predicate Honest(t: Tenant, es: seq<Event>)
    decreases es
  {
    es == [] || ((es[0].Record? ==> es[0].reservation.ordinal <= t.ordinal) && Honest(Step(t, es[0]), es[1..]))
  }

  predicate Behind(t: Tenant) {
    t.observed.Some? ==> t.observed.value.ordinal <= t.ordinal
  }

  lemma {:induction false} StaysBehind(t: Tenant, es: seq<Event>)
    requires Behind(t) && Honest(t, es)
    ensures Behind(Run(t, es))
    decreases es
  {
    if es != [] {
      StepBehind(t, es[0]);
      hide Step, Behind;
      StaysBehind(Step(t, es[0]), es[1..]);
    }
  }

  lemma StepBehind(t: Tenant, e: Event)
    requires Behind(t) && (e.Record? ==> e.reservation.ordinal <= t.ordinal)
    ensures Behind(Step(t, e))
  {
  }

  // The latest reservation is recorded, with an environment of its epoch, exactly if no invalidation has come
  // between; and it is recorded once.
  lemma LatestIsRecorded(es: seq<Event>, later: seq<Event>, load: Load)
    requires Honest(UNLOADED, es) && forall i :: 0 <= i < |later| ==> !later[i].Reserve? && !later[i].Record?
    requires load.epoch == Run(UNLOADED, es).epoch
    ensures var t := Run(UNLOADED, es);
            var r := Handed(t);
            var u := Run(Step(t, Reserve), later);
            var v := Step(u, Record(load, r));
            && (v.observed == Some(Observation(r.ordinal, load)) && |v.accepted| == |u.accepted| + 1 <==> u.epoch == t.epoch)
            && (u.epoch != t.epoch ==> v == u)
            && Step(v, Record(load, r)) == v
  {
    var t := Run(UNLOADED, es);
    assert Behind(UNLOADED);
    StaysBehind(UNLOADED, es);
    LaterKeeps(Step(t, Reserve), later);
    hide Run, Honest;
  }

  lemma {:induction false} LaterKeeps(t: Tenant, es: seq<Event>)
    requires forall i :: 0 <= i < |es| ==> !es[i].Reserve? && !es[i].Record?
    ensures Run(t, es).observed == t.observed && Run(t, es).accepted == t.accepted && Run(t, es).ordinal == t.ordinal
    ensures t.epoch <= Run(t, es).epoch
    decreases es
  {
    if es != [] {
      QuietObservation(t, es[0]);
      hide Step;
      LaterKeeps(Step(t, es[0]), es[1..]);
    }
  }

  lemma QuietObservation(t: Tenant, e: Event)
    requires !e.Reserve? && !e.Record?
    ensures var s := Step(t, e);
            s.observed == t.observed && s.accepted == t.accepted && s.ordinal == t.ordinal && t.epoch <= s.epoch
  {
  }

  // ---- what is loaded is served -----------------------------------------------------------------------------------

  // A load that is fetched before any invalidation settles with its own environment, which is what every request
  // gets from then on, until the next invalidation or expiry.
  lemma LoadIsServed(t: Tenant, op: nat, content: nat)
    requires op < |t.loads| && t.loads[op] == Loading(t.epoch, Fetching)
    ensures var load := Load(t.epoch, content);
            var f := Step(t, Fetch(op, content));
            var s := Step(f, Resolve(op, false));
            && Answered(f, true) == Ready(load) && Answered(s, true) == Ready(load)
            && s.loads[op].stage == Settled(load) && s.inflight != Some(op)
            && (forall k :: 0 <= k < |t.loads| && k != op ==> s.loads[k] == t.loads[k])
  {
  }

  // A request without a valid cache entry starts a load exactly if none is under way; a failed load is forgotten.
  lemma FailedLoadIsForgotten(t: Tenant, op: nat)
    requires op < |t.loads| && t.loads[op].stage == Fetching && t.inflight == Some(op)
    ensures var s := Step(t, FetchFails(op));
            && s.loads[op].stage == Failed && s.inflight == None && s.cache == t.cache
            && |Step(s, Request(false)).loads| == |s.loads| + 1
  {
  }

  // An overtaken load that waits for another settles as that one does, with its environment or its failure.
  lemma WaitingLoadFollows(t: Tenant, op: nat)
    requires op < |t.loads| && t.loads[op].stage.Waiting? && t.loads[op].stage.on < |t.loads|
    ensures var on := t.loads[t.loads[op].stage.on].stage;
            var s := Step(t, Propagate(op));
            if on.Settled? || on.Failed? then
              s.loads == t.loads[op := t.loads[op].(stage := on)] && s.inflight != Some(op) && s.cache == t.cache
            else s == t
  {
  }
}
