/**
 Commits and aborts that race: which decisions take away a fence they never looked at, or the fence of a
 candidate that has been published, exactly when that happens, and which order of calls rules it out.
 */
module ActivationRaces {
  import opened Lists
  import opened ActivationModel
  import opened ActivationProofs

  // What an operation must have found, read and been shown to take the fence at its key away.
  predicate Takes(r: Runtime, p: Pending)
    requires p.reading.Saw?
  {
    && p.fence.Some? && p.fence.value < |r.objects|
    && var f := r.objects[p.fence.value];
    && f.candidate.id == p.id
    && if p.commit then
         && IdOf(p.reading.authority) == Some(p.id)
         && (f.candidate.active ==> f.preheated == Some(Proof(r.foreground, r.background)))
       else IdOf(p.reading.authority) != Some(p.id) && IdOf(p.reading.authority) == f.candidate.previous
  }

  lemma TakesExactly(r: Runtime, p: Pending)
    requires p.reading.Saw?
    ensures Decided(r, p).lifts <==> Takes(r, p)
  {
    if p.commit {
      CommitLiftsExactly(r, p);
    } else {
      AbortLiftsExactly(r, p);
    }
  }

  // The operation is ready to decide.
  predicate Ready(r: Runtime, op: nat) {
    op in r.pending && r.pending[op].reading.Saw?
  }

  // The decision takes away a fence that the operation did not find when it began.
  predicate LiftsForeign(r: Runtime, op: nat) {
    && Ready(r, op)
    && var key := r.pending[op].key;
    && key in r.fences && key !in Step(r, Decide(op)).fences && r.pending[op].fence != Some(r.fences[key])
  }

  // By what it found, read and was shown: a decision takes away a fence it did not find.
  lemma StaleDecision(r: Runtime, op: nat)
    requires Ready(r, op)
    ensures var p := r.pending[op];
            LiftsForeign(r, op) <==> p.key in r.fences && p.fence != Some(r.fences[p.key]) && Takes(r, p)
  {
    hide Decided, Takes;
    TakesExactly(r, r.pending[op]);
  }

  // ---- operations during a run -----------------------------------------------------------------------------

  // The operation is neither decided nor begun in the run.
  ghost predicate Undecided(es: seq<Event>, op: nat) {
    forall i :: 0 <= i < |es| ==> !(es[i].Decide? && es[i].op == op)
  }

  ghost predicate SameOperation(p: Pending, q: Pending) {
    && q.key == p.key && q.id == p.id && q.fence == p.fence && q.commit == p.commit
    && (p.reading.Saw? ==> q.reading == p.reading)
  }

  lemma StepKeepsPending(r: Runtime, e: Event, op: nat)
    requires op in r.pending && !(e.Decide? && e.op == op)
    ensures op in Step(r, e).pending && SameOperation(r.pending[op], Step(r, e).pending[op])
  {
    hide Decided, Succeeds, InForce, MayPublish;
  }

  lemma {:induction false} PendingKept(r: Runtime, es: seq<Event>, op: nat)
    requires op in r.pending && Undecided(es, op)
    ensures op in Run(r, es).pending && SameOperation(r.pending[op], Run(r, es).pending[op])
    decreases es
  {
    if es != [] {
      hide Step;
      StepKeepsPending(r, es[0], op);
      PendingKept(Step(r, es[0]), es[1..], op);
    }
  }

  lemma StepKeepsObjects(r: Runtime, e: Event)
    ensures KeepsObjects(r, Step(r, e))
  {
    hide Decided, Succeeds, MayPublish;
  }

  lemma {:induction false} RunKeepsObjects(r: Runtime, es: seq<Event>)
    ensures KeepsObjects(r, Run(r, es))
    decreases es
  {
    if es != [] {
      hide Step;
      StepKeepsObjects(r, es[0]);
      RunKeepsObjects(Step(r, es[0]), es[1..]);
    }
  }

  // The run up to event `i`.
  lemma Prefix(r: Runtime, es: seq<Event>, i: nat, g: Id -> nat)
    requires i < |es| && Sound(r, g) && Admissible(es, g)
    ensures Sound(Run(r, es[..i]), g) && Immutable(es[i], g)
    ensures Run(r, es[..i + 1]) == Step(Run(r, es[..i]), es[i])
  {
    hide Sound, Step, Immutable;
    assert es[..i + 1] == es[..i] + [es[i]];
    RunOne(r, es[..i], es[i]);
    RunSound(r, es[..i], g);
  }

  lemma Whole(es: seq<Event>)
    ensures es[..|es|] == es && es[..0] == []
  {
  }

  // ---- a fence is replaced -----------------------------------------------------------------------------------

  // The fence ceases to be in force: another decision on its key, or its own failed invalidation.
  ghost predicate RemovedAt(r: Runtime, es: seq<Event>, i: nat, serial: nat)
    requires i < |es|
  {
    var s := Run(r, es[..i]);
    && InForce(s, serial) && !InForce(Step(s, es[i]), serial)
    && (es[i] == Settle(serial, false)
        || (es[i].Decide? && Ready(s, es[i].op) && s.pending[es[i].op].key == s.objects[serial].key))
  }

  // A new begin puts the fence in force.
  ghost predicate InstalledAt(r: Runtime, es: seq<Event>, i: nat, key: Key, serial: nat)
    requires i < |es|
  {
    var s := Run(r, es[..i]);
    && es[i].Begin? && es[i].op in s.begins && s.begins[es[i].op].key == key && key !in s.fences
    && key in Step(s, es[i]).fences && Step(s, es[i]).fences[key] == serial
  }

  lemma RemovalStep(r: Runtime, e: Event, serial: nat, g: Id -> nat)
    requires Sound(r, g) && InForce(r, serial) && !InForce(Step(r, e), serial)
    ensures e == Settle(serial, false) || (e.Decide? && Ready(r, e.op) && r.pending[e.op].key == r.objects[serial].key)
    ensures r.objects[serial].key !in Step(r, e).fences
  {
    hide Decided, Succeeds, MayPublish, Past, Numbered, Ordered, Captured, Seen, Opened;
  }

  lemma InstallStep(r: Runtime, e: Event, key: Key, serial: nat)
    requires !(key in r.fences && r.fences[key] == serial)
    requires key in Step(r, e).fences && Step(r, e).fences[key] == serial
    ensures e.Begin? && e.op in r.begins && r.begins[e.op].key == key && key !in r.fences && serial == |r.objects|
  {
    hide Decided, Succeeds, MayPublish;
  }

  lemma {:induction false} RemovalFound(r: Runtime, es: seq<Event>, n: nat, serial: nat, g: Id -> nat)
    requires n <= |es| && Sound(r, g) && Admissible(es, g)
    requires InForce(r, serial) && !InForce(Run(r, es[..n]), serial)
    ensures exists i :: 0 <= i < n && RemovedAt(r, es, i, serial)
    decreases n
  {
    hide Step, Sound, InForce;
    Whole(es);
    if n > 0 {
      Prefix(r, es, n - 1, g);
      if InForce(Run(r, es[..n - 1]), serial) {
        RemovalStep(Run(r, es[..n - 1]), es[n - 1], serial, g);
        assert RemovedAt(r, es, n - 1, serial);
      } else {
        RemovalFound(r, es, n - 1, serial, g);
      }
    }
  }

  ghost predicate Holds(r: Runtime, key: Key, serial: nat) {
    key in r.fences && r.fences[key] == serial
  }

  lemma {:induction false} InstallFound(r: Runtime, es: seq<Event>, m: nat, n: nat, key: Key, serial: nat, g: Id -> nat)
    requires m <= n <= |es| && Sound(r, g) && Admissible(es, g)
    requires !Holds(Run(r, es[..m]), key, serial) && Holds(Run(r, es[..n]), key, serial)
    ensures exists j :: m <= j < n && InstalledAt(r, es, j, key, serial)
    decreases n
  {
    hide Step, Sound;
    if m < n {
      Prefix(r, es, n - 1, g);
      if Holds(Run(r, es[..n - 1]), key, serial) {
        InstallFound(r, es, m, n - 1, key, serial, g);
      } else {
        InstallStep(Run(r, es[..n - 1]), es[n - 1], key, serial);
        assert InstalledAt(r, es, n - 1, key, serial);
      }
    }
  }

  // A decision takes away a fence that it did not find exactly when it takes one and, since it began, the
  // fence it found was removed by another decision on the key or by a failed invalidation, and a later
  // begin put the present one in its place.
  lemma ForeignLiftHistory(r: Runtime, g: Id -> nat, op: nat, key: Key, id: Id, commit: bool, es: seq<Event>)
    requires Reachable(r, g) && op !in r.pending && Admissible(es, g) && Undecided(es, op)
    requires Ready(Run(Step(r, Ask(op, key, id, commit)), es), op)
    ensures var s := Step(r, Ask(op, key, id, commit));
            var t := Run(s, es);
            LiftsForeign(t, op) <==>
              && Takes(t, t.pending[op]) && key in r.fences && key in t.fences
              && exists i, j ::
                   0 <= i < j < |es| && RemovedAt(s, es, i, r.fences[key]) && InstalledAt(s, es, j, key, t.fences[key])
  {
    var s := Step(r, Ask(op, key, id, commit));
    var t := Run(s, es);
    AskedState(r, g, op, key, id, commit);
    PendingKept(s, es, op);
    StaleDecision(t, op);
    assert t.pending[op].key == key && t.pending[op].fence == s.pending[op].fence;
    hide Run, Step, Sound, Takes, Decided, Reachable, Admissible;
    if key in r.fences && key in t.fences {
      var a, c := r.fences[key], t.fences[key];
      if a != c {
        Replaced(s, es, key, a, c, g);
      } else {
        ReplacedFor(s, es, key, a, g);
      }
    }
  }

  lemma AskedState(r: Runtime, g: Id -> nat, op: nat, key: Key, id: Id, commit: bool)
    requires Reachable(r, g) && op !in r.pending
    ensures var s := Step(r, Ask(op, key, id, commit));
            && Sound(s, g) && s.fences == r.fences && s.objects == r.objects && op in s.pending
            && s.pending[op] == Pending(key, id, if key in r.fences then Some(r.fences[key]) else None, commit, Unread)
  {
    ReachableSound(r, g);
    AskSound(r, op, key, id, commit, g);
    hide Sound;
  }

  // From one fence at a key to another there is a removal and, later, a begin.
  lemma Replaced(s: Runtime, es: seq<Event>, key: Key, a: nat, c: nat, g: Id -> nat)
    requires Sound(s, g) && Admissible(es, g) && Holds(s, key, a) && Holds(Run(s, es), key, c) && a != c
    ensures exists i, j :: 0 <= i < j < |es| && RemovedAt(s, es, i, a) && InstalledAt(s, es, j, key, c)
  {
    InForceHasKey(s, g);
    Whole(es);
    RunKeepsObjects(s, es);
    hide Step, Sound, Run;
    RemovalFound(s, es, |es|, a, g);
    var i: nat :| i < |es| && RemovedAt(s, es, i, a);
    RemovedLeavesNone(s, es, key, a, i, g);
    hide RemovedAt, InForce, KeepsObjects, InstalledAt;
    InstallFound(s, es, i + 1, |es|, key, c, g);
  }

  lemma RemovedLeavesNone(s: Runtime, es: seq<Event>, key: Key, a: nat, i: nat, g: Id -> nat)
    requires i < |es| && Sound(s, g) && Admissible(es, g) && RemovedAt(s, es, i, a)
    requires a < |s.objects| && s.objects[a].key == key
    ensures key !in Run(s, es[..i + 1]).fences
  {
    hide Step, Sound, Run;
    Prefix(s, es, i, g);
    RemovalStep(Run(s, es[..i]), es[i], a, g);
    RunKeepsObjects(s, es[..i]);
  }

  // A fence that has been removed does not come back.
  lemma ReplacedFor(s: Runtime, es: seq<Event>, key: Key, a: nat, g: Id -> nat)
    requires Sound(s, g) && Admissible(es, g) && Holds(s, key, a)
    ensures !exists j :: 0 <= j < |es| && InstalledAt(s, es, j, key, a)
  {
    InForceHasKey(s, g);
    hide Step, Sound, Run;
    forall j: nat | j < |es| && InstalledAt(s, es, j, key, a) ensures false {
      RunKeepsObjects(s, es[..j]);
      InstallStep(Run(s, es[..j]), es[j], key, a);
    }
  }

  // ---- one decision at a time ----------------------------------------------------------------------------------

  // Decisions on a key are asked one after the other, each after the begin of its fence has been answered.
  predicate OneAtATime(r: Runtime, e: Event) {
    e.Ask? ==>
      && (forall op <- r.pending :: r.pending[op].key != e.key)
      && (e.key in r.fences && r.fences[e.key] < |r.objects| ==> r.objects[r.fences[e.key]].settled)
  }

  predicate Orderly(r: Runtime, es: seq<Event>)
    decreases es
  {
    es == [] || (OneAtATime(r, es[0]) && Orderly(Step(r, es[0]), es[1..]))
  }

  // What every operation found is still in force and settled, and no two operations are on one key.
  ghost predicate Unhurried(r: Runtime) {
    && (forall op <- r.pending :: r.pending[op].fence.Some? ==>
          InForce(r, r.pending[op].fence.value) && r.objects[r.pending[op].fence.value].settled
          && r.objects[r.pending[op].fence.value].key == r.pending[op].key)
    && (forall a, b :: a in r.pending && b in r.pending && r.pending[a].key == r.pending[b].key ==> a == b)
  }

  lemma MarkUnhurried(r: Runtime, serial: nat, f: Fence)
    requires Unhurried(r) && serial < |r.objects| && f.key == r.objects[serial].key
    requires r.objects[serial].settled ==> f.settled
    ensures Unhurried(r.(objects := r.objects[serial := f]))
  {
  }

  lemma AskUnhurried(r: Runtime, e: Event, g: Id -> nat)
    requires Unhurried(r) && Sound(r, g) && e.Ask? && OneAtATime(r, e)
    ensures Unhurried(Step(r, e))
  {
    InForceHasKey(r, g);
    hide Sound;
  }

  lemma DecideUnhurried(r: Runtime, op: nat)
    requires Unhurried(r)
    ensures Unhurried(DoDecide(r, op))
  {
    hide Decided;
  }

  lemma SettleUnhurried(r: Runtime, serial: nat, ok: bool)
    requires Unhurried(r)
    ensures Unhurried(DoSettle(r, serial, ok))
  {
    if serial < |r.objects| && ok {
      MarkUnhurried(r, serial, r.objects[serial].(settled := true));
      hide Unhurried;
    }
  }

  lemma PlainUnhurried(r: Runtime, e: Event)
    requires Unhurried(r) && (e.ReadForBegin? || e.Begin? || e.Read? || e.Publish? || e.RotateForeground? || e.RotateBackground?)
    ensures Unhurried(Step(r, e))
  {
    hide Succeeds, MayPublish;
  }

  lemma PreheatUnhurried(r: Runtime, key: Key, serial: nat, proof: Proof)
    requires Unhurried(r)
    ensures Unhurried(DoPreheat(r, key, serial, proof))
  {
    if serial < |r.objects| {
      MarkUnhurried(r, serial, r.objects[serial].(preheated := Some(proof)));
    }
    hide Unhurried;
  }

  lemma StepUnhurried(r: Runtime, e: Event, g: Id -> nat)
    requires Unhurried(r) && Sound(r, g) && OneAtATime(r, e)
    ensures Unhurried(Step(r, e))
  {
    hide Unhurried, Sound, DoReadForBegin, DoBegin, DoSettle, DoPreheat, DoPublish, DoAsk, DoRead, DoDecide;
    match e
    case Ask(_, _, _, _) => AskUnhurried(r, e, g);
    case Decide(op) => DecideUnhurried(r, op);
    case Settle(serial, ok) => SettleUnhurried(r, serial, ok);
    case PreheatDone(key, serial, proof) => PreheatUnhurried(r, key, serial, proof);
    case _ => PlainUnhurried(r, e);
  }

  lemma {:induction false} RunUnhurried(r: Runtime, es: seq<Event>, g: Id -> nat)
    requires Unhurried(r) && Sound(r, g) && Admissible(es, g) && Orderly(r, es)
    ensures Unhurried(Run(r, es))
    decreases es
  {
    if es != [] {
      hide Step, Sound, Unhurried, Immutable;
      StepSound(r, es[0], g);
      StepUnhurried(r, es[0], g);
      assert Admissible(es[1..], g);
      RunUnhurried(Step(r, es[0]), es[1..], g);
    }
  }

  // With one decision at a time on each key, asked after begin has answered, no decision takes away a fence
  // that it did not find.
  lemma OrderlyDecisionsAreTheirOwn(start: Runtime, g: Id -> nat, es: seq<Event>, op: nat)
    requires Initial(start, g) && Admissible(es, g) && Orderly(start, es)
    ensures !LiftsForeign(Run(start, es), op)
  {
    hide Run, Step, Takes, Sound, Orderly;
    InitialSound(start, g);
    RunUnhurried(start, es, g);
    var t := Run(start, es);
    if LiftsForeign(t, op) {
      StaleDecision(t, op);
      TakenWasFound(t, t.pending[op]);
    }
  }

  lemma TakenWasFound(r: Runtime, p: Pending)
    requires p.reading.Saw? && Takes(r, p)
    ensures p.fence.Some?
  {
  }

  // ---- a published candidate ----------------------------------------------------------------------------------

  // The decision takes away the fence of a candidate that has been published.
  predicate LiftsPublished(r: Runtime, op: nat) {
    && Ready(r, op)
    && var key := r.pending[op].key;
    && key in r.fences && r.fences[key] < |r.objects|
    && CurrentId(r, key) == Some(r.objects[r.fences[key]].candidate.id)
    && key !in Step(r, Decide(op)).fences
  }

  // The candidate of that id is published somewhere in the run.
  ghost predicate PublishedIn(r: Runtime, es: seq<Event>, key: Key, id: Id) {
    exists i :: 0 <= i < |es| && PublishedAt(r, es, i, key, id)
  }

  ghost predicate PublishedAt(r: Runtime, es: seq<Event>, i: nat, key: Key, id: Id)
    requires i < |es|
  {
    && es[i] == Publish(key)
    && CurrentId(Run(r, es[..i]), key) != Some(id) && CurrentId(Step(Run(r, es[..i]), es[i]), key) == Some(id)
  }

  lemma PublishStep(r: Runtime, e: Event, key: Key)
    requires CurrentId(Step(r, e), key) != CurrentId(r, key)
    ensures e == Publish(key)
  {
    hide Decided, Succeeds, InForce;
  }

  lemma {:induction false} PublicationFound(r: Runtime, es: seq<Event>, n: nat, key: Key, id: Id, g: Id -> nat)
    requires n <= |es| && Sound(r, g) && Admissible(es, g)
    requires CurrentId(r, key) != Some(id) && CurrentId(Run(r, es[..n]), key) == Some(id)
    ensures PublishedIn(r, es, key, id)
    decreases n
  {
    hide Step, Sound, CurrentId;
    Whole(es);
    if n > 0 {
      Prefix(r, es, n - 1, g);
      if CurrentId(Run(r, es[..n - 1]), key) == Some(id) {
        PublicationFound(r, es, n - 1, key, id, g);
      } else {
        PublishStep(Run(r, es[..n - 1]), es[n - 1], key);
        assert PublishedAt(r, es, n - 1, key, id);
      }
    }
  }

  // An authority only grows, and is the same as long as its generation is.
  ghost predicate Later(r: Runtime, s: Runtime, key: Key) {
    && CurrentGeneration(r, key) <= CurrentGeneration(s, key)
    && (CurrentGeneration(r, key) == CurrentGeneration(s, key) ==> Current(r, key) == Current(s, key))
  }

  lemma StepLater(r: Runtime, e: Event, key: Key)
    ensures Later(r, Step(r, e), key)
  {
    if e.Publish? && MayPublish(r, e.key) {
      PublishGrows(r, e.key);
    }
    hide Decided, Opens, MayPublish;
  }

  lemma {:induction false} RunLater(r: Runtime, es: seq<Event>, key: Key)
    ensures Later(r, Run(r, es), key)
    decreases es
  {
    if es != [] {
      hide Step, CurrentGeneration, Current;
      StepLater(r, es[0], key);
      RunLater(Step(r, es[0]), es[1..], key);
    }
  }

  // A commit of the candidate whose fence is in force at its key.
  predicate OwnCommit(r: Runtime, op: nat) {
    && op in r.pending && r.pending[op].commit
    && var key := r.pending[op].key;
    && key in r.fences && r.fences[key] < |r.objects| && r.objects[r.fences[key]].candidate.id == r.pending[op].id
  }

  // In terms of what was found and read.
  lemma LiftsPublishedWhen(r: Runtime, op: nat)
    requires Ready(r, op)
    ensures var p := r.pending[op];
            LiftsPublished(r, op) <==>
              && p.key in r.fences && r.fences[p.key] < |r.objects|
              && CurrentId(r, p.key) == Some(r.objects[r.fences[p.key]].candidate.id) && Takes(r, p)
  {
    hide Decided, Takes;
    TakesExactly(r, r.pending[op]);
  }

  // The abort's own candidate was to succeed the one whose fence is in force.
  predicate Revived(r: Runtime, op: nat) {
    && op in r.pending && !r.pending[op].commit && r.pending[op].fence.Some? && r.pending[op].fence.value < |r.objects|
    && var key := r.pending[op].key;
    && key in r.fences && r.fences[key] < |r.objects|
    && r.objects[r.pending[op].fence.value].candidate.previous == Some(r.objects[r.fences[key]].candidate.id)
  }

  // Whoever takes a published fence without being its own commit has read another authority.
  lemma TakenOnOldNews(r: Runtime, op: nat)
    requires LiftsPublished(r, op) && !OwnCommit(r, op)
    ensures IdOf(r.pending[op].reading.authority) != CurrentId(r, r.pending[op].key) || Revived(r, op)
  {
    LiftsPublishedWhen(r, op);
    hide Decided;
  }

  // The fence in force is of the latest generation of its key, so what was found before is not its successor.
  lemma NotRevived(r: Runtime, op: nat, g: Id -> nat)
    requires Sound(r, g) && InTurn(r)
    ensures !Revived(r, op)
  {
    hide Past, Numbered, Seen, Opened, Succeeds;
  }

  lemma PublishedNumber(r: Runtime, key: Key, g: Id -> nat)
    requires Sound(r, g)
    ensures Current(r, key).Some? ==> CurrentGeneration(r, key) == g(r.published[key].id) > 0
  {
    hide Ordered, Seen, Opened, Past, Exclusive, Captured;
  }

  // Whatever begins came late: a decision that is not the candidate's own commit takes away the fence of a
  // published candidate only if that was published between its reading and its deciding, or came back into
  // force after its own successor's.
  lemma RaceOrLateBegin(r: Runtime, g: Id -> nat, op: nat, es: seq<Event>)
    requires Reachable(r, g) && op in r.pending && r.pending[op].reading.Unread?
    requires Admissible(es, g) && Undecided(es, op)
    ensures var s := Step(r, Read(op));
            var t := Run(s, es);
            LiftsPublished(t, op) && !OwnCommit(t, op) ==>
              PublishedIn(s, es, t.pending[op].key, t.objects[t.fences[t.pending[op].key]].candidate.id) || Revived(t, op)
  {
    var s := Step(r, Read(op));
    var t := Run(s, es);
    ReadState(r, g, op);
    PendingKept(s, es, op);
    hide Run, Step, Sound, Reachable, Admissible, PublishedIn, Revived, LiftsPublished;
    if LiftsPublished(t, op) && !OwnCommit(t, op) {
      TakenOnOldNews(t, op);
      LiftedIsPublished(t, op);
      Whole(es);
      if !Revived(t, op) {
        PublicationFound(s, es, |es|, t.pending[op].key, t.objects[t.fences[t.pending[op].key]].candidate.id, g);
      }
    }
  }

  lemma LiftedIsPublished(r: Runtime, op: nat)
    requires LiftsPublished(r, op)
    ensures r.pending[op].key in r.fences && r.fences[r.pending[op].key] < |r.objects|
    ensures CurrentId(r, r.pending[op].key) == Some(r.objects[r.fences[r.pending[op].key]].candidate.id)
  {
    hide Step;
  }

  // While no begin comes late: such a decision takes away the fence of a published candidate exactly when it
  // takes one and that candidate was published between its reading and its deciding.
  lemma RaceExactly(r: Runtime, g: Id -> nat, op: nat, es: seq<Event>)
    requires ReachedOnTime(r, g) && op in r.pending && r.pending[op].reading.Unread?
    requires Admissible(es, g) && Punctual(Step(r, Read(op)), es) && Undecided(es, op)
    ensures var s := Step(r, Read(op));
            var t := Run(s, es);
            && Ready(t, op) && t.pending[op].key == r.pending[op].key
            && (t.pending[op].key in t.fences ==> t.fences[t.pending[op].key] < |t.objects|)
            && (LiftsPublished(t, op) && !OwnCommit(t, op) <==>
                 && Takes(t, t.pending[op]) && t.pending[op].key in t.fences
                 && PublishedIn(s, es, t.pending[op].key, t.objects[t.fences[t.pending[op].key]].candidate.id))
  {
    var s := Step(r, Read(op));
    var t := Run(s, es);
    var key := r.pending[op].key;
    OnTimeSound(r, g);
    ReadState(r, g, op);
    ReadInTurn(r, op, g);
    PendingKept(s, es, op);
    RunSound(s, es, g);
    RunInTurn(s, es, g);
    InForceHasKey(t, g);
    RaceOrLateBegin(r, g, op, es);
    NotRevived(t, op, g);
    hide Run, Step, Sound, InTurn, Takes, Reachable, Admissible, PublishedIn, Revived;
    LiftsPublishedWhen(t, op);
    if key in t.fences && PublishedIn(s, es, key, t.objects[t.fences[key]].candidate.id) {
      PublishedStays(s, es, key, t.objects[t.fences[key]].candidate.id, g);
    }
  }

  lemma ReadInTurn(r: Runtime, op: nat, g: Id -> nat)
    requires Sound(r, g) && InTurn(r)
    ensures InTurn(Step(r, Read(op)))
  {
    hide Sound, InTurn;
    StepInTurn(r, Read(op), g);
  }

  lemma ReadState(r: Runtime, g: Id -> nat, op: nat)
    requires Reachable(r, g) && op in r.pending && r.pending[op].reading.Unread?
    ensures var s := Step(r, Read(op));
            && Sound(s, g) && op in s.pending && s.published == r.published
            && s.pending[op] == r.pending[op].(reading := Saw(Current(r, r.pending[op].key)))
            && s.pending[op].reading == Saw(Current(s, r.pending[op].key))
  {
    ReachableSound(r, g);
    ReadSound(r, op, g);
    hide Sound;
  }

  // A candidate that is published in the run and whose fence is in force at its end is still published, and
  // was not at its start.
  lemma PublishedStays(s: Runtime, es: seq<Event>, key: Key, id: Id, g: Id -> nat)
    requires Sound(s, g) && Admissible(es, g) && PublishedIn(s, es, key, id) && InTurn(Run(s, es))
    requires var t := Run(s, es); key in t.fences && t.fences[key] < |t.objects| && t.objects[t.fences[key]].candidate.id == id
    ensures CurrentId(s, key) != Some(id) && CurrentId(Run(s, es), key) == Some(id)
  {
    hide Step, Sound, InTurn, Admissible;
    var i: nat :| i < |es| && PublishedAt(s, es, i, key, id);
    var t := Run(s, es);
    var u := Run(s, es[..i]);
    var v := Run(s, es[..i + 1]);
    Prefix(s, es, i, g);
    Parts(es, i, g);
    RunSplit(s, es[..i + 1], es[i + 1..]);
    hide Run, Step, Sound, InTurn, Admissible, CurrentId, Current, PublishedIn;
    StepSound(u, es[i], g);
    RunLater(s, es[..i], key);
    StepLater(u, es[i], key);
    RunLater(v, es[i + 1..], key);
    RunSound(s, es, g);
    StaysPublished(s, u, v, t, key, id, g);
  }

  lemma Parts(es: seq<Event>, i: nat, g: Id -> nat)
    requires i < |es| && Admissible(es, g)
    ensures es == es[..i + 1] + es[i + 1..] && Admissible(es[..i], g) && Admissible(es[i + 1..], g)
  {
  }

  lemma StaysPublished(s: Runtime, u: Runtime, v: Runtime, t: Runtime, key: Key, id: Id, g: Id -> nat)
    requires Sound(s, g) && Sound(v, g) && Sound(t, g) && InTurn(t) && Later(s, u, key) && Later(u, v, key) && Later(v, t, key)
    requires CurrentId(u, key) != Some(id) && CurrentId(v, key) == Some(id)
    requires key in t.fences && t.fences[key] < |t.objects| && t.objects[t.fences[key]].candidate.id == id
    ensures CurrentId(s, key) != Some(id) && CurrentId(t, key) == Some(id)
  {
    PublishedNumber(s, key, g);
    PublishedNumber(v, key, g);
    GuardedNumber(t, key, g);
    hide Sound;
  }

  lemma GuardedNumber(t: Runtime, key: Key, g: Id -> nat)
    requires Sound(t, g) && InTurn(t) && key in t.fences
    ensures t.fences[key] < |t.objects|
    ensures var c := t.objects[t.fences[key]].candidate;
            c.generation == g(c.id) && (Current(t, key) == Some(c) || CurrentGeneration(t, key) + 1 == c.generation)
  {
    hide Past, Captured, Seen, Opened, Numbered;
  }

  // ---- publications that no decision can meet half-way ---------------------------------------------------------

  // Nothing is published at a key while a begin, commit or abort of that key has read the manifest and not
  // yet answered. The management side keeps this by waiting for each answer before it publishes.
  predicate PublishesAlone(r: Runtime, e: Event) {
    e.Publish? ==>
      && (forall op <- r.pending :: r.pending[op].key == e.key ==> r.pending[op].reading.Unread?)
      && forall op <- r.begins :: r.begins[op].key != e.key
  }

  predicate Patient(r: Runtime, es: seq<Event>)
    decreases es
  {
    es == [] || (PublishesAlone(r, es[0]) && Patient(Step(r, es[0]), es[1..]))
  }

  // Whatever has been read is still what is published.
  ghost predicate UpToDate(r: Runtime) {
    Informed(r) && OpeningsCurrent(r)
  }

  ghost predicate Informed(r: Runtime) {
    forall op <- r.pending :: r.pending[op].reading.Saw? ==> r.pending[op].reading.authority == Current(r, r.pending[op].key)
  }

  ghost predicate OpeningsCurrent(r: Runtime) {
    forall op <- r.begins :: r.begins[op].current == Current(r, r.begins[op].key)
  }

  lemma StepInformed(r: Runtime, e: Event)
    requires Informed(r) && PublishesAlone(r, e)
    ensures Informed(Step(r, e))
  {
    hide Decided, Opens, InForce, Succeeds;
  }

  lemma StepOpenings(r: Runtime, e: Event)
    requires OpeningsCurrent(r) && PublishesAlone(r, e)
    ensures OpeningsCurrent(Step(r, e)) && OnTime(r, e)
  {
    hide Decided, Succeeds, InForce;
  }

  lemma StepUpToDate(r: Runtime, e: Event)
    requires UpToDate(r) && PublishesAlone(r, e)
    ensures UpToDate(Step(r, e)) && OnTime(r, e)
  {
    hide Step, OnTime, PublishesAlone, Informed, OpeningsCurrent;
    StepInformed(r, e);
    StepOpenings(r, e);
  }

  lemma {:induction false} RunUpToDate(r: Runtime, es: seq<Event>)
    requires UpToDate(r) && Patient(r, es)
    ensures UpToDate(Run(r, es)) && Punctual(r, es)
    decreases es
  {
    if es != [] {
      hide Step, UpToDate, OnTime;
      StepUpToDate(r, es[0]);
      RunUpToDate(Step(r, es[0]), es[1..]);
    }
  }

  // Then the fence of a published candidate is taken away only by a commit of that very candidate.
  lemma PublishedFenceNeedsItsCommit(start: Runtime, g: Id -> nat, es: seq<Event>, op: nat)
    requires Initial(start, g) && Admissible(es, g) && Patient(start, es)
    ensures LiftsPublished(Run(start, es), op) ==> OwnCommit(Run(start, es), op)
  {
    hide Run, Step, Sound, InTurn, Takes, Patient, Admissible, Revived;
    RunUpToDate(start, es);
    var t := Run(start, es);
    assert ReachedOnTime(t, g);
    OnTimeSound(t, g);
    if LiftsPublished(t, op) && !OwnCommit(t, op) {
      TakenOnOldNews(t, op);
      NotRevived(t, op, g);
    }
  }

  // In particular no abort takes it away.
  lemma AbortedIsUnpublished(start: Runtime, g: Id -> nat, es: seq<Event>, op: nat)
    requires Initial(start, g) && Admissible(es, g) && Patient(start, es)
    requires Ready(Run(start, es), op) && !Run(start, es).pending[op].commit
    ensures !LiftsPublished(Run(start, es), op)
  {
    hide Run, Step, Takes, Patient, LiftsPublished;
    PublishedFenceNeedsItsCommit(start, g, es, op);
  }

  // ---- the management side's order of calls ---------------------------------------------------------------------

  // No candidate is published while an abort of it is unanswered.
  predicate Considerate(r: Runtime, e: Event) {
    e.Publish? && e.key in r.fences && r.fences[e.key] < |r.objects| ==>
      forall op <- r.pending :: r.pending[op].key == e.key && !r.pending[op].commit ==>
        r.pending[op].id != r.objects[r.fences[e.key]].candidate.id
  }

  predicate Managed(r: Runtime, es: seq<Event>)
    decreases es
  {
    es == [] || (OneAtATime(r, es[0]) && Considerate(r, es[0]) && Managed(Step(r, es[0]), es[1..]))
  }

  // An abort that has read the manifest will not find its candidate published later.
  ghost predicate AbortsInform(r: Runtime) {
    forall op <- r.pending ::
      !r.pending[op].commit && r.pending[op].reading.Saw? && CurrentId(r, r.pending[op].key) == Some(r.pending[op].id)
      ==> IdOf(r.pending[op].reading.authority) == Some(r.pending[op].id)
  }

  lemma StepInforms(r: Runtime, e: Event)
    requires AbortsInform(r) && Considerate(r, e)
    ensures AbortsInform(Step(r, e))
  {
    hide Decided, Succeeds, InForce;
  }

  lemma {:induction false} RunInforms(r: Runtime, es: seq<Event>)
    requires AbortsInform(r) && Managed(r, es)
    ensures AbortsInform(Run(r, es)) && Orderly(r, es)
    decreases es
  {
    if es != [] {
      hide Step, AbortsInform, OneAtATime, Considerate;
      StepInforms(r, es[0]);
      RunInforms(Step(r, es[0]), es[1..]);
    }
  }

  // An abort does not take away the published fence of its own candidate.
  lemma InformedAbort(r: Runtime, op: nat)
    requires AbortsInform(r) && LiftsPublished(r, op) && !r.pending[op].commit
    ensures r.objects[r.fences[r.pending[op].key]].candidate.id != r.pending[op].id
  {
    LiftsPublishedWhen(r, op);
    hide Decided;
  }

  // What is found and taken is the operation's own candidate.
  lemma OwnFenceTaken(r: Runtime, op: nat)
    requires LiftsPublished(r, op) && !LiftsForeign(r, op)
    ensures r.objects[r.fences[r.pending[op].key]].candidate.id == r.pending[op].id
  {
    LiftsPublishedWhen(r, op);
    StaleDecision(r, op);
    hide Decided;
  }

  // With one decision at a time on a key and no publication of a candidate whose abort is unanswered, the
  // fence of a published candidate is taken away only by a commit of that candidate, whatever has been read.
  lemma ManagedFencesHold(start: Runtime, g: Id -> nat, es: seq<Event>, op: nat)
    requires Initial(start, g) && Admissible(es, g) && Managed(start, es)
    ensures LiftsPublished(Run(start, es), op) ==> OwnCommit(Run(start, es), op)
    ensures !LiftsForeign(Run(start, es), op)
  {
    hide Run, Step, Takes, Managed, Admissible, LiftsForeign;
    RunInforms(start, es);
    OrderlyDecisionsAreTheirOwn(start, g, es, op);
    var t := Run(start, es);
    if LiftsPublished(t, op) {
      OwnFenceTaken(t, op);
      if !t.pending[op].commit {
        InformedAbort(t, op);
      }
    }
  }

  // ---- begins that come late ---------------------------------------------------------------------------------------

  ghost predicate Unopened(es: seq<Event>, op: nat) {
    forall i :: 0 <= i < |es| ==> !(es[i].Begin? && es[i].op == op)
  }

  lemma StepKeepsOpening(r: Runtime, e: Event, op: nat)
    requires op in r.begins && !(e.Begin? && e.op == op)
    ensures op in Step(r, e).begins && Step(r, e).begins[op] == r.begins[op]
  {
    hide Decided, Opens, InForce, MayPublish;
  }

  lemma {:induction false} OpeningKept(r: Runtime, es: seq<Event>, op: nat)
    requires op in r.begins && Unopened(es, op)
    ensures op in Run(r, es).begins && Run(r, es).begins[op] == r.begins[op]
    decreases es
  {
    if es != [] {
      hide Step;
      StepKeepsOpening(r, es[0], op);
      OpeningKept(Step(r, es[0]), es[1..], op);
    }
  }

  // Something is published at the key in the run.
  ghost predicate Published(r: Runtime, es: seq<Event>, key: Key) {
    exists i :: 0 <= i < |es| && es[i] == Publish(key) && MayPublish(Run(r, es[..i]), key)
  }

  // A begin puts a fence in force that is not of the immediate successor of what is published exactly when
  // something was published at its key after it read the manifest.
  lemma LateBeginExactly(r: Runtime, g: Id -> nat, op: nat, key: Key, candidate: Authority, es: seq<Event>)
    requires Reachable(r, g) && op !in r.begins && candidate.generation == g(candidate.id)
    requires Admissible(es, g) && Unopened(es, op) && Opens(Run(Step(r, ReadForBegin(op, key, candidate)), es), op)
    ensures var s := Step(r, ReadForBegin(op, key, candidate));
            var t := Run(s, es);
            && Step(t, Begin(op)).fences == map[key := |t.objects|]
            && (!Succeeds(candidate, CurrentId(t, key), CurrentGeneration(t, key)) <==> Published(s, es, key))
  {
    var s := Step(r, ReadForBegin(op, key, candidate));
    var t := Run(s, es);
    OpeningRead(r, g, op, key, candidate);
    OpeningKept(s, es, op);
    RunSound(s, es, g);
    RunLater(s, es, key);
    if Published(s, es, key) {
      PublishedIsLater(s, es, key, g);
    } else {
      UnchangedUnless(s, es, key, g);
      PublishedNumber(s, key, g);
      PublishedNumber(t, key, g);
    }
  }

  lemma OpeningRead(r: Runtime, g: Id -> nat, op: nat, key: Key, candidate: Authority)
    requires Reachable(r, g) && op !in r.begins && candidate.generation == g(candidate.id)
    ensures var s := Step(r, ReadForBegin(op, key, candidate));
            Sound(s, g) && op in s.begins && s.begins[op] == Opening(key, candidate, Current(s, key))
  {
    ReachableSound(r, g);
    OpenSound(r, op, key, candidate, g);
    hide Sound;
  }

  lemma UnchangedUnless(s: Runtime, es: seq<Event>, key: Key, g: Id -> nat)
    requires Sound(s, g) && Admissible(es, g)
    ensures CurrentId(Run(s, es), key) == CurrentId(s, key) || Published(s, es, key)
  {
    var t := Run(s, es);
    RunLater(s, es, key);
    if CurrentId(t, key) != CurrentId(s, key) && CurrentId(t, key).Some? {
      hide Run, Step, Sound, CurrentGeneration;
      Whole(es);
      PublicationFound(s, es, |es|, key, CurrentId(t, key).value, g);
      var i: nat :| i < |es| && PublishedAt(s, es, i, key, CurrentId(t, key).value);
      PublishedMay(Run(s, es[..i]), key);
    } else if CurrentId(t, key) != CurrentId(s, key) {
      hide Run;
      PublishedNumber(s, key, g);
    }
  }

  lemma PublishedMay(r: Runtime, key: Key)
    requires CurrentId(Step(r, Publish(key)), key) != CurrentId(r, key)
    ensures MayPublish(r, key)
  {
  }

  lemma PublishedIsLater(s: Runtime, es: seq<Event>, key: Key, g: Id -> nat)
    requires Sound(s, g) && Admissible(es, g) && Published(s, es, key)
    ensures CurrentGeneration(s, key) < CurrentGeneration(Run(s, es), key)
  {
    hide Step, Sound;
    var i: nat :| i < |es| && es[i] == Publish(key) && MayPublish(Run(s, es[..i]), key);
    Prefix(s, es, i, g);
    Parts(es, i, g);
    RunSplit(s, es[..i + 1], es[i + 1..]);
    RunLater(s, es[..i], key);
    PublishGrows(Run(s, es[..i]), key);
    RunLater(Run(s, es[..i + 1]), es[i + 1..], key);
    hide Run, MayPublish;
    assert Step(Run(s, es[..i]), es[i]) == DoPublish(Run(s, es[..i]), key) by { StepPublishes(Run(s, es[..i]), key); }
  }

  lemma StepPublishes(r: Runtime, key: Key)
    ensures Step(r, Publish(key)) == DoPublish(r, key)
  {
  }
}
