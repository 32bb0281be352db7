/** What every run of begins, preheats, publications, commits and aborts keeps. */
module ActivationProofs {
  import opened Lists
  import opened ActivationModel

  // At most one fence is in force, and it is the newest object.
  ghost predicate Exclusive(r: Runtime) {
    forall key <- r.fences :: r.fences[key] == |r.objects| - 1 && |r.objects| > 0 && r.objects[|r.objects| - 1].key == key
  }

  ghost predicate Numbered(r: Runtime, generationOf: Id -> nat) {
    forall key <- r.published :: r.published[key].generation == generationOf(r.published[key].id) > 0
  }

  function Before(candidate: Authority, generationOf: Id -> nat): nat {
    if candidate.previous.Some? then generationOf(candidate.previous.value) else 0
  }

  // Each fence was made as the successor of what was then published.
  ghost predicate Made(f: Fence, generationOf: Id -> nat) {
    && f.candidate.generation == generationOf(f.candidate.id) && f.candidate.generation == Before(f.candidate, generationOf) + 1
  }

  // No fence is ahead of its turn.
  ghost predicate Ordered(r: Runtime, generationOf: Id -> nat) {
    forall i :: 0 <= i < |r.objects| ==>
      Made(r.objects[i], generationOf) && r.objects[i].candidate.generation <= CurrentGeneration(r, r.objects[i].key) + 1
  }

  ghost predicate Captured(r: Runtime) {
    forall op <- r.pending :: r.pending[op].fence.Some? ==>
      r.pending[op].fence.value < |r.objects| && r.objects[r.pending[op].fence.value].key == r.pending[op].key
  }

  // What has been read is a published authority: the present one or an older generation.
  ghost predicate WasRead(r: Runtime, key: Key, a: Option<Authority>, generationOf: Id -> nat) {
    && (a.Some? ==> a.value.generation == generationOf(a.value.id) > 0)
    && GenerationOf(a) <= CurrentGeneration(r, key)
    && (GenerationOf(a) == CurrentGeneration(r, key) ==> a == Current(r, key))
  }

  ghost predicate Seen(r: Runtime, generationOf: Id -> nat) {
    forall op <- r.pending :: r.pending[op].reading.Saw? ==>
      WasRead(r, r.pending[op].key, r.pending[op].reading.authority, generationOf)
  }

  ghost predicate Opened(r: Runtime, generationOf: Id -> nat) {
    forall op <- r.begins ::
      && r.begins[op].candidate.generation == generationOf(r.begins[op].candidate.id)
      && WasRead(r, r.begins[op].key, r.begins[op].current, generationOf)
  }

  // No proof is of a generation still to come.
  ghost predicate Past(r: Runtime) {
    forall i :: 0 <= i < |r.objects| && r.objects[i].preheated.Some? ==>
      var p := r.objects[i].preheated.value; p.foreground <= r.foreground && p.background <= r.background
  }

  ghost predicate Sound(r: Runtime, generationOf: Id -> nat) {
    Past(r) && Exclusive(r) && Numbered(r, generationOf) && Ordered(r, generationOf) && Captured(r)
    && Seen(r, generationOf) && Opened(r, generationOf)
  }

  // What is kept of the fences and authorities when only the operations under way change.
  ghost predicate Settled(r: Runtime, generationOf: Id -> nat) {
    Past(r) && Exclusive(r) && Numbered(r, generationOf) && Ordered(r, generationOf)
  }

  lemma UnderWay(r: Runtime, s: Runtime, g: Id -> nat)
    requires Settled(r, g) && s == r.(begins := s.begins, pending := s.pending)
    ensures Settled(s, g)
  {
  }

  // What has been read is judged by what is published, and by nothing else.
  lemma SameReads(r: Runtime, s: Runtime, g: Id -> nat)
    requires s.published == r.published
    ensures forall key, a :: WasRead(r, key, a, g) <==> WasRead(s, key, a, g)
    ensures s.begins == r.begins && Opened(r, g) ==> Opened(s, g)
    ensures s.pending == r.pending && Seen(r, g) ==> Seen(s, g)
  {
  }

  lemma CurrentWasRead(r: Runtime, key: Key, g: Id -> nat)
    requires Numbered(r, g)
    ensures WasRead(r, key, Current(r, key), g)
  {
  }

  lemma OpenSound(r: Runtime, op: nat, key: Key, candidate: Authority, g: Id -> nat)
    requires Sound(r, g) && candidate.generation == g(candidate.id)
    ensures Sound(DoReadForBegin(r, op, key, candidate), g)
  {
    var s := DoReadForBegin(r, op, key, candidate);
    hide Past, Exclusive, Numbered, Ordered, WasRead;
    CurrentWasRead(r, key, g);
    UnderWay(r, s, g);
    SameReads(r, s, g);
  }

  lemma CloseSound(r: Runtime, op: nat, g: Id -> nat)
    requires Sound(r, g)
    ensures Sound(r.(begins := r.begins - {op}), g)
  {
    hide Past, Exclusive, Numbered, Ordered, WasRead;
    UnderWay(r, r.(begins := r.begins - {op}), g);
    SameReads(r, r.(begins := r.begins - {op}), g);
  }

  lemma BeginSound(r: Runtime, op: nat, g: Id -> nat)
    requires Sound(r, g)
    ensures Sound(DoBegin(r, op), g)
  {
    CloseSound(r, op, g);
    if Opens(r, op) {
      OpenedSuccessor(r, op, g);
      hide Opens, Sound, Made;
      InstallSound(r.(begins := r.begins - {op}), r.begins[op].key, r.begins[op].candidate, g);
    }
  }

  // A fence is made for the successor of an authority that was read.
  lemma OpenedSuccessor(r: Runtime, op: nat, g: Id -> nat)
    requires Sound(r, g) && Opens(r, op)
    ensures Made(Fence(r.begins[op].key, r.begins[op].candidate, None, false), g)
    ensures r.begins[op].candidate.generation <= CurrentGeneration(r, r.begins[op].key) + 1
  {
    hide Past, Exclusive, Numbered, Ordered, Captured, Seen;
  }

  function Install(r: Runtime, key: Key, candidate: Authority): Runtime {
    r.(objects := r.objects + [Fence(key, candidate, None, false)], fences := r.fences[key := |r.objects|])
  }

  lemma InstallSound(r: Runtime, key: Key, candidate: Authority, g: Id -> nat)
    requires Sound(r, g) && r.fences == map[] && candidate.generation <= CurrentGeneration(r, key) + 1
    requires Made(Fence(key, candidate, None, false), g)
    ensures Sound(Install(r, key, candidate), g)
  {
    SameReads(r, Install(r, key, candidate), g);
    hide Made, WasRead, Seen, Opened;
  }

  // Marking a fence settled or preheated changes nothing else.
  lemma MarkSound(r: Runtime, serial: nat, f: Fence, g: Id -> nat)
    requires Sound(r, g) && serial < |r.objects|
    requires f.key == r.objects[serial].key && f.candidate == r.objects[serial].candidate
    requires f.preheated == r.objects[serial].preheated || f.preheated == Some(Proof(r.foreground, r.background))
    ensures Sound(r.(objects := r.objects[serial := f]), g)
  {
    SameReads(r, r.(objects := r.objects[serial := f]), g);
    hide Made, WasRead, Seen, Opened;
    assert Made(f, g) by { MarkMade(r.objects[serial], f, g); }
  }

  lemma MarkMade(e: Fence, f: Fence, g: Id -> nat)
    requires Made(e, g) && f.candidate == e.candidate
    ensures Made(f, g)
  {
  }

  lemma LiftSound(r: Runtime, key: Key, g: Id -> nat)
    requires Sound(r, g)
    ensures Sound(r.(fences := r.fences - {key}), g)
  {
    SameReads(r, r.(fences := r.fences - {key}), g);
    hide Made, WasRead, Seen, Opened;
  }

  lemma SettleSound(r: Runtime, serial: nat, ok: bool, g: Id -> nat)
    requires Sound(r, g)
    ensures Sound(DoSettle(r, serial, ok), g)
  {
    hide Sound;
    if serial < |r.objects| {
      MarkSound(r, serial, r.objects[serial].(settled := true), g);
      LiftSound(r, r.objects[serial].key, g);
    }
  }

  lemma PreheatSound(r: Runtime, key: Key, serial: nat, proof: Proof, g: Id -> nat)
    requires Sound(r, g)
    ensures Sound(DoPreheat(r, key, serial, proof), g)
  {
    hide Sound;
    if serial < |r.objects| && proof == Proof(r.foreground, r.background) {
      MarkSound(r, serial, r.objects[serial].(preheated := Some(proof)), g);
    }
  }

  lemma PublishSound(r: Runtime, key: Key, g: Id -> nat)
    requires Sound(r, g)
    ensures Sound(DoPublish(r, key), g)
  {
    if MayPublish(r, key) {
      PublishGrows(r, key);
      PublishOrdered(r, key, g);
      PublishReads(r, key, g);
      PublishNumbered(r, key, g);
      hide Ordered, Numbered, Seen, Opened, MayPublish;
    }
  }

  // What is published is a generation later than what was.
  lemma PublishGrows(r: Runtime, key: Key)
    requires MayPublish(r, key)
    ensures forall k: Key :: CurrentGeneration(r, k) <= CurrentGeneration(DoPublish(r, key), k)
    ensures forall k: Key :: k != key ==> Current(DoPublish(r, key), k) == Current(r, k)
    ensures CurrentGeneration(DoPublish(r, key), key) == CurrentGeneration(r, key) + 1
  {
  }

  lemma PublishNumbered(r: Runtime, key: Key, g: Id -> nat)
    requires Numbered(r, g) && Ordered(r, g) && MayPublish(r, key)
    ensures Numbered(DoPublish(r, key), g)
  {
    hide Succeeds;
  }

  lemma PublishOrdered(r: Runtime, key: Key, g: Id -> nat)
    requires Ordered(r, g) && MayPublish(r, key)
    ensures Ordered(DoPublish(r, key), g)
  {
    PublishGrows(r, key);
    hide Made, Succeeds, CurrentGeneration;
  }

  lemma PublishReads(r: Runtime, key: Key, g: Id -> nat)
    requires MayPublish(r, key)
    ensures Seen(r, g) ==> Seen(DoPublish(r, key), g)
    ensures Opened(r, g) ==> Opened(DoPublish(r, key), g)
  {
    PublishGrows(r, key);
    hide MayPublish, Current, CurrentGeneration;
    assert DoPublish(r, key).pending == r.pending && DoPublish(r, key).begins == r.begins;
    hide DoPublish;
  }

  lemma AskSound(r: Runtime, op: nat, key: Key, id: Id, commit: bool, g: Id -> nat)
    requires Sound(r, g)
    ensures Sound(DoAsk(r, op, key, id, commit), g)
  {
    var s := DoAsk(r, op, key, id, commit);
    hide Past, Exclusive, Numbered, Ordered, WasRead;
    InForceHasKey(r, g);
    UnderWay(r, s, g);
    SameReads(r, s, g);
  }

  lemma InForceHasKey(r: Runtime, g: Id -> nat)
    requires Sound(r, g)
    ensures forall key <- r.fences :: r.fences[key] < |r.objects| && r.objects[r.fences[key]].key == key
  {
    hide Past, Numbered, Ordered, Captured, Seen, Opened;
  }

  lemma ReadSound(r: Runtime, op: nat, g: Id -> nat)
    requires Sound(r, g)
    ensures Sound(DoRead(r, op), g)
  {
    var s := DoRead(r, op);
    hide Past, Exclusive, Numbered, Ordered, WasRead;
    if op in r.pending {
      CurrentWasRead(r, r.pending[op].key, g);
    }
    UnderWay(r, s, g);
    SameReads(r, s, g);
  }

  lemma DecideSound(r: Runtime, op: nat, g: Id -> nat)
    requires Sound(r, g)
    ensures Sound(DoDecide(r, op), g)
  {
    hide Decided, Sound;
    if op in r.pending {
      LiftSound(r, r.pending[op].key, g);
      DropSound(r, op, g);
      DropSound(r.(fences := r.fences - {r.pending[op].key}), op, g);
    }
  }

  lemma DropSound(r: Runtime, op: nat, g: Id -> nat)
    requires Sound(r, g)
    ensures Sound(r.(pending := r.pending - {op}), g)
  {
    hide Past, Exclusive, Numbered, Ordered, WasRead;
    UnderWay(r, r.(pending := r.pending - {op}), g);
    SameReads(r, r.(pending := r.pending - {op}), g);
  }

  lemma StepSound(r: Runtime, e: Event, g: Id -> nat)
    requires Sound(r, g) && Immutable(e, g)
    ensures Sound(Step(r, e), g)
  {
    hide Sound, DoReadForBegin, DoBegin, DoSettle, DoPreheat, DoPublish, DoAsk, DoRead, DoDecide;
    match e
    case ReadForBegin(op, key, candidate) => OpenSound(r, op, key, candidate, g);
    case Begin(op) => BeginSound(r, op, g);
    case Settle(serial, ok) => SettleSound(r, serial, ok, g);
    case PreheatDone(key, serial, proof) => PreheatSound(r, key, serial, proof, g);
    case Publish(key) => PublishSound(r, key, g);
    case Ask(op, key, id, commit) => AskSound(r, op, key, id, commit, g);
    case Read(op) => ReadSound(r, op, g);
    case Decide(op) => DecideSound(r, op, g);
    case _ => RotateSound(r, Step(r, e), g);
  }

  lemma RotateSound(r: Runtime, after: Runtime, g: Id -> nat)
    requires Sound(r, g) && after == r.(foreground := after.foreground, background := after.background)
    requires r.foreground <= after.foreground && r.background <= after.background
    ensures Sound(after, g)
  {
    SameReads(r, after, g);
    hide Made, WasRead, Seen, Opened;
  }

  // ---- runs --------------------------------------------------------------------------------------------

  lemma {:induction false} RunSound(r: Runtime, es: seq<Event>, g: Id -> nat)
    requires Sound(r, g) && Admissible(es, g)
    ensures Sound(Run(r, es), g)
    decreases es
  {
    if es != [] {
      hide Step, Sound, Immutable;
      StepSound(r, es[0], g);
      assert Admissible(es[1..], g);
      RunSound(Step(r, es[0]), es[1..], g);
    }
  }

  lemma {:induction false} RunSplit(r: Runtime, es: seq<Event>, fs: seq<Event>)
    ensures Run(r, es + fs) == Run(Run(r, es), fs)
    decreases es
  {
    if es == [] {
      assert es + fs == fs;
    } else {
      hide Step;
      assert (es + fs)[1..] == es[1..] + fs;
      RunSplit(Step(r, es[0]), es[1..], fs);
    }
  }

  lemma RunOne(r: Runtime, es: seq<Event>, e: Event)
    ensures Run(r, es + [e]) == Step(Run(r, es), e)
  {
    hide Step;
    RunSplit(r, es, [e]);
    assert [e][1..] == [];
  }

  ghost predicate Reachable(r: Runtime, g: Id -> nat) {
    exists start: Runtime, es: seq<Event> :: Initial(start, g) && Admissible(es, g) && r == Run(start, es)
  }

  lemma ReachableSound(r: Runtime, g: Id -> nat)
    requires Reachable(r, g)
    ensures Sound(r, g)
  {
    hide Run;
    var start: Runtime, es: seq<Event> :| Initial(start, g) && Admissible(es, g) && r == Run(start, es);
    InitialSound(start, g);
    hide Sound;
    RunSound(start, es, g);
  }

  lemma InitialSound(r: Runtime, g: Id -> nat)
    requires Initial(r, g)
    ensures Sound(r, g)
  {
  }

  // ---- begins that go on in time ---------------------------------------------------------------------------

  // A begin that makes a fence goes on while what it read is still what is published.
  predicate OnTime(r: Runtime, e: Event) {
    e.Begin? && Opens(r, e.op) ==> r.begins[e.op].current == Current(r, r.begins[e.op].key)
  }

  predicate Punctual(r: Runtime, es: seq<Event>)
    decreases es
  {
    es == [] || (OnTime(r, es[0]) && Punctual(Step(r, es[0]), es[1..]))
  }

  // The candidate of the published authority or of its immediate successor, later than all others of its key.
  ghost predicate Guards(r: Runtime, key: Key, candidate: Authority) {
    && (Current(r, key) == Some(candidate) || Succeeds(candidate, CurrentId(r, key), CurrentGeneration(r, key)))
    && forall i :: 0 <= i < |r.objects| && r.objects[i].key == key ==> r.objects[i].candidate.generation <= candidate.generation
  }

  ghost predicate InTurn(r: Runtime) {
    forall key <- r.fences :: r.fences[key] < |r.objects| && Guards(r, key, r.objects[r.fences[key]].candidate)
  }

  // Objects are only added, and none changes its key or candidate.
  ghost predicate KeepsObjects(r: Runtime, s: Runtime) {
    && |r.objects| <= |s.objects|
    && forall i :: 0 <= i < |r.objects| ==>
         s.objects[i].key == r.objects[i].key && s.objects[i].candidate == r.objects[i].candidate
  }

  lemma SameGuards(r: Runtime, s: Runtime)
    requires InTurn(r) && s.published == r.published && |s.objects| == |r.objects| && KeepsObjects(r, s)
    requires forall key <- s.fences :: key in r.fences && s.fences[key] == r.fences[key]
    ensures InTurn(s)
  {
    hide Succeeds;
  }

  lemma OpensInTurn(r: Runtime, op: nat, g: Id -> nat)
    requires Sound(r, g) && Opens(r, op) && OnTime(r, Begin(op))
    ensures InTurn(DoBegin(r, op))
  {
    hide Past, Exclusive, Numbered, Captured, Seen, Opened, Made;
  }

  lemma PublishInTurn(r: Runtime, key: Key, g: Id -> nat)
    requires Sound(r, g) && InTurn(r)
    ensures InTurn(DoPublish(r, key))
  {
    hide Past, Numbered, Ordered, Captured, Seen, Opened, Succeeds;
    if MayPublish(r, key) {
      assert forall k <- r.fences :: k == key;
    }
  }

  // Every other event leaves the candidates and authorities alone and makes no fence.
  lemma QuietStep(r: Runtime, e: Event)
    requires !e.Publish? && !(e.Begin? && Opens(r, e.op))
    ensures var s := Step(r, e);
            && s.published == r.published && |s.objects| == |r.objects|
            && KeepsObjects(r, s) && forall key <- s.fences :: key in r.fences && s.fences[key] == r.fences[key]
  {
    hide Decided, Opens;
  }

  lemma StepInTurn(r: Runtime, e: Event, g: Id -> nat)
    requires Sound(r, g) && InTurn(r) && OnTime(r, e)
    ensures InTurn(Step(r, e))
  {
    if e.Publish? {
      PublishInTurn(r, e.key, g);
    } else if e.Begin? && Opens(r, e.op) {
      OpensInTurn(r, e.op, g);
    } else {
      hide Step, Sound, InTurn;
      QuietStep(r, e);
      SameGuards(r, Step(r, e));
    }
  }

  lemma {:induction false} RunInTurn(r: Runtime, es: seq<Event>, g: Id -> nat)
    requires Sound(r, g) && InTurn(r) && Admissible(es, g) && Punctual(r, es)
    ensures InTurn(Run(r, es))
    decreases es
  {
    if es != [] {
      hide Step, Sound, InTurn, OnTime, Immutable;
      StepSound(r, es[0], g);
      StepInTurn(r, es[0], g);
      assert Admissible(es[1..], g);
      RunInTurn(Step(r, es[0]), es[1..], g);
    }
  }

  // Reached by a run in which no begin came late.
  ghost predicate ReachedOnTime(r: Runtime, g: Id -> nat) {
    exists start: Runtime, es: seq<Event> :: Initial(start, g) && Admissible(es, g) && Punctual(start, es) && r == Run(start, es)
  }

  lemma OnTimeSound(r: Runtime, g: Id -> nat)
    requires ReachedOnTime(r, g)
    ensures Sound(r, g) && InTurn(r) && Reachable(r, g)
  {
    hide Run, Punctual, Admissible;
    var start: Runtime, es: seq<Event> :| Initial(start, g) && Admissible(es, g) && Punctual(start, es) && r == Run(start, es);
    InitialSound(start, g);
    assert InTurn(start);
    hide Sound, InTurn;
    RunSound(start, es, g);
    RunInTurn(start, es, g);
  }

  // ---- the promises ------------------------------------------------------------------------------------

  // There is at most one fence in the whole runtime.
  lemma OneFence(r: Runtime, g: Id -> nat, a: Key, b: Key)
    requires Reachable(r, g) && a in r.fences && b in r.fences
    ensures a == b
  {
    ReachableSound(r, g);
    hide Ordered, Numbered, Captured, Seen, Opened;
  }

  // While no begin comes late, the fence in force is that of the published authority or of its immediate
  // successor, so a settled one that is not published yet may always be.
  lemma FencesInTurn(r: Runtime, g: Id -> nat, key: Key)
    requires ReachedOnTime(r, g) && key in r.fences
    ensures r.fences[key] < |r.objects|
    ensures var f := r.objects[r.fences[key]];
            || Current(r, key) == Some(f.candidate)
            || (Succeeds(f.candidate, CurrentId(r, key), CurrentGeneration(r, key)) && (f.settled ==> MayPublish(r, key)))
  {
    OnTimeSound(r, g);
    hide Sound, Succeeds;
  }

  lemma StepGrows(r: Runtime, e: Event)
    ensures r.foreground <= Step(r, e).foreground && r.background <= Step(r, e).background
  {
    hide Decided, Opens, InForce, MayPublish;
  }

  lemma {:induction false} GenerationsGrow(r: Runtime, es: seq<Event>, i: nat)
    requires i <= |es|
    ensures r.foreground <= Run(r, es[..i]).foreground <= Run(r, es).foreground
    ensures r.background <= Run(r, es[..i]).background <= Run(r, es).background
    decreases es
  {
    if es != [] {
      hide Step;
      StepGrows(r, es[0]);
      if i > 0 {
        assert es[..i][1..] == es[1..][..i - 1];
        GenerationsGrow(Step(r, es[0]), es[1..], i - 1);
      } else {
        GenerationsGrow(Step(r, es[0]), es[1..], 0);
      }
    }
  }

  // ---- what lifts a fence --------------------------------------------------------------------------------

  // The operation found the fence of its own candidate.
  predicate FoundItsFence(r: Runtime, p: Pending) {
    p.fence.Some? && p.fence.value < |r.objects| && r.objects[p.fence.value].candidate.id == p.id
  }

  // A commit takes the fence away exactly when it found its candidate's fence, read its candidate, and has a
  // preheat of the present generations if the candidate is active.
  lemma CommitLiftsExactly(r: Runtime, p: Pending)
    requires p.commit && p.reading.Saw?
    ensures Decided(r, p).lifts <==>
              FoundItsFence(r, p) && IdOf(p.reading.authority) == Some(p.id) && Proven(r, p.fence.value)
    ensures Decided(r, p).lifts ==> Decided(r, p).status == Committed
  {
  }

  // An abort takes it away exactly when it found its candidate's fence and read the authority that the
  // candidate was to succeed.
  lemma AbortLiftsExactly(r: Runtime, p: Pending)
    requires !p.commit && p.reading.Saw?
    ensures Decided(r, p).lifts <==>
              && FoundItsFence(r, p) && IdOf(p.reading.authority) != Some(p.id)
              && IdOf(p.reading.authority) == r.objects[p.fence.value].candidate.previous
    ensures Decided(r, p).lifts ==> Decided(r, p).status == Aborted
  {
  }

  // A commit that takes away the fence of an active candidate has a preheat of the present generations.
  lemma CommitIsProven(r: Runtime, op: nat)
    requires op in r.pending && r.pending[op].commit && r.pending[op].reading.Saw? && Decided(r, r.pending[op]).lifts
    ensures var p := r.pending[op];
            && FoundItsFence(r, p) && IdOf(p.reading.authority) == Some(p.id)
            && (r.objects[p.fence.value].candidate.active ==>
                  r.objects[p.fence.value].preheated == Some(Proof(r.foreground, r.background)))
  {
    CommitLiftsExactly(r, r.pending[op]);
  }

  // From the moment `r` in which the proof was on record until the commit that relies on it, neither
  // pool has rotated.
  lemma NoRotationSinceProof(r: Runtime, g: Id -> nat, es: seq<Event>, op: nat, i: nat)
    requires Reachable(r, g) && i <= |es|
    requires var t := Run(r, es);
             && op in t.pending && t.pending[op].commit && t.pending[op].reading.Saw? && Decided(t, t.pending[op]).lifts
             && t.pending[op].fence.Some? && t.pending[op].fence.value < |r.objects| && t.pending[op].fence.value < |t.objects|
             && t.objects[t.pending[op].fence.value].candidate.active
             && r.objects[t.pending[op].fence.value].preheated == t.objects[t.pending[op].fence.value].preheated
    ensures var t := Run(r, es);
            && Run(r, es[..i]).foreground == r.foreground == t.foreground
            && Run(r, es[..i]).background == r.background == t.background
  {
    hide Run, Exclusive, Numbered, Ordered, Captured, Seen, Opened, Decided, Reachable;
    ReachableSound(r, g);
    CommitIsProven(Run(r, es), op);
    GenerationsGrow(r, es, i);
  }
}
