/** What begin, settlement, preheat, commit and abort answer and change, by what they found, read and were shown. */
module ActivationAnswers {
  import opened Lists
  import opened ActivationModel
  import opened ActivationProofs
  import opened ActivationRaces

  // ---- commit and abort ----------------------------------------------------------------------------------------

  // The fence that the operation found, if it found one.
  function Found(r: Runtime, p: Pending): Option<Fence> {
    if p.fence.Some? && p.fence.value < |r.objects| then Some(r.objects[p.fence.value]) else None
  }

  // The fence found is that of the requested candidate.
  predicate OwnFound(r: Runtime, p: Pending) {
    Found(r, p).Some? && Found(r, p).value.candidate.id == p.id
  }

  // Its candidate needs no preheat, or was preheated in the present generations of both pools.
  predicate Attested(r: Runtime, p: Pending) {
    && Found(r, p).Some?
    && var f := Found(r, p).value;
    && (f.candidate.active ==>
          && f.preheated.Some? && f.preheated.value.foreground == r.foreground && f.preheated.value.background == r.background)
  }

  // The requested candidate is the authority that was read, or the one that was to precede it is.
  predicate IsPublished(p: Pending)
    requires p.reading.Saw?
  {
    p.reading.authority.Some? && p.reading.authority.value.id == p.id
  }

  predicate IsNext(r: Runtime, p: Pending)
    requires p.reading.Saw? && Found(r, p).Some?
  {
    var before := Found(r, p).value.candidate.previous;
    !IsPublished(p) && if before.None? then p.reading.authority.None?
                       else p.reading.authority.Some? && p.reading.authority.value.id == before.value
  }

  // Each of the five answers, exactly.
  lemma AnswersExactly(r: Runtime, p: Pending)
    requires p.reading.Saw?
    ensures var a := Decided(r, p).status;
            var own := OwnFound(r, p);
            && (a == Committed <==> IsPublished(p) && (Found(r, p).None? || (p.commit && own && Attested(r, p))))
            && (a == CommitPending <==> IsPublished(p) && own && !p.commit)
            && (a == Fenced <==> own && IsNext(r, p) && p.commit)
            && (a == Aborted <==> own && IsNext(r, p) && !p.commit)
            && (a == Uncertain <==>
                  if IsPublished(p) then Found(r, p).Some? && (!own || (p.commit && !Attested(r, p)))
                  else !own || !IsNext(r, p))
  {
    if Found(r, p).Some? && p.reading.authority.Some? {
      ProofIs(r, Found(r, p).value);
    }
  }

  lemma ProofIs(r: Runtime, f: Fence)
    ensures f.preheated == Some(Proof(r.foreground, r.background)) <==>
              f.preheated.Some? && f.preheated.value.foreground == r.foreground && f.preheated.value.background == r.background
  {
  }

  // The manifest was read at event `i` of the run.
  ghost predicate ReadAt(s: Runtime, es: seq<Event>, i: nat, op: nat, reading: Reading) {
    && i < |es| && es[i] == Read(op) && op in Run(s, es[..i]).pending
    && reading == Saw(Current(Run(s, es[..i]), Run(s, es[..i]).pending[op].key))
  }

  lemma ReadingStep(r: Runtime, e: Event, op: nat)
    requires op in r.pending && !(e.Decide? && e.op == op) && r.pending[op].reading.Unread?
    ensures op in Step(r, e).pending
    ensures Step(r, e).pending[op].reading.Saw? ==>
              e == Read(op) && Step(r, e).pending[op].reading == Saw(Current(r, r.pending[op].key))
  {
    hide Decided, Opens, InForce, MayPublish;
  }

  lemma {:induction false} ReadingFound(s: Runtime, es: seq<Event>, op: nat)
    requires op in s.pending && s.pending[op].reading.Unread? && Undecided(es, op)
    ensures op in Run(s, es).pending
    ensures Run(s, es).pending[op].reading.Saw? ==> exists i: nat :: ReadAt(s, es, i, op, Run(s, es).pending[op].reading)
    decreases |es|
  {
    PendingKept(s, es, op);
    if es != [] {
      var front, e := es[..|es| - 1], es[|es| - 1];
      assert es == front + [e];
      hide Step, Run;
      RunOne(s, front, e);
      ReadingFound(s, front, op);
      var r := Run(s, front);
      if r.pending[op].reading.Unread? {
        ReadingStep(r, e, op);
        assert es[..|front|] == front;
        if Run(s, es).pending[op].reading.Saw? { assert ReadAt(s, es, |front|, op, Run(s, es).pending[op].reading); }
      } else {
        var i: nat :| ReadAt(s, front, i, op, r.pending[op].reading);
        StepKeepsPending(r, e, op);
        assert es[..i] == front[..i];
        assert ReadAt(s, es, i, op, Run(s, es).pending[op].reading);
      }
    } else {
      assert Run(s, es) == s;
    }
  }

  // What an operation answers about its candidate was true when it read: committed, and it was the published one;
  // aborted, and it was not.
  lemma AnswersWereTrue(r: Runtime, g: Id -> nat, op: nat, key: Key, id: Id, commit: bool, es: seq<Event>)
    requires Reachable(r, g) && op !in r.pending && Undecided(es, op)
    requires Ready(Run(Step(r, Ask(op, key, id, commit)), es), op)
    ensures var s := Step(r, Ask(op, key, id, commit));
            var t := Run(s, es);
            var a := Decided(t, t.pending[op]).status;
            exists i ::
              && 0 <= i < |es| && es[i] == Read(op)
              && (a == Committed ==> CurrentId(Run(s, es[..i]), key) == Some(id))
              && (a == Aborted ==> CurrentId(Run(s, es[..i]), key) != Some(id))
  {
    var s := Step(r, Ask(op, key, id, commit));
    var t := Run(s, es);
    AskedState(r, g, op, key, id, commit);
    PendingKept(s, es, op);
    ReadingFound(s, es, op);
    AnswersExactly(t, t.pending[op]);
    hide Run, Step, Sound, Decided, Attested, IsNext, OwnFound, Found;
    var i: nat :| ReadAt(s, es, i, op, t.pending[op].reading);
    KeyAt(s, es, i, op);
    hide ReadAt;
  }

  lemma KeyAt(s: Runtime, es: seq<Event>, i: nat, op: nat)
    requires op in s.pending && Undecided(es, op) && i < |es|
    ensures op in Run(s, es[..i]).pending && Run(s, es[..i]).pending[op].key == s.pending[op].key
  {
    hide Run;
    assert forall j :: 0 <= j < |es[..i]| ==> es[..i][j] == es[j];
    PendingKept(s, es[..i], op);
  }

  // ---- begin --------------------------------------------------------------------------------------------------------

  // A begin puts a fence for its candidate in force, the only one, exactly if none is in force when it goes on and
  // the candidate is the successor of what was published when it read; otherwise it changes no fence.
  lemma BeginExactly(r: Runtime, g: Id -> nat, op: nat, key: Key, candidate: Authority, es: seq<Event>)
    requires Reachable(r, g) && op !in r.begins && candidate.generation == g(candidate.id)
    requires Unopened(es, op)
    ensures var t := Run(Step(r, ReadForBegin(op, key, candidate)), es);
            var u := Step(t, Begin(op));
            if t.fences == map[] && candidate.previous == CurrentId(r, key)
              && candidate.generation == CurrentGeneration(r, key) + 1
            then u.fences == map[key := |t.objects|] && u.objects == t.objects + [Fence(key, candidate, None, false)]
            else u.fences == t.fences && u.objects == t.objects
  {
    var s := Step(r, ReadForBegin(op, key, candidate));
    OpeningRead(r, g, op, key, candidate);
    OpeningKept(s, es, op);
    assert Current(s, key) == Current(r, key);
    hide Run, Sound;
  }

  // ---- settlement and preheat ------------------------------------------------------------------------------------------

  // The invalidation that a begin waits for: success marks its fence once and for all, failure takes it away if it
  // is still the one in force, and nothing else ever changes.
  lemma SettleExactly(r: Runtime, serial: nat, ok: bool)
    requires serial < |r.objects| && !r.objects[serial].settled
    ensures var s := Step(r, Settle(serial, ok));
            var key := r.objects[serial].key;
            && (forall i :: 0 <= i < |r.objects| && i != serial ==> i < |s.objects| && s.objects[i] == r.objects[i])
            && |s.objects| == |r.objects| && s.objects[serial].settled == ok
            && (forall k :: k in s.fences <==> k in r.fences && !(!ok && k == key && r.fences[k] == serial))
            && (forall k <- s.fences :: s.fences[k] == r.fences[k])
  {
  }

  // A preheat is recorded exactly if its fence is the one in force at its key and both pools are still of the
  // generations for which it was attested.
  lemma PreheatExactly(r: Runtime, key: Key, serial: nat, proof: Proof)
    requires serial < |r.objects| && r.objects[serial].preheated != Some(proof)
    ensures var s := Step(r, PreheatDone(key, serial, proof));
            && (s.objects != r.objects <==>
                  && key in r.fences && r.fences[key] == serial && r.objects[serial].key == key
                  && proof.foreground == r.foreground && proof.background == r.background)
            && (s.objects != r.objects ==> s.objects == r.objects[serial := r.objects[serial].(preheated := Some(proof))])
            && s.fences == r.fences
  {
    var f := r.objects[serial].(preheated := Some(proof));
    assert r.objects[serial := f][serial] == f;
    assert f != r.objects[serial];
  }
}
