/** The activation handlers of the runtime server in place. */
module RuntimeActivations {
  import opened Lists
  import opened ActivationModel

  // `published` stands for the manifests on disk, which the handlers read afresh each time.
  class ActivationServer {
    var published: map<Key, Authority>
    var objects: seq<Fence>
    var activationFences: map<Key, nat>
    var foregroundGeneration: nat
    var backgroundGeneration: nat
    var begins: map<nat, Opening>
    var pending: map<nat, Pending>

    ghost function View(): Runtime
      reads this
    {
      Runtime(published, objects, activationFences, foregroundGeneration, backgroundGeneration, begins, pending)
    }

    constructor (published: map<Key, Authority>)
      ensures View() == Runtime(published, [], map[], 0, 0, map[], map[])
    {
      this.published := published;
      objects, activationFences, foregroundGeneration, backgroundGeneration := [], map[], 0, 0;
      begins, pending := map[], map[];
    }

    // A begin reads the manifest; it does not go on yet.
    method ReadForBegin(op: nat, key: Key, candidate: Authority)
      modifies `begins
      ensures View() == DoReadForBegin(old(View()), op, key, candidate)
    {
      if op in begins { return; }
      begins := begins[op := Opening(key, candidate, if key in published then Some(published[key]) else None)];
    }

    // The begin goes on with what it has read. False when the candidate is not the successor of that, or
    // a foreign fence is in force.
    method Begin(op: nat) returns (fenced: bool)
      requires op in begins
      modifies `objects, `activationFences, `begins
      ensures View() == DoBegin(old(View()), op)
      ensures fenced ==> old(begins[op]).key in activationFences
    {
      var b := begins[op];
      begins := begins - {op};
      if b.candidate.previous != IdOf(b.current) || b.candidate.generation != GenerationOf(b.current) + 1 {
        return false;
      }
      if activationFences != map[] {
        return b.key in activationFences && activationFences[b.key] < |objects|
          && objects[activationFences[b.key]].candidate.id == b.candidate.id;
      }
      activationFences := activationFences[b.key := |objects|];
      objects := objects + [Fence(b.key, b.candidate, None, false)];
      fenced := true;
    }

    // The invalidation that a fence waits for succeeds or fails; a failure takes only that fence away.
    method Settle(serial: nat, ok: bool)
      modifies `objects, `activationFences
      ensures View() == DoSettle(old(View()), serial, ok)
    {
      if serial >= |objects| || objects[serial].settled { return; }
      var key := objects[serial].key;
      if ok {
        objects := objects[serial := objects[serial].(settled := true)];
      } else if key in activationFences && activationFences[key] == serial {
        activationFences := activationFences - {key};
      }
    }

    // Records the proof only for a fence still in force and generations still current.
    method PreheatDone(key: Key, serial: nat, proof: Proof)
      modifies `objects
      ensures View() == DoPreheat(old(View()), key, serial, proof)
    {
      if serial < |objects| && objects[serial].key == key && key in activationFences && activationFences[key] == serial
        && proof.foreground == foregroundGeneration && proof.background == backgroundGeneration
      {
        objects := objects[serial := objects[serial].(preheated := Some(proof))];
      }
    }

    // A commit or abort looks up the fence and starts to read the manifest.
    method Ask(op: nat, key: Key, id: Id, commit: bool)
      modifies `pending
      ensures View() == DoAsk(old(View()), op, key, id, commit)
    {
      if op in pending { return; }
      var fence := if key in activationFences then Some(activationFences[key]) else None;
      pending := pending[op := Pending(key, id, fence, commit, Unread)];
    }

    // The manifest is read; the operation does not go on yet.
    method Read(op: nat)
      requires op in pending && pending[op].reading.Unread?
      modifies `pending
      ensures View() == DoRead(old(View()), op)
    {
      var key := pending[op].key;
      pending := pending[op := pending[op].(reading := Saw(if key in published then Some(published[key]) else None))];
    }

    // The operation goes on with what it has read: it decides and takes the fence away in one turn.
    method Decide(op: nat) returns (status: Status)
      requires op in pending && pending[op].reading.Saw?
      modifies `pending, `activationFences
      ensures View() == DoDecide(old(View()), op)
      ensures status == Decided(old(View()), old(pending[op])).status
    {
      var p := pending[op];
      pending := pending - {op};
      var candidate := if p.fence.Some? && p.fence.value < |objects| then Some(objects[p.fence.value].candidate) else None;
      status := StatusOf(candidate, IdOf(p.reading.authority), p.id);
      if p.commit {
        if status != CommitPending || candidate.None? { return; }
        if candidate.value.active
          && objects[p.fence.value].preheated != Some(Proof(foregroundGeneration, backgroundGeneration))
        {
          return Uncertain;
        }
        activationFences := activationFences - {p.key};
        return Committed;
      }
      if status == Fenced && candidate.Some? {
        activationFences := activationFences - {p.key};
        return Aborted;
      }
    }
  }
}
