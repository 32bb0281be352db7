/**
 Function activation: a candidate generation is fenced in the runtime, preheated, published by the
 management side, and then committed or aborted. Begin reads the manifest from disk and goes on later by what
 it read; commit and abort look up the fence first, then read the manifest, and decide later. Anything may
 happen between these steps.
 */
module ActivationModel {
  import opened Lists

  type Key = string
  type Id = string

  datatype Authority = Authority(id: Id, generation: nat, previous: Option<Id>, active: bool)

  // The pool generations for which a preheat was attested.
  datatype Proof = Proof(foreground: nat, background: nat)

  // `settled`: the invalidation of both pools succeeded, so `begin` has answered.
  datatype Fence = Fence(key: Key, candidate: Authority, preheated: Option<Proof>, settled: bool)

  datatype Status = Fenced | CommitPending | Committed | Aborted | Uncertain

  // The authority that a commit or abort has read from the manifest.
  datatype Reading = Unread | Saw(authority: Option<Authority>)

  // A commit or abort under way; `fence` is the object it found.
  datatype Pending = Pending(key: Key, id: Id, fence: Option<nat>, commit: bool, reading: Reading)

  // A begin that has read the manifest and not yet gone on.
  datatype Opening = Opening(key: Key, candidate: Authority, current: Option<Authority>)

  // `objects` are all fences ever made, by order of creation; `fences` are the ones in force.
  datatype Runtime = Runtime(
    published: map<Key, Authority>, objects: seq<Fence>, fences: map<Key, nat>,
    foreground: nat, background: nat, begins: map<nat, Opening>, pending: map<nat, Pending>)

  datatype Event =
    | ReadForBegin(op: nat, key: Key, candidate: Authority)
    | Begin(op: nat)
    | Settle(serial: nat, ok: bool)
    | PreheatDone(key: Key, serial: nat, proof: Proof)
    | RotateForeground
    | RotateBackground
    | Publish(key: Key)
    | Ask(op: nat, key: Key, id: Id, commit: bool)
    | Read(op: nat)
    | Decide(op: nat)

  function Current(r: Runtime, key: Key): Option<Authority> {
    if key in r.published then Some(r.published[key]) else None
  }

  function IdOf(a: Option<Authority>): Option<Id> {
    if a.Some? then Some(a.value.id) else None
  }

  function GenerationOf(a: Option<Authority>): nat {
    if a.Some? then a.value.generation else 0
  }

  function CurrentId(r: Runtime, key: Key): Option<Id> {
    IdOf(Current(r, key))
  }

  function CurrentGeneration(r: Runtime, key: Key): nat {
    GenerationOf(Current(r, key))
  }

  // activationState
  function StatusOf(fence: Option<Authority>, current: Option<Id>, requested: Id): Status {
    if current == Some(requested) then
      if fence == None then Committed
      else if fence.value.id == requested then CommitPending
      else Uncertain
    else if fence == None then Uncertain
    else if fence.value.id != requested then Uncertain
    else if current == fence.value.previous then Fenced
    else Uncertain
  }

  // assertActivationSuccessor
  predicate Succeeds(candidate: Authority, current: Option<Id>, generation: nat) {
    candidate.previous == current && candidate.generation == generation + 1
  }

  // The fence at the key is the given object: `activationFences.get(key) === fence`.
  predicate InForce(r: Runtime, serial: nat) {
    serial < |r.objects| && r.objects[serial].key in r.fences && r.fences[r.objects[serial].key] == serial
  }

  function DoReadForBegin(r: Runtime, op: nat, key: Key, candidate: Authority): Runtime {
    if op in r.begins then r else r.(begins := r.begins[op := Opening(key, candidate, Current(r, key))])
  }

  // The begin goes on by what it read: its candidate is the successor, and no fence is in force.
  predicate Opens(r: Runtime, op: nat) {
    && op in r.begins && r.fences == map[]
    && Succeeds(r.begins[op].candidate, IdOf(r.begins[op].current), GenerationOf(r.begins[op].current))
  }

  // A second `begin` of the same candidate joins the first; any other fence refuses it.
  function DoBegin(r: Runtime, op: nat): Runtime {
    if Opens(r, op) then
      var b := r.begins[op];
      r.(begins := r.begins - {op}, objects := r.objects + [Fence(b.key, b.candidate, None, false)],
         fences := r.fences[b.key := |r.objects|])
    else r.(begins := r.begins - {op})
  }

  function DoSettle(r: Runtime, serial: nat, ok: bool): Runtime {
    if serial >= |r.objects| || r.objects[serial].settled then r
    else if ok then r.(objects := r.objects[serial := r.objects[serial].(settled := true)])
    else if InForce(r, serial) then r.(fences := r.fences - {r.objects[serial].key})
    else r
  }

  function DoPreheat(r: Runtime, key: Key, serial: nat, proof: Proof): Runtime {
    if InForce(r, serial) && r.objects[serial].key == key && proof == Proof(r.foreground, r.background)
    then r.(objects := r.objects[serial := r.objects[serial].(preheated := Some(proof))])
    else r
  }

  // The management side publishes a candidate whose `begin` has answered and whose fence is in force. It made
  // the candidate as the successor of the manifest, under a lock that it still holds.
  predicate MayPublish(r: Runtime, key: Key) {
    && key in r.fences && r.fences[key] < |r.objects|
    && r.objects[r.fences[key]].settled
    && Succeeds(r.objects[r.fences[key]].candidate, CurrentId(r, key), CurrentGeneration(r, key))
  }

  function DoPublish(r: Runtime, key: Key): Runtime {
    if MayPublish(r, key) then r.(published := r.published[key := r.objects[r.fences[key]].candidate]) else r
  }

  function DoAsk(r: Runtime, op: nat, key: Key, id: Id, commit: bool): Runtime {
    if op in r.pending then r
    else r.(pending := r.pending[op := Pending(key, id, if key in r.fences then Some(r.fences[key]) else None, commit, Unread)])
  }

  function DoRead(r: Runtime, op: nat): Runtime {
    if op !in r.pending || r.pending[op].reading.Saw? then r
    else r.(pending := r.pending[op := r.pending[op].(reading := Saw(Current(r, r.pending[op].key)))])
  }

  function CandidateOf(r: Runtime, fence: Option<nat>): Option<Authority> {
    if fence.Some? && fence.value < |r.objects| then Some(r.objects[fence.value].candidate) else None
  }

  // An absent target needs no preheat.
  predicate Proven(r: Runtime, serial: nat)
    requires serial < |r.objects|
  {
    r.objects[serial].candidate.active ==> r.objects[serial].preheated == Some(Proof(r.foreground, r.background))
  }

  // What a commit or abort answers, and whether it takes the fence at its key away.
  datatype Decision = Decision(status: Status, lifts: bool)

  function Decided(r: Runtime, p: Pending): Decision
    requires p.reading.Saw?
  {
    var status := StatusOf(CandidateOf(r, p.fence), IdOf(p.reading.authority), p.id);
    if p.commit then
      if status == CommitPending && p.fence.Some? && p.fence.value < |r.objects| then
        if Proven(r, p.fence.value) then Decision(Committed, true) else Decision(Uncertain, false)
      else Decision(status, false)
    else if status == Fenced then Decision(Aborted, true)
    else Decision(status, false)
  }

  function DoDecide(r: Runtime, op: nat): Runtime {
    if op !in r.pending || r.pending[op].reading.Unread? then r
    else
      var p := r.pending[op];
      r.(pending := r.pending - {op}, fences := if Decided(r, p).lifts then r.fences - {p.key} else r.fences)
  }

  function Step(r: Runtime, e: Event): Runtime {
    match e
    case ReadForBegin(op, key, candidate) => DoReadForBegin(r, op, key, candidate)
    case Begin(op) => DoBegin(r, op)
    case Settle(serial, ok) => DoSettle(r, serial, ok)
    case PreheatDone(key, serial, proof) => DoPreheat(r, key, serial, proof)
    case RotateForeground => r.(foreground := r.foreground + 1)
    case RotateBackground => r.(background := r.background + 1)
    case Publish(key) => DoPublish(r, key)
    case Ask(op, key, id, commit) => DoAsk(r, op, key, id, commit)
    case Read(op) => DoRead(r, op)
    case Decide(op) => DoDecide(r, op)
  }

  // A generation file never changes: an id determines its generation.
  predicate Immutable(e: Event, generationOf: Id -> nat) {
    e.ReadForBegin? ==> e.candidate.generation == generationOf(e.candidate.id)
  }

  ghost predicate Admissible(es: seq<Event>, generationOf: Id -> nat) {
    forall i :: 0 <= i < |es| ==> Immutable(es[i], generationOf)
  }

  function Run(r: Runtime, es: seq<Event>): Runtime
    decreases es
  {
    if es == [] then r else Run(Step(r, es[0]), es[1..])
  }

  // A runtime that has just started: no fences, whatever has been published before.
  ghost predicate Initial(r: Runtime, generationOf: Id -> nat) {
    && r.objects == [] && r.fences == map[] && r.begins == map[] && r.pending == map[]
    && forall key <- r.published :: r.published[key].generation == generationOf(r.published[key].id) > 0
  }
}
