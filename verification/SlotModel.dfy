/**
 One worker slot across many executions: the pool's side, the worker's side, and the two message
 channels between them. Messages carry no execution id; here each carries a ghost one, so that it can
 be said which execution a message belongs to and which execution handled it.
 */
module SlotModel {
  import opened Lists
  import opened ExecutionModel

  // How far the worker is with its work, told by the messages it has posted.
  datatype Phase = Begun | Entered | Streaming | Replied | Completing | Waited | Over | Warming

  datatype Posted = Of(message: Message) | PreheatReply(ok: bool)

  datatype Up = Note(from: nat, posted: Posted) | Ack

  datatype Down = Work(id: nat, preheat: bool) | CancelCurrent(id: nat) | Control | Retire

  // `Kept`: a preheat that is done, while its worker is still reserved.
  datatype Job = Execution(x: Exec) | Preheating(sent: bool) | Kept

  datatype Task = Task(id: nat, job: Job, seen: Phase)

  datatype Executor = Resting | Busy(id: nat, phase: Phase) | Silent

  // A message of one piece of work and the piece of work whose handlers got it.
  datatype Handling = Handling(from: nat, handler: Option<nat>)

  // Observations: messages handled, work begun while other work was under way, and whether an execution was
  // completed without a reply.
  datatype Log = Log(handled: seq<Handling>, overlaps: nat, mute: bool)

  // Preheats whose worker was handed back before they were done: `waiting` have yet to be posted, the handlers of
  // `active` are the ones that get the worker's messages.
  datatype Astray = Astray(waiting: seq<nat>, active: Option<nat>)

  datatype Slot = Slot(
    task: Option<Task>, gone: bool, next: nat, down: seq<Down>, up: seq<Up>, executor: Executor,
    log: Log, closed: seq<Exec>, astray: Astray)

  datatype SlotEvent =
    | Assign                              // `execute` begins on the worker
    | AssignPreheat                       // the worker is reserved for a preheat
    | NextMember                          // the next function of a release is preheated on it
    | HandBack                            // the reserved worker is recycled
    | Own(event: Event)                   // anything that happens to the execution except a message
    | PreheatSent
    | PreheatFails                        // timeout, failed post, worker error or exit
    | StraySent                           // a preheat that was handed back too early is posted after all
    | StrayFails
    | PostControl                         // invalidate_module or invalidate_project
    | Forget                              // the pool retires the worker, whatever it is doing
    | PoolReceives(postFails: bool)
    | WorkerReceives
    | WorkerPosts(posted: Posted)
    | CatchThrows(waitUntilPending: bool) // the thrown value has no text: `response_complete` follows no reply

  const NOBODY := Astray([], None)

  const EMPTY := Slot(None, false, 0, [], [], Resting, Log([], 0, false), [], NOBODY)

  // The order in which the worker posts the messages of one piece of work. `mute`: an execution may be completed
  // without a reply.
  function Next(p: Phase, m: Posted, mute: bool): Option<Phase> {
    match m
    case PreheatReply(_) => if p == Warming then Some(Over) else None
    case Of(ExecutionStarted) => if p == Begun then Some(Entered) else None
    case Of(Reply(stream, _, _)) =>
      if p == Begun || p == Entered then Some(if stream then Streaming else Replied)
      else if (p == Streaming || p == Replied) && !stream then Some(Replied)
      else None
    case Of(ResponseComplete(_)) =>
      if p == Streaming || p == Replied || (mute && (p == Begun || p == Entered)) then Some(Completing) else None
    case Of(WaitUntilDone) => if p == Completing then Some(Waited) else None
    case Of(ExecutionComplete) => if p == Completing || p == Waited then Some(Over) else None
    case Of(CancelAck) => if p == Over || p == Warming then None else Some(p)
    case Of(InvalidateDone) => None
  }

  // What is posted to a worker that has been told to retire does not count.
  function Sending(s: Slot, t: Task, x: Exec, y: Exec): seq<Down> {
    var work := if y.started && !x.started then [Work(t.id, false)] else [];
    var cancel := if y.timers.cancel && !x.timers.cancel then [CancelCurrent(t.id)] else [];
    if s.gone then [] else work + cancel
  }

  // The execution that was posted last has moved from x to y.
  function Settle(s: Slot, t: Task, x: Exec, y: Exec): Slot {
    var down := s.down + Sending(s, t, x, y);
    if !y.finished then s.(task := Some(t.(job := Execution(y))), down := down)
    else if y.tally.retirements > 0 then
      s.(task := None, gone := true, down := down + [Retire], closed := s.closed + [y])
    else s.(task := None, down := down, closed := s.closed + [y])
  }

  function Vanish(s: Slot): Slot {
    s.(task := None, gone := true, down := s.down + [Retire])
  }

  function Noted(s: Slot, from: nat, handler: Option<nat>): Slot {
    s.(log := s.log.(handled := s.log.handled + [Handling(from, handler)]))
  }

  // Whose handlers are installed: those of the preheat gone astray, of the execution, or of the posted preheat.
  function Deliver(s: Slot, n: Up, postFails: bool): Slot {
    if s.gone || n.Ack? then s
    else if s.astray.active.Some? then StrayHears(Noted(s, n.from, s.astray.active), n)
    else
      match s.task
      case None => Noted(s, n.from, None)
      case Some(t) =>
        if t.job == Preheating(false) || t.job == Kept then Noted(s, n.from, None)
        else Accept(Noted(s, n.from, Some(t.id)), t, n.posted, postFails)
  }

  // A preheat attends to its own reply and drops every other message.
  function StrayHears(s: Slot, n: Up): Slot
    requires n.Note?
  {
    if s.astray.active != Some(n.from) || n.posted.Of? then s
    else if n.posted.ok then s.(astray := s.astray.(active := None))
    else s.(astray := s.astray.(active := None), gone := true, down := s.down + [Retire])
  }

  function Accept(s: Slot, t: Task, m: Posted, postFails: bool): Slot {
    var seen := match Next(t.seen, m, true) case Some(p) => p case None => t.seen;
    match t.job
    case Execution(x) =>
      if m.Of? then Settle(s, t.(seen := seen), x, Step(x, Received(m.message, postFails))) else s
    case Preheating(_) =>
      if m.Of? then s else if m.ok then s.(task := Some(Task(t.id, Kept, Over))) else Vanish(s)
    case Kept => s
  }

  function Consume(s: Slot, d: Down): Slot {
    match d
    case Retire => s.(executor := Silent)
    case Control => if s.executor == Silent then s else s.(up := s.up + [Ack])
    case CancelCurrent(id) =>
      if s.executor.Busy? && s.executor.id == id && s.executor.phase != Warming
      then s.(up := s.up + [Note(id, Of(CancelAck))])
      else s
    case Work(id, preheat) =>
      if s.executor == Silent then s
      else s.(executor := Busy(id, if preheat then Warming else Begun),
              log := if s.executor == Resting then s.log else s.log.(overlaps := s.log.overlaps + 1))
  }

  function Post(s: Slot, m: Posted): Slot {
    if !s.executor.Busy? || m == Of(CancelAck) then s
    else
      match Next(s.executor.phase, m, false)
      case None => s
      case Some(q) =>
        s.(up := s.up + [Note(s.executor.id, m)],
           executor := if q == Over then Resting else Busy(s.executor.id, q))
  }

  // The catch clause throws before it has posted a reply; the finally clause still completes the execution.
  function CatchFails(s: Slot, pending: bool): Slot {
    if !s.executor.Busy? || (s.executor.phase != Begun && s.executor.phase != Entered) then s
    else s.(up := s.up + [Note(s.executor.id, Of(ResponseComplete(pending)))],
            executor := Busy(s.executor.id, Completing), log := s.log.(mute := true))
  }

  // A hand-back would leave a preheat behind that is not done.
  predicate Early(s: Slot) {
    !s.gone && s.task.Some? && s.task.value.job.Preheating?
  }

  function Release(s: Slot): Slot {
    match s.task
    case None => s
    case Some(t) =>
      if t.job.Execution? then s
      else if t.job.Kept? || s.gone then s.(task := None)
      else if t.job.sent then s.(task := None, astray := s.astray.(active := Some(t.id)))
      else s.(task := None, astray := s.astray.(waiting := s.astray.waiting + [t.id]))
  }

  // It installs its handlers in place of whatever is there, and posts.
  function SendStray(s: Slot): Slot {
    if s.astray.waiting == [] then s
    else
      var id := s.astray.waiting[0];
      var r := s.astray.waiting[1..];
      if s.gone then s.(astray := s.astray.(waiting := r))
      else s.(astray := Astray(r, Some(id)), down := s.down + [Work(id, true)])
  }

  function SlotStep(s: Slot, e: SlotEvent): Slot {
    match e
    case Assign =>
      if s.gone || s.task.Some? then s
      else s.(task := Some(Task(s.next, Execution(FRESH), Begun)), next := s.next + 1, astray := s.astray.(active := None))
    case AssignPreheat =>
      if s.gone || s.task.Some? then s
      else s.(task := Some(Task(s.next, Preheating(false), Warming)), next := s.next + 1)
    case NextMember =>
      if s.gone || s.task.None? || !s.task.value.job.Kept? then s
      else s.(task := Some(Task(s.next, Preheating(false), Warming)), next := s.next + 1)
    case HandBack => Release(s)
    case Own(event) =>
      if s.task.None? || !s.task.value.job.Execution? || event.Received? then s
      else Settle(s, s.task.value, s.task.value.job.x, Step(s.task.value.job.x, event))
    case PreheatSent =>
      if s.gone || s.task.None? || s.task.value.job != Preheating(false) then s
      else s.(task := Some(s.task.value.(job := Preheating(true))), down := s.down + [Work(s.task.value.id, true)],
              astray := s.astray.(active := None))
    case PreheatFails => if s.task.None? || !s.task.value.job.Preheating? then s else Vanish(s)
    case StraySent => SendStray(s)
    case StrayFails => if s.astray == NOBODY then s else s.(gone := true, down := s.down + [Retire], astray := NOBODY)
    case PostControl => if s.gone then s else s.(down := s.down + [Control])
    case Forget => if s.gone then s else s.(gone := true, down := s.down + [Retire])
    case PoolReceives(postFails) =>
      if s.up == [] then s else Deliver(s.(up := s.up[1..]), s.up[0], postFails)
    case WorkerReceives => if s.down == [] then s else Consume(s.(down := s.down[1..]), s.down[0])
    case WorkerPosts(m) => Post(s, m)
    case CatchThrows(pending) => CatchFails(s, pending)
  }

  function SlotRun(s: Slot, es: seq<SlotEvent>): Slot
    decreases es
  {
    if es == [] then s else SlotRun(SlotStep(s, es[0]), es[1..])
  }

  // No hand-back of the run meets a preheat that is not done.
  predicate Timely(s: Slot, es: seq<SlotEvent>)
    decreases es
  {
    es == [] || (!(es[0].HandBack? && Early(s)) && Timely(SlotStep(s, es[0]), es[1..]))
  }

  // ---- what the channels may hold ----------------------------------------------------------------

  // The work on its way to the worker.
  function Works(down: seq<Down>): seq<Down> {
    if down == [] then []
    else (if down[0].Work? then [down[0]] else []) + Works(down[1..])
  }

  ghost predicate Quiet(up: seq<Up>) {
    forall i :: 0 <= i < |up| ==> up[i] == Ack
  }

  // The phase reached once the messages in `up` are handled; None if they are not messages of `id` in order.
  function After(p: Phase, id: nat, up: seq<Up>, mute: bool): Option<Phase>
    decreases up
  {
    if up == [] then Some(p)
    else if up[0] == Ack then After(p, id, up[1..], mute)
    else if up[0].from != id || Next(p, up[0].posted, mute).None? then None
    else After(Next(p, up[0].posted, mute).value, id, up[1..], mute)
  }

  lemma {:induction false} WorksAppend(down: seq<Down>, more: seq<Down>)
    ensures Works(down + more) == Works(down) + Works(more)
    decreases down
  {
    if down == [] {
      assert down + more == more;
    } else {
      var first := if down[0].Work? then [down[0]] else [];
      assert (down + more)[0] == down[0] && (down + more)[1..] == down[1..] + more;
      WorksAppend(down[1..], more);
      calc {
        Works(down + more);
        first + Works(down[1..] + more);
        first + (Works(down[1..]) + Works(more));
        (first + Works(down[1..])) + Works(more);
        Works(down) + Works(more);
      }
    }
  }

  lemma {:induction false} AfterAppend(p: Phase, id: nat, up: seq<Up>, n: Up, mute: bool)
    requires After(p, id, up, mute).Some?
    ensures n == Ack ==> After(p, id, up + [n], mute) == After(p, id, up, mute)
    ensures n.Note? && n.from == id ==> After(p, id, up + [n], mute) == Next(After(p, id, up, mute).value, n.posted, mute)
    decreases up
  {
    if up == [] {
      assert up + [n] == [n];
      assert [n][1..] == [];
    } else {
      assert (up + [n])[1..] == up[1..] + [n];
      assert (up + [n])[0] == up[0];
      if up[0] == Ack {
        AfterAppend(p, id, up[1..], n, mute);
      } else {
        AfterAppend(Next(p, up[0].posted, mute).value, id, up[1..], n, mute);
      }
    }
  }

  // An order without the reply-less completion is also one with it.
  lemma NextWider(p: Phase, m: Posted, mute: bool)
    ensures Next(p, m, mute).Some? ==> Next(p, m, true) == Next(p, m, mute)
    ensures Next(p, m, false).Some? ==> Next(p, m, mute) == Next(p, m, false)
  {
  }

  lemma {:induction false} AfterWider(p: Phase, id: nat, up: seq<Up>, mute: bool)
    requires After(p, id, up, mute).Some?
    ensures After(p, id, up, true) == After(p, id, up, mute)
    decreases up
  {
    if up != [] {
      if up[0] == Ack {
        AfterWider(p, id, up[1..], mute);
      } else {
        NextWider(p, up[0].posted, mute);
        AfterWider(Next(p, up[0].posted, mute).value, id, up[1..], mute);
      }
    }
  }

  // Nothing follows the last message.
  lemma {:induction false} AfterOver(id: nat, up: seq<Up>, mute: bool)
    requires After(Over, id, up, mute).Some?
    ensures Quiet(up) && After(Over, id, up, mute) == Some(Over)
    decreases up
  {
    if up != [] {
      if up[0].Note? {
        NothingFollows(up[0].posted, mute);
      }
      AfterOver(id, up[1..], mute);
      assert up == [up[0]] + up[1..];
    }
  }

  lemma NothingFollows(m: Posted, mute: bool)
    ensures Next(Over, m, mute) == None
  {
  }

  lemma {:induction false} AfterQuiet(p: Phase, id: nat, up: seq<Up>, mute: bool)
    requires Quiet(up)
    ensures After(p, id, up, mute) == Some(p)
    decreases up
  {
    if up != [] {
      AfterQuiet(p, id, up[1..], mute);
    }
  }

  // ---- the invariant -----------------------------------------------------------------------------

  predicate Sent(t: Task) {
    match t.job
    case Execution(x) => x.started
    case Preheating(sent) => sent
    case Kept => false
  }

  function PhaseOf(w: Executor): Phase {
    if w.Busy? then w.phase else Over
  }

  // The task agrees with the messages handled so far.
  ghost predicate Told(t: Task, mute: bool) {
    match t.job
    case Preheating(_) => t.seen == Warming
    case Kept => true
    case Execution(x) => Sound(x) && Voiced(x) && !x.finished && Reported(t.seen, x, mute)
  }

  // The flags of the execution match the phase its messages have told.
  ghost predicate Reported(seen: Phase, x: Exec, mute: bool) {
    && seen != Warming
    && (x.executionDone <==> seen == Over)
    && (!x.started ==> seen == Begun)
    && (!mute && seen != Begun && seen != Entered ==> x.response.received || x.cancelled)
  }

  // No work is on its way, under way, or reporting.
  ghost predicate AtRest(s: Slot) {
    s.executor == Resting && Works(s.down) == [] && Quiet(s.up)
  }

  ghost predicate OnTheWay(s: Slot, t: Task) {
    && s.executor == Resting && Works(s.down) == [Work(t.id, t.job.Preheating?)] && Quiet(s.up)
    && t.seen == (if t.job.Preheating? then Warming else Begun)
  }

  ghost predicate UnderWay(s: Slot, t: Task) {
    && s.executor != Silent && (s.executor.Busy? ==> s.executor.id == t.id && s.executor.phase != Over)
    && Works(s.down) == [] && After(t.seen, t.id, s.up, s.log.mute) == Some(PhaseOf(s.executor))
  }

  ghost predicate Linked(s: Slot, t: Task, sent: bool) {
    if sent then OnTheWay(s, t) || UnderWay(s, t) else AtRest(s)
  }

  ghost predicate Coherent(s: Slot) {
    match s.task
    case None => s.gone || AtRest(s)
    case Some(t) => Told(t, s.log.mute) && (s.gone || Linked(s, t, Sent(t)))
  }

  // At most one piece of work is on its way, and then the worker is not at work.
  ghost predicate Single(s: Slot) {
    && s.log.overlaps == 0 && |Works(s.down)| <= 1 && (!s.gone ==> Retire !in s.down)
    && (Works(s.down) != [] ==> !s.executor.Busy?)
  }

  // Over, with its worker returned once, and answered once if there was anything to answer with.
  ghost predicate Concluded(x: Exec) {
    && x.finished && x.tally.answers == (if Spoken(x) then 1 else 0)
    && x.tally.removals == 1 && x.tally.recycles + x.tally.retirements == 1
  }

  ghost predicate Logged(log: Log, closed: seq<Exec>) {
    && (forall i :: 0 <= i < |log.handled| ==> log.handled[i].handler == Some(log.handled[i].from))
    && (forall i :: 0 <= i < |closed| ==> Concluded(closed[i]) && (!log.mute ==> Spoken(closed[i])))
  }

  ghost predicate Faithful(s: Slot) {
    Coherent(s) && Single(s) && Logged(s.log, s.closed) && s.astray == NOBODY
  }

  // ---- what one event does to an execution ---------------------------------------------------------

  // Flags that the slot protocol depends on; `y` follows `x`.
  ghost predicate Frame(x: Exec, y: Exec) {
    && y.started == x.started && y.executionDone == x.executionDone
    && (x.response.received ==> y.response.received) && (x.cancelled ==> y.cancelled)
  }

  ghost predicate Recycles(y: Exec) {
    y.finished && y.tally.retirements == 0 ==> !y.started || y.executionDone
  }

  lemma RetireFrame(x: Exec)
    requires !x.finished && Counted(x)
    ensures var y := RetireWithFailure(x); Frame(x, y) && y.finished && y.tally.retirements == 1 && Recycles(y)
  {
  }

  lemma CompleteFrame(x: Exec)
    requires !x.finished && Counted(x)
    ensures var y := Complete(x); Frame(x, y) && Recycles(y)
  {
  }

  lemma AbandonedFrame(x: Exec)
    requires !x.finished && Counted(x)
    ensures var y := Abandoned(x); Frame(x, y) && !y.finished && Counted(y)
  {
  }

  lemma WithdrawnFrame(x: Exec)
    ensures Frame(x, Withdrawn(x))
  {
  }

  lemma CancelFrame(x: Exec, postFails: bool)
    requires !x.finished && Counted(x)
    ensures var y := RequestCancellation(x, postFails); Frame(x, y) && y.cancelled && Recycles(y)
  {
    hide Abandoned, Withdrawn, Complete, RetireWithFailure;
    var y := x.(cancelled := true, timers := x.timers.(request := false));
    WithdrawnFrame(y);
    AbandonedFrame(y);
    var z := Abandoned(y);
    CompleteFrame(z.(streamDone := true));
    RetireFrame(z);
  }

  lemma ReplyFrame(x: Exec, stream: bool, hasBody: bool, refused: bool, postFails: bool)
    requires !x.finished && Counted(x)
    ensures var y := OnReply(x, stream, hasBody, refused, postFails);
            Frame(x, y) && (y.response.received || y.cancelled) && Recycles(y)
  {
    hide RequestCancellation;
    if !x.cancelled && !x.response.received && refused {
      CancelFrame(x.(response := x.response.(received := true)), postFails);
      CancelFrame(x.(streamDone := false, response := x.response.(received := true, receiver := Closed)), postFails);
    }
  }

  lemma MessageFrame(x: Exec, m: Message, postFails: bool)
    requires !x.finished && Counted(x)
    ensures var y := Step(x, Received(m, postFails));
            && Frame(x.(executionDone := x.executionDone || m.ExecutionComplete?), y) && Recycles(y)
            && (m.Reply? ==> y.response.received || y.cancelled)
  {
    hide Frame, Recycles, OnReply, OnResponseComplete, OnExecutionComplete;
    PlainFrame(x);
    assert x.(executionDone := x.executionDone) == x;
    match m
    case Reply(stream, hasBody, refused) => ReplyFrame(x, stream, hasBody, refused, postFails);
    case ResponseComplete(pending) => ResponseCompleteFrame(x, pending);
    case ExecutionComplete => ExecutionCompleteFrame(x);
    case _ =>
  }

  lemma ResponseCompleteFrame(x: Exec, pending: bool)
    requires !x.finished
    ensures var y := OnResponseComplete(x, pending); Frame(x, y) && Recycles(y)
  {
  }

  lemma ExecutionCompleteFrame(x: Exec)
    requires !x.finished && Counted(x)
    ensures var y := OnExecutionComplete(x); Frame(x.(executionDone := true), y) && Recycles(y)
  {
    hide Complete;
    CompleteFrame(x.(executionDone := true, streamDone := x.streamDone || x.cancelled, timers := x.timers.(wait := false)));
  }

  lemma OwnFrame(x: Exec, e: Event)
    requires Sound(x) && !x.finished && !e.Received?
    ensures var y := Step(x, e); Frame(x.(started := x.started || e == Posted), y) && Recycles(y)
  {
    hide Frame, Recycles, RequestCancellation, RetireWithFailure, OnProducerDone, CloseReceiver, Sound, Recycled,
         ResolveOnce, Cleanup;
    SoundCounts(x);
    PlainFrame(x);
    assert x.(started := x.started) == x;
    match e
    case DeliveryFails(postFails) => if x.response.receiver != Absent { ClosedFrame(x, postFails); }
    case ProducerDone => if x.response.receiver == Open { ProducerDoneFrame(x); }
    case Posted =>
    case StartFailed =>
    case Delivered => ClosedFrame(x, false);
    case _ => DeadlineFrame(x, e);
  }

  // Cancellations, timers and the failure of the worker.
  lemma DeadlineFrame(x: Exec, e: Event)
    requires !x.finished && Counted(x)
    requires e.CancelRequest? || e.TimeoutFires? || e.WaitTimerFires? || e.CancelTimerFires? || e.WorkerFails?
    ensures var y := Step(x, e); Frame(x, y) && Recycles(y)
  {
    PlainFrame(x);
    RetireFrame(x);
    hide Frame, Recycles, RequestCancellation, RetireWithFailure;
    match e
    case CancelRequest(postFails) => CancelFrame(x, postFails);
    case TimeoutFires(postFails) => CancelFrame(x, postFails);
    case _ =>
  }

  // The steps that only set a flag, and the failure to start.
  lemma PlainFrame(x: Exec)
    requires !x.finished
    ensures Frame(x, x) && Recycles(x)
    ensures Frame(x.(started := true), x.(started := true)) && Recycles(x.(started := true))
    ensures var y := Recycled(ResolveOnce(Cleanup(x))); !x.started ==> Frame(x, y) && Recycles(y)
  {
  }

  lemma SoundCounts(x: Exec)
    requires Sound(x)
    ensures Counted(x)
  {
  }

  lemma ProducerDoneFrame(x: Exec)
    requires !x.finished && Counted(x) && x.response.receiver == Open
    ensures var y := OnProducerDone(x); Frame(x, y) && Recycles(y)
  {
    hide Complete;
    CompleteFrame(x.(streamDone := true, response := x.response.(receiver := Draining)));
  }

  lemma ClosedFrame(x: Exec, postFails: bool)
    requires !x.finished && Counted(x)
    ensures Frame(x, CloseReceiver(x)) && Recycles(CloseReceiver(x))
    ensures x.response.receiver != Absent ==>
              && Frame(x, RequestCancellation(CloseReceiver(x), postFails))
              && Recycles(RequestCancellation(CloseReceiver(x), postFails))
  {
    hide RequestCancellation;
    if x.response.receiver != Absent {
      CancelFrame(CloseReceiver(x), postFails);
    }
  }

  // ---- every event keeps the slot faithful ---------------------------------------------------------

  // An execution is answered unless it was completed without a reply.
  lemma ClosedWhenOver(y: Exec, seen: Phase, mute: bool)
    requires Sound(y) && Voiced(y) && y.finished && Reported(seen, y, mute)
    ensures Concluded(y) && (!mute ==> Spoken(y))
  {
    SpokenExactly(y);
  }

  // Once all messages are handled the channels hold nothing of the execution.
  lemma OverIsAtRest(s: Slot, t: Task)
    requires Linked(s, t, true) && t.seen == Over
    ensures AtRest(s)
  {
    AfterOver(t.id, s.up, s.log.mute);
  }

  lemma StillLinked(s: Slot, t: Task, sent: bool, more: seq<Down>)
    requires Works(more) == [] && Linked(s, t, sent)
    ensures Linked(s.(down := s.down + more), t, sent)
  {
    WorksAppend(s.down, more);
  }

  lemma LogClosed(s: Slot, y: Exec)
    requires Logged(s.log, s.closed) && Concluded(y) && (!s.log.mute ==> Spoken(y))
    ensures Logged(s.log, s.closed + [y])
  {
  }

  // What is kept of a slot besides the work itself.
  ghost predicate Orderly(s: Slot) {
    Single(s) && Logged(s.log, s.closed) && s.astray == NOBODY
  }

  lemma SettleFaithful(s: Slot, t: Task, x: Exec, y: Exec)
    requires Orderly(s) && t.job.Execution? && (s.gone || Linked(s, t, x.started))
    requires Sound(y) && Voiced(y) && Recycles(y) && Reported(t.seen, y, s.log.mute)
    requires y.started == x.started || (t.seen == Begun && !y.finished && y.timers.cancel == x.timers.cancel && y.started)
    ensures Faithful(Settle(s, t, x, y))
  {
    var sent := Sending(s, t, x, y);
    if y.finished {
      ClosedWhenOver(y, t.seen, s.log.mute);
      LogClosed(s, y);
      SettleOver(s, t, x, y);
    } else if s.gone {
      assert s.down + sent == s.down;
    } else if y.started == x.started {
      WorksAppend(s.down, sent);
      StillLinked(s, t, x.started, sent);
      LinkedJob(s.(down := s.down + sent), t, Execution(y), x.started);
    } else {
      WorksAppend(s.down, sent);
      assert sent == [Work(t.id, false)];
    }
  }

  lemma SettleOver(s: Slot, t: Task, x: Exec, y: Exec)
    requires Orderly(s) && t.job.Execution? && (s.gone || Linked(s, t, x.started))
    requires y.finished && Recycles(y) && Sound(y) && Reported(t.seen, y, s.log.mute) && y.started == x.started
    requires Logged(s.log, s.closed + [y])
    ensures Faithful(Settle(s, t, x, y))
  {
    assert Sending(s, t, x, y) == [];
    assert s.down + [] == s.down;
    hide Logged;
    if y.tally.retirements > 0 {
      WorksAppend(s.down, [Retire]);
      hide Sending;
    } else if x.started && !s.gone {
      OverIsAtRest(s, t);
      hide Sending;
    }
  }

  lemma LinkedJob(s: Slot, t: Task, job: Job, sent: bool)
    requires Linked(s, t, sent) && t.job.Execution? && job.Execution?
    ensures Linked(s, t.(job := job), sent)
  {
  }

  lemma OwnFaithful(s: Slot, e: Event)
    requires Faithful(s) && s.task.Some? && s.task.value.job.Execution? && !e.Received?
    ensures Faithful(SlotStep(s, Own(e)))
  {
    var t := s.task.value;
    var x := t.job.x;
    TaskIsTold(s);
    StepSound(x, e);
    StepVoiced(x, e);
    OwnReported(x, e, t.seen, s.log.mute);
    hide *;
    SettleFaithful(s, t, x, Step(x, e));
    assert SlotStep(s, Own(e)) == Settle(s, t, x, Step(x, e)) by { OwnStep(s, e); }
  }

  lemma OwnStep(s: Slot, e: Event)
    requires s.task.Some? && s.task.value.job.Execution? && !e.Received?
    ensures SlotStep(s, Own(e)) == Settle(s, s.task.value, s.task.value.job.x, Step(s.task.value.job.x, e))
  {
    hide Step, Settle;
  }

  lemma TaskIsTold(s: Slot)
    requires Faithful(s) && s.task.Some? && s.task.value.job.Execution?
    ensures var t := s.task.value;
            && Orderly(s) && (s.gone || Linked(s, t, t.job.x.started))
            && Sound(t.job.x) && Voiced(t.job.x) && !t.job.x.finished && Reported(t.seen, t.job.x, s.log.mute)
  {
    hide Sound, Voiced, Reported, Linked;
  }

  lemma OwnReported(x: Exec, e: Event, seen: Phase, mute: bool)
    requires Sound(x) && !x.finished && !e.Received? && Reported(seen, x, mute)
    ensures var y := Step(x, e);
            && Reported(seen, y, mute) && Recycles(y)
            && (y.started == x.started || (seen == Begun && !y.finished && y.timers.cancel == x.timers.cancel && y.started))
  {
    OwnFrame(x, e);
    PostedKeepsTimers(x, e);
    hide Step, Sound;
  }

  lemma PostedKeepsTimers(x: Exec, e: Event)
    ensures e == Posted ==> Step(x, e).timers == x.timers && Step(x, e).finished == x.finished
  {
  }

  // The first message from the worker is the next one of the task.
  lemma FirstMessage(s: Slot, t: Task)
    requires Coherent(s) && !s.gone && s.task == Some(t) && s.up != [] && s.up[0].Note?
    ensures Sent(t) && s.up[0].from == t.id && Next(t.seen, s.up[0].posted, s.log.mute).Some?
    ensures UnderWay(s.(up := s.up[1..]), t.(seen := Next(t.seen, s.up[0].posted, s.log.mute).value))
  {
    hide Sound, Voiced, Next;
  }

  lemma AckDropped(s: Slot)
    requires Faithful(s) && s.up != [] && (s.up[0] == Ack || s.gone)
    ensures Faithful(s.(up := s.up[1..]))
  {
    hide Sound, Voiced, Told, Next;
  }

  lemma PhaseReported(p: Phase, m: Message, x: Exec, y: Exec, mute: bool)
    requires Next(p, Of(m), mute).Some? && Reported(p, x, mute)
    requires Frame(x.(executionDone := x.executionDone || m.ExecutionComplete?), y)
    requires m.Reply? ==> y.response.received || y.cancelled
    requires x.started
    ensures Reported(Next(p, Of(m), mute).value, y, mute)
  {
  }

  lemma ExecutionAccepts(s: Slot, t: Task, m: Posted, postFails: bool)
    requires !s.gone && Orderly(s) && t.job.Execution? && t.job.x.started
    requires Told(t, s.log.mute) && Next(t.seen, m, s.log.mute).Some?
    requires UnderWay(s, t.(seen := Next(t.seen, m, s.log.mute).value))
    ensures Faithful(Accept(s, t, m, postFails))
  {
    var x := t.job.x;
    assert m.Of?;
    var y := Step(x, Received(m.message, postFails));
    MessageFrame(x, m.message, postFails) by { SoundCounts(x); }
    StepSound(x, Received(m.message, postFails));
    StepVoiced(x, Received(m.message, postFails));
    PhaseReported(t.seen, m.message, x, y, s.log.mute);
    NextWider(t.seen, m, s.log.mute);
    hide Step, Settle, OnTheWay, UnderWay, AtRest, Single, Logged, Next, Sound, Voiced;
    SettleFaithful(s, t.(seen := Next(t.seen, m, s.log.mute).value), x, y);
  }

  lemma PreheatAccepts(s: Slot, t: Task, m: Posted, postFails: bool)
    requires !s.gone && Orderly(s) && t.job.Preheating? && t.seen == Warming
    requires Next(t.seen, m, s.log.mute).Some? && UnderWay(s, t.(seen := Next(t.seen, m, s.log.mute).value))
    ensures Faithful(Accept(s, t, m, postFails))
  {
    assert m.PreheatReply?;
    if m.ok {
      OverIsAtRest(s, t.(seen := Over));
    } else {
      WorksAppend(s.down, [Retire]);
    }
  }

  lemma LogHandled(s: Slot, id: nat)
    requires Logged(s.log, s.closed)
    ensures Logged(Noted(s, id, Some(id)).log, s.closed)
  {
  }

  lemma ReceiveFaithful(s: Slot, postFails: bool)
    requires Faithful(s) && s.up != []
    ensures Faithful(SlotStep(s, PoolReceives(postFails)))
  {
    hide Accept, Told, AtRest, OnTheWay, Logged, Next, Noted;
    if s.gone || s.up[0] == Ack {
      AckDropped(s);
    } else {
      TaskAwaited(s);
      var t := s.task.value;
      FirstMessage(s, t);
      ReceivedNote(s, t);
      var r := Noted(s.(up := s.up[1..]), t.id, Some(t.id));
      if t.job.Execution? {
        ExecutionAccepts(r, t, s.up[0].posted, postFails);
      } else {
        PreheatSeen(t, s.log.mute);
        PreheatAccepts(r, t, s.up[0].posted, postFails);
      }
    }
  }

  // The message has been taken off the channel and is handled by its own work.
  lemma ReceivedNote(s: Slot, t: Task)
    requires Orderly(s) && s.up != [] && s.up[0].Note? && Next(t.seen, s.up[0].posted, s.log.mute).Some?
    requires UnderWay(s.(up := s.up[1..]), t.(seen := Next(t.seen, s.up[0].posted, s.log.mute).value))
    ensures var r := Noted(s.(up := s.up[1..]), t.id, Some(t.id));
            && Orderly(r) && UnderWay(r, t.(seen := Next(t.seen, s.up[0].posted, s.log.mute).value))
            && r.log.mute == s.log.mute && r.gone == s.gone
  {
    LogHandled(s, t.id);
    hide Next, After, Logged;
  }

  lemma TaskAwaited(s: Slot)
    requires Faithful(s) && s.up != [] && s.up[0].Note? && !s.gone
    ensures s.task.Some? && Told(s.task.value, s.log.mute)
  {
    hide Told;
  }

  lemma PreheatSeen(t: Task, mute: bool)
    requires Told(t, mute) && t.job.Preheating?
    ensures t.seen == Warming
  {
  }

  // ---- the worker's side ---------------------------------------------------------------------------

  lemma LinkedAck(s: Slot, t: Task, sent: bool)
    requires Linked(s, t, sent)
    ensures Linked(s.(up := s.up + [Ack]), t, sent)
  {
    if sent && UnderWay(s, t) {
      AfterAppend(t.seen, t.id, s.up, Ack, s.log.mute);
    }
  }

  lemma CancelConsumed(s: Slot, t: Task, id: nat)
    requires UnderWay(s, t) && s.executor.Busy? && s.executor.id == id && s.executor.phase != Warming
    ensures UnderWay(s.(up := s.up + [Note(id, Of(CancelAck))]), t)
  {
    AfterAppend(t.seen, t.id, s.up, Note(id, Of(CancelAck)), s.log.mute);
  }

  lemma WorkConsumed(s: Slot, t: Task, rest: seq<Down>)
    requires OnTheWay(s, t) && s.down == [Work(t.id, t.job.Preheating?)] + rest
    ensures UnderWay(s.(down := rest, executor := Busy(t.id, if t.job.Preheating? then Warming else Begun)), t)
  {
    assert s.down[1..] == rest;
    AfterQuiet(t.seen, t.id, s.up, s.log.mute);
  }

  lemma Popped(s: Slot)
    requires Faithful(s) && s.down != [] && !s.down[0].Work?
    ensures Faithful(s.(down := s.down[1..]))
  {
    hide Told, Logged, After;
    assert Works(s.down) == Works(s.down[1..]);
  }

  lemma ConsumeFaithful(s: Slot)
    requires Faithful(s) && s.down != []
    ensures Faithful(SlotStep(s, WorkerReceives))
  {
    hide Told, Logged, After, Next;
    var d := s.down[0];
    var r := s.(down := s.down[1..]);
    if d.Work? {
      WorkFaithful(s);
    } else {
      Popped(s);
      match d
      case Control =>
        if s.task.Some? && !s.gone { LinkedAck(r, s.task.value, Sent(s.task.value)); }
      case CancelCurrent(id) =>
        if s.task.Some? && !s.gone && UnderWay(r, s.task.value) && s.executor.Busy? && s.executor.phase != Warming {
          CancelConsumed(r, s.task.value, s.executor.id);
        }
      case Retire =>
    }
  }

  lemma WorkFaithful(s: Slot)
    requires Faithful(s) && s.down != [] && s.down[0].Work?
    ensures Faithful(SlotStep(s, WorkerReceives))
  {
    hide Told, Logged, After, Next;
    assert Works(s.down) == [s.down[0]] + Works(s.down[1..]);
    assert s.down == [s.down[0]] + s.down[1..];
    assert Works(s.down[1..]) == [];
    if !s.gone {
      assert s.task.Some?;
      assert OnTheWay(s, s.task.value);
      assert s.down[0] == Works(s.down)[0];
      WorkConsumed(s, s.task.value, s.down[1..]);
    }
  }

  lemma PostFaithful(s: Slot, m: Posted)
    requires Faithful(s)
    ensures Faithful(SlotStep(s, WorkerPosts(m)))
  {
    hide Told, Logged, Next, Quiet;
    if s.executor.Busy? {
      NextWider(s.executor.phase, m, s.log.mute);
      if !s.gone && s.task.Some? && UnderWay(s, s.task.value) {
        AfterAppend(s.task.value.seen, s.task.value.id, s.up, Note(s.executor.id, m), s.log.mute);
      }
    }
  }

  // From now on an execution may be completed without a reply.
  lemma MuteFaithful(s: Slot)
    requires Faithful(s)
    ensures Faithful(s.(log := s.log.(mute := true)))
  {
    if s.task.Some? && !s.gone && UnderWay(s, s.task.value) {
      AfterWider(s.task.value.seen, s.task.value.id, s.up, s.log.mute);
    }
    hide Quiet, After, Sound, Voiced;
  }

  lemma CatchFaithful(s: Slot, pending: bool)
    requires Faithful(s)
    ensures Faithful(CatchFails(s, pending))
  {
    MuteFaithful(s);
    var r := s.(log := s.log.(mute := true));
    hide Told, Logged, Quiet;
    if s.executor.Busy? && (s.executor.phase == Begun || s.executor.phase == Entered) {
      if !s.gone && s.task.Some? && UnderWay(r, s.task.value) {
        AfterAppend(s.task.value.seen, s.task.value.id, s.up, Note(s.executor.id, Of(ResponseComplete(pending))), true);
      }
    }
  }

  lemma AssignFaithful(s: Slot, preheat: bool)
    requires Faithful(s)
    ensures Faithful(SlotStep(s, if preheat then AssignPreheat else Assign))
  {
    hide Logged, Works, Quiet;
    FreshSound();
  }

  // A reserved worker at rest goes on to the next function, or back to the pool.
  lemma KeptFaithful(s: Slot)
    requires Faithful(s) && !Early(s)
    ensures Faithful(SlotStep(s, NextMember)) && Faithful(SlotStep(s, HandBack))
  {
    hide Logged, Works, Quiet;
  }

  lemma PreheatSentFaithful(s: Slot)
    requires Faithful(s)
    ensures Faithful(SlotStep(s, PreheatSent))
  {
    hide Logged, Quiet, After;
    if s.task.Some? {
      WorksAppend(s.down, [Work(s.task.value.id, true)]);
    }
  }

  lemma VanishFaithful(s: Slot)
    requires Faithful(s)
    ensures Faithful(Vanish(s))
    ensures Faithful(s.(gone := true, down := s.down + [Retire]))
  {
    hide Logged, Quiet, After, Told;
    WorksAppend(s.down, [Retire]);
  }

  lemma ControlFaithful(s: Slot)
    requires Faithful(s) && !s.gone
    ensures Faithful(s.(down := s.down + [Control]))
  {
    hide Logged, Told, Quiet, After;
    WorksAppend(s.down, [Control]);
  }

  lemma SlotStepFaithful(s: Slot, e: SlotEvent)
    requires Faithful(s) && !(e.HandBack? && Early(s))
    ensures Faithful(SlotStep(s, e))
  {
    hide Single, Logged, AtRest, OnTheWay, UnderWay, Told, Vanish, Settle, Deliver, Consume, Post, CatchFails;
    match e
    case Assign => AssignFaithful(s, false);
    case AssignPreheat => AssignFaithful(s, true);
    case NextMember => if !Early(s) { KeptFaithful(s); }
    case HandBack => KeptFaithful(s);
    case Own(event) =>
      if s.task.Some? && s.task.value.job.Execution? && !event.Received? { OwnFaithful(s, event); }
    case PreheatSent => PreheatSentFaithful(s);
    case PreheatFails => VanishFaithful(s);
    case StraySent =>
    case StrayFails =>
    case PostControl => if !s.gone { ControlFaithful(s); }
    case Forget => VanishFaithful(s);
    case PoolReceives(postFails) => if s.up != [] { ReceiveFaithful(s, postFails); }
    case WorkerReceives => if s.down != [] { ConsumeFaithful(s); }
    case WorkerPosts(m) => PostFaithful(s, m);
    case CatchThrows(pending) => CatchFaithful(s, pending);
  }

  lemma {:induction false} SlotRunFaithful(s: Slot, es: seq<SlotEvent>)
    requires Faithful(s) && Timely(s, es)
    ensures Faithful(SlotRun(s, es))
    decreases es
  {
    if es != [] {
      hide SlotStep, Faithful, Early;
      SlotStepFaithful(s, es[0]);
      SlotRunFaithful(SlotStep(s, es[0]), es[1..]);
    }
  }

  lemma SlotReached(es: seq<SlotEvent>)
    requires Timely(EMPTY, es)
    ensures Faithful(SlotRun(EMPTY, es))
  {
    hide SlotStep, SlotRun, Timely;
    SlotRunFaithful(EMPTY, es);
  }

  // ---- the promises ----------------------------------------------------------------------------------

  // Although messages carry no id, each one is handled by the very execution or preheat that caused it, as long
  // as no worker is handed back before its preheat is done.
  lemma MessagesStayWithTheirWork(es: seq<SlotEvent>)
    requires Timely(EMPTY, es)
    ensures forall i :: 0 <= i < |SlotRun(EMPTY, es).log.handled| ==>
              SlotRun(EMPTY, es).log.handled[i].handler == Some(SlotRun(EMPTY, es).log.handled[i].from)
  {
    hide SlotStep, SlotRun, Coherent, Single, Timely;
    SlotReached(es);
  }

  // Then a worker never starts one piece of work while another is under way.
  lemma WorkNeverOverlaps(es: seq<SlotEvent>)
    requires Timely(EMPTY, es)
    ensures SlotRun(EMPTY, es).log.overlaps == 0
  {
    hide SlotStep, SlotRun, Coherent, Logged, Works, Timely;
    SlotReached(es);
  }

  // And a free slot that is still in the pool has a worker at rest and nothing of the past in its channels.
  lemma FreeSlotIsClean(es: seq<SlotEvent>)
    requires Timely(EMPTY, es)
    ensures var s := SlotRun(EMPTY, es);
            !s.gone && s.task == None ==> s.executor == Resting && Works(s.down) == [] && Quiet(s.up) && s.astray == NOBODY
  {
    hide SlotStep, SlotRun, Single, Logged, Timely;
    SlotReached(es);
  }

  // Every finished execution has returned its worker once; it has answered its caller, and that once, exactly when
  // a reply was handled, the caller cancelled, the worker was given up, or the work never reached the worker.
  lemma AnsweredIfSpoken(es: seq<SlotEvent>)
    requires Timely(EMPTY, es)
    ensures forall i :: 0 <= i < |SlotRun(EMPTY, es).closed| ==> Concluded(SlotRun(EMPTY, es).closed[i])
  {
    hide SlotStep, SlotRun, Coherent, Single, Timely;
    SlotReached(es);
  }

  ghost predicate Answered(x: Exec) {
    x.finished && x.tally.answers == 1 && x.tally.removals == 1 && x.tally.recycles + x.tally.retirements == 1
  }

  lemma {:induction false} TextsAreNotMute(s: Slot, es: seq<SlotEvent>)
    requires !s.log.mute && forall e :: e in es ==> !e.CatchThrows?
    ensures !SlotRun(s, es).log.mute
    decreases es
  {
    if es != [] {
      assert es[0] in es && forall e :: e in es[1..] ==> e in es;
      StepIsNotMute(s, es[0]);
      hide SlotStep;
      TextsAreNotMute(SlotStep(s, es[0]), es[1..]);
    }
  }

  lemma StepIsNotMute(s: Slot, e: SlotEvent)
    requires !e.CatchThrows?
    ensures SlotStep(s, e).log.mute == s.log.mute
  {
    hide Step, Next, Sending;
  }

  // If every thrown value has a text, every finished execution has answered its caller exactly once.
  lemma AnsweredExactlyOnce(es: seq<SlotEvent>)
    requires Timely(EMPTY, es) && forall e :: e in es ==> !e.CatchThrows?
    ensures forall i :: 0 <= i < |SlotRun(EMPTY, es).closed| ==> Answered(SlotRun(EMPTY, es).closed[i])
  {
    hide SlotStep, SlotRun, Coherent, Single, Timely;
    SlotReached(es);
    TextsAreNotMute(EMPTY, es);
  }

  // Handing a reserved worker back leaves a slot in order exactly when its preheat is done or the worker gone.
  lemma HandBackExactly(s: Slot)
    requires Faithful(s) && s.task.Some? && !s.task.value.job.Execution?
    ensures Faithful(SlotStep(s, HandBack)) <==> !Early(s)
    ensures Early(s) ==> var t := SlotStep(s, HandBack); t.task == None && !t.gone && t.astray != NOBODY
  {
    if !Early(s) { KeptFaithful(s); }
    hide Coherent, Single, Logged;
  }

  // ---- runs that show it ---------------------------------------------------------------------------------

  // The states of a run, one after the other.
  ghost predicate Trace(es: seq<SlotEvent>, states: seq<Slot>) {
    |states| == |es| + 1 && forall i :: 0 <= i < |es| ==> SlotStep(states[i], es[i]) == states[i + 1]
  }

  lemma {:induction false} TraceEnds(es: seq<SlotEvent>, states: seq<Slot>)
    requires Trace(es, states)
    ensures SlotRun(states[0], es) == states[|es|]
    decreases es
  {
    hide SlotStep;
    if es != [] {
      assert SlotStep(states[0], es[0]) == states[1];
      assert forall i :: 0 <= i < |es[1..]| ==> es[1..][i] == es[i + 1] && states[1..][i] == states[i + 1];
      TraceEnds(es[1..], states[1..]);
    }
  }

  const REPLY := Of(Reply(false, true, false))
  const COMPLETE := Of(ResponseComplete(false))
  const OVER := Of(ExecutionComplete)

  const STARTED := FRESH.(started := true)
  const ASSIGNED := EMPTY.(task := Some(Task(0, Execution(FRESH), Begun)), next := 1)
  const SENT := ASSIGNED.(task := Some(Task(0, Execution(STARTED), Begun)), down := [Work(0, false)])
  const AT_WORK := SENT.(down := [], executor := Busy(0, Begun))

  lemma WorkSent()
    ensures SlotStep(EMPTY, Assign) == ASSIGNED && SlotStep(ASSIGNED, Own(Posted)) == SENT
    ensures SlotStep(SENT, WorkerReceives) == AT_WORK
  {
  }

  // An ordinary execution ends answered, with its worker back.
  const ORDINARY: seq<SlotEvent> := [
    Assign, Own(Posted), WorkerReceives, WorkerPosts(REPLY), WorkerPosts(COMPLETE), WorkerPosts(OVER),
    PoolReceives(false), PoolReceives(false), PoolReceives(false)]

  const REPLIED := Exec(true, false, false, true, false, false,
    Response(true, true, true, Absent), Timers(true, false, false), Tally(0, 0, 0, 0))
  const WAITING := REPLIED.(timers := Timers(false, true, false))
  const DONE := Exec(true, true, true, true, true, false,
    Response(true, false, true, Absent), Timers(false, false, false), Tally(1, 1, 0, 1))

  const REPORTED := AT_WORK.(up := [Note(0, REPLY), Note(0, COMPLETE), Note(0, OVER)], executor := Resting)
  const HEARD_REPLY := REPORTED.(
    task := Some(Task(0, Execution(REPLIED), Replied)), up := [Note(0, COMPLETE), Note(0, OVER)],
    log := Log([Handling(0, Some(0))], 0, false))
  const HEARD_COMPLETE := HEARD_REPLY.(
    task := Some(Task(0, Execution(WAITING), Completing)), up := [Note(0, OVER)],
    log := Log([Handling(0, Some(0)), Handling(0, Some(0))], 0, false))
  const HEARD_OVER := HEARD_COMPLETE.(
    task := None, up := [], closed := [DONE],
    log := Log([Handling(0, Some(0)), Handling(0, Some(0)), Handling(0, Some(0))], 0, false))

  lemma WorkReported()
    ensures var s := SlotStep(AT_WORK, WorkerPosts(REPLY));
            var t := SlotStep(s, WorkerPosts(COMPLETE));
            SlotStep(t, WorkerPosts(OVER)) == REPORTED
  {
  }

  lemma ReplyHeard()
    ensures SlotStep(REPORTED, PoolReceives(false)) == HEARD_REPLY
  {
    assert Step(STARTED, Received(Reply(false, true, false), false)) == REPLIED;
    hide Step;
    assert REPORTED.up[1..] == HEARD_REPLY.up;
  }

  lemma CompletionHeard()
    ensures SlotStep(HEARD_REPLY, PoolReceives(false)) == HEARD_COMPLETE
  {
    assert Step(REPLIED, Received(ResponseComplete(false), false)) == WAITING;
    hide Step;
    assert HEARD_REPLY.up[1..] == HEARD_COMPLETE.up;
  }

  lemma EndHeard()
    ensures SlotStep(HEARD_COMPLETE, PoolReceives(false)) == HEARD_OVER
  {
    assert Step(WAITING, Received(ExecutionComplete, false)) == DONE;
    hide Step;
    assert HEARD_COMPLETE.up[1..] == HEARD_OVER.up;
  }

  lemma ExecutionsDoFinish()
    ensures var s := SlotRun(EMPTY, ORDINARY);
            s.closed == [DONE] && Answered(DONE) && s.task == None && !s.gone && |s.log.handled| == 3
  {
    WorkSent();
    WorkReported();
    ReplyHeard();
    CompletionHeard();
    EndHeard();
    hide SlotStep;
    var s := SlotStep(AT_WORK, WorkerPosts(REPLY));
    var t := SlotStep(s, WorkerPosts(COMPLETE));
    TraceEnds(ORDINARY, [EMPTY, ASSIGNED, SENT, AT_WORK, s, t, REPORTED, HEARD_REPLY, HEARD_COMPLETE, HEARD_OVER]);
  }

  // A handler throws a value without a text: the execution is over, its worker is back, and its caller waits for ever.
  const TEXTLESS: seq<SlotEvent> := [
    Assign, Own(Posted), WorkerReceives, CatchThrows(false), WorkerPosts(OVER), PoolReceives(false), PoolReceives(false)]

  const WORDLESS := STARTED.(timers := Timers(false, true, false))
  const UNHEARD := Exec(true, true, false, true, true, false,
    Response(false, false, false, Absent), Timers(false, false, false), Tally(0, 1, 0, 1))

  const CAUGHT := AT_WORK.(up := [Note(0, COMPLETE)], executor := Busy(0, Completing), log := Log([], 0, true))
  const MUTE := CAUGHT.(up := [Note(0, COMPLETE), Note(0, OVER)], executor := Resting)
  const MUTE_COMPLETE := MUTE.(
    task := Some(Task(0, Execution(WORDLESS), Completing)), up := [Note(0, OVER)], log := Log([Handling(0, Some(0))], 0, true))
  const MUTE_OVER := MUTE_COMPLETE.(
    task := None, up := [], closed := [UNHEARD], log := Log([Handling(0, Some(0)), Handling(0, Some(0))], 0, true))

  lemma NoReplyPosted()
    ensures SlotStep(AT_WORK, CatchThrows(false)) == CAUGHT && SlotStep(CAUGHT, WorkerPosts(OVER)) == MUTE
  {
  }

  lemma WordlessSteps()
    ensures Step(STARTED, Received(ResponseComplete(false), false)) == WORDLESS
    ensures Step(WORDLESS, Received(ExecutionComplete, false)) == UNHEARD
  {
  }

  lemma MuteCompletion()
    ensures SlotStep(MUTE, PoolReceives(false)) == MUTE_COMPLETE
  {
    WordlessSteps();
    hide Step;
    assert MUTE.up[1..] == MUTE_COMPLETE.up;
  }

  lemma MuteEnd()
    ensures SlotStep(MUTE_COMPLETE, PoolReceives(false)) == MUTE_OVER
  {
    WordlessSteps();
    hide Step;
    assert MUTE_COMPLETE.up[1..] == MUTE_OVER.up;
  }

  lemma UnansweredHappens()
    ensures Timely(EMPTY, TEXTLESS)
    ensures var s := SlotRun(EMPTY, TEXTLESS);
            s.closed == [UNHEARD] && s.task == None && !s.gone && UNHEARD.tally == Tally(0, 1, 0, 1)
  {
    WorkSent();
    NoReplyPosted();
    MuteCompletion();
    MuteEnd();
    hide SlotStep;
    NoHandBack(EMPTY, TEXTLESS);
    TraceEnds(TEXTLESS, [EMPTY, ASSIGNED, SENT, AT_WORK, CAUGHT, MUTE, MUTE_COMPLETE, MUTE_OVER]);
  }

  lemma {:induction false} NoHandBack(s: Slot, es: seq<SlotEvent>)
    requires forall e :: e in es ==> !e.HandBack?
    ensures Timely(s, es)
    decreases es
  {
    hide SlotStep, Early;
    if es != [] {
      assert es[0] in es && forall e :: e in es[1..] ==> e in es;
      NoHandBack(SlotStep(s, es[0]), es[1..]);
    }
  }

  // A worker is handed back with a preheat still in preparation. The preheat is posted to the idle worker.
  const LOOSE: seq<SlotEvent> := [AssignPreheat, HandBack, StraySent, WorkerReceives]

  const RESERVED := EMPTY.(task := Some(Task(0, Preheating(false), Warming)), next := 1)
  const HANDED := RESERVED.(task := None, astray := Astray([0], None))
  const LOOSE_SENT := HANDED.(astray := Astray([], Some(0)), down := [Work(0, true)])
  const LOOSE_WORK := LOOSE_SENT.(down := [], executor := Busy(0, Warming))

  lemma HandedTooEarly()
    ensures SlotStep(EMPTY, AssignPreheat) == RESERVED && SlotStep(RESERVED, HandBack) == HANDED
  {
  }

  lemma LoosePreheat()
    ensures SlotStep(HANDED, StraySent) == LOOSE_SENT && SlotStep(LOOSE_SENT, WorkerReceives) == LOOSE_WORK
  {
    assert [0][1..] == [] && [Work(0, true)][1..] == [];
  }

  lemma FreeSlotAtWork()
    ensures var s := SlotRun(EMPTY, LOOSE); s.task == None && !s.gone && s.executor == Busy(0, Warming)
  {
    HandedTooEarly();
    LoosePreheat();
    hide SlotStep;
    TraceEnds(LOOSE, [EMPTY, RESERVED, HANDED, LOOSE_SENT, LOOSE_WORK]);
  }

  // Or the worker starts an execution first: the preheat takes over its handlers, and the reply goes to the preheat
  // and is dropped; then the preheat begins on a worker that is executing.
  const STOLEN: seq<SlotEvent> := [
    AssignPreheat, HandBack, Assign, Own(Posted), WorkerReceives, StraySent, WorkerPosts(REPLY), PoolReceives(false),
    WorkerReceives]

  const REASSIGNED := HANDED.(task := Some(Task(1, Execution(FRESH), Begun)), next := 2)
  const RESENT := REASSIGNED.(task := Some(Task(1, Execution(STARTED), Begun)), down := [Work(1, false)])
  const BUSY := RESENT.(down := [], executor := Busy(1, Begun))
  const TAKEN := BUSY.(astray := Astray([], Some(0)), down := [Work(0, true)])
  const SAID := TAKEN.(up := [Note(1, REPLY)], executor := Busy(1, Replied))
  const DROPPED := SAID.(up := [], log := Log([Handling(1, Some(0))], 0, false))
  const DOUBLED := DROPPED.(down := [], executor := Busy(0, Warming), log := Log([Handling(1, Some(0))], 1, false))

  lemma WorkerGivenOut()
    ensures SlotStep(HANDED, Assign) == REASSIGNED && SlotStep(REASSIGNED, Own(Posted)) == RESENT
    ensures SlotStep(RESENT, WorkerReceives) == BUSY
  {
  }

  lemma PreheatTakesOver()
    ensures SlotStep(BUSY, StraySent) == TAKEN && SlotStep(TAKEN, WorkerPosts(REPLY)) == SAID
  {
    assert [0][1..] == [];
  }

  lemma StolenReply()
    ensures SlotStep(SAID, PoolReceives(false)) == DROPPED
  {
    assert [Note(1, REPLY)][1..] == [];
  }

  lemma WorkDoubled()
    ensures SlotStep(DROPPED, WorkerReceives) == DOUBLED
  {
    assert [Work(0, true)][1..] == [];
  }

  lemma MessagesGoAstray()
    ensures var s := SlotRun(EMPTY, STOLEN);
            && s.log == Log([Handling(1, Some(0))], 1, false)
            && s.task == Some(Task(1, Execution(STARTED), Begun)) && !s.gone
  {
    HandedTooEarly();
    WorkerGivenOut();
    PreheatTakesOver();
    StolenReply();
    WorkDoubled();
    hide SlotStep;
    TraceEnds(STOLEN, [EMPTY, RESERVED, HANDED, REASSIGNED, RESENT, BUSY, TAKEN, SAID, DROPPED, DOUBLED]);
  }
}
