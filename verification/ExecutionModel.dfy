/**
 One execution of a Function as the pool sees it: the flags and timers that `execute` closes over,
 and what each of the racing events does to them.
 */
module ExecutionModel {
  // The receiver of a streamed body: absent, open, drained by its producer, or closed.
  datatype Receiver = Absent | Open | Draining | Closed

  // The response as far as the pool holds it. `failable`: it can still be failed (`failStream`).
  datatype Response = Response(received: bool, pending: bool, failable: bool, receiver: Receiver)

  datatype Timers = Timers(request: bool, wait: bool, cancel: bool)

  // How often the execution has answered its caller, returned its worker, and left `inFlight`.
  datatype Tally = Tally(answers: nat, recycles: nat, retirements: nat, removals: nat)

  datatype Exec = Exec(
    started: bool, finished: bool, resolved: bool, streamDone: bool, executionDone: bool, cancelled: bool,
    response: Response, timers: Timers, tally: Tally)

  // `refused`: the response cannot be taken (no buffer budget, or its stream fails at once).
  datatype Message =
    | ExecutionStarted
    | Reply(stream: bool, hasBody: bool, refused: bool)
    | ResponseComplete(waitUntilPending: bool)
    | WaitUntilDone
    | ExecutionComplete
    | CancelAck
    | InvalidateDone

  // `postFails`: the worker's port throws when the cancellation is posted to it.
  datatype Event =
    | Posted
    | StartFailed
    | Received(message: Message, postFails: bool)
    | CancelRequest(postFails: bool)
    | TimeoutFires(postFails: bool)
    | WaitTimerFires
    | CancelTimerFires
    | WorkerFails                      // an error or the exit of the worker
    | ProducerDone
    | DeliveryFails(postFails: bool)   // idle timeout, closed port, stream error, or consumer cancel
    | Delivered

  const FRESH := Exec(false, false, false, true, false, false, Response(false, false, false, Absent),
    Timers(true, false, false), Tally(0, 0, 0, 0))

  // The steps shared by several events, each as one record update.
  function ResolveOnce(x: Exec): Exec {
    x.(resolved := true, tally := x.tally.(answers := if x.resolved then x.tally.answers else x.tally.answers + 1))
  }

  function Cleanup(x: Exec): Exec {
    x.(finished := true, timers := Timers(false, false, false), tally := x.tally.(removals := x.tally.removals + 1))
  }

  function ReleaseResponse(x: Exec): Exec {
    var r := x.response;
    x.(response := r.(failable := false, receiver := if r.failable && r.receiver != Absent then Closed else r.receiver))
  }

  function Recycled(x: Exec): Exec {
    x.(tally := x.tally.(recycles := x.tally.recycles + 1))
  }

  function Retired(x: Exec): Exec {
    x.(tally := x.tally.(retirements := x.tally.retirements + 1))
  }

  function RetireWithFailure(x: Exec): Exec {
    if x.finished then x else Retired(ResolveOnce(Cleanup(ReleaseResponse(x))))
  }

  function Complete(x: Exec): Exec {
    if x.finished || !x.executionDone || !x.streamDone then x else Recycled(Cleanup(x))
  }

  // A cancellation before the work was posted: the worker was never touched.
  function Withdrawn(x: Exec): Exec {
    Recycled(ResolveOnce(Cleanup(ReleaseResponse(x))))
  }

  // The caller is answered and the response given up, while the worker is still running.
  function Abandoned(x: Exec): Exec {
    var y := ReleaseResponse(x.(streamDone := x.streamDone || x.response.failable));
    ResolveOnce(y.(response := y.response.(pending := false)))
  }

  function RequestCancellation(x: Exec, postFails: bool): Exec {
    if x.finished || x.cancelled then x
    else
      var y := x.(cancelled := true, timers := x.timers.(request := false));
      if !y.started then Withdrawn(y)
      else
        var z := Abandoned(y);
        if z.executionDone then Complete(z.(streamDone := true))
        else if postFails then RetireWithFailure(z)
        else z.(timers := z.timers.(cancel := true))
  }

  function ResolvePending(x: Exec): Exec {
    if x.response.pending then ResolveOnce(x).(response := x.response.(pending := false)) else x
  }

  function OnStream(x: Exec, refused: bool, postFails: bool): Exec {
    var y := x.(streamDone := false, response := x.response.(received := true, receiver := if refused then Closed else Open));
    var r := if refused then RequestCancellation(y, postFails) else y;
    ResolveOnce(r.(response := r.response.(failable := true)))
  }

  function OnBuffer(x: Exec, hasBody: bool, refused: bool, postFails: bool): Exec {
    if refused then RequestCancellation(x.(response := x.response.(received := true)), postFails)
    else x.(response := x.response.(received := true, pending := true, failable := x.response.failable || hasBody))
  }

  function OnReply(x: Exec, stream: bool, hasBody: bool, refused: bool, postFails: bool): Exec {
    if x.cancelled || x.response.received then x
    else if stream then OnStream(x, refused, postFails)
    else OnBuffer(x, hasBody, refused, postFails)
  }

  function OnResponseComplete(x: Exec, waitUntilPending: bool): Exec {
    var y := if waitUntilPending then ResolvePending(x) else x;
    y.(timers := y.timers.(request := false, wait := true))
  }

  function OnExecutionComplete(x: Exec): Exec {
    ResolvePending(Complete(x.(executionDone := true, streamDone := x.streamDone || x.cancelled,
                               timers := x.timers.(wait := false))))
  }

  function OnMessage(x: Exec, m: Message, postFails: bool): Exec {
    if x.finished then x
    else
      match m
      case ResponseComplete(pending) => OnResponseComplete(x, pending)
      case ExecutionComplete => OnExecutionComplete(x)
      case Reply(stream, hasBody, refused) => OnReply(x, stream, hasBody, refused, postFails)
      case _ => x
  }

  function OnProducerDone(x: Exec): Exec {
    Complete(x.(streamDone := true, response := x.response.(receiver := Draining)))
  }

  function CloseReceiver(x: Exec): Exec {
    x.(response := x.response.(receiver := Closed))
  }

  function Step(x: Exec, e: Event): Exec {
    match e
    case Posted => if x.finished then x else x.(started := true)
    case StartFailed => if x.finished || x.started then x else Recycled(ResolveOnce(Cleanup(x)))
    case Received(m, postFails) => OnMessage(x, m, postFails)
    case CancelRequest(postFails) => RequestCancellation(x, postFails)
    case TimeoutFires(postFails) => if x.timers.request then RequestCancellation(x, postFails) else x
    case WaitTimerFires => if x.timers.wait then RetireWithFailure(x) else x
    case CancelTimerFires => if x.timers.cancel then RetireWithFailure(x) else x
    case WorkerFails => RetireWithFailure(x)
    case ProducerDone => if x.response.receiver == Open then OnProducerDone(x) else x
    case DeliveryFails(postFails) =>
      if x.response.receiver == Open || x.response.receiver == Draining then RequestCancellation(CloseReceiver(x), postFails)
      else x
    case Delivered => if x.response.receiver == Draining then CloseReceiver(x) else x
  }

  function Run(x: Exec, es: seq<Event>): Exec
    decreases es
  {
    if es == [] then x else Run(Step(x, es[0]), es[1..])
  }

  // ---- what every event keeps ----------------------------------------------------------------

  // The timers that will end an unfinished execution if nothing else does.
  predicate HasDeadline(x: Exec) {
    x.timers.request || x.timers.wait || x.timers.cancel || (x.executionDone && x.response.receiver == Open)
  }

  // Given back at most once and answered at most once, before and after it is finished.
  ghost predicate Counted(x: Exec) {
    && x.tally.answers == (if x.resolved then 1 else 0)
    && x.tally.removals == x.tally.recycles + x.tally.retirements == (if x.finished then 1 else 0)
    && (x.response.receiver != Absent ==> x.response.received)
  }

  ghost predicate Ended(x: Exec) {
    && x.timers == Timers(false, false, false)
    && (x.response.received || x.cancelled || !x.executionDone ==> x.resolved)
  }

  ghost predicate Going(x: Exec) {
    && HasDeadline(x)
    && (x.cancelled ==> x.started && x.resolved && x.timers.cancel && !x.timers.request && !x.executionDone)
    && (!x.streamDone ==> x.response.receiver == Open || x.cancelled)
    && (x.executionDone ==> !x.streamDone)
    && (x.response.received ==> x.resolved || (x.response.pending && x.response.receiver == Absent))
  }

  ghost predicate Sound(x: Exec) {
    Counted(x) && if x.finished then Ended(x) else Going(x)
  }

  // What an event may not undo.
  ghost predicate Keeps(x: Exec, y: Exec) {
    && (x.finished ==> y.finished && y.tally.recycles == x.tally.recycles && y.tally.retirements == x.tally.retirements)
    && (x.resolved ==> y.resolved)
  }

  lemma Unchanged(x: Exec)
    ensures Keeps(x, x)
  {
  }

  lemma FreshSound()
    ensures Sound(FRESH)
  {
  }

  lemma RetireSound(x: Exec)
    requires Counted(x) && (x.finished ==> Ended(x))
    ensures Sound(RetireWithFailure(x)) && Keeps(x, RetireWithFailure(x)) && RetireWithFailure(x).finished
  {
  }

  lemma WithdrawnSound(x: Exec)
    requires Counted(x) && !x.finished
    ensures Sound(Withdrawn(x)) && Keeps(x, Withdrawn(x)) && Withdrawn(x).finished && Withdrawn(x).resolved
  {
  }

  lemma AbandonedEffect(x: Exec)
    requires Counted(x) && !x.finished && x.cancelled
    ensures var z := Abandoned(x);
            && Counted(z) && !z.finished && z.resolved && z.cancelled && !z.response.pending
            && z.started == x.started && z.executionDone == x.executionDone && z.timers == x.timers
  {
  }

  lemma CompleteSound(x: Exec)
    requires Counted(x) && !x.finished && x.resolved && x.executionDone && x.streamDone
    ensures Sound(Complete(x)) && Complete(x).finished && Complete(x).resolved
  {
  }

  // A cancellation of a running execution answers the caller, and ends it or arms the cancel timer.
  lemma CancelSound(x: Exec, postFails: bool)
    requires Counted(x) && !x.finished && !x.cancelled
    ensures var y := RequestCancellation(x, postFails);
            Sound(y) && y.resolved && (y.finished || y.timers.cancel)
  {
    hide Abandoned, Complete, RetireWithFailure, Withdrawn;
    var y := x.(cancelled := true, timers := x.timers.(request := false));
    if !x.started {
      WithdrawnSound(y);
    } else {
      AbandonedEffect(y);
      var z := Abandoned(y);
      if z.executionDone {
        CompleteSound(z.(streamDone := true));
      } else if postFails {
        RetireSound(z);
      }
    }
  }

  lemma CancelRequestSound(x: Exec, postFails: bool)
    requires Sound(x)
    ensures var y := RequestCancellation(x, postFails); Sound(y) && Keeps(x, y)
  {
    hide Counted, Going, Ended;
    if !x.finished && !x.cancelled {
      CancelSound(x, postFails);
    }
  }

  // ---- replies ---------------------------------------------------------------------------------

  lemma StreamSound(x: Exec, refused: bool, postFails: bool)
    requires Sound(x) && !x.finished && !x.cancelled && !x.response.received
    ensures var y := OnStream(x, refused, postFails); Sound(y) && Keeps(x, y)
  {
    hide RequestCancellation;
    if refused {
      CancelSound(x.(streamDone := false, response := x.response.(received := true, receiver := Closed)), postFails);
    }
  }

  lemma BufferSound(x: Exec, hasBody: bool, refused: bool, postFails: bool)
    requires Sound(x) && !x.finished && !x.cancelled && !x.response.received
    ensures var y := OnBuffer(x, hasBody, refused, postFails); Sound(y) && Keeps(x, y)
  {
    hide RequestCancellation;
    if refused {
      CancelSound(x.(response := x.response.(received := true)), postFails);
    }
  }

  lemma ResponseCompleteSound(x: Exec, pending: bool)
    requires Sound(x) && !x.finished
    ensures var y := OnResponseComplete(x, pending); Sound(y) && Keeps(x, y)
  {
  }

  lemma ExecutionCompleteSound(x: Exec)
    requires Sound(x) && !x.finished
    ensures var y := OnExecutionComplete(x); Sound(y) && Keeps(x, y)
  {
  }

  lemma MessageSound(x: Exec, m: Message, postFails: bool)
    requires Sound(x)
    ensures var y := OnMessage(x, m, postFails); Sound(y) && Keeps(x, y)
  {
    hide Sound, Keeps, OnStream, OnBuffer, OnResponseComplete, OnExecutionComplete;
    Unchanged(x);
    if !x.finished {
      match m
      case Reply(stream, hasBody, refused) =>
        if !x.cancelled && !x.response.received {
          StreamSound(x, refused, postFails);
          BufferSound(x, hasBody, refused, postFails);
        }
      case ResponseComplete(pending) => ResponseCompleteSound(x, pending);
      case ExecutionComplete => ExecutionCompleteSound(x);
      case _ =>
    }
  }

  // ---- timers, failures, and the body stream ---------------------------------------------------

  lemma StartSound(x: Exec, e: Event)
    requires Sound(x) && (e == Posted || e == StartFailed)
    ensures var y := Step(x, e); Sound(y) && Keeps(x, y)
  {
    hide OnMessage, RequestCancellation, RetireWithFailure, OnProducerDone;
  }

  lemma ProducerDoneSound(x: Exec)
    requires Sound(x) && x.response.receiver == Open
    ensures var y := OnProducerDone(x); Sound(y) && Keeps(x, y)
  {
  }

  lemma DeliveredSound(x: Exec)
    requires Sound(x) && x.response.receiver == Draining
    ensures Sound(CloseReceiver(x)) && Keeps(x, CloseReceiver(x))
  {
  }

  lemma DeliveryFailsSound(x: Exec, postFails: bool)
    requires Sound(x) && x.response.receiver != Absent
    ensures var y := RequestCancellation(CloseReceiver(x), postFails); Sound(y) && Keeps(x, y)
  {
    hide Abandoned, Withdrawn, Complete, RetireWithFailure;
    if !x.finished && !x.cancelled {
      CancelSound(CloseReceiver(x), postFails);
    }
  }

  lemma StepSound(x: Exec, e: Event)
    requires Sound(x)
    ensures Sound(Step(x, e)) && Keeps(x, Step(x, e))
  {
    hide Counted, Ended, Going, Keeps, OnMessage, RequestCancellation, RetireWithFailure, OnProducerDone, CloseReceiver;
    Unchanged(x);
    match e
    case Received(m, postFails) => MessageSound(x, m, postFails);
    case CancelRequest(postFails) => CancelRequestSound(x, postFails);
    case TimeoutFires(postFails) => CancelRequestSound(x, postFails);
    case DeliveryFails(postFails) =>
      if x.response.receiver != Absent {
        DeliveryFailsSound(x, postFails);
      }
    case ProducerDone =>
      if x.response.receiver == Open {
        ProducerDoneSound(x);
      }
    case Delivered =>
      if x.response.receiver == Draining {
        DeliveredSound(x);
      }
    case Posted => StartSound(x, e);
    case StartFailed => StartSound(x, e);
    case _ => RetireSound(x);
  }

  lemma {:induction false} RunSound(x: Exec, es: seq<Event>)
    requires Sound(x)
    ensures Sound(Run(x, es))
    decreases es
  {
    if es != [] {
      hide Step, Sound;
      StepSound(x, es[0]);
      RunSound(Step(x, es[0]), es[1..]);
    }
  }

  lemma RunFresh(es: seq<Event>)
    ensures Sound(Run(FRESH, es))
  {
    hide Run, Step;
    FreshSound();
    RunSound(FRESH, es);
  }

  // ---- the promises ------------------------------------------------------------------------------

  // Whatever the order of events, a worker is given back at most once, by recycling or by retirement
  // but not both; exactly when that happens the execution leaves `inFlight`; the caller is answered
  // at most once.
  lemma GivenBackOnce(es: seq<Event>)
    ensures var x := Run(FRESH, es);
            && x.tally.recycles + x.tally.retirements == (if x.finished then 1 else 0)
            && x.tally.removals == x.tally.recycles + x.tally.retirements
            && x.tally.answers <= 1
  {
    hide Run, Step, Going, Ended;
    RunFresh(es);
  }

  // An unfinished execution always has a running deadline.
  lemma NeverStuck(es: seq<Event>)
    ensures var x := Run(FRESH, es); x.finished || HasDeadline(x)
  {
    hide Run, Step, Counted, Ended;
    RunFresh(es);
  }

  // The deadline that is due next.
  function DeadlineEvent(x: Exec): Event {
    if x.timers.cancel then CancelTimerFires
    else if x.timers.wait then WaitTimerFires
    else if x.timers.request then TimeoutFires(false)
    else DeliveryFails(false)
  }

  lemma FirstDeadline(x: Exec)
    requires Sound(x) && !x.finished
    ensures var y := Step(x, DeadlineEvent(x)); Sound(y) && (y.finished || y.timers.cancel)
  {
    hide OnMessage, RequestCancellation, RetireWithFailure, OnProducerDone;
    if x.timers.cancel || x.timers.wait {
      RetireSound(x);
    } else if x.timers.request {
      CancelSound(x, false);
    } else {
      CancelSound(CloseReceiver(x), false);
    }
  }

  // Two deadlines in a row end any execution: the first cancels it at least, the second retires it.
  lemma DeadlinesEnd(es: seq<Event>)
    ensures var x := Run(FRESH, es);
            var y := Step(x, DeadlineEvent(x));
            x.finished || y.finished || Step(y, DeadlineEvent(y)).finished
  {
    hide Run, Going, Counted, Ended, OnMessage, RequestCancellation, RetireWithFailure, OnProducerDone;
    RunFresh(es);
    var x := Run(FRESH, es);
    if !x.finished {
      FirstDeadline(x);
      RetireEnds(Step(x, DeadlineEvent(x)));
    }
  }

  lemma RetireEnds(x: Exec)
    ensures RetireWithFailure(x).finished
  {
  }

  // A finished execution that never answered its caller was completed without any reply message.
  lemma UnansweredMeansNoReply(es: seq<Event>)
    ensures var x := Run(FRESH, es);
            x.finished && x.tally.answers == 0 ==> !x.response.received && !x.cancelled && x.executionDone
  {
    hide Run, Step, Going;
    RunFresh(es);
  }

  // ---- who is answered -------------------------------------------------------------------------------

  // A reply was handled, or the caller cancelled, or the worker was given up, or never got the work.
  predicate Spoken(x: Exec) {
    x.response.received || x.cancelled || x.tally.retirements > 0 || !x.started
  }

  // Nothing but these answers the caller.
  ghost predicate Voiced(x: Exec) {
    && (x.response.pending ==> x.response.received)
    && (x.tally.retirements > 0 ==> x.resolved)
    && (x.resolved ==> x.response.received || x.cancelled || x.tally.retirements > 0 || (x.finished && !x.started))
  }

  lemma CancelVoiced(x: Exec, postFails: bool)
    requires Voiced(x)
    ensures Voiced(RequestCancellation(x, postFails))
  {
  }

  lemma ReplyVoiced(x: Exec, stream: bool, hasBody: bool, refused: bool, postFails: bool)
    requires Voiced(x) && !x.finished
    ensures Voiced(OnReply(x, stream, hasBody, refused, postFails))
  {
    hide RequestCancellation;
    var y := x.(response := x.response.(received := true));
    CancelVoiced(y, postFails);
    CancelVoiced(x.(streamDone := false, response := x.response.(received := true, receiver := Closed)), postFails);
    CancelKeepsReply(y, postFails);
    CancelKeepsReply(x.(streamDone := false, response := x.response.(received := true, receiver := Closed)), postFails);
  }

  lemma CancelKeepsReply(x: Exec, postFails: bool)
    requires x.response.received
    ensures RequestCancellation(x, postFails).response.received
  {
  }

  lemma MessageVoiced(x: Exec, m: Message, postFails: bool)
    requires Voiced(x)
    ensures Voiced(OnMessage(x, m, postFails))
  {
    if m.Reply? && !x.finished {
      ReplyVoiced(x, m.stream, m.hasBody, m.refused, postFails);
    }
    hide OnReply;
  }

  lemma StepVoiced(x: Exec, e: Event)
    requires Voiced(x)
    ensures Voiced(Step(x, e))
  {
    hide OnMessage, RequestCancellation;
    match e
    case Received(m, postFails) => MessageVoiced(x, m, postFails);
    case CancelRequest(postFails) => CancelVoiced(x, postFails);
    case TimeoutFires(postFails) => CancelVoiced(x, postFails);
    case DeliveryFails(postFails) => CancelVoiced(CloseReceiver(x), postFails);
    case _ =>
  }

  // Once an execution is over: it was answered, and that once, exactly for one of the causes.
  lemma SpokenExactly(x: Exec)
    requires Sound(x) && Voiced(x) && x.finished && (x.executionDone ==> x.started)
    ensures x.tally.answers == if Spoken(x) then 1 else 0
  {
  }

  // ---- how a worker comes back -----------------------------------------------------------------------

  // The causes for which a worker may be given up.
  predicate Fails(e: Event) {
    || e.WorkerFails? || e.WaitTimerFires? || e.CancelTimerFires?
    || (e.Received? && e.postFails) || (e.CancelRequest? && e.postFails)
    || (e.TimeoutFires? && e.postFails) || (e.DeliveryFails? && e.postFails)
  }

  lemma CancelTally(x: Exec, postFails: bool)
    requires !postFails || x.finished
    ensures RequestCancellation(x, postFails).tally.retirements == x.tally.retirements
  {
  }

  lemma ReplyTally(x: Exec, stream: bool, hasBody: bool, refused: bool)
    ensures OnReply(x, stream, hasBody, refused, false).tally.retirements == x.tally.retirements
  {
    hide RequestCancellation;
    CancelTally(x.(response := x.response.(received := true)), false);
    CancelTally(x.(streamDone := false, response := x.response.(received := true, receiver := Closed)), false);
  }

  // A worker is retired only for a failure, a missed deadline, or a port that refuses the cancellation.
  lemma RetiredOnlyForFailure(x: Exec, e: Event)
    requires !Fails(e)
    ensures Step(x, e).tally.retirements == x.tally.retirements
  {
    hide RequestCancellation, OnReply, ReleaseResponse, RetireWithFailure;
    match e
    case Received(m, _) => if m.Reply? { ReplyTally(x, m.stream, m.hasBody, m.refused); }
    case CancelRequest(_) => CancelTally(x, false);
    case TimeoutFires(_) => CancelTally(x, false);
    case DeliveryFails(_) => CancelTally(CloseReceiver(x), false);
    case _ =>
  }

  // A failure of the worker retires it, unless the execution is finished already.
  lemma FailureRetires(x: Exec)
    requires Sound(x) && !x.finished
    ensures var y := Step(x, WorkerFails);
            y.finished && y.tally.retirements == 1 && y.tally.recycles == 0 && y.resolved
  {
  }

  // ---- when a worker comes back ------------------------------------------------------------------------

  // Whatever is cancelled or over has no open receiver, and has been recycled only when it was done; a reply that
  // is held has not been answered, nor has one that has not come.
  ghost predicate Stowed(x: Exec) {
    && (x.response.receiver == Open ==> x.response.failable)
    && (x.cancelled || (x.started && x.finished) ==> x.response.receiver != Open)
    && (x.started && x.tally.recycles > 0 ==> x.executionDone && (x.cancelled || x.streamDone))
    && (x.response.pending ==> x.response.received)
    && (!x.finished && (x.response.pending || (!x.cancelled && !x.response.received)) ==> !x.resolved)
    && (!x.finished ==> x.tally.recycles == 0 && x.tally.retirements == 0)
  }

  // Nothing was cancelled, the worker was not given up, and it had begun if it is over.
  predicate Undisturbed(x: Exec) {
    !x.cancelled && x.tally.retirements == 0 && (x.started || !x.finished)
  }

  // While nothing has gone wrong the stream is over exactly if its receiver is not open.
  ghost predicate Streamed(x: Exec) {
    && Stowed(x)
    && (Undisturbed(x) ==> (x.streamDone <==> x.response.receiver != Open))
  }

  lemma CancelStreamed(x: Exec, postFails: bool)
    requires Stowed(x) && (x.finished || x.cancelled ==> Streamed(x))
    ensures Streamed(RequestCancellation(x, postFails))
  {
  }

  lemma ReplyStreamed(x: Exec, stream: bool, hasBody: bool, refused: bool, postFails: bool)
    requires Streamed(x) && Sound(x) && !x.finished
    ensures Streamed(OnReply(x, stream, hasBody, refused, postFails))
  {
  }

  lemma MessageStreamed(x: Exec, m: Message, postFails: bool)
    requires Streamed(x) && Sound(x)
    ensures Streamed(OnMessage(x, m, postFails))
  {
    if m.Reply? && !x.finished {
      ReplyStreamed(x, m.stream, m.hasBody, m.refused, postFails);
    }
    hide OnReply;
  }

  lemma StepStreamed(x: Exec, e: Event)
    requires Streamed(x) && Sound(x)
    ensures Streamed(Step(x, e))
  {
    hide OnMessage, RequestCancellation;
    match e
    case Received(m, postFails) => MessageStreamed(x, m, postFails);
    case CancelRequest(postFails) => CancelStreamed(x, postFails);
    case TimeoutFires(postFails) => CancelStreamed(x, postFails);
    case DeliveryFails(postFails) =>
      if x.response.receiver == Open || x.response.receiver == Draining { CancelStreamed(CloseReceiver(x), postFails); }
    case _ =>
  }

  lemma {:induction false} RunStreamed(x: Exec, es: seq<Event>)
    requires Streamed(x) && Sound(x)
    ensures Streamed(Run(x, es))
    decreases es
  {
    if es != [] {
      hide Step, Sound, Streamed;
      StepSound(x, es[0]);
      StepStreamed(x, es[0]);
      RunStreamed(Step(x, es[0]), es[1..]);
    }
  }

  lemma FreshStreamed(es: seq<Event>)
    ensures Streamed(Run(FRESH, es))
  {
    FreshSound();
    assert Streamed(FRESH);
    hide Run, Step, Sound, Streamed;
    RunStreamed(FRESH, es);
  }

  // A worker that had begun comes back for more work only when its execution is done and nothing is streamed any
  // more: the receiver has been closed by a cancellation, or there was no stream, or its producer is done.
  lemma RecycledAfterStream(es: seq<Event>)
    ensures var x := Run(FRESH, es);
            x.started && x.tally.recycles > 0 ==> x.executionDone && x.response.receiver != Open
  {
    hide Run, Step, Going, Ended;
    RunFresh(es);
    FreshStreamed(es);
  }

  // And then it does come back: an execution that is done, and whose receiver is not open, is over.
  lemma DoneIsOver(es: seq<Event>)
    ensures var x := Run(FRESH, es);
            x.executionDone && !x.cancelled && x.response.receiver != Open ==> x.finished
  {
    hide Run, Step, Counted, Ended;
    RunFresh(es);
    FreshStreamed(es);
  }

  // No stream is left open by an execution that is over or cancelled.
  lemma NoStreamLeftOpen(es: seq<Event>)
    ensures var x := Run(FRESH, es); x.cancelled || (x.started && x.finished) ==> x.response.receiver != Open
  {
    hide Run, Step, Sound;
    RunFresh(es);
    FreshStreamed(es);
  }

  lemma RunLast(x: Exec, es: seq<Event>)
    requires es != []
    ensures Run(x, es) == Step(Run(x, es[..|es| - 1]), es[|es| - 1])
    decreases es
  {
    hide Step;
    if |es| == 1 {
      assert es[1..] == [] && es[..0] == [];
    } else {
      assert es[1..][..|es| - 2] == es[..|es| - 1][1..];
      RunLast(Step(x, es[0]), es[1..]);
    }
  }

  lemma OneMore(es: seq<Event>, e: Event)
    ensures Run(FRESH, es + [e]) == Step(Run(FRESH, es), e)
  {
    hide Step;
    RunLast(FRESH, es + [e]);
    assert (es + [e])[..|es|] == es;
  }

  lemma CancelEnds(x: Exec, postFails: bool)
    ensures var y := RequestCancellation(x, postFails);
            (x.finished || y.cancelled) && (x.response.receiver == Closed ==> y.response.receiver == Closed)
  {
  }

  // A delivered response needs its receiver no longer, and a delivery that fails cancels what it was delivering.
  lemma DeliveryEnds(es: seq<Event>, e: Event)
    requires e.Delivered? || e.DeliveryFails?
    ensures var x, y := Run(FRESH, es), Run(FRESH, es + [e]);
            && y.response.receiver != Draining
            && (e.Delivered? ==> y == x.(response := x.response.(receiver := y.response.receiver)))
            && (e.DeliveryFails? && (x.response.receiver == Open || x.response.receiver == Draining) ==>
                  y.response.receiver == Closed && (y.cancelled || x.finished))
  {
    hide RequestCancellation, Run, OnMessage;
    OneMore(es, e);
    if e.DeliveryFails? { CancelEnds(CloseReceiver(Run(FRESH, es)), e.postFails); }
  }

  // Work that cannot be started is over at once: its caller is answered, and its worker, which never saw it, is
  // given back. Work that has been posted or is over stays as it was.
  lemma StartFailureEnds(es: seq<Event>)
    ensures var x, y := Run(FRESH, es), Run(FRESH, es + [StartFailed]);
            && (x.started || x.finished ==> y == x)
            && (!x.started && !x.finished ==> y.finished && y.tally.recycles == 1 && y.tally.answers == 1)
  {
    hide Run, OnMessage, RequestCancellation, Going, Ended;
    OneMore(es, StartFailed);
    RunFresh(es);
  }

  predicate IsStream(e: Event) {
    e.Received? && e.message.Reply? && e.message.stream
  }

  ghost predicate StreamBegan(es: seq<Event>) {
    exists i :: 0 <= i < |es| && IsStream(es[i])
  }

  ghost predicate ProducerEnded(es: seq<Event>) {
    exists i, j :: 0 <= i < j < |es| && IsStream(es[i]) && es[j] == ProducerDone
  }

  ghost predicate Traced(x: Exec, es: seq<Event>) {
    && (x.response.receiver != Absent ==> StreamBegan(es))
    && (x.response.receiver == Draining || (Undisturbed(x) && x.response.receiver == Closed) ==> ProducerEnded(es))
  }

  // How the receiver can change.
  ghost predicate ReceiverMoves(x: Exec, y: Exec, e: Event) {
    var r, s := x.response.receiver, y.response.receiver;
    && (r == Absent && s != Absent ==> IsStream(e))
    && (s == Draining && r != Draining ==> r == Open && e == ProducerDone)
    && (Undisturbed(y) && s == Closed ==> r == Draining || (Undisturbed(x) && r == Closed))
  }

  // A cancellation leaves nothing undisturbed, unless it comes too late.
  lemma CancelMoves(x: Exec, postFails: bool)
    ensures var y := RequestCancellation(x, postFails);
            && (x.response.receiver == Absent <==> y.response.receiver == Absent)
            && (y.response.receiver == Draining ==> x.response.receiver == Draining)
            && (Undisturbed(y) ==> y == x)
  {
  }

  lemma ReplyMoves(x: Exec, e: Event)
    requires Sound(x) && Streamed(x) && !x.finished && e.Received? && e.message.Reply?
    ensures ReceiverMoves(x, Step(x, e), e)
  {
    var m := e.message;
    var y := x.(streamDone := false, response := x.response.(received := true, receiver := if m.refused then Closed else Open));
    CancelMoves(y, e.postFails);
    CancelMoves(x.(response := x.response.(received := true)), e.postFails);
    hide RequestCancellation, Going, Ended;
  }

  lemma ReceiverSteps(x: Exec, e: Event)
    requires Sound(x) && Streamed(x)
    ensures ReceiverMoves(x, Step(x, e), e)
  {
    if e.Received? && e.message.Reply? && !x.finished {
      ReplyMoves(x, e);
    } else {
      if e.CancelRequest? || e.TimeoutFires? {
        CancelMoves(x, e.postFails);
      } else if e.DeliveryFails? {
        CancelMoves(CloseReceiver(x), e.postFails);
      }
      hide RequestCancellation, OnReply, Sound;
    }
  }

  lemma Longer(es: seq<Event>, e: Event)
    ensures StreamBegan(es) || IsStream(e) ==> StreamBegan(es + [e])
    ensures ProducerEnded(es) || (StreamBegan(es) && e == ProducerDone) ==> ProducerEnded(es + [e])
  {
    var all := es + [e];
    assert all[|es|] == e && forall i :: 0 <= i < |es| ==> all[i] == es[i];
    if ProducerEnded(es) {
      var i, j :| 0 <= i < j < |es| && IsStream(es[i]) && es[j] == ProducerDone;
      assert all[i] == es[i] && all[j] == es[j];
    }
  }

  lemma {:induction false} ReceiverTraced(es: seq<Event>)
    ensures Traced(Run(FRESH, es), es)
    decreases |es|
  {
    if es != [] {
      var front, e := es[..|es| - 1], es[|es| - 1];
      assert es == front + [e];
      ReceiverTraced(front);
      RunFresh(front);
      FreshStreamed(front);
      RunLast(FRESH, es);
      ReceiverSteps(Run(FRESH, front), e);
      Longer(front, e);
      hide Run, Step, Sound, Streamed, StreamBegan, ProducerEnded, Undisturbed;
    }
  }

  // A worker whose execution has streamed, and was neither cancelled nor given up, comes back only after the
  // producer has reported the end of the stream that the reply began.
  lemma RecycledAfterProducer(es: seq<Event>)
    ensures var x := Run(FRESH, es);
            x.started && Undisturbed(x) && x.tally.recycles > 0 && x.response.receiver != Absent ==> ProducerEnded(es)
  {
    hide Run, Step, ProducerEnded, StreamBegan, Going, Ended, Counted;
    RecycledAfterStream(es);
    ReceiverTraced(es);
  }

  // ---- when a reply reaches the caller ------------------------------------------------------------------

  // A buffered reply is held until the worker says that tasks are still pending, or until the execution is over
  // or cancelled; nothing else answers the caller, and nothing else delays the answer.
  lemma HeldReplyAnswered(es: seq<Event>, e: Event)
    ensures var x := Run(FRESH, es);
            var y := Step(x, e);
            !x.finished && x.response.pending ==>
              (y.resolved <==> y.finished || y.cancelled || (e.Received? && e.message == ResponseComplete(true)))
  {
    hide Run;
    RunFresh(es);
    FreshStreamed(es);
    if !Run(FRESH, es).finished && Run(FRESH, es).response.pending { HeldStep(Run(FRESH, es), e); }
    hide Step, Sound, Streamed;
  }

  lemma HeldStep(x: Exec, e: Event)
    requires Sound(x) && Streamed(x) && !x.finished && x.response.pending
    ensures var y := Step(x, e);
            y.resolved <==> y.finished || y.cancelled || (e.Received? && e.message == ResponseComplete(true))
  {
    StepSound(x, e);
    hide Counted;
  }

  // The first reply of a running execution is handed on at once if it is streamed or cannot be taken, and held
  // otherwise.
  lemma FirstReplyTaken(es: seq<Event>, stream: bool, hasBody: bool, refused: bool)
    ensures var x := Run(FRESH, es);
            var y := Step(x, Received(Reply(stream, hasBody, refused), false));
            !x.finished && !x.cancelled && !x.response.received ==>
              && !x.resolved && y.response.received && (y.resolved <==> stream || refused)
              && (y.response.pending <==> !stream && !refused)
  {
    hide Run;
    RunFresh(es);
    FreshStreamed(es);
    var x := Run(FRESH, es);
    if !x.finished && !x.cancelled && !x.response.received { ReplyStep(x, stream, hasBody, refused); }
    hide Step, Sound, Streamed;
  }

  lemma ReplyStep(x: Exec, stream: bool, hasBody: bool, refused: bool)
    requires Sound(x) && Streamed(x) && !x.finished && !x.cancelled && !x.response.received
    ensures var y := Step(x, Received(Reply(stream, hasBody, refused), false));
            && !x.resolved && y.response.received && (y.resolved <==> stream || refused)
            && (y.response.pending <==> !stream && !refused)
  {
    hide Counted;
  }

  // ---- which deadlines run --------------------------------------------------------------------------------

  predicate IsResponseComplete(e: Event) {
    e.Received? && e.message.ResponseComplete?
  }

  predicate IsExecutionComplete(e: Event) {
    e.Received? && e.message.ExecutionComplete?
  }

  ghost predicate ResponseEnded(es: seq<Event>) {
    exists i :: 0 <= i < |es| && IsResponseComplete(es[i])
  }

  // The response has ended, and the execution has not ended since.
  ghost predicate TasksAwaited(es: seq<Event>) {
    exists i :: 0 <= i < |es| && IsResponseComplete(es[i]) && forall j :: i < j < |es| ==> !IsExecutionComplete(es[j])
  }

  // From `x` to `y`, which goes on.
  ghost predicate TimersMove(x: Exec, y: Exec, e: Event) {
    && (y.timers.request <==> x.timers.request && !IsResponseComplete(e) && !y.cancelled)
    && (y.timers.wait <==> IsResponseComplete(e) || (x.timers.wait && !IsExecutionComplete(e)))
    && (y.timers.cancel <==> y.cancelled)
  }

  lemma CancelTimers(x: Exec, postFails: bool)
    ensures var y := RequestCancellation(x, postFails);
            !y.finished ==> !x.finished && y.cancelled && (x.cancelled ==> y == x)
                            && (!x.cancelled ==> y.timers == Timers(false, x.timers.wait, true))
  {
  }

  lemma ReplyTimers(x: Exec, stream: bool, hasBody: bool, refused: bool, postFails: bool)
    requires !x.finished && (x.timers.cancel <==> x.cancelled) && (x.cancelled ==> !x.timers.request)
    ensures var y := OnReply(x, stream, hasBody, refused, postFails);
            !y.finished ==> y.timers.wait == x.timers.wait && (y.timers.cancel <==> y.cancelled)
                            && (y.timers.request <==> x.timers.request && !y.cancelled)
  {
    CancelTimers(x.(response := x.response.(received := true)), postFails);
    CancelTimers(x.(streamDone := false, response := x.response.(received := true, receiver := Closed)), postFails);
    hide RequestCancellation;
  }

  // The timers of a running execution agree with its cancellation.
  predicate TimersAgree(x: Exec) {
    !x.finished && (x.timers.cancel <==> x.cancelled) && (x.cancelled ==> !x.timers.request)
  }

  lemma MessageTimers(x: Exec, m: Message, postFails: bool)
    requires TimersAgree(x) && !OnMessage(x, m, postFails).finished
    ensures TimersMove(x, OnMessage(x, m, postFails), Received(m, postFails))
  {
    hide OnReply;
    if m.Reply? { ReplyTimers(x, m.stream, m.hasBody, m.refused, postFails); }
  }

  lemma OtherTimers(x: Exec, e: Event)
    requires TimersAgree(x) && !Step(x, e).finished && !e.Received?
    ensures TimersMove(x, Step(x, e), e)
  {
    hide RequestCancellation, OnMessage, ReleaseResponse;
    if e.CancelRequest? || e.TimeoutFires? { CancelTimers(x, e.postFails); }
    if e.DeliveryFails? { CancelTimers(CloseReceiver(x), e.postFails); }
  }

  // What an event makes of the timers of an execution that goes on.
  lemma TimerSteps(x: Exec, e: Event)
    requires Sound(x) && !Step(x, e).finished && (x.timers.cancel ==> x.cancelled)
    ensures !x.finished && TimersMove(x, Step(x, e), e)
  {
    EndedStays(x, e);
    AgreeWhileGoing(x);
    hide Sound, OnMessage, TimersMove;
    if e.Received? { MessageTimers(x, e.message, e.postFails); } else { OtherTimers(x, e); }
  }

  lemma AgreeWhileGoing(x: Exec)
    requires Sound(x) && (x.timers.cancel ==> x.cancelled)
    ensures !x.finished ==> TimersAgree(x)
  {
  }

  lemma LongerTimers(es: seq<Event>, e: Event)
    ensures ResponseEnded(es + [e]) <==> ResponseEnded(es) || IsResponseComplete(e)
    ensures TasksAwaited(es + [e]) <==> IsResponseComplete(e) || (TasksAwaited(es) && !IsExecutionComplete(e))
  {
    var all := es + [e];
    assert all[|es|] == e && forall i :: 0 <= i < |es| ==> all[i] == es[i];
    if TasksAwaited(all) && !IsResponseComplete(e) {
      var i :| 0 <= i < |all| && IsResponseComplete(all[i]) && forall j :: i < j < |all| ==> !IsExecutionComplete(all[j]);
      assert IsResponseComplete(es[i]) && forall j :: i < j < |es| ==> !IsExecutionComplete(es[j]);
    }
    if TasksAwaited(es) && !IsExecutionComplete(e) {
      var i :| 0 <= i < |es| && IsResponseComplete(es[i]) && forall j :: i < j < |es| ==> !IsExecutionComplete(es[j]);
      assert IsResponseComplete(all[i]) && forall j :: i < j < |all| ==> !IsExecutionComplete(all[j]);
    }
  }

  // While an execution goes on, its request deadline runs until the response has ended, the deadline for its tasks
  // from then until the execution has ended, and the cancel deadline once it is cancelled, in place of the first.
  lemma {:induction false} DeadlinesExactly(es: seq<Event>)
    ensures var x := Run(FRESH, es);
            !x.finished ==>
              && (x.timers.request <==> !ResponseEnded(es) && !x.cancelled)
              && (x.timers.wait <==> TasksAwaited(es)) && (x.timers.cancel <==> x.cancelled)
    decreases |es|
  {
    if es != [] {
      var front, e := es[..|es| - 1], es[|es| - 1];
      assert es == front + [e];
      DeadlinesExactly(front);
      RunFresh(front);
      RunLast(FRESH, es);
      var x := Run(FRESH, front);
      EndedStays(x, e);
      if !Step(x, e).finished {
        TimerSteps(x, e);
        NoUncancel(x, e);
      }
      LongerTimers(front, e);
      hide Run, Step, Sound, ResponseEnded, TasksAwaited;
    }
  }

  lemma EndedStays(x: Exec, e: Event)
    requires Sound(x)
    ensures x.finished ==> Step(x, e).finished
  {
    StepSound(x, e);
    hide Step, Sound;
  }

  lemma NoUncancel(x: Exec, e: Event)
    ensures x.cancelled ==> Step(x, e).cancelled
  {
    hide OnReply;
    if e.Received? && e.message.Reply? {
      ReplyCancels(x, e.message.stream, e.message.hasBody, e.message.refused, e.postFails);
    }
  }

  lemma ReplyCancels(x: Exec, stream: bool, hasBody: bool, refused: bool, postFails: bool)
    ensures x.cancelled ==> OnReply(x, stream, hasBody, refused, postFails) == x
  {
    hide OnStream, OnBuffer;
  }
}
