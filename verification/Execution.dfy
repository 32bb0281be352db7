/**
 The closures of one execution in place: the variables that `execute` closes over as fields, and each
 handler as a method that changes them step by step. Every method does exactly what the model's
 function says, so what ExecutionModel proves of runs holds of this object.
 */
module Executions {
  import opened ExecutionModel

  class Execution {
    var started: bool
    var finished: bool
    var resolved: bool
    var streamDone: bool
    var executionDone: bool
    var cancellationRequested: bool
    var response: Response
    var timers: Timers
    ghost var tally: Tally

    ghost function View(): Exec
      reads this
    {
      Exec(started, finished, resolved, streamDone, executionDone, cancellationRequested,
           response, timers, tally)
    }

    constructor ()
      ensures View() == FRESH
    {
      started, finished, resolved, streamDone, executionDone := false, false, false, true, false;
      cancellationRequested := false;
      response := Response(false, false, false, Absent);
      timers := Timers(true, false, false);
      tally := Tally(0, 0, 0, 0);
    }

    method ResolveOnce()
      modifies `resolved, `tally
      ensures View() == ExecutionModel.ResolveOnce(old(View()))
    {
      if resolved { return; }
      resolved := true;
      tally := tally.(answers := tally.answers + 1);
    }

    method Cleanup()
      modifies `finished, `timers, `tally
      ensures View() == ExecutionModel.Cleanup(old(View()))
    {
      finished := true;
      timers := Timers(false, false, false);
      tally := tally.(removals := tally.removals + 1);
    }

    method ReleaseResponse()
      modifies `response
      ensures View() == ExecutionModel.ReleaseResponse(old(View()))
    {
      var failBody := response.failable;
      response := response.(failable := false);
      if failBody && response.receiver != Absent {
        response := response.(receiver := Closed);
      }
    }

    method Recycle()
      modifies `tally
      ensures View() == Recycled(old(View()))
    {
      tally := tally.(recycles := tally.recycles + 1);
    }

    method Retire()
      modifies `tally
      ensures View() == Retired(old(View()))
    {
      tally := tally.(retirements := tally.retirements + 1);
    }

    method RetireWithFailure()
      modifies this
      ensures View() == ExecutionModel.RetireWithFailure(old(View()))
    {
      if finished { return; }
      ReleaseResponse();
      Cleanup();
      ResolveOnce();
      Retire();
    }

    method Complete()
      modifies this
      ensures View() == ExecutionModel.Complete(old(View()))
    {
      if finished || !executionDone || !streamDone { return; }
      Cleanup();
      Recycle();
    }

    // A cancellation before the work was posted.
    method Withdraw()
      modifies this
      ensures View() == Withdrawn(old(View()))
    {
      hide ExecutionModel.Cleanup, ExecutionModel.ResolveOnce, ExecutionModel.ReleaseResponse, Recycled;
      ReleaseResponse();
      Cleanup();
      ResolveOnce();
      Recycle();
    }

    method Abandon()
      modifies `streamDone, `response, `resolved, `tally
      ensures View() == Abandoned(old(View()))
    {
      hide ExecutionModel.ResolveOnce, ExecutionModel.ReleaseResponse;
      ghost var x := View();
      if response.failable { streamDone := true; }
      ReleaseResponse();
      ghost var y := View();
      assert y == ExecutionModel.ReleaseResponse(x.(streamDone := x.streamDone || x.response.failable));
      response := response.(pending := false);
      assert View() == y.(response := y.response.(pending := false));
      ResolveOnce();
    }

    method RequestCancellation(postFails: bool)
      modifies this
      ensures View() == ExecutionModel.RequestCancellation(old(View()), postFails)
    {
      hide Withdrawn, Abandoned, ExecutionModel.Complete, ExecutionModel.RetireWithFailure;
      if finished || cancellationRequested { return; }
      cancellationRequested := true;
      timers := timers.(request := false);
      if !started {
        Withdraw();
        return;
      }
      Abandon();
      if executionDone {
        streamDone := true;
        Complete();
        return;
      }
      if postFails {
        RetireWithFailure();
        return;
      }
      timers := timers.(cancel := true);
    }

    method ResolvePending()
      modifies this
      ensures View() == ExecutionModel.ResolvePending(old(View()))
    {
      if response.pending {
        ResolveOnce();
        response := response.(pending := false);
      }
    }

    method OnStream(refused: bool, postFails: bool)
      modifies this
      ensures View() == ExecutionModel.OnStream(old(View()), refused, postFails)
    {
      hide ExecutionModel.RequestCancellation, ExecutionModel.ResolveOnce;
      streamDone := false;
      response := response.(received := true, receiver := if refused then Closed else Open);
      ghost var y := View();
      if refused { RequestCancellation(postFails); }
      ghost var r := View();
      assert r == if refused then ExecutionModel.RequestCancellation(y, postFails) else y;
      response := response.(failable := true);
      assert View() == r.(response := r.response.(failable := true));
      ResolveOnce();
    }

    method OnBuffer(hasBody: bool, refused: bool, postFails: bool)
      modifies this
      ensures View() == ExecutionModel.OnBuffer(old(View()), hasBody, refused, postFails)
    {
      hide ExecutionModel.RequestCancellation;
      response := response.(received := true);
      if refused {
        RequestCancellation(postFails);
        return;
      }
      if hasBody { response := response.(failable := true); }
      response := response.(pending := true);
    }

    method OnResponseComplete(waitUntilPending: bool)
      modifies this
      ensures View() == ExecutionModel.OnResponseComplete(old(View()), waitUntilPending)
    {
      hide ExecutionModel.ResolvePending;
      if waitUntilPending { ResolvePending(); }
      timers := timers.(request := false);
      timers := timers.(wait := true);
    }

    method OnExecutionComplete()
      modifies this
      ensures View() == ExecutionModel.OnExecutionComplete(old(View()))
    {
      hide ExecutionModel.ResolvePending, ExecutionModel.Complete;
      executionDone := true;
      if cancellationRequested { streamDone := true; }
      timers := timers.(wait := false);
      Complete();
      ResolvePending();
    }

    method OnMessage(m: Message, postFails: bool)
      modifies this
      ensures View() == ExecutionModel.OnMessage(old(View()), m, postFails)
    {
      hide ExecutionModel.OnStream, ExecutionModel.OnBuffer, ExecutionModel.OnResponseComplete,
           ExecutionModel.OnExecutionComplete;
      if finished { return; }
      match m
      case ResponseComplete(waitUntilPending) => OnResponseComplete(waitUntilPending);
      case ExecutionComplete => OnExecutionComplete();
      case Reply(stream, hasBody, refused) =>
        if cancellationRequested || response.received { return; }
        if stream { OnStream(refused, postFails); } else { OnBuffer(hasBody, refused, postFails); }
      case _ =>
    }

    method OnProducerDone()
      modifies this
      ensures View() == ExecutionModel.OnProducerDone(old(View()))
    {
      hide ExecutionModel.Complete;
      response := response.(receiver := Draining);
      streamDone := true;
      Complete();
    }

    // One event of the worker, the caller, a timer, or the body stream.
    method Handle(e: Event)
      modifies this
      ensures View() == Step(old(View()), e)
    {
      hide ExecutionModel.OnMessage, ExecutionModel.RequestCancellation, ExecutionModel.RetireWithFailure,
           ExecutionModel.OnProducerDone, ExecutionModel.Cleanup, ExecutionModel.ResolveOnce, Recycled;
      match e
      case Posted => if !finished { started := true; }
      case StartFailed =>
        if !finished && !started {
          Cleanup();
          ResolveOnce();
          Recycle();
        }
      case Received(m, postFails) => OnMessage(m, postFails);
      case CancelRequest(postFails) => RequestCancellation(postFails);
      case TimeoutFires(postFails) => if timers.request { RequestCancellation(postFails); }
      case WaitTimerFires => if timers.wait { RetireWithFailure(); }
      case CancelTimerFires => if timers.cancel { RetireWithFailure(); }
      case WorkerFails => RetireWithFailure();
      case ProducerDone => if response.receiver == Open { OnProducerDone(); }
      case DeliveryFails(postFails) =>
        if response.receiver == Open || response.receiver == Draining {
          response := response.(receiver := Closed);
          RequestCancellation(postFails);
        }
      case Delivered => if response.receiver == Draining { response := response.(receiver := Closed); }
    }

    // A whole life: whatever events arrive, the worker comes back at most once and is never held
    // without a deadline.
    method HandleAll(events: seq<Event>)
      requires View() == FRESH
      modifies this
      ensures View() == Run(FRESH, events)
      ensures tally.recycles + tally.retirements == (if finished then 1 else 0)
      ensures tally.answers <= 1
      ensures finished || HasDeadline(View())
    {
      ghost var start := View();
      for i := 0 to |events|
        invariant Run(View(), events[i..]) == Run(start, events)
      {
        hide *;
        Handle(events[i]);
      }
      GivenBackOnce(events);
      NeverStuck(events);
    }
  }
}
