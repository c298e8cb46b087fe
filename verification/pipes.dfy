/**
 * The middleware chain: pipes joined into one pipe, closed into a handler by a
 * terminal that fails, plus the tracer and the do-nothing interceptor.
 */
module Pipes {
  import opened Wrappers
  import opened Deferred
  import opened Shapes
  import opened Routing

  const UnhandledMessage: string := "Event unhandled"

  /** A pipe that, on this request, hands the request unchanged to `next` and returns its result. */
  ghost predicate ForwardsOn<S(!new)>(pipe: Pipe<S>, event: RequestBody<S>) {
    forall next: Handler<S> :: pipe(event, next) == next(event)
  }

  /** Every step of a chain forwards this request. */
  ghost predicate AllForward<S(!new)>(steps: seq<Pipe<S>>, event: RequestBody<S>) {
    forall i :: 0 <= i < |steps| ==> ForwardsOn(steps[i], event)
  }

  /** Dropping the head step keeps a chain of forwarders a chain of forwarders. */
  lemma AllForwardTail<S(!new)>(steps: seq<Pipe<S>>)
    requires |steps| > 0
    ensures forall event: RequestBody<S> :: AllForward(steps, event) ==> AllForward(steps[1..], event)
  {
    forall event | AllForward(steps, event)
      ensures AllForward(steps[1..], event)
    {
      forall i | 0 <= i < |steps| - 1
        ensures ForwardsOn(steps[1..][i], event)
      {
        assert steps[1..][i] == steps[i + 1];
      }
    }
  }

  /**
   * The continuation `join` hands to a step: the remaining steps, then the
   * outer `next`. When every remaining step forwards, it is the outer `next`.
   */
  function ProcessNext<S(!new)>(remaining: seq<Pipe<S>>, next: Handler<S>): (r: Handler<S>)
    ensures forall event: RequestBody<S> {:trigger AllForward(remaining, event)} ::
      AllForward(remaining, event) ==> r(event) == next(event)
    decreases |remaining|
  {
    if |remaining| == 0 then
      next
    else
      var rest := ProcessNext(remaining[1..], next);
      AllForwardTail(remaining);
      (event: RequestBody<S>) => remaining[0](event, rest)
  }

  /**
   * `Pipe.join`: the steps run in list order, each wrapping the rest of the
   * chain. Joining nothing forwards, joining one step is that step, and a
   * chain of forwarders forwards.
   */
  function Join<S(!new)>(steps: seq<Pipe<S>>): (r: Pipe<S>)
    ensures |steps| == 0 ==> forall event: RequestBody<S>, next: Handler<S> :: r(event, next) == next(event)
    ensures |steps| == 1 ==> forall event: RequestBody<S>, next: Handler<S> :: r(event, next) == steps[0](event, next)
    ensures forall event: RequestBody<S>, next: Handler<S> {:trigger AllForward(steps, event), r(event, next)} ::
      AllForward(steps, event) ==> r(event, next) == next(event)
  {
    ProcessNextLaws(steps);
    (event: RequestBody<S>, next: Handler<S>) => ProcessNext(steps, next)(event)
  }

  /** The continuation of no steps is the outer `next`, and that of one step is the step before it. */
  lemma ProcessNextLaws<S(!new)>(steps: seq<Pipe<S>>)
    ensures |steps| == 0 ==> forall event: RequestBody<S>, next: Handler<S> :: ProcessNext(steps, next)(event) == next(event)
    ensures |steps| == 1 ==> forall event: RequestBody<S>, next: Handler<S> :: ProcessNext(steps, next)(event) == steps[0](event, next)
    ensures forall event: RequestBody<S>, next: Handler<S> :: AllForward(steps, event) ==> ProcessNext(steps, next)(event) == next(event)
  {
    forall event: RequestBody<S>, next: Handler<S>
      ensures |steps| == 0 ==> ProcessNext(steps, next)(event) == next(event)
      ensures |steps| == 1 ==> ProcessNext(steps, next)(event) == steps[0](event, next)
      ensures AllForward(steps, event) ==> ProcessNext(steps, next)(event) == next(event)
    {
      if |steps| == 1 {
        assert steps[1..] == [];
        assert ProcessNext(steps, next)(event) == steps[0](event, ProcessNext(steps[1..], next));
      }
    }
  }

  /** The terminal `toHandler` closes a chain with: it throws 'Event unhandled' at once, whatever the request. */
  function Unhandled<S(!new)>(): (r: Handler<S>)
    ensures forall event: RequestBody<S> :: r(event).Now? && r(event).value == Err(Error(UnhandledMessage))
  {
    (event: RequestBody<S>) => Now(Err(Error(UnhandledMessage)))
  }

  /** `Pipe.toHandler` (also `Handler.middleware`): a pipe that forwards ends in 'Event unhandled'. */
  function ToHandler<S(!new)>(pipe: Pipe<S>): (r: Handler<S>)
    ensures forall event: RequestBody<S> {:trigger ForwardsOn(pipe, event)} ::
      ForwardsOn(pipe, event) ==> r(event) == Now(Err(Error(UnhandledMessage)))
  {
    ForwarderMeetsTerminal(pipe);
    (event: RequestBody<S>) => pipe(event, Unhandled())
  }

  /** A pipe that forwards hands the request to the terminal, which throws. */
  lemma ForwarderMeetsTerminal<S(!new)>(pipe: Pipe<S>)
    ensures forall event: RequestBody<S> :: ForwardsOn(pipe, event) ==> pipe(event, Unhandled()) == Now(Err(Error(UnhandledMessage)))
  {
    forall event: RequestBody<S> | ForwardsOn(pipe, event)
      ensures pipe(event, Unhandled()) == Now(Err(Error(UnhandledMessage)))
    {
      assert pipe(event, Unhandled()) == Unhandled()(event);
    }
  }

  /** `Pipe.doNothing`: forwards every request. */
  function DoNothing<S(!new)>(): (r: Pipe<S>)
    ensures forall event: RequestBody<S> :: ForwardsOn(r, event)
  {
    (event: RequestBody<S>, next: Handler<S>) => next(event)
  }

  /** `Handler.pipe`: a chain whose every step forwards ends in 'Event unhandled'. */
  function HandlerPipe<S(!new)>(steps: seq<Pipe<S>>): (r: Handler<S>)
    ensures forall event: RequestBody<S> {:trigger AllForward(steps, event)} ::
      AllForward(steps, event) ==> r(event) == Now(Err(Error(UnhandledMessage)))
  {
    JoinForwards(steps);
    ToHandler(Join(steps))
  }

  /** A chain of forwarders, joined, is a forwarder. */
  lemma JoinForwards<S(!new)>(steps: seq<Pipe<S>>)
    ensures forall event: RequestBody<S> :: AllForward(steps, event) ==> ForwardsOn(Join(steps), event)
  {
  }

  /** `Handler.router`: a request no route claims ends in 'Event unhandled'. */
  function HandlerRouter<S(!new)>(routes: Routes<S>): (r: Handler<S>)
    ensures forall event: RequestBody<S> {:trigger Unclaimed(routes, event.request)} ::
      Unclaimed(routes, event.request) ==> r(event) == Now(Err(Error(UnhandledMessage)))
  {
    RouterForwardsUnclaimed(routes);
    ToHandler(Router(routes))
  }

  /** The router forwards every request it does not claim. */
  lemma RouterForwardsUnclaimed<S(!new)>(routes: Routes<S>)
    ensures forall event: RequestBody<S> :: Unclaimed(routes, event.request) ==> ForwardsOn(Router(routes), event)
  {
  }

  // ------------------------------------------------------------------ tracer

  /** What the tracer hands its logger alongside each message. */
  datatype Payload<S> = RequestLogged(request: RequestBody<S>) | ReplyLogged(reply: Reply<S>) | ErrorLogged(error: Error)

  /** One call of the injected logger. */
  datatype LogEntry<S> = LogEntry(message: string, payload: Payload<S>)

  /**
   * `Pipe.tracer` with its logger calls collected as a trace: the request, then
   * the response or the error once the rest of the chain has settled. A failure
   * is logged and raised again, the same way round (thrown or rejected).
   */
  function Trace<S>(event: RequestBody<S>, next: Handler<S>): (r: (seq<LogEntry<S>>, Eval<Reply<S>>))
    ensures r.1 == next(event)
    ensures |r.0| == 2 && r.0[0] == LogEntry("Request:", RequestLogged(event))
    ensures next(event).value.Ok? ==> r.0[1] == LogEntry("Response:", ReplyLogged(next(event).value.value))
    ensures next(event).value.Err? ==> r.0[1] == LogEntry("Error:", ErrorLogged(next(event).value.error))
  {
    var requestLog := [LogEntry("Request:", RequestLogged(event))];
    match next(event)
    case Now(Ok(response)) =>
      (requestLog + [LogEntry("Response:", ReplyLogged(response))], Now(Ok(response)))
    case Now(Err(error)) =>
      (requestLog + [LogEntry("Error:", ErrorLogged(error))], Now(Err(error)))
    case Later(Ok(response)) =>
      (requestLog + [LogEntry("Response:", ReplyLogged(response))], Later(Ok(response)))
    case Later(Err(error)) =>
      (requestLog + [LogEntry("Error:", ErrorLogged(error))], Later(Err(error)))
  }

  /** The tracer as a pipe: what it returns, with the logging set aside. It forwards every request. */
  function Tracer<S(!new)>(): (r: Pipe<S>)
    ensures forall event: RequestBody<S> :: ForwardsOn(r, event)
  {
    (event: RequestBody<S>, next: Handler<S>) => Trace(event, next).1
  }

  // ------------------------------------------------------------------ lemmas

  /** The tracer and the do-nothing pipe forward every request. */
  lemma TracerAndDoNothingForward<S(!new)>(event: RequestBody<S>)
    ensures ForwardsOn(Tracer(), event)
    ensures ForwardsOn(DoNothing(), event)
  {
  }

  /** Forwarding steps at the head of a chain are transparent: the chain behaves as its tail. */
  lemma {:induction false} SkipForwarders<S(!new)>(steps: seq<Pipe<S>>, k: nat, event: RequestBody<S>, next: Handler<S>)
    requires k <= |steps|
    requires forall i :: 0 <= i < k ==> ForwardsOn(steps[i], event)
    ensures ProcessNext(steps, next)(event) == ProcessNext(steps[k..], next)(event)
    decreases k
  {
    if k > 0 {
      var rest := steps[1..];
      assert ForwardsOn(steps[0], event);
      assert ProcessNext(steps, next)(event) == ProcessNext(rest, next)(event);
      forall i | 0 <= i < k - 1
        ensures ForwardsOn(rest[i], event)
      {
        assert rest[i] == steps[i + 1];
      }
      SkipForwarders(rest, k - 1, event, next);
      assert rest[k - 1..] == steps[k..];
    }
  }

  /**
   * `join` runs the steps in list order: past the forwarding steps, step `k`
   * receives the request with a `next` that runs the steps after it and then the
   * outer `next`. Stated for leading steps that pass the same request on; a step
   * that rewrites the request before calling `next` is not covered.
   */
  lemma JoinRunsInOrder<S(!new)>(steps: seq<Pipe<S>>, k: nat, event: RequestBody<S>, next: Handler<S>)
    requires k < |steps|
    requires forall i :: 0 <= i < k ==> ForwardsOn(steps[i], event)
    ensures Join(steps)(event, next) == steps[k](event, ProcessNext(steps[k + 1..], next))
  {
    SkipForwarders(steps, k, event, next);
    assert steps[k..][1..] == steps[k + 1..];
  }

  /**
   * A step that answers without calling `next` ends the chain: its answer is the
   * chain's answer, whatever the later steps and the outer `next` would do.
   * Stated for leading steps that pass the same request on unchanged.
   */
  lemma ShortCircuit<S(!new)>(steps: seq<Pipe<S>>, k: nat, event: RequestBody<S>, answer: Eval<Reply<S>>)
    requires k < |steps|
    requires forall i :: 0 <= i < k ==> ForwardsOn(steps[i], event)
    requires forall next: Handler<S> :: steps[k](event, next) == answer
    ensures forall next: Handler<S> :: Join(steps)(event, next) == answer
  {
    forall next: Handler<S>
      ensures Join(steps)(event, next) == answer
    {
      JoinRunsInOrder(steps, k, event, next);
    }
  }

  /** When every step forwards, the joined chain hands the request to the outer `next`. */
  lemma JoinReachesNext<S(!new)>(steps: seq<Pipe<S>>, event: RequestBody<S>, next: Handler<S>)
    requires forall i :: 0 <= i < |steps| ==> ForwardsOn(steps[i], event)
    ensures Join(steps)(event, next) == next(event)
  {
    SkipForwarders(steps, |steps|, event, next);
  }

  /** Closed by `Handler.pipe`, a chain of forwarding steps fails with 'Event unhandled'. */
  lemma AllForwardUnhandled<S(!new)>(steps: seq<Pipe<S>>, event: RequestBody<S>)
    requires forall i :: 0 <= i < |steps| ==> ForwardsOn(steps[i], event)
    ensures HandlerPipe(steps)(event) == Now(Err(Error(UnhandledMessage)))
  {
    JoinReachesNext(steps, event, Unhandled());
  }
}
