/**
 * The send/retry core shared by every gateway (internal/gateway/base_gateway.go).
 *
 * The serializer, the transport and the context are oracles: the serde is a pair of
 * functions, the transport answers the n-th send of one sendWithRetry call, and the
 * context reports, for the wait after attempt n, whether the backoff timer elapsed
 * or the context was done first. `Send` is the straight-line pipeline; `SendWithRetry`
 * is the retry loop, proved equal to the recursive specification `RetryFrom`, about
 * which the lemmas below state what the loop guarantees.
 */
module Gateway {
  import opened Wrappers
  import opened Bytes
  import opened ErrorChain

  /** `ErrGatewayUnavailable`, declared in internal/gateway/gateway.go. */
  const ErrGatewayUnavailable: Error := Leaf("gateway unavailable")

  /** serde.Serde: encodes a request and decodes a response. */
  datatype Serde<!Req, Res> = Serde(serialize: Req -> Result<Bytes, Error>, deserialize: Bytes -> Result<Res, Error>)

  /**
   * protocol.Handler: `exchange(n, payload)` is the reply to the n-th send; a
   * successful reply may be a nil payload (None), which differs from an empty one.
   */
  datatype Protocol = Protocol(exchange: (nat, Bytes) -> Result<Option<Bytes>, Error>)

  /** backoff.RetryConfig; `nextBackoff` is the strategy's NextBackoff, in nanoseconds. */
  datatype RetryConfig = RetryConfig(maxRetries: int, nextBackoff: int -> int)

  /** baseGateway; None for the serde or the handler is a nil interface value. */
  datatype BaseGateway<!Req, Res> = BaseGateway(
    name: string,
    serde: Option<Serde<Req, Res>>,
    protocol: Option<Protocol>,
    retry: RetryConfig)

  /** The stages of one send, in the only order in which they can run. */
  datatype Stage = Serialize | Transport | Deserialize

  const Pipeline: seq<Stage> := [Serialize, Transport, Deserialize]

  /** The outcome of one send and the stages it ran. */
  datatype Sent<Res> = Sent(result: Result<Res, Error>, stages: seq<Stage>)

  // ---------------------------------------------------------------------------
  // send
  // ---------------------------------------------------------------------------

  /** `send`, as the n-th send of its retry loop. */
  function Send<Req, Res>(g: BaseGateway<Req, Res>, data: Req, n: nat): (s: Sent<Res>)
    ensures s.stages <= Pipeline
    ensures s.result.Success? ==> s.stages == Pipeline
  {
    if g.serde.None? then Sent(Failure(Leaf("data format is not initialized")), [])
    else if g.protocol.None? then Sent(Failure(Leaf("protocol handler is not initialized")), [])
    else
      match g.serde.value.serialize(data)
      case Failure(e) => Sent(Failure(Wrap("error marshaling data", e)), [Serialize])
      case Success(buf) =>
        match g.protocol.value.exchange(n, buf)
        case Failure(e) => Sent(Failure(Wrap("error sending data", e)), [Serialize, Transport])
        case Success(None) => Sent(Failure(Leaf("received nil response")), [Serialize, Transport])
        case Success(Some(response)) =>
          match g.serde.value.deserialize(response)
          case Failure(e) => Sent(Failure(Wrap("error unmarshaling response", e)), Pipeline)
          case Success(result) => Sent(Success(result), Pipeline)
  }

  /**
   * The configuration checks come first and consult nothing: a nil serde wins over a
   * nil handler, and the transport runs only after a successful serialization.
   */
  lemma SendChecksInOrder<Req, Res>(g: BaseGateway<Req, Res>, data: Req, n: nat)
    ensures g.serde.None? ==>
      Send(g, data, n) == Sent(Failure(Leaf("data format is not initialized")), [])
    ensures g.serde.Some? && g.protocol.None? ==>
      Send(g, data, n) == Sent(Failure(Leaf("protocol handler is not initialized")), [])
    ensures Transport in Send(g, data, n).stages <==>
      g.serde.Some? && g.protocol.Some? && g.serde.value.serialize(data).Success?
    ensures g.serde.Some? && g.protocol.Some? && g.serde.value.serialize(data).Failure? ==>
      Send(g, data, n).result == Failure(Wrap("error marshaling data", g.serde.value.serialize(data).error))
  {
  }

  /**
   * The send succeeds exactly when every stage does and the transport returned a
   * non-nil payload; its value is then the decoded response.
   */
  lemma SendSucceedsIff<Req, Res>(g: BaseGateway<Req, Res>, data: Req, n: nat)
    ensures Send(g, data, n).result.Success? <==>
      && g.serde.Some? && g.protocol.Some?
      && g.serde.value.serialize(data).Success?
      && var reply := g.protocol.value.exchange(n, g.serde.value.serialize(data).value);
         && reply.Success? && reply.value.Some?
         && g.serde.value.deserialize(reply.value.value).Success?
    ensures Send(g, data, n).result.Success? ==>
      var reply := g.protocol.value.exchange(n, g.serde.value.serialize(data).value);
      Send(g, data, n).result.value == g.serde.value.deserialize(reply.value.value).value
  {
  }

  /**
   * A failed transport round trip is reported as "error sending data" wrapping the
   * transport's error, so `errors.Is` still finds every error of the cause's chain;
   * a nil payload is "received nil response" instead.
   */
  lemma SendKeepsTransportCause<Req, Res>(g: BaseGateway<Req, Res>, data: Req, n: nat, target: Error)
    requires g.serde.Some? && g.protocol.Some? && g.serde.value.serialize(data).Success?
    ensures var reply := g.protocol.value.exchange(n, g.serde.value.serialize(data).value);
      && (reply.Failure? ==>
            Send(g, data, n).result == Failure(Wrap("error sending data", reply.error))
            && (Is(reply.error, target) ==> Is(Send(g, data, n).result.error, target)))
      && (reply.Success? && reply.value.None? ==>
            Send(g, data, n).result == Failure(Leaf("received nil response")))
      && (reply.Success? && reply.value.Some? && g.serde.value.deserialize(reply.value.value).Failure? ==>
            Send(g, data, n).result == Failure(Wrap("error unmarshaling response", g.serde.value.deserialize(reply.value.value).error)))
  {
  }

  /** `Name()`: the configured name, or "unnamed gateway" when none was configured. */
  function Name<Req, Res>(g: BaseGateway<Req, Res>): (n: string)
    ensures n != ""
    ensures g.name != "" ==> n == g.name
    ensures g.name == "" ==> n == "unnamed gateway"
  {
    if g.name == "" then "unnamed gateway" else g.name
  }

  // ---------------------------------------------------------------------------
  // sendWithRetry
  // ---------------------------------------------------------------------------

  /** What the select between `ctx.Done()` and the backoff timer saw. */
  datatype Wait = Elapsed | CtxDone(deadline: bool)

  /** `ctx.Err()` of a done context. */
  function CtxErr(deadline: bool): (e: Error)
    ensures Is(e, DeadlineExceeded) || Is(e, Canceled)
  {
    if deadline then DeadlineExceeded else Canceled
  }

  /**
   * The retry loop's classification: a send error aborts the loop when its chain holds
   * a cancellation or deadline, unless it also holds ErrGatewayUnavailable, whose
   * branch is tested first and only logs.
   */
  predicate Aborts(e: Error) {
    !Is(e, ErrGatewayUnavailable) && (Is(e, DeadlineExceeded) || Is(e, Canceled))
  }

  /** The loop's fall-through error, wrapping the last send error (nil before any). */
  function AllRetriesFailed(last: Option<Error>): Error {
    match last
    case None => WrapNil("all retries failed, last error")
    case Some(e) => Wrap("all retries failed, last error", e)
  }

  /** One call of sendWithRetry: its result, how many sends it made, the waits it began. */
  datatype Run<Res> = Run(result: Result<Res, Error>, sends: nat, waits: seq<int>)

  /** A run preceded by `sends` earlier sends and the waits `waits`. */
  function After<Res>(waits: seq<int>, sends: nat, run: Run<Res>): Run<Res> {
    Run(run.result, sends + run.sends, waits + run.waits)
  }

  /** The loop from iteration `attempt` on, with `last` the error of the previous send. */
  function RetryFrom<Req, Res>(g: BaseGateway<Req, Res>, data: Req, ctx: nat -> Wait, attempt: nat, last: Option<Error>): Run<Res>
    decreases g.retry.maxRetries + 1 - attempt
  {
    if attempt > g.retry.maxRetries then Run(Failure(AllRetriesFailed(last)), 0, [])
    else
      var s := Send(g, data, attempt).result;
      if s.Success? then Run(s, 1, [])
      else if Aborts(s.error) then Run(Failure(Wrap("operation cancelled or timed out", s.error)), 1, [])
      else if attempt == g.retry.maxRetries then Run(Failure(Wrap("max retries reached, last error", s.error)), 1, [])
      else
        var d := g.retry.nextBackoff(attempt);
        match ctx(attempt)
        case CtxDone(deadline) => Run(Failure(Wrap("context cancelled", CtxErr(deadline))), 1, [d])
        case Elapsed => After([d], 1, RetryFrom(g, data, ctx, attempt + 1, Some(s.error)))
  }

  /** One iteration of the retry loop, in each of its cases. */
  lemma RetryStep<Req, Res>(g: BaseGateway<Req, Res>, data: Req, ctx: nat -> Wait, attempt: nat, last: Option<Error>)
    requires attempt <= g.retry.maxRetries
    ensures var s := Send(g, data, attempt).result;
      var run := RetryFrom(g, data, ctx, attempt, last);
      var d := g.retry.nextBackoff(attempt);
      && (s.Success? ==> run == Run(s, 1, []))
      && (s.Failure? && Aborts(s.error) ==> run == Run(Failure(Wrap("operation cancelled or timed out", s.error)), 1, []))
      && (s.Failure? && !Aborts(s.error) && attempt == g.retry.maxRetries ==>
            run == Run(Failure(Wrap("max retries reached, last error", s.error)), 1, []))
      && (s.Failure? && !Aborts(s.error) && attempt < g.retry.maxRetries && ctx(attempt).CtxDone? ==>
            run == Run(Failure(Wrap("context cancelled", CtxErr(ctx(attempt).deadline))), 1, [d]))
      && (s.Failure? && !Aborts(s.error) && attempt < g.retry.maxRetries && ctx(attempt).Elapsed? ==>
            run == After([d], 1, RetryFrom(g, data, ctx, attempt + 1, Some(s.error))))
  {
  }

  /**
   * How one iteration of the loop, after `sends` sends and the waits `waits`, either
   * ends the whole run or carries the loop invariant to the next attempt.
   */
  lemma RetryLoopStep<Req, Res>(g: BaseGateway<Req, Res>, data: Req, ctx: nat -> Wait, attempt: nat, last: Option<Error>,
                                waits: seq<int>, sends: nat, target: Run<Res>)
    requires attempt <= g.retry.maxRetries
    requires After(waits, sends, RetryFrom(g, data, ctx, attempt, last)) == target
    ensures var s := Send(g, data, attempt).result;
      var d := g.retry.nextBackoff(attempt);
      && (s.Success? ==> target == Run(s, sends + 1, waits))
      && (s.Failure? && Aborts(s.error) ==>
            target == Run(Failure(Wrap("operation cancelled or timed out", s.error)), sends + 1, waits))
      && (s.Failure? && !Aborts(s.error) && attempt == g.retry.maxRetries ==>
            target == Run(Failure(Wrap("max retries reached, last error", s.error)), sends + 1, waits))
      && (s.Failure? && !Aborts(s.error) && attempt < g.retry.maxRetries && ctx(attempt).CtxDone? ==>
            target == Run(Failure(Wrap("context cancelled", CtxErr(ctx(attempt).deadline))), sends + 1, waits + [d]))
      && (s.Failure? && !Aborts(s.error) && attempt < g.retry.maxRetries && ctx(attempt).Elapsed? ==>
            After(waits + [d], sends + 1, RetryFrom(g, data, ctx, attempt + 1, Some(s.error))) == target)
  {
    RetryStep(g, data, ctx, attempt, last);
    var s := Send(g, data, attempt).result;
    var d := g.retry.nextBackoff(attempt);
    if s.Success? || Aborts(s.error) || attempt == g.retry.maxRetries {
      assert waits + [] == waits;
    } else if ctx(attempt).Elapsed? {
      var next := RetryFrom(g, data, ctx, attempt + 1, Some(s.error));
      assert waits + ([d] + next.waits) == (waits + [d]) + next.waits;
    }
  }

  /** `sendWithRetry`: returns its result, the number of sends and the waits it began. */
  method SendWithRetry<Req, Res>(g: BaseGateway<Req, Res>, data: Req, ctx: nat -> Wait)
    returns (r: Result<Res, Error>, sends: nat, waits: seq<int>)
    ensures Run(r, sends, waits) == RetryFrom(g, data, ctx, 0, None)
  {
    ghost var target := RetryFrom(g, data, ctx, 0, None);
    var err: Option<Error> := None;
    sends, waits := 0, [];
    var attempt := 0;
    assert [] + target.waits == target.waits;
    while attempt <= g.retry.maxRetries
      invariant sends == attempt
      invariant After(waits, sends, RetryFrom(g, data, ctx, attempt, err)) == target
      decreases g.retry.maxRetries + 1 - attempt
    {
      var sent := Send(g, data, attempt);
      RetryLoopStep(g, data, ctx, attempt, err, waits, sends, target);
      sends := sends + 1;
      if sent.result.Success? {
        return sent.result, sends, waits;
      }
      var e := sent.result.error;
      err := Some(e);
      if Is(e, ErrGatewayUnavailable) {
        // logged and retried
      } else if Is(e, DeadlineExceeded) || Is(e, Canceled) {
        return Failure(Wrap("operation cancelled or timed out", e)), sends, waits;
      }
      if attempt == g.retry.maxRetries {
        return Failure(Wrap("max retries reached, last error", e)), sends, waits;
      }
      var d := g.retry.nextBackoff(attempt);
      waits := waits + [d];
      if ctx(attempt).CtxDone? {
        return Failure(Wrap("context cancelled", CtxErr(ctx(attempt).deadline))), sends, waits;
      }
      attempt := attempt + 1;
    }
    assert waits + [] == waits;
    return Failure(AllRetriesFailed(err)), sends, waits;
  }
  // ---------------------------------------------------------------------------
  // What the retry loop guarantees
  // ---------------------------------------------------------------------------

  /** `r` is the loop's "context cancelled" exit, taken while waiting. */
  predicate CancelledWhileWaiting<Res>(r: Result<Res, Error>) {
    r.Failure? && r.error.Wrap? && r.error.msg == "context cancelled"
  }

  /**
   * The shape of every run: at least one and at most maxRetries + 1 - attempt sends;
   * wait k lasts NextBackoff(attempt + k); waits happen only between sends, except
   * that a wait interrupted by the context ends the run without another send; and the
   * fall-through error appears only when the loop does not run at all.
   */
  lemma {:induction false} RetryShape<Req, Res>(g: BaseGateway<Req, Res>, data: Req, ctx: nat -> Wait, attempt: nat, last: Option<Error>)
    ensures var run := RetryFrom(g, data, ctx, attempt, last);
      && (attempt <= g.retry.maxRetries ==> 1 <= run.sends <= g.retry.maxRetries + 1 - attempt)
      && (attempt > g.retry.maxRetries ==> run == Run(Failure(AllRetriesFailed(last)), 0, []))
      && (forall k :: 0 <= k < |run.waits| ==> run.waits[k] == g.retry.nextBackoff(attempt + k))
      && (attempt <= g.retry.maxRetries ==>
            |run.waits| + 1 == run.sends || (|run.waits| == run.sends && CancelledWhileWaiting(run.result)))
    decreases g.retry.maxRetries + 1 - attempt
  {
    if attempt <= g.retry.maxRetries {
      var s := Send(g, data, attempt).result;
      if s.Failure? && !Aborts(s.error) && attempt < g.retry.maxRetries && ctx(attempt).CtxDone? {
        assert RetryFrom(g, data, ctx, attempt, last)
            == Run(Failure(Wrap("context cancelled", CtxErr(ctx(attempt).deadline))), 1, [g.retry.nextBackoff(attempt)]);
      } else if s.Failure? && !Aborts(s.error) && attempt < g.retry.maxRetries {
        RetryShape(g, data, ctx, attempt + 1, Some(s.error));
        var rest := RetryFrom(g, data, ctx, attempt + 1, Some(s.error));
        var d := g.retry.nextBackoff(attempt);
        assert RetryFrom(g, data, ctx, attempt, last) == After([d], 1, rest);
        forall k | 0 <= k < |[d] + rest.waits|
          ensures ([d] + rest.waits)[k] == g.retry.nextBackoff(attempt + k)
        {
          if k > 0 {
            assert ([d] + rest.waits)[k] == rest.waits[k - 1];
          }
        }
        assert |[d] + rest.waits| == 1 + |rest.waits|;
      } else {
        assert |RetryFrom(g, data, ctx, attempt, last).waits| == 0;
      }
    }
  }

  /** Sends attempt .. j-1 all failed without aborting, and every wait after them elapsed. */
  ghost predicate RetriedThrough<Req, Res>(g: BaseGateway<Req, Res>, data: Req, ctx: nat -> Wait, attempt: nat, j: nat) {
    forall k :: attempt <= k < j ==>
      Send(g, data, k).result.Failure? && !Aborts(Send(g, data, k).result.error) && ctx(k) == Elapsed
  }

  /** The backoffs NextBackoff(attempt), ..., NextBackoff(j - 1). */
  function Backoffs(next: int -> int, attempt: nat, j: nat): (ds: seq<int>)
    requires attempt <= j
    ensures |ds| == j - attempt
    ensures forall k :: 0 <= k < |ds| ==> ds[k] == next(attempt + k)
    decreases j - attempt
  {
    if attempt == j then [] else [next(attempt)] + Backoffs(next, attempt + 1, j)
  }

  /**
   * Unrolling: when sends attempt .. j-1 were retried and j is still within the
   * budget, the run is those j - attempt sends and waits followed by the run from j.
   */
  lemma {:induction false} RetryUnroll<Req, Res>(g: BaseGateway<Req, Res>, data: Req, ctx: nat -> Wait, attempt: nat, last: Option<Error>, j: nat)
    requires attempt <= j <= g.retry.maxRetries
    requires RetriedThrough(g, data, ctx, attempt, j)
    ensures RetryFrom(g, data, ctx, attempt, last).result == RetryFrom(g, data, ctx, j, None).result
    ensures RetryFrom(g, data, ctx, attempt, last)
         == After(Backoffs(g.retry.nextBackoff, attempt, j), j - attempt, RetryFrom(g, data, ctx, j, None))
    decreases j - attempt
  {
    if attempt == j {
      LastIrrelevant(g, data, ctx, attempt, last);
    } else {
      var s := Send(g, data, attempt).result;
      assert s.Failure? && !Aborts(s.error) && ctx(attempt) == Elapsed;
      RetryUnroll(g, data, ctx, attempt + 1, Some(s.error), j);
      var rest := RetryFrom(g, data, ctx, j, None);
      var d := g.retry.nextBackoff(attempt);
      assert [d] + (Backoffs(g.retry.nextBackoff, attempt + 1, j) + rest.waits)
          == Backoffs(g.retry.nextBackoff, attempt, j) + rest.waits;
    }
  }

  /** Within the budget the previous send's error plays no part. */
  lemma LastIrrelevant<Req, Res>(g: BaseGateway<Req, Res>, data: Req, ctx: nat -> Wait, attempt: nat, last: Option<Error>)
    requires attempt <= g.retry.maxRetries
    ensures RetryFrom(g, data, ctx, attempt, last) == RetryFrom(g, data, ctx, attempt, None)
  {
  }

  /**
   * The first successful send is returned at once: after j retried sends, a success at
   * send j ends the call with that result after exactly j + 1 sends.
   */
  lemma FirstSuccessReturned<Req, Res>(g: BaseGateway<Req, Res>, data: Req, ctx: nat -> Wait, j: nat)
    requires j <= g.retry.maxRetries && RetriedThrough(g, data, ctx, 0, j)
    requires Send(g, data, j).result.Success?
    ensures RetryFrom(g, data, ctx, 0, None) == Run(Send(g, data, j).result, j + 1, Backoffs(g.retry.nextBackoff, 0, j))
  {
    RetryUnroll(g, data, ctx, 0, None, j);
  }

  /**
   * Conversely, a successful call returns the value of its last send, and every
   * earlier send failed without aborting and was followed by an elapsed wait.
   */
  lemma {:induction false} SuccessIsFirstSuccess<Req, Res>(g: BaseGateway<Req, Res>, data: Req, ctx: nat -> Wait, attempt: nat, last: Option<Error>)
    requires RetryFrom(g, data, ctx, attempt, last).result.Success?
    ensures var run := RetryFrom(g, data, ctx, attempt, last);
      && run.sends >= 1
      && attempt + run.sends - 1 <= g.retry.maxRetries
      && run.result == Send(g, data, attempt + run.sends - 1).result
      && RetriedThrough(g, data, ctx, attempt, attempt + run.sends - 1)
    decreases g.retry.maxRetries + 1 - attempt
  {
    var s := Send(g, data, attempt).result;
    if s.Failure? {
      RetryShape(g, data, ctx, attempt, last);
      SuccessIsFirstSuccess(g, data, ctx, attempt + 1, Some(s.error));
    }
  }

  /**
   * A gateway that always fails without aborting is sent to exactly maxRetries + 1
   * times, and the call returns "max retries reached" wrapping the last send's error.
   */
  lemma ExhaustionAfterMaxRetries<Req, Res>(g: BaseGateway<Req, Res>, data: Req, ctx: nat -> Wait)
    requires g.retry.maxRetries >= 0
    requires RetriedThrough(g, data, ctx, 0, g.retry.maxRetries)
    requires Send(g, data, g.retry.maxRetries).result.Failure?
    requires !Aborts(Send(g, data, g.retry.maxRetries).result.error)
    ensures RetryFrom(g, data, ctx, 0, None) == Run(
      Failure(Wrap("max retries reached, last error", Send(g, data, g.retry.maxRetries).result.error)),
      g.retry.maxRetries + 1,
      Backoffs(g.retry.nextBackoff, 0, g.retry.maxRetries))
  {
    RetryUnroll(g, data, ctx, 0, None, g.retry.maxRetries);
  }

  /**
   * A send error carrying a cancellation or deadline (and not ErrGatewayUnavailable)
   * ends the call at once, with no further send and no wait.
   */
  lemma CancellationAborts<Req, Res>(g: BaseGateway<Req, Res>, data: Req, ctx: nat -> Wait, j: nat)
    requires j <= g.retry.maxRetries && RetriedThrough(g, data, ctx, 0, j)
    requires Send(g, data, j).result.Failure? && Aborts(Send(g, data, j).result.error)
    ensures RetryFrom(g, data, ctx, 0, None) == Run(
      Failure(Wrap("operation cancelled or timed out", Send(g, data, j).result.error)),
      j + 1,
      Backoffs(g.retry.nextBackoff, 0, j))
  {
    RetryUnroll(g, data, ctx, 0, None, j);
  }

  /**
   * A context that is done during wait j ends the call with "context cancelled"
   * wrapping `ctx.Err()`, before send j + 1.
   */
  lemma ContextDoneDuringWait<Req, Res>(g: BaseGateway<Req, Res>, data: Req, ctx: nat -> Wait, j: nat)
    requires j < g.retry.maxRetries && RetriedThrough(g, data, ctx, 0, j)
    requires Send(g, data, j).result.Failure? && !Aborts(Send(g, data, j).result.error)
    requires ctx(j).CtxDone?
    ensures RetryFrom(g, data, ctx, 0, None) == Run(
      Failure(Wrap("context cancelled", CtxErr(ctx(j).deadline))),
      j + 1,
      Backoffs(g.retry.nextBackoff, 0, j + 1))
  {
    RetryUnroll(g, data, ctx, 0, None, j);
    assert Backoffs(g.retry.nextBackoff, 0, j) + [g.retry.nextBackoff(j)] == Backoffs(g.retry.nextBackoff, 0, j + 1) by {
      BackoffsSnoc(g.retry.nextBackoff, 0, j);
    }
  }

  lemma {:induction false} BackoffsSnoc(next: int -> int, attempt: nat, j: nat)
    requires attempt <= j
    ensures Backoffs(next, attempt, j + 1) == Backoffs(next, attempt, j) + [next(j)]
    decreases j - attempt
  {
    if attempt < j {
      BackoffsSnoc(next, attempt + 1, j);
    }
  }

  /** With a negative MaxRetries the loop body never runs: no send, no wait. */
  lemma NegativeMaxRetries<Req, Res>(g: BaseGateway<Req, Res>, data: Req, ctx: nat -> Wait)
    requires g.retry.maxRetries < 0
    ensures RetryFrom(g, data, ctx, 0, None) == Run(Failure(WrapNil("all retries failed, last error")), 0, [])
  {
  }

  /**
   * ErrGatewayUnavailable is retried like any other error: an error whose chain holds
   * it never aborts the loop, even when the chain also holds a cancellation.
   */
  lemma UnavailableIsRetried(e: Error)
    requires Is(e, ErrGatewayUnavailable)
    ensures !Aborts(e)
    ensures !Aborts(Wrap("error sending data", e))
  {
  }

  /**
   * base_gateway_test.go, "gateway unavailable": a transport that always answers
   * ErrGatewayUnavailable is sent to MaxRetries + 1 times and ends with
   * "max retries reached".
   */
  lemma AlwaysUnavailableExample<Req, Res>(g: BaseGateway<Req, Res>, data: Req)
    requires g.retry.maxRetries >= 0
    requires g.serde.Some? && g.protocol.Some? && g.serde.value.serialize(data).Success?
    requires forall n, b :: g.protocol.value.exchange(n, b) == Failure(ErrGatewayUnavailable)
    ensures var run := RetryFrom(g, data, _ => Elapsed, 0, None);
      && run.sends == g.retry.maxRetries + 1
      && run.result == Failure(Wrap("max retries reached, last error", Wrap("error sending data", ErrGatewayUnavailable)))
  {
    var ctx: nat -> Wait := _ => Elapsed;
    forall k | 0 <= k <= g.retry.maxRetries
      ensures Send(g, data, k).result == Failure(Wrap("error sending data", ErrGatewayUnavailable))
    {
    }
    UnavailableIsRetried(ErrGatewayUnavailable);
    ExhaustionAfterMaxRetries(g, data, ctx);
  }
}
