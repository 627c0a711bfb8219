/**
 * The older, non-generic gateway core of internal/gateway/gateway.go. Its data format
 * works on untyped values (`any`), here the type parameter `V`; apart from that its
 * Send, SendWithRetry and Name follow the same steps as the generic gateway. The model
 * writes them out again and proves that they coincide with the generic ones, so every
 * retry lemma of module Gateway holds for this version too.
 */
module LegacyGateway {
  import opened Wrappers
  import opened Bytes
  import opened ErrorChain
  import Gateway

  /** format.DataFormat: Marshal, and Unmarshal into a fresh `any`. */
  datatype DataFormat<!V> = DataFormat(marshal: V -> Result<Bytes, Error>, unmarshal: Bytes -> Result<V, Error>)

  /** The legacy baseGateway; None is a nil data format or a nil protocol handler. */
  datatype LegacyGateway<!V> = LegacyGateway(
    name: string,
    dataFormat: Option<DataFormat<V>>,
    protocol: Option<Gateway.Protocol>,
    retry: Gateway.RetryConfig)

  /** The same gateway seen as a generic one with Req = Res = any. */
  function AsGeneric<V>(g: LegacyGateway<V>): (b: Gateway.BaseGateway<V, V>)
    ensures b.name == g.name && b.protocol == g.protocol && b.retry == g.retry
    ensures b.serde.None? <==> g.dataFormat.None?
  {
    Gateway.BaseGateway(
      g.name,
      match g.dataFormat
      case None => None
      case Some(f) => Some(Gateway.Serde(f.marshal, f.unmarshal)),
      g.protocol,
      g.retry)
  }

  /** `Send`, as the n-th send of its retry loop. */
  function Send<V>(g: LegacyGateway<V>, data: V, n: nat): (s: Gateway.Sent<V>)
    ensures s.stages <= Gateway.Pipeline
    ensures s.result.Success? ==> s.stages == Gateway.Pipeline
  {
    if g.dataFormat.None? then Gateway.Sent(Failure(Leaf("data format is not initialized")), [])
    else if g.protocol.None? then Gateway.Sent(Failure(Leaf("protocol handler is not initialized")), [])
    else
      match g.dataFormat.value.marshal(data)
      case Failure(e) => Gateway.Sent(Failure(Wrap("error marshaling data", e)), [Gateway.Serialize])
      case Success(encoded) =>
        match g.protocol.value.exchange(n, encoded)
        case Failure(e) => Gateway.Sent(Failure(Wrap("error sending data", e)), [Gateway.Serialize, Gateway.Transport])
        case Success(None) => Gateway.Sent(Failure(Leaf("received nil response")), [Gateway.Serialize, Gateway.Transport])
        case Success(Some(response)) =>
          match g.dataFormat.value.unmarshal(response)
          case Failure(e) => Gateway.Sent(Failure(Wrap("error unmarshaling response", e)), Gateway.Pipeline)
          case Success(result) => Gateway.Sent(Success(result), Gateway.Pipeline)
  }

  /** Both versions of send produce the same outcome and run the same stages. */
  lemma SendAgrees<V>(g: LegacyGateway<V>, data: V, n: nat)
    ensures Send(g, data, n) == Gateway.Send(AsGeneric(g), data, n)
  {
  }

  /** `Name()`: "unnamed gateway" for an empty name, as in the generic version. */
  function Name<V>(g: LegacyGateway<V>): (n: string)
    ensures n != ""
    ensures n == Gateway.Name(AsGeneric(g))
    ensures g.name != "" ==> n == g.name
  {
    if g.name == "" then "unnamed gateway" else g.name
  }

  /**
   * `SendWithRetry`, which keeps the last error in its own variable; it returns the
   * result, the number of sends and the waits it began, exactly as the generic loop
   * would for the same gateway, data and context.
   */
  method SendWithRetry<V>(g: LegacyGateway<V>, data: V, ctx: nat -> Gateway.Wait)
    returns (r: Result<V, Error>, sends: nat, waits: seq<int>)
    ensures Gateway.Run(r, sends, waits) == Gateway.RetryFrom(AsGeneric(g), data, ctx, 0, None)
  {
    ghost var b := AsGeneric(g);
    ghost var target := Gateway.RetryFrom(b, data, ctx, 0, None);
    var lastError: Option<Error> := None;
    sends, waits := 0, [];
    var attempt := 0;
    assert [] + target.waits == target.waits;
    while attempt <= g.retry.maxRetries
      invariant sends == attempt
      invariant Gateway.After(waits, sends, Gateway.RetryFrom(b, data, ctx, attempt, lastError)) == target
      decreases g.retry.maxRetries + 1 - attempt
    {
      var sent := Send(g, data, attempt);
      SendAgrees(g, data, attempt);
      Gateway.RetryLoopStep(b, data, ctx, attempt, lastError, waits, sends, target);
      sends := sends + 1;
      if sent.result.Success? {
        return sent.result, sends, waits;
      }
      var err := sent.result.error;
      lastError := Some(err);
      if Is(err, Gateway.ErrGatewayUnavailable) {
        // logged and retried
      } else if Is(err, DeadlineExceeded) || Is(err, Canceled) {
        return Failure(Wrap("operation cancelled or timed out", err)), sends, waits;
      }
      if attempt == g.retry.maxRetries {
        return Failure(Wrap("max retries reached, last error", lastError.value)), sends, waits;
      }
      var d := g.retry.nextBackoff(attempt);
      waits := waits + [d];
      if ctx(attempt).CtxDone? {
        return Failure(Wrap("context cancelled", Gateway.CtxErr(ctx(attempt).deadline))), sends, waits;
      }
      attempt := attempt + 1;
    }
    assert waits + [] == waits;
    return Failure(Gateway.AllRetriesFailed(lastError)), sends, waits;
  }

  /**
   * The legacy loop's guarantees, read off the generic ones: at most MaxRetries + 1
   * sends, and a successful call returns its last send's value after earlier sends
   * that all failed and were retried.
   */
  lemma LegacyRetryBounds<V>(g: LegacyGateway<V>, data: V, ctx: nat -> Gateway.Wait)
    ensures var run := Gateway.RetryFrom(AsGeneric(g), data, ctx, 0, None);
      && run.sends <= (if g.retry.maxRetries < 0 then 0 else g.retry.maxRetries + 1)
      && (run.result.Success? ==>
            run.sends >= 1 && run.result == Send(g, data, run.sends - 1).result)
  {
    var b := AsGeneric(g);
    Gateway.RetryShape(b, data, ctx, 0, None);
    var run := Gateway.RetryFrom(b, data, ctx, 0, None);
    if run.result.Success? {
      Gateway.SuccessIsFirstSuccess(b, data, ctx, 0, None);
      SendAgrees(g, data, run.sends - 1);
    }
  }
}
