/**
 * The router of internal/router/router.go. SendMessage asks the gateway registry for
 * its candidates in preference order and walks them: a candidate whose breaker rejects
 * the request is skipped; otherwise the operation runs on it once, and the outcome is
 * reported to its breaker. The first success is returned; when none succeeds, the
 * error wraps the last operation error.
 *
 * The operation is an oracle of the candidate's position in the list and the gateway;
 * a gateway's Name() is the function `nameOf`.
 */
module Router {
  import opened Wrappers
  import opened ErrorChain
  import OrderedRegistry
  import Gateway
  import CB = CircuitBreaker

  /** router.Response: the name of the gateway that served the request, and its answer. */
  datatype Response<R> = Response(gateway: string, data: R)

  /** Everything SendMessage consults besides the registry and the breakers' state. */
  datatype Env<!G, R> = Env(
    settings: CB.Settings,
    decide: CB.Decide,
    nameOf: G -> string,
    op: (nat, G) -> Result<R, Error>)

  /** One SendMessage: its result, the positions it invoked the operation at, the bank after. */
  datatype Routed<R> = Routed(result: Result<Response<R>, Error>, invoked: seq<nat>, bank: CB.Bank)

  /** The error after the loop, wrapping the last operation error (nil if none ran). */
  function AllFailed(last: Option<Error>): Error {
    match last
    case None => WrapNil("all gateways failed")
    case Some(e) => Wrap("all gateways failed", e)
  }

  /** The loop over candidates from position i on, `last` being the latest operation error. */
  function RouteFrom<G, R>(cands: seq<G>, i: nat, bank: CB.Bank, env: Env<G, R>, last: Option<Error>): Routed<R>
    requires i <= |cands|
    decreases |cands| - i
  {
    if i == |cands| then Routed(Failure(AllFailed(last)), [], bank)
    else
      var name := env.nameOf(cands[i]);
      var answer := CB.Allow(bank, env.settings, env.decide, name);
      var admitted := answer.bank;
      if answer.denial.Some? then RouteFrom(cands, i + 1, admitted, env, last)
      else
        match env.op(i, cands[i])
        case Success(v) => Routed(Success(Response(name, v)), [i], CB.Report(admitted, name, true))
        case Failure(e) =>
          var rest := RouteFrom(cands, i + 1, CB.Report(admitted, name, false), env, Some(e));
          Routed(rest.result, [i] + rest.invoked, rest.bank)
  }

  /** SendMessage over the registry's fields and the bank's state. */
  function Route<G, R>(m: map<string, G>, order: seq<string>, zero: G, preferred: string, bank: CB.Bank, env: Env<G, R>): Routed<R> {
    match OrderedRegistry.PreferenceList(m, order, zero, preferred)
    case Failure(e) => Routed(Failure(Wrap("failed to get preferred gateways list", e)), [], bank)
    case Success(cands) => RouteFrom(cands, 0, bank, env, None)
  }

  class Router<G> {
    const registry: OrderedRegistry.Registry<G>
    const cbs: CB.CircuitBreakers

    ghost predicate Valid()
      reads this, cbs, cbs.circuitBreakers
    {
      cbs.Valid()
    }

    /** NewRouter: the given registry and a fresh, empty bank with the given settings. */
    constructor (registry: OrderedRegistry.Registry<G>, settings: CB.Settings, decide: CB.Decide)
      ensures this.registry == registry
      ensures fresh(cbs) && fresh(cbs.circuitBreakers)
      ensures cbs.settings == settings && cbs.decide == decide
      ensures cbs.State() == CB.Bank(map[], [], map[])
      ensures Valid()
    {
      this.registry := registry;
      cbs := new CB.CircuitBreakers(settings, decide);
    }

    /**
     * SendMessage: the result and the positions at which the operation ran are those
     * of `Route` over the registry as it was on entry, and so is the bank's new state.
     */
    method SendMessage<R>(preferredGateway: string, nameOf: G -> string, operation: (nat, G) -> Result<R, Error>)
      returns (resp: Result<Response<R>, Error>, invoked: seq<nat>)
      requires Valid()
      modifies cbs, cbs.circuitBreakers
      ensures Routed(resp, invoked, cbs.State())
           == Route(old(registry.registry), old(registry.order), registry.zero, preferredGateway,
                    old(cbs.State()), Env(cbs.settings, cbs.decide, nameOf, operation))
      ensures Valid()
    {
      var allGateways := registry.ListWithPreference(preferredGateway);
      if allGateways.Failure? {
        return Failure(Wrap("failed to get preferred gateways list", allGateways.error)), [];
      }
      resp, invoked := TryInOrder(allGateways.value, nameOf, operation);
    }

    /**
     * The loop of SendMessage over the candidates: skip a rejected one, otherwise run
     * the operation and report its outcome, returning the first success.
     */
    method TryInOrder<R>(cands: seq<G>, nameOf: G -> string, operation: (nat, G) -> Result<R, Error>)
      returns (resp: Result<Response<R>, Error>, invoked: seq<nat>)
      requires Valid()
      modifies cbs, cbs.circuitBreakers
      ensures Routed(resp, invoked, cbs.State())
           == RouteFrom(cands, 0, old(cbs.State()), Env(cbs.settings, cbs.decide, nameOf, operation), None)
      ensures Valid()
    {
      ghost var env := Env(cbs.settings, cbs.decide, nameOf, operation);
      ghost var target := RouteFrom(cands, 0, cbs.State(), env, None);
      var err: Option<Error> := None;
      invoked := [];
      var i := 0;
      while i < |cands|
        invariant 0 <= i <= |cands|
        invariant Valid()
        invariant After(invoked, RouteFrom(cands, i, cbs.State(), env, err)) == target
      {
        var g := cands[i];
        LoopStep(cands, i, cbs.State(), env, err, invoked, target);
        var cbErr, result := TryOne(i, g, nameOf, operation);
        if cbErr.None? {
          if result.Success? {
            return Success(Response(nameOf(g), result.value)), invoked + [i];
          }
          err := Some(result.error);
          invoked := invoked + [i];
        }
        i := i + 1;
      }
      return Failure(AllFailed(err)), invoked;
    }

    /**
     * One iteration of that loop: ask the breaker of `g`; if it admits the request,
     * run the operation and report whether it succeeded.
     */
    method TryOne<R>(i: nat, g: G, nameOf: G -> string, operation: (nat, G) -> Result<R, Error>)
      returns (cbErr: Option<Error>, result: Result<R, Error>)
      requires Valid()
      modifies cbs, cbs.circuitBreakers
      ensures Valid()
      ensures var answer := CB.Allow(old(cbs.State()), cbs.settings, cbs.decide, nameOf(g));
        && cbErr == answer.denial
        && (cbErr.Some? ==> cbs.State() == answer.bank)
        && (cbErr.None? ==>
              result == operation(i, g) && cbs.State() == CB.Report(answer.bank, nameOf(g), result.Success?))
    {
      cbErr := cbs.IsRequestAllowed(nameOf(g));
      result := Failure(Gateway.ErrGatewayUnavailable);
      if cbErr.None? {
        result := operation(i, g);
        cbs.Done(nameOf(g), result.Success?);
      }
    }
  }

  // ---------------------------------------------------------------------------
  // What SendMessage guarantees
  // ---------------------------------------------------------------------------

  /** A run preceded by the positions `invoked` of earlier iterations. */
  function After<R>(invoked: seq<nat>, run: Routed<R>): Routed<R> {
    Routed(run.result, invoked + run.invoked, run.bank)
  }

  /** How one iteration of the loop carries its invariant to the next, or ends the run. */
  lemma LoopStep<G, R>(cands: seq<G>, i: nat, bank: CB.Bank, env: Env<G, R>, err: Option<Error>, invoked: seq<nat>, target: Routed<R>)
    requires i < |cands| && After(invoked, RouteFrom(cands, i, bank, env, err)) == target
    ensures var name := env.nameOf(cands[i]);
      var answer := CB.Allow(bank, env.settings, env.decide, name);
      var outcome := env.op(i, cands[i]);
      && (answer.denial.Some? ==> After(invoked, RouteFrom(cands, i + 1, answer.bank, env, err)) == target)
      && (answer.denial.None? && outcome.Success? ==>
            target == Routed(Success(Response(name, outcome.value)), invoked + [i], CB.Report(answer.bank, name, true)))
      && (answer.denial.None? && outcome.Failure? ==>
            After(invoked + [i], RouteFrom(cands, i + 1, CB.Report(answer.bank, name, false), env, Some(outcome.error))) == target)
  {
    RouteStep(cands, i, bank, env, err);
    var name := env.nameOf(cands[i]);
    var answer := CB.Allow(bank, env.settings, env.decide, name);
    var outcome := env.op(i, cands[i]);
    if answer.denial.None? && outcome.Failure? {
      var run := RouteFrom(cands, i + 1, CB.Report(answer.bank, name, false), env, Some(outcome.error));
      assert invoked + ([i] + run.invoked) == (invoked + [i]) + run.invoked;
    }
  }

  /** One step of the loop, in each of its three cases. */
  lemma RouteStep<G, R>(cands: seq<G>, i: nat, bank: CB.Bank, env: Env<G, R>, last: Option<Error>)
    requires i < |cands|
    ensures var name := env.nameOf(cands[i]);
      var answer := CB.Allow(bank, env.settings, env.decide, name);
      && (answer.denial.Some? ==>
            RouteFrom(cands, i, bank, env, last) == RouteFrom(cands, i + 1, answer.bank, env, last))
      && (answer.denial.None? && env.op(i, cands[i]).Success? ==>
            RouteFrom(cands, i, bank, env, last)
            == Routed(Success(Response(name, env.op(i, cands[i]).value)), [i], CB.Report(answer.bank, name, true)))
      && (answer.denial.None? && env.op(i, cands[i]).Failure? ==>
            var rest := RouteFrom(cands, i + 1, CB.Report(answer.bank, name, false), env, Some(env.op(i, cands[i]).error));
            RouteFrom(cands, i, bank, env, last) == Routed(rest.result, [i] + rest.invoked, rest.bank))
  {
  }

  /** Positions in strictly increasing order. */
  predicate StrictlyIncreasing(s: seq<nat>) {
    forall a, b :: 0 <= a < b < |s| ==> s[a] < s[b]
  }

  /** Positions within lo .. hi - 1. */
  predicate Within(s: seq<nat>, lo: nat, hi: nat) {
    forall a :: 0 <= a < |s| ==> lo <= s[a] < hi
  }

  /** The operation failed at each of the positions `s`. */
  predicate FailedAt<G, R>(cands: seq<G>, env: Env<G, R>, s: seq<nat>) {
    forall a :: 0 <= a < |s| ==> s[a] < |cands| && env.op(s[a], cands[s[a]]).Failure?
  }

  /** The error of the operation at the last of the positions `s`; `last` if there is none. */
  function LastError<G, R>(cands: seq<G>, env: Env<G, R>, s: seq<nat>, last: Option<Error>): Option<Error> {
    if s == [] then last
    else
      var k := s[|s| - 1];
      if k < |cands| && env.op(k, cands[k]).Failure? then Some(env.op(k, cands[k]).error) else None
  }

  /**
   * A candidate whose breaker rejects it is skipped: its operation is not invoked, no
   * outcome is reported for it, and its breaker's history gains only the rejection.
   */
  lemma DeniedSkipped<G, R>(cands: seq<G>, i: nat, bank: CB.Bank, env: Env<G, R>, last: Option<Error>)
    requires i < |cands|
    requires CB.Allow(bank, env.settings, env.decide, env.nameOf(cands[i])).denial.Some?
    ensures var name := env.nameOf(cands[i]);
      var answer := CB.Allow(bank, env.settings, env.decide, name);
      && i !in RouteFrom(cands, i, bank, env, last).invoked
      && RouteFrom(cands, i, bank, env, last) == RouteFrom(cands, i + 1, answer.bank, env, last)
      && CB.History(answer.bank, name) == CB.History(bank, name) + [CB.Rejected(answer.denial.value)]
  {
    var name := env.nameOf(cands[i]);
    var answer := CB.Allow(bank, env.settings, env.decide, name);
    RouteStep(cands, i, bank, env, last);
    RouteInOrder(cands, i + 1, answer.bank, env, last);
    CB.AllowSpec(bank, env.settings, env.decide, name);
  }

  /** Candidates are tried in list order, each at most once. */
  lemma {:induction false} RouteInOrder<G, R>(cands: seq<G>, i: nat, bank: CB.Bank, env: Env<G, R>, last: Option<Error>)
    requires i <= |cands|
    ensures StrictlyIncreasing(RouteFrom(cands, i, bank, env, last).invoked)
    ensures Within(RouteFrom(cands, i, bank, env, last).invoked, i, |cands|)
    decreases |cands| - i
  {
    if i < |cands| {
      RouteStep(cands, i, bank, env, last);
      var name := env.nameOf(cands[i]);
      var answer := CB.Allow(bank, env.settings, env.decide, name);
      if answer.denial.Some? {
        RouteInOrder(cands, i + 1, answer.bank, env, last);
      } else if env.op(i, cands[i]).Failure? {
        var reported := CB.Report(answer.bank, name, false);
        var e := env.op(i, cands[i]).error;
        RouteInOrder(cands, i + 1, reported, env, Some(e));
        var rest := RouteFrom(cands, i + 1, reported, env, Some(e)).invoked;
        var full := [i] + rest;
        assert forall a :: 1 <= a < |full| ==> full[a] == rest[a - 1];
      }
    }
  }

  /**
   * A successful run: its answer is the operation's value at the last invoked position,
   * labelled with that gateway's name, and every earlier invocation failed.
   */
  ghost predicate EndsInSuccess<G, R>(cands: seq<G>, env: Env<G, R>, r: Routed<R>) {
    && r.result.Success?
    && r.invoked != []
    && var k := r.invoked[|r.invoked| - 1];
       && k < |cands|
       && env.op(k, cands[k]).Success?
       && r.result.value == Response(env.nameOf(cands[k]), env.op(k, cands[k]).value)
       && FailedAt(cands, env, r.invoked[..|r.invoked| - 1])
  }

  /** A failed run: every invocation failed and the error wraps the last one's, or `last`. */
  ghost predicate EndsInFailure<G, R>(cands: seq<G>, env: Env<G, R>, r: Routed<R>, last: Option<Error>) {
    && r.result.Failure?
    && FailedAt(cands, env, r.invoked)
    && r.result.error == AllFailed(LastError(cands, env, r.invoked, last))
  }

  /** A success is what the last invoked gateway answered, after failures only. */
  lemma {:induction false} RouteSuccess<G, R>(cands: seq<G>, i: nat, bank: CB.Bank, env: Env<G, R>, last: Option<Error>)
    requires i <= |cands|
    requires RouteFrom(cands, i, bank, env, last).result.Success?
    ensures EndsInSuccess(cands, env, RouteFrom(cands, i, bank, env, last))
    decreases |cands| - i
  {
    if i == |cands| {
      assert false;
    }
    RouteStep(cands, i, bank, env, last);
    var name := env.nameOf(cands[i]);
    var answer := CB.Allow(bank, env.settings, env.decide, name);
    if answer.denial.Some? {
      RouteSuccess(cands, i + 1, answer.bank, env, last);
    } else if env.op(i, cands[i]).Failure? {
      var reported := CB.Report(answer.bank, name, false);
      var e := env.op(i, cands[i]).error;
      RouteSuccess(cands, i + 1, reported, env, Some(e));
      FailedBefore(cands, env, i, RouteFrom(cands, i + 1, reported, env, Some(e)));
    } else {
      var r := RouteFrom(cands, i, bank, env, last);
      assert r.invoked == [i];
      assert r.invoked[..0] == [];
    }
  }

  /** A failed position put in front of a run that ends in a success. */
  lemma FailedBefore<G, R>(cands: seq<G>, env: Env<G, R>, i: nat, rest: Routed<R>)
    requires i < |cands| && env.op(i, cands[i]).Failure?
    requires EndsInSuccess(cands, env, rest)
    ensures EndsInSuccess(cands, env, Routed(rest.result, [i] + rest.invoked, rest.bank))
  {
    var full := [i] + rest.invoked;
    assert full[|full| - 1] == rest.invoked[|rest.invoked| - 1];
    assert full[..|full| - 1] == [i] + rest.invoked[..|rest.invoked| - 1];
  }

  /**
   * A failure means every invocation failed, and the error is "all gateways failed"
   * wrapping the last invocation's error, or `last` if none ran: rejections never
   * overwrite it.
   */
  lemma {:induction false} RouteFailure<G, R>(cands: seq<G>, i: nat, bank: CB.Bank, env: Env<G, R>, last: Option<Error>)
    requires i <= |cands|
    requires RouteFrom(cands, i, bank, env, last).result.Failure?
    ensures EndsInFailure(cands, env, RouteFrom(cands, i, bank, env, last), last)
    decreases |cands| - i
  {
    if i < |cands| {
      RouteStep(cands, i, bank, env, last);
      var name := env.nameOf(cands[i]);
      var answer := CB.Allow(bank, env.settings, env.decide, name);
      if answer.denial.Some? {
        RouteFailure(cands, i + 1, answer.bank, env, last);
      } else {
        var reported := CB.Report(answer.bank, name, false);
        var e := env.op(i, cands[i]).error;
        RouteFailure(cands, i + 1, reported, env, Some(e));
        FailedFirst(cands, env, i, RouteFrom(cands, i + 1, reported, env, Some(e)), last);
      }
    }
  }

  /** A failed position put in front of a failed run. */
  lemma FailedFirst<G, R>(cands: seq<G>, env: Env<G, R>, i: nat, rest: Routed<R>, last: Option<Error>)
    requires i < |cands| && env.op(i, cands[i]).Failure?
    requires EndsInFailure(cands, env, rest, Some(env.op(i, cands[i]).error))
    ensures EndsInFailure(cands, env, Routed(rest.result, [i] + rest.invoked, rest.bank), last)
  {
    var full := [i] + rest.invoked;
    assert forall a :: 1 <= a < |full| ==> full[a] == rest.invoked[a - 1];
    if rest.invoked != [] {
      assert full[|full| - 1] == rest.invoked[|rest.invoked| - 1];
    }
  }

  /**
   * The outcome of every admitted request is reported to its breaker exactly once,
   * right after the admission: balanced breaker histories stay balanced.
   */
  lemma {:induction false} RouteReportsOnce<G, R>(cands: seq<G>, i: nat, bank: CB.Bank, env: Env<G, R>, last: Option<Error>)
    requires i <= |cands| && CB.AllBalanced(bank)
    ensures CB.AllBalanced(RouteFrom(cands, i, bank, env, last).bank)
    decreases |cands| - i
  {
    if i < |cands| {
      RouteStep(cands, i, bank, env, last);
      var name := env.nameOf(cands[i]);
      var answer := CB.Allow(bank, env.settings, env.decide, name);
      var outcome := env.op(i, cands[i]);
      CB.BalancedSteps(bank, env.settings, env.decide, name, outcome.Success?);
      if answer.denial.Some? {
        RouteReportsOnce(cands, i + 1, answer.bank, env, last);
      } else if outcome.Failure? {
        RouteReportsOnce(cands, i + 1, CB.Report(answer.bank, name, false), env, Some(outcome.error));
      }
    }
  }

  /** The bank's invariant survives a SendMessage. */
  lemma {:induction false} RouteKeepsBank<G, R>(cands: seq<G>, i: nat, bank: CB.Bank, env: Env<G, R>, last: Option<Error>)
    requires i <= |cands| && CB.WellFormed(bank, env.settings)
    ensures CB.WellFormed(RouteFrom(cands, i, bank, env, last).bank, env.settings)
    decreases |cands| - i
  {
    if i < |cands| {
      RouteStep(cands, i, bank, env, last);
      var name := env.nameOf(cands[i]);
      var answer := CB.Allow(bank, env.settings, env.decide, name);
      CB.StepsKeepWellFormed(bank, env.settings, env.decide, name, false);
      CB.StepsKeepWellFormed(answer.bank, env.settings, env.decide, name, false);
      CB.StepsKeepWellFormed(answer.bank, env.settings, env.decide, name, true);
      if answer.denial.Some? {
        RouteKeepsBank(cands, i + 1, answer.bank, env, last);
      } else if env.op(i, cands[i]).Failure? {
        RouteKeepsBank(cands, i + 1, CB.Report(answer.bank, name, false), env, Some(env.op(i, cands[i]).error));
      }
    }
  }

  /**
   * When every breaker rejects, the operation never runs, and the error is
   * "all gateways failed" over the nil error the loop started with.
   */
  lemma {:induction false} AllRejected<G, R>(cands: seq<G>, i: nat, bank: CB.Bank, env: Env<G, R>)
    requires i <= |cands|
    requires forall b, h :: env.decide(b, h).Some?
    ensures RouteFrom(cands, i, bank, env, None).invoked == []
    ensures RouteFrom(cands, i, bank, env, None).result == Failure(WrapNil("all gateways failed"))
    decreases |cands| - i
  {
    if i < |cands| {
      RouteStep(cands, i, bank, env, None);
      var answer := CB.Allow(bank, env.settings, env.decide, env.nameOf(cands[i]));
      AllRejected(cands, i + 1, answer.bank, env);
    }
  }


  /**
   * An empty order makes ListWithPreference fail, whatever the map holds, and then no
   * operation runs and no breaker is consulted.
   */
  lemma EmptyRegistryFails<G, R>(m: map<string, G>, zero: G, preferred: string, bank: CB.Bank, env: Env<G, R>)
    ensures Route(m, [], zero, preferred, bank, env)
         == Routed(Failure(Wrap("failed to get preferred gateways list", Leaf("no registry registered"))), [], bank)
  {
  }

  /** Two gateways whose breakers admit everything, as in router_test.go. */
  ghost predicate TwoGateways<G, R>(g1: G, g2: G, env: Env<G, R>) {
    && env.nameOf(g1) == "gateway1" && env.nameOf(g2) == "gateway2"
    && forall b, h :: env.decide(b, h) == None
  }

  /**
   * router_test.go, "Fallback to second gateway": the preferred gateway1 fails with
   * ErrGatewayUnavailable, so gateway2 serves the request.
   */
  lemma FallbackExample<G, R>(g1: G, g2: G, zero: G, v: R, bank: CB.Bank, env: Env<G, R>)
    requires TwoGateways(g1, g2, env)
    requires env.op(0, g1) == Failure(Gateway.ErrGatewayUnavailable) && env.op(1, g2) == Success(v)
    ensures var r := Route(map["gateway1" := g1, "gateway2" := g2], ["gateway1", "gateway2"], zero, "gateway1", bank, env);
      && r.result == Success(Response("gateway2", v)) && r.invoked == [0, 1]
      && CB.History(r.bank, "gateway1") == CB.History(bank, "gateway1") + [CB.Admitted, CB.Reported(false)]
      && CB.History(r.bank, "gateway2") == CB.History(bank, "gateway2") + [CB.Admitted, CB.Reported(true)]
  {
    var m := map["gateway1" := g1, "gateway2" := g2];
    var order := ["gateway1", "gateway2"];
    PreferFirstRegistered(m, order, zero);
    var cands := [g1, g2];
    assert [m["gateway1"], m["gateway2"]] == cands;
    var e := Some(Gateway.ErrGatewayUnavailable);
    var b0r := CB.Report(CB.Allow(bank, env.settings, env.decide, "gateway1").bank, "gateway1", false);
    var b1r := CB.Report(CB.Allow(b0r, env.settings, env.decide, "gateway2").bank, "gateway2", true);
    RouteStep(cands, 0, bank, env, None);
    RouteStep(cands, 1, b0r, env, e);
    assert RouteFrom(cands, 1, b0r, env, e) == Routed(Success(Response("gateway2", v)), [1], b1r);
    FallbackHistories(bank, env);
  }

  /** The bank after gateway1 is admitted and fails, then gateway2 is admitted and succeeds. */
  lemma FallbackHistories<G, R>(bank: CB.Bank, env: Env<G, R>)
    requires forall b, h :: env.decide(b, h) == None
    ensures var b0r := CB.Report(CB.Allow(bank, env.settings, env.decide, "gateway1").bank, "gateway1", false);
      var b1r := CB.Report(CB.Allow(b0r, env.settings, env.decide, "gateway2").bank, "gateway2", true);
      && CB.Allow(bank, env.settings, env.decide, "gateway1").denial == None
      && CB.Allow(b0r, env.settings, env.decide, "gateway2").denial == None
      && CB.History(b1r, "gateway1") == CB.History(bank, "gateway1") + [CB.Admitted, CB.Reported(false)]
      && CB.History(b1r, "gateway2") == CB.History(bank, "gateway2") + [CB.Admitted, CB.Reported(true)]
  {
    var b0 := CB.Allow(bank, env.settings, env.decide, "gateway1").bank;
    var b0r := CB.Report(b0, "gateway1", false);
    var b1 := CB.Allow(b0r, env.settings, env.decide, "gateway2").bank;
    CB.AllowSpec(bank, env.settings, env.decide, "gateway1");
    CB.ReportSpec(b0, "gateway1", false);
    CB.AllowSpec(b0r, env.settings, env.decide, "gateway2");
    CB.ReportSpec(b1, "gateway2", true);
    CB.OtherHistoriesUnchanged(bank, env.settings, env.decide, "gateway1", false, "gateway2");
    CB.OtherHistoriesUnchanged(b0r, env.settings, env.decide, "gateway2", true, "gateway1");
  }

  /** router_test.go, "All gateways fail": the message is "all gateways failed: gateway unavailable". */
  lemma AllFailExample<G, R>(g1: G, g2: G, zero: G, bank: CB.Bank, env: Env<G, R>)
    requires TwoGateways(g1, g2, env)
    requires env.op(0, g1) == Failure(Gateway.ErrGatewayUnavailable)
    requires env.op(1, g2) == Failure(Gateway.ErrGatewayUnavailable)
    ensures var r := Route(map["gateway1" := g1, "gateway2" := g2], ["gateway1", "gateway2"], zero, "gateway1", bank, env);
      && r.result == Failure(Wrap("all gateways failed", Gateway.ErrGatewayUnavailable))
      && Text(r.result.error) == "all gateways failed: gateway unavailable"
  {
    var m := map["gateway1" := g1, "gateway2" := g2];
    var order := ["gateway1", "gateway2"];
    var cands := [g1, g2];
    assert Route(m, order, zero, "gateway1", bank, env) == RouteFrom(cands, 0, bank, env, None) by {
      PreferFirstRegistered(m, order, zero);
    }
    var e := Gateway.ErrGatewayUnavailable;
    var a0 := CB.Allow(bank, env.settings, env.decide, "gateway1");
    var b1 := CB.Report(a0.bank, "gateway1", false);
    assert RouteFrom(cands, 0, bank, env, None).result == RouteFrom(cands, 1, b1, env, Some(e)).result by {
      RouteStep(cands, 0, bank, env, None);
    }
    var a1 := CB.Allow(b1, env.settings, env.decide, "gateway2");
    var b2 := CB.Report(a1.bank, "gateway2", false);
    assert RouteFrom(cands, 1, b1, env, Some(e)).result == RouteFrom(cands, 2, b2, env, Some(e)).result by {
      RouteStep(cands, 1, b1, env, Some(e));
    }
    assert RouteFrom(cands, 2, b2, env, Some(e)).result == Failure(Wrap("all gateways failed", e));
    AllFailedText();
  }

  /** The message of that error, as the test compares it. */
  lemma AllFailedText()
    ensures Text(Wrap("all gateways failed", Gateway.ErrGatewayUnavailable)) == "all gateways failed: gateway unavailable"
  {
  }

  /**
   * router_test.go, "Fallback to Gateway B" (which expects GatewayA): an unknown
   * preferred name routes to the first registered gateway.
   */
  lemma UnknownPreferredExample<G, R>(ga: G, gb: G, zero: G, v: R, bank: CB.Bank, env: Env<G, R>)
    requires env.nameOf(ga) == "GatewayA" && env.nameOf(gb) == "GatewayB"
    requires forall b, h :: env.decide(b, h) == None
    requires forall n, g :: env.op(n, g) == Success(v)
    ensures var r := Route(map["GatewayA" := ga, "GatewayB" := gb], ["GatewayA", "GatewayB"], zero, "NonExistentGateway", bank, env);
      r.result == Success(Response("GatewayA", v)) && r.invoked == [0]
  {
    var m := map["GatewayA" := ga, "GatewayB" := gb];
    var order := ["GatewayA", "GatewayB"];
    assert OrderedRegistry.Values(m, order) == [ga, gb] by {
      assert order[..1] == ["GatewayA"];
      assert OrderedRegistry.Values(m, order[..1]) == [ga] by {
        assert order[..1][..0] == [];
      }
    }
  }

  /** Preferring the first name of a two-name order keeps the order. */
  lemma PreferFirstRegistered<G>(m: map<string, G>, order: seq<string>, zero: G)
    requires |order| == 2 && order[0] != "" && order[0] != order[1]
    requires order[0] in m && order[1] in m
    ensures OrderedRegistry.PreferenceList(m, order, zero, order[0]) == Success([m[order[0]], m[order[1]]])
  {
    var rest := OrderedRegistry.RemoveAt(order, 0);
    assert rest == [order[1]];
    assert rest[..0] == [];
    assert OrderedRegistry.Lookups(m, zero, rest) == [m[order[1]]];
    assert [m[order[0]]] + [m[order[1]]] == [m[order[0]], m[order[1]]];
  }
}
