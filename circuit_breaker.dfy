/**
 * The bank of circuit breakers of internal/router/circuit_breaker.go: one breaker per
 * gateway name, created lazily on top of the generic ordered registry.
 *
 * The breaker itself (gobreaker's two-step state machine) is a foreign library and is
 * kept opaque: a breaker is the settings it was built from, and whether it admits a
 * request is an oracle `decide` of the breaker and of everything that has happened to
 * it so far (its admissions, rejections and reported outcomes). Calling the `done`
 * callback that an admission returns appends the reported outcome to that history.
 */
module CircuitBreaker {
  import opened Wrappers
  import opened ErrorChain
  import OrderedRegistry

  /**
   * gobreaker.Settings. The ReadyToTrip, OnStateChange and IsSuccessful callbacks
   * belong to the breaker's state machine and are not part of this model.
   */
  datatype Settings = Settings(name: string, maxRequests: nat, interval: int, timeout: int)

  /** A *TwoStepCircuitBreaker: nil, or the breaker built from some settings. */
  datatype Breaker = NilBreaker | TwoStep(settings: Settings)

  /** What happened to a breaker: Allow admitted or rejected a request, or done(success) ran. */
  datatype Event = Admitted | Rejected(reason: Error) | Reported(success: bool)

  /** The breaker's Allow: None admits, Some(err) rejects (an open or saturated circuit). */
  type Decide = (Breaker, seq<Event>) -> Option<Error>

  /** NewTwoStepCircuitBreaker over a copy of the bank's settings with Name overridden. */
  function NewBreaker(s: Settings, name: string): (b: Breaker)
    ensures b.TwoStep? && b.settings.name == name
    ensures b.settings.(name := s.name) == s
  {
    TwoStep(s.(name := name))
  }

  /** The bank's state: the registry's two fields and every breaker's history. */
  datatype Bank = Bank(breakers: map<string, Breaker>, order: seq<string>, history: map<string, seq<Event>>)

  /**
   * The bank's invariant: the registry's map/order bijection holds, and the breaker
   * under each name was built from the bank's settings with that name.
   */
  ghost predicate WellFormed(b: Bank, s: Settings) {
    && OrderedRegistry.Consistent(b.breakers, b.order)
    && forall n :: n in b.breakers ==> b.breakers[n] == NewBreaker(s, n)
  }

  /** The history of the breaker for `name`, empty before its first use. */
  function History(b: Bank, name: string): seq<Event> {
    if name in b.history then b.history[name] else []
  }

  /** ensureCircuitBreaker: register a breaker for `name` unless there is one. */
  function Ensure(b: Bank, s: Settings, name: string): (r: Bank)
    ensures name in r.breakers && r.history == b.history
    ensures name in b.breakers ==> r == b
    ensures name !in b.breakers ==>
      r.breakers == b.breakers[name := NewBreaker(s, name)] && r.order == b.order + [name]
  {
    if name in b.breakers then b
    else b.(breakers := b.breakers[name := NewBreaker(s, name)], order := b.order + [name])
  }

  /** What isRequestAllowed answers (None admits) and the bank it leaves. */
  datatype Answer = Answer(denial: Option<Error>, bank: Bank)

  /** isRequestAllowed: ensure the breaker, ask it, and record its answer. */
  function Allow(b: Bank, s: Settings, decide: Decide, name: string): Answer {
    var e := Ensure(b, s, name);
    var d := decide(e.breakers[name], History(e, name));
    var event := match d case None => Admitted case Some(reason) => Rejected(reason);
    Answer(d, e.(history := e.history[name := History(e, name) + [event]]))
  }

  /**
   * Allow leaves the registry as Ensure does, answers what the breaker for `name`
   * (built from the bank's settings) decides on its history so far, and appends that
   * answer to the history.
   */
  lemma AllowSpec(b: Bank, s: Settings, decide: Decide, name: string)
    ensures var r := Allow(b, s, decide, name);
      && r.bank.breakers == Ensure(b, s, name).breakers && r.bank.order == Ensure(b, s, name).order
      && (WellFormed(b, s) ==> r.denial == decide(NewBreaker(s, name), History(b, name)))
      && History(r.bank, name) == History(b, name) + [if r.denial.None? then Admitted else Rejected(r.denial.value)]
  {
  }

  /** The `done(success)` callback of an admitted request. */
  function Report(b: Bank, name: string, success: bool): Bank {
    b.(history := b.history[name := History(b, name) + [Reported(success)]])
  }

  /** Report changes no breaker and appends the outcome to the history of `name`. */
  lemma ReportSpec(b: Bank, name: string, success: bool)
    ensures var r := Report(b, name, success);
      && r.breakers == b.breakers && r.order == b.order
      && History(r, name) == History(b, name) + [Reported(success)]
  {
  }

  /** Allow and Report touch only the history of the name they are given. */
  lemma OtherHistoriesUnchanged(b: Bank, s: Settings, decide: Decide, name: string, success: bool, other: string)
    requires other != name
    ensures History(Allow(b, s, decide, name).bank, other) == History(b, other)
    ensures History(Report(b, name, success), other) == History(b, other)
  {
  }

  /**
   * Ensuring a breaker keeps the invariant, adds exactly one breaker for a new name
   * (and none for a known one), and leaves every other name's breaker as it was.
   */
  lemma EnsureKeepsWellFormed(b: Bank, s: Settings, name: string)
    requires WellFormed(b, s)
    ensures var r := Ensure(b, s, name);
      && WellFormed(r, s)
      && |r.breakers| == |b.breakers| + (if name in b.breakers then 0 else 1)
      && r.breakers[name] == NewBreaker(s, name)
      && forall n :: n != name ==> (n in r.breakers <==> n in b.breakers)
  {
    if name !in b.breakers {
      OrderedRegistry.ConsistentRegister(b.breakers, b.order, name, NewBreaker(s, name));
    }
  }

  /** Ensuring twice is ensuring once, and a breaker is never replaced. */
  lemma EnsureIdempotent(b: Bank, s: Settings, name: string)
    ensures Ensure(Ensure(b, s, name), s, name) == Ensure(b, s, name)
    ensures forall n :: n in b.breakers ==> Ensure(b, s, name).breakers[n] == b.breakers[n]
  {
  }

  /** Allow and Report keep the invariant. */
  lemma StepsKeepWellFormed(b: Bank, s: Settings, decide: Decide, name: string, success: bool)
    requires WellFormed(b, s)
    ensures WellFormed(Allow(b, s, decide, name).bank, s)
    ensures WellFormed(Report(b, name, success), s)
  {
    EnsureKeepsWellFormed(b, s, name);
  }

  /**
   * A history in which every admission is followed at once by exactly one reported
   * outcome, and every report answers an admission.
   */
  predicate Balanced(h: seq<Event>)
    decreases |h|
  {
    if h == [] then true
    else if h[0].Rejected? then Balanced(h[1..])
    else |h| >= 2 && h[0] == Admitted && h[1].Reported? && Balanced(h[2..])
  }

  ghost predicate AllBalanced(b: Bank) {
    forall n :: n in b.history ==> Balanced(b.history[n])
  }

  lemma {:induction false} BalancedAppend(h: seq<Event>, tail: seq<Event>)
    requires Balanced(h) && Balanced(tail)
    ensures Balanced(h + tail)
    decreases |h|
  {
    if h != [] {
      assert (h + tail)[0] == h[0];
      if h[0].Rejected? {
        assert (h + tail)[1..] == h[1..] + tail;
        BalancedAppend(h[1..], tail);
      } else {
        assert (h + tail)[1] == h[1];
        assert (h + tail)[2..] == h[2..] + tail;
        BalancedAppend(h[2..], tail);
      }
    } else {
      assert h + tail == tail;
    }
  }

  /** A rejection, or an admission answered by its report, keeps every history balanced. */
  lemma BalancedSteps(b: Bank, s: Settings, decide: Decide, name: string, success: bool)
    requires AllBalanced(b)
    ensures var a := Allow(b, s, decide, name);
      a.denial.Some? ==> AllBalanced(a.bank)
    ensures var a := Allow(b, s, decide, name);
      a.denial.None? ==> AllBalanced(Report(a.bank, name, success))
  {
    var a := Allow(b, s, decide, name);
    var d, b1 := a.denial, a.bank;
    AllowSpec(b, s, decide, name);
    ReportSpec(b1, name, success);
    forall n | n != name
      ensures History(b1, n) == History(b, n) && History(Report(b1, name, success), n) == History(b, n)
    {
      OtherHistoriesUnchanged(b, s, decide, name, success, n);
      OtherHistoriesUnchanged(b1, s, decide, name, success, n);
    }
    assert Balanced(History(b, name)) by {
      assert History(b, name) == [] || History(b, name) == b.history[name];
    }
    if d.Some? {
      assert Balanced([Rejected(d.value)]) by {
        assert [Rejected(d.value)][1..] == [];
      }
      BalancedAppend(History(b, name), [Rejected(d.value)]);
    } else {
      var b2 := Report(b1, name, success);
      assert Balanced([Admitted, Reported(success)]) by {
        assert [Admitted, Reported(success)][2..] == [];
      }
      BalancedAppend(History(b, name), [Admitted, Reported(success)]);
      assert History(b2, name) == History(b, name) + [Admitted, Reported(success)];
    }
  }

  /** The circuitBreakers struct: its registry of breakers and its settings. */
  class CircuitBreakers {
    const circuitBreakers: OrderedRegistry.Registry<Breaker>
    const settings: Settings
    /** How the breakers answer Allow. */
    const decide: Decide
    /** The history of each breaker's internal state, as far as the bank drove it. */
    var history: map<string, seq<Event>>

    function State(): Bank
      reads this, circuitBreakers
    {
      Bank(circuitBreakers.registry, circuitBreakers.order, history)
    }

    ghost predicate Valid()
      reads this, circuitBreakers
    {
      circuitBreakers.zero == NilBreaker && WellFormed(State(), settings)
    }

    /** newCircuitBreakers: an empty registry and the given settings, unchanged. */
    constructor (settings: Settings, decide: Decide)
      ensures this.settings == settings && this.decide == decide
      ensures State() == Bank(map[], [], map[])
      ensures fresh(circuitBreakers)
      ensures Valid()
    {
      circuitBreakers := new OrderedRegistry.Registry(NilBreaker);
      this.settings := settings;
      this.decide := decide;
      history := map[];
    }

    /**
     * ensureCircuitBreaker. It never fails: Register runs only after Get reported
     * the name absent, so the registry cannot refuse it.
     */
    method EnsureCircuitBreaker(gatewayName: string) returns (err: Option<Error>)
      requires Valid()
      modifies circuitBreakers
      ensures err == None
      ensures State() == Ensure(old(State()), settings, gatewayName)
      ensures Valid()
    {
      var _, getErr := circuitBreakers.Get(gatewayName);
      if getErr.None? {
        return None;
      }
      EnsureKeepsWellFormed(State(), settings, gatewayName);
      var s := settings.(name := gatewayName);
      var cb := TwoStep(s);
      var regErr := circuitBreakers.Register(gatewayName, cb);
      err := match regErr
        case None => None
        case Some(e) => Some(Wrap("failed to register circuit breaker", e));
    }

    /** getCircuitBreaker: succeeds for every name, creating its breaker if absent. */
    method GetCircuitBreaker(gatewayName: string) returns (cb: Breaker, err: Option<Error>)
      requires Valid()
      modifies circuitBreakers
      ensures err == None && cb == NewBreaker(settings, gatewayName)
      ensures State() == Ensure(old(State()), settings, gatewayName)
      ensures Valid()
    {
      var ensureErr := EnsureCircuitBreaker(gatewayName);
      match ensureErr {
        case Some(e) =>
          cb, err := NilBreaker, Some(Wrap("failed to ensure circuit breaker", e));
        case None =>
          var getErr;
          cb, getErr := circuitBreakers.Get(gatewayName);
          err := None;
      }
    }

    /**
     * isRequestAllowed: the breaker's own Allow answer for that name (None admits),
     * after ensuring the breaker exists; the answer joins the breaker's history.
     */
    method IsRequestAllowed(gatewayName: string) returns (err: Option<Error>)
      requires Valid()
      modifies this, circuitBreakers
      ensures Answer(err, State()) == Allow(old(State()), settings, decide, gatewayName)
      ensures Valid()
    {
      ghost var before := State();
      var cb, cbErr := GetCircuitBreaker(gatewayName);
      match cbErr {
        case Some(e) =>
          err := Some(Wrap("failed to get circuit breaker", e));
        case None =>
          var h := if gatewayName in history then history[gatewayName] else [];
          err := decide(cb, h);
          var event := match err case None => Admitted case Some(reason) => Rejected(reason);
          history := history[gatewayName := h + [event]];
      }
      StepsKeepWellFormed(before, settings, decide, gatewayName, true);
    }

    /** The `done(success)` callback returned by an admission for `gatewayName`. */
    method Done(gatewayName: string, success: bool)
      requires Valid()
      modifies this
      ensures State() == Report(old(State()), gatewayName, success)
      ensures Valid()
    {
      var h := if gatewayName in history then history[gatewayName] else [];
      history := history[gatewayName := h + [Reported(success)]];
    }
  }
}
