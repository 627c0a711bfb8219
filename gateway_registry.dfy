/**
 * The older, non-generic gateway registry of internal/gateway/registry.go. It keeps the
 * same two fields as the generic registry, but SetOrder checks only membership, and
 * ListWithPreference refuses a preferred name that is not in the order sequence.
 *
 * The gateway type is kept as a type parameter `G`; `zero` stands for the nil
 * PaymentGateway that Get and map indexing yield for a missing name.
 */
module GatewayRegistry {
  import opened Wrappers
  import opened ErrorChain
  import opened OrderedRegistry

  /** This SetOrder's verdict: every listed name must be registered; no length check. */
  function LegacyOrderVerdict<G>(m: map<string, G>, order: seq<string>): (e: Option<Error>)
    ensures e.None? <==> forall n :: n in order ==> n in m
  {
    match FirstUnknown(m, order)
    case None => None
    case Some(n) => Some(Leaf("invalid gateway in order: " + n))
  }

  /** This ListWithPreference: an unknown preferred name is an error. */
  function LegacyPreferenceList<G>(m: map<string, G>, order: seq<string>, zero: G, preferred: string): (r: Result<seq<G>, Error>)
    ensures r.Success? && preferred != "" ==> |r.value| == |order|
  {
    if |order| == 0 then Failure(Leaf("no gateways registered"))
    else if preferred == "" then Success(Values(m, order))
    else
      var i := IndexOf(order, preferred);
      if i == -1 then Failure(Leaf("preferred gateway not found"))
      else Success([Lookup(m, zero, preferred)] + Lookups(m, zero, RemoveAt(order, i)))
  }

  /**
   * The two versions of ListWithPreference differ in exactly one case: a non-empty
   * preferred name missing from the order sequence. The older one fails there with
   * "preferred gateway not found"; wherever it succeeds, the generic one returns the
   * same list.
   */
  lemma PreferenceVersionsDiffer<G>(m: map<string, G>, order: seq<string>, zero: G, preferred: string)
    ensures var legacy := LegacyPreferenceList(m, order, zero, preferred);
      && (legacy.Failure? <==> order == [] || (preferred != "" && preferred !in order))
      && (legacy.Success? ==> legacy == PreferenceList(m, order, zero, preferred))
      && (order != [] && preferred != "" && preferred !in order ==>
            legacy == Failure(Leaf("preferred gateway not found"))
            && PreferenceList(m, order, zero, preferred) == Success(Values(m, order)))
  {
  }

  /**
   * SetOrder accepts an order that leaves registered names out. The generic version
   * refuses it for its length; afterwards List() omits the dropped gateways, and a
   * dropped gateway can no longer be preferred although it is still registered.
   */
  lemma ShorterOrderAccepted<G>(m: map<string, G>, order: seq<string>, newOrder: seq<string>, zero: G, dropped: string)
    requires Consistent(m, order)
    requires Distinct(newOrder) && forall n :: n in newOrder ==> n in m
    requires dropped in m && dropped !in newOrder && dropped != ""
    ensures LegacyOrderVerdict(m, newOrder).None?
    ensures OrderVerdict(m, |order|, newOrder).Some?
    ensures |Values(m, newOrder)| == |newOrder| < |m|
    ensures newOrder != [] ==> LegacyPreferenceList(m, newOrder, zero, dropped) == Failure(Leaf("preferred gateway not found"))
  {
    ConsistentSize(m, order);
    ValuesAllPresent(m, newOrder);
    DistinctCard(newOrder);
    var names := set k | k in newOrder;
    assert names <= m.Keys - {dropped};
    assert |names| <= |m.Keys - {dropped}| by {
      SubsetCard(names, m.Keys - {dropped});
    }
  }

  lemma SubsetCard(a: set<string>, b: set<string>)
    requires a <= b
    ensures |a| <= |b|
  {
    assert b == a + (b - a);
    assert a * (b - a) == {};
  }

  class Registry<G> {
    var gateways: map<string, G>
    var order: seq<string>
    /** The nil PaymentGateway. */
    const zero: G

    ghost predicate Valid()
      reads this
    {
      Consistent(gateways, order)
    }

    /** NewGatewayRegistry. */
    constructor (zero: G)
      ensures gateways == map[] && order == [] && this.zero == zero
      ensures Valid()
    {
      gateways := map[];
      order := [];
      this.zero := zero;
    }

    method Register(name: string, gateway: G) returns (err: Option<Error>)
      modifies this
      ensures err.Some? <==> name in old(gateways)
      ensures err.Some? ==> err.value == Leaf("gateway already registered")
      ensures err.Some? ==> gateways == old(gateways) && order == old(order)
      ensures err.None? ==> gateways == old(gateways)[name := gateway] && order == old(order) + [name]
      ensures old(Valid()) ==> Valid()
    {
      if name in gateways {
        return Some(Leaf("gateway already registered"));
      }
      if Valid() {
        ConsistentRegister(gateways, order, name, gateway);
      }
      gateways := gateways[name := gateway];
      order := order + [name];
      return None;
    }

    method Unregister(name: string) returns (err: Option<Error>)
      modifies this
      ensures err.Some? <==> name !in old(gateways)
      ensures err.Some? ==> err.value == Leaf("gateway not found")
      ensures err.Some? ==> gateways == old(gateways) && order == old(order)
      ensures err.None? ==> gateways == old(gateways) - {name} && order == RemoveFirst(old(order), name)
      ensures old(Valid()) ==> Valid()
    {
      if name !in gateways {
        return Some(Leaf("gateway not found"));
      }
      if Valid() {
        ConsistentUnregister(gateways, order, name);
      }
      gateways := gateways - {name};
      var i := 0;
      while i < |order|
        invariant 0 <= i <= |order| && order == old(order)
        invariant name !in order[..i]
      {
        if order[i] == name {
          IndexOfUnique(order, name, i);
          order := RemoveAt(order, i);
          return None;
        }
        assert order[..i + 1] == order[..i] + [order[i]];
        i := i + 1;
      }
      assert order[..i] == order;
      return None;
    }

    method Get(name: string) returns (gateway: G, err: Option<Error>)
      ensures err.None? <==> name in gateways
      ensures err.None? ==> gateway == gateways[name]
      ensures err.Some? ==> gateway == zero && err.value == Leaf("gateway not found")
    {
      if name !in gateways {
        return zero, Some(Leaf("gateway not found"));
      }
      return gateways[name], None;
    }

    method List() returns (result: seq<G>)
      ensures result == Values(gateways, order)
    {
      result := [];
      var i := 0;
      while i < |order|
        invariant 0 <= i <= |order|
        invariant result == Values(gateways, order[..i])
      {
        var gateway, err := Get(order[i]);
        assert order[..i + 1][..i] == order[..i];
        if err.None? {
          result := result + [gateway];
        }
        i := i + 1;
      }
      assert order[..i] == order;
    }

    method SetOrder(newOrder: seq<string>) returns (err: Option<Error>)
      modifies this
      ensures err == LegacyOrderVerdict(old(gateways), newOrder)
      ensures gateways == old(gateways)
      ensures order == if err.None? then newOrder else old(order)
    {
      var i := 0;
      while i < |newOrder|
        invariant 0 <= i <= |newOrder|
        invariant FirstUnknown(gateways, newOrder) == FirstUnknown(gateways, newOrder[i..])
      {
        if newOrder[i] !in gateways {
          return Some(Leaf("invalid gateway in order: " + newOrder[i]));
        }
        assert newOrder[i..][1..] == newOrder[i + 1..];
        i := i + 1;
      }
      order := newOrder;
      return None;
    }

    method ListWithPreference(preferred: string) returns (r: Result<seq<G>, Error>)
      ensures r == LegacyPreferenceList(gateways, order, zero, preferred)
    {
      if |order| == 0 {
        return Failure(Leaf("no gateways registered"));
      }
      if preferred == "" {
        var all := List();
        return Success(all);
      }
      var preferredIndex := -1;
      var i := 0;
      while i < |order|
        invariant 0 <= i <= |order|
        invariant preferred !in order[..i]
      {
        if order[i] == preferred {
          preferredIndex := i;
          break;
        }
        assert order[..i + 1] == order[..i] + [order[i]];
        i := i + 1;
      }
      if preferredIndex == -1 {
        assert order[..i] == order;
        return Failure(Leaf("preferred gateway not found"));
      }
      IndexOfUnique(order, preferred, preferredIndex);
      var ordered := PreferredFirst(gateways, zero, order, preferredIndex);
      return Success(ordered);
    }
  }
}
